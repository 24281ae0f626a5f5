/** When a match session is over (orp-ref/client/client.ts, finishConnect, sendOffer and close): the state is
 *  checked before an await and written after it.
 */
module SessionEnds {
  import opened Common
  import opened MessageLayer
  import opened MatchSessions

  /** The states finishConnect does not leave. */
  predicate Over(s: Session) { s.state.Connected? || s.state.Closed? }

  /** Nothing suspended writes the state, and no key frame can start another offer. */
  predicate Quiet(s: Session) {
    (forall n :: n in s.tasks ==> !s.tasks[n].DataChannel? && !s.tasks[n].OfferDescription?) &&
    (s.role.Initiator? ==> s.peer.Some?)
  }

  /** A session is started once, when it is made. */
  predicate Started(es: seq<Event>) { forall i :: 0 <= i < |es| ==> !es[i].Start? }

  /** Still over, no channel more, and closed if it was. */
  predicate StaysOver(s: Session, t: Session) {
    Over(t) && t.channels == s.channels && (s.state.Closed? ==> t.state.Closed?)
  }

  /** Whatever the board and the WebRTC stack do next. */
  ghost predicate Final(s: Session) {
    forall es :: Started(es) ==> StaysOver(s, Run(s, es))
  }

  lemma QuietStep(s: Session, e: Event)
    requires Over(s) && Quiet(s) && !e.Start?
    ensures StaysOver(s, Step(s, e)) && Quiet(Step(s, e))
  {
  }

  lemma {:induction false} QuietStays(s: Session, es: seq<Event>)
    requires Over(s) && Quiet(s) && Started(es)
    ensures StaysOver(s, Run(s, es))
    decreases |es|
  {
    if es == [] {
    } else {
      QuietStep(s, es[0]);
      assert forall i :: 0 <= i < |es[1..]| ==> es[1..][i] == es[i + 1];
      QuietStays(Step(s, es[0]), es[1..]);
    }
  }

  lemma RunOne(s: Session, e: Event)
    ensures Run(s, [e]) == Step(s, e)
  {
    assert [e][1..] == [];
    assert Run(s, [e]) == Run(Step(s, e), []);
  }

  lemma RunTwo(s: Session, a: Event, b: Event)
    ensures Run(s, [a, b]) == Step(Step(s, a), b)
  {
    assert [a, b][1..] == [b];
    assert Run(s, [a, b]) == Run(Step(s, a), [b]);
    RunOne(Step(s, a), b);
  }

  /** A key frame the session accepts. */
  function KeyFrom(s: Session, k: Pub): Frame {
    Frame(s.matchId, s.counterparty, KeyPhase(Some(k), Some(Binding(s.counterparty, k, s.counterparty))), s.counterparty)
  }

  lemma KeyReopens(s: Session, k: Pub)
    requires Inv(s) && s.role.Initiator? && s.peer.None?
    ensures Step(Step(s, Relay(Some(KeyFrom(s, k)))), Described(s.next, 0)).state == AwaitAnswer
  {
    assert VerifyMatchFrame(KeyFrom(s, k), s.counterparty).None?;
  }

  lemma NoisyIsNotFinal(s: Session) returns (es: seq<Event>)
    requires Inv(s) && Over(s) && !Quiet(s)
    ensures Started(es) && !StaysOver(s, Run(s, es))
  {
    if n :| n in s.tasks && s.tasks[n].DataChannel? {
      es := [ChannelUp(n)];
      RunOne(s, ChannelUp(n));
    } else if n :| n in s.tasks && s.tasks[n].OfferDescription? {
      es := [Described(n, 0)];
      RunOne(s, Described(n, 0));
    } else {
      es := [Relay(Some(KeyFrom(s, s.mine))), Described(s.next, 0)];
      RunTwo(s, es[0], es[1]);
      KeyReopens(s, s.mine);
    }
  }

  /** A session that is connected or closed stays so, and reports no further channel, if and only if no
   *  connectDataChannel and no offer is suspended and, for an initiator, the peer key is written. */
  lemma FinalIff(s: Session)
    requires Inv(s) && Over(s)
    ensures Final(s) <==> Quiet(s)
  {
    if Quiet(s) {
      forall es | Started(es) ensures StaysOver(s, Run(s, es)) { QuietStays(s, es); }
    } else {
      var es := NoisyIsNotFinal(s);
    }
  }

  // ---------------------------------------------------------------------------------------------
  // Runs
  // ---------------------------------------------------------------------------------------------

  function SignalingFrom(s: Session): Frame {
    Frame(s.matchId, s.counterparty, Signaling(Some(Box(s.mine, Some(0)))), s.counterparty)
  }

  /** Closed while the offer's description is being made, the session is waiting for an answer again. */
  lemma ClosedIsOverwritten(a: Id, ka: Pub, b: Id, kb: Pub, m: MatchId)
    ensures var s := Step(New(a, ka, Initiator, m, b), Start);
            var closed := Run(s, [Relay(Some(KeyFrom(s, kb))), Close]);
            closed.state == Closed && Step(closed, Described(0, 0)).state == AwaitAnswer
  {
    var s := Step(New(a, ka, Initiator, m, b), Start);
    RunTwo(s, Relay(Some(KeyFrom(s, kb))), Close);
  }

  /** With the offer out: state await-answer, the peer key written, nothing suspended. */
  function Offered(a: Id, ka: Pub, b: Id, kb: Pub, m: MatchId): Session {
    var s := Step(New(a, ka, Initiator, m, b), Start);
    Step(Step(s, Relay(Some(KeyFrom(s, kb)))), Described(0, 0))
  }

  /** An answer relayed twice before the data channel is up is reported twice. */
  lemma ConnectedTwice(a: Id, ka: Pub, b: Id, kb: Pub, m: MatchId)
    ensures var s := Offered(a, ka, b, kb, m);
            var f := Relay(Some(SignalingFrom(s)));
            var waiting := Step(Step(Step(Step(s, f), f), Applied(1)), Applied(2));
            var r := Step(Step(waiting, ChannelUp(3)), ChannelUp(4));
            r.channels == [DirectionalKeys(ka, kb), DirectionalKeys(ka, kb)]
  {
    var s := Offered(a, ka, b, kb, m);
    assert s.tasks == map[] && s.next == 1 && s.peer == Some(kb) && s.channels == [];
    TwoAnswers(s, Relay(Some(SignalingFrom(s))));
  }

  lemma TwoAnswers(s: Session, f: Event)
    requires s.tasks == map[] && s.next == 1 && s.peer.Some? && s.channels == [] && s.role.Initiator? && !Over(s)
    requires f == Relay(Some(SignalingFrom(s)))
    ensures var waiting := Step(Step(Step(Step(s, f), f), Applied(1)), Applied(2));
            Step(Step(waiting, ChannelUp(3)), ChannelUp(4)).channels ==
            [DirectionalKeys(s.mine, s.peer.value), DirectionalKeys(s.mine, s.peer.value)]
  {
    var s2 := Step(Step(s, f), f);
    assert s2.tasks == map[1 := ApplyThenFinish, 2 := ApplyThenFinish] && s2.next == 3;
    var s4 := Step(Step(s2, Applied(1)), Applied(2));
    assert s4.tasks == map[3 := DataChannel, 4 := DataChannel] && s4.peer == s.peer;
  }
}
