/** Delivery receipts over a secure channel (orp-ref/client/reliablechannel.ts, core/deliverylayer.ts).
 *
 *  Message ids and one-time ACK keys are numbers; a sealed receipt names the key it opens with. The timers
 *  of the injected clock that belong to the channel are part of its state.
 */
module ReliableChannels {
  import opened Common

  type MessageId = nat
  type AckKey = nat
  type TimerId = nat

  /** The sealed payload is None when it is not a JSON receipt. */
  datatype Sealed = Sealed(to: AckKey, messageId: Option<MessageId>)

  datatype Frame =
    | Msg(id: MessageId, ackKey: AckKey, body: string)
    | Ack(id: MessageId, receipt: Sealed)

  datatype Entry = Entry(body: string, ackKey: AckKey, timer: TimerId)

  datatype Outcome = Resolved | TimedOut

  datatype Settlement = Settlement(id: MessageId, outcome: Outcome)

  /** `sends` are the bodies of all sends so far, `settled` the calls of resolve and reject in order,
   *  `heard` the messages handed to the callback, `out` the frames given to the link. */
  datatype End = End(
    listening: bool, pending: map<MessageId, Entry>, timers: map<TimerId, MessageId>, nextTimer: TimerId,
    sends: map<MessageId, string>, settled: seq<Settlement>, heard: seq<Frame>, out: seq<Frame>)

  datatype Event =
    | Listen
    | Send(id: MessageId, ackKey: AckKey, body: string)
    | Raw(frame: Option<Frame>)
    | TimerFired(timer: TimerId)

  const INITIAL: End := End(false, map[], map[], 0, map[], [], [], [])

  predicate VerifyAck(f: Frame, ackKey: AckKey)
    requires f.Ack?
  {
    f.receipt.to == ackKey && f.receipt.messageId == Some(f.id)
  }

  /** The random message id is new. */
  function OnSend(s: End, id: MessageId, ackKey: AckKey, body: string): End {
    if id in s.sends then s
    else s.(nextTimer := s.nextTimer + 1, timers := s.timers[s.nextTimer := id],
            pending := s.pending[id := Entry(body, ackKey, s.nextTimer)], sends := s.sends[id := body],
            out := s.out + [Msg(id, ackKey, body)])
  }

  function OnMsg(s: End, f: Frame): End
    requires f.Msg?
  {
    s.(heard := if s.listening then s.heard + [f] else s.heard,
       out := s.out + [Ack(f.id, Sealed(f.ackKey, Some(f.id)))])
  }

  predicate Clears(s: End, f: Frame) { f.Ack? && f.id in s.pending && VerifyAck(f, s.pending[f.id].ackKey) }

  function OnAck(s: End, f: Frame): End
    requires f.Ack?
  {
    if !Clears(s, f) then s
    else s.(timers := s.timers - {s.pending[f.id].timer}, pending := s.pending - {f.id},
            settled := s.settled + [Settlement(f.id, Resolved)])
  }

  function OnTimer(s: End, t: TimerId): End {
    if t !in s.timers then s
    else
      var id := s.timers[t];
      var s' := s.(timers := s.timers - {t});
      if id !in s.pending then s'
      else s'.(pending := s.pending - {id}, settled := s.settled + [Settlement(id, TimedOut)])
  }

  function Step(s: End, e: Event): End {
    match e
    case Listen => s.(listening := true)
    case Send(id, ackKey, body) => OnSend(s, id, ackKey, body)
    case Raw(frame) =>
      if frame.None? then s else if frame.value.Msg? then OnMsg(s, frame.value) else OnAck(s, frame.value)
    case TimerFired(t) => OnTimer(s, t)
  }

  function Run(s: End, es: seq<Event>): End
    decreases |es|
  {
    if es == [] then s else Run(Step(s, es[0]), es[1..])
  }

  // ---------------------------------------------------------------------------------------------
  // One end, against any incoming frames
  // ---------------------------------------------------------------------------------------------

  /** Pending entries and armed timers name each other. */
  predicate OneTimerEach(s: End) {
    (forall id :: id in s.pending ==> s.pending[id].timer in s.timers && s.timers[s.pending[id].timer] == id) &&
    (forall t :: t in s.timers ==> t < s.nextTimer && s.timers[t] in s.pending && s.pending[s.timers[t]].timer == t)
  }

  function SettledIds(s: End): set<MessageId> { set i | 0 <= i < |s.settled| :: s.settled[i].id }

  /** Every send is pending or settled, not both, and settled once. */
  predicate Accounted(s: End) {
    (forall i, j :: 0 <= i < j < |s.settled| ==> s.settled[i].id != s.settled[j].id) &&
    (forall id :: id in s.pending ==> id in s.sends && s.pending[id].body == s.sends[id] && id !in SettledIds(s)) &&
    (forall id :: id in SettledIds(s) ==> id in s.sends) &&
    (forall id :: id in s.sends ==> id in s.pending || id in SettledIds(s))
  }

  function CountOf(xs: seq<Settlement>, o: Outcome): nat {
    if xs == [] then 0 else CountOf(xs[..|xs| - 1], o) + if xs[|xs| - 1].outcome == o then 1 else 0
  }

  lemma {:induction false} CountsAdd(xs: seq<Settlement>)
    ensures CountOf(xs, Resolved) + CountOf(xs, TimedOut) == |xs|
  {
    if xs == [] {
    } else {
      CountsAdd(xs[..|xs| - 1]);
    }
  }

  predicate Inv(s: End) { OneTimerEach(s) && Accounted(s) }

  lemma SettleKeeps(s: End, id: MessageId, o: Outcome)
    requires Inv(s) && id in s.pending
    ensures Inv(s.(timers := s.timers - {s.pending[id].timer}, pending := s.pending - {id},
                   settled := s.settled + [Settlement(id, o)]))
  {
    var t := s.(timers := s.timers - {s.pending[id].timer}, pending := s.pending - {id},
                settled := s.settled + [Settlement(id, o)]);
    assert t.settled[|s.settled|].id == id;
    assert SettledIds(t) == SettledIds(s) + {id} by {
      forall x | x in SettledIds(s) ensures x in SettledIds(t) {
        var i :| 0 <= i < |s.settled| && s.settled[i].id == x;
        assert t.settled[i].id == x;
      }
    }
    forall i | 0 <= i < |s.settled| ensures s.settled[i].id != id { assert s.settled[i].id in SettledIds(s); }
  }

  lemma SendKeeps(s: End, id: MessageId, ackKey: AckKey, body: string)
    requires Inv(s)
    ensures Inv(Step(s, Send(id, ackKey, body)))
  {
    if id !in s.sends {
      assert id !in SettledIds(s);
      assert SettledIds(Step(s, Send(id, ackKey, body))) == SettledIds(s);
    }
  }

  lemma StepKeeps(s: End, e: Event)
    requires Inv(s)
    ensures Inv(Step(s, e))
  {
    match e
    case Send(id, ackKey, body) => SendKeeps(s, id, ackKey, body);
    case Raw(frame) =>
      if frame.Some? && Clears(s, frame.value) { SettleKeeps(s, frame.value.id, Resolved); }
      else { assert SettledIds(Step(s, e)) == SettledIds(s); }
    case TimerFired(t) =>
      if t in s.timers { SettleKeeps(s, s.timers[t], TimedOut); }
    case Listen => assert SettledIds(Step(s, e)) == SettledIds(s);
  }

  lemma {:induction false} SettledSize(xs: seq<Settlement>, ids: set<MessageId>)
    requires forall i, j :: 0 <= i < j < |xs| ==> xs[i].id != xs[j].id
    requires forall id :: id in ids <==> exists i :: 0 <= i < |xs| && xs[i].id == id
    ensures |ids| == |xs|
  {
    if xs == [] {
      assert ids == {};
    } else {
      var last := xs[|xs| - 1].id;
      var shorter := xs[..|xs| - 1];
      forall id ensures id in ids - {last} <==> exists i :: 0 <= i < |shorter| && shorter[i].id == id {
        if id in ids - {last} {
          var i :| 0 <= i < |xs| && xs[i].id == id;
          assert shorter[i].id == id;
        }
      }
      SettledSize(shorter, ids - {last});
      assert last in ids;
    }
  }

  lemma {:induction false} Paired(s: End, ts: set<TimerId>, ids: set<MessageId>)
    requires OneTimerEach(s) && ts <= s.timers.Keys && ids <= s.pending.Keys
    requires forall t :: t in ts ==> s.timers[t] in ids
    requires forall id :: id in ids ==> s.pending[id].timer in ts
    ensures |ts| == |ids|
    decreases ts
  {
    if ts == {} {
      assert ids == {};
    } else {
      var t :| t in ts;
      Paired(s, ts - {t}, ids - {s.timers[t]});
    }
  }

  lemma SendsSplit(s: End)
    requires Accounted(s)
    ensures s.sends.Keys == s.pending.Keys + SettledIds(s) && s.pending.Keys !! SettledIds(s)
  {
  }

  lemma SendsAddUp(s: End)
    requires Accounted(s)
    ensures |s.sends| == |s.pending| + |s.settled|
  {
    var ids := SettledIds(s);
    SettledSize(s.settled, ids);
    SendsSplit(s);
    DisjointSize(s.pending.Keys, ids);
    assert |s.sends| == |s.sends.Keys| && |s.pending| == |s.pending.Keys|;
  }

  lemma TimersAddUp(s: End)
    requires OneTimerEach(s)
    ensures |s.timers| == |s.pending|
  {
    Paired(s, s.timers.Keys, s.pending.Keys);
    assert |s.timers| == |s.timers.Keys| && |s.pending| == |s.pending.Keys|;
  }

  /** In every run: as many timers as pending entries, each send settled at most once, and
   *  sent = pending + resolved + timed out. */
  lemma {:induction false} EveryRunAddsUp(s: End, es: seq<Event>)
    requires Inv(s)
    ensures var r := Run(s, es);
            Inv(r) && |r.timers| == |r.pending| &&
            |r.sends| == |r.pending| + CountOf(r.settled, Resolved) + CountOf(r.settled, TimedOut)
    decreases |es|
  {
    if es == [] {
      CountsAdd(s.settled);
      SendsAddUp(s);
      TimersAddUp(s);
    } else {
      StepKeeps(s, es[0]);
      EveryRunAddsUp(Step(s, es[0]), es[1..]);
    }
  }

  lemma SettledGrows(s: End, e: Event)
    ensures s.settled <= Step(s, e).settled
  {
  }

  /** Settled is settled: for the rest of every run a send keeps its one outcome, is not pending again, and no
   *  ACK for it, genuine or forged, changes anything. */
  lemma {:induction false} SettledForGood(s: End, es: seq<Event>, i: nat, f: Frame)
    requires Inv(s) && i < |s.settled| && f.Ack? && f.id == s.settled[i].id
    ensures var r := Run(s, es);
            i < |r.settled| && r.settled[i] == s.settled[i] && f.id !in r.pending && Step(r, Raw(Some(f))) == r
    decreases |es|
  {
    if es == [] {
      assert s.settled[i].id in SettledIds(s);
    } else {
      StepKeeps(s, es[0]);
      SettledGrows(s, es[0]);
      SettledForGood(Step(s, es[0]), es[1..], i, f);
    }
  }

  /** A new send is pending with a timer of its own, and its frame is on the link. */
  lemma SendStarts(s: End, id: MessageId, ackKey: AckKey, body: string)
    requires Inv(s) && id !in s.sends
    ensures var v := Step(s, Send(id, ackKey, body));
            id in v.pending && v.pending[id].ackKey == ackKey && v.pending[id].body == body && v.pending[id].timer !in s.timers &&
            v.pending[id].timer in v.timers && v.out == s.out + [Msg(id, ackKey, body)] && v.settled == s.settled &&
            forall x :: x in s.pending ==> x in v.pending && v.pending[x] == s.pending[x]
  {
  }

  /** The timer of a pending send rejects it, and the timer is gone; every other send stays as it is. */
  lemma TimeoutRejects(s: End, t: TimerId)
    requires Inv(s) && t in s.timers
    ensures var id, v := s.timers[t], Step(s, TimerFired(t));
            id in s.pending && v.pending == s.pending - {id} && v.timers == s.timers - {t} &&
            v.settled == s.settled + [Settlement(id, TimedOut)] && v.out == s.out && v.heard == s.heard
  {
  }

  /** A genuine receipt for this send: sealed to its one-time key, and naming it. */
  predicate GenuineReceipt(f: Frame, id: MessageId, ackKey: AckKey) {
    f.Ack? && f.id == id && f.receipt == Sealed(ackKey, Some(id))
  }

  predicate Received(es: seq<Event>, id: MessageId, ackKey: AckKey) {
    exists i :: 0 <= i < |es| && es[i].Raw? && es[i].frame.Some? && GenuineReceipt(es[i].frame.value, id, ackKey)
  }

  /** How one event settles a pending send: by its receipt, or by its timer. */
  lemma SettlesIff(s: End, e: Event, id: MessageId)
    requires Inv(s) && id in s.pending
    ensures var v, k := Step(s, e), s.pending[id].ackKey;
            if e.Raw? && e.frame.Some? && GenuineReceipt(e.frame.value, id, k)
            then id !in v.pending && v.settled == s.settled + [Settlement(id, Resolved)]
            else if e == TimerFired(s.pending[id].timer) then id !in v.pending && v.settled == s.settled + [Settlement(id, TimedOut)]
            else id in v.pending && v.pending[id] == s.pending[id]
  {
    if e.TimerFired? && e.timer in s.timers { TimeoutRejects(s, e.timer); }
  }

  /** Whatever arrives, forged, late or duplicated: a send that is pending is resolved some time later only if a receipt
   *  for it arrived, sealed to its own one-time key; and once one arrives it is settled. */
  lemma {:induction false} ResolvedByReceipt(s: End, es: seq<Event>, id: MessageId)
    requires Inv(s) && id in s.pending
    ensures var r := Run(s, es);
            (Settlement(id, Resolved) in r.settled ==> Received(es, id, s.pending[id].ackKey)) &&
            (Received(es, id, s.pending[id].ackKey) ==> id !in r.pending && id in SettledIds(r))
    decreases |es|
  {
    var k := s.pending[id].ackKey;
    if es == [] {
      assert forall i :: 0 <= i < |s.settled| ==> s.settled[i].id in SettledIds(s);
    } else {
      var v := Step(s, es[0]);
      StepKeeps(s, es[0]);
      SettlesIff(s, es[0], id);
      assert es == [es[0]] + es[1..];
      if id in v.pending {
        ResolvedByReceipt(v, es[1..], id);
        ReceivedMore(es, id, k);
      } else {
        var f := Ack(id, Sealed(k, None));
        SettledForGood(v, es[1..], |s.settled|, f);
        var r := Run(s, es);
        assert r.settled[|s.settled|].id == id;
        EveryRunAddsUp(v, es[1..]);
        OnceSettled(r, Settlement(id, Resolved), |s.settled|);
      }
    }
  }

  lemma ReceivedMore(es: seq<Event>, id: MessageId, k: AckKey)
    requires es != []
    ensures Received(es, id, k) <==>
            (es[0].Raw? && es[0].frame.Some? && GenuineReceipt(es[0].frame.value, id, k)) || Received(es[1..], id, k)
  {
    if Received(es[1..], id, k) {
      var i :| 0 <= i < |es| - 1 && es[1..][i].Raw? && es[1..][i].frame.Some? && GenuineReceipt(es[1..][i].frame.value, id, k);
      assert es[i + 1] == es[1..][i];
    }
    if Received(es, id, k) {
      var i :| 0 <= i < |es| && es[i].Raw? && es[i].frame.Some? && GenuineReceipt(es[i].frame.value, id, k);
      if i > 0 { assert es[1..][i - 1] == es[i]; }
    }
  }

  /** A send has one outcome. */
  lemma OnceSettled(s: End, o: Settlement, i: nat)
    requires Accounted(s) && i < |s.settled| && s.settled[i].id == o.id
    ensures o in s.settled <==> s.settled[i] == o
  {
  }

  // ---------------------------------------------------------------------------------------------
  // What an end gives to the link
  // ---------------------------------------------------------------------------------------------

  /** The receipt that acknowledges a message: sealed to its own key and naming its id. */
  predicate Receipts(f: Frame, msg: Frame) {
    f.Ack? && msg.Msg? && f.id == msg.id && f.receipt.to == msg.ackKey && f.receipt.messageId == Some(msg.id)
  }

  predicate IsAcked(out: seq<Frame>, msg: Frame) { exists j :: 0 <= j < |out| && Receipts(out[j], msg) }

  /** Every message handed to the callback has its receipt on the link. */
  predicate HeardIsAcked(s: End) { forall i :: 0 <= i < |s.heard| ==> IsAcked(s.out, s.heard[i]) }

  /** Every pending send has its frame on the link, with the key it waits for. */
  predicate PendingIsOut(s: End) {
    forall id :: id in s.pending ==> Msg(id, s.pending[id].ackKey, s.pending[id].body) in s.out
  }

  /** A message is answered with one receipt, whether or not a callback is set; nothing else that arrives is
   *  answered, and a callback that is set is told of exactly the messages. */
  lemma AnsweredIff(s: End, frame: Option<Frame>)
    ensures var v := Step(s, Raw(frame));
            if frame.Some? && frame.value.Msg?
            then |v.out| == |s.out| + 1 && s.out <= v.out && Receipts(v.out[|s.out|], frame.value) &&
                 v.heard == s.heard + (if s.listening then [frame.value] else [])
            else v.out == s.out && v.heard == s.heard
  {
  }

  lemma AckedStep(s: End, e: Event)
    requires HeardIsAcked(s)
    ensures HeardIsAcked(Step(s, e))
  {
    var v := Step(s, e);
    forall i | 0 <= i < |v.heard| ensures IsAcked(v.out, v.heard[i]) {
      if i < |s.heard| {
        assert IsAcked(s.out, s.heard[i]);
        var j :| 0 <= j < |s.out| && Receipts(s.out[j], s.heard[i]);
        assert v.out[j] == s.out[j];
      } else {
        AnsweredIff(s, e.frame);
        assert Receipts(v.out[|s.out|], v.heard[i]);
      }
    }
  }

  lemma PendingStep(s: End, e: Event)
    requires PendingIsOut(s)
    ensures PendingIsOut(Step(s, e))
  {
    var v := Step(s, e);
    assert s.out <= v.out;
    forall id | id in v.pending ensures Msg(id, v.pending[id].ackKey, v.pending[id].body) in v.out {
      if id in s.pending && v.pending[id] == s.pending[id] {
        var k :| 0 <= k < |s.out| && s.out[k] == Msg(id, s.pending[id].ackKey, s.pending[id].body);
        assert v.out[k] == s.out[k];
      } else {
        assert v.out[|s.out|] == Msg(id, v.pending[id].ackKey, v.pending[id].body);
      }
    }
  }

  /** In every run, whatever arrives, each message handed to the callback is acknowledged. */
  lemma {:induction false} EveryHeardIsAcked(s: End, es: seq<Event>)
    requires HeardIsAcked(s) && PendingIsOut(s)
    ensures HeardIsAcked(Run(s, es)) && PendingIsOut(Run(s, es))
    decreases |es|
  {
    if es == [] {
    } else {
      AckedStep(s, es[0]);
      PendingStep(s, es[0]);
      EveryHeardIsAcked(Step(s, es[0]), es[1..]);
    }
  }

  // ---------------------------------------------------------------------------------------------
  // Two ends
  // ---------------------------------------------------------------------------------------------

  /** Two ends over a link that may drop, duplicate and reorder; the channel's encryption lets an end
   *  receive only frames its peer gave to the link. */
  datatype Pair = Pair(a: End, b: End)

  datatype PairEvent = AtA(e: Event) | AtB(e: Event)

  predicate Arrives(peer: End, e: Event) { e.Raw? && e.frame.Some? ==> e.frame.value in peer.out }

  function PairStep(p: Pair, e: PairEvent): Pair {
    match e
    case AtA(e) => if Arrives(p.b, e) then p.(a := Step(p.a, e)) else p
    case AtB(e) => if Arrives(p.a, e) then p.(b := Step(p.b, e)) else p
  }

  function PairRun(p: Pair, es: seq<PairEvent>): Pair
    decreases |es|
  {
    if es == [] then p else PairRun(PairStep(p, es[0]), es[1..])
  }

  /** Each message frame given to the link is a send's own. */
  predicate OutIsSent(s: End) {
    forall i :: 0 <= i < |s.out| && s.out[i].Msg? ==> s.out[i].id in s.sends && s.out[i].body == s.sends[s.out[i].id]
  }

  /** Each ACK an end gives to the link follows a callback with the message the peer sent. */
  predicate AckedIsHeard(s: End, peer: End) {
    forall i :: 0 <= i < |s.out| && s.out[i].Ack? ==> HeardFrom(s, peer, s.out[i].id)
  }

  predicate HeardFrom(s: End, peer: End, id: MessageId) {
    id in peer.sends && exists i :: 0 <= i < |s.heard| && s.heard[i].Msg? && s.heard[i].id == id && s.heard[i].body == peer.sends[id]
  }

  predicate ResolvedIsHeard(s: End, peer: End) {
    forall i :: 0 <= i < |s.settled| && s.settled[i].outcome.Resolved? ==> HeardFrom(peer, s, s.settled[i].id)
  }

  predicate Half(s: End, peer: End) {
    Inv(s) && s.listening && OutIsSent(s) && PendingIsOut(s) && AckedIsHeard(s, peer) && ResolvedIsHeard(s, peer)
  }

  predicate PairInv(p: Pair) { Half(p.a, p.b) && Half(p.b, p.a) }

  predicate Grows(s: End, t: End) {
    s.heard <= t.heard && forall id :: id in s.sends ==> id in t.sends && t.sends[id] == s.sends[id]
  }

  lemma HeardStays(s: End, peer: End, s': End, peer': End, id: MessageId)
    requires Grows(s, s') && Grows(peer, peer') && HeardFrom(s, peer, id)
    ensures HeardFrom(s', peer', id)
  {
    var i :| 0 <= i < |s.heard| && s.heard[i].Msg? && s.heard[i].id == id && s.heard[i].body == peer.sends[id];
    assert s'.heard[i] == s.heard[i];
  }

  /** The end that does not move. */
  lemma OtherHalf(s: End, s': End, peer: End)
    requires Half(peer, s) && Grows(s, s')
    ensures Half(peer, s')
  {
    forall i | 0 <= i < |peer.out| && peer.out[i].Ack? ensures HeardFrom(peer, s', peer.out[i].id) {
      HeardStays(peer, s, peer, s', peer.out[i].id);
    }
    forall i | 0 <= i < |peer.settled| && peer.settled[i].outcome.Resolved? ensures HeardFrom(s', peer, peer.settled[i].id) {
      HeardStays(s, peer, s', peer, peer.settled[i].id);
    }
  }

  lemma StepGrows(s: End, e: Event)
    ensures Grows(s, Step(s, e))
  {
  }

  lemma OwnAcks(s: End, peer: End, e: Event)
    requires AckedIsHeard(s, peer) && OutIsSent(peer) && s.listening && Arrives(peer, e)
    ensures AckedIsHeard(Step(s, e), peer)
  {
    var t := Step(s, e);
    StepGrows(s, e);
    forall i | 0 <= i < |t.out| && t.out[i].Ack? ensures HeardFrom(t, peer, t.out[i].id) {
      if i < |s.out| {
        HeardStays(s, peer, t, peer, s.out[i].id);
      } else {
        assert t.heard[|s.heard|] == e.frame.value;
      }
    }
  }

  lemma OwnSettled(s: End, peer: End, e: Event)
    requires ResolvedIsHeard(s, peer) && AckedIsHeard(peer, s) && Arrives(peer, e)
    ensures ResolvedIsHeard(Step(s, e), peer)
  {
    var t := Step(s, e);
    StepGrows(s, e);
    forall i | 0 <= i < |t.settled| && t.settled[i].outcome.Resolved? ensures HeardFrom(peer, t, t.settled[i].id) {
      HeardStays(peer, s, peer, t, if i < |s.settled| then s.settled[i].id else e.frame.value.id);
    }
  }

  lemma OwnHalf(s: End, peer: End, e: Event)
    requires Half(s, peer) && Half(peer, s) && Arrives(peer, e)
    ensures Half(Step(s, e), peer)
  {
    StepKeeps(s, e);
    PendingStep(s, e);
    OwnAcks(s, peer, e);
    OwnSettled(s, peer, e);
  }

  lemma PairKeeps(p: Pair, e: PairEvent)
    requires PairInv(p)
    ensures PairInv(PairStep(p, e))
  {
    match e
    case AtA(e) =>
      if Arrives(p.b, e) { OwnHalf(p.a, p.b, e); StepGrows(p.a, e); OtherHalf(p.a, Step(p.a, e), p.b); }
    case AtB(e) =>
      if Arrives(p.a, e) { OwnHalf(p.b, p.a, e); StepGrows(p.b, e); OtherHalf(p.b, Step(p.b, e), p.a); }
  }

  /** With callbacks set, a resolved send means the peer's callback ran with exactly that body. */
  lemma {:induction false} ResolvedMeansDelivered(p: Pair, es: seq<PairEvent>, i: nat)
    requires PairInv(p)
    requires var r := PairRun(p, es); i < |r.a.settled| && r.a.settled[i].outcome == Resolved
    ensures var r := PairRun(p, es); HeardFrom(r.b, r.a, r.a.settled[i].id)
    decreases |es|
  {
    if es == [] {
    } else {
      PairKeeps(p, es[0]);
      ResolvedMeansDelivered(PairStep(p, es[0]), es[1..], i);
    }
  }

  /** The message and its receipt get through. */
  function Exchanged(p: Pair, msg: Frame, receipt: Frame): Pair {
    PairStep(PairStep(p, AtB(Raw(Some(msg)))), AtA(Raw(Some(receipt))))
  }

  lemma ExchangeResolves(p: Pair, id: MessageId)
    requires PairInv(p) && id in p.a.pending
    ensures var msg := Msg(id, p.a.pending[id].ackKey, p.a.pending[id].body);
            msg in p.a.out && exists receipt ::
              receipt in PairStep(p, AtB(Raw(Some(msg)))).b.out && Settles(p, Exchanged(p, msg, receipt), id, msg)
  {
    var msg := Msg(id, p.a.pending[id].ackKey, p.a.pending[id].body);
    var q := PairStep(p, AtB(Raw(Some(msg))));
    AnsweredIff(p.b, Some(msg));
    var receipt := q.b.out[|p.b.out|];
    assert Receipts(receipt, msg) && receipt in q.b.out && q.a == p.a;
    assert Clears(q.a, receipt);
    var r := Exchanged(p, msg, receipt);
    assert r.a.settled[|p.a.settled|] == Settlement(id, Resolved);
  }

  /** The send is resolved, and the peer's callback was told the message just now. */
  predicate Settles(p: Pair, r: Pair, id: MessageId, msg: Frame) {
    id !in r.a.pending && r.a.settled == p.a.settled + [Settlement(id, Resolved)] && r.b.heard == p.b.heard + [msg]
  }

  /** From every state two listening ends can reach: if a pending message and the answer to it get through, the
   *  send is resolved. */
  lemma {:induction false} EverySendCanResolve(p: Pair, es: seq<PairEvent>, id: MessageId)
    requires PairInv(p) && id in PairRun(p, es).a.pending
    ensures var r := PairRun(p, es);
            var msg := Msg(id, r.a.pending[id].ackKey, r.a.pending[id].body);
            msg in r.a.out && exists receipt ::
              receipt in PairStep(r, AtB(Raw(Some(msg)))).b.out && Settles(r, Exchanged(r, msg, receipt), id, msg)
    decreases |es|
  {
    if es == [] {
      ExchangeResolves(p, id);
    } else {
      PairKeeps(p, es[0]);
      EverySendCanResolve(PairStep(p, es[0]), es[1..], id);
    }
  }

  lemma PairBegins()
    ensures PairInv(Pair(Step(INITIAL, Listen), Step(INITIAL, Listen)))
  {
  }

  // ---------------------------------------------------------------------------------------------
  // The object
  // ---------------------------------------------------------------------------------------------

  class ReliableChannel {
    var messageCb: bool
    var pendingMap: map<MessageId, Entry>
    var clockTimers: map<TimerId, MessageId>
    var nextTimer: TimerId
    ghost var sends: map<MessageId, string>
    ghost var settled: seq<Settlement>
    ghost var heard: seq<Frame>
    ghost var out: seq<Frame>

    ghost function View(): End
      reads this
    {
      End(messageCb, pendingMap, clockTimers, nextTimer, sends, settled, heard, out)
    }

    constructor ()
      ensures View() == INITIAL
    {
      messageCb, pendingMap, clockTimers, nextTimer := false, map[], map[], 0;
      sends, settled, heard, out := map[], [], [], [];
    }

    method OnMessage()
      modifies this`messageCb
      ensures View() == Step(old(View()), Listen)
    {
      messageCb := true;
    }

    method Send(messageId: MessageId, ackKey: AckKey, body: string) returns (frame: Frame)
      requires messageId !in sends
      modifies this
      ensures View() == Step(old(View()), Event.Send(messageId, ackKey, body)) && out == old(out) + [frame]
    {
      frame := Msg(messageId, ackKey, body);
      var timer := nextTimer;
      nextTimer, clockTimers := nextTimer + 1, clockTimers[timer := messageId];
      pendingMap := pendingMap[messageId := Entry(body, ackKey, timer)];
      sends, out := sends[messageId := body], out + [frame];
    }

    /** The timer callback armed by Send. */
    method AckTimeout(timer: TimerId) returns (rejected: Option<MessageId>)
      requires timer in clockTimers
      modifies this
      ensures View() == Step(old(View()), TimerFired(timer))
      ensures rejected == if old(clockTimers[timer]) in old(pendingMap) then Some(old(clockTimers[timer])) else None
    {
      var messageId := clockTimers[timer];
      clockTimers := clockTimers - {timer};
      if messageId !in pendingMap { return None; }
      pendingMap := pendingMap - {messageId};
      settled := settled + [Settlement(messageId, TimedOut)];
      rejected := Some(messageId);
    }

    method OnRawMessage(frame: Option<Frame>) returns (reply: Option<Frame>)
      modifies this
      ensures View() == Step(old(View()), Raw(frame))
      ensures out == old(out) + if reply.Some? then [reply.value] else []
    {
      reply := None;
      if frame == None { return; }
      var f := frame.value;
      if f.Msg? {
        if messageCb { heard := heard + [f]; }
        reply := Some(Ack(f.id, Sealed(f.ackKey, Some(f.id))));
        out := out + [reply.value];
        return;
      }
      if f.id !in pendingMap { return; }
      var entry := pendingMap[f.id];
      if !VerifyAck(f, entry.ackKey) { return; }
      clockTimers := clockTimers - {entry.timer};
      pendingMap := pendingMap - {f.id};
      settled := settled + [Settlement(f.id, Resolved)];
    }
  }
}
