/** Any number of honest devices run match sessions (orp-ref/client/client.ts) over a board that may drop,
 *  duplicate, reorder and invent messages, together with any number of dishonest key holders.
 *
 *  The only limit on the board is symbolic cryptography: a frame or binding that carries an honest
 *  device's signature was made by that device.
 */
module Handshake {
  import opened Common
  import opened MessageLayer
  import opened MatchSessions

  /** `users` are the honest devices with their transport keys; `targets` the keys each sent an intent for. */
  datatype World = World(users: map<Id, Pub>, targets: map<Id, set<Id>>, sessions: map<nat, Session>)

  datatype WorldEvent =
    | SendIntent(user: Id, target: Id)
    | Match(sid: nat, user: Id, role: Role, matchId: MatchId, counterparty: Id)
    | Deliver(sid: nat, frame: Option<Frame>)
    | Local(sid: nat, e: Event)

  function Targets(w: World, user: Id): set<Id> {
    if user in w.targets then w.targets[user] else {}
  }

  predicate EmittedBy(w: World, sid: nat, f: Frame) {
    sid in w.sessions && w.sessions[sid].me == f.signer && f in w.sessions[sid].sent
  }

  predicate Emitted(w: World, f: Frame) {
    exists sid :: sid in w.sessions && EmittedBy(w, sid, f)
  }

  /** What the board can put on the wire. */
  predicate Genuine(w: World, f: Frame) {
    (f.signer in w.users ==> Emitted(w, f)) &&
    (f.phase.KeyPhase? && f.phase.binding.Some? ==>
       var b := f.phase.binding.value;
       b.signer in w.users ==> b == Binding(b.signer, w.users[b.signer], b.signer))
  }

  /** Client.onBoardMessage: an initiator match for a key we sent no intent for is refused. */
  function OnMatch(w: World, sid: nat, user: Id, role: Role, matchId: MatchId, counterparty: Id): World {
    if user !in w.users || sid in w.sessions then w
    else if role.Initiator? && counterparty !in Targets(w, user) then w
    else w.(sessions := w.sessions[sid := Step(New(user, w.users[user], role, matchId, counterparty), Start)])
  }

  /** A message the board cannot produce, or a call that does not exist, changes nothing. */
  function WorldStep(w: World, e: WorldEvent): World {
    match e
    case SendIntent(user, target) => w.(targets := w.targets[user := Targets(w, user) + {target}])
    case Match(sid, user, role, matchId, counterparty) => OnMatch(w, sid, user, role, matchId, counterparty)
    case Deliver(sid, frame) =>
      if sid in w.sessions && (frame.Some? ==> Genuine(w, frame.value))
      then w.(sessions := w.sessions[sid := Step(w.sessions[sid], Relay(frame))]) else w
    case Local(sid, e) =>
      if sid in w.sessions && !e.Relay? && !e.Start?
      then w.(sessions := w.sessions[sid := Step(w.sessions[sid], e)]) else w
  }

  function WorldRun(w: World, es: seq<WorldEvent>): World
    decreases |es|
  {
    if es == [] then w else WorldRun(WorldStep(w, es[0]), es[1..])
  }

  function Begin(users: map<Id, Pub>): World { World(users, map[], map[]) }

  // ---------------------------------------------------------------------------------------------
  // Invariant
  // ---------------------------------------------------------------------------------------------

  predicate SessionOf(w: World, s: Session) {
    Inv(s) && AppliedInv(s) && s.me in w.users && s.mine == w.users[s.me] &&
    (s.role.Initiator? ==> s.counterparty in Targets(w, s.me)) &&
    (s.keyFrame.Some? ==> Genuine(w, s.keyFrame.value)) &&
    (forall i :: 0 <= i < |s.heard| ==> Genuine(w, s.heard[i]))
  }

  predicate WorldInv(w: World) {
    EMPTY !in w.users && forall sid :: sid in w.sessions ==> SessionOf(w, w.sessions[sid])
  }

  /** What only grows. */
  ghost predicate Extends(w: World, v: World) {
    v.users == w.users && (forall u, t :: t in Targets(w, u) ==> t in Targets(v, u)) &&
    forall sid, f :: EmittedBy(w, sid, f) ==> EmittedBy(v, sid, f)
  }

  lemma GenuineStays(w: World, v: World, f: Frame)
    requires Extends(w, v) && Genuine(w, f)
    ensures Genuine(v, f)
  {
    if f.signer in w.users {
      var sid :| sid in w.sessions && EmittedBy(w, sid, f);
      assert EmittedBy(v, sid, f);
    }
  }

  lemma SessionStays(w: World, v: World, s: Session)
    requires Extends(w, v) && SessionOf(w, s)
    ensures SessionOf(v, s)
  {
    if s.keyFrame.Some? { GenuineStays(w, v, s.keyFrame.value); }
    forall i | 0 <= i < |s.heard| ensures Genuine(v, s.heard[i]) { GenuineStays(w, v, s.heard[i]); }
  }

  /** One step of a session records at most the frame delivered to it. */
  lemma StepRecords(s: Session, e: Event)
    ensures var t := Step(s, e);
            SameParty(s, t) && s.sent <= t.sent &&
            (t.keyFrame == s.keyFrame || (e.Relay? && t.keyFrame == e.frame)) &&
            (t.heard == s.heard || (e.Relay? && e.frame.Some? && t.heard == s.heard + [e.frame.value]))
  {
  }

  lemma StepOfSession(w: World, s: Session, e: Event)
    requires SessionOf(w, s) && (e.Relay? && e.frame.Some? ==> Genuine(w, e.frame.value))
    ensures SessionOf(w, Step(s, e))
  {
    StepRecords(s, e);
    StepKeeps(s, e);
    DescriptionsStep(s, e);
  }

  lemma ReplaceExtends(w: World, sid: nat, t: Session)
    requires sid in w.sessions && t.me == w.sessions[sid].me && w.sessions[sid].sent <= t.sent
    ensures Extends(w, w.(sessions := w.sessions[sid := t]))
  {
    var v := w.(sessions := w.sessions[sid := t]);
    forall x, f | EmittedBy(w, x, f) ensures EmittedBy(v, x, f) {
      if x == sid { assert f in w.sessions[sid].sent ==> f in t.sent; }
    }
  }

  lemma ReplaceKeeps(w: World, sid: nat, e: Event)
    requires WorldInv(w) && sid in w.sessions
    requires e.Relay? && e.frame.Some? ==> Genuine(w, e.frame.value)
    ensures WorldInv(w.(sessions := w.sessions[sid := Step(w.sessions[sid], e)]))
  {
    var s := w.sessions[sid];
    var t := Step(s, e);
    var v := w.(sessions := w.sessions[sid := t]);
    StepRecords(s, e);
    ReplaceExtends(w, sid, t);
    StepOfSession(w, s, e);
    forall x | x in v.sessions ensures SessionOf(v, v.sessions[x]) { SessionStays(w, v, v.sessions[x]); }
  }

  lemma MatchKeeps(w: World, sid: nat, user: Id, role: Role, matchId: MatchId, counterparty: Id)
    requires WorldInv(w)
    ensures WorldInv(OnMatch(w, sid, user, role, matchId, counterparty))
  {
    var v := OnMatch(w, sid, user, role, matchId, counterparty);
    if v != w {
      StepOfSession(w, New(user, w.users[user], role, matchId, counterparty), Start);
      assert SessionOf(w, v.sessions[sid]);
      assert Extends(w, v);
      forall x | x in v.sessions ensures SessionOf(v, v.sessions[x]) { SessionStays(w, v, v.sessions[x]); }
    }
  }

  lemma WorldKeeps(w: World, e: WorldEvent)
    requires WorldInv(w)
    ensures WorldInv(WorldStep(w, e)) && WorldStep(w, e).users == w.users
  {
    match e
    case SendIntent(user, target) =>
      var v := WorldStep(w, e);
      assert Extends(w, v);
      forall x | x in v.sessions ensures SessionOf(v, v.sessions[x]) { SessionStays(w, v, v.sessions[x]); }
    case Match(sid, user, role, matchId, counterparty) => MatchKeeps(w, sid, user, role, matchId, counterparty);
    case Deliver(sid, frame) =>
      if sid in w.sessions && (frame.Some? ==> Genuine(w, frame.value)) { ReplaceKeeps(w, sid, Relay(frame)); }
    case Local(sid, e') =>
      if sid in w.sessions && !e'.Relay? && !e'.Start? { ReplaceKeeps(w, sid, e'); }
  }

  lemma {:induction false} RunKeeps(w: World, es: seq<WorldEvent>)
    requires WorldInv(w)
    ensures WorldInv(WorldRun(w, es)) && WorldRun(w, es).users == w.users
    decreases |es|
  {
    if es == [] {
    } else {
      WorldKeeps(w, es[0]);
      RunKeeps(WorldStep(w, es[0]), es[1..]);
    }
  }

  // ---------------------------------------------------------------------------------------------
  // Key agreement
  // ---------------------------------------------------------------------------------------------

  predicate Mirrors(x: Keys, y: Keys) { x.send == y.recv && x.recv == y.send }

  /** `t` is a session of the counterparty, for this match, that sealed its signaling to our key. */
  predicate PeerSession(s: Session, t: Session) {
    t.me == s.counterparty && t.matchId == s.matchId && t.peer == Some(s.mine) &&
    exists f :: f in s.heard && f in t.sent
  }

  /** An honest device whose session for an honest, distinct counterparty reported a channel processed
   *  that device's own key frame and a signaling frame it signed for this match; and every channel of
   *  the peer's session mirrors ours. */
  lemma KeyAgreement(users: map<Id, Pub>, es: seq<WorldEvent>, sid: nat) returns (peer: nat)
    requires EMPTY !in users
    requires var w := WorldRun(Begin(users), es);
             sid in w.sessions &&
             var s := w.sessions[sid];
             s.channels != [] && s.counterparty in users && users[s.counterparty] != s.mine
    ensures var w := WorldRun(Begin(users), es);
            var s := w.sessions[sid];
            s.keyFrame.Some? && Emitted(w, s.keyFrame.value) && s.peer == Some(users[s.counterparty]) &&
            peer in w.sessions && PeerSession(s, w.sessions[peer]) &&
            (forall i :: 0 <= i < |s.channels| ==> Mirrors(s.channels[i], DirectionalKeys(users[s.counterparty], s.mine))) &&
            (forall i, j :: 0 <= i < |s.channels| && 0 <= j < |w.sessions[peer].channels| ==>
               Mirrors(s.channels[i], w.sessions[peer].channels[j]))
  {
    var w := WorldRun(Begin(users), es);
    RunKeeps(Begin(users), es);
    var s := w.sessions[sid];
    assert SessionOf(w, s) && ChannelInv(s);
    KeyOfPeer(w, s);
    peer := HeardFromPeer(w, s, 0);
    assert SessionOf(w, w.sessions[peer]) && ChannelInv(w.sessions[peer]);
    ChannelsMirror(s, w.sessions[peer], users[s.counterparty]);
  }

  /** Each with the other's key, all their channels mirror. */
  lemma ChannelsMirror(s: Session, t: Session, k: Pub)
    requires ChannelInv(s) && ChannelInv(t) && s.peer == Some(k) && t.mine == k && t.peer == Some(s.mine) && k != s.mine
    ensures forall i :: 0 <= i < |s.channels| ==> Mirrors(s.channels[i], DirectionalKeys(k, s.mine))
    ensures forall i, j :: 0 <= i < |s.channels| && 0 <= j < |t.channels| ==> Mirrors(s.channels[i], t.channels[j])
  {
    MirroredIffDistinct(s.mine, k);
  }

  /** The peer key of a session for an honest device is that device's own. */
  lemma KeyOfPeer(w: World, s: Session)
    requires WorldInv(w) && SessionOf(w, s) && s.keyFrame.Some? && s.counterparty in w.users
    ensures s.peer == Some(w.users[s.counterparty]) && Emitted(w, s.keyFrame.value)
  {
    assert s.keyFrame.value.from == s.counterparty;
  }

  /** Who sent a signaling frame sent it for its match, sealed to the peer it has. */
  lemma SentToPeer(t: Session, f: Frame)
    requires SentInv(t) && f in t.sent && f.phase.Signaling?
    ensures t.matchId == f.matchId && t.me == f.from && f.phase.box.Some? && t.peer == Some(f.phase.box.value.to)
  {
    var k :| 0 <= k < |t.sent| && t.sent[k] == f;
  }

  /** A signaling frame that such a session accepted was sent by a session of the counterparty. */
  lemma HeardFromPeer(w: World, s: Session, i: nat) returns (peer: nat)
    requires WorldInv(w) && SessionOf(w, s) && i < |s.heard| && s.counterparty in w.users
    ensures peer in w.sessions && s.heard[i] in w.sessions[peer].sent && PeerSession(s, w.sessions[peer])
  {
    var f := s.heard[i];
    assert HeardInv(s) && Accepts(s, f) && Genuine(w, f);
    peer :| peer in w.sessions && EmittedBy(w, peer, f);
    assert SessionOf(w, w.sessions[peer]);
    SentToPeer(w.sessions[peer], f);
    assert f in s.heard;
  }

  /** `d` was sealed to us by a session of the counterparty, for this match. */
  predicate SealedByPeer(w: World, s: Session, d: Sdp) {
    exists sid :: sid in w.sessions && w.sessions[sid].me == s.counterparty && w.sessions[sid].matchId == s.matchId &&
      SealedFrom(s.counterparty, s.mine, s.matchId, d) in w.sessions[sid].sent
  }

  /** Every description that a session with an honest counterparty applies or answers was made by a session of that
   *  counterparty for this match and sealed to our key, whatever the board does. */
  lemma OnlyPeersDescriptions(users: map<Id, Pub>, es: seq<WorldEvent>, sid: nat, d: Sdp)
    requires EMPTY !in users
    requires var w := WorldRun(Begin(users), es);
             sid in w.sessions && w.sessions[sid].counterparty in users &&
             (d in w.sessions[sid].applied || Some(d) in w.sessions[sid].answered)
    ensures var w := WorldRun(Begin(users), es); SealedByPeer(w, w.sessions[sid], d)
  {
    var w := WorldRun(Begin(users), es);
    RunKeeps(Begin(users), es);
    var s := w.sessions[sid];
    assert SessionOf(w, s);
    var i :| 0 <= i < |s.applied| && s.applied[i] == d;
    var f := s.heard[i];
    assert Accepts(s, f) && f.phase.box.value == Box(s.mine, Some(d));
    var peer := HeardFromPeer(w, s, i);
    assert f == SealedFrom(s.counterparty, s.mine, s.matchId, d);
  }

  /** An initiator's session is only ever with a key its device sent an intent for. */
  lemma NoRedirection(users: map<Id, Pub>, es: seq<WorldEvent>, sid: nat)
    requires EMPTY !in users
    requires var w := WorldRun(Begin(users), es); sid in w.sessions && w.sessions[sid].role.Initiator?
    ensures var w := WorldRun(Begin(users), es);
            w.sessions[sid].counterparty in Targets(w, w.sessions[sid].me)
  {
    RunKeeps(Begin(users), es);
    assert SessionOf(WorldRun(Begin(users), es), WorldRun(Begin(users), es).sessions[sid]);
  }

  function KeyFrameFrom(a: Id, ka: Pub, m: MatchId): Frame {
    Frame(m, a, KeyPhase(Some(ka), Some(Binding(a, ka, a))), a)
  }

  function SealedFrom(a: Id, kb: Pub, m: MatchId, sdp: Sdp): Frame {
    Frame(m, a, Signaling(Some(Box(kb, Some(sdp)))), a)
  }

  lemma InitiatorConnects(a: Id, ka: Pub, b: Id, kb: Pub, m: MatchId, offer: Sdp, answer: Sdp) returns (x: Session)
    ensures x == Run(Step(New(a, ka, Initiator, m, b), Start),
                     [Relay(Some(KeyFrameFrom(b, kb, m))), Described(0, offer), Relay(Some(SealedFrom(b, ka, m, answer))),
                      Applied(1), ChannelUp(2)])
    ensures x.state == Connected && x.channels == [DirectionalKeys(ka, kb)]
    ensures x.sent == [KeyFrameFrom(a, ka, m), SealedFrom(a, kb, m, offer)] && x.applied == [answer]
  {
    var x0 := Step(New(a, ka, Initiator, m, b), Start);
    var x1 := Step(x0, Relay(Some(KeyFrameFrom(b, kb, m))));
    var x2 := Step(x1, Described(0, offer));
    var x3 := Step(x2, Relay(Some(SealedFrom(b, ka, m, answer))));
    var x4 := Step(x3, Applied(1));
    x := Step(x4, ChannelUp(2));
    FiveSteps(x0, Relay(Some(KeyFrameFrom(b, kb, m))), Described(0, offer), Relay(Some(SealedFrom(b, ka, m, answer))),
              Applied(1), ChannelUp(2), x1, x2, x3, x4, x);
  }

  lemma ResponderConnects(a: Id, ka: Pub, b: Id, kb: Pub, m: MatchId, offer: Sdp, answer: Sdp) returns (y: Session)
    ensures y == Run(Step(New(b, kb, Responder, m, a), Start),
                     [Relay(Some(KeyFrameFrom(a, ka, m))), Relay(Some(SealedFrom(a, kb, m, offer))), Applied(0),
                      Described(1, answer), ChannelUp(2)])
    ensures y.state == Connected && y.channels == [DirectionalKeys(kb, ka)]
    ensures y.sent == [KeyFrameFrom(b, kb, m), SealedFrom(b, ka, m, answer)] && y.applied == [offer] && y.answered == [Some(offer)]
  {
    var y0 := Step(New(b, kb, Responder, m, a), Start);
    var y1 := Step(y0, Relay(Some(KeyFrameFrom(a, ka, m))));
    var y2 := Step(y1, Relay(Some(SealedFrom(a, kb, m, offer))));
    var y3 := Step(y2, Applied(0));
    var y4 := Step(y3, Described(1, answer));
    y := Step(y4, ChannelUp(2));
    FiveSteps(y0, Relay(Some(KeyFrameFrom(a, ka, m))), Relay(Some(SealedFrom(a, kb, m, offer))), Applied(0),
              Described(1, answer), ChannelUp(2), y1, y2, y3, y4, y);
  }

  /** A board that relays every frame gets two devices connected, whatever their keys, and each applies the
   *  description that the other one made. */
  lemma RelayingBoardConnects(a: Id, ka: Pub, b: Id, kb: Pub, m: MatchId, offer: Sdp, answer: Sdp)
    returns (x: Session, y: Session)
    ensures |x.sent| == 2 && |y.sent| == 2
    ensures x == Run(Step(New(a, ka, Initiator, m, b), Start),
                     [Relay(Some(y.sent[0])), Described(0, offer), Relay(Some(y.sent[1])), Applied(1), ChannelUp(2)])
    ensures y == Run(Step(New(b, kb, Responder, m, a), Start),
                     [Relay(Some(x.sent[0])), Relay(Some(x.sent[1])), Applied(0), Described(1, answer), ChannelUp(2)])
    ensures x.state == Connected && y.state == Connected
    ensures x.channels == [DirectionalKeys(ka, kb)] && y.channels == [DirectionalKeys(kb, ka)]
    ensures x.applied == [answer] && y.applied == [offer] && y.answered == [Some(offer)]
  {
    x := InitiatorConnects(a, ka, b, kb, m, offer, answer);
    y := ResponderConnects(a, ka, b, kb, m, offer, answer);
  }

  lemma RunCons(s: Session, e: Event, es: seq<Event>, t: Session)
    requires Step(s, e) == t
    ensures Run(s, [e] + es) == Run(t, es)
  {
    assert ([e] + es)[0] == e && ([e] + es)[1..] == es;
  }

  lemma FiveSteps(s: Session, a: Event, b: Event, c: Event, d: Event, e: Event,
                  s1: Session, s2: Session, s3: Session, s4: Session, s5: Session)
    requires Step(s, a) == s1 && Step(s1, b) == s2 && Step(s2, c) == s3 && Step(s3, d) == s4 && Step(s4, e) == s5
    ensures Run(s, [a, b, c, d, e]) == s5
  {
    RunCons(s, a, [b, c, d, e], s1);
    RunCons(s1, b, [c, d, e], s2);
    RunCons(s2, c, [d, e], s3);
    RunCons(s3, d, [e], s4);
    RunCons(s4, e, [], s5);
    assert [a] + [b, c, d, e] == [a, b, c, d, e] && [b] + [c, d, e] == [b, c, d, e];
    assert [c] + [d, e] == [c, d, e] && [d] + [e] == [d, e] && [e] + [] == [e];
  }

  // ---------------------------------------------------------------------------------------------
  // Two devices of the world connect
  // ---------------------------------------------------------------------------------------------

  /** A match makes a session, started, exactly for one of our users, under a new number, and as an initiator only
   *  for a key that its device sent an intent for; every other session stays. */
  lemma MatchIff(w: World, sid: nat, user: Id, role: Role, m: MatchId, counterparty: Id)
    ensures var v := WorldStep(w, Match(sid, user, role, m, counterparty));
            if user in w.users && sid !in w.sessions && (role.Initiator? ==> counterparty in Targets(w, user))
            then v == w.(sessions := w.sessions[sid := Step(New(user, w.users[user], role, m, counterparty), Start)])
            else v == w
    ensures var v := WorldStep(w, SendIntent(user, counterparty));
            v == w.(targets := v.targets) && forall u, t :: t in Targets(v, u) <==> t in Targets(w, u) || (u == user && t == counterparty)
  {
  }

  /** What the board relays of one session's frames reaches the other. */
  predicate Relayable(w: World, f: Frame) {
    Emitted(w, f) && (f.phase.KeyPhase? && f.phase.binding.Some? ==>
      var b := f.phase.binding.value; b.signer in w.users ==> b == Binding(b.signer, w.users[b.signer], b.signer))
  }

  lemma DeliverIff(w: World, sid: nat, f: Frame)
    requires sid in w.sessions && Relayable(w, f)
    ensures WorldStep(w, Deliver(sid, Some(f))) == w.(sessions := w.sessions[sid := Step(w.sessions[sid], Relay(Some(f)))])
  {
  }

  lemma LocalIff(w: World, sid: nat, e: Event)
    requires sid in w.sessions && !e.Relay? && !e.Start?
    ensures WorldStep(w, Local(sid, e)) == w.(sessions := w.sessions[sid := Step(w.sessions[sid], e)])
  {
  }

  lemma WorldCons(w: World, e: WorldEvent, es: seq<WorldEvent>)
    ensures WorldRun(w, [e] + es) == WorldRun(WorldStep(w, e), es)
  {
    assert ([e] + es)[0] == e && ([e] + es)[1..] == es;
  }

  ghost predicate ConnectsAfter(w: World, es: seq<WorldEvent>, a: Id, b: Id, m: MatchId) {
    var v := WorldRun(w, es);
    0 in v.sessions && 1 in v.sessions && v.sessions[0].me == a && v.sessions[1].me == b &&
    v.sessions[0].state == Connected && v.sessions[1].state == Connected && v.sessions[0].matchId == m == v.sessions[1].matchId &&
    v.sessions[0].channels != [] && v.sessions[1].channels != []
  }

  ghost predicate CanConnect(w: World, a: Id, b: Id, m: MatchId) { exists es :: ConnectsAfter(w, es, a, b, m) }

  lemma ConnectLater(w: World, e: WorldEvent, a: Id, b: Id, m: MatchId)
    requires CanConnect(WorldStep(w, e), a, b, m)
    ensures CanConnect(w, a, b, m)
  {
    var es :| ConnectsAfter(WorldStep(w, e), es, a, b, m);
    WorldCons(w, e, es);
    assert ConnectsAfter(w, [e] + es, a, b, m);
  }

  /** A world with two sessions. */
  function Two(w: World, x: Session, y: Session): World { w.(sessions := map[0 := x, 1 := y]) }

  /** A frame that either session sent, and that its honest device signed, reaches the other end. */
  lemma RelaysTo(w: World, x: Session, y: Session, sid: nat, f: Frame)
    requires sid < 2 && ((f in x.sent && f.signer == x.me) || (f in y.sent && f.signer == y.me))
    requires f.phase.KeyPhase? && f.phase.binding.Some? ==>
               f.signer in w.users && f.phase.binding == Some(Binding(f.signer, w.users[f.signer], f.signer))
    ensures WorldStep(Two(w, x, y), Deliver(sid, Some(f))) ==
            if sid == 0 then Two(w, Step(x, Relay(Some(f))), y) else Two(w, x, Step(y, Relay(Some(f))))
  {
    var t := Two(w, x, y);
    if f in x.sent && f.signer == x.me { assert EmittedBy(t, 0, f); } else { assert EmittedBy(t, 1, f); }
    DeliverIff(t, sid, f);
    TwoUpdated(w, x, y, if sid == 0 then Step(x, Relay(Some(f))) else Step(y, Relay(Some(f))));
  }

  lemma TwoUpdated(w: World, x: Session, y: Session, z: Session)
    ensures Two(w, x, y).(sessions := Two(w, x, y).sessions[0 := z]) == Two(w, z, y)
    ensures Two(w, x, y).(sessions := Two(w, x, y).sessions[1 := z]) == Two(w, x, z)
  {
    assert Two(w, x, y).sessions[0 := z] == map[0 := z, 1 := y];
    assert Two(w, x, y).sessions[1 := z] == map[0 := x, 1 := z];
  }

  lemma MovesOn(w: World, x: Session, y: Session, sid: nat, e: Event)
    requires sid < 2 && !e.Relay? && !e.Start?
    ensures WorldStep(Two(w, x, y), Local(sid, e)) == if sid == 0 then Two(w, Step(x, e), y) else Two(w, x, Step(y, e))
  {
    LocalIff(Two(w, x, y), sid, e);
    TwoUpdated(w, x, y, if sid == 0 then Step(x, e) else Step(y, e));
  }

  /** Both have exchanged keys. */
  predicate Keyed(w: World, a: Id, b: Id, m: MatchId, x: Session, y: Session) {
    a in w.users && b in w.users &&
    x.me == a && x.mine == w.users[a] && x.role == Initiator && x.matchId == m && x.counterparty == b && x.peer == Some(w.users[b]) &&
    y.me == b && y.mine == w.users[b] && y.role == Responder && y.matchId == m && y.counterparty == a && y.peer == Some(w.users[a]) &&
    x.tasks == map[0 := OfferDescription] && x.next == 1 && y.tasks == map[] && y.next == 0 &&
    !x.state.Connected? && !x.state.Closed? && !y.state.Connected? && !y.state.Closed?
  }

  lemma AnswererAnswers(w: World, a: Id, b: Id, m: MatchId, x: Session, y: Session, offer: Sdp, answer: Sdp)
    requires Keyed(w, a, b, m, x, y)
    ensures var x2 := Step(x, Described(0, offer));
            var f := SealedFrom(a, y.mine, m, offer);
            var y4 := Step(Step(Step(y, Relay(Some(f))), Applied(0)), Described(1, answer));
            f in x2.sent && f.signer == x2.me && y4.me == b && y4.matchId == m && SealedFrom(b, x.mine, m, answer) in y4.sent &&
            y4.tasks == map[2 := DataChannel] && y4.peer == y.peer && y4.mine == y.mine
  {
    var x2 := Step(x, Described(0, offer));
    var f := SealedFrom(a, y.mine, m, offer);
    assert x2.sent == x.sent + [f];
    var y2 := Step(y, Relay(Some(f)));
    assert y2.tasks == map[0 := ApplyThenAnswer];
    var y3 := Step(y2, Applied(0));
    assert y3.tasks == map[1 := AnswerDescription] && y3.peer == y.peer;
    var y4 := Step(y3, Described(1, answer));
    assert y4.sent == y3.sent + [SealedFrom(b, x.mine, m, answer)];
    assert y3.tasks - {1} == map[];
  }

  lemma OffererFinishes(w: World, a: Id, b: Id, m: MatchId, x: Session, y: Session, offer: Sdp, answer: Sdp)
    requires Keyed(w, a, b, m, x, y)
    ensures var x2 := Step(x, Described(0, offer));
            var x5 := Step(Step(Step(x2, Relay(Some(SealedFrom(b, x.mine, m, answer)))), Applied(1)), ChannelUp(2));
            x5.state == Connected && x5.channels != [] && x5.me == a && x5.matchId == m
  {
    var x2 := Step(x, Described(0, offer));
    assert x2.tasks == map[] && x2.next == 1;
    var x3 := Step(x2, Relay(Some(SealedFrom(b, x.mine, m, answer))));
    assert x3.tasks == map[1 := ApplyThenFinish] && x3.next == 2;
    var x4 := Step(x3, Applied(1));
    assert x4.tasks == map[2 := DataChannel];
  }

  /** The answer is on its way, and both ends' calls are done after it. */
  lemma FromAnswered(w: World, a: Id, b: Id, m: MatchId, x: Session, y: Session, g: Frame)
    requires g in y.sent && g.signer == y.me && g.phase.Signaling?
    requires var x' := Step(Step(Step(x, Relay(Some(g))), Applied(1)), ChannelUp(2));
             x'.state == Connected && x'.channels != [] && x'.me == a && x'.matchId == m
    requires var y' := Step(y, ChannelUp(2)); y'.state == Connected && y'.channels != [] && y'.me == b && y'.matchId == m
    ensures CanConnect(Two(w, x, y), a, b, m)
  {
    var x3 := Step(x, Relay(Some(g)));
    var x4 := Step(x3, Applied(1));
    var x5 := Step(x4, ChannelUp(2));
    RelaysTo(w, x, y, 0, g);
    MovesOn(w, x3, y, 0, Applied(1));
    MovesOn(w, x4, y, 0, ChannelUp(2));
    MovesOn(w, x5, y, 1, ChannelUp(2));
    assert ConnectsAfter(Two(w, x5, Step(y, ChannelUp(2))), [], a, b, m);
    ConnectLater(Two(w, x5, y), Local(1, ChannelUp(2)), a, b, m);
    ConnectLater(Two(w, x4, y), Local(0, ChannelUp(2)), a, b, m);
    ConnectLater(Two(w, x3, y), Local(0, Applied(1)), a, b, m);
    ConnectLater(Two(w, x, y), Deliver(0, Some(g)), a, b, m);
  }

  lemma FromKeyed(w: World, a: Id, b: Id, m: MatchId, x: Session, y: Session, offer: Sdp, answer: Sdp)
    requires Keyed(w, a, b, m, x, y)
    ensures CanConnect(Two(w, x, y), a, b, m)
  {
    var f, g := SealedFrom(a, y.mine, m, offer), SealedFrom(b, x.mine, m, answer);
    var x2 := Step(x, Described(0, offer));
    var y2 := Step(y, Relay(Some(f)));
    var y3 := Step(y2, Applied(0));
    var y4 := Step(y3, Described(1, answer));
    AnswererAnswers(w, a, b, m, x, y, offer, answer);
    OffererFinishes(w, a, b, m, x, y, offer, answer);
    FromAnswered(w, a, b, m, x2, y4, g);
    MovesOn(w, x, y, 0, Described(0, offer));
    RelaysTo(w, x2, y, 1, f);
    MovesOn(w, x2, y2, 1, Applied(0));
    MovesOn(w, x2, y3, 1, Described(1, answer));
    ConnectLater(Two(w, x2, y3), Local(1, Described(1, answer)), a, b, m);
    ConnectLater(Two(w, x2, y2), Local(1, Applied(0)), a, b, m);
    ConnectLater(Two(w, x2, y), Deliver(1, Some(f)), a, b, m);
    ConnectLater(Two(w, x, y), Local(0, Described(0, offer)), a, b, m);
  }

  lemma KeysExchanged(w: World, a: Id, b: Id, m: MatchId)
    requires a in w.users && b in w.users
    ensures var x, y := Step(New(a, w.users[a], Initiator, m, b), Start), Step(New(b, w.users[b], Responder, m, a), Start);
            var f, g := KeyFrameFrom(a, w.users[a], m), KeyFrameFrom(b, w.users[b], m);
            f in x.sent && g in y.sent && Keyed(w, a, b, m, Step(x, Relay(Some(g))), Step(y, Relay(Some(f))))
  {
    var x, y := Step(New(a, w.users[a], Initiator, m, b), Start), Step(New(b, w.users[b], Responder, m, a), Start);
    assert x.sent == [KeyFrameFrom(a, w.users[a], m)] && y.sent == [KeyFrameFrom(b, w.users[b], m)];
  }

  /** Any two of our devices connect over a board that matches them and relays their frames, once one has sent an
   *  intent for the other; by KeyAgreement their channels then mirror each other, if their keys differ. */
  lemma AnyTwoCanConnect(users: map<Id, Pub>, a: Id, b: Id, m: MatchId)
    requires a in users && b in users
    ensures CanConnect(Begin(users), a, b, m)
  {
    var w0 := Begin(users);
    var w1 := WorldStep(w0, SendIntent(a, b));
    MatchIff(w0, 0, a, Initiator, m, b);
    var x, y := Step(New(a, users[a], Initiator, m, b), Start), Step(New(b, users[b], Responder, m, a), Start);
    MatchIff(w1, 0, a, Initiator, m, b);
    var w2 := WorldStep(w1, Match(0, a, Initiator, m, b));
    MatchIff(w2, 1, b, Responder, m, a);
    var w3 := WorldStep(w2, Match(1, b, Responder, m, a));
    assert w3 == Two(w1, x, y);
    var f, g := KeyFrameFrom(a, users[a], m), KeyFrameFrom(b, users[b], m);
    KeysExchanged(w1, a, b, m);
    RelaysTo(w1, x, y, 0, g);
    var x1 := Step(x, Relay(Some(g)));
    var y1 := Step(y, Relay(Some(f)));
    assert f in x1.sent;
    RelaysTo(w1, x1, y, 1, f);
    FromKeyed(w1, a, b, m, x1, y1, 0, 1);
    ConnectLater(Two(w1, x1, y), Deliver(1, Some(f)), a, b, m);
    ConnectLater(w3, Deliver(0, Some(g)), a, b, m);
    ConnectLater(w2, Match(1, b, Responder, m, a), a, b, m);
    ConnectLater(w1, Match(0, a, Initiator, m, b), a, b, m);
    ConnectLater(w0, SendIntent(a, b), a, b, m);
  }
}
