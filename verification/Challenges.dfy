/** The recipient's side of a migration: pending migrations and the two challenges that let one be accepted
 *  without asking (packages/orpal-core/src/messaging/migration-manager.ts).
 *
 *  A sealed box opens with the private half of its public key only. Random nonces and ACK keys are fresh.
 */
module Challenges {
  import opened Common

  type Contact = nat

  /** A transport key of a device, or an ACK key made for one challenge. */
  datatype Pub = Transport(k: nat) | AckPub(n: nat)

  /** What a box may hold: a nonce of ours, or anything others can make up. */
  datatype Content = Nonce(n: nat) | Other(x: nat)

  datatype Box = Box(to: Pub, content: Content)

  datatype Target = Old | New

  datatype Pending = Pending(contact: Contact, newKey: nat, newTransport: Pub)

  datatype ChallengeSet = ChallengeSet(
    migration: Pending, oldNonce: Content, newNonce: Content, oldAck: Pub, newAck: Pub, oldVerified: bool, newVerified: bool)

  /** `next` numbers the random values to come. */
  datatype Manager = Manager(pending: seq<Pending>, challenges: map<Contact, ChallengeSet>, next: nat)

  datatype Challenge = Challenge(target: Target, nonce: Box, ackPub: Pub)

  datatype Verdict = Verdict(bothVerified: bool, valid: bool)

  predicate Listed(pending: seq<Pending>, contact: Contact, newKey: nat) {
    exists i :: 0 <= i < |pending| && pending[i].contact == contact && pending[i].newKey == newKey
  }

  /** A verified migration is listed once per new key. */
  function Incoming(m: Manager, p: Pending): Manager {
    if Listed(m.pending, p.contact, p.newKey) then m else m.(pending := m.pending + [p])
  }

  /** findIndex: the first pending migration of the contact, or the length. */
  function FindIndex(pending: seq<Pending>, contact: Contact): (i: nat)
    ensures i <= |pending| && (i < |pending| ==> pending[i].contact == contact)
    ensures forall j :: 0 <= j < i ==> pending[j].contact != contact
  {
    if pending == [] || pending[0].contact == contact then 0 else 1 + FindIndex(pending[1..], contact)
  }

  /** Accepting or declining takes the first one off the list; its challenge set stays. */
  function Splice(m: Manager, contact: Contact): Manager {
    var i := FindIndex(m.pending, contact);
    if i == |m.pending| then m else m.(pending := m.pending[..i] + m.pending[i + 1..])
  }

  function NewSet(p: Pending, next: nat): ChallengeSet {
    ChallengeSet(p, Nonce(next), Nonce(next + 1), AckPub(next + 2), AckPub(next + 3), false, false)
  }

  function Create(m: Manager, contact: Contact, oldTransport: Pub): (Manager, seq<Challenge>) {
    var i := FindIndex(m.pending, contact);
    if i == |m.pending| then (m, [])
    else
      var cs := NewSet(m.pending[i], m.next);
      (m.(challenges := m.challenges[contact := cs], next := m.next + 4),
       [Challenge(Old, Box(oldTransport, cs.oldNonce), cs.oldAck),
        Challenge(New, Box(m.pending[i].newTransport, cs.newNonce), cs.newAck)])
  }

  function NonceOf(cs: ChallengeSet, target: Target): Content { if target.Old? then cs.oldNonce else cs.newNonce }

  function AckOf(cs: ChallengeSet, target: Target): Pub { if target.Old? then cs.oldAck else cs.newAck }

  function Marked(cs: ChallengeSet, target: Target): ChallengeSet {
    if target.Old? then cs.(oldVerified := true) else cs.(newVerified := true)
  }

  function VerifyResponse(m: Manager, contact: Contact, target: Target, echo: Box): (Manager, Verdict) {
    if contact !in m.challenges then (m, Verdict(false, false))
    else
      var cs := m.challenges[contact];
      if echo.to != AckOf(cs, target) || echo.content != NonceOf(cs, target) then (m, Verdict(false, false))
      else
        var cs' := Marked(cs, target);
        if cs'.oldVerified && cs'.newVerified then (m.(challenges := m.challenges - {contact}), Verdict(true, true))
        else (m.(challenges := m.challenges[contact := cs']), Verdict(false, true))
  }

  /** The migrating device's answer: it opens the nonce with the key the target names. */
  function Answer(current: Pub, replacement: Option<Pub>, target: Target, nonce: Box, ackPub: Pub): Option<Box> {
    var own := if target.Old? then Some(current) else replacement;
    if own != Some(nonce.to) then None else Some(Box(ackPub, nonce.content))
  }

  // ---------------------------------------------------------------------------------------------
  // Honest answers
  // ---------------------------------------------------------------------------------------------

  /** Responses in the order of `targets`, each the honest answer to its challenge. */
  function Responses(m: Manager, contact: Contact, cs: ChallengeSet, targets: seq<Target>): (Manager, seq<Verdict>)
    decreases |targets|
  {
    if targets == [] then (m, [])
    else
      var r := VerifyResponse(m, contact, targets[0], Box(AckOf(cs, targets[0]), NonceOf(cs, targets[0])));
      var more := Responses(r.0, contact, cs, targets[1..]);
      (more.0, [r.1] + more.1)
  }

  function Passes(vs: seq<Verdict>): nat {
    if vs == [] then 0 else Passes(vs[1..]) + if vs[0].bothVerified then 1 else 0
  }

  /** The device that holds both keys can answer both challenges. */
  lemma BothAnswered(m: Manager, contact: Contact, oldTransport: Pub)
    requires FindIndex(m.pending, contact) < |m.pending|
    ensures var (m', out) := Create(m, contact, oldTransport);
            var replacement := Some(m.pending[FindIndex(m.pending, contact)].newTransport);
            |out| == 2 && contact in m'.challenges &&
            forall i :: 0 <= i < 2 ==>
              Answer(oldTransport, replacement, out[i].target, out[i].nonce, out[i].ackPub) ==
              Some(Box(AckOf(m'.challenges[contact], out[i].target), NonceOf(m'.challenges[contact], out[i].target)))
  {
  }

  /** Honest answers in any order and with any duplicates pass exactly once, as soon as both have come. */
  lemma {:induction false} HonestAnswersPass(m: Manager, contact: Contact, targets: seq<Target>)
    requires contact in m.challenges && !(m.challenges[contact].oldVerified && m.challenges[contact].newVerified)
    ensures var cs := m.challenges[contact];
            var (m', vs) := Responses(m, contact, cs, targets);
            var done := (cs.oldVerified || Old in targets) && (cs.newVerified || New in targets);
            (Passes(vs) == if done then 1 else 0) && (done <==> contact !in m'.challenges)
    decreases |targets|
  {
    if targets == [] {
    } else {
      var cs := m.challenges[contact];
      var t := targets[0];
      var r := VerifyResponse(m, contact, t, Box(AckOf(cs, t), NonceOf(cs, t)));
      assert targets == [t] + targets[1..];
      var more := Responses(r.0, contact, cs, targets[1..]);
      assert ([r.1] + more.1)[1..] == more.1;
      if r.1.bothVerified {
        AfterPass(r.0, contact, cs, targets[1..]);
      } else {
        SameQuestions(r.0, contact, cs, Marked(cs, t), targets[1..]);
        HonestAnswersPass(r.0, contact, targets[1..]);
      }
    }
  }

  lemma {:induction false} AfterPass(m: Manager, contact: Contact, cs: ChallengeSet, targets: seq<Target>)
    requires contact !in m.challenges
    ensures var (m', vs) := Responses(m, contact, cs, targets); m' == m && Passes(vs) == 0
    decreases |targets|
  {
    if targets == [] {
    } else {
      AfterPass(m, contact, cs, targets[1..]);
      var more := Responses(m, contact, cs, targets[1..]);
      assert ([Verdict(false, false)] + more.1)[1..] == more.1;
    }
  }

  lemma {:induction false} SameQuestions(m: Manager, contact: Contact, a: ChallengeSet, b: ChallengeSet, targets: seq<Target>)
    requires forall t :: AckOf(a, t) == AckOf(b, t) && NonceOf(a, t) == NonceOf(b, t)
    ensures Responses(m, contact, a, targets) == Responses(m, contact, b, targets)
    decreases |targets|
  {
    if targets == [] {
    } else {
      var t := targets[0];
      SameQuestions(VerifyResponse(m, contact, t, Box(AckOf(a, t), NonceOf(a, t))).0, contact, a, b, targets[1..]);
    }
  }

  // ---------------------------------------------------------------------------------------------
  // A party that does not hold both keys
  // ---------------------------------------------------------------------------------------------

  /** What was sealed for a challenge set, to which keys. */
  datatype Sealing = Sealing(oldTransport: Pub, newTransport: Pub)

  /** The manager against a party that sees every challenge and sends every response. `wire` holds the
   *  challenge boxes so far, `sealed` the keys of each contact's current set, `returned` the nonces that
   *  came back validly, `passed` every set that was fully verified with the keys it was sealed to. */
  datatype World = World(
    m: Manager, wire: set<Box>, sealed: map<Contact, Sealing>, returned: set<Content>, passed: seq<(ChallengeSet, Sealing)>)

  datatype Event =
    | Announce(p: Pending)
    | Challenged(contact: Contact, oldTransport: Pub)
    | Respond(contact: Contact, target: Target, echo: Box)
    | Settle(contact: Contact)

  /** The boxes the party can make: from what it opened with the keys it holds, or made up; or replayed. */
  predicate CanSend(w: World, held: set<Pub>, b: Box) {
    b in w.wire || b.content.Other? || exists seen :: seen in w.wire && seen.to in held && seen.content == b.content
  }

  /** A key that is yet to be made cannot be named; an ACK key of ours, once public, can be put in a binding. */
  predicate Nameable(w: World, k: Pub) { k.AckPub? ==> k.n < w.m.next }

  function OnChallenged(w: World, contact: Contact, oldTransport: Pub): World {
    var i := FindIndex(w.m.pending, contact);
    var (m', out) := Create(w.m, contact, oldTransport);
    if i == |w.m.pending| || !Nameable(w, oldTransport) || !Nameable(w, w.m.pending[i].newTransport) then w
    else w.(m := m', wire := w.wire + {out[0].nonce, out[1].nonce},
            sealed := w.sealed[contact := Sealing(oldTransport, w.m.pending[i].newTransport)])
  }

  /** A pass is followed at once by accepting the contact's first pending migration. */
  function OnRespond(w: World, held: set<Pub>, contact: Contact, target: Target, echo: Box): World {
    if !CanSend(w, held, echo) then w
    else
      var (m', v) := VerifyResponse(w.m, contact, target, echo);
      var w' := w.(m := m', returned := if v.valid then w.returned + {echo.content} else w.returned);
      if v.bothVerified && contact in w.m.challenges && contact in w.sealed
      then w'.(m := Splice(m', contact), passed := w.passed + [(Marked(w.m.challenges[contact], target), w.sealed[contact])])
      else w'
  }

  function Step(w: World, held: set<Pub>, e: Event): World {
    match e
    case Announce(p) => w.(m := Incoming(w.m, p))
    case Challenged(contact, oldTransport) => OnChallenged(w, contact, oldTransport)
    case Respond(contact, target, echo) => OnRespond(w, held, contact, target, echo)
    case Settle(contact) => w.(m := Splice(w.m, contact))
  }

  function Run(w: World, held: set<Pub>, es: seq<Event>): World
    decreases |es|
  {
    if es == [] then w else Run(Step(w, held, es[0]), held, es[1..])
  }

  const BEGIN: World := World(Manager([], map[], 0), {}, map[], {}, [])

  /** Boxes hold past nonces, and no nonce is sealed to two keys. */
  predicate WireInv(w: World) {
    (forall b :: b in w.wire ==> b.content.Nonce? && b.content.n < w.m.next) &&
    (forall a, b :: a in w.wire && b in w.wire && a.content == b.content ==> a.to == b.to)
  }

  predicate SetInv(w: World, held: set<Pub>, contact: Contact)
    requires contact in w.m.challenges
  {
    var cs := w.m.challenges[contact];
    contact in w.sealed && w.sealed[contact].oldTransport != cs.oldAck && w.sealed[contact].newTransport != cs.newAck &&
    Box(w.sealed[contact].oldTransport, cs.oldNonce) in w.wire && Box(w.sealed[contact].newTransport, cs.newNonce) in w.wire &&
    (cs.oldVerified ==> w.sealed[contact].oldTransport in held && cs.oldNonce in w.returned) &&
    (cs.newVerified ==> w.sealed[contact].newTransport in held && cs.newNonce in w.returned)
  }

  predicate PassedInv(w: World, held: set<Pub>) {
    forall i :: 0 <= i < |w.passed| ==>
      w.passed[i].1.oldTransport in held && w.passed[i].1.newTransport in held &&
      w.passed[i].0.oldNonce in w.returned && w.passed[i].0.newNonce in w.returned
  }

  predicate Inv(w: World, held: set<Pub>) {
    WireInv(w) && (forall c :: c in w.m.challenges ==> SetInv(w, held, c)) && PassedInv(w, held)
  }

  lemma ChallengedKeeps(w: World, held: set<Pub>, contact: Contact, oldTransport: Pub)
    requires Inv(w, held)
    ensures Inv(OnChallenged(w, contact, oldTransport), held)
  {
    var v := OnChallenged(w, contact, oldTransport);
    forall c | c in v.m.challenges ensures SetInv(v, held, c) {
      if c in w.m.challenges { assert SetInv(w, held, c); }
    }
  }

  /** A valid echo means the party holds the key that nonce was sealed to. */
  lemma EchoNeedsKey(w: World, held: set<Pub>, b: Box, to: Pub)
    requires WireInv(w) && CanSend(w, held, b) && b.to != to && Box(to, b.content) in w.wire
    ensures to in held
  {
    assert b !in w.wire;
    var seen :| seen in w.wire && seen.to in held && seen.content == b.content;
    assert seen.to == Box(to, b.content).to;
  }

  lemma RespondKeeps(w: World, held: set<Pub>, contact: Contact, target: Target, echo: Box)
    requires Inv(w, held)
    ensures Inv(OnRespond(w, held, contact, target, echo), held)
  {
    var v := OnRespond(w, held, contact, target, echo);
    if CanSend(w, held, echo) && VerifyResponse(w.m, contact, target, echo).1.valid {
      assert SetInv(w, held, contact);
      var s := w.sealed[contact];
      EchoNeedsKey(w, held, echo, if target.Old? then s.oldTransport else s.newTransport);
    }
    forall c | c in v.m.challenges ensures SetInv(v, held, c) {
      assert SetInv(w, held, c);
    }
  }

  lemma StepKeeps(w: World, held: set<Pub>, e: Event)
    requires Inv(w, held)
    ensures Inv(Step(w, held, e), held)
  {
    match e
    case Challenged(contact, oldTransport) => ChallengedKeeps(w, held, contact, oldTransport);
    case Respond(contact, target, echo) => RespondKeeps(w, held, contact, target, echo);
    case _ =>
      forall c | c in Step(w, held, e).m.challenges ensures SetInv(Step(w, held, e), held, c) { assert SetInv(w, held, c); }
  }

  /** However challenge sets are made, regenerated and answered, a set is fully verified only for a party
   *  that holds both private keys it was sealed to, after both its nonces came back. */
  lemma {:induction false} PassingTakesBothKeys(w: World, held: set<Pub>, es: seq<Event>)
    requires Inv(w, held)
    ensures PassedInv(Run(w, held, es), held)
    decreases |es|
  {
    if es == [] {
    } else {
      StepKeeps(w, held, es[0]);
      PassingTakesBothKeys(Step(w, held, es[0]), held, es[1..]);
    }
  }

  /** The events by which a party that holds both keys has its migration accepted. */
  function Passing(w: World, c: Contact, oldTransport: Pub): seq<Event> {
    var n := w.m.next;
    [Challenged(c, oldTransport), Respond(c, Old, Box(AckPub(n + 2), Nonce(n))), Respond(c, New, Box(AckPub(n + 3), Nonce(n + 1)))]
  }

  lemma ThreeSteps(w: World, held: set<Pub>, a: Event, b: Event, e: Event)
    ensures Run(w, held, [a, b, e]) == Step(Step(Step(w, held, a), held, b), held, e)
  {
    assert [a, b, e][1..] == [b, e] && [b, e][1..] == [e] && [e][1..] == [];
    assert Run(w, held, [a, b, e]) == Run(Step(w, held, a), held, [b, e]) == Run(Step(Step(w, held, a), held, b), held, [e]);
    assert Run(Step(Step(w, held, a), held, b), held, [e]) == Run(Step(Step(Step(w, held, a), held, b), held, e), held, []);
  }

  /** A contact's first pending migration is challenged; the party that holds the private keys of both transport
   *  keys opens the boxes and answers; the set passes, and the migration is taken off the list. */
  lemma HolderPasses(w: World, held: set<Pub>, c: Contact, oldTransport: Pub)
    requires Inv(w, held) && FindIndex(w.m.pending, c) < |w.m.pending|
    requires var p := w.m.pending[FindIndex(w.m.pending, c)];
             oldTransport in held && p.newTransport in held && Nameable(w, oldTransport) && Nameable(w, p.newTransport)
    ensures var i, r := FindIndex(w.m.pending, c), Run(w, held, Passing(w, c, oldTransport));
            |r.passed| == |w.passed| + 1 && r.passed[|w.passed|].0.migration == w.m.pending[i] &&
            r.passed[|w.passed|].1 == Sealing(oldTransport, w.m.pending[i].newTransport) &&
            r.m.pending == w.m.pending[..i] + w.m.pending[i + 1..] && c !in r.m.challenges
  {
    var n, p := w.m.next, w.m.pending[FindIndex(w.m.pending, c)];
    var es := Passing(w, c, oldTransport);
    ThreeSteps(w, held, es[0], es[1], es[2]);
    var w1 := Step(w, held, es[0]);
    assert Box(oldTransport, Nonce(n)) in w1.wire && Box(p.newTransport, Nonce(n + 1)) in w1.wire;
    assert CanSend(w1, held, es[1].echo) && CanSend(w1, held, es[2].echo);
    var w2 := Step(w1, held, es[1]);
    OldPasses(w1, held, c, n, p);
    assert CanSend(w2, held, es[2].echo);
    NewPasses(w2, held, c, n, p);
  }

  lemma OldPasses(w: World, held: set<Pub>, c: Contact, n: nat, p: Pending)
    requires c in w.m.challenges && w.m.challenges[c] == NewSet(p, n) && CanSend(w, held, Box(AckPub(n + 2), Nonce(n)))
    ensures var v := Step(w, held, Respond(c, Old, Box(AckPub(n + 2), Nonce(n))));
            c in v.m.challenges && v.m.challenges[c] == NewSet(p, n).(oldVerified := true) && v.m.pending == w.m.pending &&
            v.wire == w.wire && v.sealed == w.sealed && v.passed == w.passed
  {
  }

  lemma NewPasses(w: World, held: set<Pub>, c: Contact, n: nat, p: Pending)
    requires c in w.m.challenges && c in w.sealed && w.m.challenges[c] == NewSet(p, n).(oldVerified := true)
    requires CanSend(w, held, Box(AckPub(n + 3), Nonce(n + 1))) && FindIndex(w.m.pending, c) < |w.m.pending|
    ensures var i, v := FindIndex(w.m.pending, c), Step(w, held, Respond(c, New, Box(AckPub(n + 3), Nonce(n + 1))));
            |v.passed| == |w.passed| + 1 && v.passed[|w.passed|].0.migration == p && v.passed[|w.passed|].1 == w.sealed[c] &&
            v.m.pending == w.m.pending[..i] + w.m.pending[i + 1..] && c !in v.m.challenges
  {
  }

  /** A challenge is answered with the private key that its target names, and with no other. */
  lemma AnswersIff(current: Pub, replacement: Option<Pub>, target: Target, nonce: Box, ackPub: Pub)
    ensures Answer(current, replacement, target, nonce, ackPub) ==
            if (target.Old? && nonce.to == current) || (target.New? && replacement == Some(nonce.to))
            then Some(Box(ackPub, nonce.content)) else None
  {
  }

  /** A migration is listed once per contact and new key, behind those already there. */
  lemma IncomingIff(m: Manager, p: Pending)
    ensures Listed(Incoming(m, p).pending, p.contact, p.newKey)
    ensures forall c, k :: Listed(m.pending, c, k) ==> Listed(Incoming(m, p).pending, c, k)
    ensures Incoming(m, p).pending == m.pending + if Listed(m.pending, p.contact, p.newKey) then [] else [p]
    ensures Incoming(m, p).challenges == m.challenges
  {
    var m' := Incoming(m, p);
    if m'.pending != m.pending { assert m'.pending[|m.pending|] == p; }
    forall c, k | Listed(m.pending, c, k) ensures Listed(m'.pending, c, k) {
      var i :| 0 <= i < |m.pending| && m.pending[i].contact == c && m.pending[i].newKey == k;
      assert m'.pending[i] == m.pending[i];
    }
  }

  lemma BeginsWell(held: set<Pub>)
    ensures Inv(BEGIN, held)
  {
  }

  // ---------------------------------------------------------------------------------------------
  // The object
  // ---------------------------------------------------------------------------------------------

  class MigrationRecipient {
    var pendingIncoming: seq<Pending>
    var pendingChallenges: map<Contact, ChallengeSet>
    var random: nat

    ghost function View(): Manager
      reads this
    {
      Manager(pendingIncoming, pendingChallenges, random)
    }

    constructor ()
      ensures View() == Manager([], map[], 0)
    {
      pendingIncoming, pendingChallenges, random := [], map[], 0;
    }

    method HandleIncoming(p: Pending)
      modifies this
      ensures View() == Incoming(old(View()), p)
    {
      var already := false;
      for i := 0 to |pendingIncoming|
        invariant already <==> Listed(pendingIncoming[..i], p.contact, p.newKey)
        invariant View() == old(View())
      {
        already := already || (pendingIncoming[i].contact == p.contact && pendingIncoming[i].newKey == p.newKey);
        assert pendingIncoming[..i + 1] == pendingIncoming[..i] + [pendingIncoming[i]];
      }
      assert pendingIncoming[..|pendingIncoming|] == pendingIncoming;
      if !already { pendingIncoming := pendingIncoming + [p]; }
    }

    method Find(contact: Contact) returns (idx: nat)
      ensures idx == FindIndex(pendingIncoming, contact)
    {
      idx := 0;
      while idx < |pendingIncoming| && pendingIncoming[idx].contact != contact
        invariant idx <= |pendingIncoming| && forall j :: 0 <= j < idx ==> pendingIncoming[j].contact != contact
      {
        idx := idx + 1;
      }
    }

    method AcceptIncoming(contact: Contact) returns (accepted: Option<Pending>)
      modifies this
      ensures View() == Splice(old(View()), contact)
      ensures accepted.Some? <==> FindIndex(old(pendingIncoming), contact) < |old(pendingIncoming)|
      ensures accepted.Some? ==> accepted.value == old(pendingIncoming)[FindIndex(old(pendingIncoming), contact)]
    {
      var idx := Find(contact);
      if idx == |pendingIncoming| { return None; }
      accepted := Some(pendingIncoming[idx]);
      pendingIncoming := pendingIncoming[..idx] + pendingIncoming[idx + 1..];
    }

    method CreateChallenges(contact: Contact, oldTransport: Pub) returns (out: seq<Challenge>)
      modifies this
      ensures (View(), out) == Create(old(View()), contact, oldTransport)
    {
      var idx := Find(contact);
      if idx == |pendingIncoming| { return []; }
      var cs := NewSet(pendingIncoming[idx], random);
      random := random + 4;
      pendingChallenges := pendingChallenges[contact := cs];
      out := [Challenge(Old, Box(oldTransport, cs.oldNonce), cs.oldAck),
              Challenge(New, Box(pendingIncoming[idx].newTransport, cs.newNonce), cs.newAck)];
    }

    method VerifyChallengeResponse(contact: Contact, target: Target, echo: Box) returns (v: Verdict)
      modifies this
      ensures (View(), v) == VerifyResponse(old(View()), contact, target, echo)
    {
      if contact !in pendingChallenges { return Verdict(false, false); }
      var cs := pendingChallenges[contact];
      var ack := if target == Old then cs.oldAck else cs.newAck;
      var expected := if target == Old then cs.oldNonce else cs.newNonce;
      if echo.to != ack { return Verdict(false, false); }
      if echo.content != expected { return Verdict(false, false); }
      if target == Old { cs := cs.(oldVerified := true); } else { cs := cs.(newVerified := true); }
      var both := cs.oldVerified && cs.newVerified;
      pendingChallenges := if both then pendingChallenges - {contact} else pendingChallenges[contact := cs];
      v := Verdict(both, true);
    }
  }
}
