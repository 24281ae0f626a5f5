/** Which migration a passed challenge accepts (packages/orpal-core/src/messaging/migration-manager.ts and
 *  orpal-client.ts, case `migration-challenge-response`): the challenged one, or another of the contact's.
 */
module ChallengedMigrations {
  import opened Common
  import opened Challenges

  /** The contact's migrations from the challenged one on, as announced, and how many of them have been taken
   *  off the list since, accepted or declined. */
  datatype Line = Line(all: seq<Pending>, taken: nat)

  /** `accepted` is the contact's first pending migration when `set'` passed. */
  datatype Pass = Pass(set': ChallengeSet, line: Line, accepted: Option<Pending>)

  datatype Recipient = Recipient(m: Manager, lines: map<Contact, Line>, passes: seq<Pass>)

  datatype Event =
    | Announced(contact: Contact, newKey: nat, newTransport: Pub)
    | Posed(contact: Contact, oldTransport: Pub)
    | Answered(contact: Contact, target: Target, echo: Box)
    | Settled(contact: Contact)

  const BEGIN: Recipient := Recipient(Manager([], map[], 0), map[], [])

  /** pendingIncoming.find. */
  function First(pending: seq<Pending>, c: Contact): Option<Pending> {
    var i := FindIndex(pending, c);
    if i < |pending| then Some(pending[i]) else None
  }

  /** The contact's own. */
  function Mine(pending: seq<Pending>, c: Contact): seq<Pending> {
    if pending == [] then []
    else (if pending[0].contact == c then [pending[0]] else []) + Mine(pending[1..], c)
  }

  /** A record already listed is not listed again. */
  function OnAnnounce(r: Recipient, p: Pending): Recipient {
    r.(m := Incoming(r.m, p),
       lines := if p.contact in r.lines && !Listed(r.m.pending, p.contact, p.newKey)
                then r.lines[p.contact := r.lines[p.contact].(all := r.lines[p.contact].all + [p])] else r.lines)
  }

  function OnSettle(r: Recipient, c: Contact): Recipient {
    r.(m := Splice(r.m, c),
       lines := if c in r.lines && First(r.m.pending, c).Some?
                then r.lines[c := r.lines[c].(taken := r.lines[c].taken + 1)] else r.lines)
  }

  function OnRespond(r: Recipient, c: Contact, target: Target, echo: Box): Recipient {
    var (m', v) := VerifyResponse(r.m, c, target, echo);
    if v.bothVerified && c in r.m.challenges && c in r.lines
    then OnSettle(r.(m := m', passes := r.passes + [Pass(r.m.challenges[c], r.lines[c], First(m'.pending, c))]), c)
    else r.(m := m')
  }

  function Step(r: Recipient, e: Event): Recipient {
    match e
    case Announced(c, key, transport) => OnAnnounce(r, Pending(c, key, transport))
    case Posed(c, key) =>
      if First(r.m.pending, c).None? then r
      else r.(m := Create(r.m, c, key).0, lines := r.lines[c := Line(Mine(r.m.pending, c), 0)])
    case Answered(c, target, echo) => OnRespond(r, c, target, echo)
    case Settled(c) => OnSettle(r, c)
  }

  function Run(r: Recipient, es: seq<Event>): Recipient
    decreases |es|
  {
    if es == [] then r else Run(Step(r, es[0]), es[1..])
  }

  // ---------------------------------------------------------------------------------------------
  // Invariant
  // ---------------------------------------------------------------------------------------------

  /** What is still listed of the contact is the rest of its line. */
  predicate LineInv(r: Recipient, c: Contact)
    requires c in r.lines
  {
    r.lines[c].taken <= |r.lines[c].all| && Mine(r.m.pending, c) == r.lines[c].all[r.lines[c].taken..]
  }

  predicate SetInv(r: Recipient, c: Contact)
    requires c in r.m.challenges
  {
    c in r.lines && r.lines[c].all != [] && r.lines[c].all[0] == r.m.challenges[c].migration
  }

  predicate PassInv(p: Pass) {
    p.line.all != [] && p.line.all[0] == p.set'.migration &&
    p.accepted == if p.line.taken < |p.line.all| then Some(p.line.all[p.line.taken]) else None
  }

  predicate Inv(r: Recipient) {
    (forall c :: c in r.lines ==> LineInv(r, c)) && (forall c :: c in r.m.challenges ==> SetInv(r, c)) &&
    forall i :: 0 <= i < |r.passes| ==> PassInv(r.passes[i])
  }

  lemma {:induction false} FirstIsMine(pending: seq<Pending>, c: Contact)
    ensures First(pending, c) == if Mine(pending, c) == [] then None else Some(Mine(pending, c)[0])
  {
    if pending == [] {
    } else {
      FirstIsMine(pending[1..], c);
    }
  }

  lemma {:induction false} MineOfMore(pending: seq<Pending>, p: Pending, c: Contact)
    ensures Mine(pending + [p], c) == Mine(pending, c) + if p.contact == c then [p] else []
  {
    if pending == [] {
      assert [p][1..] == [];
    } else {
      assert (pending + [p])[0] == pending[0] && (pending + [p])[1..] == pending[1..] + [p];
      MineOfMore(pending[1..], p, c);
      var first := if pending[0].contact == c then [pending[0]] else [];
      Associative(first, Mine(pending[1..], c), if p.contact == c then [p] else []);
    }
  }

  /** Taking a contact's first migration off the list shortens its own line from the front, and no other's. */
  lemma {:induction false} MineOfFewer(pending: seq<Pending>, c: Contact, x: Contact)
    requires FindIndex(pending, c) < |pending|
    ensures var i := FindIndex(pending, c);
            Mine(pending, c) != [] &&
            Mine(pending[..i] + pending[i + 1..], x) == if x == c then Mine(pending, c)[1..] else Mine(pending, x)
  {
    var i := FindIndex(pending, c);
    var rest := pending[..i] + pending[i + 1..];
    if i == 0 {
      assert rest == pending[1..];
    } else {
      MineOfFewer(pending[1..], c, x);
      assert rest[0] == pending[0] && rest[1..] == pending[1..][..i - 1] + pending[1..][i..];
    }
  }

  lemma SettledLine(r: Recipient, c: Contact, x: Contact)
    requires x in r.lines && LineInv(r, x) && FindIndex(r.m.pending, c) < |r.m.pending|
    ensures x in OnSettle(r, c).lines && LineInv(OnSettle(r, c), x) && OnSettle(r, c).lines[x].all == r.lines[x].all
  {
    MineOfFewer(r.m.pending, c, x);
    assert OnSettle(r, c).m.pending == r.m.pending[..FindIndex(r.m.pending, c)] + r.m.pending[FindIndex(r.m.pending, c) + 1..];
  }

  lemma SettleKeeps(r: Recipient, c: Contact)
    requires Inv(r)
    ensures Inv(OnSettle(r, c))
  {
    var v := OnSettle(r, c);
    if FindIndex(r.m.pending, c) < |r.m.pending| {
      forall x | x in r.lines ensures x in v.lines && LineInv(v, x) && v.lines[x].all == r.lines[x].all {
        assert LineInv(r, x);
        SettledLine(r, c, x);
      }
      assert v.lines.Keys == r.lines.Keys;
      forall x | x in v.m.challenges ensures SetInv(v, x) { assert SetInv(r, x); }
    } else {
      assert v.m == r.m && v.lines == r.lines;
      SameKeeps(r, v);
    }
  }

  lemma SameKeeps(r: Recipient, v: Recipient)
    requires Inv(r) && v.m.pending == r.m.pending && v.lines == r.lines && v.passes == r.passes
    requires forall c :: c in v.m.challenges ==> c in r.m.challenges && v.m.challenges[c].migration == r.m.challenges[c].migration
    ensures Inv(v)
  {
    forall c | c in v.lines ensures LineInv(v, c) { assert LineInv(r, c); }
    forall c | c in v.m.challenges ensures SetInv(v, c) { assert SetInv(r, c); }
  }

  lemma AnnounceKeeps(r: Recipient, p: Pending)
    requires Inv(r)
    ensures Inv(OnAnnounce(r, p))
  {
    var v := OnAnnounce(r, p);
    forall x | x in v.lines ensures LineInv(v, x) {
      assert LineInv(r, x);
      MineOfMore(r.m.pending, p, x);
    }
    forall x | x in v.m.challenges ensures SetInv(v, x) { assert SetInv(r, x); }
  }

  lemma ChallengeKeeps(r: Recipient, c: Contact, key: Pub)
    requires Inv(r)
    ensures Inv(Step(r, Posed(c, key)))
  {
    var v := Step(r, Posed(c, key));
    FirstIsMine(r.m.pending, c);
    forall x | x in v.lines ensures LineInv(v, x) {
      if x in r.lines { assert LineInv(r, x); }
    }
    forall x | x in v.m.challenges ensures SetInv(v, x) {
      if x in r.m.challenges { assert SetInv(r, x); }
    }
  }

  lemma RespondKeeps(r: Recipient, c: Contact, target: Target, echo: Box)
    requires Inv(r)
    ensures Inv(OnRespond(r, c, target, echo))
  {
    var (m', v) := VerifyResponse(r.m, c, target, echo);
    var q := r.(m := m');
    SameKeeps(r, q);
    if v.bothVerified && c in r.m.challenges {
      assert SetInv(r, c) && LineInv(r, c);
      FirstIsMine(m'.pending, c);
      var t := q.(passes := r.passes + [Pass(r.m.challenges[c], r.lines[c], First(m'.pending, c))]);
      assert Inv(t) by {
        forall x | x in t.lines ensures LineInv(t, x) { assert LineInv(q, x); }
        forall x | x in t.m.challenges ensures SetInv(t, x) { assert SetInv(q, x); }
      }
      SettleKeeps(t, c);
    }
  }

  lemma StepKeeps(r: Recipient, e: Event)
    requires Inv(r)
    ensures Inv(Step(r, e))
  {
    match e
    case Announced(c, key, transport) => AnnounceKeeps(r, Pending(c, key, transport));
    case Posed(c, key) => ChallengeKeeps(r, c, key);
    case Answered(c, target, echo) => RespondKeeps(r, c, target, echo);
    case Settled(c) => SettleKeeps(r, c);
  }

  /** In every run: a passed set accepts the migration that stands as many places behind the challenged one as
   *  migrations of the contact were accepted or declined since the set was made.  So it accepts the challenged
   *  record if and only if there were none, or the very same record has been announced again in that place. */
  lemma {:induction false} AcceptsTheChallengedIff(r: Recipient, es: seq<Event>, i: nat)
    requires Inv(r) && i < |Run(r, es).passes|
    ensures var p := Run(r, es).passes[i];
            p.accepted == (if p.line.taken < |p.line.all| then Some(p.line.all[p.line.taken]) else None) &&
            (p.accepted == Some(p.set'.migration) <==>
             p.line.taken == 0 || (p.line.taken < |p.line.all| && p.line.all[p.line.taken] == p.set'.migration))
    decreases |es|
  {
    if es == [] {
      assert PassInv(r.passes[i]);
    } else {
      StepKeeps(r, es[0]);
      AcceptsTheChallengedIff(Step(r, es[0]), es[1..], i);
    }
  }

  lemma BeginsWell()
    ensures Inv(BEGIN)
  {
  }

  /** Two migrations are announced and the first is challenged, then declined; its honest answers accept the
   *  second one, which was never challenged. */
  lemma AnotherIsAccepted(c: Contact, a: Pub, b: Pub, key: Pub)
    ensures var r := Step(Step(Step(Step(BEGIN, Announced(c, 1, a)), Announced(c, 2, b)), Posed(c, key)), Settled(c));
            var s := Step(Step(r, Answered(c, Old, Box(AckPub(2), Nonce(0)))), Answered(c, New, Box(AckPub(3), Nonce(1))));
            |s.passes| == 1 && s.passes[0].set'.migration == Pending(c, 1, a) && s.passes[0].accepted == Some(Pending(c, 2, b))
  {
    var p, q := Pending(c, 1, a), Pending(c, 2, b);
    TwoAnnounced(c, a, b);
    FirstPosed(c, p, q, key);
    FirstSettled(c, p, q);
    var r := Recipient(Manager([q], map[c := NewSet(p, 0)], 4), map[c := Line([p, q], 1)], []);
    OldAnswered(r, c, p);
    NewAnswered(Step(r, Answered(c, Old, Box(AckPub(2), Nonce(0)))), c, p, q);
  }

  lemma OldAnswered(r: Recipient, c: Contact, p: Pending)
    requires r.m.challenges == map[c := NewSet(p, 0)]
    ensures var s := Step(r, Answered(c, Old, Box(AckPub(2), Nonce(0))));
            s.m.pending == r.m.pending && s.m.challenges == map[c := Marked(NewSet(p, 0), Old)] && s.passes == r.passes && s.lines == r.lines
  {
    assert r.m.challenges[c := Marked(NewSet(p, 0), Old)] == map[c := Marked(NewSet(p, 0), Old)];
  }

  lemma NewAnswered(r: Recipient, c: Contact, p: Pending, q: Pending)
    requires r.m.challenges == map[c := Marked(NewSet(p, 0), Old)] && r.m.pending == [q] && q.contact == c && r.passes == [] && c in r.lines
    ensures var s := Step(r, Answered(c, New, Box(AckPub(3), Nonce(1))));
            |s.passes| == 1 && s.passes[0].set'.migration == p && s.passes[0].accepted == Some(q)
  {
  }

  lemma TwoAnnounced(c: Contact, a: Pub, b: Pub)
    ensures Step(Step(BEGIN, Announced(c, 1, a)), Announced(c, 2, b)) ==
            Recipient(Manager([Pending(c, 1, a), Pending(c, 2, b)], map[], 0), map[], [])
  {
    var p, q := Pending(c, 1, a), Pending(c, 2, b);
    var r := Recipient(Manager([p], map[], 0), map[], []);
    assert Step(BEGIN, Announced(c, 1, a)) == r by { assert [] + [p] == [p]; }
    assert !Listed([p], c, 2);
    assert [p] + [q] == [p, q];
  }

  lemma FirstPosed(c: Contact, p: Pending, q: Pending, key: Pub)
    requires p.contact == c && q.contact == c
    ensures Step(Recipient(Manager([p, q], map[], 0), map[], []), Posed(c, key)) ==
            Recipient(Manager([p, q], map[c := NewSet(p, 0)], 4), map[c := Line([p, q], 0)], [])
  {
    assert [p, q][1..] == [q] && [q][1..] == [];
    assert Mine([q], c) == [q] && Mine([p, q], c) == [p] + Mine([q], c) == [p, q];
  }

  lemma FirstSettled(c: Contact, p: Pending, q: Pending)
    requires p.contact == c
    ensures Step(Recipient(Manager([p, q], map[c := NewSet(p, 0)], 4), map[c := Line([p, q], 0)], []), Settled(c)) ==
            Recipient(Manager([q], map[c := NewSet(p, 0)], 4), map[c := Line([p, q], 1)], [])
  {
    assert [p, q][..0] + [p, q][1..] == [q];
  }
}
