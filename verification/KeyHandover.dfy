/** The initiator's side of an identity migration over three durable slots
 *  (packages/orpal-core/src/messaging/migration-manager.ts, identity/identity-manager.ts).
 *
 *  Each step performs at most one store write, and the device may crash between any two. Operations run
 *  one at a time. A key pair is a number; `minted` is the next one the random generator gives.
 */
module KeyHandover {
  import opened Common

  type KeyPair = nat
  type Contact = nat

  datatype Phase = Notifying | DualValidity | Complete

  /** `legacy` is the new key pair embedded in a state saved before the pending slot existed. */
  datatype Migration = Migration(
    phase: Phase, oldKey: KeyPair, newKey: KeyPair, legacy: Option<KeyPair>, acknowledged: set<Contact>)

  /** The main key slot, the pending key slot and the migration store. */
  datatype Disk = Disk(main: Option<KeyPair>, pending: Option<KeyPair>, migration: Option<Migration>)

  datatype Memory = Memory(identity: KeyPair, state: Option<Migration>, newIdentity: Option<KeyPair>)

  /** Where the running operation is; the number counts the writes of `retire` that are still to come. */
  datatype Pc =
    | Off
    | Booting
    | Idle
    | StrippingLegacy
    | Starting(newKey: KeyPair)
    | Retiring(stored: KeyPair, left: nat)

  datatype Device = Device(disk: Disk, mem: Memory, pc: Pc, minted: KeyPair)

  /** An acknowledgement that has been verified for its sender, with the keys it names. */
  datatype Ack = Ack(from: Contact, oldKey: KeyPair, newKey: KeyPair)

  datatype Event = Boot | Init | StartMigration | MarkNotified | Acknowledge(ack: Ack) | Retire | Continue | Crash

  predicate Active(m: Option<Migration>) { m.Some? && !m.value.phase.Complete? }

  /** loadOrCreate: a missing main key pair is created and saved. */
  function OnBoot(d: Device): Device {
    if !d.pc.Off? then d
    else if d.disk.main.Some? then d.(mem := Memory(d.disk.main.value, None, None), pc := Booting)
    else d.(disk := d.disk.(main := Some(d.minted)), mem := Memory(d.minted, None, None), pc := Booting, minted := d.minted + 1)
  }

  function OnInit(d: Device): Device {
    if !d.pc.Booting? then d
    else
      var state := d.disk.migration;
      var d' := d.(mem := d.mem.(state := state), pc := Idle);
      if !Active(state) then d'
      else if d.disk.pending.Some? then d'.(mem := d'.mem.(newIdentity := d.disk.pending))
      else if state.value.legacy.Some? then
        d'.(disk := d.disk.(pending := state.value.legacy), mem := d'.mem.(newIdentity := state.value.legacy), pc := StrippingLegacy)
      else d'
  }

  /** Seals the new keys; the state is saved by the next step. An active migration is an error. */
  function OnStart(d: Device): Device {
    if !d.pc.Idle? || Active(d.mem.state) then d
    else d.(disk := d.disk.(pending := Some(d.minted)), pc := Starting(d.minted), minted := d.minted + 1)
  }

  function OnMarkNotified(d: Device): Device {
    if !d.pc.Idle? || d.mem.state.None? || !d.mem.state.value.phase.Notifying? then d
    else
      var state := Some(d.mem.state.value.(phase := DualValidity));
      d.(mem := d.mem.(state := state), disk := d.disk.(migration := state))
  }

  predicate Counts(m: Option<Migration>, a: Ack) {
    m.Some? && a.oldKey == m.value.oldKey && a.newKey == m.value.newKey && a.from !in m.value.acknowledged
  }

  /** A first acknowledgement of this migration is recorded and the state saved, whatever its phase. */
  function OnAck(d: Device, a: Ack): Device {
    if !d.pc.Idle? || !Counts(d.mem.state, a) then d
    else
      var state := Some(d.mem.state.value.(acknowledged := d.mem.state.value.acknowledged + {a.from}));
      d.(mem := d.mem.(state := state), disk := d.disk.(migration := state))
  }

  /** Loads the pending keys; the five writes follow. */
  function OnRetire(d: Device): Device {
    if !d.pc.Idle? || d.mem.state.None? || d.disk.pending.None? then d
    else d.(pc := Retiring(d.disk.pending.value, 5))
  }

  function OnContinue(d: Device): Device {
    match d.pc
    case StrippingLegacy =>
      if d.mem.state.None? then d
      else
        var state := Some(d.mem.state.value.(legacy := None));
        d.(mem := d.mem.(state := state), disk := d.disk.(migration := state), pc := Idle)
    case Starting(newKey) =>
      var state := Some(Migration(Notifying, d.mem.identity, newKey, None, {}));
      d.(mem := d.mem.(state := state, newIdentity := Some(newKey)), disk := d.disk.(migration := state), pc := Idle)
    case Retiring(stored, left) => OnRetiring(d, stored, left)
    case _ => d
  }

  function OnRetiring(d: Device, stored: KeyPair, left: nat): Device {
    if left == 5 then d.(disk := d.disk.(main := None), pc := Retiring(stored, 4))
    else if left == 4 then d.(disk := d.disk.(main := Some(stored)), pc := Retiring(stored, 3))
    else if left == 3 then d.(disk := d.disk.(pending := None), pc := Retiring(stored, 2))
    else if d.mem.state.None? then d
    else if left == 2 then
      var state := Some(d.mem.state.value.(phase := Complete));
      d.(mem := d.mem.(state := state), disk := d.disk.(migration := state), pc := Retiring(stored, 1))
    else d.(disk := d.disk.(migration := None), pc := Idle)
  }

  /** A crash loses the memory and nothing else. */
  function Step(d: Device, e: Event): Device {
    match e
    case Boot => OnBoot(d)
    case Init => OnInit(d)
    case StartMigration => OnStart(d)
    case MarkNotified => OnMarkNotified(d)
    case Acknowledge(a) => OnAck(d, a)
    case Retire => OnRetire(d)
    case Continue => OnContinue(d)
    case Crash => d.(mem := Memory(0, None, None), pc := Off)
  }

  function Run(d: Device, es: seq<Event>): Device
    decreases |es|
  {
    if es == [] then d else Run(Step(d, es[0]), es[1..])
  }

  /** A device as delivered. */
  const FACTORY: Device := Device(Disk(None, None, None), Memory(0, None, None), Off, 1)

  // ---------------------------------------------------------------------------------------------
  // The new keys are never lost
  // ---------------------------------------------------------------------------------------------

  /** An announced new key pair is in the pending slot, or that slot is empty and the keys are in the main
   *  slot or still embedded in a legacy state. */
  predicate Held(d: Disk) {
    Active(d.migration) ==>
      var m := d.migration.value;
      (m.legacy.None? || m.legacy == Some(m.newKey)) &&
      (d.pending == Some(m.newKey) ||
      (d.pending.None? && (d.main == Some(m.newKey) || m.legacy == Some(m.newKey))))
  }

  /** Memory and store agree about the migration; after retirement the completed state lingers in memory. */
  predicate Agrees(d: Device) {
    if d.disk.migration.Some? then d.mem.state == d.disk.migration else !Active(d.mem.state)
  }

  predicate PcInv(d: Device) {
    match d.pc
    case Off => true
    case Booting => d.disk.main == Some(d.mem.identity)
    case Idle => Agrees(d)
    case StrippingLegacy => Agrees(d) && Active(d.disk.migration) && d.disk.pending == Some(d.disk.migration.value.newKey)
    case Starting(newKey) => Agrees(d) && !Active(d.disk.migration) && d.disk.pending == Some(newKey)
    case Retiring(stored, left) =>
      1 <= left <= 5 && Agrees(d) && d.mem.state.Some? && d.disk.pending == (if left >= 3 then Some(stored) else None) &&
      (left == 4 ==> d.disk.main == None) && (left <= 3 ==> d.disk.main == Some(stored)) &&
      (left == 1 ==> !Active(d.disk.migration))
  }

  /** Keys come from the random generator, so later ones differ; a completed migration's keys have left the
   *  pending slot, and what is found there is newer. */
  predicate FreshKeys(d: Device, m: Option<Migration>) {
    m.Some? ==>
      m.value.newKey < d.minted && (!Active(m) && d.disk.pending.Some? ==> d.disk.pending.value > m.value.newKey)
  }

  predicate Inv(d: Device) {
    Held(d.disk) && PcInv(d) && (d.disk.pending.Some? ==> d.disk.pending.value < d.minted) &&
    FreshKeys(d, d.disk.migration) && (!d.pc.Off? && !d.pc.Booting? ==> FreshKeys(d, d.mem.state))
  }

  lemma StepKeeps(d: Device, e: Event)
    requires Inv(d)
    ensures Inv(Step(d, e))
  {
    match e
    case Continue => ContinueKeeps(d);
    case _ =>
  }

  lemma ContinueKeeps(d: Device)
    requires Inv(d)
    ensures Inv(OnContinue(d))
  {
  }

  /** With crashes anywhere, every active migration's new keys stay in a durable slot. */
  lemma {:induction false} NewKeysAreKept(d: Device, es: seq<Event>)
    requires Inv(d)
    ensures Inv(Run(d, es)) && Held(Run(d, es).disk)
    decreases |es|
  {
    if es == [] {
    } else {
      StepKeeps(d, es[0]);
      NewKeysAreKept(Step(d, es[0]), es[1..]);
    }
  }

  /** While a migration is active, a step that takes a key pair out of the main slot finds and leaves the
   *  new one in the pending slot. */
  lemma OldKeysLeaveSafely(d: Device, e: Event)
    requires Inv(d) && Active(d.disk.migration)
    requires d.disk.main.Some? && Step(d, e).disk.main != d.disk.main
    ensures d.disk.pending == Some(d.disk.migration.value.newKey) == Step(d, e).disk.pending
  {
  }

  // ---------------------------------------------------------------------------------------------
  // Retiring again after a crash
  // ---------------------------------------------------------------------------------------------

  lemma RunCons(d: Device, e: Event, es: seq<Event>)
    ensures Run(d, [e] + es) == Run(Step(d, e), es)
  {
    assert ([e] + es)[1..] == es;
  }

  lemma RunOne(d: Device, e: Event)
    ensures Run(d, [e]) == Step(d, e)
  {
    assert [e] + [] == [e];
    RunCons(d, e, []);
  }

  lemma {:induction false} RunJoin(d: Device, a: seq<Event>, b: seq<Event>)
    ensures Run(d, a + b) == Run(Run(d, a), b)
    decreases |a|
  {
    if a == [] {
      assert a + b == b;
    } else {
      assert (a + b)[0] == a[0] && (a + b)[1..] == a[1..] + b;
      RunJoin(Step(d, a[0]), a[1..], b);
    }
  }

  function Writes(n: nat): seq<Event> { seq(n, _ => Continue) }

  /** The remaining writes of a retirement promote the stored keys and clear the rest. */
  lemma {:induction false} RetirementEnds(d: Device, left: nat)
    requires Inv(d) && d.pc.Retiring? && d.pc.left == left
    ensures Run(d, Writes(left)).disk == Disk(Some(d.pc.stored), None, None) && Run(d, Writes(left)).pc.Idle?
    decreases left
  {
    StepKeeps(d, Continue);
    RunCons(d, Continue, Writes(left - 1));
    assert [Continue] + Writes(left - 1) == Writes(left);
    if left > 1 {
      RetirementEnds(Step(d, Continue), left - 1);
    } else {
      assert Writes(0) == [];
    }
  }

  /** Wherever the device crashed, as long as the pending slot still holds keys, booting and retiring
   *  ends with the announced new keys in the main slot and no migration left. */
  lemma RetireAgainCompletes(d: Device)
    requires Inv(d) && Active(d.disk.migration) && d.disk.pending.Some?
    ensures Run(d, [Crash, Boot, Init, Retire] + Writes(5)).disk == Disk(Some(d.disk.migration.value.newKey), None, None)
  {
    var d1 := Step(d, Crash);
    var d2 := Step(d1, Boot);
    var d3 := Step(d2, Init);
    var d4 := Step(d3, Retire);
    StepKeeps(d, Crash);
    StepKeeps(d1, Boot);
    StepKeeps(d2, Init);
    StepKeeps(d3, Retire);
    FourSteps(d, Crash, Boot, Init, Retire, d1, d2, d3, d4);
    RunJoin(d, [Crash, Boot, Init, Retire], Writes(5));
    RetirementEnds(d4, 5);
  }

  lemma FourSteps(d: Device, a: Event, b: Event, c: Event, e: Event, d1: Device, d2: Device, d3: Device, d4: Device)
    requires Step(d, a) == d1 && Step(d1, b) == d2 && Step(d2, c) == d3 && Step(d3, e) == d4
    ensures Run(d, [a, b, c, e]) == d4
  {
    assert [a] + [b, c, e] == [a, b, c, e] && [b] + [c, e] == [b, c, e] && [c] + [e] == [c, e];
    RunCons(d, a, [b, c, e]);
    RunCons(d1, b, [c, e]);
    RunCons(d2, c, [e]);
    RunOne(d3, e);
  }

  // ---------------------------------------------------------------------------------------------
  // An undisturbed migration
  // ---------------------------------------------------------------------------------------------

  /** The contacts that acknowledged this migration's keys. */
  function Acknowledgers(oldKey: KeyPair, newKey: KeyPair, acks: seq<Ack>): set<Contact> {
    set i | 0 <= i < |acks| && acks[i].oldKey == oldKey && acks[i].newKey == newKey :: acks[i].from
  }

  function AckEvents(acks: seq<Ack>): seq<Event> { seq(|acks|, i requires 0 <= i < |acks| => Acknowledge(acks[i])) }

  /** Memory and store hold the migration with its progress. */
  predicate HasMigration(d: Device, m: Migration) { d.pc.Idle? && d.mem.state == Some(m) && d.disk.migration == Some(m) }

  /** Of any acknowledgements, in any order and repeated, exactly the senders that name both keys are recorded. */
  lemma {:induction false} AcksAreCounted(d: Device, m: Migration, acks: seq<Ack>)
    requires HasMigration(d, m)
    ensures var r := Run(d, AckEvents(acks));
            HasMigration(r, m.(acknowledged := m.acknowledged + Acknowledgers(m.oldKey, m.newKey, acks))) &&
            r.disk.main == d.disk.main && r.disk.pending == d.disk.pending && r.mem.identity == d.mem.identity && r.minted == d.minted
    decreases |acks|
  {
    if acks == [] {
      assert m.acknowledged + Acknowledgers(m.oldKey, m.newKey, acks) == m.acknowledged;
    } else {
      var d' := Step(d, Acknowledge(acks[0]));
      var m' := d'.mem.state.value;
      assert AckEvents(acks) == [Acknowledge(acks[0])] + AckEvents(acks[1..]);
      RunCons(d, Acknowledge(acks[0]), AckEvents(acks[1..]));
      OneAck(d, m, acks[0]);
      AcksAreCounted(d', m', acks[1..]);
      AcknowledgersCons(m.oldKey, m.newKey, acks);
      assert m'.acknowledged + Acknowledgers(m.oldKey, m.newKey, acks[1..]) == m.acknowledged + Acknowledgers(m.oldKey, m.newKey, acks);
    }
  }

  lemma OneAck(d: Device, m: Migration, a: Ack)
    requires HasMigration(d, m)
    ensures var d' := Step(d, Acknowledge(a));
            HasMigration(d', m.(acknowledged := m.acknowledged + Acknowledgers(m.oldKey, m.newKey, [a]))) &&
            d'.disk.main == d.disk.main && d'.disk.pending == d.disk.pending && d'.mem.identity == d.mem.identity && d'.minted == d.minted
  {
    var xs := Acknowledgers(m.oldKey, m.newKey, [a]);
    assert xs == if a.oldKey == m.oldKey && a.newKey == m.newKey then {a.from} else {} by {
      if a.oldKey == m.oldKey && a.newKey == m.newKey { assert [a][0] == a && a.from in xs; }
    }
    if !Counts(d.mem.state, a) { assert m.acknowledged + xs == m.acknowledged; }
  }

  lemma AcknowledgersCons(oldKey: KeyPair, newKey: KeyPair, acks: seq<Ack>)
    requires acks != []
    ensures Acknowledgers(oldKey, newKey, acks) ==
            Acknowledgers(oldKey, newKey, [acks[0]]) + Acknowledgers(oldKey, newKey, acks[1..])
  {
    var all, one, rest := Acknowledgers(oldKey, newKey, acks), Acknowledgers(oldKey, newKey, [acks[0]]), Acknowledgers(oldKey, newKey, acks[1..]);
    forall c | c in all ensures c in one + rest {
      var i :| 0 <= i < |acks| && acks[i].oldKey == oldKey && acks[i].newKey == newKey && acks[i].from == c;
      if i == 0 { assert [acks[0]][0] == acks[i]; } else { assert acks[1..][i - 1] == acks[i]; }
    }
    forall c | c in one + rest ensures c in all {
      if c in rest {
        var i :| 0 <= i < |acks| - 1 && acks[1..][i].oldKey == oldKey && acks[1..][i].newKey == newKey && acks[1..][i].from == c;
        assert acks[i + 1] == acks[1..][i];
      } else {
        assert [acks[0]][0] == acks[0];
      }
    }
  }

  lemma StartsMigration(d: Device)
    requires d.pc.Idle? && !Active(d.mem.state)
    ensures var r := Run(d, [StartMigration, Continue, MarkNotified]);
            HasMigration(r, Migration(DualValidity, d.mem.identity, d.minted, None, {})) && r.disk.main == d.disk.main &&
            r.disk.pending == Some(d.minted) && r.mem.identity == d.mem.identity && r.mem.newIdentity == Some(d.minted)
  {
    var d1 := Step(d, StartMigration);
    var d2 := Step(d1, Continue);
    RunCons(d, StartMigration, [Continue, MarkNotified]);
    RunCons(d1, Continue, [MarkNotified]);
    RunOne(d2, MarkNotified);
    assert [StartMigration] + [Continue, MarkNotified] == [StartMigration, Continue, MarkNotified];
    assert [Continue] + [MarkNotified] == [Continue, MarkNotified];
  }

  /** A migration from start to end: new keys are made and announced as replacing the present ones; both are valid
   *  while acknowledgements come in, which are recorded exactly; retiring makes the new keys the main ones and
   *  clears the rest; and the next start of the device uses them. */
  lemma MigrationCompletes(d: Device, acks: seq<Ack>)
    requires Inv(d) && d.pc.Idle? && !Active(d.mem.state)
    ensures var dual := Run(d, [StartMigration, Continue, MarkNotified] + AckEvents(acks));
            HasMigration(dual, Migration(DualValidity, d.mem.identity, d.minted, None, Acknowledgers(d.mem.identity, d.minted, acks))) &&
            dual.mem.identity == d.mem.identity &&
            var retired := Run(dual, [Retire] + Writes(5));
            retired.disk == Disk(Some(d.minted), None, None) &&
            var next := Run(retired, [Crash, Boot, Init]);
            next.pc.Idle? && next.mem == Memory(d.minted, None, None) && next.disk == retired.disk
  {
    var start := [StartMigration, Continue, MarkNotified];
    var u := Run(d, start);
    var m := Migration(DualValidity, d.mem.identity, d.minted, None, {});
    StartsMigration(d);
    NewKeysAreKept(d, start);
    RunJoin(d, start, AckEvents(acks));
    AcksAreCounted(u, m, acks);
    var dual := Run(u, AckEvents(acks));
    NewKeysAreKept(u, AckEvents(acks));
    assert {} + Acknowledgers(m.oldKey, m.newKey, acks) == Acknowledgers(m.oldKey, m.newKey, acks);
    RetirePromotes(dual);
    StepKeeps(dual, Retire);
    RunCons(dual, Retire, Writes(5));
    RetirementEnds(Step(dual, Retire), 5);
    Restarts(Run(dual, [Retire] + Writes(5)));
  }

  /** A restart during a migration finds its new keys again: in the pending slot, or embedded in a state from before
   *  that slot existed; then they are moved there, and the state keeps no keys. */
  lemma RestartFindsKeys(d: Device)
    requires d.disk.main.Some? && Active(d.disk.migration)
    requires d.disk.pending.Some? || d.disk.migration.value.legacy.Some?
    ensures var m := d.disk.migration.value;
            var moves := d.disk.pending.None?;
            var r := Run(d, [Crash, Boot, Init] + if moves then [Continue] else []);
            HasMigration(r, if moves then m.(legacy := None) else m) && r.disk.main == d.disk.main &&
            r.disk.pending == (if moves then m.legacy else d.disk.pending) &&
            r.mem.identity == d.disk.main.value && r.mem.newIdentity == r.disk.pending
  {
    var d1 := Step(d, Crash);
    var d2 := Step(d1, Boot);
    var d3 := Step(d2, Init);
    var last := if d.disk.pending.None? then [Continue] else [];
    RunCons(d, Crash, [Boot, Init] + last);
    RunCons(d1, Boot, [Init] + last);
    RunCons(d2, Init, last);
    assert [Crash] + ([Boot, Init] + last) == [Crash, Boot, Init] + last && [Boot] + ([Init] + last) == [Boot, Init] + last;
    if d.disk.pending.None? { RunOne(d3, Continue); }
  }

  /** A restart without a migration. */
  lemma Restarts(d: Device)
    requires d.disk.main.Some? && d.disk.migration.None?
    ensures var next := Run(d, [Crash, Boot, Init]);
            next.pc.Idle? && next.mem == Memory(d.disk.main.value, None, None) && next.disk == d.disk
  {
    var d1 := Step(d, Crash);
    var d2 := Step(d1, Boot);
    RunCons(d, Crash, [Boot, Init]);
    RunCons(d1, Boot, [Init]);
    RunOne(d2, Init);
    assert [Crash] + [Boot, Init] == [Crash, Boot, Init] && [Boot] + [Init] == [Boot, Init];
  }

  // ---------------------------------------------------------------------------------------------
  // What the protocol does not give
  // ---------------------------------------------------------------------------------------------

  /** The store says a migration is in progress, but its new keys are already the main ones. */
  predicate Stuck(d: Device) {
    Active(d.disk.migration) && d.disk.pending.None? && d.disk.migration.value.legacy.None? && d.disk.main.Some? &&
    (d.pc.Off? || d.pc.Booting? || (d.pc.Idle? && d.mem.state == d.disk.migration))
  }

  /** A crash after the pending slot is cleared and before the completed state is saved leaves a migration
   *  that no sequence of the manager's own operations, restarts included, ever ends: retire does nothing and
   *  a new migration is refused. The keys themselves are safe: the main slot keeps the new ones. */
  lemma {:induction false} StuckForever(d: Device, es: seq<Event>)
    requires Stuck(d)
    ensures Stuck(Run(d, es)) && Run(d, es).disk.main == d.disk.main
    decreases |es|
  {
    if es == [] {
    } else {
      StuckForever(Step(d, es[0]), es[1..]);
    }
  }

  /** That crash, exactly: of all points of an active migration's retirement, only there. */
  lemma CrashSticksIff(d: Device)
    requires Inv(d) && d.pc.Retiring? && Active(d.disk.migration)
    ensures Stuck(Step(d, Crash)) <==> d.pc.left == 2 && d.disk.migration.value.legacy.None?
  {
  }

  /** Retiring at rest promotes the keys the migration announced, if it is still active; with a completed
   *  state it promotes whatever an interrupted start left in the pending slot. */
  lemma RetirePromotes(d: Device)
    requires Inv(d) && d.pc.Idle? && d.mem.state.Some? && d.disk.pending.Some?
    ensures Run(d, [Retire] + Writes(5)).disk.main == d.disk.pending
    ensures Active(d.mem.state) ==> d.disk.pending == Some(d.mem.state.value.newKey)
  {
    StepKeeps(d, Retire);
    RunCons(d, Retire, Writes(5));
    RetirementEnds(Step(d, Retire), 5);
  }

  /** The exact condition: retiring at rest makes the announced keys the main ones if and only if the
   *  migration in memory is still active. */
  lemma RetirePromotesAnnouncedIff(d: Device)
    requires Inv(d) && d.pc.Idle? && d.mem.state.Some? && d.disk.pending.Some?
    ensures Run(d, [Retire] + Writes(5)).disk.main == Some(d.mem.state.value.newKey) <==> Active(d.mem.state)
  {
    RetirePromotes(d);
  }

  /** The first migration, from key pair 1 to key pair 2. */
  function FirstMigration(phase: Phase): Option<Migration> { Some(Migration(phase, 1, 2, None, {})) }

  /** A migration under way. */
  const UNDERWAY: Device :=
    Device(Disk(Some(1), Some(2), FirstMigration(Notifying)), Memory(1, FirstMigration(Notifying), Some(2)), Idle, 3)

  /** Rebooted after the completed state was saved, but not cleared. */
  const COMPLETED: Device :=
    Device(Disk(Some(2), None, FirstMigration(Complete)), Memory(2, FirstMigration(Complete), None), Idle, 3)

  lemma FirstStarts()
    ensures Run(FACTORY, [Boot, Init, StartMigration, Continue]) == UNDERWAY
  {
    var d1 := Step(FACTORY, Boot);
    var d2 := Step(d1, Init);
    FourSteps(FACTORY, Boot, Init, StartMigration, Continue, d1, d2, Step(d2, StartMigration), UNDERWAY);
  }

  lemma RetirementIsInterrupted()
    ensures Run(UNDERWAY, [Retire, Continue, Continue, Continue] + [Continue, Crash, Boot, Init]) == COMPLETED
  {
    var b1 := Step(UNDERWAY, Retire);
    var b2 := Step(b1, Continue);
    var b3 := Step(b2, Continue);
    var b4 := Step(b3, Continue);
    FourSteps(UNDERWAY, Retire, Continue, Continue, Continue, b1, b2, b3, b4);
    var c1 := Step(b4, Continue);
    var c2 := Step(c1, Crash);
    FourSteps(b4, Continue, Crash, Boot, Init, c1, c2, Step(c2, Boot), COMPLETED);
    RunJoin(UNDERWAY, [Retire, Continue, Continue, Continue], [Continue, Crash, Boot, Init]);
  }

  lemma StartIsInterrupted() returns (d: Device)
    ensures d == Run(COMPLETED, [StartMigration, Crash, Boot, Init])
    ensures d.pc.Idle? && d.mem.state == FirstMigration(Complete) && d.disk.pending == Some(3)
  {
    var e1 := Step(COMPLETED, StartMigration);
    var e2 := Step(e1, Crash);
    var e3 := Step(e2, Boot);
    d := Step(e3, Init);
    FourSteps(COMPLETED, StartMigration, Crash, Boot, Init, e1, e2, e3, d);
  }

  /** Such a device exists: a retirement interrupted before its last write, then a start interrupted after
   *  its first, leave keys no contact was told about, which retire makes the main ones. */
  lemma UnannouncedKeysCanBePromoted() returns (es: seq<Event>, d: Device)
    ensures d == Run(FACTORY, es) && Inv(d) && d.pc.Idle? && d.mem.state.Some? && !Active(d.mem.state)
    ensures d.disk.pending.Some? && d.disk.pending != Some(d.mem.state.value.newKey)
    ensures Run(d, [Retire] + Writes(5)).disk.main == d.disk.pending
  {
    var a, b, c := [Boot, Init, StartMigration, Continue], [Retire, Continue, Continue, Continue] + [Continue, Crash, Boot, Init],
                   [StartMigration, Crash, Boot, Init];
    FirstStarts();
    RetirementIsInterrupted();
    d := StartIsInterrupted();
    RunJoin(FACTORY, a, b);
    RunJoin(FACTORY, a + b, c);
    es := a + b + c;
    NewKeysAreKept(FACTORY, es);
    RetirePromotes(d);
  }

  // ---------------------------------------------------------------------------------------------
  // Restoring a backup over the three slots
  // ---------------------------------------------------------------------------------------------

  /** The parts of a backup that concern the slots; the identity is None when it is not to be imported. */
  datatype Backup = Backup(migration: Option<Migration>, identity: Option<KeyPair>)

  /** The writes of restoreBackup. The pending slot is not among them, and the manager's memory changes only
   *  with the next restart. */
  function Restored(d: Disk, b: Backup, replace: bool): Disk {
    Disk(if b.identity.Some? then b.identity else d.main, d.pending,
         if b.migration.Some? then b.migration else if replace then None else d.migration)
  }

  function Restore(d: Device, b: Backup, replace: bool): Device { d.(disk := Restored(d.disk, b, replace)) }

  /** What ends the stuck state: a restore that brings no migration and replaces, or brings one that is
   *  complete or carries its keys. Any other leaves the device stuck. */
  lemma RestoreEndsStuckIff(d: Device, b: Backup, replace: bool)
    requires Stuck(d)
    ensures Stuck(Step(Restore(d, b, replace), Crash)) <==>
            if b.migration.Some? then Active(b.migration) && b.migration.value.legacy.None? else !replace
  {
  }

  /** A migration in flight, as exportBackup writes it: its new keys are embedded. */
  predicate InFlight(b: Backup) {
    Active(b.migration) && b.migration.value.legacy == Some(b.migration.value.newKey)
  }

  /** A restored migration gets its keys back at the next start exactly when the pending slot, which no restore
   *  clears, is empty or happens to hold them; otherwise the leftover keys are taken for them. */
  lemma RestoredMigrationIsPickedUpIff(d: Device, b: Backup, replace: bool)
    requires InFlight(b)
    ensures var v := Step(Step(Step(Restore(d, b, replace), Crash), Boot), Init);
            v.mem.state == b.migration &&
            (v.mem.newIdentity == Some(b.migration.value.newKey) <==>
             d.disk.pending.None? || d.disk.pending == Some(b.migration.value.newKey)) &&
            (v.mem.newIdentity == Some(b.migration.value.newKey) <==> Held(Restored(d.disk, b, replace)))
  {
  }

  /** Importing another identity, without a migration, over a migration in flight keeps its new keys exactly
   *  when they are not in the main slot alone. */
  lemma ImportKeepsKeysIff(d: Disk, identity: KeyPair)
    requires Held(d) && Active(d.migration)
    ensures Held(Restored(d, Backup(None, Some(identity)), false)) <==>
            d.pending.Some? || d.migration.value.legacy.Some? || identity == d.migration.value.newKey
  {
  }

  // ---------------------------------------------------------------------------------------------
  // The object
  // ---------------------------------------------------------------------------------------------

  /** The manager, its three slots and the identity loaded at startup. Each method runs to its next store
   *  write; the caller resumes it with the method named after it. */
  class MigrationManager {
    var keySlot: Option<KeyPair>
    var pendingKeySlot: Option<KeyPair>
    var migrationSlot: Option<Migration>
    var identity: KeyPair
    var state: Option<Migration>
    var newIdentity: Option<KeyPair>
    ghost var pc: Pc
    var minted: KeyPair

    ghost function View(): Device
      reads this
    {
      Device(Disk(keySlot, pendingKeySlot, migrationSlot), Memory(identity, state, newIdentity), pc, minted)
    }

    constructor ()
      ensures View() == FACTORY
    {
      keySlot, pendingKeySlot, migrationSlot, identity, state, newIdentity, pc, minted := None, None, None, 0, None, None, Off, 1;
    }

    method LoadOrCreate() returns (created: bool)
      requires pc.Off?
      modifies this
      ensures View() == Step(old(View()), Boot) && created == old(keySlot).None?
    {
      state, newIdentity := None, None;
      created := keySlot == None;
      if created {
        keySlot := Some(minted);
        minted := minted + 1;
      }
      identity := keySlot.value;
      pc := Booting;
    }

    method InitManager() returns (legacyToStrip: bool)
      requires pc.Booting?
      modifies this
      ensures View() == Step(old(View()), Init) && legacyToStrip == pc.StrippingLegacy?
    {
      legacyToStrip := false;
      state := migrationSlot;
      pc := Idle;
      if state == None || state.value.phase == Complete { return; }
      if pendingKeySlot.Some? {
        newIdentity := pendingKeySlot;
        return;
      }
      var legacy := state.value.legacy;
      if legacy.Some? {
        pendingKeySlot, newIdentity := legacy, legacy;
        pc := StrippingLegacy;
        legacyToStrip := true;
      }
    }

    method InitStrip()
      requires pc.StrippingLegacy? && state.Some?
      modifies this
      ensures View() == Step(old(View()), Continue)
    {
      state := Some(state.value.(legacy := None));
      migrationSlot := state;
      pc := Idle;
    }

    method Start() returns (newKey: Option<KeyPair>)
      requires pc.Idle?
      modifies this
      ensures View() == Step(old(View()), StartMigration)
      ensures newKey == if Active(old(state)) then None else Some(old(minted))
    {
      if state.Some? && state.value.phase != Complete { return None; }
      newKey := Some(minted);
      pendingKeySlot := newKey;
      pc := Starting(minted);
      minted := minted + 1;
    }

    method StartSave(newKey: KeyPair)
      requires pc == Starting(newKey)
      modifies this
      ensures View() == Step(old(View()), Continue)
    {
      newIdentity := Some(newKey);
      state := Some(Migration(Notifying, identity, newKey, None, {}));
      migrationSlot := state;
      pc := Idle;
    }

    method Notified()
      requires pc.Idle?
      modifies this
      ensures View() == Step(old(View()), MarkNotified)
    {
      if state == None || state.value.phase != Notifying { return; }
      state := Some(state.value.(phase := DualValidity));
      migrationSlot := state;
    }

    /** handleMigrationAck, after the acknowledgement has been verified for its sender. */
    method HandleAck(a: Ack) returns (accepted: bool)
      requires pc.Idle?
      modifies this
      ensures View() == Step(old(View()), Acknowledge(a))
      ensures accepted <==> old(state).Some? && a.oldKey == old(state).value.oldKey && a.newKey == old(state).value.newKey
    {
      if state == None { return false; }
      if a.oldKey != state.value.oldKey || a.newKey != state.value.newKey { return false; }
      if a.from !in state.value.acknowledged {
        state := Some(state.value.(acknowledged := state.value.acknowledged + {a.from}));
        migrationSlot := state;
      }
      accepted := true;
    }

    method RetireLoad() returns (stored: Option<KeyPair>)
      requires pc.Idle?
      modifies this`pc
      ensures View() == Step(old(View()), Retire)
      ensures stored == if state.None? then None else pendingKeySlot
    {
      if state == None { return None; }
      stored := pendingKeySlot;
      if stored == None { return; }
      pc := Retiring(stored.value, 5);
    }

    /** The five writes of retire, in order. */
    method RetireWrite(stored: KeyPair, left: nat)
      requires pc == Retiring(stored, left) && state.Some? && 1 <= left <= 5
      modifies this
      ensures View() == Step(old(View()), Continue)
    {
      match left {
        case 5 => keySlot := None;
        case 4 => keySlot := Some(stored);
        case 3 => pendingKeySlot := None;
        case 2 =>
          state := Some(state.value.(phase := Complete));
          migrationSlot := state;
        case _ => migrationSlot := None;
      }
      pc := if left > 1 then Retiring(stored, left - 1) else Idle;
    }
  }
}
