/** The retry scheduler for the durable pending queue (delivery-worker.ts, pending-queue.ts).
 *
 * Everything between two `await`s of the original is one atomic step.  A suspended call is recorded
 * with the await it is parked at; a store operation takes effect in a step of its own, at any moment
 * between the call and the resumption of the caller.
 */
module DeliveryWorker {
  import opened Common

  type Id = string
  type Handle = nat
  type Call = nat

  /** A row of the pending queue. */
  datatype Message = Message(
    id: Id, recipient: string, transportKey: string, text: string, timestamp: int,
    attempts: nat, lastAttempt: Option<int>)

  /** The awaits inside the `attempt` callback (OrpalClient.attemptDelivery). */
  datatype Point = Connecting | MarkingSending | Sending | MarkingDelivered

  /** Where a call is parked.  `XGet`, `XList`, `XWrite`, ... wait for the store; `XGot`, `XListed` hold
   *  the store's answer. */
  datatype Await =
    | StartList
    | StartListed(rows: seq<Message>)
    | EnqueueWrite(msg: Message)
    | EnqueueMetrics(id: Id)
    | FlushList(only: Option<string>)
    | FlushListed(only: Option<string>, rows: seq<Message>)
    | RunGet(id: Id)
    | RunGot(id: Id, row: Option<Message>)
    | Attempting(id: Id, msg: Message, point: Point)
    | AfterGet(id: Id)
    | AfterGot(id: Id, row: Option<Message>)
    | AfterUpdate(id: Id, attempts: nat, now: int)
    | AfterMetrics(id: Id)
    | AckGet(id: Id)
    | AckGot(id: Id, row: Option<Message>)
    | AckRemove(id: Id)

  /** The worker's fields, the host's armed timers and suspended calls, and the durable rows. */
  datatype Worker = Worker(
    running: bool,
    timers: map<Id, Handle>,
    inflight: set<Id>,
    armed: map<Handle, Id>,
    nextHandle: Handle,
    calls: map<Call, Await>,
    nextCall: Call,
    rows: map<Id, Message>)

  datatype Event =
    | Start
    | Stop
    | Enqueue(msg: Message)
    | Flush(only: Option<string>)
    | Acknowledge(id: Id)
    | TimerFires(handle: Handle)
    | StoreRuns(call: Call, listing: seq<Message>)
    | AttemptMoves(call: Call)
    | Resumes(call: Call, now: int)

  // ---------------------------------------------------------------------------------------------
  // Steps
  // ---------------------------------------------------------------------------------------------

  function Spawn(w: Worker, a: Await): Worker {
    w.(calls := w.calls[w.nextCall := a], nextCall := w.nextCall + 1)
  }

  function Park(w: Worker, c: Call, a: Await): Worker {
    w.(calls := w.calls[c := a])
  }

  function Finish(w: Worker, c: Call): Worker {
    w.(calls := w.calls - {c})
  }

  function Cancelled(w: Worker, id: Id): Worker {
    if id in w.timers then
      w.(timers := w.timers - {id}, armed := w.armed - {w.timers[id]})
    else w
  }

  /** scheduleSoon and the unguarded part of scheduleBackoff; the delay itself is left to the host. */
  function Arm(w: Worker, id: Id): Worker {
    var c := Cancelled(w, id);
    c.(timers := c.timers[id := c.nextHandle],
       armed := c.armed[c.nextHandle := id],
       nextHandle := c.nextHandle + 1)
  }

  function ArmAll(w: Worker, rows: seq<Message>): Worker
    decreases |rows|
  {
    if rows == [] then w else ArmAll(Arm(w, rows[0].id), rows[1..])
  }

  /** runAttempt up to its first await. */
  function TryAttempt(w: Worker, id: Id): Worker {
    if !w.running || id in w.inflight then w else Spawn(w, RunGet(id))
  }

  function RunAll(w: Worker, only: Option<string>, rows: seq<Message>): Worker
    decreases |rows|
  {
    if rows == [] then w
    else
      var first := if only.None? || rows[0].recipient == only.value then TryAttempt(w, rows[0].id) else w;
      RunAll(first, only, rows[1..])
  }

  /** `listing` is what store.list() may return: every row once, in some order. */
  ghost predicate IsListing(rows: map<Id, Message>, listing: seq<Message>) {
    && (forall id :: id in rows ==> rows[id] in listing)
    && (forall m :: m in listing ==> m.id in rows && rows[m.id] == m)
    && (forall i, j :: 0 <= i < j < |listing| ==> listing[i] != listing[j])
  }

  function Recorded(rows: map<Id, Message>, id: Id, attempts: nat, now: int): map<Id, Message> {
    if id in rows then rows[id := rows[id].(attempts := attempts, lastAttempt := Some(now))] else rows
  }

  /** What a call waiting at `a` gets from the store. */
  function Answer(rows: map<Id, Message>, a: Await, listing: seq<Message>): Await {
    match a
    case StartList => StartListed(listing)
    case FlushList(only) => FlushListed(only, listing)
    case EnqueueWrite(m) => EnqueueMetrics(m.id)
    case RunGet(id) => RunGot(id, Lookup(rows, id))
    case AfterGet(id) => AfterGot(id, Lookup(rows, id))
    case AfterUpdate(id, _, _) => AfterMetrics(id)
    case AckGet(id) => AckGot(id, Lookup(rows, id))
    case _ => a
  }

  /** The rows once the store has done what `a` waits for. */
  function RowsAfter(rows: map<Id, Message>, a: Await): map<Id, Message> {
    match a
    case EnqueueWrite(m) => rows[m.id := m]
    case AfterUpdate(id, n, now) => Recorded(rows, id, n, now)
    case AckRemove(id) => rows - {id}
    case _ => rows
  }

  /** The store carries out the operation that call `c` waits for; nothing follows a removal.
   *  The read made for the metrics callback changes nothing and is not a step. */
  function StoreStep(w: Worker, c: Call, listing: seq<Message>): Worker
    requires c in w.calls
  {
    var v := w.(rows := RowsAfter(w.rows, w.calls[c]));
    if w.calls[c].AckRemove? then Finish(v, c) else Park(v, c, Answer(w.rows, w.calls[c], listing))
  }

  /** Call `c` runs on to its next await. */
  function ResumeStep(w: Worker, c: Call, now: int): Worker
    requires c in w.calls
  {
    match w.calls[c]
    case StartListed(rows) => ArmAll(Finish(w, c), rows)
    case EnqueueMetrics(id) => TryAttempt(Finish(w, c), id)
    case FlushListed(only, rows) => RunAll(Finish(w, c), only, rows)
    case RunGot(id, row) =>
      if row.None? then Finish(w, c)
      else
        var q := Cancelled(w, id);
        Park(q.(inflight := q.inflight + {id}), c, Attempting(id, row.value, Connecting))
    case Attempting(id, _, _) => Park(w.(inflight := w.inflight - {id}), c, AfterGet(id))
    case AfterGot(id, row) =>
      if row.None? then Finish(w, c) else Park(w, c, AfterUpdate(id, row.value.attempts + 1, now))
    case AfterMetrics(id) => if w.running then Arm(Finish(w, c), id) else Finish(w, c)
    case AckGot(id, row) =>
      if row.None? then Finish(w, c) else Park(Cancelled(w, id), c, AckRemove(id))
    case _ => w
  }

  function NextPoint(p: Point): Point {
    match p
    case Connecting => MarkingSending
    case MarkingSending => Sending
    case _ => MarkingDelivered
  }

  /** Call `c` is in the `attempt` callback and not yet at its last await. */
  predicate CanMove(w: Worker, c: Call) {
    c in w.calls && w.calls[c].Attempting? && w.calls[c].point != MarkingDelivered
  }

  function MoveStep(w: Worker, c: Call): Worker
    requires CanMove(w, c)
  {
    Park(w, c, w.calls[c].(point := NextPoint(w.calls[c].point)))
  }

  function Fire(w: Worker, h: Handle): Worker
    requires h in w.armed
  {
    TryAttempt(w.(armed := w.armed - {h}, timers := w.timers - {w.armed[h]}), w.armed[h])
  }

  function StopStep(w: Worker): Worker {
    w.(running := false, timers := map[], armed := w.armed - w.timers.Values)
  }

  /** One event; an event that is not enabled changes nothing. */
  ghost function Step(w: Worker, e: Event): Worker {
    match e
    case Start => if w.running then w else Spawn(w.(running := true), StartList)
    case Stop => StopStep(w)
    case Enqueue(m) => Spawn(w, EnqueueWrite(m))
    case Flush(only) => if w.running then Spawn(w, FlushList(only)) else w
    case Acknowledge(id) => Spawn(w, AckGet(id))
    case TimerFires(h) => if h in w.armed then Fire(w, h) else w
    case StoreRuns(c, listing) =>
      if c in w.calls && IsListing(w.rows, listing) then StoreStep(w, c, listing) else w
    case AttemptMoves(c) => if CanMove(w, c) then MoveStep(w, c) else w
    case Resumes(c, now) => if c in w.calls then ResumeStep(w, c, now) else w
  }

  ghost function Run(w: Worker, es: seq<Event>): Worker
    decreases |es|
  {
    if es == [] then w else Run(Step(w, es[0]), es[1..])
  }

  /** The store's contract: rows are keyed by their message id. */
  ghost predicate RowsKeyed(w: Worker) {
    forall id :: id in w.rows ==> w.rows[id].id == id
  }

  /** A worker just constructed over whatever an earlier session left in the queue. */
  ghost predicate Fresh(w: Worker) {
    && !w.running && w.timers == map[] && w.armed == map[] && w.inflight == {} && w.calls == map[]
    && RowsKeyed(w)
  }

  // ---------------------------------------------------------------------------------------------
  // No message is ever stranded
  // ---------------------------------------------------------------------------------------------

  /** The timer table and the host's armed timers are one and the same one-to-one relation. */
  ghost predicate TimersMatch(w: Worker) {
    && (forall id :: id in w.timers ==> w.timers[id] in w.armed && w.armed[w.timers[id]] == id)
    && (forall h :: h in w.armed ==> h < w.nextHandle && w.armed[h] in w.timers && w.timers[w.armed[h]] == h)
  }

  ghost predicate CallsBounded(w: Worker) {
    forall c :: c in w.calls ==> c < w.nextCall
  }

  /** Will a call parked at `a` arm a timer for `id`, attempt it, or remove it? */
  predicate Covers(a: Await, id: Id) {
    match a
    case StartList => true
    case StartListed(rows) => exists m :: m in rows && m.id == id
    case EnqueueMetrics(i) => i == id
    case RunGet(i) => i == id
    case RunGot(i, row) => i == id && row.Some?
    case Attempting(i, _, _) => i == id
    case AfterGet(i) => i == id
    case AfterGot(i, row) => i == id && row.Some?
    case AfterUpdate(i, _, _) => i == id
    case AfterMetrics(i) => i == id
    case AckRemove(i) => i == id
    case _ => false
  }

  ghost predicate Covered(w: Worker, id: Id) {
    id in w.timers || exists c :: c in w.calls && Covers(w.calls[c], id)
  }

  ghost predicate NoneStranded(w: Worker) {
    w.running ==> forall id :: id in w.rows ==> Covered(w, id)
  }

  ghost predicate Attempts(w: Worker, id: Id) {
    exists c :: c in w.calls && w.calls[c].Attempting? && w.calls[c].id == id
  }

  ghost predicate InFlightBacked(w: Worker) {
    forall id :: id in w.inflight ==> Attempts(w, id)
  }

  ghost predicate Inv(w: Worker) {
    TimersMatch(w) && CallsBounded(w) && RowsKeyed(w) && InFlightBacked(w) && NoneStranded(w)
  }

  /** Everything of the invariant but the cover. */
  ghost predicate Tables(w: Worker) {
    TimersMatch(w) && CallsBounded(w) && InFlightBacked(w)
  }

  /** Nothing that covered an id is lost between w and w'. */
  ghost predicate Keeps(w: Worker, w': Worker) {
    && w'.running == w.running && w'.rows == w.rows
    && forall id :: Covered(w, id) ==> Covered(w', id)
  }

  lemma SpawnKeeps(w: Worker, a: Await)
    requires Tables(w)
    ensures Tables(Spawn(w, a)) && Keeps(w, Spawn(w, a))
    ensures forall id :: Covers(a, id) ==> Covered(Spawn(w, a), id)
  {
    var s := Spawn(w, a);
    assert s.calls[w.nextCall] == a;
    assert forall c :: c in w.calls ==> c in s.calls && s.calls[c] == w.calls[c];
  }

  lemma ArmKeeps(w: Worker, id: Id)
    requires Tables(w)
    ensures Tables(Arm(w, id)) && Keeps(w, Arm(w, id)) && Covered(Arm(w, id), id)
  {
    var a := Arm(w, id);
    assert forall i :: Attempts(w, i) ==> Attempts(a, i);
  }

  lemma {:induction false} ArmAllKeeps(w: Worker, rows: seq<Message>)
    requires Tables(w)
    ensures Tables(ArmAll(w, rows)) && Keeps(w, ArmAll(w, rows))
    ensures forall m :: m in rows ==> Covered(ArmAll(w, rows), m.id)
    decreases |rows|
  {
    if rows == [] {
    } else {
      var a := Arm(w, rows[0].id);
      ArmKeeps(w, rows[0].id);
      ArmAllKeeps(a, rows[1..]);
      assert Covered(ArmAll(a, rows[1..]), rows[0].id);
    }
  }

  lemma TryAttemptKeeps(w: Worker, id: Id)
    requires Tables(w)
    ensures Tables(TryAttempt(w, id)) && Keeps(w, TryAttempt(w, id))
    ensures w.running ==> Covered(TryAttempt(w, id), id)
  {
    if w.running && id in w.inflight {
      assert Attempts(w, id);
    } else {
      SpawnKeeps(w, RunGet(id));
    }
  }

  lemma {:induction false} RunAllKeeps(w: Worker, only: Option<string>, rows: seq<Message>)
    requires Tables(w)
    ensures Tables(RunAll(w, only, rows)) && Keeps(w, RunAll(w, only, rows))
    decreases |rows|
  {
    if rows == [] {
    } else {
      TryAttemptKeeps(w, rows[0].id);
      RunAllKeeps(if only.None? || rows[0].recipient == only.value then TryAttempt(w, rows[0].id) else w,
                  only, rows[1..]);
    }
  }

  /** A call outside the attempt callback that ends takes only its own cover away. */
  lemma FinishKeeps(w: Worker, c: Call)
    requires Tables(w) && c in w.calls && !w.calls[c].Attempting?
    ensures Tables(Finish(w, c))
    ensures forall id :: Covered(w, id) && !Covers(w.calls[c], id) ==> Covered(Finish(w, c), id)
  {
    var f := Finish(w, c);
    assert forall d :: d in w.calls && d != c ==> d in f.calls && f.calls[d] == w.calls[d];
    assert forall id :: Attempts(w, id) ==> Attempts(f, id);
  }

  /** A call that moves on to `a` covers what `a` covers, and takes only its own former cover away. */
  lemma ParkKeeps(w: Worker, c: Call, a: Await)
    requires TimersMatch(w) && CallsBounded(w) && c in w.calls
    ensures TimersMatch(Park(w, c, a)) && CallsBounded(Park(w, c, a))
    ensures forall id :: Covered(w, id) && !Covers(w.calls[c], id) ==> Covered(Park(w, c, a), id)
    ensures forall id :: Covers(a, id) ==> Covered(Park(w, c, a), id)
    ensures forall id :: Attempts(w, id) && !(w.calls[c].Attempting? && w.calls[c].id == id)
              ==> Attempts(Park(w, c, a), id)
    ensures a.Attempting? ==> Attempts(Park(w, c, a), a.id)
  {
    var p := Park(w, c, a);
    assert p.calls[c] == a;
    assert forall d :: d in w.calls && d != c ==> d in p.calls && p.calls[d] == w.calls[d];
  }

  lemma CancelKeeps(w: Worker, id: Id)
    requires Tables(w)
    ensures Tables(Cancelled(w, id))
    ensures forall i :: i != id && Covered(w, i) ==> Covered(Cancelled(w, id), i)
  {
    assert forall i :: Attempts(w, i) ==> Attempts(Cancelled(w, id), i);
  }

  /** A store operation may change the rows; the caller moves on to `a`. */
  lemma StoreParkKeeps(w: Worker, c: Call, a: Await, rows: map<Id, Message>)
    requires Inv(w) && c in w.calls && !w.calls[c].Attempting?
    requires forall id :: id in rows ==> rows[id].id == id
    requires forall id :: id in rows && id !in w.rows ==> Covers(a, id)
    requires forall id :: id in rows && Covers(w.calls[c], id) ==> Covers(a, id)
    ensures Inv(Park(w.(rows := rows), c, a))
  {
    var v := w.(rows := rows);
    assert forall id :: Attempts(w, id) ==> Attempts(v, id);
    ParkKeeps(v, c, a);
    var p := Park(v, c, a);
    forall id | p.running && id in p.rows ensures Covered(p, id) {
      if id in w.rows && !Covers(w.calls[c], id) {
        assert Covered(w, id);
        assert Covered(v, id);
      }
    }
  }

  lemma RemoveKeeps(w: Worker, c: Call, id: Id)
    requires Inv(w) && c in w.calls && w.calls[c] == AckRemove(id)
    ensures Inv(Finish(w.(rows := w.rows - {id}), c))
  {
    FinishKeeps(w, c);
    var s := Finish(w.(rows := w.rows - {id}), c);
    forall i | s.running && i in s.rows ensures Covered(s, i) { assert Covered(w, i) && Covered(Finish(w, c), i); }
    assert forall i :: Attempts(Finish(w, c), i) ==> Attempts(s, i);
  }

  /** The answer makes the call go on with whatever it was to go on with. */
  lemma AnswerCovers(w: Worker, a: Await, listing: seq<Message>)
    requires RowsKeyed(w) && IsListing(w.rows, listing) && !a.AckRemove?
    ensures var rows := RowsAfter(w.rows, a);
            (forall id :: id in rows ==> rows[id].id == id) &&
            (forall id :: id in rows && id !in w.rows ==> Covers(Answer(w.rows, a, listing), id)) &&
            forall id :: id in rows && Covers(a, id) ==> Covers(Answer(w.rows, a, listing), id)
  {
    if a.StartList? {
      forall id | id in w.rows ensures Covers(StartListed(listing), id) { assert w.rows[id] in listing; }
    }
  }

  lemma StoreStepKeeps(w: Worker, c: Call, listing: seq<Message>)
    requires Inv(w) && c in w.calls && IsListing(w.rows, listing)
    ensures Inv(StoreStep(w, c, listing))
  {
    var a := w.calls[c];
    if a.AckRemove? {
      RemoveKeeps(w, c, a.id);
    } else if a.Attempting? {
      assert w.calls[c := a] == w.calls && StoreStep(w, c, listing) == w;
    } else {
      AnswerCovers(w, a, listing);
      StoreParkKeeps(w, c, Answer(w.rows, a, listing), RowsAfter(w.rows, a));
    }
  }

  /** Where only `id` can have lost its cover, call `c`, now parked at `a`, makes up for it. */
  lemma AllCovered(w: Worker, q: Worker, c: Call, a: Await, id: Id)
    requires NoneStranded(w) && q.rows == w.rows && q.running == w.running
    requires TimersMatch(q) && CallsBounded(q) && c in q.calls && Covers(a, id)
    requires forall i :: i != id && Covered(w, i) ==> Covered(q, i)
    requires forall i :: Covers(q.calls[c], i) ==> i == id
    ensures NoneStranded(Park(q, c, a))
  {
    ParkKeeps(q, c, a);
    var p := Park(q, c, a);
    forall i | p.running && i in p.rows ensures Covered(p, i) {
      if i != id { assert Covered(w, i) && Covered(q, i); }
    }
  }

  lemma BeginAttemptKeeps(w: Worker, c: Call)
    requires Inv(w) && c in w.calls && w.calls[c].RunGot? && w.calls[c].row.Some?
    ensures Inv(ResumeStep(w, c, 0))
  {
    var RunGot(id, row) := w.calls[c];
    var a := Attempting(id, row.value, Connecting);
    var q := Cancelled(w, id);
    var r := q.(inflight := q.inflight + {id});
    CancelKeeps(w, id);
    assert forall i :: Attempts(q, i) ==> Attempts(r, i);
    assert forall i :: Covered(q, i) ==> Covered(r, i);
    ParkKeeps(r, c, a);
    AllCovered(w, r, c, a, id);
  }

  lemma EndAttemptKeeps(w: Worker, c: Call)
    requires Inv(w) && c in w.calls && w.calls[c].Attempting?
    ensures Inv(ResumeStep(w, c, 0))
  {
    var id := w.calls[c].id;
    var r := w.(inflight := w.inflight - {id});
    assert forall i :: Attempts(w, i) ==> Attempts(r, i);
    assert forall i :: Covered(w, i) ==> Covered(r, i);
    ParkKeeps(r, c, AfterGet(id));
    AllCovered(w, r, c, AfterGet(id), id);
  }

  lemma AckKeeps(w: Worker, c: Call)
    requires Inv(w) && c in w.calls && w.calls[c].AckGot? && w.calls[c].row.Some?
    ensures Inv(ResumeStep(w, c, 0))
  {
    var id := w.calls[c].id;
    CancelKeeps(w, id);
    ParkKeeps(Cancelled(w, id), c, AckRemove(id));
    AllCovered(w, Cancelled(w, id), c, AckRemove(id), id);
  }

  lemma RecordKeeps(w: Worker, c: Call, now: int)
    requires Inv(w) && c in w.calls && w.calls[c].AfterGot? && w.calls[c].row.Some?
    ensures Inv(ResumeStep(w, c, now))
  {
    var a := AfterUpdate(w.calls[c].id, w.calls[c].row.value.attempts + 1, now);
    ParkKeeps(w, c, a);
    AllCovered(w, w, c, a, a.id);
  }

  /** A call that ends, leaving `s` behind, must leave covered what it covered itself. */
  lemma EndsKeeps(w: Worker, c: Call, s: Worker)
    requires Inv(w) && c in w.calls
    requires forall id :: Covered(w, id) && !Covers(w.calls[c], id) ==> Covered(Finish(w, c), id)
    requires Tables(s) && Keeps(Finish(w, c), s)
    requires w.running ==> forall id :: Covers(w.calls[c], id) ==> Covered(s, id)
    ensures Inv(s)
  {
  }

  /** The calls that end when resumed. */
  lemma LastStepKeeps(w: Worker, c: Call)
    requires Inv(w) && c in w.calls
    requires var a := w.calls[c]; a.StartListed? || a.EnqueueMetrics? || a.FlushListed? || a.AfterMetrics?
    ensures Inv(ResumeStep(w, c, 0))
  {
    var f := Finish(w, c);
    FinishKeeps(w, c);
    match w.calls[c] {
      case StartListed(rows) => ArmAllKeeps(f, rows);
      case EnqueueMetrics(id) => TryAttemptKeeps(f, id);
      case FlushListed(only, rows) => RunAllKeeps(f, only, rows);
      case AfterMetrics(id) => ArmKeeps(f, id);
    }
    EndsKeeps(w, c, ResumeStep(w, c, 0));
  }

  /** The calls that end because the row they asked for is gone. */
  lemma RowGoneKeeps(w: Worker, c: Call)
    requires Inv(w) && c in w.calls
    requires var a := w.calls[c]; (a.RunGot? || a.AfterGot? || a.AckGot?) && a.row.None?
    ensures Inv(Finish(w, c))
  {
    FinishKeeps(w, c);
    EndsKeeps(w, c, Finish(w, c));
  }

  lemma ResumeStepKeeps(w: Worker, c: Call, now: int)
    requires Inv(w) && c in w.calls
    ensures Inv(ResumeStep(w, c, now))
  {
    match w.calls[c] {
      case RunGot(id, row) => if row.Some? { BeginAttemptKeeps(w, c); } else { RowGoneKeeps(w, c); }
      case AfterGot(id, row) => if row.Some? { RecordKeeps(w, c, now); } else { RowGoneKeeps(w, c); }
      case AckGot(_, row) => if row.Some? { AckKeeps(w, c); } else { RowGoneKeeps(w, c); }
      case Attempting(_, _, _) => EndAttemptKeeps(w, c);
      case StartListed(_) => LastStepKeeps(w, c);
      case EnqueueMetrics(_) => LastStepKeeps(w, c);
      case FlushListed(_, _) => LastStepKeeps(w, c);
      case AfterMetrics(_) => LastStepKeeps(w, c);
      case _ =>
    }
  }

  lemma FireKeeps(w: Worker, h: Handle)
    requires Inv(w) && h in w.armed
    ensures Inv(Fire(w, h))
  {
    var id := w.armed[h];
    var q := w.(armed := w.armed - {h}, timers := w.timers - {id});
    assert forall i :: i != id && Covered(w, i) ==> Covered(q, i);
    assert forall i :: Attempts(w, i) ==> Attempts(q, i);
    TryAttemptKeeps(q, id);
  }

  lemma MoveKeeps(w: Worker, c: Call)
    requires Inv(w) && CanMove(w, c)
    ensures Inv(MoveStep(w, c))
  {
    var a := w.calls[c].(point := NextPoint(w.calls[c].point));
    ParkKeeps(w, c, a);
    AllCovered(w, w, c, a, a.id);
  }

  lemma SwitchKeeps(w: Worker)
    requires Inv(w)
    ensures Inv(StopStep(w)) && Tables(w.(running := true))
  {
    assert forall h :: h in w.armed ==> h in w.timers.Values;
    assert forall i :: Attempts(w, i) ==> Attempts(StopStep(w), i) && Attempts(w.(running := true), i);
  }

  lemma StepKeeps(w: Worker, e: Event)
    requires Inv(w)
    ensures Inv(Step(w, e))
  {
    match e {
      case Start => if !w.running { SwitchKeeps(w); SpawnKeeps(w.(running := true), StartList); }
      case Stop => SwitchKeeps(w);
      case Enqueue(m) => SpawnKeeps(w, EnqueueWrite(m));
      case Flush(only) => SpawnKeeps(w, FlushList(only));
      case Acknowledge(id) => SpawnKeeps(w, AckGet(id));
      case TimerFires(h) => if h in w.armed { FireKeeps(w, h); }
      case StoreRuns(c, listing) => if c in w.calls && IsListing(w.rows, listing) { StoreStepKeeps(w, c, listing); }
      case AttemptMoves(c) => if CanMove(w, c) { MoveKeeps(w, c); }
      case Resumes(c, now) => if c in w.calls { ResumeStepKeeps(w, c, now); }
    }
  }

  lemma {:induction false} RunKeeps(w: Worker, es: seq<Event>)
    requires Inv(w)
    ensures Inv(Run(w, es))
    decreases |es|
  {
    if es == [] {
    } else {
      StepKeeps(w, es[0]);
      RunKeeps(Step(w, es[0]), es[1..]);
    }
  }

  /** After any events whatever, a running worker has for every queued message an armed timer or a
   *  suspended call that will arm one, attempt the message, or remove it; and there is exactly one
   *  armed timer per timer entry. */
  lemma NeverStranded(w: Worker, es: seq<Event>)
    requires Fresh(w)
    ensures var s := Run(w, es);
            TimersMatch(s) && (s.running ==> forall id :: id in s.rows ==> Covered(s, id))
  {
    RunKeeps(w, es);
  }

  // ---------------------------------------------------------------------------------------------
  // A flush attempts exactly the messages it is for
  // ---------------------------------------------------------------------------------------------

  /** Is `m` to be flushed? */
  predicate For(m: Message, only: Option<string>) { only.None? || m.recipient == only.value }

  /** Some listed message of this id is. */
  predicate Wanted(rows: seq<Message>, only: Option<string>, id: Id) {
    exists i :: 0 <= i < |rows| && For(rows[i], only) && rows[i].id == id
  }

  /** An attempt at `id` begins between `w` and `v`. */
  ghost predicate Begun(w: Worker, v: Worker, id: Id) {
    exists c :: c in v.calls && c !in w.calls && v.calls[c] == RunGet(id)
  }

  /** Only the listed messages a flush is for are attempted, and no other call is touched. */
  ghost predicate AttemptsOnly(w: Worker, v: Worker, only: Option<string>, rows: seq<Message>) {
    && (forall c :: c in w.calls ==> c in v.calls && v.calls[c] == w.calls[c])
    && (forall c :: c in v.calls && c !in w.calls ==> w.running && v.calls[c].RunGet? && Wanted(rows, only, v.calls[c].id))
  }

  /** All of them are, unless an attempt is under way. */
  ghost predicate AttemptsAll(w: Worker, v: Worker, only: Option<string>, rows: seq<Message>) {
    forall id :: Wanted(rows, only, id) ==> id in v.inflight || Begun(w, v, id)
  }

  lemma WantedMore(rows: seq<Message>, only: Option<string>, id: Id)
    requires rows != []
    ensures Wanted(rows, only, id) <==> (For(rows[0], only) && rows[0].id == id) || Wanted(rows[1..], only, id)
  {
    if Wanted(rows[1..], only, id) {
      var i :| 0 <= i < |rows| - 1 && For(rows[1..][i], only) && rows[1..][i].id == id;
      assert rows[i + 1] == rows[1..][i];
    }
    if Wanted(rows, only, id) && !(For(rows[0], only) && rows[0].id == id) {
      var i :| 0 <= i < |rows| && For(rows[i], only) && rows[i].id == id;
      assert rows[1..][i - 1] == rows[i];
    }
  }

  lemma {:induction false} RunAllAttempts(w: Worker, only: Option<string>, rows: seq<Message>)
    requires CallsBounded(w)
    ensures var v := RunAll(w, only, rows);
            v.inflight == w.inflight && v.nextCall >= w.nextCall && CallsBounded(v) &&
            (forall k :: k in v.calls && k !in w.calls ==> k >= w.nextCall) &&
            AttemptsOnly(w, v, only, rows) && (w.running ==> AttemptsAll(w, v, only, rows))
    decreases |rows|
  {
    if rows == [] {
    } else {
      var first := if For(rows[0], only) then TryAttempt(w, rows[0].id) else w;
      var v := RunAll(w, only, rows);
      RunAllAttempts(first, only, rows[1..]);
      OnlyOneMore(w, first, v, only, rows);
      if w.running { AllOfOneMore(w, first, v, only, rows); }
    }
  }

  lemma OnlyOneMore(w: Worker, first: Worker, v: Worker, only: Option<string>, rows: seq<Message>)
    requires CallsBounded(w) && rows != [] && first == if For(rows[0], only) then TryAttempt(w, rows[0].id) else w
    requires AttemptsOnly(first, v, only, rows[1..])
    ensures AttemptsOnly(w, v, only, rows)
  {
    forall c | c in v.calls && c !in w.calls ensures w.running && v.calls[c].RunGet? && Wanted(rows, only, v.calls[c].id) {
      if c in first.calls { assert c == w.nextCall && v.calls[c] == RunGet(rows[0].id); }
      WantedMore(rows, only, v.calls[c].id);
    }
  }

  lemma AllOfOneMore(w: Worker, first: Worker, v: Worker, only: Option<string>, rows: seq<Message>)
    requires CallsBounded(w) && w.running && rows != [] && first == if For(rows[0], only) then TryAttempt(w, rows[0].id) else w
    requires AttemptsOnly(first, v, only, rows[1..]) && AttemptsAll(first, v, only, rows[1..]) && v.inflight == w.inflight
    ensures AttemptsAll(w, v, only, rows)
  {
    forall id | Wanted(rows, only, id) ensures id in v.inflight || Begun(w, v, id) {
      WantedMore(rows, only, id);
      if Wanted(rows[1..], only, id) {
        assert id in v.inflight || Begun(first, v, id);
        if Begun(first, v, id) {
          var c :| c in v.calls && c !in first.calls && v.calls[c] == RunGet(id);
          assert c !in w.calls;
        }
      } else if id !in w.inflight {
        assert first.calls[w.nextCall] == RunGet(id) && v.calls[w.nextCall] == RunGet(id);
      }
    }
  }

  /** flushRecipient and flushAll after their listing: every call that is new is an attempt at a listed message
   *  of the recipient, or of anyone's for flushAll; while running every such message is attempted or has an
   *  attempt under way, and otherwise none is.  No other call is touched. */
  lemma FlushAttempts(w: Worker, c: Call, now: int)
    requires CallsBounded(w) && c in w.calls && w.calls[c].FlushListed?
    ensures var v, only, rows := Step(w, Resumes(c, now)), w.calls[c].only, w.calls[c].rows;
            && (forall k :: k in v.calls && k !in w.calls ==> w.running && v.calls[k].RunGet? && Wanted(rows, only, v.calls[k].id))
            && (w.running ==> forall i :: 0 <= i < |rows| && (only.None? || rows[i].recipient == only.value) ==>
                 rows[i].id in v.inflight || Begun(w, v, rows[i].id))
            && (forall k :: k in w.calls && k != c ==> k in v.calls && v.calls[k] == w.calls[k])
  {
    var only, rows := w.calls[c].only, w.calls[c].rows;
    var f := Finish(w, c);
    var v := Step(w, Resumes(c, now));
    RunAllAttempts(f, only, rows);
    if w.running {
      forall i | 0 <= i < |rows| && (only.None? || rows[i].recipient == only.value)
        ensures rows[i].id in v.inflight || Begun(w, v, rows[i].id)
      {
        assert For(rows[i], only) && Wanted(rows, only, rows[i].id);
        if rows[i].id !in v.inflight { StillBegun(w, f, v, c, rows[i].id); }
      }
    }
  }

  lemma StillBegun(w: Worker, f: Worker, v: Worker, c: Call, id: Id)
    requires c in w.calls && f.calls == w.calls - {c} && c < w.nextCall && Begun(f, v, id)
    requires forall k :: k in v.calls && k !in f.calls ==> k >= w.nextCall
    ensures Begun(w, v, id)
  {
    var k :| k in v.calls && k !in f.calls && v.calls[k] == RunGet(id);
    assert k !in w.calls;
  }

  lemma ThreeSteps(w: Worker, a: Event, b: Event, e: Event)
    ensures Run(w, [a, b, e]) == Step(Step(Step(w, a), b), e)
  {
    assert [a, b, e][1..] == [b, e] && [b, e][1..] == [e] && [e][1..] == [];
    assert Run(w, [a, b, e]) == Run(Step(w, a), [b, e]) == Run(Step(Step(w, a), b), [e]) == Run(Step(Step(Step(w, a), b), e), []);
  }

  /** The flush has its listing. */
  lemma FlushLists(w: Worker, only: Option<string>, listing: seq<Message>)
    requires w.running && CallsBounded(w) && IsListing(w.rows, listing)
    ensures var v := Step(Step(w, Flush(only)), StoreRuns(w.nextCall, listing));
            v.calls == w.calls[w.nextCall := FlushListed(only, listing)] && v.running && CallsBounded(v) && v.inflight == w.inflight
  {
    var s := Step(w, Flush(only));
    assert s.calls[w.nextCall] == FlushList(only) && s.rows == w.rows;
  }

  /** From the flush to its attempts: with a running worker, a flush for a recipient leads within its own call to
   *  an attempt at every message queued for it that has none under way. */
  lemma FlushReaches(w: Worker, only: Option<string>, listing: seq<Message>, now: int, id: Id)
    requires CallsBounded(w) && w.running && RowsKeyed(w) && IsListing(w.rows, listing)
    requires id in w.rows && (only.None? || w.rows[id].recipient == only.value)
    ensures var v := Run(w, [Flush(only), StoreRuns(w.nextCall, listing), Resumes(w.nextCall, now)]);
            id in v.inflight || Begun(w, v, id)
  {
    var c := w.nextCall;
    ThreeSteps(w, Flush(only), StoreRuns(c, listing), Resumes(c, now));
    var u := Step(Step(w, Flush(only)), StoreRuns(c, listing));
    var v := Step(u, Resumes(c, now));
    FlushLists(w, only, listing);
    FlushAttempts(u, c, now);
    var i :| 0 <= i < |listing| && listing[i] == w.rows[id];
    assert w.rows[id].id == id;
    assert id in v.inflight || Begun(u, v, id);
    if id !in v.inflight {
      var k :| k in v.calls && k !in u.calls && v.calls[k] == RunGet(id);
      assert k !in w.calls;
    }
  }

  // ---------------------------------------------------------------------------------------------
  // What each operation is for
  // ---------------------------------------------------------------------------------------------

  /** A message handed over is in the queue once its write is done, and while running it is attempted next, unless an
   *  attempt is under way. */
  lemma EnqueueQueues(w: Worker, m: Message, listing: seq<Message>, now: int)
    requires CallsBounded(w) && IsListing(w.rows, listing)
    ensures var c := w.nextCall;
            var v := Run(w, [Enqueue(m), StoreRuns(c, listing), Resumes(c, now)]);
            v.rows == w.rows[m.id := m] && v.running == w.running && c !in v.calls &&
            (w.running ==> m.id in v.inflight || Begun(w, v, m.id)) && (!w.running ==> v.calls == w.calls)
  {
    var c := w.nextCall;
    ThreeSteps(w, Enqueue(m), StoreRuns(c, listing), Resumes(c, now));
    var w1 := Step(w, Enqueue(m));
    var w2 := Step(w1, StoreRuns(c, listing));
    assert w1.calls[c] == EnqueueWrite(m) && w1.rows == w.rows;
    EnqueueResumes(w, m, w2, c, now);
  }

  lemma EnqueueResumes(w: Worker, m: Message, u: Worker, c: Call, now: int)
    requires CallsBounded(w) && c == w.nextCall && u.calls == w.calls[c := EnqueueMetrics(m.id)] && u.nextCall == c + 1
    requires u.running == w.running && u.inflight == w.inflight
    ensures var v := Step(u, Resumes(c, now));
            v.rows == u.rows && v.running == w.running && c !in v.calls &&
            (w.running ==> m.id in v.inflight || Begun(w, v, m.id)) && (!w.running ==> v.calls == w.calls)
  {
    var v := Step(u, Resumes(c, now));
    assert u.calls - {c} == w.calls;
    if w.running && m.id !in w.inflight { assert v.calls[c + 1] == RunGet(m.id) && c + 1 !in w.calls; }
  }

  lemma StartLists(w: Worker, listing: seq<Message>)
    requires !w.running && IsListing(w.rows, listing)
    ensures var u := Step(Step(w, Start), StoreRuns(w.nextCall, listing));
            w.nextCall in u.calls && u.calls[w.nextCall] == StartListed(listing) && u.running
  {
    assert Step(w, Start).calls[w.nextCall] == StartList && Step(w, Start).rows == w.rows;
  }

  /** Starting makes the worker run, and its listing arms an immediate timer for every row; when already running it
   *  changes nothing. */
  lemma StartArmsAll(w: Worker, listing: seq<Message>, now: int, id: Id)
    requires RowsKeyed(w) && IsListing(w.rows, listing)
    ensures w.running ==> Step(w, Start) == w
    ensures var v := Run(w, [Start, StoreRuns(w.nextCall, listing), Resumes(w.nextCall, now)]);
            !w.running ==> v.running && (id in w.rows ==> id in v.timers)
  {
    var c := w.nextCall;
    ThreeSteps(w, Start, StoreRuns(c, listing), Resumes(c, now));
    if !w.running {
      StartLists(w, listing);
      var u := Step(Step(w, Start), StoreRuns(c, listing));
      ArmAllCalls(Finish(u, c), listing);
      if id in w.rows {
        assert w.rows[id] in listing && w.rows[id].id == id;
        ArmsEach(Finish(u, c), listing, id);
      }
    }
  }

  lemma {:induction false} ArmsEach(w: Worker, rows: seq<Message>, id: Id)
    requires id in w.timers || exists m :: m in rows && m.id == id
    ensures id in ArmAll(w, rows).timers
    decreases |rows|
  {
    if rows == [] {
    } else {
      assert forall m :: m in rows ==> m == rows[0] || m in rows[1..];
      ArmsEach(Arm(w, rows[0].id), rows[1..], id);
    }
  }

  /** Events that begin no attempt of their own accord while the worker is stopped: all but Start. */
  ghost predicate Idle(w: Worker, v: Worker) {
    !v.running && forall c :: c in v.calls && v.calls[c].RunGet? ==> c in w.calls && w.calls[c].RunGet?
  }

  lemma StoppedStep(w: Worker, e: Event)
    requires !w.running && !e.Start?
    ensures Idle(w, Step(w, e))
  {
    match e
    case StoreRuns(c, listing) => if c in w.calls && IsListing(w.rows, listing) { StoppedStore(w, c, listing); }
    case Resumes(c, now) => if c in w.calls { StoppedResumes(w, c, now); }
    case _ =>
  }

  lemma StoppedStore(w: Worker, c: Call, listing: seq<Message>)
    requires !w.running && c in w.calls
    ensures Idle(w, StoreStep(w, c, listing))
  {
    assert Answer(w.rows, w.calls[c], listing).RunGet? ==> false;
  }

  lemma StoppedResumes(w: Worker, c: Call, now: int)
    requires !w.running && c in w.calls
    ensures Idle(w, ResumeStep(w, c, now))
  {
    match w.calls[c]
    case StartListed(rows) => ArmAllCalls(Finish(w, c), rows);
    case FlushListed(only, rows) => StoppedRunsNone(Finish(w, c), only, rows);
    case _ =>
  }

  lemma {:induction false} ArmAllCalls(w: Worker, rows: seq<Message>)
    ensures var v := ArmAll(w, rows);
            v.calls == w.calls && v.nextCall == w.nextCall && v.rows == w.rows && v.inflight == w.inflight && v.running == w.running
    decreases |rows|
  {
    if rows == [] {
    } else {
      ArmAllCalls(Arm(w, rows[0].id), rows[1..]);
    }
  }

  lemma {:induction false} StoppedRunsNone(w: Worker, only: Option<string>, rows: seq<Message>)
    requires !w.running
    ensures RunAll(w, only, rows) == w
    decreases |rows|
  {
    if rows == [] {
    } else {
      StoppedRunsNone(w, only, rows[1..]);
    }
  }

  /** Stopping disarms every timer, and until the worker is started again no event begins an attempt. */
  lemma {:induction false} StoppedBeginsNone(w: Worker, es: seq<Event>)
    requires !w.running && forall e :: e in es ==> !e.Start?
    ensures Idle(w, Run(w, es))
    decreases |es|
  {
    if es == [] {
    } else {
      StoppedStep(w, es[0]);
      assert es[0] in es && forall e :: e in es[1..] ==> e in es;
      StoppedBeginsNone(Step(w, es[0]), es[1..]);
    }
  }

  lemma StopDisarms(w: Worker)
    requires TimersMatch(w)
    ensures var v := Step(w, Stop);
            v.timers == map[] && v.armed == map[] && !v.running && v.calls == w.calls && v.rows == w.rows && v.inflight == w.inflight
  {
    assert forall h :: h in w.armed ==> w.timers[w.armed[h]] == h;
  }

  /** After an attempt, its message gets a new timer of its own exactly while the worker runs; and a stopped worker
   *  lists nothing for a flush. */
  lemma BackoffIff(w: Worker, c: Call, now: int, only: Option<string>)
    requires TimersMatch(w) && c in w.calls && w.calls[c].AfterMetrics?
    ensures var v, id := Step(w, Resumes(c, now)), w.calls[c].id;
            c !in v.calls &&
            if w.running then id in v.timers && v.timers[id] !in w.armed && v.armed[v.timers[id]] == id
            else v.timers == w.timers && v.armed == w.armed
    ensures !w.running ==> Step(w, Flush(only)) == w
  {
  }

  /** An attempt that is over is recorded in its row, if that is still there: one more than the row had, and the
   *  time; all other rows stay. */
  lemma AttemptIsRecorded(w: Worker, c: Call, listing: seq<Message>, now: int)
    requires c in w.calls && w.calls[c].AfterGot? && w.calls[c].row.Some? && IsListing(w.rows, listing)
    ensures var id, row := w.calls[c].id, w.calls[c].row.value;
            var v := Step(Step(w, Resumes(c, now)), StoreRuns(c, listing));
            v.rows == if id in w.rows then w.rows[id := w.rows[id].(attempts := row.attempts + 1, lastAttempt := Some(now))] else w.rows
  {
    assert Step(w, Resumes(c, now)).rows == w.rows;
  }

  // ---------------------------------------------------------------------------------------------
  // The worker object
  // ---------------------------------------------------------------------------------------------

  /** InMemoryPendingQueueStore: each method is the effect of one store operation. */
  class PendingQueueStore {
    var rows: map<Id, Message>

    method Put(msg: Message)
      modifies this
      ensures rows == old(rows)[msg.id := msg]
    {
      rows := rows[msg.id := msg];
    }

    /** A no-op if the row is gone. */
    method Update(id: Id, attempts: nat, now: int)
      modifies this
      ensures rows.Keys == old(rows).Keys
      ensures forall i :: i in rows ==> rows[i] == if i == id
        then old(rows)[i].(attempts := attempts, lastAttempt := Some(now)) else old(rows)[i]
    {
      if id in rows {
        rows := rows[id := rows[id].(attempts := attempts, lastAttempt := Some(now))];
      }
    }

    method Remove(id: Id)
      modifies this
      ensures rows == old(rows) - {id}
    {
      rows := rows - {id};
    }
  }

  /** The worker.  `armed` and `calls` belong to the host: its armed timers and the calls it keeps
   *  suspended.  Every method is the stretch of code from one await to the next. */
  class WorkerObject {
    const store: PendingQueueStore
    var running: bool
    var timers: map<Id, Handle>
    var inflight: set<Id>
    var armed: map<Handle, Id>
    var nextHandle: Handle
    var calls: map<Call, Await>
    var nextCall: Call

    constructor (store: PendingQueueStore)
      ensures this.store == store
      ensures State() == Worker(false, map[], {}, map[], 0, map[], 0, store.rows)
    {
      this.store := store;
      running, timers, inflight, armed, nextHandle, calls, nextCall := false, map[], {}, map[], 0, map[], 0;
    }

    ghost function State(): Worker
      reads this, store
    {
      Worker(running, timers, inflight, armed, nextHandle, calls, nextCall, store.rows)
    }

    method Begin(a: Await)
      modifies this`calls, this`nextCall
      ensures State() == Spawn(old(State()), a)
    {
      calls := calls[nextCall := a];
      nextCall := nextCall + 1;
    }

    method Start()
      modifies this
      ensures State() == Step(old(State()), Event.Start)
    {
      if running { return; }
      running := true;
      Begin(StartList);
    }

    method Stop()
      modifies this`running, this`timers, this`armed
      ensures State() == Step(old(State()), Event.Stop)
    {
      running := false;
      var left := timers.Keys;
      while left != {}
        invariant left <= timers.Keys
        invariant armed == old(armed) - (set id | id in timers && id !in left :: timers[id])
        invariant timers == old(timers) && running == false
        decreases |left|
      {
        var id :| id in left;
        armed := armed - {timers[id]};
        left := left - {id};
      }
      assert (set id | id in timers && id !in left :: timers[id]) == timers.Values;
      timers := map[];
    }

    method CancelTimer(id: Id)
      modifies this`timers, this`armed
      ensures State() == Cancelled(old(State()), id)
    {
      if id in timers {
        armed := armed - {timers[id]};
        timers := timers - {id};
      }
    }

    method ScheduleSoon(id: Id)
      modifies this`timers, this`armed, this`nextHandle
      ensures State() == Arm(old(State()), id)
    {
      CancelTimer(id);
      var h := nextHandle;
      armed := armed[h := id];
      nextHandle := nextHandle + 1;
      timers := timers[id := h];
    }

    method RunAttempt(id: Id)
      modifies this`calls, this`nextCall
      ensures State() == TryAttempt(old(State()), id)
    {
      if !running { return; }
      if id in inflight { return; }
      Begin(RunGet(id));
    }

    method Enqueue(msg: Message)
      modifies this`calls, this`nextCall
      ensures State() == Step(old(State()), Event.Enqueue(msg))
    {
      Begin(EnqueueWrite(msg));
    }

    /** flushRecipient when `only` names a recipient, flushAll otherwise. */
    method Flush(only: Option<string>)
      modifies this`calls, this`nextCall
      ensures State() == Step(old(State()), Event.Flush(only))
    {
      if !running { return; }
      Begin(FlushList(only));
    }

    method Acknowledge(id: Id)
      modifies this`calls, this`nextCall
      ensures State() == Step(old(State()), Event.Acknowledge(id))
    {
      Begin(AckGet(id));
    }

    method TimerFired(h: Handle)
      requires h in armed
      modifies this
      ensures State() == Step(old(State()), TimerFires(h))
    {
      var id := armed[h];
      armed := armed - {h};
      timers := timers - {id};
      RunAttempt(id);
    }

    // ---- what runs when a suspended call is resumed ----

    method StartListed(c: Call, rows: seq<Message>)
      requires c in calls && calls[c] == Await.StartListed(rows)
      modifies this
      ensures State() == Step(old(State()), Resumes(c, 0))
    {
      calls := calls - {c};
      ghost var goal := ArmAll(State(), rows);
      var i := 0;
      while i < |rows|
        invariant 0 <= i <= |rows|
        invariant ArmAll(State(), rows[i..]) == goal
      {
        ScheduleSoon(rows[i].id);
        i := i + 1;
      }
    }

    method FlushListed(c: Call, only: Option<string>, rows: seq<Message>)
      requires c in calls && calls[c] == Await.FlushListed(only, rows)
      modifies this
      ensures State() == Step(old(State()), Resumes(c, 0))
    {
      calls := calls - {c};
      ghost var goal := RunAll(State(), only, rows);
      var i := 0;
      while i < |rows|
        invariant 0 <= i <= |rows|
        invariant RunAll(State(), only, rows[i..]) == goal
      {
        if only.None? || rows[i].recipient == only.value { RunAttempt(rows[i].id); }
        i := i + 1;
      }
    }

    method Enqueued(c: Call, id: Id)
      requires c in calls && calls[c] == EnqueueMetrics(id)
      modifies this
      ensures State() == Step(old(State()), Resumes(c, 0))
    {
      calls := calls - {c};
      if running { RunAttempt(id); }
    }

    method RunGot(c: Call, id: Id, row: Option<Message>)
      requires c in calls && calls[c] == Await.RunGot(id, row)
      modifies this
      ensures State() == Step(old(State()), Resumes(c, 0))
    {
      if row.None? { calls := calls - {c}; return; }
      CancelTimer(id);
      inflight := inflight + {id};
      calls := calls[c := Attempting(id, row.value, Connecting)];
    }

    /** Whether the attempt dispatched, failed or threw makes no difference to what follows. */
    method AttemptSettled(c: Call, id: Id, msg: Message, point: Point)
      requires c in calls && calls[c] == Attempting(id, msg, point)
      modifies this
      ensures State() == Step(old(State()), Resumes(c, 0))
    {
      inflight := inflight - {id};
      calls := calls[c := AfterGet(id)];
    }

    method AfterGot(c: Call, id: Id, row: Option<Message>, now: int)
      requires c in calls && calls[c] == Await.AfterGot(id, row)
      modifies this
      ensures State() == Step(old(State()), Resumes(c, now))
    {
      if row.None? { calls := calls - {c}; return; }
      calls := calls[c := AfterUpdate(id, row.value.attempts + 1, now)];
    }

    /** scheduleBackoff. */
    method ScheduleBackoff(c: Call, id: Id)
      requires c in calls && calls[c] == AfterMetrics(id)
      modifies this
      ensures State() == Step(old(State()), Resumes(c, 0))
    {
      calls := calls - {c};
      if !running { return; }
      ScheduleSoon(id);
    }

    method AckGot(c: Call, id: Id, row: Option<Message>)
      requires c in calls && calls[c] == Await.AckGot(id, row)
      modifies this
      ensures State() == Step(old(State()), Resumes(c, 0))
    {
      if row.None? { calls := calls - {c}; return; }
      CancelTimer(id);
      calls := calls[c := AckRemove(id)];
    }
  }
}
