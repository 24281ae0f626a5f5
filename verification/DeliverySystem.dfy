/** Store-and-forward delivery end to end: the sender's worker (DeliveryWorker), links that may drop,
 *  duplicate and reorder frames, and any number of contacts (OrpalClient.processFrame, cases `text`, `awk`
 *  and `file-offer`), of whom some are honest.  All may crash and restart, and any store call or callback
 *  may fail.  Other parties may name a message's id: in awks to the sender, and in texts and file offers to
 *  the message's recipient, whose store knows a row by its id alone.
 */
module DeliverySystem {
  import opened Common
  import W = DeliveryWorker

  type Id = W.Id

  type Contact = string

  /** On the link with a contact: a text to it, or an awk from it. */
  datatype Frame =
    | Text(id: Id, row: Row)
    | Awk(id: Id, from: Contact)

  /** A message as far as the sender determines it. */
  datatype Row = Row(to: Contact, text: string, ts: int)

  /** What a contact stores under an id: the sender's message, or the text or file of another party. */
  datatype Item = Ours(row: Row) | Foreign(from: Contact, body: string)

  /** A `text` or `file-offer` frame in the hands of a contact, named after the await it is parked at. */
  datatype Incoming =
    | Looking(at: Contact, id: Id, item: Item)
    | Looked(at: Contact, id: Id, item: Item, found: bool)
    | Appending(at: Contact, id: Id, item: Item)
    | Appended(at: Contact, id: Id, item: Item)

  /** The messages stored by the honest contacts, each in its own store, by id. */
  type Inbox = map<(Contact, Id), Item>

  /** `sent` and `written` are history: what each id was created with, and which queue writes completed.
   *  `wire` holds every frame ever handed to a link of the sender: the link delivers any of them, any number
   *  of times, in any order, or never.  A contact that is not honest can send any awk of its own. */
  datatype System = System(
    honest: set<Contact>,
    worker: W.Worker,
    wire: set<Frame>,
    incoming: map<nat, Incoming>,
    nextIncoming: nat,
    inbox: Inbox,
    sent: map<Id, Row>,
    written: set<Id>)

  datatype Event =
    | Local(event: W.Event)
    | Send(msg: W.Message)
    | Retry(id: Id)
    | DeliverText(id: Id, row: Row)
    | DeliverAwk(id: Id, from: Contact)
    | Forge(id: Id, from: Contact)
    | ForeignFrame(at: Contact, id: Id, from: Contact, body: string)
    | PeerStore(call: nat)
    | PeerResumes(call: nat, connected: bool)
    | Crash
    | PeerCrash
    | Fails(call: W.Call)

  function RowOf(m: W.Message): Row {
    Row(m.recipient, m.text, m.timestamp)
  }

  /** A page reload: memory is lost, the queue stays. */
  function Restarted(w: W.Worker): W.Worker {
    W.Worker(false, map[], {}, map[], 0, map[], 0, w.rows)
  }

  function PeerPark(s: System, k: nat, t: Incoming): System {
    s.(incoming := s.incoming[k := t])
  }

  /** A frame arrives at a contact. */
  function Arrives(s: System, at: Contact, id: Id, item: Item): System {
    s.(incoming := s.incoming[s.nextIncoming := Looking(at, id, item)], nextIncoming := s.nextIncoming + 1)
  }

  /** The contact's store carries out what call `k` waits for.  Whose row is found is not looked at, and an
   *  append replaces what is there. */
  function PeerStoreStep(s: System, k: nat): System
    requires k in s.incoming
  {
    match s.incoming[k]
    case Looking(at, id, item) => PeerPark(s, k, Looked(at, id, item, (at, id) in s.inbox))
    case Appending(at, id, item) => PeerPark(s, k, Appended(at, id, item)).(inbox := s.inbox[(at, id) := item])
    case _ => s
  }

  /** sendAwk, after which the call is over; nothing is sent unless the sender is connected, and another
   *  party's awk goes elsewhere. */
  function SendAwk(s: System, k: nat, connected: bool): System
    requires k in s.incoming
  {
    var t := s.incoming[k];
    s.(incoming := s.incoming - {k}, wire := if connected && t.item.Ours? then s.wire + {Awk(t.id, t.at)} else s.wire)
  }

  function PeerResumeStep(s: System, k: nat, connected: bool): System
    requires k in s.incoming
  {
    match s.incoming[k]
    case Looked(at, id, item, found) =>
      if found then SendAwk(s, k, connected) else PeerPark(s, k, Appending(at, id, item))
    case Appended(_, _, _) => SendAwk(s, k, connected)
    case _ => s
  }

  /** The frame of an attempt leaves when `channel.send` is called. */
  function Dispatched(s: System, c: W.Call): set<Frame>
    requires W.CanMove(s.worker, c)
  {
    var a := s.worker.calls[c];
    if a.point == W.MarkingSending then {Text(a.msg.id, RowOf(a.msg))} else {}
  }

  /** The worker's own events; queue entries and acknowledgements come through Send and DeliverAwk. */
  ghost function LocalStep(s: System, e: W.Event): System {
    var w := W.Step(s.worker, e);
    match e
    case Enqueue(_) => s
    case Acknowledge(_) => s
    case AttemptMoves(c) =>
      if W.CanMove(s.worker, c) then s.(worker := w, wire := s.wire + Dispatched(s, c)) else s
    case StoreRuns(c, listing) =>
      var done := if c in s.worker.calls && s.worker.calls[c].EnqueueWrite? && W.IsListing(s.worker.rows, listing)
                  then {s.worker.calls[c].msg.id} else {};
      s.(worker := w, written := s.written + done)
    case _ => s.(worker := w)
  }

  ghost function Step(s: System, e: Event): System {
    match e
    case Local(l) => LocalStep(s, l)
    case Send(m) =>
      // message ids are never reused for another content
      if m.id in s.sent && s.sent[m.id] != RowOf(m) then s
      else s.(sent := s.sent[m.id := RowOf(m)], worker := W.Step(s.worker, W.Enqueue(m)))
    case Retry(id) =>
      // retryText: once more past the queue
      if id in s.sent then s.(wire := s.wire + {Text(id, s.sent[id])}) else s
    case DeliverText(id, row) =>
      if Text(id, row) in s.wire && row.to in s.honest then Arrives(s, row.to, id, Ours(row)) else s
    case Forge(id, from) =>
      // an id that has not been made yet cannot be named
      if from in s.honest || id !in s.sent then s else s.(wire := s.wire + {Awk(id, from)})
    case ForeignFrame(at, id, from, body) =>
      if at !in s.honest || from in s.honest || id !in s.sent then s else Arrives(s, at, id, Foreign(from, body))
    case DeliverAwk(id, from) =>
      // whom the awk comes from is not compared with the message's recipient
      if Awk(id, from) in s.wire then s.(worker := W.Step(s.worker, W.Acknowledge(id))) else s
    case PeerStore(k) => if k in s.incoming then PeerStoreStep(s, k) else s
    case PeerResumes(k, connected) => if k in s.incoming then PeerResumeStep(s, k, connected) else s
    case Crash => s.(worker := Restarted(s.worker))
    case PeerCrash => s.(incoming := map[])
    case Fails(c) =>
      if c in s.worker.calls && !s.worker.calls[c].Attempting? then s.(worker := W.Finish(s.worker, c)) else s
  }

  ghost function Run(s: System, es: seq<Event>): System
    decreases |es|
  {
    if es == [] then s else Run(Step(s, es[0]), es[1..])
  }

  /** All sides start with empty memory and nothing on the wire; the sender's queue may hold rows. */
  ghost predicate Begins(s: System) {
    && W.Fresh(s.worker) && s.wire == {} && s.incoming == map[] && s.inbox == map[]
    && s.sent == (map id | id in s.worker.rows :: RowOf(s.worker.rows[id]))
    && s.written == s.worker.rows.Keys
  }

  // ---------------------------------------------------------------------------------------------
  // What is the sender's is as the sender made it
  // ---------------------------------------------------------------------------------------------

  ghost predicate Original(s: System, id: Id, row: Row) {
    id in s.sent && s.sent[id] == row
  }

  /** A message to an honest contact. */
  ghost predicate Due(s: System, id: Id) { id in s.sent && s.sent[id].to in s.honest }

  /** The message's recipient holds it, as it was sent. */
  ghost predicate Stored(s: System, id: Id) {
    id in s.sent && (s.sent[id].to, id) in s.inbox && s.inbox[(s.sent[id].to, id)] == Ours(s.sent[id])
  }

  ghost predicate CallSound(s: System, a: W.Await) {
    match a
    case EnqueueWrite(m) => Original(s, m.id, RowOf(m))
    case RunGot(id, row) => row.Some? ==> row.value.id == id && Original(s, id, RowOf(row.value))
    case Attempting(id, m, p) =>
      && m.id == id && Original(s, id, RowOf(m))
      && (p == W.Sending || p == W.MarkingDelivered ==> Text(id, RowOf(m)) in s.wire)
    case AckGet(id) => id in s.sent
    case AckGot(id, _) => id in s.sent
    case AckRemove(id) => id in s.sent
    case _ => true
  }

  ghost predicate FrameSound(s: System, f: Frame) {
    match f
    case Text(id, row) => Original(s, id, row)
    case Awk(id, from) => id in s.sent && (from in s.honest ==> s.sent[id].to == from)
  }

  ghost predicate ItemSound(s: System, at: Contact, id: Id, item: Item) {
    at in s.honest && id in s.sent && (item.Ours? ==> s.sent[id] == item.row && item.row.to == at)
  }

  ghost predicate RowsSound(s: System) {
    forall id :: id in s.worker.rows ==> s.worker.rows[id].id == id && Original(s, id, RowOf(s.worker.rows[id]))
  }

  ghost predicate InboxSound(s: System) {
    forall k :: k in s.inbox ==> ItemSound(s, k.0, k.1, s.inbox[k])
  }

  ghost predicate Authentic(s: System) {
    && RowsSound(s)
    && (forall c :: c in s.worker.calls ==> CallSound(s, s.worker.calls[c]))
    && (forall f :: f in s.wire ==> FrameSound(s, f))
    && (forall k :: k in s.incoming ==> ItemSound(s, s.incoming[k].at, s.incoming[k].id, s.incoming[k].item))
    && InboxSound(s)
    && (forall id :: id in s.written ==> id in s.sent)
  }

  /** History and wire only grow. */
  ghost predicate Grows(s: System, s': System) {
    && s'.honest == s.honest && s.wire <= s'.wire
    && (forall id :: id in s.sent ==> id in s'.sent && s'.sent[id] == s.sent[id])
    && s.written <= s'.written
  }

  lemma SoundnessGrows(s: System, s': System)
    requires Grows(s, s')
    ensures forall a :: CallSound(s, a) ==> CallSound(s', a)
    ensures forall f :: FrameSound(s, f) ==> FrameSound(s', f)
    ensures forall at, id, item :: ItemSound(s, at, id, item) ==> ItemSound(s', at, id, item)
  {
  }

  /** What a step has to show about the parts it changes. */
  lemma Transfer(s: System, s': System)
    requires Authentic(s) && Grows(s, s')
    requires RowsSound(s')
    requires CallsFrom(s', s.worker, s'.worker)
    requires forall f :: f in s'.wire ==> f in s.wire || FrameSound(s', f)
    requires forall k :: k in s'.incoming ==>
               (k in s.incoming && s.incoming[k] == s'.incoming[k]) ||
               ItemSound(s', s'.incoming[k].at, s'.incoming[k].id, s'.incoming[k].item)
    requires forall k :: k in s'.inbox ==> (k in s.inbox && s.inbox[k] == s'.inbox[k]) || ItemSound(s', k.0, k.1, s'.inbox[k])
    requires forall id :: id in s'.written ==> id in s'.sent
    ensures Authentic(s')
  {
    SoundnessGrows(s, s');
  }

  /** `w'` holds calls of `w` and otherwise only sound ones. */
  ghost predicate CallsFrom(s: System, w: W.Worker, w': W.Worker) {
    forall c :: c in w'.calls ==> (c in w.calls && w'.calls[c] == w.calls[c]) || CallSound(s, w'.calls[c])
  }

  lemma {:induction false} RunAllCalls(w: W.Worker, only: Option<string>, rows: seq<W.Message>)
    ensures var r := W.RunAll(w, only, rows);
            r.rows == w.rows
            && forall c :: c in r.calls ==> (c in w.calls && r.calls[c] == w.calls[c]) || r.calls[c].RunGet?
    decreases |rows|
  {
    if rows == [] {
    } else {
      RunAllCalls(if only.None? || rows[0].recipient == only.value then W.TryAttempt(w, rows[0].id) else w, only, rows[1..]);
    }
  }

  /** A call that acknowledges a message. */
  predicate Acks(a: W.Await, id: Id) {
    (a.AckGet? || a.AckGot? || a.AckRemove?) && a.id == id
  }

  /** A call goes on only where it is sound, and acknowledges nothing it did not before. */
  lemma ResumeSound(s: System, c: W.Call, now: int)
    requires c in s.worker.calls && CallSound(s, s.worker.calls[c])
    ensures var w := W.ResumeStep(s.worker, c, now);
            w.rows == s.worker.rows && CallsFrom(s, s.worker, w) &&
            forall k, id :: k in w.calls && Acks(w.calls[k], id) ==> k in s.worker.calls && Acks(s.worker.calls[k], id)
  {
    var a := s.worker.calls[c];
    if a.StartListed? {
      W.ArmAllCalls(W.Finish(s.worker, c), a.rows);
    } else if a.FlushListed? {
      RunAllCalls(W.Finish(s.worker, c), a.only, a.rows);
    } else if a.EnqueueMetrics? || a.AfterMetrics? {
    } else {
      ResumeParkSound(s, c, now);
    }
  }

  lemma ParkSound(s: System, c: W.Call, a: W.Await, w: W.Worker)
    requires c in s.worker.calls && CallSound(s, a) && w.calls == s.worker.calls[c := a]
    requires forall id :: Acks(a, id) ==> Acks(s.worker.calls[c], id)
    ensures CallsFrom(s, s.worker, w)
    ensures forall k, id :: k in w.calls && Acks(w.calls[k], id) ==> k in s.worker.calls && Acks(s.worker.calls[k], id)
  {
  }

  lemma ResumeParkSound(s: System, c: W.Call, now: int)
    requires c in s.worker.calls && CallSound(s, s.worker.calls[c])
    requires var a := s.worker.calls[c];
             !a.StartListed? && !a.FlushListed? && !a.EnqueueMetrics? && !a.AfterMetrics?
    ensures var w := W.ResumeStep(s.worker, c, now);
            w.rows == s.worker.rows && CallsFrom(s, s.worker, w) &&
            forall k, id :: k in w.calls && Acks(w.calls[k], id) ==> k in s.worker.calls && Acks(s.worker.calls[k], id)
  {
    var w := W.ResumeStep(s.worker, c, now);
    var a := s.worker.calls[c];
    if a.Attempting? {
      ParkSound(s, c, W.AfterGet(a.id), w);
    } else if a.RunGot? && a.row.Some? {
      ParkSound(s, c, W.Attempting(a.id, a.row.value, W.Connecting), w);
    } else if a.AfterGot? && a.row.Some? {
      ParkSound(s, c, W.AfterUpdate(a.id, a.row.value.attempts + 1, now), w);
    } else if a.AckGot? && a.row.Some? {
      ParkSound(s, c, W.AckRemove(a.id), w);
    } else {
      assert w.calls == s.worker.calls || w.calls == s.worker.calls - {c};
    }
  }

  lemma AnswerSound(s: System, a: W.Await, listing: seq<W.Message>)
    requires CallSound(s, a) && RowsSound(s)
    ensures CallSound(s, W.Answer(s.worker.rows, a, listing))
    ensures forall id :: Acks(W.Answer(s.worker.rows, a, listing), id) ==> Acks(a, id)
  {
    if a.RunGet? && a.id in s.worker.rows { assert CallSound(s, W.RunGot(a.id, Some(s.worker.rows[a.id]))); }
  }

  lemma StoreCalls(s: System, c: W.Call, listing: seq<W.Message>)
    requires c in s.worker.calls && CallSound(s, s.worker.calls[c]) && RowsSound(s)
    ensures var w := W.StoreStep(s.worker, c, listing);
            CallsFrom(s, s.worker, w) &&
            forall k, id :: k in w.calls && Acks(w.calls[k], id) ==> k in s.worker.calls && Acks(s.worker.calls[k], id)
  {
    AnswerSound(s, s.worker.calls[c], listing);
  }

  lemma StoreRows(s: System, c: W.Call, listing: seq<W.Message>)
    requires c in s.worker.calls && CallSound(s, s.worker.calls[c]) && RowsSound(s)
    ensures var w := W.StoreStep(s.worker, c, listing);
            (forall id :: id in w.rows ==> w.rows[id].id == id && Original(s, id, RowOf(w.rows[id])))
            && (forall id :: id in s.worker.rows ==> id in w.rows || Acks(s.worker.calls[c], id))
            && (s.worker.calls[c].EnqueueWrite? ==> s.worker.calls[c].msg.id in w.rows)
  {
    var a := s.worker.calls[c];
    if a.EnqueueWrite? || a.AckRemove? {
    } else if a.AfterUpdate? {
      RecordedRows(s, a.id, a.attempts, a.now);
    } else {
      assert W.StoreStep(s.worker, c, listing).rows == s.worker.rows;
    }
  }

  lemma RecordedRows(s: System, id: Id, n: nat, now: int)
    requires RowsSound(s)
    ensures var r := W.Recorded(s.worker.rows, id, n, now);
            r.Keys == s.worker.rows.Keys && forall i :: i in r ==> r[i].id == i && Original(s, i, RowOf(r[i]))
  {
  }

  lemma StoreAuthentic(s: System, c: W.Call, listing: seq<W.Message>)
    requires Authentic(s) && c in s.worker.calls && W.IsListing(s.worker.rows, listing)
    ensures Authentic(LocalStep(s, W.StoreRuns(c, listing)))
  {
    var s' := LocalStep(s, W.StoreRuns(c, listing));
    assert CallSound(s, s.worker.calls[c]);
    StoreCalls(s, c, listing);
    SoundnessGrows(s, s');
    StoreRows(s, c, listing);
    Transfer(s, s');
  }

  lemma ResumesAuthentic(s: System, c: W.Call, now: int)
    requires Authentic(s) && c in s.worker.calls
    ensures Authentic(LocalStep(s, W.Resumes(c, now)))
  {
    var s' := LocalStep(s, W.Resumes(c, now));
    assert CallSound(s, s.worker.calls[c]);
    ResumeSound(s, c, now);
    SoundnessGrows(s, s');
    Transfer(s, s');
  }

  lemma MoveAuthentic(s: System, c: W.Call)
    requires Authentic(s) && W.CanMove(s.worker, c)
    ensures Authentic(LocalStep(s, W.AttemptMoves(c)))
  {
    assert CallSound(s, s.worker.calls[c]);
    Transfer(s, LocalStep(s, W.AttemptMoves(c)));
  }

  lemma SwitchAuthentic(s: System, e: W.Event)
    requires Authentic(s) && !e.StoreRuns? && !e.AttemptMoves? && !e.Resumes?
    ensures Authentic(LocalStep(s, e))
  {
    Transfer(s, LocalStep(s, e));
  }

  lemma LocalAuthentic(s: System, e: W.Event)
    requires Authentic(s)
    ensures Authentic(LocalStep(s, e))
  {
    match e {
      case StoreRuns(c, listing) =>
        if c in s.worker.calls && W.IsListing(s.worker.rows, listing) { StoreAuthentic(s, c, listing); }
      case AttemptMoves(c) => if W.CanMove(s.worker, c) { MoveAuthentic(s, c); }
      case Resumes(c, now) => if c in s.worker.calls { ResumesAuthentic(s, c, now); }
      case _ => SwitchAuthentic(s, e);
    }
  }

  lemma PeerAuthentic(s: System, e: Event)
    requires Authentic(s) && (e.PeerStore? || e.PeerResumes?) && e.call in s.incoming
    ensures Authentic(Step(s, e))
  {
    var t := s.incoming[e.call];
    assert ItemSound(s, t.at, t.id, t.item);
    Transfer(s, Step(s, e));
  }

  lemma ArrivalAuthentic(s: System, at: Contact, id: Id, item: Item)
    requires Authentic(s) && ItemSound(s, at, id, item)
    ensures Authentic(Arrives(s, at, id, item))
  {
    Transfer(s, Arrives(s, at, id, item));
  }

  lemma FrameAuthentic(s: System, e: Event)
    requires Authentic(s) && (e.DeliverText? || e.DeliverAwk? || e.ForeignFrame?)
    ensures Authentic(Step(s, e))
  {
    match e
    case DeliverText(id, row) =>
      if Text(id, row) in s.wire && row.to in s.honest {
        assert FrameSound(s, Text(id, row));
        ArrivalAuthentic(s, row.to, id, Ours(row));
      }
    case ForeignFrame(at, id, from, body) =>
      if at in s.honest && from !in s.honest && id in s.sent { ArrivalAuthentic(s, at, id, Foreign(from, body)); }
    case DeliverAwk(id, from) => AwkAuthentic(s, id, from);
  }

  lemma AwkAuthentic(s: System, id: Id, from: Contact)
    requires Authentic(s)
    ensures Authentic(Step(s, DeliverAwk(id, from)))
  {
    if Awk(id, from) in s.wire { assert FrameSound(s, Awk(id, from)); }
    Transfer(s, Step(s, DeliverAwk(id, from)));
  }

  lemma WireAuthentic(s: System, e: Event)
    requires Authentic(s) && (e.Forge? || e.Retry?)
    ensures Authentic(Step(s, e))
  {
    Transfer(s, Step(s, e));
  }

  lemma OtherAuthentic(s: System, e: Event)
    requires Authentic(s) && (e.Send? || e.Fails? || e.Crash? || e.PeerCrash?)
    ensures Authentic(Step(s, e))
  {
    Transfer(s, Step(s, e));
  }

  /** Whatever other parties do, the sender's own rows, calls and texts keep their content, and an honest
   *  contact sends awks only for what was sent to it. */
  lemma StepAuthentic(s: System, e: Event)
    requires Authentic(s)
    ensures Authentic(Step(s, e)) && Grows(s, Step(s, e))
  {
    match e {
      case Local(l) => LocalAuthentic(s, l);
      case PeerStore(k) => if k in s.incoming { PeerAuthentic(s, e); }
      case PeerResumes(k, _) => if k in s.incoming { PeerAuthentic(s, e); }
      case Forge(_, _) => WireAuthentic(s, e);
      case Retry(_) => WireAuthentic(s, e);
      case Send(_) => OtherAuthentic(s, e);
      case Fails(_) => OtherAuthentic(s, e);
      case Crash => OtherAuthentic(s, e);
      case PeerCrash => OtherAuthentic(s, e);
      case _ => FrameAuthentic(s, e);
    }
    StepGrows(s, e);
  }

  lemma StepGrows(s: System, e: Event)
    ensures Grows(s, Step(s, e))
  {
  }

  // ---------------------------------------------------------------------------------------------
  // A message is not lost
  // ---------------------------------------------------------------------------------------------

  /** Nothing yet speaks for having stored the message, and it is queued if it was ever. */
  ghost predicate Clear(s: System, id: Id)
    requires id in s.sent
  {
    && (forall c :: c in s.worker.calls ==> !Acks(s.worker.calls[c], id))
    && (forall from :: from in s.honest ==> Awk(id, from) !in s.wire)
    && (forall k :: k in s.incoming && s.incoming[k].at == s.sent[id].to && s.incoming[k].id == id && s.incoming[k].item.Ours? ==>
         !s.incoming[k].Appended? && (s.incoming[k].Looked? ==> !s.incoming[k].found))
    && (s.sent[id].to, id) !in s.inbox
    && (id in s.written ==> id in s.worker.rows)
  }

  ghost predicate Kept(s: System, id: Id) { Due(s, id) && !Stored(s, id) ==> Clear(s, id) }

  /** Another party's row is stored under the message's id at its recipient. */
  ghost predicate TakesId(s: System, e: Event, id: Id) {
    e.PeerStore? && e.call in s.incoming && s.incoming[e.call].Appending? && s.incoming[e.call].item.Foreign? &&
    s.incoming[e.call].id == id && Due(s, id) && s.incoming[e.call].at == s.sent[id].to
  }

  /** An awk that is not the recipient's is taken for a message not stored yet. */
  ghost predicate MisleadingAwk(s: System, e: Event, id: Id) {
    e.DeliverAwk? && e.id == id && Awk(id, e.from) in s.wire && Due(s, id) && e.from != s.sent[id].to && !Stored(s, id)
  }

  ghost predicate Breaks(s: System, e: Event, id: Id) { TakesId(s, e, id) || MisleadingAwk(s, e, id) }

  ghost predicate NeverBreaks(s: System, es: seq<Event>, id: Id)
    decreases |es|
  {
    es != [] ==> !Breaks(s, es[0], id) && NeverBreaks(Step(s, es[0]), es[1..], id)
  }

  lemma StoredStays(s: System, e: Event, id: Id)
    requires Authentic(s) && Stored(s, id) && !TakesId(s, e, id)
    ensures Stored(Step(s, e), id)
  {
    if e.PeerStore? && e.call in s.incoming {
      var t := s.incoming[e.call];
      assert ItemSound(s, t.at, t.id, t.item);
    } else {
      StoredElse(s, e, id);
    }
  }

  lemma StoredElse(s: System, e: Event, id: Id)
    requires Stored(s, id) && (e.PeerStore? ==> e.call !in s.incoming)
    ensures Stored(Step(s, e), id)
  {
    StepGrows(s, e);
    assert Step(s, e).inbox == s.inbox;
  }

  /** Steps that leave the contacts and the wire alone. */
  lemma LocalClear(s: System, e: W.Event, id: Id)
    requires Authentic(s) && Due(s, id) && Clear(s, id)
    ensures Clear(LocalStep(s, e), id)
  {
    match e {
      case StoreRuns(c, listing) =>
        if c in s.worker.calls && W.IsListing(s.worker.rows, listing) {
          assert CallSound(s, s.worker.calls[c]);
          StoreCalls(s, c, listing);
          StoreRows(s, c, listing);
        }
      case Resumes(c, now) =>
        if c in s.worker.calls {
          assert CallSound(s, s.worker.calls[c]);
          ResumeSound(s, c, now);
        }
      case _ => SwitchClear(s, e, id);
    }
  }

  lemma SwitchClear(s: System, e: W.Event, id: Id)
    requires Due(s, id) && Clear(s, id) && !e.StoreRuns? && !e.Resumes?
    ensures Clear(LocalStep(s, e), id)
  {
  }

  lemma PeerStoreClear(s: System, k: nat, id: Id)
    requires Authentic(s) && Due(s, id) && Clear(s, id) && k in s.incoming && !TakesId(s, PeerStore(k), id)
    ensures var s' := Step(s, PeerStore(k)); Stored(s', id) || Clear(s', id)
  {
    var t := s.incoming[k];
    assert ItemSound(s, t.at, t.id, t.item);
  }

  lemma PeerResumesClear(s: System, k: nat, connected: bool, id: Id)
    requires Authentic(s) && Due(s, id) && Clear(s, id) && k in s.incoming
    ensures Clear(Step(s, PeerResumes(k, connected)), id)
  {
    var t := s.incoming[k];
    assert ItemSound(s, t.at, t.id, t.item);
  }

  lemma FrameClear(s: System, e: Event, id: Id)
    requires Authentic(s) && Due(s, id) && !Stored(s, id) && Clear(s, id) && !MisleadingAwk(s, e, id)
    requires !e.Local? && !e.PeerStore? && !e.PeerResumes?
    ensures Clear(Step(s, e), id)
  {
    if e.DeliverAwk? && Awk(e.id, e.from) in s.wire { assert FrameSound(s, Awk(e.id, e.from)); }
  }

  lemma ClearStep(s: System, e: Event, id: Id)
    requires Authentic(s) && Due(s, id) && !Stored(s, id) && Clear(s, id) && !Breaks(s, e, id)
    ensures Stored(Step(s, e), id) || Clear(Step(s, e), id)
  {
    match e {
      case Local(l) => LocalClear(s, l, id);
      case PeerStore(k) => if k in s.incoming { PeerStoreClear(s, k, id); }
      case PeerResumes(k, connected) => if k in s.incoming { PeerResumesClear(s, k, connected, id); }
      case _ => FrameClear(s, e, id);
    }
  }

  /** An id that has just been made is known to nobody. */
  lemma NewIsClear(s: System, e: Event, id: Id)
    requires Authentic(s) && id !in s.sent && id in Step(s, e).sent
    ensures Clear(Step(s, e), id)
  {
    assert e.Send? && e.msg.id == id;
    assert forall c :: c in s.worker.calls ==> CallSound(s, s.worker.calls[c]);
    assert forall from :: Awk(id, from) in s.wire ==> FrameSound(s, Awk(id, from));
    assert forall k :: k in s.inbox ==> ItemSound(s, k.0, k.1, s.inbox[k]);
    assert id !in s.written;
  }

  /** One step that does not break the message's id keeps it from being lost. */
  lemma StepKept(s: System, e: Event, id: Id)
    requires Authentic(s) && Kept(s, id) && !Breaks(s, e, id)
    ensures Authentic(Step(s, e)) && Kept(Step(s, e), id) && Grows(s, Step(s, e))
    ensures Stored(s, id) ==> Stored(Step(s, e), id)
  {
    StepAuthentic(s, e);
    if Stored(s, id) {
      StoredStays(s, e, id);
    } else if id !in s.sent {
      if id in Step(s, e).sent { NewIsClear(s, e, id); }
    } else if Due(s, id) {
      ClearStep(s, e, id);
    }
  }

  lemma {:induction false} RunKept(s: System, es: seq<Event>, id: Id)
    requires Authentic(s) && Kept(s, id) && NeverBreaks(s, es, id)
    ensures Authentic(Run(s, es)) && Kept(Run(s, es), id) && Grows(s, Run(s, es))
    ensures Stored(s, id) ==> Stored(Run(s, es), id)
    decreases |es|
  {
    if es == [] {
    } else {
      StepKept(s, es[0], id);
      RunKept(Step(s, es[0]), es[1..], id);
    }
  }

  lemma {:induction false} RunAuthentic(s: System, es: seq<Event>)
    requires Authentic(s)
    ensures Authentic(Run(s, es)) && Grows(s, Run(s, es))
    decreases |es|
  {
    if es == [] {
    } else {
      StepAuthentic(s, es[0]);
      RunAuthentic(Step(s, es[0]), es[1..]);
    }
  }

  // ---------------------------------------------------------------------------------------------
  // Results
  // ---------------------------------------------------------------------------------------------

  /** A message as it was sent: still queued, or one row at the contact it is for. */
  ghost predicate QueuedAsSent(s: System, id: Id) {
    id in s.worker.rows && id in s.sent && RowOf(s.worker.rows[id]) == s.sent[id]
  }

  lemma BeginsWell(s: System, id: Id)
    requires Begins(s)
    ensures Authentic(s) && Kept(s, id)
  {
  }

  /** Once its queue write completed, a message to an honest contact is at every later moment still queued with
   *  its original content, or stored by that contact, once, with its original content, as long as no event
   *  breaks its id: no row of another party comes under it at its recipient, and no awk that is not the
   *  recipient's is taken for it before it is stored. */
  lemma QueuedOrStored(s: System, es: seq<Event>, id: Id)
    requires Begins(s) && NeverBreaks(s, es, id)
    ensures var e := Run(s, es); id in e.written && Due(e, id) ==> QueuedAsSent(e, id) || Stored(e, id)
  {
    BeginsWell(s, id);
    RunKept(s, es, id);
  }

  /** A message that is sent is in the queue, as sent, once its write has run; so there is something to keep. */
  lemma SentIsQueued(s: System, m: W.Message, listing: seq<W.Message>)
    requires m.id in s.sent ==> s.sent[m.id] == RowOf(m)
    requires W.IsListing(s.worker.rows, listing)
    ensures var v := Step(Step(s, Send(m)), Local(W.StoreRuns(s.worker.nextCall, listing)));
            m.id in v.written && QueuedAsSent(v, m.id) && v.sent[m.id] == RowOf(m) && v.worker.rows[m.id] == m
  {
    var u := Step(s, Send(m));
    assert u.worker.calls[s.worker.nextCall] == W.EnqueueWrite(m) && u.worker.rows == s.worker.rows;
  }

  /** Whatever happens, an honest contact stores as the sender's only what was sent to it, as it was sent. */
  lemma OnlyAsSent(s: System, es: seq<Event>, at: Contact, id: Id)
    requires Begins(s)
    ensures var e := Run(s, es);
            (at, id) in e.inbox && e.inbox[(at, id)].Ours? ==>
              id in e.sent && e.sent[id].to == at && e.inbox[(at, id)].row == e.sent[id]
  {
    BeginsWell(s, id);
    RunAuthentic(s, es);
  }

  lemma {:induction false} RunGrows(s: System, es: seq<Event>)
    ensures Grows(s, Run(s, es))
    decreases |es|
  {
    if es == [] {
    } else {
      StepGrows(s, es[0]);
      RunGrows(Step(s, es[0]), es[1..]);
    }
  }

  /** What an id was sent with never changes, and a completed queue write is never forgotten, whatever other
   *  parties do. */
  lemma HistoryIsFixed(s: System, before: seq<Event>, after: seq<Event>)
    ensures Run(s, before + after) == Run(Run(s, before), after)
    ensures Grows(Run(s, before), Run(s, before + after))
  {
    RunConcat(s, before, after);
    RunGrows(Run(s, before), after);
  }

  lemma {:induction false} RunConcat(s: System, a: seq<Event>, b: seq<Event>)
    ensures Run(s, a + b) == Run(Run(s, a), b)
    decreases |a|
  {
    if a == [] {
      assert a + b == b;
    } else {
      assert (a + b)[0] == a[0] && (a + b)[1..] == a[1..] + b;
      RunConcat(Step(s, a[0]), a[1..], b);
    }
  }
}
