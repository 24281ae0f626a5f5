/** What "no message is stranded" is good for: from every state that a running sender can reach, the
 *  events already under way (its armed timers, its suspended calls, the frames they send and the
 *  recipient's answers) suffice to deliver any queued message and to take it off the queue.  No call
 *  from outside, such as a presence flush or a restart, is needed.
 */
module DeliveryProgress {
  import opened Common
  import W = DeliveryWorker
  import opened DeliverySystem

  /** Events that need nobody to ask for anything, and nothing to fail. */
  predicate Internal(e: Event) {
    match e
    case Local(l) => l.TimerFires? || l.StoreRuns? || l.AttemptMoves? || l.Resumes?
    case DeliverText(_, _) => true
    case DeliverAwk(_, _) => true
    case PeerStore(_) => true
    case PeerResumes(_, _) => true
    case _ => false
  }

  ghost predicate Delivered(s: System, id: Id, row: Row) {
    id !in s.worker.rows && (row.to, id) in s.inbox && s.inbox[(row.to, id)] == Ours(row)
  }

  ghost predicate CanDeliver(s: System, id: Id, row: Row) {
    exists es :: (forall e :: e in es ==> Internal(e)) && Delivered(Run(s, es), id, row)
  }

  ghost predicate Good(s: System, id: Id) {
    Authentic(s) && Kept(s, id) && W.Inv(s.worker)
  }

  /** A running sender holds `id`, sent as `row` to an honest contact, in its queue. */
  ghost predicate Queued(s: System, id: Id, row: Row) {
    && Good(s, id) && s.worker.running
    && id in s.worker.rows && id in s.sent && s.sent[id] == row && row.to in s.honest
  }

  lemma WorkerKeeps(s: System, e: Event, id: Id)
    requires Good(s, id) && !e.Fails? && !Breaks(s, e, id)
    ensures Good(Step(s, e), id) && Grows(s, Step(s, e)) && (Stored(s, id) ==> Stored(Step(s, e), id))
  {
    StepKept(s, e, id);
    match e {
      case Local(l) => W.StepKeeps(s.worker, l);
      case Send(m) => W.StepKeeps(s.worker, W.Enqueue(m));
      case DeliverAwk(i, _) => W.StepKeeps(s.worker, W.Acknowledge(i));
      case _ =>
    }
  }

  lemma {:induction false} RunGood(s: System, es: seq<Event>, id: Id)
    requires Good(s, id) && NeverBreaks(s, es, id) && forall e :: e in es ==> !e.Fails?
    ensures Good(Run(s, es), id)
    decreases |es|
  {
    if es == [] {
    } else {
      WorkerKeeps(s, es[0], id);
      RunGood(Step(s, es[0]), es[1..], id);
    }
  }

  /** Take one internal step and deliver from there. */
  lemma OneStep(s: System, e: Event, id: Id, row: Row)
    requires Queued(s, id, row) && Internal(e) && !Breaks(s, e, id)
    ensures Good(Step(s, e), id) && Grows(s, Step(s, e))
    ensures CanDeliver(Step(s, e), id, row) ==> CanDeliver(s, id, row)
    ensures Delivered(Step(s, e), id, row) ==> CanDeliver(s, id, row)
  {
    WorkerKeeps(s, e, id);
    if CanDeliver(Step(s, e), id, row) { DeliverLater(s, e, id, row); }
    if Delivered(Step(s, e), id, row) { DeliverNow(s, e, id, row); }
  }

  lemma DeliverLater(s: System, e: Event, id: Id, row: Row)
    requires Internal(e) && CanDeliver(Step(s, e), id, row)
    ensures CanDeliver(s, id, row)
  {
    var s' := Step(s, e);
    var es :| (forall f :: f in es ==> Internal(f)) && Delivered(Run(s', es), id, row);
    assert ([e] + es)[1..] == es;
    assert Run(s, [e] + es) == Run(s', es);
    assert forall f :: f in [e] + es ==> Internal(f);
  }

  lemma DeliverNow(s: System, e: Event, id: Id, row: Row)
    requires Internal(e) && Delivered(Step(s, e), id, row)
    ensures CanDeliver(s, id, row)
  {
    assert [e][1..] == [];
    assert Run(s, [e]) == Run(Step(s, e), []) == Step(s, e);
  }

  /** There is always some order in which the store may list its rows. */
  lemma ListingOf(rows: map<Id, W.Message>) returns (listing: seq<W.Message>)
    requires forall id :: id in rows ==> rows[id].id == id
    ensures W.IsListing(rows, listing)
    decreases |rows.Keys|
  {
    if rows == map[] {
      listing := [];
    } else {
      var id :| id in rows;
      var rest := ListingOf(rows - {id});
      listing := [rows[id]] + rest;
      forall i | i in rows ensures rows[i] in listing {
        if i != id { assert i in rows - {id}; }
      }
    }
  }

  /** The store answers call `c`. */
  lemma StoreAnswers(s: System, c: W.Call, id: Id, row: Row) returns (s': System)
    requires Queued(s, id, row) && c in s.worker.calls
    ensures exists listing :: W.IsListing(s.worker.rows, listing) && s' == Step(s, Local(W.StoreRuns(c, listing)))
              && s'.worker == W.StoreStep(s.worker, c, listing)
    ensures Good(s', id) && Grows(s, s')
    ensures CanDeliver(s', id, row) ==> CanDeliver(s, id, row)
    ensures Delivered(s', id, row) ==> CanDeliver(s, id, row)
    ensures s'.wire == s.wire && s'.inbox == s.inbox && s'.incoming == s.incoming
  {
    var listing := ListingOf(s.worker.rows);
    s' := Step(s, Local(W.StoreRuns(c, listing)));
    OneStep(s, Local(W.StoreRuns(c, listing)), id, row);
  }

  /** The recipient's acknowledgement is on the wire. */
  lemma FromAwk(s: System, id: Id, row: Row)
    requires Queued(s, id, row) && Awk(id, row.to) in s.wire
    ensures CanDeliver(s, id, row)
  {
    var c, e := s.worker.nextCall, DeliverAwk(id, row.to);
    assert FrameSound(s, Awk(id, row.to));
    OneStep(s, e, id, row);
    assert Step(s, e).worker.calls[c] == W.AckGet(id);
    FromAckGet(Step(s, e), c, id, row);
  }

  lemma FromAckGet(s: System, c: W.Call, id: Id, row: Row)
    requires Queued(s, id, row) && c in s.worker.calls && s.worker.calls[c] == W.AckGet(id)
    ensures CanDeliver(s, id, row)
  {
    var s' := StoreAnswers(s, c, id, row);
    FromAckGot(s', c, id, row);
  }

  /** An acknowledged message that is still queued loses its timer and is about to be removed. */
  lemma AckCancels(s: System, c: W.Call, id: Id)
    requires c in s.worker.calls && s.worker.calls[c].AckGot? && s.worker.calls[c].id == id && s.worker.calls[c].row.Some?
    ensures Step(s, Local(W.Resumes(c, 0))) == s.(worker := W.Park(W.Cancelled(s.worker, id), c, W.AckRemove(id)))
  {
  }

  lemma FromAckGot(s: System, c: W.Call, id: Id, row: Row)
    requires Queued(s, id, row) && c in s.worker.calls && s.worker.calls[c].AckGot?
    requires s.worker.calls[c].id == id && s.worker.calls[c].row.Some?
    ensures CanDeliver(s, id, row)
  {
    AckCancels(s, c, id);
    OneStep(s, Local(W.Resumes(c, 0)), id, row);
    FromRemoval(Step(s, Local(W.Resumes(c, 0))), c, id, row);
  }

  lemma FromRemoval(s: System, c: W.Call, id: Id, row: Row)
    requires Queued(s, id, row) && c in s.worker.calls && s.worker.calls[c] == W.AckRemove(id)
    ensures CanDeliver(s, id, row)
  {
    assert Acks(s.worker.calls[c], id);
    var s' := StoreAnswers(s, c, id, row);
    assert Delivered(s', id, row);
  }

  lemma FromAppended(s: System, k: nat, id: Id, row: Row)
    requires Queued(s, id, row) && k in s.incoming && s.incoming[k] == Appended(row.to, id, Ours(row))
    ensures CanDeliver(s, id, row)
  {
    OneStep(s, PeerResumes(k, true), id, row);
    FromAwk(Step(s, PeerResumes(k, true)), id, row);
  }

  /** The message itself is on the wire. */
  lemma FromText(s: System, id: Id, row: Row)
    requires Queued(s, id, row) && Text(id, row) in s.wire
    ensures CanDeliver(s, id, row)
  {
    OneStep(s, DeliverText(id, row), id, row);
    FromLooking(Step(s, DeliverText(id, row)), s.nextIncoming, id, row);
  }

  /** The contact has the message in hand. */
  lemma FromLooking(s: System, k: nat, id: Id, row: Row)
    requires Queued(s, id, row) && k in s.incoming && s.incoming[k] == Looking(row.to, id, Ours(row))
    ensures CanDeliver(s, id, row)
  {
    OneStep(s, PeerStore(k), id, row);
    FromLooked(Step(s, PeerStore(k)), k, id, row);
  }

  lemma FromLooked(s: System, k: nat, id: Id, row: Row)
    requires Queued(s, id, row) && k in s.incoming && s.incoming[k].Looked? && s.incoming[k].id == id
    requires s.incoming[k].at == row.to && s.incoming[k].item == Ours(row)
    ensures CanDeliver(s, id, row)
  {
    OneStep(s, PeerResumes(k, true), id, row);
    var s' := Step(s, PeerResumes(k, true));
    if s.incoming[k].found {
      FromAwk(s', id, row);
    } else {
      OneStep(s', PeerStore(k), id, row);
      FromAppended(Step(s', PeerStore(k)), k, id, row);
    }
  }

  lemma FromAttempt(s: System, c: W.Call, id: Id, row: Row)
    requires Queued(s, id, row) && c in s.worker.calls && s.worker.calls[c].Attempting? && s.worker.calls[c].id == id
    ensures CanDeliver(s, id, row)
    decreases if s.worker.calls[c].point == W.Connecting then 2 else if s.worker.calls[c].point == W.MarkingSending then 1 else 0
  {
    assert CallSound(s, s.worker.calls[c]);
    if s.worker.calls[c].point == W.Sending || s.worker.calls[c].point == W.MarkingDelivered {
      FromText(s, id, row);
    } else {
      OneStep(s, Local(W.AttemptMoves(c)), id, row);
      FromAttempt(Step(s, Local(W.AttemptMoves(c))), c, id, row);
    }
  }

  /** The number of internal steps after which a call for `id` has got as far as an attempt. */
  function Rank(a: W.Await): nat {
    match a
    case RunGot(_, _) => 1
    case RunGet(_) => 2
    case EnqueueMetrics(_) => 4
    case StartListed(_) => 4
    case StartList => 5
    case AfterMetrics(_) => 4
    case AfterUpdate(_, _, _) => 5
    case AfterGot(_, _) => 6
    case AfterGet(_) => 7
    case _ => 0
  }

  /** Trying an attempt starts one, unless one is under way. */
  lemma FromTry(s: System, w: W.Worker, id: Id, row: Row)
    requires Queued(s, id, row) && s.worker == W.TryAttempt(w, id) && w.running
    requires w.inflight == s.worker.inflight
    ensures CanDeliver(s, id, row)
    decreases 3, 0
  {
    if id in w.inflight {
      var c :| c in s.worker.calls && s.worker.calls[c].Attempting? && s.worker.calls[c].id == id;
      FromAttempt(s, c, id, row);
    } else {
      assert s.worker.calls[w.nextCall] == W.RunGet(id);
      FromCall(s, w.nextCall, id, row);
    }
  }

  /** A timer that fires forgets itself and tries an attempt. */
  lemma TimerTries(s: System, id: Id) returns (w: W.Worker)
    requires W.Inv(s.worker) && id in s.worker.timers
    ensures Step(s, Local(W.TimerFires(s.worker.timers[id]))) == s.(worker := W.TryAttempt(w, id))
    ensures w.running == s.worker.running && w.rows == s.worker.rows
    ensures W.TryAttempt(w, id).inflight == w.inflight && W.TryAttempt(w, id).running == w.running && W.TryAttempt(w, id).rows == w.rows
  {
    var h := s.worker.timers[id];
    w := s.worker.(armed := s.worker.armed - {h}, timers := s.worker.timers - {id});
    assert h in s.worker.armed && s.worker.armed[h] == id;
  }

  lemma FromTimer(s: System, id: Id, row: Row)
    requires Queued(s, id, row) && id in s.worker.timers
    ensures CanDeliver(s, id, row)
    decreases 3, 1
  {
    var e := Local(W.TimerFires(s.worker.timers[id]));
    OneStep(s, e, id, row);
    var w := TimerTries(s, id);
    FromTry(Step(s, e), w, id, row);
  }

  /** The worker will go on with `id` by itself: every kind of suspended call leads to an attempt. */
  lemma FromCall(s: System, c: W.Call, id: Id, row: Row)
    requires Queued(s, id, row) && c in s.worker.calls && W.Covers(s.worker.calls[c], id)
    ensures CanDeliver(s, id, row)
    decreases Rank(s.worker.calls[c]), 2
  {
    var a := s.worker.calls[c];
    if a.Attempting? {
      FromAttempt(s, c, id, row);
    } else if a.AckRemove? {
      FromRemoval(s, c, id, row);
    } else if a.StartList? || a.RunGet? || a.AfterGet? || a.AfterUpdate? {
      FromStoreCall(s, c, id, row);
    } else {
      FromResumption(s, c, id, row);
    }
  }

  lemma FromStoreCall(s: System, c: W.Call, id: Id, row: Row)
    requires Queued(s, id, row) && c in s.worker.calls && W.Covers(s.worker.calls[c], id)
    requires var a := s.worker.calls[c]; a.StartList? || a.RunGet? || a.AfterGet? || a.AfterUpdate?
    ensures CanDeliver(s, id, row)
    decreases Rank(s.worker.calls[c]), 1
  {
    var s' := StoreAnswers(s, c, id, row);
    StillCovers(s, c, id, s');
    FromCall(s', c, id, row);
  }

  /** The store's answer covers what the question did, one step further on. */
  lemma StillCovers(s: System, c: W.Call, id: Id, s': System)
    requires c in s.worker.calls && W.Covers(s.worker.calls[c], id) && id in s.worker.rows && s.worker.rows[id].id == id
    requires var a := s.worker.calls[c]; a.StartList? || a.RunGet? || a.AfterGet? || a.AfterUpdate?
    requires exists listing :: W.IsListing(s.worker.rows, listing) && s'.worker == W.StoreStep(s.worker, c, listing)
    ensures c in s'.worker.calls && W.Covers(s'.worker.calls[c], id) && Rank(s'.worker.calls[c]) < Rank(s.worker.calls[c])
    ensures id in s'.worker.rows && s'.worker.running == s.worker.running
  {
    if s.worker.calls[c].StartList? { assert s.worker.rows[id] in s'.worker.calls[c].rows; }
  }

  lemma FromResumption(s: System, c: W.Call, id: Id, row: Row)
    requires Queued(s, id, row) && c in s.worker.calls && W.Covers(s.worker.calls[c], id)
    requires var a := s.worker.calls[c];
             a.StartListed? || a.EnqueueMetrics? || a.RunGot? || a.AfterGot? || a.AfterMetrics?
    ensures CanDeliver(s, id, row)
    decreases Rank(s.worker.calls[c]), 1
  {
    var e := Local(W.Resumes(c, 0));
    var s' := Step(s, e);
    OneStep(s, e, id, row);
    var a := s.worker.calls[c];
    if a.StartListed? {
      W.ArmsEach(W.Finish(s.worker, c), a.rows, id);
      W.ArmAllCalls(W.Finish(s.worker, c), a.rows);
      FromTimer(s', id, row);
    } else if a.AfterMetrics? {
      FromTimer(s', id, row);
    } else {
      FromContinuation(s, s', c, id, row);
    }
  }

  lemma FromContinuation(s: System, s': System, c: W.Call, id: Id, row: Row)
    requires Queued(s, id, row) && c in s.worker.calls && W.Covers(s.worker.calls[c], id)
    requires s' == Step(s, Local(W.Resumes(c, 0))) && Good(s', id)
    requires var a := s.worker.calls[c]; a.EnqueueMetrics? || a.RunGot? || a.AfterGot?
    ensures CanDeliver(s', id, row)
    decreases Rank(s.worker.calls[c]), 0
  {
    GoesOn(s, c, id);
    var a := s.worker.calls[c];
    if a.EnqueueMetrics? {
      FromTry(s', W.Finish(s.worker, c), id, row);
    } else if a.RunGot? {
      FromAttempt(s', c, id, row);
    } else {
      FromCall(s', c, id, row);
    }
  }

  /** Such a call tries an attempt, starts one, or goes on to record one. */
  lemma GoesOn(s: System, c: W.Call, id: Id)
    requires c in s.worker.calls && W.Covers(s.worker.calls[c], id)
    requires var a := s.worker.calls[c]; a.EnqueueMetrics? || a.RunGot? || a.AfterGot?
    ensures var a, s' := s.worker.calls[c], Step(s, Local(W.Resumes(c, 0)));
            s'.worker.running == s.worker.running && s'.worker.rows == s.worker.rows && s'.sent == s.sent && s'.honest == s.honest &&
            if a.EnqueueMetrics? then s'.worker == W.TryAttempt(W.Finish(s.worker, c), id)
            else c in s'.worker.calls && W.Covers(s'.worker.calls[c], id) &&
                 if a.RunGot? then s'.worker.calls[c].Attempting? else s'.worker.calls[c].AfterUpdate?
  {
  }

  /** From every state reached without a failed store call or an event that breaks its id, every message to an
   *  honest contact in the queue of a running sender can still be delivered, once and as it was sent, by
   *  internal events alone. */
  lemma AlwaysDeliverable(s: System, es: seq<Event>, id: Id)
    requires Begins(s) && NeverBreaks(s, es, id) && forall e :: e in es ==> !e.Fails?
    requires Run(s, es).worker.running && id in Run(s, es).worker.rows && (id in Run(s, es).sent ==> Run(s, es).sent[id].to in s.honest)
    ensures id in Run(s, es).sent && CanDeliver(Run(s, es), id, Run(s, es).sent[id])
  {
    BeginsWell(s, id);
    RunGood(s, es, id);
    RunGrows(s, es);
    var t := Run(s, es);
    var row := t.sent[id];
    assert W.Covered(t.worker, id);
    if id in t.worker.timers {
      FromTimer(t, id, row);
    } else {
      var c :| c in t.worker.calls && W.Covers(t.worker.calls[c], id);
      FromCall(t, c, id, row);
    }
  }
}
