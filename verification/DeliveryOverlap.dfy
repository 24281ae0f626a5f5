/** When two delivery attempts for one message overlap (delivery-worker.ts, runAttempt): the in-flight check
 *  and the in-flight mark are separated by the await of the look-up.
 */
module DeliveryOverlap {
  import opened Common
  import opened DeliveryWorker

  predicate AttemptsAt(w: Worker, c: Call, id: Id) {
    c in w.calls && w.calls[c].Attempting? && w.calls[c].id == id
  }

  /** Every message has at most one attempt under way. */
  ghost predicate NoOverlap(w: Worker) {
    forall c, d :: c in w.calls && d in w.calls && w.calls[c].Attempting? && w.calls[d].Attempting? && w.calls[c].id == w.calls[d].id
      ==> c == d
  }

  /** A look-up that found its message resumes while an attempt for that message is under way. */
  ghost predicate Collides(w: Worker, e: Event) {
    e.Resumes? && e.call in w.calls && w.calls[e.call].RunGot? && w.calls[e.call].row.Some? && Attempts(w, w.calls[e.call].id)
  }

  /** New calls are look-ups only. */
  predicate AddsLookups(w: Worker, v: Worker) {
    (forall c :: c in w.calls ==> c in v.calls && v.calls[c] == w.calls[c]) && w.nextCall <= v.nextCall && v.inflight == w.inflight &&
    forall c :: c in v.calls && c !in w.calls ==> v.calls[c].RunGet?
  }

  lemma RunAllLookups(w: Worker, only: Option<string>, rows: seq<Message>)
    requires CallsBounded(w)
    ensures AddsLookups(w, RunAll(w, only, rows)) && CallsBounded(RunAll(w, only, rows))
  {
    RunAllAttempts(w, only, rows);
  }

  predicate SameAttempt(w: Worker, v: Worker, c: Call)
    requires c in v.calls && v.calls[c].Attempting?
  {
    c in w.calls && w.calls[c].Attempting? && w.calls[c].id == v.calls[c].id
  }

  predicate NewAttempt(w: Worker, e: Event, v: Worker, c: Call)
    requires c in v.calls && v.calls[c].Attempting?
  {
    e.Resumes? && e.call == c && c in w.calls && w.calls[c].RunGot? && w.calls[c].row.Some? && w.calls[c].id == v.calls[c].id
  }

  /** Every attempt was under way, or starts now. */
  predicate AttemptsFrom(w: Worker, e: Event, v: Worker) {
    forall c :: c in v.calls && v.calls[c].Attempting? ==> SameAttempt(w, v, c) || NewAttempt(w, e, v, c)
  }

  /** A step starts at most one attempt, and only by resuming a look-up that found its message. */
  lemma AttemptsAfter(w: Worker, e: Event)
    requires CallsBounded(w)
    ensures CallsBounded(Step(w, e)) && AttemptsFrom(w, e, Step(w, e))
  {
    match e
    case Resumes(c, now) => if c in w.calls { ResumedAttempts(w, c, now); }
    case StoreRuns(c, listing) => if c in w.calls && IsListing(w.rows, listing) { StoredAttempts(w, c, listing); }
    case _ =>
  }

  /** Call `c` is parked anew; it attempts only if it has just found its message. */
  lemma Parked(w: Worker, e: Event, c: Call, a: Await, v: Worker)
    requires CallsBounded(w) && c in w.calls && v.calls == w.calls[c := a] && v.nextCall == w.nextCall
    requires a.Attempting? ==>
               (w.calls[c].Attempting? && w.calls[c].id == a.id) ||
               (e.Resumes? && e.call == c && w.calls[c].RunGot? && w.calls[c].row.Some? && w.calls[c].id == a.id)
    ensures CallsBounded(v) && AttemptsFrom(w, e, v)
  {
  }

  lemma Gone(w: Worker, e: Event, c: Call, v: Worker)
    requires CallsBounded(w) && v.calls == w.calls - {c} && v.nextCall == w.nextCall
    ensures CallsBounded(v) && AttemptsFrom(w, e, v)
  {
  }

  /** The store leaves an attempt alone. */
  lemma AnswerAttempts(rows: map<Id, Message>, a: Await, listing: seq<Message>)
    requires a.Attempting? || Answer(rows, a, listing).Attempting?
    ensures Answer(rows, a, listing) == a
  {
  }

  lemma StoredAttempts(w: Worker, c: Call, listing: seq<Message>)
    requires CallsBounded(w) && c in w.calls
    ensures CallsBounded(StoreStep(w, c, listing)) && AttemptsFrom(w, StoreRuns(c, listing), StoreStep(w, c, listing))
  {
    var e, v := StoreRuns(c, listing), StoreStep(w, c, listing);
    if w.calls[c].AckRemove? {
      Gone(w, e, c, v);
    } else {
      var a := Answer(w.rows, w.calls[c], listing);
      if a.Attempting? { AnswerAttempts(w.rows, w.calls[c], listing); }
      Parked(w, e, c, a, v);
    }
  }

  lemma ResumedAttempts(w: Worker, c: Call, now: int)
    requires CallsBounded(w) && c in w.calls
    ensures CallsBounded(ResumeStep(w, c, now)) && AttemptsFrom(w, Resumes(c, now), ResumeStep(w, c, now))
  {
    match w.calls[c]
    case StartListed(rows) => ArmAllCalls(Finish(w, c), rows);
    case FlushListed(only, rows) => RunAllLookups(Finish(w, c), only, rows);
    case _ => OtherAttempts(w, c, now);
  }

  lemma OtherAttempts(w: Worker, c: Call, now: int)
    requires CallsBounded(w) && c in w.calls && !w.calls[c].StartListed? && !w.calls[c].FlushListed?
    ensures CallsBounded(ResumeStep(w, c, now)) && AttemptsFrom(w, Resumes(c, now), ResumeStep(w, c, now))
  {
    var e, v, a := Resumes(c, now), ResumeStep(w, c, now), w.calls[c];
    if a.EnqueueMetrics? {
      TriedAttempts(w, c, now, a.id);
    } else if a.AfterMetrics? || (a.RunGot? && a.row.None?) || (a.AfterGot? && a.row.None?) || (a.AckGot? && a.row.None?) {
      Gone(w, e, c, v);
    } else {
      assert v.calls == w.calls[c := v.calls[c]];
      Parked(w, e, c, v.calls[c], v);
    }
  }

  lemma TriedAttempts(w: Worker, c: Call, now: int, id: Id)
    requires CallsBounded(w) && c in w.calls && w.calls[c] == EnqueueMetrics(id)
    ensures CallsBounded(ResumeStep(w, c, now)) && AttemptsFrom(w, Resumes(c, now), ResumeStep(w, c, now))
  {
  }

  /** The exact condition for one step: an attempt comes to overlap another exactly when a found look-up
   *  resumes beside an attempt for its message. */
  lemma StepOverlapsIff(w: Worker, e: Event)
    requires NoOverlap(w) && CallsBounded(w)
    ensures NoOverlap(Step(w, e)) <==> !Collides(w, e)
  {
    var v := Step(w, e);
    AttemptsAfter(w, e);
    if Collides(w, e) {
      var id := w.calls[e.call].id;
      var d :| d in w.calls && w.calls[d].Attempting? && w.calls[d].id == id;
      assert v.calls[d] == w.calls[d] && v.calls[e.call].Attempting? && v.calls[e.call].id == id;
    } else {
      forall c, d | c in v.calls && d in v.calls && v.calls[c].Attempting? && v.calls[d].Attempting? && v.calls[c].id == v.calls[d].id
        ensures c == d
      {
        assert SameAttempt(w, v, c) || NewAttempt(w, e, v, c);
        assert SameAttempt(w, v, d) || NewAttempt(w, e, v, d);
      }
    }
  }

  /** At every moment of the run. */
  ghost predicate NeverOverlaps(w: Worker, es: seq<Event>)
    decreases |es|
  {
    NoOverlap(w) && (es != [] ==> NeverOverlaps(Step(w, es[0]), es[1..]))
  }

  ghost predicate NeverCollides(w: Worker, es: seq<Event>)
    decreases |es|
  {
    es != [] ==> !Collides(w, es[0]) && NeverCollides(Step(w, es[0]), es[1..])
  }

  /** The exact condition for a run. */
  lemma {:induction false} AttemptsNeverOverlapIff(w: Worker, es: seq<Event>)
    requires NoOverlap(w) && CallsBounded(w)
    ensures NeverOverlaps(w, es) <==> NeverCollides(w, es)
    decreases |es|
  {
    if es == [] {
    } else {
      var v := Step(w, es[0]);
      StepOverlapsIff(w, es[0]);
      AttemptsAfter(w, es[0]);
      if NoOverlap(v) {
        AttemptsNeverOverlapIff(v, es[1..]);
      }
    }
  }

  // ---------------------------------------------------------------------------------------------
  // Where the in-flight check lets a second attempt in
  // ---------------------------------------------------------------------------------------------

  /** Between the in-flight check and the end of the attempt. */
  predicate Between(a: Await, id: Id) {
    match a
    case RunGet(i) => i == id
    case RunGot(i, row) => i == id && row.Some?
    case Attempting(i, _, _) => i == id
    case _ => false
  }

  ghost predicate AtMostOneBetween(w: Worker) {
    forall c, d, id :: c in w.calls && d in w.calls && Between(w.calls[c], id) && Between(w.calls[d], id) ==> c == d
  }

  /** Past the check, and not yet marked as in flight. */
  ghost predicate Unmarked(w: Worker, id: Id) {
    exists c :: c in w.calls && Between(w.calls[c], id) && !w.calls[c].Attempting?
  }

  ghost predicate MarkedWhileAttempting(w: Worker) {
    forall id :: id in w.inflight <==> Attempts(w, id)
  }

  /** While attempts do not overlap, a message is marked exactly while it is attempted. */
  lemma {:induction false} MarksAreExact(w: Worker, es: seq<Event>)
    requires CallsBounded(w) && MarkedWhileAttempting(w) && NeverOverlaps(w, es)
    ensures MarkedWhileAttempting(Run(w, es))
    decreases |es|
  {
    if es == [] {
    } else {
      MarksKeep(w, es[0]);
      AttemptsAfter(w, es[0]);
      MarksAreExact(Step(w, es[0]), es[1..]);
    }
  }

  lemma MarksKeep(w: Worker, e: Event)
    requires CallsBounded(w) && MarkedWhileAttempting(w) && NoOverlap(w)
    ensures MarkedWhileAttempting(Step(w, e))
  {
    var v := Step(w, e);
    MarkChanges(w, e);
    AttemptsAfter(w, e);
    forall id ensures id in v.inflight <==> Attempts(v, id) {
      if Attempts(v, id) {
        var c :| c in v.calls && v.calls[c].Attempting? && v.calls[c].id == id;
        assert SameAttempt(w, v, c) || NewAttempt(w, e, v, c);
      }
      if Attempts(w, id) {
        var c :| c in w.calls && w.calls[c].Attempting? && w.calls[c].id == id;
        assert id in v.inflight ==> c in v.calls && v.calls[c].Attempting? && v.calls[c].id == id;
      }
    }
  }

  predicate Starts(w: Worker, e: Event) {
    e.Resumes? && e.call in w.calls && w.calls[e.call].RunGot? && w.calls[e.call].row.Some?
  }

  predicate Ends(w: Worker, e: Event) { e.Resumes? && e.call in w.calls && w.calls[e.call].Attempting? }

  /** Attempts other than the resumed call's go on. */
  predicate OthersGoOn(w: Worker, e: Event, v: Worker) {
    forall c :: c in w.calls && w.calls[c].Attempting? && !(e.Resumes? && e.call == c) ==>
      c in v.calls && v.calls[c].Attempting? && v.calls[c].id == w.calls[c].id
  }

  /** The mark is set by starting an attempt and lifted by ending one. */
  lemma MarkChanges(w: Worker, e: Event)
    requires CallsBounded(w)
    ensures var v := Step(w, e);
            if Starts(w, e)
            then v.inflight == w.inflight + {w.calls[e.call].id} && v.calls[e.call].Attempting? && v.calls[e.call].id == w.calls[e.call].id
            else if Ends(w, e)
            then v.inflight == w.inflight - {w.calls[e.call].id} && !v.calls[e.call].Attempting?
            else v.inflight == w.inflight
    ensures OthersGoOn(w, e, Step(w, e))
  {
    match e
    case Resumes(c, now) => if c in w.calls { ResumedMark(w, c, now); }
    case StoreRuns(c, listing) => if c in w.calls && IsListing(w.rows, listing) { StoredMark(w, c, listing); }
    case _ =>
  }

  lemma StoredMark(w: Worker, c: Call, listing: seq<Message>)
    requires CallsBounded(w) && c in w.calls
    ensures var v := StoreStep(w, c, listing); v.inflight == w.inflight && OthersGoOn(w, StoreRuns(c, listing), v)
  {
    var v := StoreStep(w, c, listing);
    if w.calls[c].AckRemove? {
      assert v.calls == w.calls - {c};
    } else {
      if w.calls[c].Attempting? { AnswerAttempts(w.rows, w.calls[c], listing); }
      assert v.calls == w.calls[c := Answer(w.rows, w.calls[c], listing)];
    }
  }

  lemma ResumedMark(w: Worker, c: Call, now: int)
    requires CallsBounded(w) && c in w.calls
    ensures var e, v := Resumes(c, now), ResumeStep(w, c, now);
            if Starts(w, e) then v.inflight == w.inflight + {w.calls[c].id} && v.calls[c].Attempting? && v.calls[c].id == w.calls[c].id
            else if Ends(w, e) then v.inflight == w.inflight - {w.calls[c].id} && !v.calls[c].Attempting?
            else v.inflight == w.inflight
    ensures OthersGoOn(w, Resumes(c, now), ResumeStep(w, c, now))
  {
    match w.calls[c]
    case StartListed(rows) => ArmAllCalls(Finish(w, c), rows);
    case FlushListed(only, rows) => RunAllLookups(Finish(w, c), only, rows);
    case _ => OtherMark(w, c, now);
  }

  lemma OtherMark(w: Worker, c: Call, now: int)
    requires CallsBounded(w) && c in w.calls && !w.calls[c].StartListed? && !w.calls[c].FlushListed?
    ensures var e, v := Resumes(c, now), ResumeStep(w, c, now);
            if Starts(w, e) then v.inflight == w.inflight + {w.calls[c].id} && v.calls[c].Attempting? && v.calls[c].id == w.calls[c].id
            else if Ends(w, e) then v.inflight == w.inflight - {w.calls[c].id} && !v.calls[c].Attempting?
            else v.inflight == w.inflight
    ensures OthersGoOn(w, Resumes(c, now), ResumeStep(w, c, now))
  {
    var a := w.calls[c];
    if a.RunGot? && a.row.Some? {
      StartMark(w, c, now);
    } else if a.Attempting? {
      EndMark(w, c, now);
    } else {
      QuietMark(w, c, now);
    }
  }

  lemma StartMark(w: Worker, c: Call, now: int)
    requires c in w.calls && w.calls[c].RunGot? && w.calls[c].row.Some?
    ensures var v := ResumeStep(w, c, now);
            v.inflight == w.inflight + {w.calls[c].id} && v.calls[c].Attempting? && v.calls[c].id == w.calls[c].id
    ensures OthersGoOn(w, Resumes(c, now), ResumeStep(w, c, now))
  {
  }

  lemma EndMark(w: Worker, c: Call, now: int)
    requires c in w.calls && w.calls[c].Attempting?
    ensures ResumeStep(w, c, now).inflight == w.inflight - {w.calls[c].id} && !ResumeStep(w, c, now).calls[c].Attempting?
    ensures OthersGoOn(w, Resumes(c, now), ResumeStep(w, c, now))
  {
  }

  lemma QuietMark(w: Worker, c: Call, now: int)
    requires CallsBounded(w) && c in w.calls && !w.calls[c].StartListed? && !w.calls[c].FlushListed?
    requires !w.calls[c].Attempting? && !(w.calls[c].RunGot? && w.calls[c].row.Some?)
    ensures ResumeStep(w, c, now).inflight == w.inflight
    ensures OthersGoOn(w, Resumes(c, now), ResumeStep(w, c, now))
  {
    if w.calls[c].EnqueueMetrics? { TryMark(w, c, now); } else if w.calls[c].AfterMetrics? { ArmMark(w, c, now); }
  }

  lemma TryMark(w: Worker, c: Call, now: int)
    requires CallsBounded(w) && c in w.calls && w.calls[c].EnqueueMetrics?
    ensures ResumeStep(w, c, now).inflight == w.inflight && OthersGoOn(w, Resumes(c, now), ResumeStep(w, c, now))
  {
  }

  lemma ArmMark(w: Worker, c: Call, now: int)
    requires c in w.calls && w.calls[c].AfterMetrics?
    ensures ResumeStep(w, c, now).inflight == w.inflight && OthersGoOn(w, Resumes(c, now), ResumeStep(w, c, now))
  {
  }

  /** As long as no two calls for one message are between the check and the end of an attempt, attempts do
   *  not overlap. */
  lemma {:induction false} OneBetweenSuffices(w: Worker, es: seq<Event>)
    requires CallsBounded(w)
    requires forall k :: 0 <= k <= |es| ==> AtMostOneBetween(Run(w, es[..k]))
    ensures NeverOverlaps(w, es)
    decreases |es|
  {
    assert es[..0] == [];
    assert AtMostOneBetween(Run(w, es[..0]));
    assert forall c :: c in w.calls && w.calls[c].Attempting? ==> Between(w.calls[c], w.calls[c].id);
    if es == [] {
    } else {
      forall k | 0 <= k <= |es| - 1 ensures AtMostOneBetween(Run(Step(w, es[0]), es[1..][..k])) {
        assert es[..k + 1][1..] == es[1..][..k];
        assert AtMostOneBetween(Run(w, es[..k + 1]));
      }
      AttemptsAfter(w, es[0]);
      OneBetweenSuffices(Step(w, es[0]), es[1..]);
    }
  }

  /** The in-flight check fails to keep a second call out exactly when another one for the message has passed
   *  it and is not marked yet. */
  lemma CheckFailsIff(w: Worker, id: Id)
    requires AtMostOneBetween(w) && MarkedWhileAttempting(w) && CallsBounded(w)
    ensures AtMostOneBetween(TryAttempt(w, id)) <==> !(w.running && id !in w.inflight && Unmarked(w, id))
  {
    var v := TryAttempt(w, id);
    if w.running && id !in w.inflight {
      assert v.calls[w.nextCall] == RunGet(id) && Between(v.calls[w.nextCall], id);
      if Unmarked(w, id) {
        var c :| c in w.calls && Between(w.calls[c], id) && !w.calls[c].Attempting?;
        assert v.calls[c] == w.calls[c];
      } else {
        forall c | c in w.calls ensures !Between(w.calls[c], id) {
          assert w.calls[c].Attempting? && w.calls[c].id == id ==> Attempts(w, id);
        }
      }
    }
  }

  // ---------------------------------------------------------------------------------------------
  // A run in which two attempts overlap
  // ---------------------------------------------------------------------------------------------

  /** A worker over a queue of one message. */
  function OneQueued(m: Message): Worker {
    Worker(false, map[], {}, map[], 0, map[], 0, map[m.id := m])
  }

  lemma OneListing(m: Message)
    ensures IsListing(map[m.id := m], [m])
  {
  }

  lemma {:induction false} RunMore(w: Worker, es: seq<Event>, e: Event)
    ensures Run(w, es + [e]) == Step(Run(w, es), e)
    decreases |es|
  {
    if es == [] {
      assert [] + [e] == [e] && [e][1..] == [];
      assert Run(w, [e]) == Run(Step(w, e), []);
    } else {
      assert (es + [e])[0] == es[0] && (es + [e])[1..] == es[1..] + [e];
      RunMore(Step(w, es[0]), es[1..], e);
    }
  }

  /** What a flush of the one queued message leaves: its look-up. */
  function LooksUp(w: Worker, id: Id): Worker {
    w.(calls := w.calls[w.nextCall + 1 := RunGet(id)], nextCall := w.nextCall + 2)
  }

  lemma FlushSteps(w: Worker, m: Message) returns (w1: Worker, w2: Worker)
    requires w.running && w.rows == map[m.id := m] && m.id !in w.inflight && CallsBounded(w)
    ensures Step(w, Flush(None)) == w1
    ensures Step(w1, StoreRuns(w.nextCall, [m])) == w2
    ensures Step(w2, Resumes(w.nextCall, 0)) == LooksUp(w, m.id)
  {
    var k := w.nextCall;
    w1 := w.(calls := w.calls[k := FlushList(None)], nextCall := k + 1);
    w2 := w1.(calls := w.calls[k := FlushListed(None, [m])]);
    Replaced(w.calls, k, FlushList(None), FlushListed(None, [m]), RunGet(m.id));
    ListOne(w1, k, m, w2);
    FlushOne(w2, k, m, LooksUp(w, m.id));
  }

  lemma FlushLooksUp(w: Worker, m: Message)
    requires w.running && w.rows == map[m.id := m] && m.id !in w.inflight && CallsBounded(w)
    ensures Run(w, [Flush(None), StoreRuns(w.nextCall, [m]), Resumes(w.nextCall, 0)]) == LooksUp(w, m.id)
  {
    var w1, w2 := FlushSteps(w, m);
    ThreeSteps(w, Flush(None), StoreRuns(w.nextCall, [m]), Resumes(w.nextCall, 0), w1, w2, LooksUp(w, m.id));
  }

  lemma Replaced(calls: map<Call, Await>, k: Call, a: Await, b: Await, next: Await)
    requires forall c :: c in calls ==> c < k
    ensures calls[k := a][k := b] == calls[k := b]
    ensures (calls[k := b] - {k})[k + 1 := next] == calls[k + 1 := next]
  {
  }

  lemma ListOne(w: Worker, k: Call, m: Message, v: Worker)
    requires w.rows == map[m.id := m] && k in w.calls && w.calls[k] == FlushList(None)
    requires v == w.(calls := v.calls) && v.calls == w.calls[k := FlushListed(None, [m])]
    ensures Step(w, StoreRuns(k, [m])) == v
  {
    OneListing(m);
  }

  lemma FlushOne(w: Worker, k: Call, m: Message, v: Worker)
    requires w.running && k in w.calls && w.calls[k] == FlushListed(None, [m]) && m.id !in w.inflight
    requires v == w.(calls := v.calls, nextCall := w.nextCall + 1) && v.calls == (w.calls - {k})[w.nextCall := RunGet(m.id)]
    ensures Step(w, Resumes(k, 0)) == v
  {
    var u := Finish(w, k);
    RunAllOne(u, m);
  }

  lemma RunAllOne(u: Worker, m: Message)
    ensures RunAll(u, None, [m]) == TryAttempt(u, m.id)
  {
    assert [m][1..] == [];
    assert RunAll(TryAttempt(u, m.id), None, []) == TryAttempt(u, m.id);
  }

  lemma ThreeSteps(w: Worker, a: Event, b: Event, c: Event, w1: Worker, w2: Worker, w3: Worker)
    requires Step(w, a) == w1 && Step(w1, b) == w2 && Step(w2, c) == w3
    ensures Run(w, [a, b, c]) == w3
  {
    RunMore(w, [], a);
    RunMore(w, [] + [a], b);
    RunMore(w, [] + [a] + [b], c);
    assert [] + [a] + [b] + [c] == [a, b, c];
  }

  lemma {:induction false} RunJoin(w: Worker, a: seq<Event>, b: seq<Event>)
    ensures Run(w, a + b) == Run(Run(w, a), b)
    decreases |a|
  {
    if a == [] {
      assert a + b == b;
    } else {
      assert (a + b)[0] == a[0] && (a + b)[1..] == a[1..] + b;
      RunJoin(Step(w, a[0]), a[1..], b);
    }
  }

  lemma BothLookUp(m: Message) returns (es: seq<Event>, v: Worker)
    ensures var f := Flush(None); es == [Start, f, StoreRuns(1, [m]), Resumes(1, 0), f, StoreRuns(3, [m]), Resumes(3, 0)]
    ensures v == Run(OneQueued(m), es)
    ensures v.rows == map[m.id := m] && v.timers == map[] && v.calls == map[0 := StartList, 2 := RunGet(m.id), 4 := RunGet(m.id)]
  {
    var f, w := Flush(None), OneQueued(m);
    var w1 := w.(running := true, calls := map[0 := StartList], nextCall := 1);
    RunMore(w, [], Start);
    FlushLooksUp(w1, m);
    var w2 := Run(w1, [f, StoreRuns(1, [m]), Resumes(1, 0)]);
    FlushLooksUp(w2, m);
    v := Run(w2, [f, StoreRuns(3, [m]), Resumes(3, 0)]);
    RunJoin(w1, [f, StoreRuns(1, [m]), Resumes(1, 0)], [f, StoreRuns(3, [m]), Resumes(3, 0)]);
    RunJoin(w, [] + [Start], [f, StoreRuns(1, [m]), Resumes(1, 0)] + [f, StoreRuns(3, [m]), Resumes(3, 0)]);
    es := [] + [Start] + ([f, StoreRuns(1, [m]), Resumes(1, 0)] + [f, StoreRuns(3, [m]), Resumes(3, 0)]);
  }

  /** Two flushes look the message up before either has marked it; both attempt it. */
  lemma OverlapHappens(m: Message) returns (es: seq<Event>)
    ensures Fresh(OneQueued(m))
    ensures var f := Flush(None);
            es == [Start, f, StoreRuns(1, [m]), Resumes(1, 0), f, StoreRuns(3, [m]), Resumes(3, 0)] +
                  [StoreRuns(2, [m]), Resumes(2, 0), StoreRuns(4, [m]), Resumes(4, 0)]
    ensures var v := Run(OneQueued(m), es);
            AttemptsAt(v, 2, m.id) && AttemptsAt(v, 4, m.id) && !NoOverlap(v)
  {
    var w;
    es, w := BothLookUp(m);
    var v := BothResume(m, w);
    JoinFour(OneQueued(m), es, w, StoreRuns(2, [m]), Resumes(2, 0), StoreRuns(4, [m]), Resumes(4, 0), v);
    es := es + [StoreRuns(2, [m]), Resumes(2, 0), StoreRuns(4, [m]), Resumes(4, 0)];
  }

  /** A look-up of the one queued message finds it, and the message is attempted. */
  lemma LookupAttempts(w: Worker, c: Call, m: Message)
    requires w.rows == map[m.id := m] && c in w.calls && w.calls[c] == RunGet(m.id)
    ensures var v := Step(Step(w, StoreRuns(c, [m])), Resumes(c, 0));
            v.rows == w.rows && v.calls == w.calls[c := Attempting(m.id, m, Connecting)]
  {
    OneListing(m);
    var w1 := Step(w, StoreRuns(c, [m]));
    assert w1 == w.(calls := w.calls[c := RunGot(m.id, Some(m))]);
  }

  lemma BothResume(m: Message, w: Worker) returns (v: Worker)
    requires w.rows == map[m.id := m] && w.calls == map[0 := StartList, 2 := RunGet(m.id), 4 := RunGet(m.id)]
    ensures v == Step(Step(Step(Step(w, StoreRuns(2, [m])), Resumes(2, 0)), StoreRuns(4, [m])), Resumes(4, 0))
    ensures AttemptsAt(v, 2, m.id) && AttemptsAt(v, 4, m.id) && !NoOverlap(v)
  {
    LookupAttempts(w, 2, m);
    var w2 := Step(Step(w, StoreRuns(2, [m])), Resumes(2, 0));
    LookupAttempts(w2, 4, m);
    v := Step(Step(w2, StoreRuns(4, [m])), Resumes(4, 0));
  }

  lemma JoinFour(w: Worker, es: seq<Event>, v0: Worker, a: Event, b: Event, c: Event, d: Event, v: Worker)
    requires Run(w, es) == v0 && v == Step(Step(Step(Step(v0, a), b), c), d)
    ensures Run(w, es + [a, b, c, d]) == v
  {
    RunMore(w, es, a);
    RunMore(w, es + [a], b);
    RunMore(w, es + [a] + [b], c);
    RunMore(w, es + [a] + [b] + [c], d);
    assert es + [a] + [b] + [c] + [d] == es + [a, b, c, d];
  }
}
