/** The sending half of file-transfer.ts: bounded retries and the window of workers that share one
 *  next-chunk counter.
 */
module FileSender {
  import opened Common
  import opened Chunks

  /** What one awaited sendFrame comes to: an ACK, the documented timeout, or any other error. */
  datatype Answer = Acked | TimedOut | Broken

  /** sendWithRetry over the channel's answers to the successive tries. */
  method SendWithRetry(answers: nat -> Answer, maxRetries: nat) returns (sent: nat, ok: bool)
    ensures 1 <= sent <= maxRetries + 1
    ensures forall k: nat :: k < sent - 1 ==> answers(k) == TimedOut
    ensures ok <==> answers(sent - 1) == Acked
    ensures answers(sent - 1) == TimedOut ==> sent == maxRetries + 1
  {
    var attempt := 0;
    sent := 0;
    while true
      invariant attempt == sent <= maxRetries
      invariant forall k: nat :: k < sent ==> answers(k) == TimedOut
      decreases maxRetries - attempt
    {
      var answer := answers(sent);
      sent := sent + 1;
      if answer == Acked { return sent, true; }
      if answer != TimedOut || attempt >= maxRetries { return sent, false; }
      attempt := attempt + 1;
    }
  }

  /** A worker, by what it awaits. */
  datatype Worker =
    | Reading(i: nat)
    | Sending(i: nat, attempt: nat)
    | BackingOff(i: nat, attempt: nat)
    | Finished
    | Failed(i: nat)

  /** `done`, `tries` and `answers` are history: the chunks acknowledged, how often each chunk was sent, and the
   *  answers to it in order. */
  datatype Pool = Pool(
    size: nat, chunkSize: nat, window: nat, maxRetries: nat,
    next: nat, transferred: int, chunksDone: nat, workers: seq<Worker>,
    done: set<nat>, tries: map<nat, nat>, answers: map<nat, seq<Answer>>)

  datatype Event =
    | ReadDone(w: nat)
    | Answered(w: nat, answer: Answer)
    | BackoffOver(w: nat)

  /** Math.max(1, window), and no more workers than chunks. */
  function Width(window: nat, chunks: nat): nat {
    var n := if window < 1 then 1 else window;
    if n < chunks then n else chunks
  }

  function Count(p: Pool): nat
    requires p.chunkSize > 0
  {
    ChunkCount(p.size, p.chunkSize)
  }

  /** Every worker claims a chunk as soon as it is started. */
  function Started(size: nat, chunkSize: nat, window: nat, maxRetries: nat): Pool
    requires chunkSize > 0
  {
    var n := Width(window, ChunkCount(size, chunkSize));
    Pool(size, chunkSize, window, maxRetries, n, 0, 0, seq(n, i requires 0 <= i => Reading(i)), {}, map[], map[])
  }

  /** `const i = next++`, and the test that ends the worker. */
  function Claim(p: Pool, w: nat): Pool
    requires p.chunkSize > 0 && w < |p.workers|
  {
    p.(next := p.next + 1, workers := p.workers[w := if p.next < Count(p) then Reading(p.next) else Finished])
  }

  function Try(p: Pool, w: nat, i: nat, attempt: nat): Pool
    requires w < |p.workers|
  {
    p.(workers := p.workers[w := Sending(i, attempt)],
       tries := p.tries[i := if i in p.tries then p.tries[i] + 1 else 1])
  }

  /** The answers to chunk `i` so far. */
  function AnswersTo(p: Pool, i: nat): seq<Answer> { if i in p.answers then p.answers[i] else [] }

  function Heard(p: Pool, i: nat, a: Answer): Pool {
    p.(answers := p.answers[i := AnswersTo(p, i) + [a]])
  }

  function Step(p: Pool, e: Event): Pool
    requires p.chunkSize > 0
  {
    if e.w >= |p.workers| then p
    else
      match (e, p.workers[e.w])
      case (ReadDone(w), Reading(i)) => Try(p, w, i, 0)
      case (BackoffOver(w), BackingOff(i, a)) => Try(p, w, i, a + 1)
      case (Answered(w, Acked), Sending(i, _)) =>
        Claim(Heard(p, i, Acked).(transferred := p.transferred + Length(p.size, p.chunkSize, i), chunksDone := p.chunksDone + 1,
                                  done := p.done + {i}), w)
      case (Answered(w, TimedOut), Sending(i, a)) =>
        Heard(p, i, TimedOut).(workers := p.workers[w := if a < p.maxRetries then BackingOff(i, a) else Failed(i)])
      case (Answered(w, Broken), Sending(i, _)) => Heard(p, i, Broken).(workers := p.workers[w := Failed(i)])
      case _ => p
  }

  function Run(p: Pool, es: seq<Event>): (r: Pool)
    requires p.chunkSize > 0
    ensures r.chunkSize == p.chunkSize
    decreases |es|
  {
    if es == [] then p else Run(Step(p, es[0]), es[1..])
  }

  predicate Holds(w: Worker, i: nat) {
    !w.Finished? && w.i == i
  }

  ghost predicate InHand(p: Pool, i: nat) {
    exists w :: 0 <= w < |p.workers| && Holds(p.workers[w], i)
  }

  ghost predicate Inv(p: Pool) {
    && p.chunkSize > 0
    && |p.workers| == Width(p.window, Count(p))
    && (forall w :: 0 <= w < |p.workers| && !p.workers[w].Finished? ==>
          p.workers[w].i < p.next && p.workers[w].i < Count(p) && p.workers[w].i !in p.done)
    && (forall w :: 0 <= w < |p.workers| && p.workers[w].Finished? ==> p.next >= Count(p))
    && (forall v, w :: 0 <= v < w < |p.workers| && !p.workers[v].Finished? && !p.workers[w].Finished? ==>
          p.workers[v].i != p.workers[w].i)
    && (forall i :: i in p.done ==> i < p.next && i < Count(p))
    && (forall i: nat :: i < p.next && i < Count(p) ==> i in p.done || InHand(p, i))
    && p.chunksDone == |p.done|
    && p.transferred == Volume(p.size, p.chunkSize, Count(p), p.done)
    && (forall i :: i in p.tries ==> i < p.next && i < Count(p) && p.tries[i] <= p.maxRetries + 1)
    && (forall w :: 0 <= w < |p.workers| ==> WorkerOk(p, p.workers[w]))
  }

  predicate WorkerOk(p: Pool, w: Worker) {
    match w
    case Reading(i) => i !in p.tries
    case Sending(i, a) => a <= p.maxRetries && i in p.tries && p.tries[i] == a + 1
    case BackingOff(i, a) => a < p.maxRetries && i in p.tries && p.tries[i] == a + 1
    case _ => true
  }

  lemma StartKeeps(size: nat, chunkSize: nat, window: nat, maxRetries: nat)
    requires chunkSize > 0
    ensures Inv(Started(size, chunkSize, window, maxRetries))
  {
    var p := Started(size, chunkSize, window, maxRetries);
    VolumeOfNone(size, chunkSize, Count(p));
    forall i: nat | i < p.next ensures InHand(p, i) { assert Holds(p.workers[i], i); }
  }

  /** A worker that still holds its chunk. */
  lemma SameChunkKeeps(p: Pool, p': Pool, w: nat, u: Worker)
    requires Inv(p) && w < |p.workers| && !p.workers[w].Finished? && !u.Finished? && u.i == p.workers[w].i
    requires p' == p.(workers := p.workers[w := u], tries := p'.tries, answers := p'.answers)
    requires forall i :: i != u.i ==> (i in p'.tries <==> i in p.tries) && (i in p.tries ==> p'.tries[i] == p.tries[i])
    requires u.i in p'.tries ==> p'.tries[u.i] <= p.maxRetries + 1
    requires WorkerOk(p', u)
    ensures Inv(p')
  {
    forall i: nat | i < p'.next && i < Count(p') && i !in p'.done ensures InHand(p', i) {
      var v :| 0 <= v < |p.workers| && Holds(p.workers[v], i);
      assert Holds(p'.workers[v], i);
    }
    forall v | 0 <= v < |p'.workers| ensures WorkerOk(p', p'.workers[v]) {
      assert WorkerOk(p, p.workers[v]);
    }
  }

  /** Every chunk claimed and not done is in someone's hands after one is done and the next is claimed. */
  lemma HandPasses(p: Pool, w: nat, j: nat)
    requires Inv(p) && w < |p.workers| && p.workers[w].Sending? && j < Count(p) && j <= p.next
    requires j !in p.done && j != p.workers[w].i
    ensures InHand(Step(p, Answered(w, Acked)), j)
  {
    var p' := Step(p, Answered(w, Acked));
    if j == p.next {
      assert Holds(p'.workers[w], j);
    } else {
      var v :| 0 <= v < |p.workers| && Holds(p.workers[v], j);
      assert Holds(p'.workers[v], j);
    }
  }

  lemma AckKeeps(p: Pool, w: nat)
    requires Inv(p) && w < |p.workers| && p.workers[w].Sending?
    ensures Inv(Step(p, Answered(w, Acked)))
  {
    var i := p.workers[w].i;
    var p' := Step(p, Answered(w, Acked));
    VolumeAdds(p.size, p.chunkSize, Count(p), p.done, i);
    forall j: nat | j < p'.next && j < Count(p') && j !in p'.done ensures InHand(p', j) { HandPasses(p, w, j); }
    forall v | 0 <= v < |p'.workers| ensures WorkerOk(p', p'.workers[v]) {
      assert WorkerOk(p, p.workers[v]);
    }
  }

  lemma RefusedKeeps(p: Pool, w: nat, answer: Answer)
    requires Inv(p) && w < |p.workers| && p.workers[w].Sending? && answer != Acked && WorkerOk(p, p.workers[w])
    ensures Inv(Step(p, Answered(w, answer)))
  {
    SameChunkKeeps(p, Step(p, Answered(w, answer)), w, Step(p, Answered(w, answer)).workers[w]);
  }

  lemma StepKeeps(p: Pool, e: Event)
    requires Inv(p)
    ensures Inv(Step(p, e))
  {
    if e.w < |p.workers| {
      assert WorkerOk(p, p.workers[e.w]);
      match (e, p.workers[e.w]) {
        case (Answered(w, Acked), Sending(i, _)) => AckKeeps(p, w);
        case (ReadDone(w), Reading(i)) => SameChunkKeeps(p, Step(p, e), w, Sending(i, 0));
        case (BackoffOver(w), BackingOff(i, a)) => SameChunkKeeps(p, Step(p, e), w, Sending(i, a + 1));
        case (Answered(w, answer), Sending(i, a)) => RefusedKeeps(p, w, answer);
        case _ =>
      }
    }
  }

  lemma SameTask(p: Pool, e: Event)
    requires p.chunkSize > 0
    ensures var r := Step(p, e);
            r.size == p.size && r.chunkSize == p.chunkSize && r.window == p.window && r.maxRetries == p.maxRetries
  {
  }

  lemma {:induction false} RunKeeps(p: Pool, es: seq<Event>)
    requires Inv(p)
    ensures Inv(Run(p, es))
    ensures var r := Run(p, es); r.size == p.size && r.window == p.window && r.maxRetries == p.maxRetries
    decreases |es|
  {
    if es == [] {
    } else {
      StepKeeps(p, es[0]);
      SameTask(p, es[0]);
      RunKeeps(Step(p, es[0]), es[1..]);
    }
  }

  /** No chunk is claimed twice (it is done, or in the hands of exactly one worker, or not claimed yet),
   *  none is sent more than maxRetries + 1 times, at most min(max(1, window), chunks) are under way, and the
   *  progress counters are exact. */
  ghost predicate Exact(p: Pool)
    requires p.chunkSize > 0
  {
    && |p.workers| == Width(p.window, Count(p))
    && HeldOnce(p.workers)
    && HeldUndone(p.workers, p.done, Count(p))
    && (forall i :: i in p.done || i in p.tries ==> i < Count(p))
    && (forall i :: i in p.tries ==> p.tries[i] <= p.maxRetries + 1)
    && p.chunksDone == |p.done|
    && p.transferred == Volume(p.size, p.chunkSize, Count(p), p.done)
  }

  /** No two workers hold the same chunk. */
  ghost predicate HeldOnce(ws: seq<Worker>) {
    forall v, w :: 0 <= v < w < |ws| && !ws[v].Finished? && !ws[w].Finished? ==> ws[v].i != ws[w].i
  }

  ghost predicate HeldUndone(ws: seq<Worker>, done: set<nat>, n: nat) {
    forall w :: 0 <= w < |ws| && !ws[w].Finished? ==> ws[w].i < n && ws[w].i !in done
  }

  lemma InvIsExact(p: Pool)
    requires Inv(p)
    ensures Exact(p)
  {
  }

  /** As many workers as the window allows, but at least one, and no more than there are chunks. */
  lemma WidthIff(window: nat, chunks: nat, n: nat)
    ensures n == Width(window, chunks) <==> n <= chunks && (n <= window || n <= 1) && (n == chunks || (n >= window && n >= 1))
  {
  }

  /** For every size, window and interleaving the pool is exact. */
  lemma PoolIsExact(size: nat, chunkSize: nat, window: nat, maxRetries: nat, es: seq<Event>)
    requires chunkSize > 0
    ensures Exact(Run(Started(size, chunkSize, window, maxRetries), es))
  {
    StartKeeps(size, chunkSize, window, maxRetries);
    RunKeeps(Started(size, chunkSize, window, maxRetries), es);
    InvIsExact(Run(Started(size, chunkSize, window, maxRetries), es));
  }

  /** When every worker has finished, every chunk has been acknowledged and all the bytes are accounted for. */
  lemma PoolCompletes(size: nat, chunkSize: nat, window: nat, maxRetries: nat, es: seq<Event>)
    requires chunkSize > 0
    requires forall w :: w in Run(Started(size, chunkSize, window, maxRetries), es).workers ==> w == Finished
    ensures var p := Run(Started(size, chunkSize, window, maxRetries), es);
            var n := ChunkCount(size, chunkSize);
            p.transferred == size && p.chunksDone == n && forall i: nat :: i < n <==> i in p.done
  {
    StartKeeps(size, chunkSize, window, maxRetries);
    var p := Run(Started(size, chunkSize, window, maxRetries), es);
    RunKeeps(Started(size, chunkSize, window, maxRetries), es);
    assert forall w :: 0 <= w < |p.workers| ==> p.workers[w] == Finished by {
      forall w | 0 <= w < |p.workers| ensures p.workers[w] == Finished { assert p.workers[w] in p.workers; }
    }
    AllAccounted(p);
  }

  // ---------------------------------------------------------------------------------------------
  // Every timeout is retried as often as promised, and nothing else is
  // ---------------------------------------------------------------------------------------------

  predicate AllTimedOut(answers: seq<Answer>) { forall k :: 0 <= k < |answers| ==> answers[k] == TimedOut }

  /** How the sending of one chunk ends, by its answers alone: acknowledged, given up because of another error, or
   *  given up after the last retry. */
  predicate EndsAcked(answers: seq<Answer>, maxRetries: nat) {
    0 < |answers| <= maxRetries + 1 && answers[|answers| - 1] == Acked && AllTimedOut(answers[..|answers| - 1])
  }

  predicate EndsBroken(answers: seq<Answer>, maxRetries: nat) {
    0 < |answers| <= maxRetries + 1 && answers[|answers| - 1] == Broken && AllTimedOut(answers[..|answers| - 1])
  }

  predicate EndsTimedOut(answers: seq<Answer>, maxRetries: nat) { |answers| == maxRetries + 1 && AllTimedOut(answers) }

  function TriesOf(p: Pool, i: nat): nat { if i in p.tries then p.tries[i] else 0 }

  /** Where a worker stands with its chunk, by the answers to it. */
  predicate Standing(p: Pool, w: Worker) {
    match w
    case Reading(i) => AnswersTo(p, i) == [] && TriesOf(p, i) == 0
    case Sending(i, a) => |AnswersTo(p, i)| == a <= p.maxRetries && AllTimedOut(AnswersTo(p, i)) && TriesOf(p, i) == a + 1
    case BackingOff(i, a) =>
      |AnswersTo(p, i)| == a + 1 <= p.maxRetries && AllTimedOut(AnswersTo(p, i)) && TriesOf(p, i) == a + 1
    case Finished => true
    case Failed(i) =>
      (EndsBroken(AnswersTo(p, i), p.maxRetries) || EndsTimedOut(AnswersTo(p, i), p.maxRetries)) && TriesOf(p, i) == |AnswersTo(p, i)|
  }

  ghost predicate Retried(p: Pool) {
    && (forall w :: 0 <= w < |p.workers| ==> Standing(p, p.workers[w]))
    && (forall i :: i in p.done ==> EndsAcked(AnswersTo(p, i), p.maxRetries) && TriesOf(p, i) == |AnswersTo(p, i)|)
    && (forall i :: i in p.tries || i in p.answers ==> i in p.done || InHand(p, i))
  }

  /** What a step does to a chunk that is not the worker's. */
  predicate SameFate(p: Pool, p': Pool, i: nat) {
    AnswersTo(p', i) == AnswersTo(p, i) && TriesOf(p', i) == TriesOf(p, i) && (i in p'.done <==> i in p.done) &&
    (i in p'.tries <==> i in p.tries) && (i in p'.answers <==> i in p.answers)
  }

  lemma OneFate(p: Pool, e: Event, i: nat)
    requires p.chunkSize > 0 && (e.w < |p.workers| && !p.workers[e.w].Finished? ==> p.workers[e.w].i != i)
    ensures SameFate(p, Step(p, e), i)
  {
  }

  lemma OneMoreAnswer(p: Pool, i: nat, a: Answer)
    requires AllTimedOut(AnswersTo(p, i))
    ensures var answers := AnswersTo(Heard(p, i, a), i);
            |answers| == |AnswersTo(p, i)| + 1 && answers[|answers| - 1] == a && AllTimedOut(answers[..|answers| - 1]) &&
            (a == TimedOut ==> AllTimedOut(answers))
  {
    assert (AnswersTo(p, i) + [a])[..|AnswersTo(p, i)|] == AnswersTo(p, i);
  }

  /** The worker's own chunk: acknowledged, or still in its hands. */
  lemma AckedFate(p: Pool, w: nat)
    requires p.chunkSize > 0 && w < |p.workers| && p.workers[w].Sending? && Standing(p, p.workers[w])
    ensures var p', i := Step(p, Answered(w, Acked)), p.workers[w].i;
            EndsAcked(AnswersTo(p', i), p.maxRetries) && TriesOf(p', i) == |AnswersTo(p', i)|
  {
    OneMoreAnswer(p, p.workers[w].i, Acked);
  }

  lemma RefusedFate(p: Pool, w: nat, a: Answer)
    requires p.chunkSize > 0 && w < |p.workers| && p.workers[w].Sending? && Standing(p, p.workers[w]) && a != Acked
    ensures var p', i := Step(p, Answered(w, a)), p.workers[w].i;
            !p'.workers[w].Finished? && p'.workers[w].i == i && Standing(p', p'.workers[w])
  {
    OneMoreAnswer(p, p.workers[w].i, a);
  }

  lemma TriedFate(p: Pool, e: Event)
    requires Inv(p) && e.w < |p.workers| && !p.workers[e.w].Finished? && Standing(p, p.workers[e.w])
    requires !(e.Answered? && p.workers[e.w].Sending?)
    ensures var p', i := Step(p, e), p.workers[e.w].i;
            !p'.workers[e.w].Finished? && p'.workers[e.w].i == i && Standing(p', p'.workers[e.w])
  {
  }

  lemma StillHeld(p: Pool, e: Event, i: nat)
    requires Inv(p) && InHand(p, i)
    ensures i in Step(p, e).done || InHand(Step(p, e), i)
  {
    var p' := Step(p, e);
    var v :| 0 <= v < |p.workers| && Holds(p.workers[v], i);
    if v != e.w || Holds(p'.workers[v], i) { assert Holds(p'.workers[v], i); }
  }

  /** A chunk not claimed yet is new. */
  lemma ClaimIsNew(p: Pool, i: nat)
    requires Inv(p) && Retried(p) && i >= p.next
    ensures AnswersTo(p, i) == [] && TriesOf(p, i) == 0
  {
    assert !InHand(p, i) && i !in p.done;
  }

  lemma SameStanding(p: Pool, p': Pool, u: Worker)
    requires Standing(p, u) && p'.maxRetries == p.maxRetries && (u.Finished? || SameFate(p, p', u.i))
    ensures Standing(p', u)
  {
  }

  lemma OthersStay(p: Pool, e: Event, v: nat)
    requires p.chunkSize > 0 && v < |p.workers| && v != e.w
    ensures v < |Step(p, e).workers| && Step(p, e).workers[v] == p.workers[v]
  {
  }

  lemma StandingStep(p: Pool, e: Event, v: nat)
    requires Inv(p) && Retried(p) && e.w < |p.workers| && !p.workers[e.w].Finished? && v < |p.workers|
    ensures v < |Step(p, e).workers| && Standing(Step(p, e), Step(p, e).workers[v])
  {
    assert Standing(p, p.workers[v]);
    if v == e.w {
      OwnStanding(p, e);
    } else {
      OthersStay(p, e, v);
      SameTask(p, e);
      if !p.workers[v].Finished? { OneFate(p, e, p.workers[v].i); }
      SameStanding(p, Step(p, e), p.workers[v]);
    }
  }

  lemma OwnStanding(p: Pool, e: Event)
    requires Inv(p) && Retried(p) && e.w < |p.workers| && !p.workers[e.w].Finished?
    ensures e.w < |Step(p, e).workers| && Standing(Step(p, e), Step(p, e).workers[e.w])
  {
    assert Standing(p, p.workers[e.w]);
    if e.Answered? && p.workers[e.w].Sending? {
      if e.answer == Acked {
        ClaimIsNew(p, p.next);
        OneFate(p, e, p.next);
      } else {
        RefusedFate(p, e.w, e.answer);
      }
    } else {
      TriedFate(p, e);
    }
  }

  /** Only an ACK makes a chunk done. */
  lemma DoneByAck(p: Pool, e: Event, i: nat)
    requires p.chunkSize > 0 && i in Step(p, e).done && i !in p.done
    ensures e.Answered? && e.answer == Acked && e.w < |p.workers| && p.workers[e.w].Sending? && p.workers[e.w].i == i
  {
  }

  lemma DoneStep(p: Pool, e: Event, i: nat)
    requires Inv(p) && Retried(p) && e.w < |p.workers| && !p.workers[e.w].Finished? && i in Step(p, e).done
    ensures EndsAcked(AnswersTo(Step(p, e), i), p.maxRetries) && TriesOf(Step(p, e), i) == |AnswersTo(Step(p, e), i)|
  {
    if i in p.done {
      OneFate(p, e, i);
    } else {
      DoneByAck(p, e, i);
      assert Standing(p, p.workers[e.w]);
      AckedFate(p, e.w);
    }
  }

  lemma KnownStep(p: Pool, e: Event, i: nat)
    requires Inv(p) && Retried(p) && e.w < |p.workers| && !p.workers[e.w].Finished?
    requires i in Step(p, e).tries || i in Step(p, e).answers
    ensures i in Step(p, e).done || InHand(Step(p, e), i)
  {
    if i == p.workers[e.w].i { assert Holds(p.workers[e.w], i); } else { OneFate(p, e, i); }
    if i !in p.done { StillHeld(p, e, i); }
  }

  lemma RetriedStep(p: Pool, e: Event)
    requires Inv(p) && Retried(p)
    ensures Retried(Step(p, e))
  {
    if e.w < |p.workers| && !p.workers[e.w].Finished? {
      SameTask(p, e);
      forall v: nat | v < |Step(p, e).workers| ensures Standing(Step(p, e), Step(p, e).workers[v]) { StandingStep(p, e, v); }
      forall i | i in Step(p, e).done
        ensures EndsAcked(AnswersTo(Step(p, e), i), p.maxRetries) && TriesOf(Step(p, e), i) == |AnswersTo(Step(p, e), i)|
      {
        DoneStep(p, e, i);
      }
      forall i | i in Step(p, e).tries || i in Step(p, e).answers ensures i in Step(p, e).done || InHand(Step(p, e), i) {
        KnownStep(p, e, i);
      }
    }
  }

  /** No answer is overlooked: an answer to a send counts for its chunk and for no other, and ends the wait. */
  lemma AnswerCounts(p: Pool, w: nat, a: Answer, i: nat)
    requires p.chunkSize > 0 && w < |p.workers| && p.workers[w].Sending?
    ensures var p' := Step(p, Answered(w, a));
            AnswersTo(p', i) == (if i == p.workers[w].i then AnswersTo(p, i) + [a] else AnswersTo(p, i)) && !p'.workers[w].Sending?
  {
  }

  lemma {:induction false} RunRetries(p: Pool, es: seq<Event>)
    requires Inv(p) && Retried(p)
    ensures Inv(Run(p, es)) && Retried(Run(p, es)) && Run(p, es).maxRetries == p.maxRetries
    decreases |es|
  {
    if es == [] {
    } else {
      StepKeeps(p, es[0]);
      RetriedStep(p, es[0]);
      SameTask(p, es[0]);
      RunRetries(Step(p, es[0]), es[1..]);
    }
  }

  /** For every size, window and interleaving, and every worker: a worker has given up exactly when its chunk was
   *  answered with an error other than a timeout, or with maxRetries + 1 timeouts; a chunk is done exactly when
   *  its last answer was an ACK. Up to then all its answers were timeouts, and each send was answered once,
   *  except one that is waiting for its answer. */
  lemma PoolRetries(size: nat, chunkSize: nat, window: nat, maxRetries: nat, es: seq<Event>, w: nat)
    requires chunkSize > 0 && w < |Run(Started(size, chunkSize, window, maxRetries), es).workers|
    requires !Run(Started(size, chunkSize, window, maxRetries), es).workers[w].Finished?
    ensures var p := Run(Started(size, chunkSize, window, maxRetries), es);
            var u, answers := p.workers[w], AnswersTo(p, p.workers[w].i);
            (u.Failed? <==> EndsBroken(answers, maxRetries) || EndsTimedOut(answers, maxRetries)) &&
            (!u.Failed? ==> AllTimedOut(answers) && |answers| <= maxRetries) &&
            TriesOf(p, u.i) == |answers| + (if u.Sending? then 1 else 0)
    ensures forall i :: i in Run(Started(size, chunkSize, window, maxRetries), es).done ==>
              EndsAcked(AnswersTo(Run(Started(size, chunkSize, window, maxRetries), es), i), maxRetries)
  {
    var s := Started(size, chunkSize, window, maxRetries);
    StartKeeps(size, chunkSize, window, maxRetries);
    RunRetries(s, es);
    var p := Run(s, es);
    assert Standing(p, p.workers[w]);
  }

  // ---------------------------------------------------------------------------------------------
  // A pool in which nobody has given up can always finish
  // ---------------------------------------------------------------------------------------------

  ghost predicate NoneFailed(p: Pool) { forall w :: 0 <= w < |p.workers| ==> !p.workers[w].Failed? }

  ghost predicate AllFinished(p: Pool) { forall w :: 0 <= w < |p.workers| ==> p.workers[w].Finished? }

  /** The events that bring worker `w` on: its read, the end of its backoff, an ACK. */
  function Onward(w: nat, u: Worker): Event {
    match u
    case Reading(_) => ReadDone(w)
    case BackingOff(_, _) => BackoffOver(w)
    case _ => Answered(w, Acked)
  }

  predicate Helpful(e: Event) { e.Answered? ==> e.answer == Acked }

  /** How far a worker is from its ACK. */
  function Distance(u: Worker): nat { if u.Finished? || u.Failed? then 0 else if u.Sending? then 1 else 2 }

  function Work(ws: seq<Worker>): nat { if ws == [] then 0 else Work(ws[..|ws| - 1]) + Distance(ws[|ws| - 1]) }

  lemma {:induction false} WorkOf(ws: seq<Worker>, w: nat, u: Worker)
    requires w < |ws|
    ensures Work(ws[w := u]) + Distance(ws[w]) == Work(ws) + Distance(u)
  {
    var n := |ws| - 1;
    if w == n {
      assert ws[w := u][..n] == ws[..n];
    } else {
      WorkOf(ws[..n], w, u);
      assert ws[w := u][..n] == ws[..n][w := u];
    }
  }

  /** One more event of the kind that helps: a chunk is acknowledged, or less is left to do for it. */
  lemma OnwardHelps(p: Pool, w: nat)
    requires Inv(p) && NoneFailed(p) && w < |p.workers| && !p.workers[w].Finished?
    ensures var p' := Step(p, Onward(w, p.workers[w]));
            NoneFailed(p') && Count(p') == Count(p) &&
            (p'.chunksDone > p.chunksDone || (p'.chunksDone == p.chunksDone && Work(p'.workers) < Work(p.workers)))
  {
    var p' := Step(p, Onward(w, p.workers[w]));
    WorkOf(p.workers, w, p'.workers[w]);
  }

  lemma DoneBounded(p: Pool)
    requires Inv(p)
    ensures p.chunksDone <= Count(p)
  {
    FullByCount(p.done, Count(p));
  }

  /** From every reached state in which no worker has given up, reads, ends of backoffs and ACKs bring all workers
   *  to an end; so every chunk gets acknowledged. */
  lemma {:induction false} CanFinish(p: Pool) returns (es: seq<Event>)
    requires Inv(p) && NoneFailed(p)
    ensures (forall e :: e in es ==> Helpful(e)) && AllFinished(Run(p, es)) && Inv(Run(p, es))
    decreases Count(p) - p.chunksDone, Work(p.workers)
  {
    if AllFinished(p) {
      es := [];
    } else {
      var w: nat :| w < |p.workers| && !p.workers[w].Finished?;
      var e := Onward(w, p.workers[w]);
      OnwardHelps(p, w);
      StepKeeps(p, e);
      DoneBounded(Step(p, e));
      var rest := CanFinish(Step(p, e));
      es := [e] + rest;
      assert es[1..] == rest && es[0] == e;
    }
  }

  /** From the start, through any events after which no worker has given up, the whole file can still be
   *  transferred. */
  lemma PoolCanFinish(size: nat, chunkSize: nat, window: nat, maxRetries: nat, es: seq<Event>) returns (more: seq<Event>)
    requires chunkSize > 0 && NoneFailed(Run(Started(size, chunkSize, window, maxRetries), es))
    ensures forall e :: e in more ==> Helpful(e)
    ensures var p := Run(Run(Started(size, chunkSize, window, maxRetries), es), more);
            AllFinished(p) && p.size == size && p.transferred == size && forall i: nat :: i < ChunkCount(size, chunkSize) ==> i in p.done
  {
    StartKeeps(size, chunkSize, window, maxRetries);
    var s := Started(size, chunkSize, window, maxRetries);
    RunKeeps(s, es);
    more := CanFinish(Run(s, es));
    RunKeeps(Run(s, es), more);
    AllAccounted(Run(Run(s, es), more));
  }

  lemma AllAccounted(p: Pool)
    requires Inv(p) && AllFinished(p)
    ensures p.transferred == p.size && p.chunksDone == Count(p) && forall i: nat :: i < Count(p) <==> i in p.done
  {
    var n := Count(p);
    assert forall i: nat :: !InHand(p, i);
    assert n > 0 ==> p.workers[0] == Finished;
    VolumeOfPrefix(p.size, p.chunkSize, n, p.done);
    FullByCount(p.done, n);
  }

  /** sendFile's worker pool: the shared counters, and one entry per worker for what it awaits.  `done` and
   *  `tries` are kept for the record. */
  class WorkerPool {
    const size: nat
    const chunkSize: nat
    const window: nat
    const maxRetries: nat
    var next: nat
    var transferred: int
    var chunksDone: nat
    var workers: seq<Worker>
    var done: set<nat>
    var tries: map<nat, nat>
    ghost var answers: map<nat, seq<Answer>>

    ghost function Value(): Pool
      reads this
    {
      Pool(size, chunkSize, window, maxRetries, next, transferred, chunksDone, workers, done, tries, answers)
    }

    constructor (size: nat, chunkSize: nat, window: nat, maxRetries: nat)
      requires chunkSize > 0
      ensures Value() == Started(size, chunkSize, window, maxRetries)
      ensures this.chunkSize == chunkSize
    {
      this.size, this.chunkSize, this.window, this.maxRetries := size, chunkSize, window, maxRetries;
      next, transferred, chunksDone, workers, done, tries, answers := 0, 0, 0, [], {}, map[], map[];
      new;
      var chunks := ChunkCount(size, chunkSize);
      var n := Width(window, chunks);
      while |workers| < n
        invariant next == |workers| <= n && transferred == 0 && chunksDone == 0 && done == {} && tries == map[] && answers == map[]
        invariant forall k :: 0 <= k < |workers| ==> workers[k] == Reading(k)
      {
        var i := next;
        next := next + 1;
        workers := workers + [if i < chunks then Reading(i) else Finished];
      }
      assert workers == seq(n, i requires 0 <= i => Reading(i));
    }

    method ReadDone(w: nat)
      requires chunkSize > 0 && w < |workers| && workers[w].Reading?
      modifies this
      ensures Value() == Step(old(Value()), Event.ReadDone(w))
    {
      var i := workers[w].i;
      workers := workers[w := Sending(i, 0)];
      tries := tries[i := if i in tries then tries[i] + 1 else 1];
    }

    /** The answer to a send: count the chunk and claim the next one, retry, or give up. */
    method Answered(w: nat, answer: Answer)
      requires chunkSize > 0 && w < |workers| && workers[w].Sending?
      modifies this
      ensures Value() == Step(old(Value()), Event.Answered(w, answer))
    {
      var Sending(i, attempt) := workers[w];
      answers := answers[i := AnswersTo(Value(), i) + [answer]];
      if answer == Acked {
        transferred := transferred + Length(size, chunkSize, i);
        chunksDone := chunksDone + 1;
        done := done + {i};
        var j := next;
        next := next + 1;
        workers := workers[w := if j >= ChunkCount(size, chunkSize) then Finished else Reading(j)];
      } else if answer != TimedOut || attempt >= maxRetries {
        workers := workers[w := Failed(i)];
      } else {
        workers := workers[w := BackingOff(i, attempt)];
      }
    }

    method BackoffOver(w: nat)
      requires chunkSize > 0 && w < |workers| && workers[w].BackingOff?
      modifies this
      ensures Value() == Step(old(Value()), Event.BackoffOver(w))
    {
      var BackingOff(i, attempt) := workers[w];
      workers := workers[w := Sending(i, attempt + 1)];
      tries := tries[i := if i in tries then tries[i] + 1 else 1];
    }
  }
}
