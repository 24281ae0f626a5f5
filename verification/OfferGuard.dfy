/** The client's guard in front of the receiver (orpal-client.ts: processFrame case `file-offer`, and
 *  createSink): an offer is dropped when a message is stored under its file id.  The look-up is awaited
 *  before the offer is handed over, and the message is stored only while the sink is being created.
 */
module OfferGuard {
  import opened Common
  import opened Chunks
  import R = FileReceiver
  import P = FileReceiverProofs

  type FileId = R.FileId

  /** An offer frame in hand: its look-up pending, or answered. */
  datatype Look = Looking(offer: R.Offer) | Looked(offer: R.Offer, found: bool)

  /** `inbox` holds the ids of stored messages; `appended` the createSink calls whose message is stored. */
  datatype Guarded = Guarded(receiver: R.State, inbox: set<FileId>, looks: map<nat, Look>, nextLook: nat, appended: set<R.Call>)

  datatype Event =
    | OfferFrame(offer: R.Offer)
    | StoreAnswers(look: nat)
    | LookResumes(look: nat)
    | Appends(call: R.Call)
    | Below(event: R.Event)

  /** The receiver's event that a step passes on, if any. */
  ghost function Passed(w: Guarded, e: Event): Option<R.Event> {
    match e
    case LookResumes(n) =>
      if n in w.looks && w.looks[n].Looked? && !w.looks[n].found then Some(R.Offered(w.looks[n].offer)) else None
    case Below(b) =>
      if b.Offered? || (b.Created? && b.call !in w.appended) then None else Some(b)
    case _ => None
  }

  predicate Creates(w: Guarded, c: R.Call) {
    c in w.receiver.calls && w.receiver.calls[c].Creating? && w.receiver.calls[c].file in w.receiver.objects
  }

  ghost function Step(w: Guarded, e: Event): Guarded {
    var p := Passed(w, e);
    var w' := if p.Some? then w.(receiver := R.Step(w.receiver, p.value)) else w;
    match e
    case OfferFrame(o) => w'.(looks := w.looks[w.nextLook := Looking(o)], nextLook := w.nextLook + 1)
    case StoreAnswers(n) =>
      if n in w.looks && w.looks[n].Looking?
      then w'.(looks := w.looks[n := Looked(w.looks[n].offer, w.looks[n].offer.fileId in w.inbox)]) else w'
    case LookResumes(n) => if n in w.looks && w.looks[n].Looked? then w'.(looks := w.looks - {n}) else w'
    case Appends(c) =>
      if Creates(w, c)
      then w'.(inbox := w.inbox + {w.receiver.objects[w.receiver.calls[c].file].offer.fileId}, appended := w.appended + {c})
      else w'
    case Below(_) => w'
  }

  ghost function Run(w: Guarded, es: seq<Event>): Guarded
    decreases |es|
  {
    if es == [] then w else Run(Step(w, es[0]), es[1..])
  }

  function Begin(inbox: set<FileId>): Guarded { Guarded(R.INITIAL, inbox, map[], 0, {}) }

  /** What the receiver sees of a run. */
  ghost function Seen(w: Guarded, es: seq<Event>): seq<R.Event>
    decreases |es|
  {
    if es == [] then []
    else
      var p := Passed(w, es[0]);
      (if p.Some? then [p.value] else []) + Seen(Step(w, es[0]), es[1..])
  }

  lemma SeenCons(w: Guarded, e: Event, es: seq<Event>)
    ensures Run(w, [e] + es) == Run(Step(w, e), es)
    ensures var rest := Seen(Step(w, e), es);
            Seen(w, [e] + es) == if Passed(w, e).Some? then [Passed(w, e).value] + rest else rest
  {
    assert ([e] + es)[1..] == es;
  }

  lemma {:induction false} ReceiverRuns(w: Guarded, es: seq<Event>)
    ensures Run(w, es).receiver == R.Run(w.receiver, Seen(w, es))
    decreases |es|
  {
    if es == [] {
    } else {
      ReceiverRuns(Step(w, es[0]), es[1..]);
      assert es == [es[0]] + es[1..];
      SeenCons(w, es[0], es[1..]);
      var rest := Seen(Step(w, es[0]), es[1..]);
      var p := Passed(w, es[0]);
      if p.Some? { assert ([p.value] + rest)[1..] == rest; }
    }
  }

  /** What the guard does with an answered look-up: an offer of a stored id is dropped; any other is registered, unless
   *  its id is, and its message is stored only by its own createSink.  The look-up's answer is whether the id was
   *  stored when the store ran. */
  lemma GuardIff(w: Guarded, n: nat)
    requires n in w.looks && w.receiver.nextObject !in w.receiver.objects
    ensures w.looks[n].Looking? ==>
              var v := Step(w, StoreAnswers(n));
              v == w.(looks := v.looks) && n in v.looks && v.looks[n] == Looked(w.looks[n].offer, w.looks[n].offer.fileId in w.inbox)
    ensures w.looks[n].Looked? ==>
              var v, o := Step(w, LookResumes(n)), w.looks[n].offer;
              n !in v.looks && v.inbox == w.inbox &&
              if w.looks[n].found || o.fileId in w.receiver.files then v.receiver == w.receiver
              else o.fileId in v.receiver.files && v.receiver.files[o.fileId] in v.receiver.objects &&
                   v.receiver.objects[v.receiver.files[o.fileId]].offer == o && v.receiver.files[o.fileId] !in w.receiver.objects
  {
  }

  /** Storing the message is the one way an id gets stored, and a sink is there only afterwards. */
  lemma AppendIff(w: Guarded, e: Event)
    ensures var v := Step(w, e);
            if e.Appends? && Creates(w, e.call)
            then v.inbox == w.inbox + {w.receiver.objects[w.receiver.calls[e.call].file].offer.fileId} && v.receiver == w.receiver
            else v.inbox == w.inbox
    ensures e.Below? && e.event.Created? && e.event.call !in w.appended ==> Step(w, e).receiver == w.receiver
  {
  }

  // ---------------------------------------------------------------------------------------------
  // When the guard suffices
  // ---------------------------------------------------------------------------------------------

  /** Frames that carry the sender's files; nothing is aborted. */
  ghost predicate HonestEvent(src: P.Sources, e: Event) {
    match e
    case OfferFrame(o) => P.HonestOffer(src, o)
    case Below(b) => P.HonestEvent(src, b)
    case _ => true
  }

  ghost predicate Honest(src: P.Sources, es: seq<Event>) {
    forall i :: 0 <= i < |es| ==> HonestEvent(src, es[i])
  }

  ghost predicate LooksHonest(src: P.Sources, w: Guarded) {
    forall n :: n in w.looks ==> P.HonestOffer(src, w.looks[n].offer)
  }

  /** A look-up answered "not stored" resumes, and hands over an offer of an id that is not registered while
   *  a handler of an earlier transfer of that id is still suspended. */
  ghost predicate HandsOverStale(w: Guarded, e: Event) {
    e.LookResumes? && e.look in w.looks && w.looks[e.look].Looked? && !w.looks[e.look].found &&
    var id := w.looks[e.look].offer.fileId;
    id !in w.receiver.files && !P.NoStale(w.receiver, id)
  }

  lemma StepAllowedIff(src: P.Sources, w: Guarded, e: Event)
    requires LooksHonest(src, w) && HonestEvent(src, e)
    ensures LooksHonest(src, Step(w, e))
    ensures Passed(w, e).Some? ==> (P.Allowed(src, w.receiver, Passed(w, e).value) <==> !HandsOverStale(w, e))
    ensures Passed(w, e).None? ==> !HandsOverStale(w, e)
  {
  }

  ghost predicate NeverStale(w: Guarded, es: seq<Event>) {
    forall k :: 0 <= k < |es| ==> !HandsOverStale(Run(w, es[..k]), es[k])
  }

  lemma NeverStaleCons(w: Guarded, es: seq<Event>)
    requires es != []
    ensures NeverStale(w, es) <==> !HandsOverStale(w, es[0]) && NeverStale(Step(w, es[0]), es[1..])
  {
    forall k | 0 < k < |es|
      ensures Run(w, es[..k]) == Run(Step(w, es[0]), es[1..][..k - 1]) && es[k] == es[1..][k - 1]
    {
      assert es[..k][1..] == es[1..][..k - 1];
    }
    assert es[..0] == [];
    if NeverStale(w, es) {
      assert !HandsOverStale(Run(w, es[..0]), es[0]);
      forall j | 0 <= j < |es| - 1 ensures !HandsOverStale(Run(Step(w, es[0]), es[1..][..j]), es[1..][j]) {
        assert !HandsOverStale(Run(w, es[..j + 1]), es[j + 1]);
      }
    }
    if !HandsOverStale(w, es[0]) && NeverStale(Step(w, es[0]), es[1..]) {
      forall k | 0 <= k < |es| ensures !HandsOverStale(Run(w, es[..k]), es[k]) {
        if k > 0 { assert !HandsOverStale(Run(Step(w, es[0]), es[1..][..k - 1]), es[1..][k - 1]); }
      }
    }
  }

  /** What "allowed" means for the receiver, in terms of the guarded run. */
  lemma {:induction false} RunIsAllowedIff(src: P.Sources, w: Guarded, es: seq<Event>)
    requires Honest(src, es) && LooksHonest(src, w)
    ensures P.RunAllowed(src, w.receiver, Seen(w, es)) <==> NeverStale(w, es)
    decreases |es|
  {
    if es == [] {
    } else {
      var e, rest := es[0], Seen(Step(w, es[0]), es[1..]);
      assert es == [e] + es[1..];
      SeenCons(w, e, es[1..]);
      assert Honest(src, es[1..]) by { assert forall i :: 0 <= i < |es[1..]| ==> es[1..][i] == es[i + 1]; }
      StepAllowedIff(src, w, e);
      RunIsAllowedIff(src, Step(w, e), es[1..]);
      NeverStaleCons(w, es);
      if Passed(w, e).Some? { assert ([Passed(w, e).value] + rest)[1..] == rest; }
    }
  }

  // ---------------------------------------------------------------------------------------------
  // Looking again when the look-up resumes would do
  // ---------------------------------------------------------------------------------------------

  /** A look-up resumes although its answer is out of date: by now a message is stored under the id. */
  ghost predicate Outdated(w: Guarded, e: Event) {
    e.LookResumes? && e.look in w.looks && w.looks[e.look].Looked? && !w.looks[e.look].found &&
    w.looks[e.look].offer.fileId in w.inbox && w.looks[e.look].offer.fileId !in w.receiver.files
  }

  ghost predicate NeverOutdated(w: Guarded, es: seq<Event>)
    decreases |es|
  {
    es == [] || (!Outdated(w, es[0]) && NeverOutdated(Step(w, es[0]), es[1..]))
  }

  /** A sink is there only once the message is stored. */
  ghost predicate StoredFirst(w: Guarded) {
    (forall g :: g in w.receiver.objects && w.receiver.objects[g].ready ==> w.receiver.objects[g].offer.fileId in w.inbox) &&
    (forall c :: c in w.appended ==> c < w.receiver.nextCall) &&
    forall c :: c in w.appended && Creates(w, c) ==> w.receiver.objects[w.receiver.calls[c].file].offer.fileId in w.inbox
  }

  lemma PassedKeeps(w: Guarded, e: Event)
    requires StoredFirst(w) && Passed(w, e).Some?
    requires forall c :: c in w.receiver.calls && w.receiver.calls[c].Creating? ==> w.receiver.calls[c].file in w.receiver.objects
    requires w.receiver.nextObject !in w.receiver.objects
    ensures StoredFirst(w.(receiver := R.Step(w.receiver, Passed(w, e).value)))
  {
    var b := Passed(w, e).value;
    var r, r' := w.receiver, R.Step(w.receiver, b);
    P.StepOffers(r, b);
    forall g | g in r'.objects && r'.objects[g].ready ensures r'.objects[g].offer.fileId in w.inbox {
      assert P.IsKept(r, b, r', g);
      if !r.objects[g].ready { assert Creates(w, b.call); }
    }
    forall c | c in w.appended && c in r'.calls && r'.calls[c].Creating? && r'.calls[c].file in r'.objects
      ensures r'.objects[r'.calls[c].file].offer.fileId in w.inbox
    {
      assert r'.calls[c] == r.calls[c];
      assert Creates(w, c);
      assert P.IsKept(r, b, r', r.calls[c].file);
    }
  }

  ghost predicate Inv(src: P.Sources, w: Guarded) {
    P.Inv(src, w.receiver, P.Nobody) && StoredFirst(w) && LooksHonest(src, w)
  }

  /** While the answers are in date, no handler of an earlier transfer of an offered id is suspended. */
  lemma StaleIsOutdated(src: P.Sources, w: Guarded, e: Event)
    requires Inv(src, w) && HandsOverStale(w, e)
    ensures Outdated(w, e)
  {
    var id, r := w.looks[e.look].offer.fileId, w.receiver;
    var c :| c in r.calls && (r.calls[c].Flushing? || r.calls[c].Writing?) && r.calls[c].file in r.objects &&
             r.objects[r.calls[c].file].offer.fileId == id;
    assert P.CallOk(src, r, r.calls[c]);
  }

  /** What the guard needs to know of the receiver. */
  ghost predicate Bounded(r: R.State) {
    r.nextObject !in r.objects && forall c :: c in r.calls ==> c < r.nextCall && r.calls[c].file in r.objects
  }

  lemma ReceiverIsBounded(src: P.Sources, r: R.State)
    requires P.Inv(src, r, P.Nobody)
    ensures Bounded(r)
  {
    P.NextIsNew(src, r);
  }

  lemma ReceiverKeeps(src: P.Sources, r: R.State, w: Guarded, e: Event)
    requires P.Inv(src, r, P.Nobody) && r == w.receiver
    requires Passed(w, e).Some? ==> P.Allowed(src, r, Passed(w, e).value)
    ensures P.Inv(src, Step(w, e).receiver, P.Nobody)
  {
    if Passed(w, e).Some? { P.StepKeeps(src, r, Passed(w, e).value); }
  }

  lemma StoredKeeps(w: Guarded, e: Event)
    requires StoredFirst(w) && Bounded(w.receiver)
    ensures StoredFirst(Step(w, e))
  {
    if Passed(w, e).Some? {
      PassedKeeps(w, e);
    } else {
      AppendKeeps(w, e);
    }
  }

  lemma GuardedKeeps(src: P.Sources, w: Guarded, e: Event)
    requires Inv(src, w) && HonestEvent(src, e) && !HandsOverStale(w, e)
    ensures Inv(src, Step(w, e))
  {
    StepAllowedIff(src, w, e);
    ReceiverIsBounded(src, w.receiver);
    ReceiverKeeps(src, w.receiver, w, e);
    StoredKeeps(w, e);
  }

  lemma AppendKeeps(w: Guarded, e: Event)
    requires StoredFirst(w) && Passed(w, e).None?
    requires forall c :: c in w.receiver.calls ==> c < w.receiver.nextCall
    ensures StoredFirst(Step(w, e))
  {
  }

  /** If no look-up resumes with an outdated answer, every honest guarded run keeps the receiver's
   *  condition: looking again at that moment would make the guard sufficient. */
  lemma {:induction false} CurrentAnswersSuffice(src: P.Sources, w: Guarded, es: seq<Event>)
    requires Inv(src, w) && Honest(src, es) && NeverOutdated(w, es)
    ensures P.RunAllowed(src, w.receiver, Seen(w, es)) && Inv(src, Run(w, es))
    decreases |es|
  {
    if es == [] {
    } else {
      var e, rest := es[0], Seen(Step(w, es[0]), es[1..]);
      assert es == [e] + es[1..];
      SeenCons(w, e, es[1..]);
      assert Honest(src, es[1..]) by { assert forall i :: 0 <= i < |es[1..]| ==> es[1..][i] == es[i + 1]; }
      if HandsOverStale(w, e) { StaleIsOutdated(src, w, e); }
      StepAllowedIff(src, w, e);
      GuardedKeeps(src, w, e);
      CurrentAnswersSuffice(src, Step(w, e), es[1..]);
      if Passed(w, e).Some? { assert ([Passed(w, e).value] + rest)[1..] == rest; }
    }
  }

  lemma BeginsWell(src: P.Sources, inbox: set<FileId>)
    ensures Inv(src, Begin(inbox))
  {
  }

  /** Every run that has never handed over a stale offer keeps the invariant. */
  lemma {:induction false} RunKeeps(src: P.Sources, w: Guarded, es: seq<Event>)
    requires Inv(src, w) && Honest(src, es) && NeverStale(w, es)
    ensures Inv(src, Run(w, es))
    decreases |es|
  {
    if es == [] {
    } else {
      assert Honest(src, es[1..]) by { assert forall i :: 0 <= i < |es[1..]| ==> es[1..][i] == es[i + 1]; }
      NeverStaleCons(w, es);
      GuardedKeeps(src, w, es[0]);
      RunKeeps(src, Step(w, es[0]), es[1..]);
    }
  }

  // ---------------------------------------------------------------------------------------------
  // Resuming one look-up
  // ---------------------------------------------------------------------------------------------

  /** Honest events that hand over no further offer. */
  ghost predicate Continues(src: P.Sources, es: seq<Event>) {
    Honest(src, es) && forall i :: 0 <= i < |es| ==> !es[i].LookResumes?
  }

  lemma {:induction false} SeenContinues(src: P.Sources, w: Guarded, es: seq<Event>)
    requires Continues(src, es)
    ensures P.Continues(src, Seen(w, es))
    decreases |es|
  {
    if es == [] {
    } else {
      assert Continues(src, es[1..]) by { assert forall i :: 0 <= i < |es[1..]| ==> es[1..][i] == es[i + 1]; }
      SeenContinues(src, Step(w, es[0]), es[1..]);
      assert HonestEvent(src, es[0]);
    }
  }

  ghost predicate Resumable(w: Guarded, n: nat) {
    n in w.looks && w.looks[n].Looked? && !w.looks[n].found && w.looks[n].offer.chunks > 0 &&
    w.looks[n].offer.fileId !in w.receiver.files
  }

  /** The transfer that look-up `n` starts is never cut short, whatever the transfers under way do next. */
  ghost predicate SafeToResume(src: P.Sources, w: Guarded, n: nat) {
    forall more :: Continues(src, more) ==> !P.CutShort(Run(Step(w, LookResumes(n)), more).receiver, w.receiver.nextObject)
  }

  lemma ResumeIsSafeIff(src: P.Sources, w: Guarded, n: nat)
    requires Inv(src, w) && Resumable(w, n)
    ensures SafeToResume(src, w, n) <==> P.NoStale(w.receiver, w.looks[n].offer.fileId)
  {
    var o, r := w.looks[n].offer, w.receiver;
    if P.NoStale(r, o.fileId) {
      forall more | Continues(src, more) ensures !P.CutShort(Run(Step(w, LookResumes(n)), more).receiver, r.nextObject) {
        ReceiverRuns(Step(w, LookResumes(n)), more);
        SeenContinues(src, Step(w, LookResumes(n)), more);
        P.SafeReoffer(src, r, o, Seen(Step(w, LookResumes(n)), more));
      }
    } else {
      var more := StaleContinuation(src, w, n);
    }
  }

  /** The exact condition for one offer that gets past the guard: the new transfer can never be cut short,
   *  whatever the transfers under way do next, if and only if no handler of an earlier transfer of that id
   *  is still suspended. */
  lemma ResumingIsSafeIff(src: P.Sources, inbox: set<FileId>, es: seq<Event>, n: nat)
    requires Honest(src, es) && NeverStale(Begin(inbox), es) && Resumable(Run(Begin(inbox), es), n)
    ensures var w := Run(Begin(inbox), es); SafeToResume(src, w, n) <==> P.NoStale(w.receiver, w.looks[n].offer.fileId)
  {
    BeginsWell(src, inbox);
    RunKeeps(src, Begin(inbox), es);
    ResumeIsSafeIff(src, Run(Begin(inbox), es), n);
  }

  /** Every transfer that a look-up of the run starts is safe. */
  ghost predicate AlwaysSafe(src: P.Sources, w: Guarded, es: seq<Event>)
    decreases |es|
  {
    es != [] ==>
      (es[0].LookResumes? && Resumable(w, es[0].look) ==> SafeToResume(src, w, es[0].look)) && AlwaysSafe(src, Step(w, es[0]), es[1..])
  }

  /** Files are not empty. */
  ghost predicate NonEmpty(w: Guarded, es: seq<Event>) {
    (forall n :: n in w.looks ==> w.looks[n].offer.chunks > 0) &&
    forall i :: 0 <= i < |es| && es[i].OfferFrame? ==> es[i].offer.chunks > 0
  }

  lemma NonEmptyStep(w: Guarded, es: seq<Event>)
    requires es != [] && NonEmpty(w, es)
    ensures NonEmpty(Step(w, es[0]), es[1..])
  {
    assert forall i :: 0 <= i < |es[1..]| ==> es[1..][i] == es[i + 1];
  }

  /** In every honest guarded run: no transfer it starts can ever be cut short if and only if never a look-up
   *  answered "not stored" resumes while its id is not registered and a handler of an earlier transfer of that
   *  id is suspended. */
  lemma {:induction false} RunIsSafeIff(src: P.Sources, w: Guarded, es: seq<Event>)
    requires Inv(src, w) && Honest(src, es) && NonEmpty(w, es)
    ensures AlwaysSafe(src, w, es) <==> NeverStale(w, es)
    decreases |es|
  {
    if es == [] {
    } else {
      var e := es[0];
      NeverStaleCons(w, es);
      if e.LookResumes? && Resumable(w, e.look) { ResumeIsSafeIff(src, w, e.look); }
      if !HandsOverStale(w, e) {
        assert Honest(src, es[1..]) by { assert forall i :: 0 <= i < |es[1..]| ==> es[1..][i] == es[i + 1]; }
        NonEmptyStep(w, es);
        GuardedKeeps(src, w, e);
        RunIsSafeIff(src, Step(w, e), es[1..]);
      }
    }
  }

  lemma StaleHandler(src: P.Sources, r: R.State, o: R.Offer) returns (c: R.Call)
    requires P.Inv(src, r, P.Nobody) && o.fileId !in r.files && P.HonestOffer(src, o) && o.chunks > 0 && !P.NoStale(r, o.fileId)
    ensures P.CutShort(R.Run(R.OnOffer(r, o), [R.Created(r.nextCall, []), R.Written(c)]), r.nextObject)
  {
    c :| c in r.calls && (r.calls[c].Flushing? || r.calls[c].Writing?) && r.calls[c].file in r.objects &&
         r.objects[r.calls[c].file].offer.fileId == o.fileId;
    var more := P.UnsafeReoffer(src, r, o, c);
  }

  lemma StaleContinuation(src: P.Sources, w: Guarded, n: nat) returns (more: seq<Event>)
    requires Inv(src, w) && Resumable(w, n) && !P.NoStale(w.receiver, w.looks[n].offer.fileId)
    ensures Continues(src, more)
    ensures P.CutShort(Run(Step(w, LookResumes(n)), more).receiver, w.receiver.nextObject)
  {
    var d := w.receiver.nextCall;
    var c := StaleHandler(src, w.receiver, w.looks[n].offer);
    more := Through(d, c);
    Resumed(w, n);
    ThroughContinues(src, d, c);
    PassesTwo(Step(w, LookResumes(n)), d, c);
  }

  /** The sink is created before any chunk, and an old write returns. */
  function Through(d: R.Call, c: R.Call): seq<Event> {
    [Appends(d), Below(R.Created(d, [])), Below(R.Written(c))]
  }

  lemma ThroughContinues(src: P.Sources, d: R.Call, c: R.Call)
    ensures Continues(src, Through(d, c))
  {
  }

  lemma Resumed(w: Guarded, n: nat)
    requires Resumable(w, n)
    ensures var v := Step(w, LookResumes(n));
            v.receiver == R.OnOffer(w.receiver, w.looks[n].offer) && Creates(v, w.receiver.nextCall)
  {
  }

  lemma ThreeSteps(v: Guarded, a: Event, b: Event, e: Event, v1: Guarded, v2: Guarded, v3: Guarded)
    requires Step(v, a) == v1 && Step(v1, b) == v2 && Step(v2, e) == v3
    ensures Run(v, [a, b, e]) == v3
  {
    SeenCons(v, a, [b, e]);
    SeenCons(v1, b, [e]);
    SeenCons(v2, e, []);
    assert [a] + [b, e] == [a, b, e] && [b] + [e] == [b, e] && [e] + [] == [e];
  }

  /** A transfer's own events reach the receiver. */
  lemma StepBelow(w: Guarded, b: R.Event, r: R.State)
    requires !b.Offered? && (b.Created? ==> b.call in w.appended) && R.Step(w.receiver, b) == r
    ensures Step(w, Below(b)) == w.(receiver := r)
  {
  }

  function Stored(w: Guarded, c: R.Call): Guarded
    requires Creates(w, c)
  {
    w.(inbox := w.inbox + {w.receiver.objects[w.receiver.calls[c].file].offer.fileId}, appended := w.appended + {c})
  }

  lemma PassesTwo(v: Guarded, d: R.Call, c: R.Call)
    requires Creates(v, d)
    ensures Run(v, Through(d, c)).receiver == R.Run(v.receiver, [R.Created(d, []), R.Written(c)])
  {
    var v1 := Stored(v, d);
    var r2 := R.Step(v.receiver, R.Created(d, []));
    var r3 := R.Step(r2, R.Written(c));
    StepBelow(v1, R.Created(d, []), r2);
    StepBelow(v1.(receiver := r2), R.Written(c), r3);
    ThreeSteps(v, Appends(d), Below(R.Created(d, [])), Below(R.Written(c)), v1, v1.(receiver := r2), v1.(receiver := r3));
    P.TwoSteps(v.receiver, R.Created(d, []), R.Written(c));
  }

  // ---------------------------------------------------------------------------------------------
  // The guard can fail
  // ---------------------------------------------------------------------------------------------

  lemma {:induction false} RunJoin(w: Guarded, a: seq<Event>, b: seq<Event>)
    ensures Run(w, a + b) == Run(Run(w, a), b)
    decreases |a|
  {
    if a == [] {
      assert a + b == b;
    } else {
      assert (a + b)[0] == a[0] && (a + b)[1..] == a[1..] + b;
      RunJoin(Step(w, a[0]), a[1..], b);
    }
  }

  lemma Next(w: Guarded, es: seq<Event>, v: Guarded, e: Event, v': Guarded)
    requires Run(w, es) == v && Step(v, e) == v'
    ensures Run(w, es + [e]) == v'
  {
    RunJoin(w, es, [e]);
    assert [e][1..] == [];
    assert Run(v, [e]) == Run(Step(v, e), []);
  }

  /** The first copy's offer handed over, the second's look-up answered "not stored". */
  ghost function BothLookedUp(): Guarded {
    Guarded(R.Step(R.INITIAL, R.Offered(P.ONE_BYTE_OFFER)), {}, map[1 := Looked(P.ONE_BYTE_OFFER, false)], 2, {})
  }

  lemma BothLookUp() returns (es: seq<Event>)
    ensures es == [OfferFrame(P.ONE_BYTE_OFFER), OfferFrame(P.ONE_BYTE_OFFER), StoreAnswers(0), StoreAnswers(1), LookResumes(0)]
    ensures Run(Begin({}), es) == BothLookedUp()
  {
    var o, w := P.ONE_BYTE_OFFER, Begin({});
    var w1 := w.(looks := map[0 := Looking(o)], nextLook := 1);
    Next(w, [], w, OfferFrame(o), w1);
    var w2 := w.(looks := map[0 := Looking(o), 1 := Looking(o)], nextLook := 2);
    Next(w, [] + [OfferFrame(o)], w1, OfferFrame(o), w2);
    var w3 := w2.(looks := map[0 := Looked(o, false), 1 := Looking(o)]);
    es := [] + [OfferFrame(o)] + [OfferFrame(o)];
    Next(w, es, w2, StoreAnswers(0), w3);
    var w4 := w2.(looks := map[0 := Looked(o, false), 1 := Looked(o, false)]);
    es := es + [StoreAnswers(0)];
    Next(w, es, w3, StoreAnswers(1), w4);
    es := es + [StoreAnswers(1)];
    assert map[0 := Looked(o, false), 1 := Looked(o, false)] - {0} == map[1 := Looked(o, false)];
    Next(w, es, w4, LookResumes(0), BothLookedUp());
    es := es + [LookResumes(0)];
  }

  /** The first transfer is complete; a write of its repeated chunk is suspended. */
  ghost function FirstComplete(): Guarded {
    BothLookedUp().(receiver := R.Step(P.TwoCopies(), R.Written(1)), inbox := {"f"}, appended := {0})
  }

  lemma FirstCompletes() returns (es: seq<Event>)
    ensures es == [Appends(0), Below(R.Created(0, [])), Below(R.Chunk("f", 0, [7])), Below(R.Chunk("f", 0, [7])), Below(R.Written(1))]
    ensures Run(BothLookedUp(), es) == FirstComplete()
  {
    var w := BothLookedUp();
    var v := w.(inbox := {"f"}, appended := {0});
    FirstIsStored();
    Next(w, [], w, Appends(0), v);
    P.TwoCopiesReached();
    var c, k := R.Created(0, []), R.Chunk("f", 0, [7]);
    var r1 := R.Step(v.receiver, c);
    var r2 := R.Step(r1, k);
    var r3 := P.TwoCopies();
    var r4 := R.Step(r3, R.Written(1));
    StepBelow(v, c, r1);
    StepBelow(v.(receiver := r1), k, r2);
    StepBelow(v.(receiver := r2), k, r3);
    StepBelow(v.(receiver := r3), R.Written(1), r4);
    es := [] + [Appends(0)];
    Next(w, es, v, Below(c), v.(receiver := r1));
    es := es + [Below(c)];
    Next(w, es, v.(receiver := r1), Below(k), v.(receiver := r2));
    es := es + [Below(k)];
    Next(w, es, v.(receiver := r2), Below(k), v.(receiver := r3));
    es := es + [Below(k)];
    Next(w, es, v.(receiver := r3), Below(R.Written(1)), v.(receiver := r4));
    es := es + [Below(R.Written(1))];
  }

  lemma FirstIsStored()
    ensures Step(BothLookedUp(), Appends(0)) == BothLookedUp().(inbox := {"f"}, appended := {0})
  {
    var w := BothLookedUp();
    assert Creates(w, 0) && w.receiver.objects[0].offer.fileId == "f";
    assert {} + {"f"} == {"f"} && {} + {0 as R.Call} == {0};
  }

  /** The second copy's offer is accepted, and its message stored. */
  lemma SecondIsAccepted() returns (es: seq<Event>, v: Guarded)
    ensures es == [LookResumes(1), Appends(3)] && Run(FirstComplete(), es) == v && 3 in v.appended
    ensures v.receiver == R.Step(R.Step(P.TwoCopies(), R.Written(1)), R.Offered(P.ONE_BYTE_OFFER))
  {
    var o, w := P.ONE_BYTE_OFFER, FirstComplete();
    var r := R.Step(w.receiver, R.Offered(o));
    var w1 := w.(receiver := r, looks := map[]);
    assert map[1 := Looked(o, false)] - {1} == map[];
    Next(w, [], w, LookResumes(1), w1);
    P.FirstCopyCompletes();
    assert Creates(w1, 3);
    v := Stored(w1, 3);
    es := [] + [LookResumes(1)];
    Next(w, es, w1, Appends(3), v);
    es := es + [Appends(3)];
  }

  lemma SecondIsCutShort() returns (es: seq<Event>)
    ensures es == [LookResumes(1), Appends(3)] + [Below(R.Created(3, []))] + [Below(R.Written(2))]
    ensures P.CutShort(Run(FirstComplete(), es).receiver, 1)
  {
    var v, w := FirstComplete(), FirstComplete();
    es, v := SecondIsAccepted();
    var r3 := R.Step(v.receiver, R.Created(3, []));
    var r4 := R.Step(r3, R.Written(2));
    StepBelow(v, R.Created(3, []), r3);
    StepBelow(v.(receiver := r3), R.Written(2), r4);
    Next(w, es, v, Below(R.Created(3, [])), v.(receiver := r3));
    es := es + [Below(R.Created(3, []))];
    Next(w, es, v.(receiver := r3), Below(R.Written(2)), v.(receiver := r4));
    es := es + [Below(R.Written(2))];
    P.ReofferedTooEarly();
  }

  /** Two copies of one offer are looked up before the first has stored its message. The first transfer
   *  completes while a repeated chunk is still being written; then the second copy's look-up resumes, the
   *  offer is accepted again, and the old write completes the new transfer, which holds nothing. */
  lemma GuardCanFail() returns (es: seq<Event>)
    ensures es == [OfferFrame(P.ONE_BYTE_OFFER), OfferFrame(P.ONE_BYTE_OFFER), StoreAnswers(0), StoreAnswers(1), LookResumes(0)] +
                  [Appends(0), Below(R.Created(0, [])), Below(R.Chunk("f", 0, [7])), Below(R.Chunk("f", 0, [7])), Below(R.Written(1))] +
                  ([LookResumes(1), Appends(3)] + [Below(R.Created(3, []))] + [Below(R.Written(2))])
    ensures P.CutShort(Run(Begin({}), es).receiver, 1)
  {
    var a := BothLookUp();
    var b := FirstCompletes();
    var c := SecondIsCutShort();
    RunJoin(Begin({}), a, b);
    RunJoin(Begin({}), a + b, c);
    es := a + b + c;
  }
}
