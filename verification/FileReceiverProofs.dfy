/** What FileReceiver guarantees to an honest sender, and exactly when. */
module FileReceiverProofs {
  import opened Common
  import opened Chunks
  import opened FileReceiver

  /** The file a sender offers under an id, and the chunk size it uses. */
  datatype Source = Source(bytes: seq<byte>, chunkSize: nat)

  type Sources = map<FileId, Source>

  ghost predicate HonestOffer(src: Sources, o: Offer) {
    && o.fileId in src
    && var f := src[o.fileId];
      f.chunkSize > 0
      && o == Offer(o.fileId, |f.bytes|, f.chunkSize, ChunkCount(|f.bytes|, f.chunkSize), Sha(f.bytes))
  }

  ghost predicate HonestData(src: Sources, id: FileId, i: int, data: seq<byte>) {
    id in src && src[id].chunkSize > 0 && 0 <= i < ChunkCount(|src[id].bytes|, src[id].chunkSize)
    ==> data == Slice(src[id].bytes, src[id].chunkSize, i)
  }

  /** No handler of an earlier file object of this id is still suspended. */
  ghost predicate NoStale(s: State, id: FileId) {
    forall c :: c in s.calls && (s.calls[c].Flushing? || s.calls[c].Writing?) && s.calls[c].file in s.objects
      ==> s.objects[s.calls[c].file].offer.fileId != id
  }

  /** The sender's frames carry its files, nothing is aborted, and a file id is offered anew only when no
   *  handler of its earlier transfer is still suspended. */
  ghost predicate Allowed(src: Sources, s: State, e: Event) {
    match e
    case Offered(o) => HonestOffer(src, o) && (o.fileId in s.files || NoStale(s, o.fileId))
    case Chunk(id, i, data) => HonestData(src, id, i, data)
    case Abort(_) => false
    case SinkAborted(_) => false
    case _ => true
  }

  ghost predicate RunAllowed(src: Sources, s: State, es: seq<Event>)
    decreases |es|
  {
    es == [] || (Allowed(src, s, es[0]) && RunAllowed(src, Step(s, es[0]), es[1..]))
  }

  // ---------------------------------------------------------------------------------------------
  // Invariant
  // ---------------------------------------------------------------------------------------------

  ghost predicate All(f: File) {
    forall i: nat :: i < f.offer.chunks ==> i in f.received
  }

  ghost predicate FileOk(src: Sources, f: File) {
    && HonestOffer(src, f.offer)
    && var b, cs := src[f.offer.fileId].bytes, f.offer.chunkSize;
      Holds(f.parts, b, cs, f.issued)
      && f.total == Volume(|b|, cs, f.offer.chunks, f.issued)
      && f.received <= f.issued
      && (forall i :: i in f.handled ==> i < f.offer.chunks)
      && (forall i :: i in f.buffer ==> i < f.offer.chunks && f.buffer[i] == Slice(b, cs, i))
      && !f.late
      && (!f.ready ==> f.issued == {})
      && (f.finalized ==> f.ready && All(f))
      && (f.outcomes == [] || (f.ready && f.finalized && f.outcomes == [Completed(Sha(b))])
          || (!f.ready && f.outcomes == [Aborted]))
  }

  ghost predicate DataOk(src: Sources, o: Offer, i: nat, data: seq<byte>) {
    HonestOffer(src, o) && i < o.chunks && data == Slice(src[o.fileId].bytes, o.chunkSize, i)
  }

  ghost predicate EntriesOk(src: Sources, o: Offer, entries: seq<Entry>) {
    forall e :: e in entries ==> DataOk(src, o, e.0, e.1)
  }

  predicate Registered(s: State, g: Object) {
    g in s.objects && s.objects[g].offer.fileId in s.files && s.files[s.objects[g].offer.fileId] == g
  }

  /** The object is the registered one, or it is complete and nothing is registered in its place. */
  predicate Current(s: State, g: Object) {
    g in s.objects && (Registered(s, g) || (s.objects[g].finalized && s.objects[g].offer.fileId !in s.files))
  }

  ghost predicate CallOk(src: Sources, s: State, a: Await) {
    && a.file in s.objects
    && var f := s.objects[a.file];
      match a
      case Creating(g) => !f.ready && Registered(s, g)
      case Flushing(g, i, data, rest) =>
        f.ready && Current(s, g) && i in f.issued && DataOk(src, f.offer, i, data) && EntriesOk(src, f.offer, rest)
      case Writing(g, i, data) => f.ready && Current(s, g) && i in f.issued && DataOk(src, f.offer, i, data)
      case Finalizing(g, parts, total) => f.ready && f.finalized && f.outcomes == [] && parts == f.parts && total == f.total
      case SinkAborting(_) => false
  }

  /** The handler that is running right now, with what is left of its flush loop. */
  datatype Running = Nobody | Runs(file: Object, entries: seq<Entry>)

  predicate Has(a: Await, g: Object, i: nat) {
    match a
    case Flushing(h, j, _, rest) => h == g && (i == j || exists e :: e in rest && e.0 == i)
    case Writing(h, j, _) => h == g && i == j
    case _ => false
  }

  /** A chunk taken in is received, or buffered, or in the hands of a handler. */
  ghost predicate Held(s: State, run: Running, g: Object, i: nat)
    requires g in s.objects
  {
    || i in s.objects[g].received
    || (!s.objects[g].ready && i in s.objects[g].buffer)
    || (run.Runs? && run.file == g && exists e :: e in run.entries && e.0 == i)
    || exists c :: c in s.calls && Has(s.calls[c], g, i)
  }

  ghost predicate Creates(s: State, g: Object) {
    exists c :: c in s.calls && s.calls[c] == Creating(g)
  }

  ghost predicate Flushes(s: State, g: Object) {
    exists c :: c in s.calls && s.calls[c].Flushing? && s.calls[c].file == g
  }

  ghost predicate Finalizes(s: State, g: Object) {
    exists c :: c in s.calls && s.calls[c].Finalizing? && s.calls[c].file == g
  }

  ghost predicate ObjectOk(src: Sources, s: State, run: Running, g: Object)
    requires g in s.objects
  {
    var f := s.objects[g];
    && g < s.nextObject
    && FileOk(src, f)
    && (Registered(s, g) || f.finalized || f.outcomes == [Aborted])
    && (Registered(s, g) ==> !f.finalized && f.outcomes == [])
    && (Registered(s, g) && !f.ready ==> Creates(s, g))
    && (Registered(s, g) && f.ready && Full(f) ==> Flushes(s, g) || (run.Runs? && run.file == g))
    && (f.finalized && f.outcomes == [] ==> Finalizes(s, g))
    && (f.outcomes != [Aborted] ==> forall i :: i in f.handled ==> Held(s, run, g, i))
  }

  ghost predicate Tables(s: State) {
    && (forall id :: id in s.files ==> s.files[id] in s.objects && s.objects[s.files[id]].offer.fileId == id)
    && (forall c :: c in s.calls ==> c < s.nextCall)
    && (forall c, d :: c in s.calls && d in s.calls && c != d && s.calls[c].file == s.calls[d].file
          ==> !(s.calls[c].Creating? && s.calls[d].Creating?) && !(s.calls[c].Finalizing? && s.calls[d].Finalizing?))
  }

  ghost predicate RunOk(src: Sources, s: State, run: Running) {
    run.Runs? ==>
      && Current(s, run.file) && s.objects[run.file].ready
      && EntriesOk(src, s.objects[run.file].offer, run.entries)
  }

  ghost predicate Inv(src: Sources, s: State, run: Running) {
    && Tables(s)
    && (forall g :: g in s.objects ==> ObjectOk(src, s, run, g))
    && (forall c :: c in s.calls ==> CallOk(src, s, s.calls[c]))
    && RunOk(src, s, run)
  }

  // ---------------------------------------------------------------------------------------------
  // Files on their own
  // ---------------------------------------------------------------------------------------------

  lemma IssueOk(src: Sources, f: File, i: nat, data: seq<byte>)
    requires FileOk(src, f) && f.ready && !f.finalized && DataOk(src, f.offer, i, data)
    ensures FileOk(src, Issue(f, i, data))
  {
    var b, cs := src[f.offer.fileId].bytes, f.offer.chunkSize;
    HoldsMore(f.parts, b, cs, f.issued, i);
    if i !in f.issued { VolumeAdds(|b|, cs, f.offer.chunks, f.issued, i); } else { assert f.issued + {i} == f.issued; }
    InRange(|b|, cs, i);
  }

  lemma ReceiveOk(src: Sources, f: File, i: nat, data: seq<byte>)
    requires FileOk(src, f) && i in f.issued
    ensures FileOk(src, Receive(f, i, data))
    ensures Full(f) ==> Full(Receive(f, i, data))
  {
    CountFull(src, f);
    if Full(f) { assert f.received + {i} == f.received; }
  }

  /** Counting chunks and having every chunk come to the same. */
  lemma CountFull(src: Sources, f: File)
    requires FileOk(src, f)
    ensures Full(f) <==> All(f)
    ensures forall i :: i in f.issued ==> i < f.offer.chunks
  {
    FullByCount(f.received, f.offer.chunks);
  }

  /** What finalize finds: every slice of the file at its offset, so its answer is the file. */
  lemma FinalizeOk(src: Sources, f: File, out: Option<seq<byte>>)
    requires FileOk(src, f) && f.finalized && MayReturn(f.parts, f.total, out)
    ensures out == Some(src[f.offer.fileId].bytes)
  {
    var b, cs := src[f.offer.fileId].bytes, f.offer.chunkSize;
    VolumeOfPrefix(|b|, cs, f.offer.chunks, f.issued);
    PartsFit(f.parts, b, cs, f.issued);
    Reassembly(f.parts, b, cs, f.issued, out.value);
  }

  // ---------------------------------------------------------------------------------------------
  // Steps keep the invariant
  // ---------------------------------------------------------------------------------------------

  /** `s'` differs from `s` only in object `g` and its calls. */
  ghost predicate OnlyTouches(s: State, s': State, g: Object) {
    && s'.nextObject >= s.nextObject
    && (forall h :: h in s.objects && h != g ==>
          h in s'.objects && s'.objects[h] == s.objects[h] && (Registered(s', h) <==> Registered(s, h)))
    && (forall c :: c in s.calls && s.calls[c].file != g ==> c in s'.calls && s'.calls[c] == s.calls[c])
    && (forall c :: c in s'.calls && s'.calls[c].file != g ==> c in s.calls && s'.calls[c] == s.calls[c])
  }

  lemma OtherObjects(src: Sources, s: State, run: Running, s': State, run': Running, g: Object, h: Object)
    requires OnlyTouches(s, s', g) && h in s.objects && h != g && ObjectOk(src, s, run, h)
    requires run.Runs? ==> run.file == g
    ensures ObjectOk(src, s', run', h)
  {
    if Creates(s, h) {
      var c :| c in s.calls && s.calls[c] == Creating(h);
      assert s'.calls[c] == Creating(h);
    }
    if Flushes(s, h) {
      var c :| c in s.calls && s.calls[c].Flushing? && s.calls[c].file == h;
      assert s'.calls[c] == s.calls[c];
    }
    if Finalizes(s, h) {
      var c :| c in s.calls && s.calls[c].Finalizing? && s.calls[c].file == h;
      assert s'.calls[c] == s.calls[c];
    }
    forall i | i in s.objects[h].handled && s.objects[h].outcomes != [Aborted] ensures Held(s', run', h, i) {
      assert Held(s, run, h, i);
      if c :| c in s.calls && Has(s.calls[c], h, i) { assert s'.calls[c] == s.calls[c]; }
    }
  }

  /** Nothing but `g` and its calls has changed, and those are as they should be. */
  ghost predicate Framed(src: Sources, s: State, s': State, g: Object) {
    OnlyTouches(s, s', g) && Tables(s') && (forall h :: h != g && Current(s, h) ==> Current(s', h)) &&
    forall c :: c in s'.calls && s'.calls[c].file == g ==> CallOk(src, s', s'.calls[c])
  }

  /** Assembles the invariant of `s'` from what concerns object `g`. */
  lemma Assemble(src: Sources, s: State, run: Running, s': State, run': Running, g: Object)
    requires Inv(src, s, run) && (run.Runs? ==> run.file == g) && (run'.Runs? ==> run'.file == g)
    requires Framed(src, s, s', g) && g in s.objects && s'.objects.Keys == s.objects.Keys
    requires ObjectOk(src, s', run', g) && RunOk(src, s', run')
    ensures Inv(src, s', run')
  {
    forall h | h in s'.objects ensures ObjectOk(src, s', run', h) {
      if h != g { OtherObjects(src, s, run, s', run', g, h); }
    }
    AssembleCalls(src, s, s', g);
  }

  lemma AssembleCalls(src: Sources, s: State, s': State, g: Object)
    requires Framed(src, s, s', g) && forall c :: c in s.calls ==> CallOk(src, s, s.calls[c])
    ensures forall c :: c in s'.calls ==> CallOk(src, s', s'.calls[c])
  {
    forall c | c in s'.calls ensures CallOk(src, s', s'.calls[c]) {
      if s'.calls[c].file != g { assert CallOk(src, s, s.calls[c]); }
    }
  }

  /** A handler of `g` ends and leaves the registrations alone. */
  lemma EndTouches(s: State, s': State, g: Object, c: Call)
    requires Tables(s) && g in s.objects && c in s.calls && s.calls[c].file == g
    requires g in s'.objects && s' == s.(objects := s.objects[g := s'.objects[g]], calls := s.calls - {c})
    requires s'.objects[g].offer == s.objects[g].offer
    ensures OnlyTouches(s, s', g) && Tables(s')
    ensures forall h :: h != g && Current(s, h) ==> Current(s', h)
    ensures Registered(s', g) <==> Registered(s, g)
    ensures forall d :: d in s'.calls ==> d in s.calls && s'.calls[d] == s.calls[d]
  {
  }

  /** Calls other than `c` stay. */
  lemma OthersStay(s: State, s': State, g: Object, c: Call)
    requires c in s.calls && s'.calls == s.calls - {c}
    ensures Creates(s, g) && !s.calls[c].Creating? ==> Creates(s', g)
    ensures Flushes(s, g) && !s.calls[c].Flushing? ==> Flushes(s', g)
    ensures Finalizes(s, g) && !s.calls[c].Finalizing? ==> Finalizes(s', g)
  {
    assert forall d :: d in s.calls && d != c ==> d in s'.calls && s'.calls[d] == s.calls[d];
  }

  lemma ReceiveObject(src: Sources, s: State, c: Call, rest: seq<Entry>, s': State)
    requires c in s.calls && (s.calls[c].Flushing? || s.calls[c].Writing?)
    requires rest == if s.calls[c].Flushing? then s.calls[c].rest else []
    requires var a := s.calls[c];
             && a.file in s.objects && ObjectOk(src, s, Nobody, a.file) && CallOk(src, s, a)
             && s' == Finish(Put(s, a.file, Receive(s.objects[a.file], a.i, a.data)), c)
    ensures ObjectOk(src, s', Runs(s.calls[c].file, rest), s.calls[c].file)
    ensures RunOk(src, s', Runs(s.calls[c].file, rest))
  {
    var a := s.calls[c];
    var g, f := a.file, s.objects[a.file];
    ReceiveOk(src, f, a.i, a.data);
    OthersStay(s, s', g, c);
    forall i | i in f.handled ensures Held(s', Runs(g, rest), g, i) {
      assert Held(s, Nobody, g, i);
      if d :| d in s.calls && Has(s.calls[d], g, i) {
        if d != c { assert s'.calls[d] == s.calls[d]; }
      }
    }
  }

  /** An awaited write is over: its chunk is received, and the handler runs on. */
  lemma ReceiveKeeps(src: Sources, s: State, c: Call)
    requires Inv(src, s, Nobody) && c in s.calls && (s.calls[c].Flushing? || s.calls[c].Writing?)
    ensures var a := s.calls[c];
            var rest := if a.Flushing? then a.rest else [];
            a.file in s.objects
            && Inv(src, Finish(Put(s, a.file, Receive(s.objects[a.file], a.i, a.data)), c), Runs(a.file, rest))
  {
    var a := s.calls[c];
    assert CallOk(src, s, a);
    var g, f := a.file, s.objects[a.file];
    var rest := if a.Flushing? then a.rest else [];
    var s' := Finish(Put(s, g, Receive(f, a.i, a.data)), c);
    ReceiveObject(src, s, c, rest, s');
    EndKeeps(src, s, s', Runs(g, rest), g, c);
  }

  /** A handler of `g` ends, its object otherwise as before, and what concerns `g` is shown. */
  lemma EndKeeps(src: Sources, s: State, s': State, run: Running, g: Object, c: Call)
    requires Inv(src, s, Nobody) && g in s.objects && c in s.calls && s.calls[c].file == g && run.Runs? && run.file == g
    requires g in s'.objects && s' == s.(objects := s.objects[g := s'.objects[g]], calls := s.calls - {c})
    requires SameForCalls(s.objects[g], s'.objects[g])
    requires ObjectOk(src, s', run, g) && RunOk(src, s', run)
    ensures Inv(src, s', run)
  {
    EndTouches(s, s', g, c);
    EndCalls(src, s, s', g);
    Assemble(src, s, Nobody, s', run, g);
  }

  /** What a suspended handler relies on in its object. */
  predicate SameForCalls(f: File, f': File) {
    f'.ready == f.ready && f.issued <= f'.issued && f'.offer == f.offer && f'.outcomes == f.outcomes &&
    f'.finalized == f.finalized && f'.parts == f.parts && f'.total == f.total
  }

  lemma EndCalls(src: Sources, s: State, s': State, g: Object)
    requires forall d :: d in s.calls ==> CallOk(src, s, s.calls[d])
    requires forall d :: d in s'.calls ==> d in s.calls && s'.calls[d] == s.calls[d]
    requires g in s.objects && g in s'.objects && FileOk(src, s'.objects[g]) && SameForCalls(s.objects[g], s'.objects[g])
    requires s'.files == s.files
    ensures forall d :: d in s'.calls && s'.calls[d].file == g ==> CallOk(src, s', s'.calls[d])
  {
    CallsStay(src, s, s', g);
  }

  /** A parked call does not mind its object changing in these ways. */
  lemma CallStays(src: Sources, s: State, s': State, a: Await)
    requires CallOk(src, s, a) && a.file in s'.objects && FileOk(src, s'.objects[a.file])
    requires var f, f' := s.objects[a.file], s'.objects[a.file];
             && f'.ready == f.ready && f.issued <= f'.issued && f'.offer == f.offer && f'.outcomes == f.outcomes
             && (f.finalized ==> f'.finalized && f'.parts == f.parts && f'.total == f.total)
    requires Registered(s, a.file) ==> Registered(s', a.file)
    requires Current(s, a.file) ==> Current(s', a.file)
    ensures CallOk(src, s', a)
  {
  }

  /** Until the sink is there, onOffer is the only handler of its object. */
  lemma CreatingIsAlone(src: Sources, s: State, c: Call, d: Call)
    requires Tables(s) && c in s.calls && d in s.calls && c != d && s.calls[c].Creating?
    requires CallOk(src, s, s.calls[c]) && CallOk(src, s, s.calls[d])
    ensures s.calls[d].file != s.calls[c].file
  {
  }

  lemma CallsStay(src: Sources, s: State, s': State, g: Object)
    requires forall d :: d in s.calls ==> CallOk(src, s, s.calls[d])
    requires forall d :: d in s'.calls ==> d in s.calls && s'.calls[d] == s.calls[d]
    requires g in s.objects && g in s'.objects && FileOk(src, s'.objects[g])
    requires var f, f' := s.objects[g], s'.objects[g];
             && f'.ready == f.ready && f.issued <= f'.issued && f'.offer == f.offer && f'.outcomes == f.outcomes
             && f'.finalized == f.finalized && f'.parts == f.parts && f'.total == f.total
    requires Registered(s, g) ==> Registered(s', g)
    requires Current(s, g) ==> Current(s', g)
    ensures forall d :: d in s'.calls && s'.calls[d].file == g ==> CallOk(src, s', s'.calls[d])
  {
    forall d | d in s'.calls && s'.calls[d].file == g ensures CallOk(src, s', s'.calls[d]) {
      CallStays(src, s, s', s.calls[d]);
    }
  }

  lemma CreatedObject(src: Sources, s: State, c: Call, g: Object, entries: seq<Entry>, s': State)
    requires c in s.calls && s.calls[c] == Creating(g) && g in s.objects
    requires ObjectOk(src, s, Nobody, g) && CallOk(src, s, s.calls[c])
    requires IsSorted(s.objects[g].buffer, entries)
    requires s' == Finish(Put(s, g, s.objects[g].(ready := true)), c)
    ensures ObjectOk(src, s', Runs(g, entries), g) && RunOk(src, s', Runs(g, entries))
  {
    var f := s.objects[g];
    forall i | i in f.handled ensures Held(s', Runs(g, entries), g, i) {
      assert Held(s, Nobody, g, i);
      if i in f.buffer { assert (i, f.buffer[i]) in entries; }
      if d :| d in s.calls && Has(s.calls[d], g, i) {
        assert d != c && s'.calls[d] == s.calls[d];
      }
    }
  }

  /** The sink is there: the buffered chunks pass to the flush loop in one step, and later chunks go
   *  straight to the sink. */
  lemma CreatedKeeps(src: Sources, s: State, c: Call, entries: seq<Entry>)
    requires Inv(src, s, Nobody) && c in s.calls && s.calls[c].Creating?
    requires s.calls[c].file in s.objects && IsSorted(s.objects[s.calls[c].file].buffer, entries)
    ensures var g := s.calls[c].file;
            Inv(src, Finish(Put(s, g, s.objects[g].(ready := true)), c), Runs(g, entries))
  {
    var g := s.calls[c].file;
    var s' := Finish(Put(s, g, s.objects[g].(ready := true)), c);
    assert CallOk(src, s, s.calls[c]);
    CreatedObject(src, s, c, g, entries, s');
    EndTouches(s, s', g, c);
    forall d | d in s.calls && d != c ensures s.calls[d].file != g { CreatingIsAlone(src, s, c, d); }
    Assemble(src, s, Nobody, s', Runs(g, entries), g);
  }

  lemma PutTouches(s: State, g: Object, f': File)
    requires Tables(s) && g in s.objects && f'.offer == s.objects[g].offer
    ensures var s' := Put(s, g, f');
            && OnlyTouches(s, s', g) && Tables(s') && (Registered(s', g) <==> Registered(s, g))
            && (f'.finalized == s.objects[g].finalized ==> (Current(s', g) <==> Current(s, g)))
            && forall h :: h != g && Current(s, h) ==> Current(s', h)
  {
  }

  /** A handler of `g` goes on waiting at `a`. */
  lemma ParkTouches(s: State, s': State, g: Object, c: Call, a: Await)
    requires Tables(s) && g in s.objects && c !in s.calls && c < s'.nextCall && a.file == g
    requires !a.Creating? && !(a.Finalizing? && Finalizes(s, g))
    requires g in s'.objects && s'.objects == s.objects[g := s'.objects[g]] && s'.calls == s.calls[c := a]
    requires s'.nextObject == s.nextObject && s'.nextCall >= s.nextCall
    requires s'.files == s.files || (Registered(s, g) && s'.files == s.files - {s.objects[g].offer.fileId})
    requires s'.objects[g].offer == s.objects[g].offer
    ensures OnlyTouches(s, s', g) && Tables(s')
    ensures forall h :: h != g && Current(s, h) ==> Current(s', h)
    ensures s'.files == s.files ==> (Registered(s', g) <==> Registered(s, g))
    ensures s'.files != s.files ==> !Registered(s', g) && s.objects[g].offer.fileId !in s'.files
  {
    forall d, e | d in s'.calls && e in s'.calls && d != e && s'.calls[d].file == s'.calls[e].file
      ensures !(s'.calls[d].Creating? && s'.calls[e].Creating?) && !(s'.calls[d].Finalizing? && s'.calls[e].Finalizing?)
    {
      if d == c { assert s'.calls[e] == s.calls[e]; } else if e == c { assert s'.calls[d] == s.calls[d]; }
    }
  }

  /** onOffer gives up: the entry goes, and with it the only handler. */
  lemma RejectTouches(s: State, s': State, g: Object, c: Call)
    requires Tables(s) && Registered(s, g) && c in s.calls && s.calls[c].file == g
    requires forall d :: d in s.calls && d != c ==> s.calls[d].file != g
    requires g in s'.objects && s'.objects[g].offer == s.objects[g].offer
    requires s' == s.(files := s.files - {s.objects[g].offer.fileId}, objects := s.objects[g := s'.objects[g]],
                      calls := s.calls - {c})
    ensures OnlyTouches(s, s', g) && Tables(s')
    ensures forall h :: h != g && Current(s, h) ==> Current(s', h)
    ensures !Registered(s', g) && forall d :: d in s'.calls ==> s'.calls[d].file != g
  {
  }

  /** The object after handing entry `i` to the sink; the rest of the loop goes to the parked handler. */
  lemma IssueObject(src: Sources, s: State, run: Running, g: Object, c: Call, a: Await, s': State)
    requires g in s.objects && ObjectOk(src, s, run, g) && RunOk(src, s, run) && (run.Runs? ==> run.file == g)
    requires s.objects[g].ready && !s.objects[g].finalized && Registered(s, g) && c !in s.calls
    requires a.file == g && (a.Flushing? || a.Writing?) && DataOk(src, s.objects[g].offer, a.i, a.data)
    requires run.Runs? ==> a.Flushing? && a.i !in s.objects[g].received
                           && forall e :: e in run.entries ==> e.0 == a.i || e in a.rest
    requires run == Nobody ==> a.Writing?
    requires g in s'.objects && s'.calls == s.calls[c := a] && s'.nextObject == s.nextObject && Registered(s', g)
    requires var f, f' := s.objects[g], s'.objects[g];
             f' == Issue(f, a.i, a.data).(handled := f'.handled) && f'.handled <= f.handled + {a.i}
    ensures ObjectOk(src, s', Nobody, g)
  {
    var f := s.objects[g];
    var f' := s'.objects[g];
    IssueOk(src, f, a.i, a.data);
    CountFull(src, f);
    forall d | d in s.calls ensures d in s'.calls && s'.calls[d] == s.calls[d] { }
    assert s'.calls[c] == a;
    forall i | i in f'.handled ensures Held(s', Nobody, g, i) {
      if i == a.i {
        assert Has(s'.calls[c], g, i);
      } else {
        assert Held(s, run, g, i);
        if run.Runs? && exists e :: e in run.entries && e.0 == i { assert Has(s'.calls[c], g, i); }
      }
    }
    if Full(f') && run == Nobody { assert Flushes(s, g); }
  }

  /** Handler `c` of `g` hands an entry to the sink and waits at `a`. */
  ghost predicate Issues(src: Sources, s: State, run: Running, g: Object, c: Call, a: Await, s': State) {
    && (run.Runs? ==> run.file == g) && Registered(s, g) && c !in s.calls
    && s.objects[g].ready && a.file == g && (a.Flushing? || a.Writing?) && DataOk(src, s.objects[g].offer, a.i, a.data)
    && (a.Flushing? ==> EntriesOk(src, s.objects[g].offer, a.rest))
    && (run.Runs? ==> a.Flushing? && a.i !in s.objects[g].received && forall e :: e in run.entries ==> e.0 == a.i || e in a.rest)
    && (run == Nobody ==> a.Writing?)
    && g in s'.objects && s'.objects == s.objects[g := s'.objects[g]] && s'.calls == s.calls[c := a]
    && s'.files == s.files && s'.nextObject == s.nextObject && c < s'.nextCall && s.nextCall <= s'.nextCall
    && s'.objects[g] == Issue(s.objects[g], a.i, a.data).(handled := s'.objects[g].handled)
    && s'.objects[g].handled <= s.objects[g].handled + {a.i}
  }

  lemma IssueKeeps(src: Sources, s: State, run: Running, g: Object, c: Call, a: Await, s': State)
    requires Inv(src, s, run) && Issues(src, s, run, g, c, a, s')
    ensures Inv(src, s', Nobody)
  {
    assert ObjectOk(src, s, run, g);
    IssueFrame(src, s, run, g, c, a, s');
    Assemble(src, s, run, s', Nobody, g);
  }

  /** What concerns `g` after a write is issued; the other objects are not looked at. */
  lemma IssueFrame(src: Sources, s: State, run: Running, g: Object, c: Call, a: Await, s': State)
    requires Tables(s) && Issues(src, s, run, g, c, a, s')
    requires ObjectOk(src, s, run, g) && RunOk(src, s, run) && forall d :: d in s.calls ==> CallOk(src, s, s.calls[d])
    ensures Framed(src, s, s', g) && ObjectOk(src, s', Nobody, g) && RunOk(src, s', Nobody)
    ensures g in s.objects && s'.objects.Keys == s.objects.Keys
  {
    ParkTouches(s, s', g, c, a);
    IssueObject(src, s, run, g, c, a, s');
    IssueCalls(src, s, g, c, a, s');
  }

  lemma IssueCalls(src: Sources, s: State, g: Object, c: Call, a: Await, s': State)
    requires forall d :: d in s.calls ==> CallOk(src, s, s.calls[d])
    requires Registered(s, g) && Registered(s', g) && c !in s.calls && s'.calls == s.calls[c := a]
    requires s.objects[g].ready && !s.objects[g].finalized && a.file == g && (a.Flushing? || a.Writing?)
    requires DataOk(src, s.objects[g].offer, a.i, a.data) && (a.Flushing? ==> EntriesOk(src, s.objects[g].offer, a.rest))
    requires FileOk(src, s'.objects[g])
    requires var f, f' := s.objects[g], s'.objects[g]; f' == Issue(f, a.i, a.data).(handled := f'.handled)
    ensures forall d :: d in s'.calls && s'.calls[d].file == g ==> CallOk(src, s', s'.calls[d])
  {
    forall d | d in s'.calls && s'.calls[d].file == g ensures CallOk(src, s', s'.calls[d]) {
      if d != c { CallStays(src, s, s', s.calls[d]); }
    }
  }

  /** complete() on the object whose chunks were just counted. */
  lemma FinalizeKeeps(src: Sources, s: State, g: Object, c: Call, nextCall: Call)
    requires Inv(src, s, Runs(g, [])) && Registered(s, g) && Full(s.objects[g])
    requires c !in s.calls && c < nextCall && s.nextCall <= nextCall
    ensures var f := s.objects[g];
            var s' := s.(files := s.files - {f.offer.fileId}, objects := s.objects[g := f.(finalized := true)],
                         calls := s.calls[c := Finalizing(g, f.parts, f.total)], nextCall := nextCall);
            Inv(src, s', Nobody)
  {
    var f := s.objects[g];
    var a := Finalizing(g, f.parts, f.total);
    var s' := s.(files := s.files - {f.offer.fileId}, objects := s.objects[g := f.(finalized := true)],
                 calls := s.calls[c := a], nextCall := nextCall);
    NoneFinalizing(src, s, g);
    FinalizeFrame(src, s, g, c, s');
    Assemble(src, s, Runs(g, []), s', Nobody, g);
  }

  /** What concerns `g` after it is finalized; the other objects are not looked at. */
  lemma FinalizeFrame(src: Sources, s: State, g: Object, c: Call, s': State)
    requires Tables(s) && Registered(s, g) && Full(s.objects[g]) && s.objects[g].ready && !Finalizes(s, g) && c !in s.calls
    requires ObjectOk(src, s, Runs(g, []), g) && forall d :: d in s.calls ==> CallOk(src, s, s.calls[d])
    requires var f := s.objects[g];
             s' == s.(files := s.files - {f.offer.fileId}, objects := s.objects[g := f.(finalized := true)],
                      calls := s.calls[c := Finalizing(g, f.parts, f.total)], nextCall := s'.nextCall)
    requires c < s'.nextCall && s.nextCall <= s'.nextCall
    ensures Framed(src, s, s', g) && ObjectOk(src, s', Nobody, g)
  {
    CountFull(src, s.objects[g]);
    ParkTouches(s, s', g, c, Finalizing(g, s.objects[g].parts, s.objects[g].total));
    FinalizeObject(src, s, g, c, s');
    FinalizeCalls(src, s, g, c, s');
  }

  lemma FinalizeObject(src: Sources, s: State, g: Object, c: Call, s': State)
    requires g in s.objects && ObjectOk(src, s, Runs(g, []), g) && Registered(s, g) && All(s.objects[g]) && s.objects[g].ready
    requires s'.objects == s.objects[g := s.objects[g].(finalized := true)] && s'.nextObject == s.nextObject
    requires s'.calls == s.calls[c := Finalizing(g, s.objects[g].parts, s.objects[g].total)]
    requires !Registered(s', g)
    ensures ObjectOk(src, s', Nobody, g)
  {
    var f := s.objects[g];
    assert s'.calls[c] == Finalizing(g, f.parts, f.total);
    assert Finalizes(s', g);
    forall i | i in f.handled ensures Held(s', Nobody, g, i) { assert i in f.received; }
  }

  lemma FinalizeCalls(src: Sources, s: State, g: Object, c: Call, s': State)
    requires forall d :: d in s.calls ==> CallOk(src, s, s.calls[d])
    requires g in s.objects && s.objects[g].ready && !s.objects[g].finalized && s.objects[g].outcomes == [] && c !in s.calls
    requires s'.objects == s.objects[g := s.objects[g].(finalized := true)] && FileOk(src, s'.objects[g])
    requires s'.calls == s.calls[c := Finalizing(g, s.objects[g].parts, s.objects[g].total)]
    requires s.objects[g].offer.fileId !in s'.files
    ensures forall d :: d in s'.calls && s'.calls[d].file == g ==> CallOk(src, s', s'.calls[d])
  {
    forall d | d in s'.calls && s'.calls[d].file == g ensures CallOk(src, s', s'.calls[d]) {
      if d != c { StaysWhenFinalized(src, s, s', s.calls[d]); }
    }
  }

  lemma NoneFinalizing(src: Sources, s: State, g: Object)
    requires Inv(src, s, Runs(g, [])) && g in s.objects && !s.objects[g].finalized
    ensures !Finalizes(s, g)
  {
  }

  lemma StaysWhenFinalized(src: Sources, s: State, s': State, a: Await)
    requires CallOk(src, s, a) && !a.Creating? && a.file in s'.objects && FileOk(src, s'.objects[a.file])
    requires !s.objects[a.file].finalized && s'.objects[a.file] == s.objects[a.file].(finalized := true)
    requires Current(s', a.file)
    ensures CallOk(src, s', a)
  {
  }

  /** The handler of `g` is done and nothing is left to do. */
  lemma RestKeeps(src: Sources, s: State, g: Object)
    requires Inv(src, s, Runs(g, [])) && !(Registered(s, g) && Full(s.objects[g]))
    ensures Inv(src, s, Nobody)
  {
    forall h | h in s.objects ensures ObjectOk(src, s, Nobody, h) {
      assert ObjectOk(src, s, Runs(g, []), h);
      forall i | i in s.objects[h].handled && s.objects[h].outcomes != [Aborted] ensures Held(s, Nobody, h, i) {
        assert Held(s, Runs(g, []), h, i);
      }
    }
  }

  lemma FullFinalizes(s: State, c: Call, g: Object)
    requires c in s.calls && g in s.objects && Registered(s, g) && Full(s.objects[g]) && s.objects[g].ready
    ensures var p, f := Finish(s, c), s.objects[g];
            CheckFull(s, c, g) == p.(files := s.files - {f.offer.fileId}, objects := s.objects[g := f.(finalized := true)],
                                     calls := p.calls[c := Finalizing(g, f.parts, f.total)], nextCall := s.nextCall)
  {
    var f := s.objects[g];
    var a := Finalizing(g, f.parts, f.total);
    assert s.calls[c := a] == Finish(s, c).calls[c := a];
  }

  lemma CheckFullKeeps(src: Sources, s: State, c: Call, g: Object)
    requires c in s.calls && c < s.nextCall && Inv(src, Finish(s, c), Runs(g, []))
    ensures g in s.objects && Inv(src, CheckFull(s, c, g), Nobody)
  {
    var p := Finish(s, c);
    if Registered(p, g) && Full(s.objects[g]) {
      FinalizeKeeps(src, p, g, c, s.nextCall);
      FullFinalizes(s, c, g);
    } else {
      RestKeeps(src, p, g);
      assert CheckFull(s, c, g) == p;
    }
  }

  lemma ClearObject(src: Sources, s: State, g: Object)
    requires g in s.objects && ObjectOk(src, s, Runs(g, []), g) && s.objects[g].ready
    ensures ObjectOk(src, Put(s, g, s.objects[g].(buffer := map[])), Runs(g, []), g)
  {
    var s' := Put(s, g, s.objects[g].(buffer := map[]));
    forall i | i in s.objects[g].handled && s.objects[g].outcomes != [Aborted] ensures Held(s', Runs(g, []), g, i) {
      assert Held(s, Runs(g, []), g, i);
    }
  }

  /** Clearing the buffer once the loop is through. */
  lemma ClearKeeps(src: Sources, s: State, g: Object)
    requires Inv(src, s, Runs(g, []))
    ensures Inv(src, Put(s, g, s.objects[g].(buffer := map[])), Runs(g, []))
  {
    var s' := Put(s, g, s.objects[g].(buffer := map[]));
    PutTouches(s, g, s.objects[g].(buffer := map[]));
    assert ObjectOk(src, s, Runs(g, []), g);
    ClearObject(src, s, g);
    EndCalls(src, s, s', g);
    Assemble(src, s, Runs(g, []), s', Runs(g, []), g);
  }

  lemma SkipKeeps(src: Sources, s: State, g: Object, entries: seq<Entry>)
    requires Inv(src, s, Runs(g, entries)) && entries != [] && entries[0].0 in s.objects[g].received
    ensures Inv(src, s, Runs(g, entries[1..]))
  {
    var run, run' := Runs(g, entries), Runs(g, entries[1..]);
    forall h | h in s.objects ensures ObjectOk(src, s, run', h) {
      assert ObjectOk(src, s, run, h);
      forall i | i in s.objects[h].handled && s.objects[h].outcomes != [Aborted] ensures Held(s, run', h, i) {
        assert Held(s, run, h, i);
        if h == g && exists e :: e in entries && e.0 == i {
          var e :| e in entries && e.0 == i;
          assert e == entries[0] || e in entries[1..];
        }
      }
    }
  }

  lemma {:induction false} FlushKeeps(src: Sources, s: State, c: Call, g: Object, entries: seq<Entry>)
    requires c in s.calls && c < s.nextCall && Inv(src, Finish(s, c), Runs(g, entries))
    ensures g in s.objects && Inv(src, Flush(s, c, g, entries), Nobody)
    decreases |entries|
  {
    var p := Finish(s, c);
    var f := s.objects[g];
    if entries == [] {
      ClearKeeps(src, p, g);
      var s' := Put(s, g, f.(buffer := map[]));
      assert Finish(s', c) == Put(p, g, f.(buffer := map[]));
      CheckFullKeeps(src, s', c, g);
    } else if entries[0].0 in f.received {
      SkipKeeps(src, p, g, entries);
      FlushKeeps(src, s, c, g, entries[1..]);
    } else {
      FlushIssueKeeps(src, s, c, g, entries);
    }
  }

  lemma FlushIssueKeeps(src: Sources, s: State, c: Call, g: Object, entries: seq<Entry>)
    requires c in s.calls && c < s.nextCall && Inv(src, Finish(s, c), Runs(g, entries))
    requires entries != [] && entries[0].0 !in s.objects[g].received
    ensures Inv(src, Flush(s, c, g, entries), Nobody)
  {
    var p := Finish(s, c);
    var a := Flushing(g, entries[0].0, entries[0].1, entries[1..]);
    NotYetFinal(src, p, g, entries);
    FlushIssues(s, c, g, entries);
    IssueKeeps(src, p, Runs(g, entries), g, c, a, Park(Put(p, g, Issue(p.objects[g], a.i, a.data)), c, a));
  }

  lemma FlushIssues(s: State, c: Call, g: Object, entries: seq<Entry>)
    requires c in s.calls && g in s.objects && entries != [] && entries[0].0 !in s.objects[g].received
    ensures var p := Finish(s, c);
            var a := Flushing(g, entries[0].0, entries[0].1, entries[1..]);
            Flush(s, c, g, entries) == Park(Put(p, g, Issue(p.objects[g], a.i, a.data)), c, a)
  {
    var a := Flushing(g, entries[0].0, entries[0].1, entries[1..]);
    assert s.calls[c := a] == Finish(s, c).calls[c := a];
  }

  /** While an entry is still to be written, the object is registered and not finalized. */
  lemma NotYetFinal(src: Sources, s: State, g: Object, entries: seq<Entry>)
    requires g in s.objects && ObjectOk(src, s, Runs(g, entries), g) && RunOk(src, s, Runs(g, entries))
    requires entries != [] && entries[0].0 !in s.objects[g].received
    ensures Registered(s, g)
    ensures DataOk(src, s.objects[g].offer, entries[0].0, entries[0].1)
    ensures EntriesOk(src, s.objects[g].offer, entries[1..])
    ensures forall e :: e in entries ==> e == entries[0] || e in entries[1..]
  {
    CountFull(src, s.objects[g]);
    assert entries[0] in entries;
  }

  lemma WrittenKeeps(src: Sources, s: State, c: Call)
    requires Inv(src, s, Nobody) && Enabled(s, Written(c))
    ensures Inv(src, OnWritten(s, c), Nobody)
  {
    var a := s.calls[c];
    ReceiveKeeps(src, s, c);
    var r := Put(s, a.file, Receive(s.objects[a.file], a.i, a.data));
    assert Finish(r, c) == Finish(Put(s, a.file, Receive(s.objects[a.file], a.i, a.data)), c);
    if a.Flushing? { FlushKeeps(src, r, c, a.file, a.rest); } else { CheckFullKeeps(src, r, c, a.file); }
  }

  lemma CreatedStepKeeps(src: Sources, s: State, c: Call, entries: seq<Entry>)
    requires Inv(src, s, Nobody) && Enabled(s, Created(c, entries))
    ensures Inv(src, OnCreated(s, c, s.calls[c].file, entries), Nobody)
  {
    var g := s.calls[c].file;
    CreatedKeeps(src, s, c, entries);
    FlushKeeps(src, Put(s, g, s.objects[g].(ready := true)), c, g, entries);
  }

  lemma NextIsNew(src: Sources, s: State)
    requires Inv(src, s, Nobody)
    ensures s.nextObject !in s.objects
    ensures forall c :: c in s.calls ==> s.calls[c].file in s.objects
  {
    forall h | h in s.objects ensures h != s.nextObject { assert ObjectOk(src, s, Nobody, h); }
    forall c | c in s.calls ensures s.calls[c].file in s.objects { assert CallOk(src, s, s.calls[c]); }
  }

  lemma OfferKeeps(src: Sources, s: State, o: Offer)
    requires Inv(src, s, Nobody) && o.fileId !in s.files && HonestOffer(src, o) && NoStale(s, o.fileId)
    ensures Inv(src, OnOffer(s, o), Nobody)
  {
    NextIsNew(src, s);
    OfferTables(s, o);
    OfferObjects(src, s, o);
    OfferCalls(src, s, o);
  }

  lemma OfferObjects(src: Sources, s: State, o: Offer)
    requires HonestOffer(src, o) && o.fileId !in s.files && s.nextObject !in s.objects
    requires forall c :: c in s.calls ==> c < s.nextCall
    requires forall h :: h in s.objects ==> ObjectOk(src, s, Nobody, h)
    ensures var s' := OnOffer(s, o); forall h :: h in s'.objects ==> ObjectOk(src, s', Nobody, h)
  {
    var s' := OnOffer(s, o);
    forall h | h in s'.objects ensures ObjectOk(src, s', Nobody, h) {
      if h == s.nextObject { NewObject(src, s, o); } else { OldObjectStays(src, s, s', h); }
    }
  }

  lemma OfferCalls(src: Sources, s: State, o: Offer)
    requires HonestOffer(src, o) && o.fileId !in s.files && s.nextObject !in s.objects && NoStale(s, o.fileId)
    requires forall c :: c in s.calls ==> c < s.nextCall && CallOk(src, s, s.calls[c])
    ensures var s' := OnOffer(s, o); forall c :: c in s'.calls ==> CallOk(src, s', s'.calls[c])
  {
    var s' := OnOffer(s, o);
    forall c | c in s'.calls ensures CallOk(src, s', s'.calls[c]) {
      if c != s.nextCall { OldCallStays(src, s, o, c); }
    }
  }

  lemma OfferTables(s: State, o: Offer)
    requires Tables(s) && o.fileId !in s.files && s.nextObject !in s.objects
    requires forall c :: c in s.calls ==> s.calls[c].file in s.objects
    ensures Tables(OnOffer(s, o))
  {
    var s' := OnOffer(s, o);
    forall c, d | c in s'.calls && d in s'.calls && c != d && s'.calls[c].file == s'.calls[d].file
      ensures c in s.calls && d in s.calls
    {
    }
  }

  lemma NewObject(src: Sources, s: State, o: Offer)
    requires HonestOffer(src, o) && o.fileId !in s.files
    ensures s.nextObject in OnOffer(s, o).objects && ObjectOk(src, OnOffer(s, o), Nobody, s.nextObject)
  {
    assert OnOffer(s, o).calls[s.nextCall] == Creating(s.nextObject);
    VolumeOfNone(o.size, o.chunkSize, o.chunks);
  }

  lemma OldCallStays(src: Sources, s: State, o: Offer, c: Call)
    requires c in s.calls && c != s.nextCall && CallOk(src, s, s.calls[c]) && s.nextObject !in s.objects
    requires o.fileId !in s.files && NoStale(s, o.fileId)
    ensures CallOk(src, OnOffer(s, o), s.calls[c])
  {
  }

  /** Nothing about `h` changes when another file is offered. */
  lemma OldObjectStays(src: Sources, s: State, s': State, h: Object)
    requires h in s.objects && ObjectOk(src, s, Nobody, h)
    requires h in s'.objects && s'.objects[h] == s.objects[h] && s'.nextObject >= s.nextObject
    requires Registered(s', h) <==> Registered(s, h)
    requires forall c :: c in s.calls ==> c in s'.calls && s'.calls[c] == s.calls[c]
    ensures ObjectOk(src, s', Nobody, h)
  {
    forall i | i in s.objects[h].handled && s.objects[h].outcomes != [Aborted] ensures Held(s', Nobody, h, i) {
      assert Held(s, Nobody, h, i);
      if c :| c in s.calls && Has(s.calls[c], h, i) { assert s'.calls[c] == s.calls[c]; }
    }
  }

  /** A chunk that is a duplicate, or that has to wait for the sink. */
  lemma TakeKeeps(src: Sources, s: State, g: Object, f': File)
    requires Inv(src, s, Nobody) && g in s.objects
    requires var f := s.objects[g];
             && f' == f.(handled := f'.handled, buffer := f'.buffer)
             && (forall i :: i in f'.handled && i !in f.handled ==>
                   i < f.offer.chunks && (i in f.received || (!f.ready && i in f'.buffer)))
             && (forall i :: i in f.buffer ==> i in f'.buffer)
             && (FileOk(src, f) ==> FileOk(src, f'))
    ensures Inv(src, Put(s, g, f'), Nobody)
  {
    var s' := Put(s, g, f');
    PutTouches(s, g, f');
    assert ObjectOk(src, s, Nobody, g);
    forall i | i in f'.handled && f'.outcomes != [Aborted] ensures Held(s', Nobody, g, i) {
      if i in s.objects[g].handled { assert Held(s, Nobody, g, i); }
    }
    CallsStay(src, s, s', g);
    Assemble(src, s, Nobody, s', Nobody, g);
  }

  /** The sink is there: the chunk is written at once. */
  lemma ReadyChunkKeeps(src: Sources, s: State, id: FileId, i: nat, data: seq<byte>)
    requires Inv(src, s, Nobody) && HonestData(src, id, i, data)
    requires id in s.files && s.files[id] in s.objects && s.objects[s.files[id]].offer.fileId == id
    requires var f := s.objects[s.files[id]]; i < f.offer.chunks && i !in f.received && f.ready && HonestOffer(src, f.offer)
    ensures Inv(src, OnChunk(s, id, i, data), Nobody)
  {
    IssueKeeps(src, s, Nobody, s.files[id], s.nextCall, Writing(s.files[id], i, data), OnChunk(s, id, i, data));
  }

  lemma ChunkKeeps(src: Sources, s: State, id: FileId, i: int, data: seq<byte>)
    requires Inv(src, s, Nobody) && HonestData(src, id, i, data)
    ensures Inv(src, OnChunk(s, id, i, data), Nobody)
  {
    if id in s.files && 0 <= i < s.objects[s.files[id]].offer.chunks {
      assert ObjectOk(src, s, Nobody, s.files[id]);
      WantedChunkKeeps(src, s, id, i, data);
    }
  }

  lemma WantedChunkKeeps(src: Sources, s: State, id: FileId, i: nat, data: seq<byte>)
    requires Inv(src, s, Nobody) && HonestData(src, id, i, data) && id in s.files && s.files[id] in s.objects
    requires var f := s.objects[s.files[id]];
             i < f.offer.chunks && f.offer.fileId == id && FileOk(src, f) && HonestOffer(src, f.offer)
    ensures Inv(src, OnChunk(s, id, i, data), Nobody)
  {
    var f := s.objects[s.files[id]];
    if i in f.received {
      TakeKeeps(src, s, s.files[id], f.(handled := f.handled + {i}));
    } else if !f.ready {
      BufferKeeps(src, s, id, i, data);
    } else {
      ReadyChunkKeeps(src, s, id, i, data);
    }
  }

  /** The sink is not there: the chunk is buffered. */
  lemma BufferKeeps(src: Sources, s: State, id: FileId, i: nat, data: seq<byte>)
    requires Inv(src, s, Nobody) && HonestData(src, id, i, data) && id in s.files && s.files[id] in s.objects
    requires var f := s.objects[s.files[id]];
             i < f.offer.chunks && i !in f.received && !f.ready && FileOk(src, f) && f.offer.fileId == id
    ensures Inv(src, OnChunk(s, id, i, data), Nobody)
  {
    var f := s.objects[s.files[id]];
    BufferOk(src, f, i, data);
    TakeKeeps(src, s, s.files[id], f.(handled := f.handled + {i}, buffer := f.buffer[i := data]));
  }

  lemma BufferOk(src: Sources, f: File, i: nat, data: seq<byte>)
    requires FileOk(src, f) && i < f.offer.chunks && HonestData(src, f.offer.fileId, i, data)
    ensures FileOk(src, f.(handled := f.handled + {i}, buffer := f.buffer[i := data]))
  {
  }

  lemma DoneKeeps(src: Sources, s: State, id: FileId)
    requires Inv(src, s, Nobody)
    ensures Inv(src, OnDone(s, id), Nobody)
  {
    if HasSink(s, id) && Full(s.objects[s.files[id]]) {
      var g := s.files[id];
      var f := s.objects[g];
      AnyoneRuns(src, s, g);
      FinalizeKeeps(src, s, g, s.nextCall, s.nextCall + 1);
      assert OnDone(s, id) == s.(files := s.files - {f.offer.fileId}, objects := s.objects[g := f.(finalized := true)],
        calls := s.calls[s.nextCall := Finalizing(g, f.parts, f.total)], nextCall := s.nextCall + 1);
    }
  }

  lemma AnyoneRuns(src: Sources, s: State, g: Object)
    requires Inv(src, s, Nobody) && Registered(s, g) && s.objects[g].ready
    ensures Inv(src, s, Runs(g, []))
  {
    forall h | h in s.objects ensures ObjectOk(src, s, Runs(g, []), h) {
      assert ObjectOk(src, s, Nobody, h);
      forall i | i in s.objects[h].handled && s.objects[h].outcomes != [Aborted] ensures Held(s, Runs(g, []), h, i) {
        assert Held(s, Nobody, h, i);
      }
    }
  }

  lemma RejectedObject(src: Sources, s: State, s': State, g: Object)
    requires g in s.objects && ObjectOk(src, s, Nobody, g) && !s.objects[g].ready && Registered(s, g)
    requires s'.objects == s.objects[g := s.objects[g].(outcomes := [Aborted])]
    requires !Registered(s', g) && s'.nextObject == s.nextObject
    ensures ObjectOk(src, s', Nobody, g)
  {
  }

  lemma CreateFailsKeeps(src: Sources, s: State, c: Call)
    requires Inv(src, s, Nobody) && Enabled(s, CreateFails(c))
    ensures Inv(src, Step(s, CreateFails(c)), Nobody)
  {
    var g := s.calls[c].file;
    var f := s.objects[g];
    assert CallOk(src, s, s.calls[c]) && ObjectOk(src, s, Nobody, g);
    var s' := s.(files := s.files - {f.offer.fileId}, objects := s.objects[g := f.(outcomes := [Aborted])],
                 calls := s.calls - {c});
    FailedStep(s, c);
    RejectKeeps(src, s, c, g, s');
  }

  lemma FailedStep(s: State, c: Call)
    requires Enabled(s, CreateFails(c)) && s.objects[s.calls[c].file].outcomes == []
    ensures var g := s.calls[c].file;
            Step(s, CreateFails(c)) == s.(files := s.files - {s.objects[g].offer.fileId},
                                          objects := s.objects[g := s.objects[g].(outcomes := [Aborted])], calls := s.calls - {c})
  {
    assert [] + [Aborted] == [Aborted];
  }

  lemma RejectKeeps(src: Sources, s: State, c: Call, g: Object, s': State)
    requires Inv(src, s, Nobody) && c in s.calls && s.calls[c] == Creating(g) && Registered(s, g)
    requires CallOk(src, s, s.calls[c]) && ObjectOk(src, s, Nobody, g)
    requires s' == s.(files := s.files - {s.objects[g].offer.fileId},
                      objects := s.objects[g := s.objects[g].(outcomes := [Aborted])], calls := s.calls - {c})
    ensures Inv(src, s', Nobody)
  {
    forall d | d in s.calls && d != c ensures s.calls[d].file != g { CreatingIsAlone(src, s, c, d); }
    RejectTouches(s, s', g, c);
    RejectedObject(src, s, s', g);
    Assemble(src, s, Nobody, s', Nobody, g);
  }

  lemma FinalizedObject(src: Sources, s: State, s': State, g: Object)
    requires g in s.objects && ObjectOk(src, s, Nobody, g) && s.objects[g].finalized
    requires s'.objects == s.objects[g := s.objects[g].(outcomes := [Completed(s.objects[g].offer.sha256)])]
    requires !Registered(s', g) && s'.nextObject == s.nextObject
    ensures ObjectOk(src, s', Nobody, g)
  {
  }

  lemma FinalizedStep(s: State, c: Call, out: Option<seq<byte>>)
    requires Enabled(s, Finalized(c, out)) && s.objects[s.calls[c].file].outcomes == []
    requires out.Some? && Sha(out.value) == s.objects[s.calls[c].file].offer.sha256
    ensures var g := s.calls[c].file;
            var f := s.objects[g];
            Step(s, Finalized(c, out)) == s.(objects := s.objects[g := f.(outcomes := [Completed(f.offer.sha256)])], calls := s.calls - {c})
  {
    assert [] + [Completed(Sha(out.value))] == [Completed(Sha(out.value))];
  }

  lemma FinalizedKeeps(src: Sources, s: State, c: Call, out: Option<seq<byte>>)
    requires Inv(src, s, Nobody) && Enabled(s, Finalized(c, out))
    ensures Inv(src, Step(s, Finalized(c, out)), Nobody)
  {
    var g := s.calls[c].file;
    var f := s.objects[g];
    assert CallOk(src, s, s.calls[c]) && ObjectOk(src, s, Nobody, g);
    FinalizeOk(src, f, out);
    var s' := s.(objects := s.objects[g := f.(outcomes := [Completed(f.offer.sha256)])], calls := s.calls - {c});
    FinalizedStep(s, c, out);
    CompletedKeeps(src, s, c, g, s');
  }

  lemma CompletedKeeps(src: Sources, s: State, c: Call, g: Object, s': State)
    requires Inv(src, s, Nobody) && c in s.calls && s.calls[c].Finalizing? && s.calls[c].file == g
    requires CallOk(src, s, s.calls[c]) && ObjectOk(src, s, Nobody, g)
    requires s' == s.(objects := s.objects[g := s.objects[g].(outcomes := [Completed(s.objects[g].offer.sha256)])],
                      calls := s.calls - {c})
    ensures Inv(src, s', Nobody)
  {
    EndTouches(s, s', g, c);
    FinalizedObject(src, s, s', g);
    forall d | d in s'.calls && s'.calls[d].file == g ensures CallOk(src, s', s'.calls[d]) {
      OutcomeStays(src, s, s', c, d);
    }
    Assemble(src, s, Nobody, s', Nobody, g);
  }

  lemma OutcomeStays(src: Sources, s: State, s': State, c: Call, d: Call)
    requires Tables(s) && c in s.calls && d in s.calls && c != d && s.calls[c].Finalizing? && s.calls[d].file == s.calls[c].file
    requires CallOk(src, s, s.calls[d]) && CallOk(src, s, s.calls[c])
    requires var g := s.calls[c].file;
             && g in s'.objects && s'.objects[g] == s.objects[g].(outcomes := s'.objects[g].outcomes)
             && FileOk(src, s'.objects[g])
             && (Registered(s, g) ==> Registered(s', g)) && (Current(s, g) ==> Current(s', g))
    ensures CallOk(src, s', s.calls[d])
  {
  }

  lemma StepKeeps(src: Sources, s: State, e: Event)
    requires Inv(src, s, Nobody) && Allowed(src, s, e)
    ensures Inv(src, Step(s, e), Nobody)
  {
    if Enabled(s, e) {
      match e {
        case Offered(o) => if o.fileId !in s.files { OfferKeeps(src, s, o); }
        case Chunk(id, i, data) => ChunkKeeps(src, s, id, i, data);
        case Done(id) => DoneKeeps(src, s, id);
        case Created(c, entries) => CreatedStepKeeps(src, s, c, entries);
        case CreateFails(c) => CreateFailsKeeps(src, s, c);
        case Written(c) => WrittenKeeps(src, s, c);
        case Finalized(c, out) => FinalizedKeeps(src, s, c, out);
      }
    }
  }

  lemma {:induction false} RunKeeps(src: Sources, s: State, es: seq<Event>)
    requires Inv(src, s, Nobody) && RunAllowed(src, s, es)
    ensures Inv(src, Run(s, es), Nobody)
    decreases |es|
  {
    if es == [] {
    } else {
      StepKeeps(src, s, es[0]);
      RunKeeps(src, Step(s, es[0]), es[1..]);
    }
  }

  // ---------------------------------------------------------------------------------------------
  // Results
  // ---------------------------------------------------------------------------------------------

  /** Every slice of the offered file is in the sink, at its offset; finalize can only return the file. */
  ghost predicate WholeFileWritten(src: Sources, f: File) {
    && HonestOffer(src, f.offer)
    && var b, cs := src[f.offer.fileId].bytes, f.offer.chunkSize;
      (forall i: nat :: i < f.offer.chunks ==> i * cs in f.parts && f.parts[i * cs] == Slice(b, cs, i))
      && forall out :: MayReturn(f.parts, f.total, out) ==> out == Some(b)
  }

  /** For every order, repetition and interleaving: finalize runs only over the whole file, no write is
   *  issued after it, and an accepted offer gets at most one outcome, which is the intact file unless the
   *  sink could not be created. */
  lemma TransfersAreSound(src: Sources, es: seq<Event>, g: Object)
    requires RunAllowed(src, INITIAL, es) && g in Run(INITIAL, es).objects
    ensures var f := Run(INITIAL, es).objects[g];
            && (f.finalized ==> WholeFileWritten(src, f))
            && !f.late
            && (f.outcomes == [] || f.outcomes == [Aborted] || f.outcomes == [Completed(f.offer.sha256)])
  {
    RunKeeps(src, INITIAL, es);
    var f := Run(INITIAL, es).objects[g];
    assert ObjectOk(src, Run(INITIAL, es), Nobody, g);
    if f.finalized {
      forall out | MayReturn(f.parts, f.total, out) ensures out == Some(src[f.offer.fileId].bytes) {
        FinalizeOk(src, f, out);
      }
    }
  }

  /** No chunk is lost, and once every chunk has been handled and no handler of the file is left suspended,
   *  the offer has had exactly one outcome: the intact file. */
  lemma TransfersComplete(src: Sources, es: seq<Event>, g: Object)
    requires RunAllowed(src, INITIAL, es) && g in Run(INITIAL, es).objects
    requires var s := Run(INITIAL, es);
             && (forall c :: c in s.calls ==> s.calls[c].file != g)
             && s.objects[g].outcomes != [Aborted]
    ensures var f := Run(INITIAL, es).objects[g];
            && f.handled <= f.received
            && ((forall i: nat :: i < f.offer.chunks ==> i in f.handled) ==> f.outcomes == [Completed(f.offer.sha256)])
  {
    RunKeeps(src, INITIAL, es);
    var s := Run(INITIAL, es);
    var f := s.objects[g];
    assert ObjectOk(src, s, Nobody, g);
    forall i | i in f.handled ensures i in f.received {
      assert Held(s, Nobody, g, i);
    }
    CountFull(src, f);
  }

  // ---------------------------------------------------------------------------------------------
  // Why a file id must not be offered anew too early
  // ---------------------------------------------------------------------------------------------

  /** Events that concern transfers under way, with honest contents. */
  ghost predicate Continues(src: Sources, es: seq<Event>) {
    forall e :: e in es ==>
      !e.Offered? && !e.Abort? && !e.SinkAborted? && (e.Chunk? ==> HonestData(src, e.fileId, e.i, e.data))
  }

  /** The sink of `g` was finalized although chunks of it were never received. */
  ghost predicate CutShort(s: State, g: Object) {
    g in s.objects && s.objects[g].finalized && !All(s.objects[g])
  }

  lemma {:induction false} ContinuesAllowed(src: Sources, s: State, es: seq<Event>)
    requires Continues(src, es)
    ensures RunAllowed(src, s, es)
    decreases |es|
  {
    if es == [] {
    } else {
      assert es[0] in es;
      assert forall e :: e in es[1..] ==> e in es;
      ContinuesAllowed(src, Step(s, es[0]), es[1..]);
    }
  }

  lemma {:induction false} FlushSkips(s: State, c: Call, g: Object, entries: seq<Entry>)
    requires g in s.objects && forall e :: e in entries ==> e.0 in s.objects[g].received
    ensures Flush(s, c, g, entries) == CheckFull(Put(s, g, s.objects[g].(buffer := map[])), c, g)
    decreases |entries|
  {
    if entries == [] {
    } else {
      assert entries[0] in entries;
      FlushSkips(s, c, g, entries[1..]);
    }
  }

  /** The stale handler `c` counts its own, complete file, and then completes the new one. */
  lemma StaleCompletesOther(src: Sources, s: State, c: Call, next: Object)
    requires c in s.calls && (s.calls[c].Flushing? || s.calls[c].Writing?) && s.calls[c].file in s.objects
    requires var g := s.calls[c].file;
             && g != next && FileOk(src, s.objects[g]) && s.objects[g].finalized
             && s.calls[c].i in s.objects[g].issued
             && (s.calls[c].Flushing? ==> EntriesOk(src, s.objects[g].offer, s.calls[c].rest))
             && s.objects[g].offer.fileId in s.files && s.files[s.objects[g].offer.fileId] == next
             && next in s.objects && s.objects[next].ready && !All(s.objects[next])
    ensures CutShort(OnWritten(s, c), next)
  {
    var a := s.calls[c];
    var g, f := a.file, s.objects[a.file];
    ReceiveOk(src, f, a.i, a.data);
    CountFull(src, f);
    var r := Put(s, g, Receive(f, a.i, a.data));
    if a.Flushing? {
      forall e | e in a.rest ensures e.0 in r.objects[g].received { assert DataOk(src, f.offer, e.0, e.1); }
      FlushSkips(r, c, g, a.rest);
    }
  }

  /** A sink that arrives before any chunk: onOffer has nothing to flush. */
  lemma CreatedEmpty(s: State, c: Call, g: Object)
    requires g in s.objects && s.objects[g].received == {} && s.objects[g].offer.chunks > 0
    ensures OnCreated(s, c, g, []) == Finish(Put(s, g, s.objects[g].(ready := true, buffer := map[])), c)
  {
  }

  lemma TwoSteps(s: State, e1: Event, e2: Event)
    ensures Run(s, [e1, e2]) == Step(Step(s, e1), e2)
  {
    assert [e1, e2][1..] == [e2] && [e2][1..] == [];
    assert Run(s, [e1, e2]) == Run(Step(s, e1), [e2]) == Run(Step(Step(s, e1), e2), []);
  }

  lemma StaleCutsShort(src: Sources, s: State, o: Offer, c: Call)
    requires Tables(s) && o.fileId !in s.files && HonestOffer(src, o) && o.chunks > 0 && s.nextObject !in s.objects
    requires c in s.calls && (s.calls[c].Flushing? || s.calls[c].Writing?) && CallOk(src, s, s.calls[c])
    requires FileOk(src, s.objects[s.calls[c].file]) && s.objects[s.calls[c].file].offer.fileId == o.fileId
    ensures CutShort(Run(OnOffer(s, o), [Created(s.nextCall, []), Written(c)]), s.nextObject)
  {
    var next := s.nextObject;
    ReofferStep(s, o);
    StaleAtReady(src, s, o, c);
    StaleReturns(s, o, c);
    TwoSteps(OnOffer(s, o), Created(s.nextCall, []), Written(c));
  }

  lemma ReofferStep(s: State, o: Offer)
    requires o.fileId !in s.files && o.chunks > 0
    ensures Step(OnOffer(s, o), Created(s.nextCall, [])) == ReofferReady(s, o)
  {
    CreatedEmpty(OnOffer(s, o), s.nextCall, s.nextObject);
  }

  lemma StaleReturns(s: State, o: Offer, c: Call)
    requires o.fileId !in s.files && c in s.calls && c < s.nextCall && (s.calls[c].Flushing? || s.calls[c].Writing?)
    requires s.calls[c].file in s.objects
    ensures Step(ReofferReady(s, o), Written(c)) == OnWritten(ReofferReady(s, o), c)
  {
    assert ReofferReady(s, o).calls[c] == s.calls[c];
  }

  /** The re-offered file's sink is ready and nothing has been written to it. */
  function ReofferReady(s: State, o: Offer): State {
    Finish(Put(OnOffer(s, o), s.nextObject, NewFile(o).(ready := true)), s.nextCall)
  }

  lemma StaleAtReady(src: Sources, s: State, o: Offer, c: Call)
    requires Tables(s) && o.fileId !in s.files && HonestOffer(src, o) && o.chunks > 0 && s.nextObject !in s.objects
    requires c in s.calls && (s.calls[c].Flushing? || s.calls[c].Writing?) && CallOk(src, s, s.calls[c])
    requires FileOk(src, s.objects[s.calls[c].file]) && s.objects[s.calls[c].file].offer.fileId == o.fileId
    ensures CutShort(OnWritten(ReofferReady(s, o), c), s.nextObject)
  {
    var g, next, m := s.calls[c].file, s.nextObject, ReofferReady(s, o);
    assert 0 !in m.objects[next].received;
    assert c < s.nextCall && m.calls[c] == s.calls[c];
    assert m.objects[g] == s.objects[g];
    StaleCompletesOther(src, m, c, next);
  }

  lemma SafeReoffer(src: Sources, s: State, o: Offer, more: seq<Event>)
    requires Inv(src, s, Nobody) && o.fileId !in s.files && HonestOffer(src, o) && NoStale(s, o.fileId)
    requires Continues(src, more)
    ensures !CutShort(Run(OnOffer(s, o), more), s.nextObject)
  {
    OfferKeeps(src, s, o);
    ContinuesAllowed(src, OnOffer(s, o), more);
    RunKeeps(src, OnOffer(s, o), more);
    var e := Run(OnOffer(s, o), more);
    if s.nextObject in e.objects { assert ObjectOk(src, e, Nobody, s.nextObject); }
  }

  lemma StaleCallIsDone(src: Sources, s: State, o: Offer, c: Call)
    requires Inv(src, s, Nobody) && o.fileId !in s.files
    requires c in s.calls && (s.calls[c].Flushing? || s.calls[c].Writing?) && s.calls[c].file in s.objects
    requires s.objects[s.calls[c].file].offer.fileId == o.fileId
    ensures CallOk(src, s, s.calls[c]) && FileOk(src, s.objects[s.calls[c].file])
  {
    assert ObjectOk(src, s, Nobody, s.calls[c].file);
  }

  lemma TwoContinue(src: Sources, d: Call, c: Call)
    ensures Continues(src, [Created(d, []), Written(c)])
  {
  }

  lemma UnsafeReoffer(src: Sources, s: State, o: Offer, c: Call) returns (more: seq<Event>)
    requires Inv(src, s, Nobody) && o.fileId !in s.files && HonestOffer(src, o) && o.chunks > 0
    requires c in s.calls && (s.calls[c].Flushing? || s.calls[c].Writing?) && s.calls[c].file in s.objects
    requires s.objects[s.calls[c].file].offer.fileId == o.fileId
    ensures more == [Created(s.nextCall, []), Written(c)]
    ensures Continues(src, more) && CutShort(Run(OnOffer(s, o), more), s.nextObject)
  {
    more := [Created(s.nextCall, []), Written(c)];
    TwoContinue(src, s.nextCall, c);
    StaleCallIsDone(src, s, o, c);
    NextIsNew(src, s);
    StaleCutsShort(src, s, o, c);
  }

  /** The exact condition.  In every state reached so far, an honest offer of a non-empty file whose id is
   *  not registered may be accepted without ever being cut short, whatever the transfers under way do
   *  next, if and only if no handler of an earlier transfer of that id is still suspended. */
  lemma ReofferIsSafeIff(src: Sources, es: seq<Event>, o: Offer)
    requires RunAllowed(src, INITIAL, es) && HonestOffer(src, o) && o.chunks > 0
    requires o.fileId !in Run(INITIAL, es).files
    ensures var s := Run(INITIAL, es);
            (forall more :: Continues(src, more) ==> !CutShort(Run(OnOffer(s, o), more), s.nextObject))
            <==> NoStale(s, o.fileId)
  {
    RunKeeps(src, INITIAL, es);
    var s := Run(INITIAL, es);
    if NoStale(s, o.fileId) {
      forall more | Continues(src, more) ensures !CutShort(Run(OnOffer(s, o), more), s.nextObject) {
        SafeReoffer(src, s, o, more);
      }
    } else {
      var c :| c in s.calls && (s.calls[c].Flushing? || s.calls[c].Writing?) && s.calls[c].file in s.objects
               && s.objects[s.calls[c].file].offer.fileId == o.fileId;
      var more := UnsafeReoffer(src, s, o, c);
    }
  }

  // ---------------------------------------------------------------------------------------------
  // Where offers and sinks come from
  // ---------------------------------------------------------------------------------------------

  ghost predicate HonestEvent(src: Sources, e: Event) {
    match e
    case Offered(o) => HonestOffer(src, o)
    case Chunk(id, i, data) => HonestData(src, id, i, data)
    case Abort(_) => false
    case SinkAborted(_) => false
    case _ => true
  }

  predicate SameOffers(s: State, s': State) {
    s'.objects.Keys == s.objects.Keys && s'.nextCall == s.nextCall &&
    forall g :: g in s.objects ==>
      s'.objects[g].offer == s.objects[g].offer && s'.objects[g].ready == s.objects[g].ready && s'.objects[g].outcomes == s.objects[g].outcomes
  }

  predicate NoNewSinks(s: State, s': State) {
    forall d :: d in s'.calls && s'.calls[d].Creating? ==> d in s.calls && s'.calls[d] == s.calls[d]
  }

  lemma CompleteOffers(s: State, c: Call, id: FileId)
    ensures SameOffers(s, Complete(s, c, id)) && NoNewSinks(s, Complete(s, c, id))
  {
  }

  lemma {:induction false} FlushOffers(s: State, c: Call, g: Object, entries: seq<Entry>)
    requires g in s.objects
    ensures SameOffers(s, Flush(s, c, g, entries)) && NoNewSinks(s, Flush(s, c, g, entries))
    decreases |entries|
  {
    if entries == [] {
      CompleteOffers(Put(s, g, s.objects[g].(buffer := map[])), c, s.objects[g].offer.fileId);
    } else if entries[0].0 in s.objects[g].received {
      FlushOffers(s, c, g, entries[1..]);
    } else {
      FlushWrites(s, c, g, entries);
    }
  }

  lemma FlushWrites(s: State, c: Call, g: Object, entries: seq<Entry>)
    requires g in s.objects && entries != [] && entries[0].0 !in s.objects[g].received
    ensures SameOffers(s, Flush(s, c, g, entries)) && NoNewSinks(s, Flush(s, c, g, entries))
  {
  }

  predicate IsNew(s: State, e: Event, s': State, g: Object)
    requires g in s'.objects
  {
    e.Offered? && s'.objects[g].offer == e.offer && !s'.objects[g].ready
  }

  /** An object keeps its offer, and gets its sink only from createSink. */
  predicate IsKept(s: State, e: Event, s': State, g: Object)
    requires g in s'.objects
  {
    g in s.objects && s'.objects[g].offer == s.objects[g].offer &&
    (s'.objects[g].ready ==> s.objects[g].ready || (e.Created? && e.call in s.calls && s.calls[e.call] == Creating(g)))
  }

  /** Only onOffer makes objects and calls createSink. */
  lemma StepOffers(s: State, e: Event)
    ensures var s' := Step(s, e);
            s'.nextCall >= s.nextCall && (forall g :: g in s'.objects ==> IsKept(s, e, s', g) || IsNew(s, e, s', g)) &&
            forall d :: d in s'.calls && s'.calls[d].Creating? ==>
              (d in s.calls && s'.calls[d] == s.calls[d]) || (e.Offered? && d == s.nextCall)
  {
    if Enabled(s, e) {
      match e {
        case Created(c, entries) => CreatedOffers(s, c, entries);
        case Written(c) => WrittenOffers(s, c);
        case Done(id) => CompleteOffers(s.(nextCall := s.nextCall + 1), s.nextCall, id);
        case _ =>
      }
    }
  }

  lemma CreatedOffers(s: State, c: Call, entries: seq<Entry>)
    requires Enabled(s, Created(c, entries))
    ensures var s' := Step(s, Created(c, entries));
            s'.nextCall == s.nextCall && (forall h :: h in s'.objects ==> IsKept(s, Created(c, entries), s', h)) && NoNewSinks(s, s')
  {
    var g := s.calls[c].file;
    FlushOffers(Put(s, g, s.objects[g].(ready := true)), c, g, entries);
  }

  /** Counting a chunk changes no offer and no sink. */
  lemma ReceivedOffers(s: State, g: Object, i: nat, data: seq<byte>)
    requires g in s.objects
    ensures SameOffers(s, Put(s, g, Receive(s.objects[g], i, data))) && NoNewSinks(s, Put(s, g, Receive(s.objects[g], i, data)))
  {
  }

  lemma SameTwice(s: State, r: State, v: State)
    requires SameOffers(s, r) && NoNewSinks(s, r) && SameOffers(r, v) && NoNewSinks(r, v)
    ensures SameOffers(s, v) && NoNewSinks(s, v)
  {
  }

  lemma WrittenOffers(s: State, c: Call)
    requires Enabled(s, Written(c))
    ensures SameOffers(s, Step(s, Written(c))) && NoNewSinks(s, Step(s, Written(c)))
  {
    var a := s.calls[c];
    var r := Put(s, a.file, Receive(s.objects[a.file], a.i, a.data));
    ReceivedOffers(s, a.file, a.i, a.data);
    if a.Flushing? { FlushOffers(r, c, a.file, a.rest); } else { CompleteOffers(r, c, r.objects[a.file].offer.fileId); }
    SameTwice(s, r, Step(s, Written(c)));
  }

  // ---------------------------------------------------------------------------------------------
  // Whatever frames arrive, only bytes with the offered hash are reported complete
  // ---------------------------------------------------------------------------------------------

  /** What onComplete was told of this file: complete only with the hash it was offered with. */
  predicate Truthful(f: File) {
    forall k :: 0 <= k < |f.outcomes| && f.outcomes[k].Completed? ==> f.outcomes[k].sha256 == f.offer.sha256
  }

  predicate AllTruthful(s: State) { forall g :: g in s.objects ==> Truthful(s.objects[g]) }

  /** One more outcome: integrity-failed if and only if the hash is not the offered one. */
  predicate Reports(f: File, outcomes: seq<Outcome>, hash: Digest) {
    |outcomes| == |f.outcomes| + 1 && outcomes[..|f.outcomes|] == f.outcomes &&
    (outcomes[|f.outcomes|] == IntegrityFailed <==> hash != f.offer.sha256) &&
    (outcomes[|f.outcomes|] == Completed(hash) <==> hash == f.offer.sha256)
  }

  /** The end of a transfer: the bytes that finalize returned are hashed, and the outcome is integrity-failed if and
   *  only if the hash is not the offered one. A finalize that throws reports nothing. */
  lemma FinalizedIff(s: State, c: Call, out: Option<seq<byte>>)
    requires Enabled(s, Finalized(c, out))
    ensures var g, s' := s.calls[c].file, Step(s, Finalized(c, out));
            g in s'.objects && s'.objects[g].offer == s.objects[g].offer &&
            match out {
              case None => s'.objects[g].outcomes == s.objects[g].outcomes
              case Some(bytes) => Reports(s.objects[g], s'.objects[g].outcomes, Sha(bytes))
            }
    ensures forall h :: h in s.objects && h != s.calls[c].file ==>
              h in Step(s, Finalized(c, out)).objects && Step(s, Finalized(c, out)).objects[h] == s.objects[h]
  {
  }

  lemma SameTruth(s: State, s': State)
    requires AllTruthful(s) && SameOffers(s, s')
    ensures AllTruthful(s')
  {
    forall g | g in s'.objects ensures Truthful(s'.objects[g]) { assert Truthful(s.objects[g]); }
  }

  lemma CreatedTruth(s: State, c: Call, entries: seq<Entry>)
    requires AllTruthful(s) && Enabled(s, Created(c, entries))
    ensures AllTruthful(Step(s, Created(c, entries)))
  {
    var g := s.calls[c].file;
    var r := Put(s, g, s.objects[g].(ready := true));
    assert AllTruthful(r) by { assert Truthful(s.objects[g]); }
    FlushOffers(r, c, g, entries);
    SameTruth(r, Step(s, Created(c, entries)));
  }

  lemma FinalizedTruth(s: State, c: Call, out: Option<seq<byte>>)
    requires AllTruthful(s) && Enabled(s, Finalized(c, out))
    ensures AllTruthful(Step(s, Finalized(c, out)))
  {
    FinalizedIff(s, c, out);
    var g, s' := s.calls[c].file, Step(s, Finalized(c, out));
    assert Truthful(s.objects[g]);
    forall h | h in s'.objects ensures Truthful(s'.objects[h]) {
      if h != g { assert Truthful(s.objects[h]); }
    }
  }

  lemma StepTruth(s: State, e: Event)
    requires AllTruthful(s)
    ensures AllTruthful(Step(s, e))
  {
    if Enabled(s, e) {
      match e {
        case Created(c, entries) => CreatedTruth(s, c, entries);
        case Written(c) =>
          WrittenOffers(s, c);
          SameTruth(s, Step(s, e));
        case Done(id) =>
          CompleteOffers(s.(nextCall := s.nextCall + 1), s.nextCall, id);
          SameTruth(s.(nextCall := s.nextCall + 1), Complete(s.(nextCall := s.nextCall + 1), s.nextCall, id));
        case Finalized(c, out) => FinalizedTruth(s, c, out);
        case _ => OtherTruth(s, e);
      }
    }
  }

  lemma OtherTruth(s: State, e: Event)
    requires AllTruthful(s) && Enabled(s, e) && !e.Created? && !e.Written? && !e.Done? && !e.Finalized?
    ensures AllTruthful(Step(s, e))
  {
    var s' := Step(s, e);
    forall g | g in s'.objects ensures Truthful(s'.objects[g]) {
      if g in s.objects { assert Truthful(s.objects[g]); }
    }
  }

  lemma {:induction false} RunTruth(s: State, es: seq<Event>)
    requires AllTruthful(s)
    ensures AllTruthful(Run(s, es))
    decreases |es|
  {
    if es == [] {
    } else {
      StepTruth(s, es[0]);
      RunTruth(Step(s, es[0]), es[1..]);
    }
  }

  /** For every run, with offers and chunks of any sender whatever, aborts and re-offers included: a file is
   *  reported complete only when the bytes handed out have the hash it was offered with. */
  lemma CompletedIsIntact(es: seq<Event>, g: Object, k: nat)
    requires var r := Run(INITIAL, es); g in r.objects && k < |r.objects[g].outcomes| && r.objects[g].outcomes[k].Completed?
    ensures var f := Run(INITIAL, es).objects[g]; f.outcomes[k].sha256 == f.offer.sha256
  {
    RunTruth(INITIAL, es);
    assert Truthful(Run(INITIAL, es).objects[g]);
  }

  const ONE_BYTE_OFFER := Offer("f", 1, 1, 1, Sha([7]))

  /** A file of one byte, offered; its sink is created, and its chunk arrives twice before the first write
   *  is over. */
  function TwoCopies(): State {
    var f := NewFile(ONE_BYTE_OFFER).(ready := true, handled := {0}, issued := {0}, parts := map[0 := [7]], total := 1);
    State(map["f" := 0], map[0 := f], 1, map[1 := Writing(0, 0, [7]), 2 := Writing(0, 0, [7])], 3)
  }

  lemma TwoCopiesReached()
    ensures var s1 := Step(INITIAL, Offered(ONE_BYTE_OFFER));
            var s2 := Step(s1, Created(0, []));
            Step(Step(s2, Chunk("f", 0, [7])), Chunk("f", 0, [7])) == TwoCopies()
  {
    var s1 := Step(INITIAL, Offered(ONE_BYTE_OFFER));
    var f := NewFile(ONE_BYTE_OFFER);
    assert s1 == State(map["f" := 0], map[0 := f], 1, map[0 := Creating(0)], 1);
    CreatedEmpty(s1, 0, 0);
    var s2 := Step(s1, Created(0, []));
    assert s2 == State(map["f" := 0], map[0 := f.(ready := true)], 1, map[], 1);
    var s3 := Step(s2, Chunk("f", 0, [7]));
    var g := f.(ready := true, handled := {0}, issued := {0}, parts := map[0 := [7]], total := 1);
    assert Issue(f.(ready := true), 0, [7]).(handled := {} + {0}) == g;
    assert s3 == State(map["f" := 0], map[0 := g], 1, map[1 := Writing(0, 0, [7])], 2);
    assert Issue(g, 0, [7]).(handled := {0} + {0}) == g;
  }

  function FirstFile(): File {
    File(ONE_BYTE_OFFER, true, {0}, 1, map[], map[0 := [7]], 1, {0}, {0}, true, false, [])
  }

  lemma FirstCopyCompletes()
    ensures Step(TwoCopies(), Written(1))
         == State(map[], map[0 := FirstFile()], 1,
                  map[1 := Finalizing(0, map[0 := [7]], 1), 2 := Writing(0, 0, [7])], 3)
  {
    var s := TwoCopies();
    var f := Receive(s.objects[0], 0, [7]);
    assert f == FirstFile().(finalized := false);
    var r := Put(s, 0, f);
    assert OnWritten(s, 1) == CheckFull(r, 1, 0) == Complete(r, 1, "f");
  }

  /** A caller that offers an id again can make the receiver fail.  A one-chunk file whose chunk arrives twice is completed by
   *  the first copy; the file is offered again, its sink is created, and the second copy of the old chunk
   *  completes the new transfer, into which nothing has been written. */
  lemma ReofferedTooEarly()
    ensures var s := Step(Step(Step(TwoCopies(), Written(1)), Offered(ONE_BYTE_OFFER)), Created(3, []));
            CutShort(Step(s, Written(2)), 1)
  {
    OfferedAgain();
    ReadyAgain();
    SecondCopyCompletes();
  }

  lemma ReadyAgain()
    ensures var t := State(map["f" := 1], map[0 := FirstFile(), 1 := NewFile(ONE_BYTE_OFFER)], 2,
                           map[1 := Finalizing(0, map[0 := [7]], 1), 2 := Writing(0, 0, [7]), 3 := Creating(1)], 4);
            Step(t, Created(3, [])) ==
            State(map["f" := 1], map[0 := FirstFile(), 1 := NewFile(ONE_BYTE_OFFER).(ready := true)], 2,
                  map[1 := Finalizing(0, map[0 := [7]], 1), 2 := Writing(0, 0, [7])], 4)
  {
    var t := State(map["f" := 1], map[0 := FirstFile(), 1 := NewFile(ONE_BYTE_OFFER)], 2,
                   map[1 := Finalizing(0, map[0 := [7]], 1), 2 := Writing(0, 0, [7]), 3 := Creating(1)], 4);
    CreatedEmpty(t, 3, 1);
    assert t.calls - {3} == map[1 := Finalizing(0, map[0 := [7]], 1), 2 := Writing(0, 0, [7])];
  }

  lemma OfferedAgain()
    ensures Step(Step(TwoCopies(), Written(1)), Offered(ONE_BYTE_OFFER)) ==
            State(map["f" := 1], map[0 := FirstFile(), 1 := NewFile(ONE_BYTE_OFFER)], 2,
                  map[1 := Finalizing(0, map[0 := [7]], 1), 2 := Writing(0, 0, [7]), 3 := Creating(1)], 4)
  {
    FirstCopyCompletes();
  }

  lemma SecondCopyCompletes()
    ensures var u := State(map["f" := 1], map[0 := FirstFile(), 1 := NewFile(ONE_BYTE_OFFER).(ready := true)], 2,
                           map[1 := Finalizing(0, map[0 := [7]], 1), 2 := Writing(0, 0, [7])], 4);
            CutShort(Step(u, Written(2)), 1)
  {
    var u := State(map["f" := 1], map[0 := FirstFile(), 1 := NewFile(ONE_BYTE_OFFER).(ready := true)], 2,
                   map[1 := Finalizing(0, map[0 := [7]], 1), 2 := Writing(0, 0, [7])], 4);
    var f := Receive(u.objects[0], 0, [7]);
    assert f.received == {0};
    var r := Put(u, 0, f);
    assert OnWritten(u, 2) == CheckFull(r, 2, 0) == Complete(r, 2, "f");
    assert 0 !in r.objects[1].received;
  }
}
