/** FileReceiver (file-transfer.ts): reassembly of incoming files around a sink that is created
 *  asynchronously.  Handlers run to their next await in one step.  A ReceivingFile object is known by
 *  its number, because a suspended handler keeps its object after the entry in `files` is gone.
 */
module FileReceiver {
  import opened Common
  import opened Chunks

  type FileId = string
  type Object = nat
  type Call = nat

  /** The file hash, taken as collision-free: it stands for the bytes hashed. */
  datatype Digest = Sha(content: seq<byte>)

  datatype Offer = Offer(fileId: FileId, size: nat, chunkSize: nat, chunks: nat, sha256: Digest)

  datatype Outcome = Completed(sha256: Digest) | IntegrityFailed | Aborted

  /** A ReceivingFile with the contents of its sink.  `handled`, `issued`, `finalized`, `late` and
   *  `outcomes` are history: chunks taken in while registered, chunks handed to the sink, whether
   *  finalize was called, whether a write was issued after that, and what onComplete was told. */
  datatype File = File(
    offer: Offer,
    ready: bool,
    received: set<nat>,
    transferred: nat,
    buffer: map<nat, seq<byte>>,
    parts: Parts,
    total: nat,
    handled: set<nat>,
    issued: set<nat>,
    finalized: bool,
    late: bool,
    outcomes: seq<Outcome>)

  type Entry = (nat, seq<byte>)

  /** A suspended handler, by the await it is parked at. */
  datatype Await =
    | Creating(file: Object)
    | Flushing(file: Object, i: nat, data: seq<byte>, rest: seq<Entry>)
    | Writing(file: Object, i: nat, data: seq<byte>)
    | Finalizing(file: Object, parts: Parts, total: nat)
    | SinkAborting(file: Object)

  datatype State = State(
    files: map<FileId, Object>,
    objects: map<Object, File>,
    nextObject: Object,
    calls: map<Call, Await>,
    nextCall: Call)

  datatype Event =
    | Offered(offer: Offer)
    | Chunk(fileId: FileId, i: int, data: seq<byte>)
    | Done(fileId: FileId)
    | Created(call: Call, entries: seq<Entry>)
    | CreateFails(call: Call)
    | Written(call: Call)
    | Finalized(call: Call, out: Option<seq<byte>>)
    | Abort(fileId: FileId)
    | SinkAborted(call: Call)

  const INITIAL := State(map[], map[], 0, map[], 0)

  // ---------------------------------------------------------------------------------------------
  // Steps
  // ---------------------------------------------------------------------------------------------

  function Spawn(s: State, a: Await): State {
    s.(calls := s.calls[s.nextCall := a], nextCall := s.nextCall + 1)
  }

  function Park(s: State, c: Call, a: Await): State {
    s.(calls := s.calls[c := a])
  }

  function Finish(s: State, c: Call): State {
    s.(calls := s.calls - {c})
  }

  function Put(s: State, g: Object, f: File): State {
    s.(objects := s.objects[g := f])
  }

  /** sink.writeChunk, as far as the call itself. */
  function Issue(f: File, i: nat, data: seq<byte>): File {
    var o := i * f.offer.chunkSize;
    f.(parts := f.parts[o := data],
       total := f.total + if o in f.parts then 0 else |data|,
       issued := f.issued + {i},
       late := f.late || f.finalized)
  }

  /** What follows an awaited write. */
  function Receive(f: File, i: nat, data: seq<byte>): File {
    f.(received := f.received + {i}, transferred := f.transferred + |data|)
  }

  predicate Full(f: File) {
    |f.received| == f.offer.chunks
  }

  /** The guard of complete: an entry under this id that has its sink. */
  predicate HasSink(s: State, fileId: FileId) {
    fileId in s.files && s.files[fileId] in s.objects && s.objects[s.files[fileId]].ready
  }

  /** complete(fileId), run by call `c`: the entry is looked up again under its id. */
  function Complete(s: State, c: Call, fileId: FileId): State {
    if !HasSink(s, fileId) then Finish(s, c)
    else
      var g := s.files[fileId];
      var f := s.objects[g];
      Park(Put(s.(files := s.files - {fileId}), g, f.(finalized := true)), c, Finalizing(g, f.parts, f.total))
  }

  /** The tail of a handler that has just taken a chunk of object `g`. */
  function CheckFull(s: State, c: Call, g: Object): State
    requires g in s.objects
  {
    if Full(s.objects[g]) then Complete(s, c, s.objects[g].offer.fileId) else Finish(s, c)
  }

  /** The flush loop of onOffer, from the next entry on. */
  function Flush(s: State, c: Call, g: Object, entries: seq<Entry>): State
    requires g in s.objects
    decreases |entries|
  {
    var f := s.objects[g];
    if entries == [] then CheckFull(Put(s, g, f.(buffer := map[])), c, g)
    else if entries[0].0 in f.received then Flush(s, c, g, entries[1..])
    else Park(Put(s, g, Issue(f, entries[0].0, entries[0].1)), c,
              Flushing(g, entries[0].0, entries[0].1, entries[1..]))
  }

  /** `entries` lists the buffered chunks in ascending order. */
  ghost predicate IsSorted(buffer: map<nat, seq<byte>>, entries: seq<Entry>) {
    && (forall i :: i in buffer ==> (i, buffer[i]) in entries)
    && (forall e :: e in entries ==> e.0 in buffer && buffer[e.0] == e.1)
    && (forall j, k :: 0 <= j < k < |entries| ==> entries[j].0 < entries[k].0)
  }

  function NewFile(o: Offer): File {
    File(o, false, {}, 0, map[], map[], 0, {}, {}, false, false, [])
  }

  function OnOffer(s: State, o: Offer): State {
    if o.fileId in s.files then s
    else
      var g := s.nextObject;
      Spawn(Put(s, g, NewFile(o)).(files := s.files[o.fileId := g], nextObject := g + 1), Creating(g))
  }

  function OnChunk(s: State, fileId: FileId, i: int, data: seq<byte>): State {
    if fileId !in s.files || s.files[fileId] !in s.objects then s
    else
      var g := s.files[fileId];
      var f := s.objects[g];
      if i < 0 || i >= f.offer.chunks then s
      else if i in f.received then Put(s, g, f.(handled := f.handled + {i}))
      else if !f.ready then Put(s, g, f.(handled := f.handled + {i}, buffer := f.buffer[i := data]))
      else Spawn(Put(s, g, Issue(f, i, data).(handled := f.handled + {i})), Writing(g, i, data))
  }

  function OnDone(s: State, fileId: FileId): State {
    if HasSink(s, fileId) && Full(s.objects[s.files[fileId]])
    then Complete(s.(nextCall := s.nextCall + 1), s.nextCall, fileId) else s
  }

  function OnAbort(s: State, fileId: FileId): State {
    if fileId !in s.files then s
    else Spawn(s.(files := s.files - {fileId}), SinkAborting(s.files[fileId]))
  }

  function Tell(s: State, c: Call, g: Object, o: Outcome): State
    requires g in s.objects
  {
    Finish(Put(s, g, s.objects[g].(outcomes := s.objects[g].outcomes + [o])), c)
  }

  /** What InMemoryFileSink.finalize may answer for these contents. */
  ghost predicate MayReturn(parts: Parts, total: nat, out: Option<seq<byte>>) {
    && (out.Some? <==> forall o :: o in parts ==> o + |parts[o]| <= total)
    && (out.Some? ==> |out.value| == total && LaidOut(parts, parts.Keys, out.value))
  }

  function OnCreated(s: State, c: Call, g: Object, entries: seq<Entry>): State
    requires g in s.objects
  {
    Flush(Put(s, g, s.objects[g].(ready := true)), c, g, entries)
  }

  function OnWritten(s: State, c: Call): State
    requires c in s.calls && s.calls[c].file in s.objects && (s.calls[c].Flushing? || s.calls[c].Writing?)
  {
    var a := s.calls[c];
    var r := Put(s, a.file, Receive(s.objects[a.file], a.i, a.data));
    if a.Flushing? then Flush(r, c, a.file, a.rest) else CheckFull(r, c, a.file)
  }

  function OnFinalized(s: State, c: Call, g: Object, out: Option<seq<byte>>): State
    requires g in s.objects
  {
    if out.None? then Finish(s, c)
    else if Sha(out.value) != s.objects[g].offer.sha256 then Tell(s, c, g, IntegrityFailed)
    else Tell(s, c, g, Completed(Sha(out.value)))
  }

  ghost predicate Enabled(s: State, e: Event) {
    match e
    case Created(c, entries) =>
      c in s.calls && s.calls[c].Creating? && s.calls[c].file in s.objects
      && IsSorted(s.objects[s.calls[c].file].buffer, entries)
    case CreateFails(c) => c in s.calls && s.calls[c].Creating? && s.calls[c].file in s.objects
    case Written(c) => c in s.calls && (s.calls[c].Flushing? || s.calls[c].Writing?) && s.calls[c].file in s.objects
    case Finalized(c, out) =>
      c in s.calls && s.calls[c].Finalizing? && s.calls[c].file in s.objects
      && MayReturn(s.calls[c].parts, s.calls[c].total, out)
    case SinkAborted(c) => c in s.calls && s.calls[c].SinkAborting? && s.calls[c].file in s.objects
    case _ => true
  }

  /** One event; an event that is not enabled changes nothing. */
  ghost function Step(s: State, e: Event): State {
    if !Enabled(s, e) then s
    else
      match e
      case Offered(o) => OnOffer(s, o)
      case Chunk(id, i, data) => OnChunk(s, id, i, data)
      case Done(id) => OnDone(s, id)
      case Created(c, entries) => OnCreated(s, c, s.calls[c].file, entries)
      case CreateFails(c) =>
        var g := s.calls[c].file;
        Tell(s.(files := s.files - {s.objects[g].offer.fileId}), c, g, Aborted)
      case Written(c) => OnWritten(s, c)
      case Finalized(c, out) => OnFinalized(s, c, s.calls[c].file, out)
      case Abort(id) => OnAbort(s, id)
      case SinkAborted(c) => Tell(s, c, s.calls[c].file, Aborted)
  }

  ghost function Run(s: State, es: seq<Event>): State
    decreases |es|
  {
    if es == [] then s else Run(Step(s, es[0]), es[1..])
  }

  // ---------------------------------------------------------------------------------------------
  // The receiver object
  // ---------------------------------------------------------------------------------------------

  /** `objects` and `calls` are the heap's ReceivingFile objects and the host's suspended handlers; every
   *  method is the stretch of code from one await to the next. */
  class Receiver {
    var files: map<FileId, Object>
    var objects: map<Object, File>
    var nextObject: Object
    var calls: map<Call, Await>
    var nextCall: Call

    constructor ()
      ensures Value() == INITIAL
    {
      files, objects, nextObject, calls, nextCall := map[], map[], 0, map[], 0;
    }

    ghost function Value(): State
      reads this
    {
      State(files, objects, nextObject, calls, nextCall)
    }

    /** onOffer, up to the creation of the sink. */
    method HandleOffer(o: Offer)
      modifies this
      ensures Value() == Step(old(Value()), Offered(o))
    {
      if o.fileId in files { return; }
      var g := nextObject;
      nextObject := g + 1;
      objects := objects[g := NewFile(o)];
      files := files[o.fileId := g];
      calls := calls[nextCall := Creating(g)];
      nextCall := nextCall + 1;
    }

    method HandleChunk(fileId: FileId, i: int, data: seq<byte>)
      modifies this
      ensures Value() == Step(old(Value()), Chunk(fileId, i, data))
    {
      if fileId !in files || files[fileId] !in objects { return; }
      var g := files[fileId];
      var f := objects[g];
      if i < 0 || i >= f.offer.chunks { return; }
      if i in f.received {
        objects := objects[g := f.(handled := f.handled + {i})];
        return;
      }
      if !f.ready {
        objects := objects[g := f.(handled := f.handled + {i}, buffer := f.buffer[i := data])];
        return;
      }
      objects := objects[g := Issue(f, i, data).(handled := f.handled + {i})];
      calls := calls[nextCall := Writing(g, i, data)];
      nextCall := nextCall + 1;
    }

    /** complete, up to the await of finalize. */
    method CompleteFile(c: Call, fileId: FileId)
      modifies this`files, this`objects, this`calls
      ensures Value() == Complete(old(Value()), c, fileId)
    {
      if fileId !in files || files[fileId] !in objects || !objects[files[fileId]].ready {
        calls := calls - {c};
        return;
      }
      var g := files[fileId];
      var f := objects[g];
      files := files - {fileId};
      objects := objects[g := f.(finalized := true)];
      calls := calls[c := Finalizing(g, f.parts, f.total)];
    }

    method HandleDone(fileId: FileId)
      modifies this
      ensures Value() == Step(old(Value()), Done(fileId))
    {
      if fileId !in files || files[fileId] !in objects { return; }
      var f := objects[files[fileId]];
      if !f.ready || |f.received| != f.offer.chunks { return; }
      var c := nextCall;
      nextCall := nextCall + 1;
      CompleteFile(c, fileId);
    }

    /** The flush loop of onOffer from its next entry to its next await, or on to its end. */
    method RunFlush(c: Call, g: Object, entries: seq<Entry>)
      requires g in objects
      modifies this`files, this`objects, this`calls
      ensures Value() == Flush(old(Value()), c, g, entries)
    {
      var k := 0;
      while k < |entries| && entries[k].0 in objects[g].received
        invariant 0 <= k <= |entries|
        invariant g in objects && Value() == old(Value())
        invariant Flush(old(Value()), c, g, entries) == Flush(old(Value()), c, g, entries[k..])
      {
        k := k + 1;
      }
      var f := objects[g];
      if k < |entries| {
        var (i, data) := entries[k];
        objects := objects[g := Issue(f, i, data)];
        calls := calls[c := Flushing(g, i, data, entries[k + 1..])];
        assert entries[k..][1..] == entries[k + 1..];
        return;
      }
      objects := objects[g := f.(buffer := map[])];
      if |f.received| == f.offer.chunks {
        CompleteFile(c, f.offer.fileId);
      } else {
        calls := calls - {c};
      }
    }

    /** The buffered chunks in ascending order. */
    method SortBuffer(buffer: map<nat, seq<byte>>) returns (entries: seq<Entry>)
      ensures IsSorted(buffer, entries)
    {
      var left: set<nat> := buffer.Keys;
      entries := [];
      while left != {}
        invariant left <= buffer.Keys
        invariant IsSorted(buffer - left, entries)
        invariant forall i, j :: i in buffer.Keys - left && j in left ==> i < j
        decreases left
      {
        var i: nat := Least(left);
        ghost var was, sorted := left, entries;
        entries := entries + [(i, buffer[i])];
        left := left - {i};
        assert (i, buffer[i]) == entries[|entries| - 1];
        forall j | j in buffer - left ensures (j, buffer[j]) in entries {
          if j != i { assert j in buffer - was && (j, buffer[j]) in sorted; }
        }
      }
      assert buffer - left == buffer;
    }

    /** createSink resolved. */
    method SinkReady(c: Call) returns (entries: seq<Entry>)
      requires c in calls && calls[c].Creating? && calls[c].file in objects
      modifies this
      ensures Value() == Step(old(Value()), Created(c, entries))
      ensures IsSorted(old(objects[calls[c].file].buffer), entries)
    {
      var g := calls[c].file;
      entries := SortBuffer(objects[g].buffer);
      objects := objects[g := objects[g].(ready := true)];
      RunFlush(c, g, entries);
    }

    /** createSink rejected. */
    method SinkFailed(c: Call)
      requires c in calls && calls[c].Creating? && calls[c].file in objects
      modifies this
      ensures Value() == Step(old(Value()), CreateFails(c))
    {
      var g := calls[c].file;
      var f := objects[g];
      files := files - {f.offer.fileId};
      objects := objects[g := f.(outcomes := f.outcomes + [Aborted])];
      calls := calls - {c};
    }

    /** An awaited writeChunk resolved. */
    method WriteDone(c: Call)
      requires c in calls && (calls[c].Flushing? || calls[c].Writing?) && calls[c].file in objects
      modifies this
      ensures Value() == Step(old(Value()), Written(c))
    {
      var a := calls[c];
      var f := Receive(objects[a.file], a.i, a.data);
      objects := objects[a.file := f];
      if a.Flushing? {
        RunFlush(c, a.file, a.rest);
      } else if |f.received| == f.offer.chunks {
        CompleteFile(c, f.offer.fileId);
      } else {
        calls := calls - {c};
      }
    }

    /** finalize resolved with the hash of the assembled bytes, or threw. */
    method FinalizeDone(c: Call, out: Option<seq<byte>>)
      requires c in calls && calls[c].Finalizing? && calls[c].file in objects
      requires MayReturn(calls[c].parts, calls[c].total, out)
      modifies this
      ensures Value() == Step(old(Value()), Finalized(c, out))
    {
      var g := calls[c].file;
      var f := objects[g];
      calls := calls - {c};
      if out.None? { return; }
      var got := Sha(out.value);
      if got != f.offer.sha256 {
        objects := objects[g := f.(outcomes := f.outcomes + [IntegrityFailed])];
        return;
      }
      objects := objects[g := f.(outcomes := f.outcomes + [Completed(got)])];
    }
  }
}
