/** Every transfer under way can still be completed: from each state that an honest sender's frames lead to, the
 *  sink's creation, the missing chunks, the returns of the writes and of finalize bring an accepted offer to its one
 *  outcome, the intact file.
 */
module TransferProgress {
  import opened Common
  import opened Chunks
  import opened FileReceiver
  import opened FileReceiverProofs

  /** Honest chunks, and returns of what was called. */
  ghost predicate Helps(src: Sources, e: Event) {
    e.Created? || e.Written? || e.Finalized? || (e.Chunk? && HonestData(src, e.fileId, e.i, e.data))
  }

  ghost predicate Intact(s: State, g: Object) {
    g in s.objects && s.objects[g].outcomes == [Completed(s.objects[g].offer.sha256)]
  }

  ghost predicate IntactAfter(src: Sources, s: State, g: Object, es: seq<Event>) {
    (forall e :: e in es ==> Helps(src, e)) && Intact(Run(s, es), g)
  }

  ghost predicate CanComplete(src: Sources, s: State, g: Object) { exists es :: IntactAfter(src, s, g, es) }

  /** An offer under way: accepted, not aborted, no outcome yet. */
  ghost predicate UnderWay(src: Sources, s: State, g: Object) {
    Inv(src, s, Nobody) && g in s.objects && s.objects[g].outcomes == []
  }

  lemma CompleteNow(src: Sources, s: State, g: Object)
    requires Intact(s, g)
    ensures CanComplete(src, s, g)
  {
    assert IntactAfter(src, s, g, []);
  }

  lemma CompleteLater(src: Sources, s: State, e: Event, g: Object)
    requires Helps(src, e) && CanComplete(src, Step(s, e), g)
    ensures CanComplete(src, s, g)
  {
    var es :| IntactAfter(src, Step(s, e), g, es);
    assert ([e] + es)[1..] == es && forall f :: f in [e] + es ==> Helps(src, f);
    assert IntactAfter(src, s, g, [e] + es);
  }

  // ---------------------------------------------------------------------------------------------
  // Finalizing
  // ---------------------------------------------------------------------------------------------

  /** The file itself is a layout of all its slices. */
  lemma FileIsLaidOut(parts: Parts, source: seq<byte>, chunkSize: nat, have: set<nat>)
    requires chunkSize > 0 && Holds(parts, source, chunkSize, have)
    requires forall i: nat :: i < ChunkCount(|source|, chunkSize) ==> i in have
    ensures LaidOut(parts, parts.Keys, source)
  {
    forall p | 0 <= p < |source| ensures LaidOutAt(parts, parts.Keys, source, p) {
      Tiling(|source|, chunkSize, p);
      var k := p / chunkSize;
      InRange(|source|, chunkSize, k);
      assert k in have && Reaches(parts, k * chunkSize, p);
      forall o | o in parts && Reaches(parts, o, p) ensures source[p] == parts[o][p - o] {
        var i :| i in have && o == i * chunkSize;
        InRange(|source|, chunkSize, i);
      }
    }
  }

  lemma FinalizeAnswers(src: Sources, f: File)
    requires FileOk(src, f) && f.finalized
    ensures MayReturn(f.parts, f.total, Some(src[f.offer.fileId].bytes))
  {
    var b, cs := src[f.offer.fileId].bytes, f.offer.chunkSize;
    VolumeOfPrefix(|b|, cs, f.offer.chunks, f.issued);
    PartsFit(f.parts, b, cs, f.issued);
    FileIsLaidOut(f.parts, b, cs, f.issued);
  }

  lemma FromFinalizing(src: Sources, s: State, g: Object)
    requires UnderWay(src, s, g) && s.objects[g].finalized
    ensures CanComplete(src, s, g)
  {
    assert ObjectOk(src, s, Nobody, g) && Finalizes(s, g);
    var f := s.objects[g];
    var c :| c in s.calls && s.calls[c].Finalizing? && s.calls[c].file == g;
    assert CallOk(src, s, s.calls[c]);
    var out := Some(src[f.offer.fileId].bytes);
    FinalizeAnswers(src, f);
    FinalizedIff(s, c, out);
    CompleteNow(src, Step(s, Finalized(c, out)), g);
    CompleteLater(src, s, Finalized(c, out), g);
  }

  // ---------------------------------------------------------------------------------------------
  // All chunks are there
  // ---------------------------------------------------------------------------------------------

  /** The flush loop has nothing left to write. */
  lemma {:induction false} FlushSkips(s: State, c: Call, g: Object, entries: seq<Entry>)
    requires g in s.objects && forall e :: e in entries ==> e.0 in s.objects[g].received
    ensures Flush(s, c, g, entries) == CheckFull(Put(s, g, s.objects[g].(buffer := map[])), c, g)
    decreases |entries|
  {
    if entries == [] {
    } else {
      assert entries[0] in entries && forall e :: e in entries[1..] ==> e in entries;
      FlushSkips(s, c, g, entries[1..]);
    }
  }

  /** Everything the loop still holds has been received. */
  lemma NothingLeft(src: Sources, s: State, c: Call, g: Object)
    requires c in s.calls && s.calls[c].Flushing? && s.calls[c].file == g
    requires g in s.objects && CallOk(src, s, s.calls[c]) && All(s.objects[g])
    ensures s.calls[c].i in s.objects[g].received && forall e :: e in s.calls[c].rest ==> e.0 in s.objects[g].received
  {
    var a, f := s.calls[c], s.objects[g];
    assert DataOk(src, f.offer, a.i, a.data);
    forall e | e in a.rest ensures e.0 in f.received { assert DataOk(src, f.offer, e.0, e.1); }
  }

  /** Completing a registered file that has its sink finalizes it. */
  lemma FullFinalizes(s: State, c: Call, g: Object)
    requires Registered(s, g) && s.objects[g].ready && Full(s.objects[g])
    ensures var v := CheckFull(s, c, g); g in v.objects && v.objects[g].finalized && v.objects[g].outcomes == s.objects[g].outcomes
  {
  }

  lemma AllIsFull(src: Sources, s: State, g: Object, c: Call)
    requires c in s.calls && s.calls[c].Flushing? && s.calls[c].file == g
    requires g in s.objects && FileOk(src, s.objects[g]) && CallOk(src, s, s.calls[c]) && All(s.objects[g])
    ensures Full(s.objects[g]) && s.objects[g].received + {s.calls[c].i} == s.objects[g].received
    ensures forall e :: e in s.calls[c].rest ==> e.0 in s.objects[g].received
  {
    NothingLeft(src, s, c, g);
    CountFull(src, s.objects[g]);
  }

  /** A full file whose flush loop returns is finalized. */
  lemma LastWriteFinalizes(src: Sources, s: State, g: Object, c: Call)
    requires UnderWay(src, s, g) && Registered(s, g) && s.objects[g].ready && All(s.objects[g])
    requires c in s.calls && s.calls[c].Flushing? && s.calls[c].file == g
    ensures var v := Step(s, Written(c)); g in v.objects && v.objects[g].finalized && v.objects[g].outcomes == []
  {
    assert ObjectOk(src, s, Nobody, g) && CallOk(src, s, s.calls[c]);
    AllIsFull(src, s, g, c);
    LastWrite(s, g, c);
  }

  lemma LastWrite(s: State, g: Object, c: Call)
    requires Registered(s, g) && s.objects[g].ready && Full(s.objects[g]) && c in s.calls && s.calls[c].Flushing? && s.calls[c].file == g
    requires s.objects[g].received + {s.calls[c].i} == s.objects[g].received
    requires forall e :: e in s.calls[c].rest ==> e.0 in s.objects[g].received
    ensures var v := Step(s, Written(c));
            g in v.objects && v.objects[g].finalized && v.objects[g].outcomes == s.objects[g].outcomes
  {
    var a := s.calls[c];
    var r := Put(s, g, Receive(s.objects[g], a.i, a.data));
    FlushSkips(r, c, g, a.rest);
    FullFinalizes(Put(r, g, r.objects[g].(buffer := map[])), c, g);
  }

  lemma FromAll(src: Sources, s: State, g: Object)
    requires UnderWay(src, s, g) && s.objects[g].ready && All(s.objects[g])
    ensures CanComplete(src, s, g)
  {
    assert ObjectOk(src, s, Nobody, g);
    if s.objects[g].finalized {
      FromFinalizing(src, s, g);
    } else {
      CountFull(src, s.objects[g]);
      var c :| c in s.calls && s.calls[c].Flushing? && s.calls[c].file == g;
      LastWriteFinalizes(src, s, g, c);
      StepKeeps(src, s, Written(c));
      FromFinalizing(src, Step(s, Written(c)), g);
      CompleteLater(src, s, Written(c), g);
    }
  }

  // ---------------------------------------------------------------------------------------------
  // A chunk is missing
  // ---------------------------------------------------------------------------------------------

  /** A missing chunk that arrives is written, and when its write returns it counts. */
  lemma ChunkCounts(src: Sources, s: State, g: Object, i: nat)
    requires UnderWay(src, s, g) && s.objects[g].ready && i < s.objects[g].offer.chunks && i !in s.objects[g].received
    ensures var id, c := s.objects[g].offer.fileId, s.nextCall;
            id in src && HonestOffer(src, s.objects[g].offer) &&
            var t := Step(s, Chunk(id, i, Slice(src[id].bytes, src[id].chunkSize, i)));
            var v := Step(t, Written(c));
            Inv(src, t, Nobody) && UnderWay(src, v, g) && v.objects[g].ready && v.objects[g].offer == s.objects[g].offer &&
            v.objects[g].received == s.objects[g].received + {i}
  {
    assert ObjectOk(src, s, Nobody, g);
    var f, id, c := s.objects[g], s.objects[g].offer.fileId, s.nextCall;
    assert !All(f);
    var data := Slice(src[id].bytes, src[id].chunkSize, i);
    StepKeeps(src, s, Chunk(id, i, data));
    var t := Step(s, Chunk(id, i, data));
    assert t.calls[c] == Writing(g, i, data) && t.objects[g] == Issue(f, i, data).(handled := f.handled + {i});
    StepKeeps(src, t, Written(c));
    WriteCounts(t, c, g, i, data);
  }

  lemma WriteCounts(t: State, c: Call, g: Object, i: nat, data: seq<byte>)
    requires c in t.calls && t.calls[c] == Writing(g, i, data) && g in t.objects
    ensures var v := Step(t, Written(c));
            g in v.objects && v.objects[g].received == t.objects[g].received + {i} && v.objects[g].ready == t.objects[g].ready &&
            v.objects[g].offer == t.objects[g].offer && v.objects[g].outcomes == t.objects[g].outcomes
  {
  }

  /** One more chunk, and what is missing shrinks. */
  lemma OneMoreChunk(src: Sources, s: State, g: Object) returns (e: Event)
    requires UnderWay(src, s, g) && s.objects[g].ready && !All(s.objects[g])
    ensures Helps(src, e)
    ensures var v := Step(Step(s, e), Written(s.nextCall));
            UnderWay(src, v, g) && v.objects[g].ready && v.objects[g].offer == s.objects[g].offer &&
            |s.objects[g].received| < |v.objects[g].received| <= v.objects[g].offer.chunks
  {
    assert ObjectOk(src, s, Nobody, g);
    var f, id, c := s.objects[g], s.objects[g].offer.fileId, s.nextCall;
    var i: nat :| i < f.offer.chunks && i !in f.received;
    e := Chunk(id, i, Slice(src[id].bytes, src[id].chunkSize, i));
    var v := Step(Step(s, e), Written(c));
    ChunkCounts(src, s, g, i);
    assert ObjectOk(src, v, Nobody, g);
    ReceivedBound(src, v.objects[g]);
  }

  lemma ReceivedBound(src: Sources, f: File)
    requires FileOk(src, f)
    ensures |f.received| <= f.offer.chunks
  {
    CountFull(src, f);
    FullByCount(f.received, f.offer.chunks);
  }

  lemma {:induction false} FromReady(src: Sources, s: State, g: Object)
    requires UnderWay(src, s, g) && s.objects[g].ready
    ensures CanComplete(src, s, g)
    decreases s.objects[g].offer.chunks - |s.objects[g].received|
  {
    if All(s.objects[g]) {
      FromAll(src, s, g);
    } else {
      var e := OneMoreChunk(src, s, g);
      var t := Step(s, e);
      FromReady(src, Step(t, Written(s.nextCall)), g);
      CompleteLater(src, t, Written(s.nextCall), g);
      CompleteLater(src, s, e, g);
    }
  }

  // ---------------------------------------------------------------------------------------------
  // The sink is missing
  // ---------------------------------------------------------------------------------------------

  /** The buffered chunks can be listed in ascending order. */
  lemma ListsOneMore(buffer: map<nat, seq<byte>>, m: nat, before: seq<Entry>)
    requires m in buffer && IsSorted(buffer - {m}, before) && forall i :: i in buffer ==> i <= m
    ensures IsSorted(buffer, before + [(m, buffer[m])])
  {
    var rest, entries := buffer - {m}, before + [(m, buffer[m])];
    forall i | i in buffer ensures (i, buffer[i]) in entries {
      if i != m { assert (i, rest[i]) in before; } else { assert entries[|before|] == (m, buffer[m]); }
    }
    forall j | 0 <= j < |before| ensures before[j].0 < m { assert before[j] in before && before[j].0 in rest; }
  }

  lemma {:induction false} Listing(buffer: map<nat, seq<byte>>) returns (entries: seq<Entry>)
    ensures IsSorted(buffer, entries)
    decreases buffer.Keys
  {
    if buffer == map[] {
      entries := [];
    } else {
      var m := Greatest(buffer.Keys);
      assert m in buffer.Keys && (buffer - {m}).Keys == buffer.Keys - {m};
      var before := Listing(buffer - {m});
      ListsOneMore(buffer, m, before);
      entries := before + [(m, buffer[m])];
    }
  }

  lemma {:induction false} Greatest(xs: set<nat>) returns (m: nat)
    requires xs != {}
    ensures m in xs && forall x :: x in xs ==> x <= m
    decreases xs
  {
    var x :| x in xs;
    var rest := xs - {x};
    assert forall y :: y in xs ==> y in rest || y == x;
    m := x;
    if rest != {} {
      var n := Greatest(rest);
      if n > x { m := n; }
    }
  }

  lemma FromCreating(src: Sources, s: State, g: Object)
    requires UnderWay(src, s, g) && !s.objects[g].ready
    ensures CanComplete(src, s, g)
  {
    assert ObjectOk(src, s, Nobody, g);
    assert Registered(s, g) && Creates(s, g);
    var c :| c in s.calls && s.calls[c] == Creating(g);
    var entries := Listing(s.objects[g].buffer);
    var e := Created(c, entries);
    var t := Step(s, e);
    StepKeeps(src, s, e);
    CreatedIsReady(s, c, g, entries);
    FromReady(src, t, g);
    CompleteLater(src, s, e, g);
  }

  lemma CreatedIsReady(s: State, c: Call, g: Object, entries: seq<Entry>)
    requires g in s.objects && c in s.calls && s.calls[c] == Creating(g) && IsSorted(s.objects[g].buffer, entries)
    ensures var t := Step(s, Created(c, entries)); g in t.objects && t.objects[g].ready && t.objects[g].outcomes == s.objects[g].outcomes
  {
    FlushOffers(Put(s, g, s.objects[g].(ready := true)), c, g, entries);
  }

  lemma FromUnderWay(src: Sources, s: State, g: Object)
    requires UnderWay(src, s, g)
    ensures CanComplete(src, s, g)
  {
    if s.objects[g].ready { FromReady(src, s, g); } else { FromCreating(src, s, g); }
  }

  // ---------------------------------------------------------------------------------------------
  // Results
  // ---------------------------------------------------------------------------------------------

  /** From every state reached by an allowed run, every accepted offer that has no outcome yet can still be completed,
   *  with the intact file as its one outcome. */
  lemma EveryTransferCanComplete(src: Sources, es: seq<Event>, g: Object)
    requires RunAllowed(src, INITIAL, es) && g in Run(INITIAL, es).objects && Run(INITIAL, es).objects[g].outcomes == []
    ensures CanComplete(src, Run(INITIAL, es), g)
  {
    RunKeeps(src, INITIAL, es);
    FromUnderWay(src, Run(INITIAL, es), g);
  }

  /** So can an offer that arrives next, if its id is not registered and no handler of an earlier transfer of that id
   *  is suspended. */
  lemma OfferCanComplete(src: Sources, es: seq<Event>, o: Offer)
    requires RunAllowed(src, INITIAL, es) && HonestOffer(src, o) && o.fileId !in Run(INITIAL, es).files && NoStale(Run(INITIAL, es), o.fileId)
    ensures var s := Run(INITIAL, es);
            var t := Step(s, Offered(o));
            s.nextObject in t.objects && t.objects[s.nextObject].offer == o && Registered(t, s.nextObject) && CanComplete(src, t, s.nextObject)
  {
    RunKeeps(src, INITIAL, es);
    var s := Run(INITIAL, es);
    NextIsNew(src, s);
    StepKeeps(src, s, Offered(o));
    FromUnderWay(src, Step(s, Offered(o)), s.nextObject);
  }
}
