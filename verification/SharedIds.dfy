/** What other parties that know a message's id can make of it (orpal-client.ts, processFrame): an awk is not
 *  asked whether it comes from the message's recipient, and a contact's store knows a row by its id alone,
 *  whoever sent it.  When can a message be lost, and what keeps it from being lost for good?
 */
module SharedIds {
  import opened Common
  import W = DeliveryWorker
  import opened DeliverySystem
  import P = DeliveryProgress

  /** A message to an honest contact that was queued, is no more, and is not stored by its recipient. */
  ghost predicate Lost(s: System, id: Id) {
    id in s.written && Due(s, id) && id !in s.worker.rows && !Stored(s, id)
  }

  /** The sender compares an awk's origin with the message's recipient. */
  ghost predicate Checks(s: System, e: Event, id: Id) { e.DeliverAwk? && e.id == id && id in s.sent ==> e.from == s.sent[id].to }

  ghost predicate Checked(s: System, es: seq<Event>, id: Id)
    decreases |es|
  {
    es != [] ==> Checks(s, es[0], id) && Checked(Step(s, es[0]), es[1..], id)
  }

  /** Besides, no other party's row comes under the id at the recipient. */
  ghost predicate Careful(s: System, es: seq<Event>, id: Id)
    decreases |es|
  {
    es != [] ==> Checks(s, es[0], id) && !TakesId(s, es[0], id) && Careful(Step(s, es[0]), es[1..], id)
  }

  lemma {:induction false} CarefulIsEnough(s: System, es: seq<Event>, id: Id)
    requires Careful(s, es, id)
    ensures NeverBreaks(s, es, id) && Checked(s, es, id)
    decreases |es|
  {
    if es == [] {
    } else {
      CarefulIsEnough(Step(s, es[0]), es[1..], id);
    }
  }

  /** The harm is done: the message can be lost however careful everyone is from now on. */
  ghost predicate Doomed(s: System, id: Id) {
    exists es :: Careful(s, es, id) && Lost(Run(s, es), id)
  }

  lemma KeptIsNotDoomed(s: System, id: Id)
    requires Authentic(s) && Kept(s, id)
    ensures !Doomed(s, id)
  {
    forall es | Careful(s, es, id) ensures !Lost(Run(s, es), id) {
      CarefulIsEnough(s, es, id);
      RunKept(s, es, id);
    }
  }

  // ---------------------------------------------------------------------------------------------
  // How a message is lost
  // ---------------------------------------------------------------------------------------------

  lemma LostIsDoomed(s: System, id: Id)
    requires Lost(s, id)
    ensures Doomed(s, id)
  {
    assert Careful(s, [], id) && Run(s, []) == s;
  }

  lemma DoomedBefore(s: System, e: Event, id: Id)
    requires Checks(s, e, id) && !TakesId(s, e, id) && Doomed(Step(s, e), id)
    ensures Doomed(s, id)
  {
    var es :| Careful(Step(s, e), es, id) && Lost(Run(Step(s, e), es), id);
    assert ([e] + es)[1..] == es;
    assert Careful(s, [e] + es, id) && Run(s, [e] + es) == Run(Step(s, e), es);
  }

  /** A queued message to an honest contact that does not hold it. */
  ghost predicate Open(s: System, id: Id) {
    W.RowsKeyed(s.worker) && Due(s, id) && !Stored(s, id) && id in s.written && id in s.worker.rows
  }

  lemma FromRemoval(s: System, c: W.Call, id: Id)
    requires Open(s, id) && c in s.worker.calls && s.worker.calls[c] == W.AckRemove(id)
    ensures Doomed(s, id)
  {
    var listing := P.ListingOf(s.worker.rows);
    LostIsDoomed(Step(s, Local(W.StoreRuns(c, listing))), id);
    DoomedBefore(s, Local(W.StoreRuns(c, listing)), id);
  }

  lemma FromAckGot(s: System, c: W.Call, id: Id)
    requires Open(s, id) && c in s.worker.calls && s.worker.calls[c] == W.AckGot(id, Some(s.worker.rows[id]))
    ensures Doomed(s, id)
  {
    P.AckCancels(s, c, id);
    FromRemoval(Step(s, Local(W.Resumes(c, 0))), c, id);
    DoomedBefore(s, Local(W.Resumes(c, 0)), id);
  }

  lemma AckLooksUp(s: System, c: W.Call, id: Id, listing: seq<W.Message>)
    requires c in s.worker.calls && s.worker.calls[c] == W.AckGet(id) && W.IsListing(s.worker.rows, listing) && id in s.worker.rows
    ensures Step(s, Local(W.StoreRuns(c, listing))) == s.(worker := W.Park(s.worker, c, W.AckGot(id, Some(s.worker.rows[id]))))
  {
  }

  lemma FromAckGet(s: System, c: W.Call, id: Id)
    requires Open(s, id) && c in s.worker.calls && s.worker.calls[c] == W.AckGet(id)
    ensures Doomed(s, id)
  {
    var listing := P.ListingOf(s.worker.rows);
    AckLooksUp(s, c, id, listing);
    FromAckGot(Step(s, Local(W.StoreRuns(c, listing))), c, id);
    DoomedBefore(s, Local(W.StoreRuns(c, listing)), id);
  }

  /** The recipient's own awk, for a message it does not hold. */
  lemma FromOwnAwk(s: System, id: Id)
    requires Open(s, id) && Awk(id, s.sent[id].to) in s.wire
    ensures Doomed(s, id)
  {
    var e := DeliverAwk(id, s.sent[id].to);
    FromAckGet(Step(s, e), s.worker.nextCall, id);
    DoomedBefore(s, e, id);
  }

  /** Another party's row stands under the id at the recipient. */
  ghost predicate Taken(s: System, id: Id) {
    Due(s, id) && (s.sent[id].to, id) in s.inbox && s.inbox[(s.sent[id].to, id)].Foreign?
  }

  lemma FromTakenLooked(s: System, k: nat, id: Id)
    requires Open(s, id) && k in s.incoming && s.incoming[k] == Looked(s.sent[id].to, id, Ours(s.sent[id]), true)
    ensures Doomed(s, id)
  {
    FromOwnAwk(Step(s, PeerResumes(k, true)), id);
    DoomedBefore(s, PeerResumes(k, true), id);
  }

  /** The recipient takes the message for one it has. */
  lemma FromTakenLooking(s: System, k: nat, id: Id)
    requires Open(s, id) && Taken(s, id) && k in s.incoming && s.incoming[k] == Looking(s.sent[id].to, id, Ours(s.sent[id]))
    ensures Doomed(s, id)
  {
    FromTakenLooked(Step(s, PeerStore(k)), k, id);
    DoomedBefore(s, PeerStore(k), id);
  }

  lemma FromTakenText(s: System, id: Id)
    requires Open(s, id) && Taken(s, id) && Text(id, s.sent[id]) in s.wire
    ensures Doomed(s, id)
  {
    FromTakenLooking(Step(s, DeliverText(id, s.sent[id])), s.nextIncoming, id);
    DoomedBefore(s, DeliverText(id, s.sent[id]), id);
  }

  lemma FromTakenQueued(s: System, id: Id)
    requires Open(s, id) && Taken(s, id)
    ensures Doomed(s, id)
  {
    FromTakenText(Step(s, Retry(id)), id);
    DoomedBefore(s, Retry(id), id);
  }

  // ---------------------------------------------------------------------------------------------
  // Exactly when a message is lost
  // ---------------------------------------------------------------------------------------------

  lemma KeptIsOpen(s: System, id: Id)
    requires Authentic(s) && Kept(s, id) && Due(s, id) && id in s.written && !Stored(s, id)
    ensures Open(s, id)
  {
  }

  lemma TakenIsDoomed(s: System, id: Id)
    requires W.RowsKeyed(s.worker) && id in s.written && Taken(s, id)
    ensures Doomed(s, id)
  {
    if id in s.worker.rows { FromTakenQueued(s, id); } else { LostIsDoomed(s, id); }
  }

  /** One event, for a message whose queue write completed: afterwards it can be lost, however careful everyone
   *  is from then on, if and only if the event stored another party's row under its id at its recipient, or
   *  took an awk for it that is not its recipient's before it was stored. */
  lemma StepDoomsIff(s: System, e: Event, id: Id)
    requires Authentic(s) && Kept(s, id) && id in s.written
    ensures Doomed(Step(s, e), id) <==> Breaks(s, e, id)
  {
    if TakesId(s, e, id) {
      TakenIsDoomed(Step(s, e), id);
    } else if MisleadingAwk(s, e, id) {
      KeptIsOpen(s, id);
      FromAckGet(Step(s, e), s.worker.nextCall, id);
    } else {
      StepKept(s, e, id);
      KeptIsNotDoomed(Step(s, e), id);
    }
  }

  ghost predicate NeverDoomed(s: System, es: seq<Event>, id: Id)
    decreases |es|
  {
    !Doomed(s, id) && (es != [] ==> NeverDoomed(Step(s, es[0]), es[1..], id))
  }

  /** In every run. */
  lemma {:induction false} NeverDoomedIff(s: System, es: seq<Event>, id: Id)
    requires Authentic(s) && Kept(s, id) && id in s.written
    ensures NeverDoomed(s, es, id) <==> NeverBreaks(s, es, id)
    decreases |es|
  {
    KeptIsNotDoomed(s, id);
    if es == [] {
    } else if Breaks(s, es[0], id) {
      StepDoomsIff(s, es[0], id);
      assert !NeverDoomed(Step(s, es[0]), es[1..], id);
    } else {
      StepKept(s, es[0], id);
      NeverDoomedIff(Step(s, es[0]), es[1..], id);
    }
  }

  /** An awk is there to be taken for a message that its recipient does not hold. */
  ghost predicate CanMislead(s: System, id: Id, from: Contact) { Awk(id, from) in s.wire && !Stored(s, id) }

  ghost predicate MisleadsAfter(s: System, es: seq<Event>, id: Id, from: Contact) {
    NeverBreaks(s, es, id) && CanMislead(Run(s, es), id, from)
  }

  lemma ForgedMisleads(s: System, id: Id, from: Contact)
    requires id in s.sent && from !in s.honest && !Stored(s, id)
    ensures MisleadsAfter(s, [Forge(id, from)], id, from)
  {
    var es, t := [Forge(id, from)], Step(s, Forge(id, from));
    assert es[1..] == [] && NeverBreaks(t, [], id) && Run(t, []) == t;
    assert !Breaks(s, es[0], id) && Step(s, es[0]) == t;
    assert Run(s, es) == t && CanMislead(t, id, from);
  }

  /** Whose awks can do harm?  As long as nothing breaks the id, never those of the recipient or of any honest
   *  contact; those of anyone else exactly until the message is stored. */
  lemma AwkMisleadsIff(s: System, id: Id, from: Contact)
    requires Authentic(s) && Kept(s, id) && Due(s, id)
    ensures (exists es :: MisleadsAfter(s, es, id, from)) <==> from !in s.honest && !Stored(s, id)
  {
    forall es | MisleadsAfter(s, es, id, from) ensures from !in s.honest && !Stored(s, id) { RunKept(s, es, id); }
    if from !in s.honest && !Stored(s, id) { ForgedMisleads(s, id, from); }
  }

  // ---------------------------------------------------------------------------------------------
  // Exactly when a message is safe for good
  // ---------------------------------------------------------------------------------------------

  /** A frame of another party that was told the id is unknown, and will be stored under it. */
  predicate Intrudes(s: System, k: nat, id: Id) {
    k in s.incoming && id in s.sent && s.incoming[k].at == s.sent[id].to && s.incoming[k].id == id && s.incoming[k].item.Foreign? &&
    (s.incoming[k].Appending? || (s.incoming[k].Looked? && !s.incoming[k].found))
  }

  /** The recipient holds the message, and no such frame is under way. */
  ghost predicate Settled(s: System, id: Id) { Stored(s, id) && forall k :: !Intrudes(s, k, id) }

  lemma SettledStays(s: System, e: Event, id: Id)
    requires Authentic(s) && Settled(s, id)
    ensures Settled(Step(s, e), id)
  {
    if TakesId(s, e, id) { assert Intrudes(s, e.call, id); }
    StoredStays(s, e, id);
    StepGrows(s, e);
    var v := Step(s, e);
    forall k ensures !Intrudes(v, k, id) { NoIntruder(s, e, k, id); }
  }

  lemma NoIntruder(s: System, e: Event, k: nat, id: Id)
    requires Stored(s, id) && !Intrudes(s, k, id)
    ensures !Intrudes(Step(s, e), k, id)
  {
  }

  lemma {:induction false} SettledForGood(s: System, es: seq<Event>, id: Id)
    requires Authentic(s) && Settled(s, id)
    ensures Settled(Run(s, es), id)
    decreases |es|
  {
    if es == [] {
    } else {
      SettledStays(s, es[0], id);
      StepAuthentic(s, es[0]);
      SettledForGood(Step(s, es[0]), es[1..], id);
    }
  }

  ghost predicate LostAfter(s: System, es: seq<Event>, id: Id) { Lost(Run(s, es), id) }

  /** The message can be lost although the sender compares. */
  ghost predicate CanLose(s: System, id: Id) {
    exists es :: Checked(s, es, id) && LostAfter(s, es, id)
  }

  lemma CanLoseBefore(s: System, e: Event, id: Id)
    requires Checks(s, e, id) && CanLose(Step(s, e), id)
    ensures CanLose(s, id)
  {
    var es :| Checked(Step(s, e), es, id) && LostAfter(Step(s, e), es, id);
    assert ([e] + es)[1..] == es;
    assert Run(s, [e] + es) == Run(Step(s, e), es);
    assert Checked(s, [e] + es, id) && LostAfter(s, [e] + es, id);
  }

  lemma DoomedCanLose(s: System, id: Id)
    requires Doomed(s, id)
    ensures CanLose(s, id)
  {
    var es :| Careful(s, es, id) && Lost(Run(s, es), id);
    CarefulIsEnough(s, es, id);
    assert LostAfter(s, es, id);
  }

  lemma IntruderAppends(s: System, k: nat, id: Id)
    requires W.RowsKeyed(s.worker) && id in s.written && Due(s, id) && Intrudes(s, k, id) && s.incoming[k].Appending?
    ensures CanLose(s, id)
  {
    TakenIsDoomed(Step(s, PeerStore(k)), id);
    DoomedCanLose(Step(s, PeerStore(k)), id);
    CanLoseBefore(s, PeerStore(k), id);
  }

  lemma IntruderLoses(s: System, k: nat, id: Id)
    requires W.RowsKeyed(s.worker) && id in s.written && Due(s, id) && Intrudes(s, k, id)
    ensures CanLose(s, id)
  {
    if s.incoming[k].Appending? {
      IntruderAppends(s, k, id);
    } else {
      IntruderAppends(Step(s, PeerResumes(k, false)), k, id);
      CanLoseBefore(s, PeerResumes(k, false), id);
    }
  }

  /** Another party's frame arrives first. */
  lemma OvertakenLoses(s: System, id: Id, from: Contact)
    requires Open(s, id) && (s.sent[id].to, id) !in s.inbox && from !in s.honest
    ensures CanLose(s, id)
  {
    var k, e := s.nextIncoming, ForeignFrame(s.sent[id].to, id, from, "");
    var t := Step(s, e);
    IntruderLoses(Step(t, PeerStore(k)), k, id);
    CanLoseBefore(t, PeerStore(k), id);
    CanLoseBefore(s, e, id);
  }

  lemma UnsettledCanLose(s: System, id: Id, from: Contact)
    requires Authentic(s) && Kept(s, id) && Due(s, id) && id in s.written && from !in s.honest && !Settled(s, id)
    ensures CanLose(s, id)
  {
    if Stored(s, id) {
      var k :| Intrudes(s, k, id);
      IntruderLoses(s, k, id);
    } else {
      OvertakenLoses(s, id, from);
    }
  }

  /** A message whose queue write completed can never be lost if and only if its recipient holds it already and
   *  no other party's frame with its id is about to be stored; and comparing an awk's sender with the
   *  message's recipient changes nothing about that. */
  lemma SafeForGoodIff(s: System, id: Id, from: Contact)
    requires Authentic(s) && Kept(s, id) && Due(s, id) && id in s.written && from !in s.honest
    ensures (forall es :: !LostAfter(s, es, id)) <==> Settled(s, id)
    ensures (forall es :: Checked(s, es, id) ==> !LostAfter(s, es, id)) <==> Settled(s, id)
  {
    if Settled(s, id) {
      forall es ensures !LostAfter(s, es, id) { SettledForGood(s, es, id); }
    } else {
      UnsettledCanLose(s, id, from);
    }
  }

  /** From the start, with a message in the queue of a fresh worker: there is a run that loses it in which every
   *  awk for it that arrives is its honest recipient's own. */
  lemma RecipientsOwnAwkLoses(s: System, id: Id, from: Contact)
    requires Begins(s) && id in s.worker.rows && s.worker.rows[id].recipient in s.honest && from !in s.honest
    ensures exists es :: Checked(s, es, id) && LostAfter(s, es, id)
  {
    BeginsWell(s, id);
    UnsettledCanLose(s, id, from);
  }
}
