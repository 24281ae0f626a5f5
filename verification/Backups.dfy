/** Exporting a device's data and restoring it, merging or replacing
 *  (packages/orpal-core/src/messaging/orpal-client.ts, exportBackup and restoreBackup).
 */
module Backups {
  import opened Common
  import opened Migrations
  import opened Contacts
  import opened Upserts
  import opened AddressBooks

  type MessageId = nat

  datatype Message = Message(id: MessageId, contactKey: Key, text: nat, state: nat)

  /** A row of the pending send queue. */
  datatype Row = Row(messageId: MessageId, recipient: Key, payload: nat, attempts: nat)

  /** `messages` is grouped by conversation. */
  datatype Payload = Payload(
    contacts: seq<Contact>, messages: seq<(Key, seq<Message>)>, pending: seq<Row>, blocked: seq<Key>)

  datatype Device = Device(book: Book, messages: map<MessageId, Message>, queue: map<MessageId, Row>)

  datatype Result = Result(
    contactsImported: nat, contactsSkipped: nat, contactsRejected: nat,
    messagesImported: nat, messagesSkipped: nat, pendingImported: nat)

  function MessageKey(m: Message): MessageId { m.id }

  function RowKey(r: Row): MessageId { r.messageId }

  function Flatten(groups: seq<(Key, seq<Message>)>): seq<Message> {
    if groups == [] then [] else groups[0].1 + Flatten(groups[1..])
  }

  function Elements(ks: seq<Key>): set<Key> { set k | k in ks }

  function Block(b: Book, keys: set<Key>): Book { b.(blocked := keys, requests := b.requests - keys) }

  function Put<V>(m: map<MessageId, V>, xs: seq<V>, id: V -> MessageId, replace: bool): map<MessageId, V> {
    if replace then PutAll(map[], xs, id) else PutAbsent(m, xs, id)
  }

  function Restore(d: Device, p: Payload, replace: bool): Device {
    var keys := if replace then Elements(p.blocked) else d.book.blocked + Elements(p.blocked);
    Device(Block(OnRestore(d.book, p.contacts, replace), keys),
           Put(d.messages, Flatten(p.messages), MessageKey, replace),
           Put(d.queue, p.pending, RowKey, replace))
  }

  /** What becomes of one item of a backup. */
  datatype Mark = Taken | Passed | Refused

  function ContactMark(c: Contact, existing: set<Key>, replace: bool): Mark {
    if CheckCard(CardOf(c)).Some? then Refused
    else if !replace && KeyOf(c) in existing then Passed
    else Taken
  }

  /** Each contact's fate, in order; an imported one exists for those after it. */
  function ContactMarks(cs: seq<Contact>, existing: set<Key>, replace: bool): seq<Mark>
    decreases |cs|
  {
    if cs == [] then []
    else
      var f := ContactMark(cs[0], existing, replace);
      [f] + ContactMarks(cs[1..], if f.Taken? then existing + {KeyOf(cs[0])} else existing, replace)
  }

  function RowMarks<V>(xs: seq<V>, existing: set<MessageId>, id: V -> MessageId, replace: bool): seq<Mark>
    decreases |xs|
  {
    if xs == [] then []
    else
      var f := if !replace && id(xs[0]) in existing then Passed else Taken;
      [f] + RowMarks(xs[1..], existing + {id(xs[0])}, id, replace)
  }

  function HowMany(fs: seq<Mark>, f: Mark): nat {
    if fs == [] then 0 else (if fs[0] == f then 1 else 0) + HowMany(fs[1..], f)
  }

  function Counts(d: Device, p: Payload, replace: bool): Result {
    var cs := ContactMarks(p.contacts, d.book.store.Keys, replace);
    var ms := RowMarks(Flatten(p.messages), d.messages.Keys, MessageKey, replace);
    Result(HowMany(cs, Taken), HowMany(cs, Passed), HowMany(cs, Refused), HowMany(ms, Taken), HowMany(ms, Passed),
           HowMany(RowMarks(p.pending, d.queue.Keys, RowKey, replace), Taken))
  }

  lemma {:induction false} CountsAdd(fs: seq<Mark>)
    ensures HowMany(fs, Taken) + HowMany(fs, Passed) + HowMany(fs, Refused) == |fs|
  {
    if fs == [] {
    } else {
      CountsAdd(fs[1..]);
    }
  }

  lemma HowManyCons(f: Mark, fs: seq<Mark>, g: Mark)
    ensures HowMany([f] + fs, g) == (if f == g then 1 else 0) + HowMany(fs, g)
  {
    assert ([f] + fs)[1..] == fs;
  }

  /** Each contact has one fate; the valid ones are not rejected, and the imported ones are what the restore
   *  registers. */
  lemma {:induction false} ContactMarksCount(cs: seq<Contact>, m: map<Key, Contact>, replace: bool)
    ensures var fs, valid := ContactMarks(cs, m.Keys, replace), ValidOnes(cs);
            |fs| == |cs| && HowMany(fs, Taken) + HowMany(fs, Passed) == |valid| &&
            HowMany(fs, Taken) == if replace then |valid| else Added(m, valid, KeyOf)
    decreases |cs|
  {
    if cs == [] {
    } else {
      var f := ContactMark(cs[0], m.Keys, replace);
      var m' := if f.Taken? then m[KeyOf(cs[0]) := cs[0]] else m;
      assert m'.Keys == if f.Taken? then m.Keys + {KeyOf(cs[0])} else m.Keys;
      ContactMarksCount(cs[1..], m', replace);
      var rest := ContactMarks(cs[1..], m'.Keys, replace);
      HowManyCons(f, rest, Taken);
      HowManyCons(f, rest, Passed);
      if !f.Refused? {
        var valid := ValidOnes(cs[1..]);
        assert ValidOnes(cs) == [cs[0]] + valid && ([cs[0]] + valid)[1..] == valid;
      }
    }
  }

  lemma {:induction false} RowMarksCount<V>(xs: seq<V>, m: map<MessageId, V>, id: V -> MessageId, replace: bool)
    ensures var fs := RowMarks(xs, m.Keys, id, replace);
            |fs| == |xs| && HowMany(fs, Refused) == 0 &&
            HowMany(fs, Taken) == if replace then |xs| else Added(m, xs, id)
    decreases |xs|
  {
    if xs == [] {
    } else {
      var k := id(xs[0]);
      var f := if !replace && k in m then Passed else Taken;
      var m' := if k in m then m else m[k := xs[0]];
      assert m'.Keys == m.Keys + {k};
      RowMarksCount(xs[1..], m', id, replace);
      var rest := RowMarks(xs[1..], m'.Keys, id, replace);
      HowManyCons(f, rest, Taken);
      HowManyCons(f, rest, Refused);
    }
  }

  // ---------------------------------------------------------------------------------------------
  // Merge
  // ---------------------------------------------------------------------------------------------

  lemma MergedStore(b: Book, cs: seq<Contact>)
    ensures OnRestore(b, cs, false).store == PutAbsent(b.store, ValidOnes(cs), KeyOf)
    ensures var v := OnRestore(b, cs, false); v.own == b.own && v.requests == b.requests && v.blocked == b.blocked
  {
    AbsentStore(b, ValidOnes(cs));
    RegisterAllStore(b, Absent(b.store, ValidOnes(cs)));
  }

  /** A merge changes no contact, message or pending row that is there, unblocks no one, and brings in
   *  every valid contact, every message and every row of the backup. */
  lemma MergeChangesNothing(d: Device, p: Payload)
    ensures var r := Restore(d, p, false);
            (forall k :: k in d.book.store ==> k in r.book.store && r.book.store[k] == d.book.store[k]) &&
            (forall k :: k in d.messages ==> k in r.messages && r.messages[k] == d.messages[k]) &&
            (forall k :: k in d.queue ==> k in r.queue && r.queue[k] == d.queue[k]) &&
            d.book.blocked <= r.book.blocked
    ensures var r := Restore(d, p, false);
            (forall i :: 0 <= i < |ValidOnes(p.contacts)| ==> KeyOf(ValidOnes(p.contacts)[i]) in r.book.store) &&
            (forall i :: 0 <= i < |Flatten(p.messages)| ==> MessageKey(Flatten(p.messages)[i]) in r.messages) &&
            (forall i :: 0 <= i < |p.pending| ==> RowKey(p.pending[i]) in r.queue)
  {
    MergedStore(d.book, p.contacts);
    PutAbsentKeeps(d.book.store, ValidOnes(p.contacts), KeyOf);
    PutAbsentKeeps(d.messages, Flatten(p.messages), MessageKey);
    PutAbsentKeeps(d.queue, p.pending, RowKey);
  }

  /** Merging the same backup again changes nothing at all and imports nothing. */
  lemma MergeIsIdempotent(d: Device, p: Payload)
    requires Inv(d.book)
    ensures Restore(Restore(d, p, false), p, false) == Restore(d, p, false)
    ensures var c := Counts(Restore(d, p, false), p, false);
            c.contactsImported == 0 && c.messagesImported == 0 && c.pendingImported == 0
  {
    var r := Restore(d, p, false);
    var valid := ValidOnes(p.contacts);
    MergedStore(d.book, p.contacts);
    MergedStore(r.book, p.contacts);
    PutAbsentTwice(d.book.store, valid, KeyOf);
    PutAbsentTwice(d.messages, Flatten(p.messages), MessageKey);
    PutAbsentTwice(d.queue, p.pending, RowKey);
    RestoreKeeps(d.book, p.contacts, false);
    BlockKeeps(OnRestore(d.book, p.contacts, false), r.book.blocked);
    RestoreKeeps(r.book, p.contacts, false);
    ContactMarksCount(p.contacts, r.book.store, false);
    RowMarksCount(Flatten(p.messages), r.messages, MessageKey, false);
    RowMarksCount(p.pending, r.queue, RowKey, false);
    assert OnRestore(r.book, p.contacts, false) == r.book;
    assert r.book.blocked + Elements(p.blocked) == r.book.blocked;
    assert r.book.requests - r.book.blocked == r.book.requests;
  }

  /** The registry and the store determine each other's part. */
  lemma ContactsRestored(b: Book, v: Book, cs: seq<Contact>, replace: bool)
    requires Inv(b) && Inv(v) && v.own == b.own && v.requests == b.requests && v.blocked == b.blocked
    requires v.store == if replace then PutAll(map[], ValidOnes(cs), KeyOf) else PutAbsent(b.store, ValidOnes(cs), KeyOf)
    ensures v == OnRestore(b, cs, replace)
  {
    MergedStore(b, cs);
    RegisterAllStore(b.(store := map[], registry := map[]), ValidOnes(cs));
    RestoreKeeps(b, cs, replace);
  }

  /** The loops' counters are the counts of fates. */
  lemma CountsMatch(d: Device, p: Payload, replace: bool, r: Result)
    requires r.contactsImported == if replace then |ValidOnes(p.contacts)| else Added(d.book.store, ValidOnes(p.contacts), KeyOf)
    requires r.contactsImported + r.contactsSkipped == |ValidOnes(p.contacts)|
    requires r.contactsImported + r.contactsSkipped + r.contactsRejected == |p.contacts|
    requires r.messagesImported == if replace then |Flatten(p.messages)| else Added(d.messages, Flatten(p.messages), MessageKey)
    requires r.messagesImported + r.messagesSkipped == |Flatten(p.messages)|
    requires r.pendingImported == if replace then |p.pending| else Added(d.queue, p.pending, RowKey)
    ensures r == Counts(d, p, replace)
  {
    CountsAdd(ContactMarks(p.contacts, d.book.store.Keys, replace));
    CountsAdd(RowMarks(Flatten(p.messages), d.messages.Keys, MessageKey, replace));
    ContactMarksCount(p.contacts, d.book.store, replace);
    RowMarksCount(Flatten(p.messages), d.messages, MessageKey, replace);
    RowMarksCount(p.pending, d.queue, RowKey, replace);
  }

  lemma BlockKeeps(b: Book, keys: set<Key>)
    requires Inv(b)
    ensures Inv(Block(b, keys))
  {
  }

  // ---------------------------------------------------------------------------------------------
  // Replace
  // ---------------------------------------------------------------------------------------------

  /** A payload holding all of a device's data, in whatever order the stores list it. */
  predicate IsExport(p: Payload, d: Device) {
    Lists(p.contacts, d.book.store, KeyOf) && Lists(Flatten(p.messages), d.messages, MessageKey) &&
    Lists(p.pending, d.queue, RowKey) && Elements(p.blocked) == d.book.blocked
  }

  /** Replacing any device's data with an export reproduces the exported contacts, messages, pending rows
   *  and block list, and the registry that goes with them. */
  lemma ReplaceReproduces(d: Device, source: Device, p: Payload)
    requires Inv(source.book) && IsExport(p, source)
    ensures var r := Restore(d, p, true);
            r.book.store == source.book.store && r.book.registry == source.book.registry &&
            r.messages == source.messages && r.queue == source.queue && r.book.blocked == source.book.blocked
    ensures Counts(d, p, true).contactsRejected == 0
  {
    forall i | 0 <= i < |p.contacts| ensures Bound(p.contacts[i]) {
      assert KeyOf(p.contacts[i]) in source.book.store;
    }
    AllValid(p.contacts);
    CountsCoverEverything(d, p, true);
    var empty := d.book.(store := map[], registry := map[]);
    RegisterAllStore(empty, p.contacts);
    PutAllOfListing(p.contacts, source.book.store, KeyOf);
    PutAllOfListing(Flatten(p.messages), source.messages, MessageKey);
    PutAllOfListing(p.pending, source.queue, RowKey);
    RegistryOf(empty, p.contacts);
  }

  lemma {:induction false} RegistryOf(b: Book, cs: seq<Contact>)
    requires b.registry == Projection(b.store)
    ensures RegisterAll(b, cs).registry == Projection(RegisterAll(b, cs).store)
    decreases |cs|
  {
    if cs == [] {
    } else {
      assert Register(b, cs[0]).registry == Projection(Register(b, cs[0]).store);
      RegistryOf(Register(b, cs[0]), cs[1..]);
    }
  }

  /** Counting each item's own fate: imported, skipped and rejected contacts are all the contacts, the rejected
   *  ones those whose binding is invalid; imported and skipped messages are all the messages; and in a merge
   *  the imported are exactly those the device gains. */
  lemma CountsCoverEverything(d: Device, p: Payload, replace: bool)
    ensures var c := Counts(d, p, replace);
            c.contactsImported + c.contactsSkipped + c.contactsRejected == |p.contacts| &&
            c.contactsRejected == |p.contacts| - |ValidOnes(p.contacts)| &&
            c.messagesImported + c.messagesSkipped == |Flatten(p.messages)|
    ensures var c, r := Counts(d, p, false), Restore(d, p, false);
            c.contactsImported == |r.book.store| - |d.book.store| &&
            c.messagesImported == |r.messages| - |d.messages| && c.pendingImported == |r.queue| - |d.queue|
  {
    CountsAdd(ContactMarks(p.contacts, d.book.store.Keys, replace));
    CountsAdd(RowMarks(Flatten(p.messages), d.messages.Keys, MessageKey, replace));
    ContactMarksCount(p.contacts, d.book.store, replace);
    RowMarksCount(Flatten(p.messages), d.messages, MessageKey, replace);
    ContactMarksCount(p.contacts, d.book.store, false);
    RowMarksCount(Flatten(p.messages), d.messages, MessageKey, false);
    RowMarksCount(p.pending, d.queue, RowKey, false);
    MergedStore(d.book, p.contacts);
    AddedGrows(d.book.store, ValidOnes(p.contacts), KeyOf);
    AddedGrows(d.messages, Flatten(p.messages), MessageKey);
    AddedGrows(d.queue, p.pending, RowKey);
  }

  // ---------------------------------------------------------------------------------------------
  // Exactly what a restored device holds
  // ---------------------------------------------------------------------------------------------

  lemma {:induction false} ValidOnesIff(cs: seq<Contact>, c: Contact)
    ensures c in ValidOnes(cs) <==> c in cs && Bound(c)
  {
    if cs == [] {
    } else {
      ValidOnesIff(cs[1..], c);
      assert cs == [cs[0]] + cs[1..];
    }
  }

  /** What a table holds under a key: in a merge what was there, or else the backup's first row of that key; in a
   *  replacement the backup's last row of that key and nothing else. */
  ghost predicate HoldsRow<K(!new), V(!new)>(was: map<K, V>, now: map<K, V>, xs: seq<V>, id: V -> K, replace: bool, k: K) {
    (k in now <==> (!replace && k in was) || HasKey(xs, id, k)) &&
    (!replace && k in was ==> now[k] == was[k]) &&
    (forall i: nat :: (replace && IsLast(xs, id, k, i)) || (!replace && k !in was && IsFirst(xs, id, k, i)) ==> now[k] == xs[i])
  }

  lemma PutHolds<V(!new)>(m: map<MessageId, V>, xs: seq<V>, id: V -> MessageId, replace: bool, k: MessageId)
    ensures HoldsRow(m, Put(m, xs, id, replace), xs, id, replace, k)
  {
    if replace { PutAllHolds(map[], xs, id, k); } else { PutAbsentIs(m, xs, id, k); }
  }

  /** For every backup and device: the contacts, messages and pending rows after a restore are, key by key, exactly
   *  these, the contacts taken from the ones with a valid binding; and exactly the keys blocked in the backup are
   *  blocked, in a merge besides those that were. */
  lemma RestoresExactly(d: Device, p: Payload, replace: bool, key: Key, id: MessageId)
    requires Inv(d.book)
    ensures var r := Restore(d, p, replace);
            HoldsRow(d.book.store, r.book.store, ValidOnes(p.contacts), KeyOf, replace, key) &&
            HoldsRow(d.messages, r.messages, Flatten(p.messages), MessageKey, replace, id) &&
            HoldsRow(d.queue, r.queue, p.pending, RowKey, replace, id)
    ensures var r := Restore(d, p, replace);
            Inv(r.book) && (key in r.book.blocked <==> (!replace && key in d.book.blocked) || key in p.blocked) &&
            (key in r.book.requests <==> key in d.book.requests && key !in r.book.blocked)
  {
    var valid := ValidOnes(p.contacts);
    RestoreKeeps(d.book, p.contacts, replace);
    RestoredStore(d.book, p.contacts, replace);
    if replace { PutAllHolds(map[], valid, KeyOf, key); } else { PutAbsentIs(d.book.store, valid, KeyOf, key); }
    PutHolds(d.messages, Flatten(p.messages), MessageKey, replace, id);
    PutHolds(d.queue, p.pending, RowKey, replace, id);
  }

  lemma RestoredStore(b: Book, cs: seq<Contact>, replace: bool)
    ensures var v := OnRestore(b, cs, replace);
            v.store == (if replace then PutAll(map[], ValidOnes(cs), KeyOf) else PutAbsent(b.store, ValidOnes(cs), KeyOf)) &&
            v.requests == b.requests
  {
    if replace { RegisterAllStore(b.(store := map[], registry := map[]), ValidOnes(cs)); } else { MergedStore(b, cs); }
  }

  lemma {:induction false} FlattenIff(groups: seq<(Key, seq<Message>)>, m: Message)
    ensures m in Flatten(groups) <==> exists i :: 0 <= i < |groups| && m in groups[i].1
  {
    if groups == [] {
    } else {
      FlattenIff(groups[1..], m);
      if m in Flatten(groups[1..]) {
        var i :| 0 <= i < |groups| - 1 && m in groups[1..][i].1;
        assert groups[i + 1] == groups[1..][i];
      }
      if exists i :: 0 <= i < |groups| && m in groups[i].1 {
        var i :| 0 <= i < |groups| && m in groups[i].1;
        if i > 0 { assert groups[1..][i - 1] == groups[i]; }
      }
    }
  }

  // ---------------------------------------------------------------------------------------------
  // Prefixes, for the loops
  // ---------------------------------------------------------------------------------------------

  lemma {:induction false} ValidOnesMore(cs: seq<Contact>, c: Contact)
    ensures ValidOnes(cs + [c]) == (if CheckCard(CardOf(c)).None? then ValidOnes(cs) + [c] else ValidOnes(cs))
  {
    if cs == [] {
      assert [] + [c] == [c];
      assert ValidOnes([c][1..]) == [];
    } else {
      assert (cs + [c])[0] == cs[0] && (cs + [c])[1..] == cs[1..] + [c];
      ValidOnesMore(cs[1..], c);
    }
  }

  lemma {:induction false} FlattenMore(groups: seq<(Key, seq<Message>)>, g: (Key, seq<Message>))
    ensures Flatten(groups + [g]) == Flatten(groups) + g.1
  {
    if groups == [] {
      assert [] + [g] == [g];
      assert Flatten([g][1..]) == [];
    } else {
      assert (groups + [g])[0] == groups[0] && (groups + [g])[1..] == groups[1..] + [g];
      FlattenMore(groups[1..], g);
    }
  }

  // ---------------------------------------------------------------------------------------------
  // The object
  // ---------------------------------------------------------------------------------------------

  class BackupClient {
    const book: AddressBook
    var messages: map<MessageId, Message>
    var queue: map<MessageId, Row>

    ghost function View(): Device
      reads this, book, book.contacts
    {
      Device(book.View(), messages, queue)
    }

    constructor (own: Key)
      ensures View() == Device(Book(own, map[], map[], map[], {}), map[], map[])
    {
      book := new AddressBook(own);
      messages, queue := map[], map[];
    }

    /** The loop over the backup's contacts. */
    method RestoreContactList(cs: seq<Contact>, replace: bool) returns (imported: nat, skipped: nat, rejected: nat)
      requires Inv(book.View()) && (replace ==> book.store == map[])
      modifies book, book.contacts
      ensures book.store == (if replace then PutAll(map[], ValidOnes(cs), KeyOf) else PutAbsent(old(book.store), ValidOnes(cs), KeyOf))
      ensures Inv(book.View())
      ensures book.pendingCards == old(book.pendingCards) && book.blockedKeys == old(book.blockedKeys)
      ensures imported == if replace then |ValidOnes(cs)| else Added(old(book.store), ValidOnes(cs), KeyOf)
      ensures imported + skipped == |ValidOnes(cs)| && imported + skipped + rejected == |cs|
    {
      imported, skipped, rejected := 0, 0, 0;
      var existing := book.store.Keys;
      for i := 0 to |cs|
        invariant existing == book.store.Keys && Inv(book.View())
        invariant book.pendingCards == old(book.pendingCards) && book.blockedKeys == old(book.blockedKeys)
        invariant book.store == if replace then PutAll(map[], ValidOnes(cs[..i]), KeyOf)
                                else PutAbsent(old(book.store), ValidOnes(cs[..i]), KeyOf)
        invariant imported == if replace then |ValidOnes(cs[..i])| else Added(old(book.store), ValidOnes(cs[..i]), KeyOf)
        invariant imported + skipped == |ValidOnes(cs[..i])| && imported + skipped + rejected == i
      {
        var c := cs[i];
        ghost var valid := ValidOnes(cs[..i]);
        assert cs[..i + 1] == cs[..i] + [c];
        ValidOnesMore(cs[..i], c);
        PutAllMore(map[], valid, c, KeyOf);
        PutAbsentMore(old(book.store), valid, c, KeyOf);
        if CheckCard(CardOf(c)).Some? {
          rejected := rejected + 1;
          continue;
        }
        if !replace && c.identityKey in existing {
          skipped := skipped + 1;
          continue;
        }
        RegisterKeeps(book.View(), c);
        book.RegisterContact(c);
        existing := existing + {c.identityKey};
        imported := imported + 1;
      }
      assert cs[..|cs|] == cs;
    }

    /** The nested loops over the message history. */
    method RestoreMessages(groups: seq<(Key, seq<Message>)>, replace: bool) returns (imported: nat, skipped: nat)
      requires replace ==> messages == map[]
      modifies this`messages
      ensures messages == Put(old(messages), Flatten(groups), MessageKey, replace)
      ensures imported == if replace then |Flatten(groups)| else Added(old(messages), Flatten(groups), MessageKey)
      ensures imported + skipped == |Flatten(groups)|
    {
      imported, skipped := 0, 0;
      ghost var done: seq<Message> := [];
      for i := 0 to |groups|
        invariant done == Flatten(groups[..i])
        invariant messages == Put(old(messages), done, MessageKey, replace)
        invariant imported == if replace then |done| else Added(old(messages), done, MessageKey)
        invariant imported + skipped == |done|
      {
        var list := groups[i].1;
        ghost var before := done;
        for j := 0 to |list|
          invariant done == before + list[..j]
          invariant messages == Put(old(messages), done, MessageKey, replace)
          invariant imported == if replace then |done| else Added(old(messages), done, MessageKey)
          invariant imported + skipped == |done|
        {
          var m := list[j];
          PutAllMore(map[], done, m, MessageKey);
          PutAbsentMore(old(messages), done, m, MessageKey);
          assert list[..j + 1] == list[..j] + [m];
          assert before + list[..j + 1] == done + [m];
          done := done + [m];
          if !replace && m.id in messages {
            skipped := skipped + 1;
            continue;
          }
          messages := messages[m.id := m];
          imported := imported + 1;
        }
        assert list[..|list|] == list && groups[..i + 1] == groups[..i] + [groups[i]];
        FlattenMore(groups[..i], groups[i]);
      }
      assert groups[..|groups|] == groups;
    }

    method RestorePending(rows: seq<Row>, replace: bool) returns (imported: nat)
      requires replace ==> queue == map[]
      modifies this`queue
      ensures queue == Put(old(queue), rows, RowKey, replace)
      ensures imported == if replace then |rows| else Added(old(queue), rows, RowKey)
    {
      imported := 0;
      for i := 0 to |rows|
        invariant queue == Put(old(queue), rows[..i], RowKey, replace)
        invariant imported == if replace then i else Added(old(queue), rows[..i], RowKey)
      {
        var r := rows[i];
        assert rows[..i + 1] == rows[..i] + [r];
        PutAllMore(map[], rows[..i], r, RowKey);
        PutAbsentMore(old(queue), rows[..i], r, RowKey);
        if !replace && r.messageId in queue { continue; }
        queue := queue[r.messageId := r];
        imported := imported + 1;
      }
      assert rows[..|rows|] == rows;
    }

    /** The contacts' part of a restore, their store and registry cleared first when replacing. */
    method RestoreContacts(cs: seq<Contact>, replace: bool) returns (imported: nat, skipped: nat, rejected: nat)
      requires Inv(book.View())
      modifies book, book.contacts
      ensures book.View() == OnRestore(old(book.View()), cs, replace) && Inv(book.View())
      ensures book.pendingCards == old(book.pendingCards) && book.blockedKeys == old(book.blockedKeys)
      ensures imported == if replace then |ValidOnes(cs)| else Added(old(book.store), ValidOnes(cs), KeyOf)
      ensures imported + skipped == |ValidOnes(cs)| && imported + skipped + rejected == |cs|
    {
      ghost var b := book.View();
      if replace {
        book.store := map[];
        book.contacts.Clear();
        assert Projection(map[]) == map[];
      }
      imported, skipped, rejected := RestoreContactList(cs, replace);
      ContactsRestored(b, book.View(), cs, replace);
    }

    method RestoreBackup(p: Payload, replace: bool) returns (result: Result)
      requires Inv(book.View())
      modifies this, book, book.contacts
      ensures View() == Restore(old(View()), p, replace)
      ensures result == Counts(old(View()), p, replace)
      ensures Inv(book.View())
    {
      ghost var d := View();
      if replace { messages, queue := map[], map[]; }
      var ci, cs, cr := RestoreContacts(p.contacts, replace);
      var mi, ms := RestoreMessages(p.messages, replace);
      var pi := RestorePending(p.pending, replace);
      var keys := if replace then Elements(p.blocked) else book.blockedKeys + Elements(p.blocked);
      book.SetBlockedKeys(keys);
      result := Result(ci, cs, cr, mi, ms, pi);
      CountsMatch(d, p, replace, result);
    }

    /** Groups a listing of the messages by conversation, as the export does. */
    method GroupMessages(all: seq<Message>) returns (groups: seq<(Key, seq<Message>)>)
      ensures multiset(Flatten(groups)) == multiset(all) && ByConversation(groups)
    {
      groups := [];
      for n := 0 to |all|
        invariant multiset(Flatten(groups)) == multiset(all[..n]) && ByConversation(groups)
      {
        var m := all[n];
        assert all[..n + 1] == all[..n] + [m];
        var k := 0;
        while k < |groups| && groups[k].0 != m.contactKey
          invariant k <= |groups| && forall i :: 0 <= i < k ==> groups[i].0 != m.contactKey
        {
          k := k + 1;
        }
        if k == |groups| {
          FlattenMore(groups, (m.contactKey, [m]));
          GroupAdded(groups, m);
          groups := groups + [(m.contactKey, [m])];
        } else {
          FlattenPush(groups, k, m);
          GroupGrown(groups, k, m);
          groups := groups[k := (groups[k].0, groups[k].1 + [m])];
        }
      }
      assert all[..|all|] == all;
    }
  }

  /** One group per conversation, each holding that conversation's messages only. */
  predicate ByConversation(groups: seq<(Key, seq<Message>)>) {
    (forall i :: 0 <= i < |groups| ==> OfConversation(groups[i])) &&
    forall i, j :: 0 <= i < j < |groups| ==> groups[i].0 != groups[j].0
  }

  predicate OfConversation(g: (Key, seq<Message>)) {
    forall j :: 0 <= j < |g.1| ==> g.1[j].contactKey == g.0
  }

  lemma GroupAdded(groups: seq<(Key, seq<Message>)>, m: Message)
    requires ByConversation(groups) && forall i :: 0 <= i < |groups| ==> groups[i].0 != m.contactKey
    ensures ByConversation(groups + [(m.contactKey, [m])])
  {
  }

  lemma GroupGrown(groups: seq<(Key, seq<Message>)>, k: nat, m: Message)
    requires ByConversation(groups) && k < |groups| && groups[k].0 == m.contactKey
    ensures ByConversation(groups[k := (groups[k].0, groups[k].1 + [m])])
  {
    assert OfConversation(groups[k]);
  }

  lemma {:induction false} FlattenPush(groups: seq<(Key, seq<Message>)>, k: nat, m: Message)
    requires k < |groups|
    ensures multiset(Flatten(groups[k := (groups[k].0, groups[k].1 + [m])])) == multiset(Flatten(groups)) + multiset{m}
  {
    var g := (groups[k].0, groups[k].1 + [m]);
    var after := groups[k := g];
    if k == 0 {
      assert after[1..] == groups[1..];
    } else {
      assert after[1..] == groups[1..][k - 1 := g];
      FlattenPush(groups[1..], k - 1, m);
    }
  }
}
