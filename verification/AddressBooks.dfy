/** The contact store, the in-memory registry mirroring it, and every operation that changes them
 *  (packages/orpal-core/src/messaging/orpal-client.ts, contact-registry.ts, persistence/conversation-store.ts).
 */
module AddressBooks {
  import opened Common
  import opened Migrations
  import opened Contacts
  import opened Upserts

  datatype ContactRecord = ContactRecord(
    relayOnly: bool, transportKey: Pub, preferred: seq<Board>, fallback: seq<Board>, autoAcceptMigration: bool)

  /** What the registry keeps of a contact. */
  function Project(c: Contact): ContactRecord {
    ContactRecord(c.relayOnly, c.transportKey, Default(c.preferredBoards, []), Default(c.fallbackBoards, []),
                  Default(c.autoAcceptMigration, false))
  }

  function Projection(store: map<Key, Contact>): map<Key, ContactRecord> {
    map k | k in store :: Project(store[k])
  }

  /** `requests` are the cards of unknown senders awaiting a decision. */
  datatype Book = Book(
    own: Key, store: map<Key, Contact>, registry: map<Key, ContactRecord>, requests: map<Key, Card>, blocked: set<Key>)

  datatype Op =
    | AddCard(card: Card, name: Option<Name>, relayOnly: Option<bool>, now: Utc)
    | ImportEntries(entries: seq<Entry>, overwrite: bool, now: Utc)
    | RestoreContacts(contacts: seq<Contact>, replace: bool)
    | EnsureLoopback(transport: Pub, name: Option<Name>, now: Utc)
    | Hello(sender: Key, card: Card)
    | AcceptRequest(sender: Key, name: Option<Name>, now: Utc)
    | SetBoards(key: Key, preferred: Option<seq<Board>>, fallback: Option<seq<Board>>)
    | SetRelayOnly(key: Key, on: bool)
    | SetAutoAccept(key: Key, autoAccept: bool)
    | Rename(key: Key, name: Option<Name>)
    | AcceptMigration(key: Key, migration: KeyMigration)
    | Remove(key: Key)
    | SetBlocked(keys: set<Key>)
    | Restart

  function Register(b: Book, c: Contact): Book {
    b.(store := b.store[c.identityKey := c], registry := b.registry[c.identityKey := Project(c)])
  }

  function RegisterAll(b: Book, cs: seq<Contact>): Book
    decreases |cs|
  {
    if cs == [] then b else RegisterAll(Register(b, cs[0]), cs[1..])
  }

  function OnAddCard(b: Book, card: Card, name: Option<Name>, relayOnly: Option<bool>, now: Utc): Book {
    if CheckCard(card).Some? || card.identityKey == Some(b.own) then b
    else Register(b, ContactFromCard(card, name, relayOnly, None, None, now))
  }

  function ImportOptions(b: Book, overwrite: bool, now: Utc): Options {
    Options(overwrite, b.store.Keys, Some(b.own), now)
  }

  function KeyOf(c: Contact): Key { c.identityKey }

  /** The contacts of a backup that go through the binding check. */
  function ValidOnes(cs: seq<Contact>): seq<Contact> {
    if cs == [] then []
    else if CheckCard(CardOf(cs[0])).None? then [cs[0]] + ValidOnes(cs[1..])
    else ValidOnes(cs[1..])
  }

  function Absent(m: map<Key, Contact>, cs: seq<Contact>): seq<Contact>
    decreases |cs|
  {
    if cs == [] then []
    else if KeyOf(cs[0]) in m then Absent(m, cs[1..])
    else [cs[0]] + Absent(m[KeyOf(cs[0]) := cs[0]], cs[1..])
  }

  function OnRestore(b: Book, cs: seq<Contact>, replace: bool): Book {
    if replace then RegisterAll(b.(store := map[], registry := map[]), ValidOnes(cs))
    else RegisterAll(b, Absent(b.store, ValidOnes(cs)))
  }

  predicate HasLoopback(b: Book) { exists k :: k in b.store && b.store[k].isLoopback }

  function OwnLoopback(own: Key, transport: Pub, name: Option<Name>, now: Utc): Contact {
    Contact(own, transport, Binding(own, transport, own), Default(name, LoopbackName), false, Some([]), Some([]), None, now, true)
  }

  /** A peer may only hand over its own card, and only one the user has not decided on. */
  function OnHello(b: Book, sender: Key, card: Card): Book {
    if sender in b.blocked || CheckCard(card).Some? || card.identityKey != Some(sender) || sender == b.own ||
       sender in b.store || sender in b.requests
    then b else b.(requests := b.requests[sender := card])
  }

  function OnAcceptRequest(b: Book, sender: Key, name: Option<Name>, now: Utc): Book {
    if sender !in b.requests then b
    else
      var card := b.requests[sender];
      var b' := OnAddCard(b, card, name, None, now);
      if CheckCard(card).Some? || card.identityKey == Some(b.own) then b' else b'.(requests := b'.requests - {sender})
  }

  /** store.upsertContact with a changed record, and registry.patch. */
  function Edit(b: Book, key: Key, c: Contact, r: ContactRecord -> ContactRecord): Book {
    b.(store := b.store[c.identityKey := c],
       registry := if key in b.registry then b.registry[key := r(b.registry[key])] else b.registry)
  }

  function OnEdit(b: Book, op: Op): Book {
    match op
    case SetBoards(k, preferred, fallback) =>
      if k !in b.store then b
      else
        var c := b.store[k].(preferredBoards := Some(Default(preferred, [])), fallbackBoards := Some(Default(fallback, [])));
        Edit(b, k, c, (r: ContactRecord) => r.(preferred := c.preferredBoards.value, fallback := c.fallbackBoards.value))
    case SetRelayOnly(k, relayOnly) =>
      if k !in b.store then b
      else Edit(b, k, b.store[k].(relayOnly := relayOnly), (r: ContactRecord) => r.(relayOnly := relayOnly))
    case SetAutoAccept(k, autoAccept) =>
      if k !in b.store then b
      else Edit(b, k, b.store[k].(autoAcceptMigration := Some(autoAccept)), (r: ContactRecord) => r.(autoAcceptMigration := autoAccept))
    case Rename(k, name) =>
      if k !in b.store || name.None? then b
      else var c := b.store[k].(displayName := name.value); b.(store := b.store[c.identityKey := c])
    case _ => b
  }

  /** A pending migration has been verified; the old contact stays. */
  function OnMigration(b: Book, key: Key, m: KeyMigration): Book {
    if !Verify(m).Valid? || m.oldKey != key || key !in b.store then b
    else Register(b, b.store[key].(identityKey := m.newKey, transportKey := m.newBinding.transport, binding := m.newBinding))
  }

  function Step(b: Book, op: Op): Book {
    match op
    case AddCard(card, name, relayOnly, now) => OnAddCard(b, card, name, relayOnly, now)
    case ImportEntries(es, overwrite, now) => RegisterAll(b, Imports(Fates(es, {}, ImportOptions(b, overwrite, now))))
    case RestoreContacts(cs, replace) => OnRestore(b, cs, replace)
    case EnsureLoopback(transport, name, now) =>
      if HasLoopback(b) then b else Register(b, OwnLoopback(b.own, transport, name, now))
    case Hello(sender, card) => OnHello(b, sender, card)
    case AcceptRequest(sender, name, now) => OnAcceptRequest(b, sender, name, now)
    case AcceptMigration(key, m) => OnMigration(b, key, m)
    case Remove(key) => b.(store := b.store - {key}, registry := b.registry - {key})
    case SetBlocked(keys) => b.(blocked := keys, requests := b.requests - keys)
    case Restart => b.(registry := Projection(b.store), requests := map[])
    case _ => OnEdit(b, op)
  }

  function Run(b: Book, ops: seq<Op>): Book
    decreases |ops|
  {
    if ops == [] then b else Run(Step(b, ops[0]), ops[1..])
  }

  // ---------------------------------------------------------------------------------------------
  // The registry is the projection of a store of bound contacts
  // ---------------------------------------------------------------------------------------------

  predicate StoreInv(store: map<Key, Contact>) {
    forall k :: k in store ==> store[k].identityKey == k && Bound(store[k])
  }

  /** Pending requests can be accepted: each is its sender's own valid card. */
  predicate RequestsInv(b: Book) {
    forall k :: k in b.requests ==> CheckCard(b.requests[k]).None? && b.requests[k].identityKey == Some(k) && k != b.own
  }

  predicate Inv(b: Book) {
    StoreInv(b.store) && b.registry == Projection(b.store) && RequestsInv(b)
  }

  lemma RegisterKeeps(b: Book, c: Contact)
    requires Inv(b) && Bound(c)
    ensures Inv(Register(b, c))
  {
  }

  lemma {:induction false} RegisterAllKeeps(b: Book, cs: seq<Contact>)
    requires Inv(b) && forall i :: 0 <= i < |cs| ==> Bound(cs[i])
    ensures Inv(RegisterAll(b, cs))
    decreases |cs|
  {
    if cs == [] {
    } else {
      RegisterKeeps(b, cs[0]);
      RegisterAllKeeps(Register(b, cs[0]), cs[1..]);
    }
  }

  lemma {:induction false} ValidOnesAreBound(cs: seq<Contact>)
    ensures forall i :: 0 <= i < |ValidOnes(cs)| ==> Bound(ValidOnes(cs)[i])
  {
    if cs == [] {
    } else {
      ValidOnesAreBound(cs[1..]);
    }
  }

  lemma {:induction false} AbsentAreBound(m: map<Key, Contact>, cs: seq<Contact>)
    requires forall i :: 0 <= i < |cs| ==> Bound(cs[i])
    ensures forall i :: 0 <= i < |Absent(m, cs)| ==> Bound(Absent(m, cs)[i])
    decreases |cs|
  {
    if cs == [] {
    } else {
      AbsentAreBound(if KeyOf(cs[0]) in m then m else m[KeyOf(cs[0]) := cs[0]], cs[1..]);
    }
  }

  lemma ChangeKeeps(b: Book, k: Key, c: Contact, r: ContactRecord)
    requires Inv(b) && k in b.store && c.identityKey == k && Bound(c) && r == Project(c)
    ensures Inv(b.(store := b.store[k := c], registry := b.registry[k := r]))
  {
    assert Projection(b.store[k := c]) == Projection(b.store)[k := Project(c)];
  }

  lemma EditKeeps(b: Book, op: Op)
    requires Inv(b)
    ensures Inv(OnEdit(b, op))
  {
    match op
    case SetBoards(k, preferred, fallback) =>
      if k in b.store {
        var c := b.store[k].(preferredBoards := Some(Default(preferred, [])), fallbackBoards := Some(Default(fallback, [])));
        ChangeKeeps(b, k, c, Project(c));
      }
    case SetRelayOnly(k, relayOnly) =>
      if k in b.store { ChangeKeeps(b, k, b.store[k].(relayOnly := relayOnly), Project(b.store[k].(relayOnly := relayOnly))); }
    case SetAutoAccept(k, autoAccept) =>
      if k in b.store {
        var c := b.store[k].(autoAcceptMigration := Some(autoAccept));
        ChangeKeeps(b, k, c, Project(c));
      }
    case Rename(k, name) =>
      if k in b.store && name.Some? {
        var c := b.store[k].(displayName := name.value);
        ChangeKeeps(b, k, c, Project(c));
        assert b.registry[k := Project(c)] == b.registry;
      }
    case _ =>
  }

  lemma StepKeeps(b: Book, op: Op)
    requires Inv(b)
    ensures Inv(Step(b, op))
  {
    match op
    case AddCard(card, name, relayOnly, now) => AddKeeps(b, card, name, relayOnly, now);
    case ImportEntries(es, overwrite, now) =>
      var o := ImportOptions(b, overwrite, now);
      ImportsAreSound(es, {}, o);
      RegisterAllKeeps(b, Imports(Fates(es, {}, o)));
    case RestoreContacts(cs, replace) => RestoreKeeps(b, cs, replace);
    case EnsureLoopback(transport, name, now) =>
      if !HasLoopback(b) { RegisterKeeps(b, OwnLoopback(b.own, transport, name, now)); }
    case AcceptRequest(sender, name, now) =>
      if sender in b.requests { AddKeeps(b, b.requests[sender], name, None, now); }
    case AcceptMigration(key, m) => MigrationKeeps(b, key, m);
    case Remove(key) => assert b.registry - {key} == Projection(b.store - {key});
    case Hello(sender, card) =>
    case SetBlocked(keys) =>
    case Restart =>
    case _ => EditKeeps(b, op);
  }

  lemma AddKeeps(b: Book, card: Card, name: Option<Name>, relayOnly: Option<bool>, now: Utc)
    requires Inv(b)
    ensures Inv(OnAddCard(b, card, name, relayOnly, now))
  {
    if CheckCard(card).None? && card.identityKey != Some(b.own) {
      RegisterKeeps(b, ContactFromCard(card, name, relayOnly, None, None, now));
    }
  }

  lemma RestoreKeeps(b: Book, cs: seq<Contact>, replace: bool)
    requires Inv(b)
    ensures Inv(OnRestore(b, cs, replace))
  {
    ValidOnesAreBound(cs);
    AbsentAreBound(b.store, ValidOnes(cs));
    if replace {
      RegisterAllKeeps(b.(store := map[], registry := map[]), ValidOnes(cs));
    } else {
      RegisterAllKeeps(b, Absent(b.store, ValidOnes(cs)));
    }
  }

  lemma MigrationKeeps(b: Book, key: Key, m: KeyMigration)
    requires Inv(b)
    ensures Inv(OnMigration(b, key, m))
  {
    if Verify(m).Valid? && m.oldKey == key && key in b.store {
      RegisterKeeps(b, b.store[key].(identityKey := m.newKey, transportKey := m.newBinding.transport, binding := m.newBinding));
    }
  }

  /** After any sequence of operations every stored contact has a valid binding between its own two keys,
   *  and the registry is exactly the projection of the store. */
  lemma {:induction false} RegistryMirrorsStore(b: Book, ops: seq<Op>)
    requires Inv(b)
    ensures Inv(Run(b, ops))
    decreases |ops|
  {
    if ops == [] {
    } else {
      StepKeeps(b, ops[0]);
      RegistryMirrorsStore(Step(b, ops[0]), ops[1..]);
    }
  }

  lemma NewBook(own: Key)
    ensures Inv(Book(own, map[], map[], map[], {}))
  {
    assert Projection(map[]) == map[];
  }

  /** Accepting a pending request always succeeds and adds exactly the sender. */
  lemma RequestsCanBeAccepted(b: Book, sender: Key, name: Option<Name>, now: Utc)
    requires Inv(b) && sender in b.requests
    ensures var v := Step(b, AcceptRequest(sender, name, now));
            sender in v.store && v.store.Keys == b.store.Keys + {sender} && sender !in v.requests &&
            forall k :: k in b.store && k != sender ==> v.store[k] == b.store[k]
  {
  }

  // ---------------------------------------------------------------------------------------------
  // Exactly what each operation changes
  // ---------------------------------------------------------------------------------------------

  /** What the user keeps of a stranger's card: the keys it binds, and the given name, the card's, or a short key. */
  predicate Keeps(c: Contact, card: Card, name: Option<Name>, now: Utc) {
    card.identityKey == Some(c.identityKey) && card.transportKey == Some(c.transportKey) && card.binding == Some(c.binding) &&
    c.displayName == (if name.Some? then name.value else if card.name.Some? then card.name.value else ShortKey(c.identityKey)) &&
    c.preferredBoards == Some([]) && c.fallbackBoards == Some([]) && c.autoAcceptMigration.None? && c.addedUtc == now && !c.isLoopback
  }

  /** A contact is stored under its key, and all others and the requests stay. */
  predicate StoresOnly(b: Book, v: Book, key: Key) {
    key in v.store && v.store.Keys == b.store.Keys + {key} && (forall k :: k in b.store && k != key ==> v.store[k] == b.store[k]) &&
    v.requests == b.requests && v.blocked == b.blocked && v.own == b.own
  }

  /** Adding a card succeeds exactly if it is valid and not this device's own. */
  lemma AddCardIff(b: Book, card: Card, name: Option<Name>, relayOnly: Option<bool>, now: Utc)
    ensures var v := Step(b, AddCard(card, name, relayOnly, now));
            if Acceptable(card, Some(b.own))
            then StoresOnly(b, v, card.identityKey.value) && Keeps(v.store[card.identityKey.value], card, name, now) &&
                 v.store[card.identityKey.value].relayOnly == (relayOnly == Some(true))
            else v == b
  {
  }

  /** A peer's hello becomes a request exactly if it carries the peer's own valid card and the peer is not blocked,
   *  known, already asking, or this device; nothing else changes. */
  lemma HelloIff(b: Book, sender: Key, card: Card)
    ensures var v := Step(b, Hello(sender, card));
            if Acceptable(card, Some(b.own)) && card.identityKey == Some(sender) &&
               sender !in b.blocked && sender !in b.store && sender !in b.requests
            then v == b.(requests := v.requests) && v.requests == b.requests[sender := card]
            else v == b
  {
  }

  /** Accepting a request stores its sender as its card says, and the request is gone; without a request nothing
   *  changes. */
  lemma AcceptRequestIff(b: Book, sender: Key, name: Option<Name>, now: Utc)
    requires Inv(b)
    ensures var v := Step(b, AcceptRequest(sender, name, now));
            if sender in b.requests
            then v.requests == b.requests - {sender} && StoresOnly(b, v.(requests := b.requests), sender) &&
                 Keeps(v.store[sender], b.requests[sender], name, now) && !v.store[sender].relayOnly
            else v == b
  {
    if sender in b.requests { AddCardIff(b, b.requests[sender], name, None, now); }
  }

  /** The loopback contact is this device's own, made once. */
  lemma LoopbackIff(b: Book, transport: Pub, name: Option<Name>, now: Utc)
    ensures var v := Step(b, EnsureLoopback(transport, name, now));
            if exists k :: k in b.store && b.store[k].isLoopback then v == b
            else StoresOnly(b, v, b.own) && v.store[b.own].isLoopback && v.store[b.own].transportKey == transport && Bound(v.store[b.own])
    ensures exists k :: k in Step(b, EnsureLoopback(transport, name, now)).store &&
                        Step(b, EnsureLoopback(transport, name, now)).store[k].isLoopback
  {
    var v := Step(b, EnsureLoopback(transport, name, now));
    if HasLoopback(b) {
      var k :| k in b.store && b.store[k].isLoopback;
      assert k in v.store && v.store[k].isLoopback;
    } else {
      assert b.own in v.store && v.store[b.own].isLoopback;
    }
  }

  /** Editing a contact changes the one field, of that contact only; an unknown one stays unknown. */
  lemma EditIff(b: Book, op: Op, k: Key)
    requires Inv(b) && (op.SetBoards? || op.SetRelayOnly? || op.SetAutoAccept? || op.Rename?) && op.key == k
    ensures var v := Step(b, op);
            if k !in b.store then v == b
            else StoresOnly(b, v, k) &&
                 var c, c' := b.store[k], v.store[k];
                 match op {
                   case SetBoards(_, preferred, fallback) =>
                     c' == c.(preferredBoards := c'.preferredBoards, fallbackBoards := c'.fallbackBoards) &&
                     c'.preferredBoards == (if preferred.Some? then preferred else Some([])) &&
                     c'.fallbackBoards == (if fallback.Some? then fallback else Some([]))
                   case SetRelayOnly(_, on) => c' == c.(relayOnly := c'.relayOnly) && c'.relayOnly == on
                   case SetAutoAccept(_, on) => c' == c.(autoAcceptMigration := c'.autoAcceptMigration) && c'.autoAcceptMigration == Some(on)
                   case Rename(_, name) => c' == c.(displayName := c'.displayName) && (name.Some? ==> c'.displayName == name.value) &&
                                           (name.None? ==> c' == c)
                   case _ => false
                 }
  {
  }

  /** A migrated contact is stored under its new key, with the new transport key and binding and everything else as it
   *  was, exactly if the migration is valid and from the old key of a stored contact. */
  lemma MigrationIff(b: Book, key: Key, m: KeyMigration)
    ensures var v := Step(b, AcceptMigration(key, m));
            if Verify(m).Valid? && m.oldKey == key && key in b.store
            then StoresOnly(b, v, m.newKey) && v.store[m.newKey].identityKey == m.newKey &&
                 v.store[m.newKey].transportKey == m.newBinding.transport && v.store[m.newKey].binding == m.newBinding &&
                 v.store[m.newKey] == b.store[key].(identityKey := v.store[m.newKey].identityKey,
                                                    transportKey := v.store[m.newKey].transportKey, binding := v.store[m.newKey].binding)
            else v == b
  {
  }

  /** Removing forgets the contact; blocking drops the requests of the blocked; a restart drops all requests. */
  lemma RemovalsIff(b: Book, key: Key, keys: set<Key>)
    ensures var v := Step(b, Remove(key)); v == b.(store := b.store - {key}, registry := v.registry) && key !in v.registry
    ensures var v := Step(b, SetBlocked(keys));
            v == b.(blocked := keys, requests := v.requests) && forall k :: k in v.requests <==> k in b.requests && k !in keys
    ensures var v := Step(b, Restart); v == b.(registry := v.registry, requests := map[])
  {
  }

  // ---------------------------------------------------------------------------------------------
  // Registering a list of contacts, as maps
  // ---------------------------------------------------------------------------------------------

  lemma {:induction false} RegisterAllStore(b: Book, cs: seq<Contact>)
    ensures RegisterAll(b, cs).store == PutAll(b.store, cs, KeyOf)
    ensures var v := RegisterAll(b, cs); v.own == b.own && v.requests == b.requests && v.blocked == b.blocked
    decreases |cs|
  {
    if cs == [] {
    } else {
      RegisterAllStore(Register(b, cs[0]), cs[1..]);
    }
  }

  /** An import stores, key by key, the last imported contact of that key, and leaves every other contact as it was; a
   *  contact is imported exactly as FateIff says, given what is stored. */
  lemma ImportStores(b: Book, es: seq<Entry>, overwrite: bool, now: Utc, k: Key)
    ensures var v, cs := Step(b, ImportEntries(es, overwrite, now)), Imports(Fates(es, {}, Options(overwrite, b.store.Keys, Some(b.own), now)));
            (k in v.store <==> k in b.store || HasKey(cs, KeyOf, k)) &&
            (k in b.store && !HasKey(cs, KeyOf, k) ==> v.store[k] == b.store[k]) &&
            (forall i: nat :: IsLast(cs, KeyOf, k, i) ==> v.store[k] == cs[i]) && v.requests == b.requests && v.blocked == b.blocked
  {
    var cs := Imports(Fates(es, {}, ImportOptions(b, overwrite, now)));
    RegisterAllStore(b, cs);
    PutAllHolds(b.store, cs, KeyOf, k);
  }

  lemma {:induction false} AbsentStore(b: Book, cs: seq<Contact>)
    ensures RegisterAll(b, Absent(b.store, cs)).store == PutAbsent(b.store, cs, KeyOf)
    ensures |Absent(b.store, cs)| == Added(b.store, cs, KeyOf)
    decreases |cs|
  {
    if cs == [] {
    } else {
      if KeyOf(cs[0]) in b.store {
        AbsentStore(b, cs[1..]);
      } else {
        var rest := Absent(b.store[KeyOf(cs[0]) := cs[0]], cs[1..]);
        AbsentStore(Register(b, cs[0]), cs[1..]);
        assert Absent(b.store, cs) == [cs[0]] + rest && ([cs[0]] + rest)[1..] == rest;
      }
    }
  }

  lemma {:induction false} AllValid(cs: seq<Contact>)
    requires forall i :: 0 <= i < |cs| ==> Bound(cs[i])
    ensures ValidOnes(cs) == cs
  {
    if cs == [] {
    } else {
      AllValid(cs[1..]);
      assert [cs[0]] + cs[1..] == cs;
    }
  }

  // ---------------------------------------------------------------------------------------------
  // The objects
  // ---------------------------------------------------------------------------------------------

  class ContactRegistry {
    var records: map<Key, ContactRecord>

    constructor ()
      ensures records == map[]
    {
      records := map[];
    }

    method Set(key: Key, record: ContactRecord)
      modifies this
      ensures records == old(records)[key := record]
    {
      records := records[key := record];
    }

    method Patch(key: Key, patch: ContactRecord -> ContactRecord)
      modifies this
      ensures records == if key in old(records) then old(records)[key := patch(old(records)[key])] else old(records)
    {
      if key in records { records := records[key := patch(records[key])]; }
    }

    method Remove(key: Key)
      modifies this
      ensures records == old(records) - {key}
    {
      records := records - {key};
    }

    method Clear()
      modifies this
      ensures records == map[]
    {
      records := map[];
    }

    /** Mirrors a listing of the store, in whatever order it comes. */
    method LoadAll(cs: seq<Contact>, ghost store: map<Key, Contact>)
      requires records == map[] && Lists(cs, store, KeyOf)
      modifies this
      ensures records == Projection(store)
    {
      for i := 0 to |cs|
        invariant forall k :: k in records ==> k in store && records[k] == Project(store[k])
        invariant forall j :: 0 <= j < i ==> KeyOf(cs[j]) in records
      {
        Set(cs[i].identityKey, Project(cs[i]));
      }
      forall k | k in store ensures k in records {
        var j :| 0 <= j < |cs| && cs[j] == store[k];
        assert KeyOf(cs[j]) in records;
      }
    }
  }

  /** The contact operations of the client. */
  class AddressBook {
    const own: Key
    const contacts: ContactRegistry
    var store: map<Key, Contact>
    var pendingCards: map<Key, Card>
    var blockedKeys: set<Key>

    ghost function View(): Book
      reads this, contacts
    {
      Book(own, store, contacts.records, pendingCards, blockedKeys)
    }

    constructor (own: Key)
      ensures View() == Book(own, map[], map[], map[], {}) && fresh(contacts)
    {
      this.own := own;
      contacts := new ContactRegistry();
      store, pendingCards, blockedKeys := map[], map[], {};
    }

    method RegisterContact(c: Contact)
      modifies this, contacts
      ensures View() == Register(old(View()), c)
    {
      store := store[c.identityKey := c];
      contacts.Set(c.identityKey,
                   ContactRecord(c.relayOnly, c.transportKey, Default(c.preferredBoards, []), Default(c.fallbackBoards, []),
                                 Default(c.autoAcceptMigration, false)));
    }

    method RegisterEach(cs: seq<Contact>)
      modifies this, contacts
      ensures View() == RegisterAll(old(View()), cs)
    {
      assert cs[0..] == cs;
      for i := 0 to |cs|
        invariant RegisterAll(View(), cs[i..]) == RegisterAll(old(View()), cs)
      {
        assert cs[i..][1..] == cs[i + 1..];
        RegisterContact(cs[i]);
      }
    }

    method AddContactFromCard(card: Card, name: Option<Name>, relayOnly: Option<bool>, now: Utc) returns (r: Option<Reason>)
      modifies this, contacts
      ensures View() == Step(old(View()), AddCard(card, name, relayOnly, now))
      ensures r == if CheckCard(card).Some? then CheckCard(card) else if card.identityKey == Some(own) then Some(OwnCard) else None
    {
      r := CheckCard(card);
      if r.Some? { return; }
      if card.identityKey == Some(own) { return Some(OwnCard); }
      RegisterContact(ContactFromCard(card, name, relayOnly, None, None, now));
    }

    /** The summary's counts cover every entry. */
    method ImportContacts(es: seq<Entry>, overwrite: bool, now: Utc) returns (summary: Summary)
      modifies this, contacts
      ensures View() == Step(old(View()), ImportEntries(es, overwrite, now))
      ensures summary.imported + summary.skipped + |summary.rejected| == |es|
    {
      var cs;
      cs, summary := ImportBundle(es, Options(overwrite, store.Keys, Some(own), now));
      RegisterEach(cs);
    }

    method EnsureLoopbackContact(transport: Pub, name: Option<Name>, now: Utc)
      modifies this, contacts
      ensures View() == Step(old(View()), EnsureLoopback(transport, name, now))
    {
      if exists k :: k in store && store[k].isLoopback { return; }
      RegisterContact(OwnLoopback(own, transport, name, now));
    }

    method OnHelloFrame(sender: Key, card: Card)
      modifies this
      ensures View() == Step(old(View()), Hello(sender, card))
    {
      if sender in blockedKeys { return; }
      if CheckCard(card).Some? { return; }
      if card.identityKey != Some(sender) { return; }
      if card.identityKey == Some(own) { return; }
      if sender in store { return; }
      if sender in pendingCards { return; }
      pendingCards := pendingCards[sender := card];
    }

    method AcceptContactRequest(sender: Key, name: Option<Name>, now: Utc) returns (ok: bool)
      modifies this, contacts
      ensures View() == Step(old(View()), AcceptRequest(sender, name, now))
      ensures Inv(old(View())) ==> (ok <==> sender in old(pendingCards))
    {
      if sender !in pendingCards { return false; }
      var r := AddContactFromCard(pendingCards[sender], name, None, now);
      ok := r.None?;
      if ok { pendingCards := pendingCards - {sender}; }
    }

    method SetContactBoards(key: Key, preferred: Option<seq<Board>>, fallback: Option<seq<Board>>)
      modifies this, contacts
      ensures View() == Step(old(View()), SetBoards(key, preferred, fallback))
    {
      if key !in store { return; }
      var contact := store[key].(preferredBoards := Some(Default(preferred, [])), fallbackBoards := Some(Default(fallback, [])));
      store := store[contact.identityKey := contact];
      contacts.Patch(key, (r: ContactRecord) => r.(preferred := contact.preferredBoards.value, fallback := contact.fallbackBoards.value));
    }

    method SetContactRelayOnly(key: Key, relayOnly: bool)
      modifies this, contacts
      ensures View() == Step(old(View()), SetRelayOnly(key, relayOnly))
    {
      if key !in store { return; }
      var contact := store[key].(relayOnly := relayOnly);
      store := store[contact.identityKey := contact];
      contacts.Patch(key, (r: ContactRecord) => r.(relayOnly := relayOnly));
    }

    method AcceptContactMigration(key: Key, m: KeyMigration)
      requires Verify(m).Valid? && m.oldKey == key
      modifies this, contacts
      ensures View() == Step(old(View()), AcceptMigration(key, m))
    {
      if key !in store { return; }
      RegisterContact(store[key].(identityKey := m.newKey, transportKey := m.newBinding.transport, binding := m.newBinding));
    }

    method RemoveContact(key: Key)
      modifies this, contacts
      ensures View() == Step(old(View()), Remove(key))
    {
      store := store - {key};
      contacts.Remove(key);
    }

    method SetBlockedKeys(keys: set<Key>)
      modifies this
      ensures View() == Step(old(View()), SetBlocked(keys))
    {
      blockedKeys := keys;
      pendingCards := pendingCards - keys;
    }
  }
}
