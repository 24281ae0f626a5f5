/** Contacts, contact cards and the bulk import of contacts (packages/orpal-core/src/contacts/contact.ts,
 *  contact-export.ts).
 */
module Contacts {
  import opened Common
  import opened Migrations

  type Board = nat

  /** A timestamp; 0 is the empty string. */
  type Utc = nat

  datatype Name = Given(text: nat) | ShortKey(key: Key) | LoopbackName

  datatype Contact = Contact(
    identityKey: Key, transportKey: Pub, binding: Binding, displayName: Name, relayOnly: bool,
    preferredBoards: Option<seq<Board>>, fallbackBoards: Option<seq<Board>>, autoAcceptMigration: Option<bool>,
    addedUtc: Utc, isLoopback: bool)

  /** A card as parsed from text: fields of the wrong type are None. */
  datatype Card = Card(
    isCard: bool, identityKey: Option<Key>, transportKey: Option<Pub>, binding: Option<Binding>, name: Option<Name>)

  datatype Reason = NotACard | MissingFields | BadSignature | IdentityMismatch | TransportMismatch | OwnCard

  /** parseContactCard: None means valid. */
  function CheckCard(c: Card): Option<Reason> {
    if !c.isCard then Some(NotACard)
    else if c.identityKey.None? || c.transportKey.None? || c.binding.None? then Some(MissingFields)
    else if c.binding.value.signer != c.binding.value.identity then Some(BadSignature)
    else if c.binding.value.identity != c.identityKey.value then Some(IdentityMismatch)
    else if c.binding.value.transport != c.transportKey.value then Some(TransportMismatch)
    else None
  }

  /** The binding is its identity's own and ties the contact's two keys together. */
  predicate Bound(c: Contact) {
    c.binding == Binding(c.identityKey, c.transportKey, c.identityKey)
  }

  function CardOf(c: Contact): Card {
    Card(true, Some(c.identityKey), Some(c.transportKey), Some(c.binding), Some(c.displayName))
  }

  function Default<T>(o: Option<T>, d: T): T { if o.Some? then o.value else d }

  function ContactFromCard(c: Card, displayName: Option<Name>, relayOnly: Option<bool>, preferred: Option<seq<Board>>,
                           fallback: Option<seq<Board>>, now: Utc): Contact
    requires CheckCard(c).None?
  {
    Contact(c.identityKey.value, c.transportKey.value, c.binding.value,
            if displayName.Some? then displayName.value else Default(c.name, ShortKey(c.identityKey.value)),
            Default(relayOnly, false), Some(Default(preferred, [])), Some(Default(fallback, [])), None, now, false)
  }

  // ---------------------------------------------------------------------------------------------
  // Bundles
  // ---------------------------------------------------------------------------------------------

  datatype Entry = Entry(
    card: Card, relayOnly: Option<bool>, preferredBoards: Option<seq<Board>>, fallbackBoards: Option<seq<Board>>,
    autoAcceptMigration: Option<bool>, addedUtc: Option<Utc>)

  function ToEntry(c: Contact): Entry {
    Entry(CardOf(c), Some(c.relayOnly), Some(Default(c.preferredBoards, [])), Some(Default(c.fallbackBoards, [])),
          Some(Default(c.autoAcceptMigration, false)), Some(c.addedUtc))
  }

  /** The loopback contact stays home. */
  function Bundle(cs: seq<Contact>): seq<Entry> {
    if cs == [] then []
    else (if cs[0].isLoopback then [] else [ToEntry(cs[0])]) + Bundle(cs[1..])
  }

  datatype Options = Options(overwrite: bool, existing: set<Key>, ownKey: Option<Key>, now: Utc)

  datatype Fate = Imported(contact: Contact) | Skipped | Rejected(identityKey: Option<Key>, reason: Reason)

  function Materialize(e: Entry, now: Utc): Contact
    requires CheckCard(e.card).None?
  {
    var c := ContactFromCard(e.card, e.card.name, e.relayOnly, e.preferredBoards, e.fallbackBoards, now);
    c.(autoAcceptMigration := Some(Default(e.autoAcceptMigration, false)),
       addedUtc := if e.addedUtc.Some? && e.addedUtc.value != 0 then e.addedUtc.value else now)
  }

  function FateOf(e: Entry, seen: set<Key>, o: Options): Fate {
    var reason := CheckCard(e.card);
    if reason.Some? then Rejected(e.card.identityKey, reason.value)
    else if e.card.identityKey == o.ownKey then Rejected(e.card.identityKey, OwnCard)
    else if e.card.identityKey.value in seen + o.existing && !o.overwrite then Skipped
    else Imported(Materialize(e, o.now))
  }

  function Seen(f: Fate): set<Key> { if f.Imported? then {f.contact.identityKey} else {} }

  /** What becomes of each entry, in order. */
  function Fates(es: seq<Entry>, seen: set<Key>, o: Options): seq<Fate>
    decreases |es|
  {
    if es == [] then []
    else var f := FateOf(es[0], seen, o); [f] + Fates(es[1..], seen + Seen(f), o)
  }

  function Imports(fs: seq<Fate>): seq<Contact> {
    if fs == [] then [] else (if fs[0].Imported? then [fs[0].contact] else []) + Imports(fs[1..])
  }

  function Rejections(fs: seq<Fate>): seq<(Option<Key>, Reason)> {
    if fs == [] then []
    else (if fs[0].Rejected? then [(fs[0].identityKey, fs[0].reason)] else []) + Rejections(fs[1..])
  }

  function Skips(fs: seq<Fate>): nat {
    if fs == [] then 0 else (if fs[0].Skipped? then 1 else 0) + Skips(fs[1..])
  }

  lemma {:induction false} FatesAdd(fs: seq<Fate>)
    ensures |Imports(fs)| + Skips(fs) + |Rejections(fs)| == |fs|
  {
    if fs == [] {
    } else {
      FatesAdd(fs[1..]);
    }
  }

  lemma {:induction false} FatesLength(es: seq<Entry>, seen: set<Key>, o: Options)
    ensures |Fates(es, seen, o)| == |es|
    decreases |es|
  {
    if es == [] {
    } else {
      FatesLength(es[1..], seen + Seen(FateOf(es[0], seen, o)), o);
    }
  }

  lemma CountsCons(f: Fate, rest: seq<Fate>)
    ensures Imports([f] + rest) == (if f.Imported? then [f.contact] + Imports(rest) else Imports(rest))
    ensures Skips([f] + rest) == (if f.Skipped? then 1 else 0) + Skips(rest)
    ensures Rejections([f] + rest) == (if f.Rejected? then [(f.identityKey, f.reason)] + Rejections(rest) else Rejections(rest))
  {
    assert ([f] + rest)[1..] == rest;
  }

  /** A card is valid exactly if it is a card with both keys, bound to each other by the identity itself. */
  lemma ValidCardIff(c: Card)
    ensures CheckCard(c).None? <==>
            c.isCard && c.identityKey.Some? && c.transportKey.Some? &&
            c.binding == Some(Binding(c.identityKey.value, c.transportKey.value, c.identityKey.value))
  {
  }

  /** A reason for rejecting an entry is true of its card. */
  predicate Deserves(c: Card, own: Option<Key>, why: Reason) {
    match why
    case NotACard => !c.isCard
    case MissingFields => c.identityKey.None? || c.transportKey.None? || c.binding.None?
    case BadSignature => c.binding.Some? && c.binding.value.signer != c.binding.value.identity
    case IdentityMismatch => c.binding.Some? && Some(c.binding.value.identity) != c.identityKey
    case TransportMismatch => c.binding.Some? && Some(c.binding.value.transport) != c.transportKey
    case OwnCard => c.identityKey.Some? && c.identityKey == own
  }

  /** Whose card it is: valid, and of another device. */
  predicate Acceptable(c: Card, own: Option<Key>) { CheckCard(c).None? && c.identityKey != own }

  /** What becomes of an entry: it is rejected exactly if its card is invalid or our own, with a true reason; skipped
   *  exactly if it is acceptable, its key is known already and nothing is to be overwritten; and imported otherwise,
   *  under the name, keys, boards and flags it carries, with the time it was first added if it tells. */
  lemma FateIff(e: Entry, seen: set<Key>, o: Options)
    ensures var f, c := FateOf(e, seen, o), e.card;
            (f.Rejected? <==> !Acceptable(c, o.ownKey)) &&
            (f.Rejected? ==> f.identityKey == c.identityKey && Deserves(c, o.ownKey, f.reason)) &&
            (f.Skipped? <==> Acceptable(c, o.ownKey) && !o.overwrite && (c.identityKey.value in seen || c.identityKey.value in o.existing))
    ensures var f, c := FateOf(e, seen, o), e.card;
            f.Imported? ==>
              Some(f.contact.identityKey) == c.identityKey && Some(f.contact.transportKey) == c.transportKey && Some(f.contact.binding) == c.binding &&
              f.contact.displayName == (if c.name.Some? then c.name.value else ShortKey(f.contact.identityKey)) &&
              (f.contact.relayOnly <==> e.relayOnly == Some(true)) && f.contact.autoAcceptMigration.Some? &&
              (f.contact.autoAcceptMigration.value <==> e.autoAcceptMigration == Some(true)) &&
              !f.contact.isLoopback
    ensures var f := FateOf(e, seen, o);
            f.Imported? ==>
              f.contact.preferredBoards == Some(if e.preferredBoards.Some? then e.preferredBoards.value else []) &&
              f.contact.fallbackBoards == Some(if e.fallbackBoards.Some? then e.fallbackBoards.value else []) &&
              f.contact.addedUtc == if e.addedUtc.Some? && e.addedUtc != Some(0) then e.addedUtc.value else o.now
  {
  }

  /** Each has a valid binding and is not this device; unless overwriting, the keys are new and distinct. */
  predicate SoundImports(cs: seq<Contact>, seen: set<Key>, o: Options) {
    (forall i :: 0 <= i < |cs| ==> Bound(cs[i]) && Some(cs[i].identityKey) != o.ownKey && !cs[i].isLoopback) &&
    (!o.overwrite ==>
       (forall i :: 0 <= i < |cs| ==> cs[i].identityKey !in seen + o.existing) &&
       (forall i, j :: 0 <= i < j < |cs| ==> cs[i].identityKey != cs[j].identityKey))
  }

  lemma SoundCons(c: Contact, cs: seq<Contact>, seen: set<Key>, o: Options)
    requires SoundImports(cs, seen + {c.identityKey}, o)
    requires Bound(c) && Some(c.identityKey) != o.ownKey && !c.isLoopback
    requires !o.overwrite ==> c.identityKey !in seen + o.existing
    ensures SoundImports([c] + cs, seen, o)
  {
    assert c.identityKey in seen + {c.identityKey};
  }

  /** Importing never stores an unbound contact or this device, and skipping collisions overwrites nothing. */
  lemma {:induction false} ImportsAreSound(es: seq<Entry>, seen: set<Key>, o: Options)
    ensures SoundImports(Imports(Fates(es, seen, o)), seen, o)
    decreases |es|
  {
    if es == [] {
    } else {
      var f := FateOf(es[0], seen, o);
      var rest := Fates(es[1..], seen + Seen(f), o);
      ImportsAreSound(es[1..], seen + Seen(f), o);
      CountsCons(f, rest);
      assert Fates(es, seen, o) == [f] + rest;
      if f.Imported? {
        SoundCons(f.contact, Imports(rest), seen, o);
      } else {
        assert seen + Seen(f) == seen;
      }
    }
  }

  /** A contact as a bundle carries it: absent lists and flags become their defaults. */
  function Normalized(c: Contact): Contact {
    c.(preferredBoards := Some(Default(c.preferredBoards, [])), fallbackBoards := Some(Default(c.fallbackBoards, [])),
       autoAcceptMigration := Some(Default(c.autoAcceptMigration, false)))
  }

  function Exported(cs: seq<Contact>): seq<Contact> {
    if cs == [] then []
    else (if cs[0].isLoopback then [] else [Normalized(cs[0])]) + Exported(cs[1..])
  }

  /** Importing an export on another device gives back every contact but the loopback one, timestamps
   *  included, with nothing skipped or rejected. */
  lemma {:induction false} ExportImportsBack(cs: seq<Contact>, seen: set<Key>, o: Options)
    requires forall i :: 0 <= i < |cs| ==>
               Bound(cs[i]) && cs[i].addedUtc != 0 && cs[i].identityKey !in seen + o.existing && Some(cs[i].identityKey) != o.ownKey
    requires forall i, j :: 0 <= i < j < |cs| ==> cs[i].identityKey != cs[j].identityKey
    ensures Imports(Fates(Bundle(cs), seen, o)) == Exported(cs)
    ensures Skips(Fates(Bundle(cs), seen, o)) == 0 && Rejections(Fates(Bundle(cs), seen, o)) == []
    decreases |cs|
  {
    if cs == [] {
    } else {
      var c, more := cs[0], cs[1..];
      if c.isLoopback {
        ExportImportsBack(more, seen, o);
        assert Bundle(cs) == Bundle(more);
      } else {
        var e := ToEntry(c);
        var f := FateOf(e, seen, o);
        assert Bundle(cs) == [e] + Bundle(more);
        assert f == Imported(Normalized(c));
        ExportImportsBack(more, seen + Seen(f), o);
        var rest := Fates(Bundle(more), seen + Seen(f), o);
        assert ([e] + Bundle(more))[1..] == Bundle(more);
        assert Fates(Bundle(cs), seen, o) == [f] + rest;
        assert ([f] + rest)[1..] == rest;
      }
    }
  }

  datatype Summary = Summary(imported: nat, skipped: nat, rejected: seq<(Option<Key>, Reason)>)

  function Resume(es: seq<Entry>, k: nat, seen: set<Key>, o: Options): seq<Fate>
    requires k <= |es|
  {
    Fates(es[k..], seen, o)
  }

  /** contactFromCard and the fields it does not set. */
  method MakeContact(e: Entry, now: Utc) returns (contact: Contact)
    requires CheckCard(e.card).None?
    ensures contact == Materialize(e, now)
  {
    contact := ContactFromCard(e.card, e.card.name, e.relayOnly, e.preferredBoards, e.fallbackBoards, now);
    contact := contact.(autoAcceptMigration := Some(Default(e.autoAcceptMigration, false)));
    // An export keeps the original time of adding.
    if e.addedUtc.Some? && e.addedUtc.value != 0 { contact := contact.(addedUtc := e.addedUtc.value); }
  }

  /** The counters so far and what the remaining fates will add to them. */
  ghost predicate AddUp(all: seq<Fate>, cs: seq<Contact>, s: Summary, rest: seq<Fate>) {
    s.imported == |cs| && Imports(all) == cs + Imports(rest) && Skips(all) == s.skipped + Skips(rest) &&
    Rejections(all) == s.rejected + Rejections(rest)
  }

  ghost predicate SoFar(es: seq<Entry>, k: nat, seen: set<Key>, o: Options, cs: seq<Contact>, s: Summary) {
    k <= |es| && AddUp(Fates(es, {}, o), cs, s, Resume(es, k, seen, o))
  }

  /** The counters after one more entry. */
  function Count(s: Summary, f: Fate): Summary {
    match f
    case Imported(_) => s.(imported := s.imported + 1)
    case Skipped => s.(skipped := s.skipped + 1)
    case Rejected(k, reason) => s.(rejected := s.rejected + [(k, reason)])
  }

  lemma AddUpMore(all: seq<Fate>, cs: seq<Contact>, s: Summary, f: Fate, rest: seq<Fate>)
    requires AddUp(all, cs, s, [f] + rest)
    ensures AddUp(all, if f.Imported? then cs + [f.contact] else cs, Count(s, f), rest)
  {
    CountsCons(f, rest);
    match f
    case Imported(c) => Associative(cs, [c], Imports(rest));
    case Skipped =>
    case Rejected(k, reason) => Associative(s.rejected, [(k, reason)], Rejections(rest));
  }

  lemma ResumeCons(es: seq<Entry>, k: nat, seen: set<Key>, o: Options)
    requires k < |es|
    ensures var f := FateOf(es[k], seen, o); Resume(es, k, seen, o) == [f] + Resume(es, k + 1, seen + Seen(f), o)
  {
    assert es[k..][1..] == es[k + 1..];
  }

  lemma SoFarMore(es: seq<Entry>, k: nat, seen: set<Key>, o: Options, cs: seq<Contact>, s: Summary)
    requires SoFar(es, k, seen, o, cs, s) && k < |es|
    ensures var f := FateOf(es[k], seen, o);
            SoFar(es, k + 1, seen + Seen(f), o, if f.Imported? then cs + [f.contact] else cs, Count(s, f))
    ensures Seen(FateOf(es[k], seen, o)) == {} ==> seen + Seen(FateOf(es[k], seen, o)) == seen
  {
    var f := FateOf(es[k], seen, o);
    ResumeCons(es, k, seen, o);
    AddUpMore(Fates(es, {}, o), cs, s, f, Resume(es, k + 1, seen + Seen(f), o));
  }

  /** The loop of importContacts. The counts cover every entry. */
  method ImportBundle(es: seq<Entry>, o: Options) returns (contacts: seq<Contact>, summary: Summary)
    ensures contacts == Imports(Fates(es, {}, o))
    ensures summary == Summary(|contacts|, Skips(Fates(es, {}, o)), Rejections(Fates(es, {}, o)))
    ensures summary.imported + summary.skipped + |summary.rejected| == |es|
  {
    contacts, summary := [], Summary(0, 0, []);
    var seen: set<Key> := {};
    assert es[0..] == es;
    for k := 0 to |es|
      invariant SoFar(es, k, seen, o, contacts, summary)
    {
      var e := es[k];
      SoFarMore(es, k, seen, o, contacts, summary);
      var reason := CheckCard(e.card);
      if reason.Some? {
        summary := summary.(rejected := summary.rejected + [(e.card.identityKey, reason.value)]);
        continue;
      }
      var key := e.card.identityKey.value;
      if o.ownKey == Some(key) {
        summary := summary.(rejected := summary.rejected + [(e.card.identityKey, OwnCard)]);
        continue;
      }
      var collides := key in seen || key in o.existing;
      if collides && !o.overwrite {
        summary := summary.(skipped := summary.skipped + 1);
        continue;
      }
      var contact := MakeContact(e, o.now);
      contacts := contacts + [contact];
      seen := seen + {key};
      summary := summary.(imported := summary.imported + 1);
    }
    assert es[|es|..] == [];
    FatesAdd(Fates(es, {}, o));
    FatesLength(es, {}, o);
  }
}
