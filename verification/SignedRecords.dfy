/** The signed record kinds (orp-ref/core/identity.ts, wire.ts, migration.ts, schemas.ts): how each is
 *  built, how each is verified, and that no signature serves two of them.
 */
module SignedRecords {
  import opened Common
  import opened NumberText
  import opened StringText
  import opened Canonical
  import opened JsonReader
  import opened Signing
  import Utf8Text

  datatype Kind = Binding | Presence | Intent | MatchFrame | Migration | MigrationAck

  function At(r: Record, name: string): Value { Prop(r, Ascii(name)) }

  /** A string property, or the empty string. */
  function StrAt(r: Record, name: string): Text {
    if At(r, name).Str? then At(r, name).s else []
  }

  // ---------------------------------------------------------------------------------------------
  // Schemas
  // ---------------------------------------------------------------------------------------------

  predicate HasStrings(r: Record, names: seq<string>) {
    forall i :: 0 <= i < |names| ==> At(r, names[i]).Str?
  }

  predicate Only(r: Record, names: seq<string>) {
    forall k :: k in Keys(r) ==> exists n :: n in names && k == Ascii(n)
  }

  predicate OptionalString(r: Record, name: string) {
    Ascii(name) in Keys(r) ==> At(r, name).Str?
  }

  predicate TypeIs(r: Record, name: string) { At(r, "type") == Str(Ascii(name)) }

  const BINDING_NAMES: seq<string> := ["identity_key", "transport_key", "created_utc", "binding_sig"]

  predicate BindingSchema(v: Value) {
    v.Obj? && HasStrings(v.fields, BINDING_NAMES) && Only(v.fields, BINDING_NAMES)
  }

  predicate Capabilities(v: Value) {
    v.Obj? && At(v.fields, "data_channel").Bool? && At(v.fields, "ice_restart").Bool? &&
    Only(v.fields, ["data_channel", "ice_restart"])
  }

  const PRESENCE_NAMES: seq<string> :=
    ["type", "self_key", "boards_scope", "webrtc_capabilities", "session_nonce", "timestamp_utc", "push_token", "signature"]

  const INTENT_NAMES: seq<string> :=
    ["type", "self_key", "target_key", "session_nonce", "timestamp_utc", "signature"]

  const FRAME_NAMES: seq<string> :=
    ["type", "match_id", "from_key", "phase", "transport_key", "binding", "enc_signaling", "session_nonce", "timestamp_utc",
     "signature"]

  const MIGRATION_BODY: seq<string> :=
    ["type", "old_key", "new_key", "new_binding", "issued_utc", "retire_after_utc", "session_nonce", "timestamp_utc"]

  const ACK_NAMES: seq<string> :=
    ["type", "acked_by", "old_key", "new_key", "migration_nonce", "session_nonce", "timestamp_utc", "signature"]

  predicate Schema(kind: Kind, r: Record) {
    match kind
    case Binding => true
    case Presence =>
      TypeIs(r, "presence") && HasStrings(r, ["self_key", "session_nonce", "timestamp_utc", "signature"]) &&
      (var b := At(r, "boards_scope"); b.Arr? && b.items != [] && forall i :: 0 <= i < |b.items| ==> b.items[i].Str?) &&
      Capabilities(At(r, "webrtc_capabilities")) && OptionalString(r, "push_token") && Only(r, PRESENCE_NAMES)
    case Intent =>
      TypeIs(r, "intent") && HasStrings(r, INTENT_NAMES) && Only(r, INTENT_NAMES)
    case MatchFrame =>
      (TypeIs(r, "match_offer") || TypeIs(r, "match_answer")) &&
      (At(r, "phase") == Str(Ascii("key")) || At(r, "phase") == Str(Ascii("signaling"))) &&
      HasStrings(r, ["match_id", "from_key", "session_nonce", "timestamp_utc", "signature"]) &&
      OptionalString(r, "transport_key") && OptionalString(r, "enc_signaling") &&
      (Ascii("binding") in Keys(r) ==> BindingSchema(At(r, "binding"))) && Only(r, FRAME_NAMES)
    case Migration =>
      TypeIs(r, "key_migration") && BindingSchema(At(r, "new_binding")) &&
      HasStrings(r, ["old_key", "new_key", "issued_utc", "retire_after_utc", "session_nonce", "timestamp_utc", "old_sig", "new_sig"]) &&
      Only(r, MIGRATION_BODY + ["old_sig", "new_sig"])
    case MigrationAck =>
      TypeIs(r, "migration_ack") && HasStrings(r, ACK_NAMES) && Only(r, ACK_NAMES)
  }

  // ---------------------------------------------------------------------------------------------
  // What each kind's signatures cover
  // ---------------------------------------------------------------------------------------------

  /** A new object with the named properties of `r`. */
  function Pick(r: Record, names: seq<string>): (q: Record)
    ensures forall k :: k in Keys(q) ==> exists n :: n in names && k == Ascii(n)
    ensures forall n :: n in names ==> At(q, n) == At(r, n)
    ensures forall k :: (forall n :: n in names ==> k != Ascii(n)) ==> Prop(q, k) == Undefined
  {
    if names == [] then []
    else
      var rest := Pick(r, names[1..]);
      assert names == [names[0]] + names[1..];
      With(rest, Ascii(names[0]), At(r, names[0]))
  }

  const BINDING_BODY: seq<string> := ["identity_key", "transport_key", "created_utc"]

  function Body(kind: Kind, r: Record): Record {
    match kind
    case Binding => Pick(r, BINDING_BODY)
    case Migration => Pick(r, MIGRATION_BODY)
    case _ => Without(r, SIGNATURE())
  }

  /** The signature properties of a kind, each with the property that names its signer. */
  function Slots(kind: Kind): seq<(string, string)> {
    match kind
    case Binding => [("binding_sig", "identity_key")]
    case Presence => [("signature", "self_key")]
    case Intent => [("signature", "self_key")]
    case MatchFrame => [("signature", "from_key")]
    case Migration => [("old_sig", "old_key"), ("new_sig", "new_key")]
    case MigrationAck => [("signature", "acked_by")]
  }

  // ---------------------------------------------------------------------------------------------
  // Verifiers
  // ---------------------------------------------------------------------------------------------

  /** ed25519.verify over the canonical bytes; false when anything throws. */
  predicate VerifySlot(kind: Kind, r: Record, slot: (string, string)) {
    At(r, slot.0).Str? && At(r, slot.1).Str? && Preimage(Body(kind, r)).Some? &&
    At(r, slot.0).s == Sig(At(r, slot.1).s, Preimage(Body(kind, r)).value)
  }

  predicate VerifyBinding(b: Record) { VerifySlot(Binding, b, ("binding_sig", "identity_key")) }

  function VerifyAnnounce(r: Record): Option<Kind> {
    if TypeIs(r, "presence") then
      if Schema(Presence, r) && VerifyObject(r, StrAt(r, "self_key")) then Some(Presence) else None
    else if TypeIs(r, "intent") then
      if Schema(Intent, r) && VerifyObject(r, StrAt(r, "self_key")) then Some(Intent) else None
    else None
  }

  datatype FrameVerdict = Valid | Invalid(reason: string)

  predicate Truthy(v: Value) { v.Obj? || (v.Str? && v.s != []) }

  function VerifyMatchFrame(f: Record, expected: Option<Key>): FrameVerdict {
    if !Schema(MatchFrame, f) then Invalid("schema") else CheckFrame(f, expected)
  }

  /** What follows the check of the shape. */
  function CheckFrame(f: Record, expected: Option<Key>): FrameVerdict {
    if !VerifyObject(f, StrAt(f, "from_key")) then Invalid("bad-signature")
    else if expected.Some? && expected.value != [] && StrAt(f, "from_key") != expected.value then Invalid("unexpected-sender")
    else CheckPhase(f)
  }

  function CheckPhase(f: Record): FrameVerdict {
    if At(f, "phase") == Str(Ascii("key")) then
      var b := At(f, "binding");
      if !Truthy(At(f, "transport_key")) || !Truthy(b) || !b.Obj? then Invalid("key-frame-missing-transport-key-or-binding")
      else if !VerifyBinding(b.fields) then Invalid("bad-binding")
      else if At(b.fields, "identity_key") != At(f, "from_key") then Invalid("binding-identity-mismatch")
      else if At(b.fields, "transport_key") != At(f, "transport_key") then Invalid("binding-transport-mismatch")
      else Valid
    else if !Truthy(At(f, "enc_signaling")) then Invalid("signaling-frame-missing-blob")
    else Valid
  }

  function VerifyKeyMigration(m: Record): FrameVerdict {
    if !Schema(Migration, m) then Invalid("schema")
    else if At(m, "old_key") == At(m, "new_key") then Invalid("old-and-new-key-identical")
    else
      var b := At(m, "new_binding");
      if !b.Obj? || !VerifyBinding(b.fields) then Invalid("bad-new-binding")
      else if At(b.fields, "identity_key") != At(m, "new_key") then Invalid("new-binding-identity-mismatch")
      else if !VerifySlot(Migration, m, ("old_sig", "old_key")) then Invalid("bad-old-signature")
      else if !VerifySlot(Migration, m, ("new_sig", "new_key")) then Invalid("bad-new-signature")
      else Valid
  }

  predicate VerifyMigrationAck(r: Record) {
    Schema(MigrationAck, r) && VerifyObject(r, StrAt(r, "acked_by"))
  }

  predicate Accepted(kind: Kind, r: Record) {
    match kind
    case Binding => VerifyBinding(r)
    case Presence => VerifyAnnounce(r) == Some(Presence)
    case Intent => VerifyAnnounce(r) == Some(Intent)
    case MatchFrame => VerifyMatchFrame(r, None) == Valid
    case Migration => VerifyKeyMigration(r) == Valid
    case MigrationAck => VerifyMigrationAck(r)
  }

  // ---------------------------------------------------------------------------------------------
  // No signature serves two records
  // ---------------------------------------------------------------------------------------------

  lemma ObjectIsSigned(kind: Kind, r: Record, signer: string)
    requires Body(kind, r) == Without(r, SIGNATURE()) && VerifyObject(r, StrAt(r, signer)) && At(r, signer).Str?
    ensures VerifySlot(kind, r, ("signature", signer))
  {
    assert At(r, "signature") == Prop(r, SIGNATURE());
  }

  predicate IsWire(kind: Kind) { kind.Presence? || kind.Intent? || kind.MatchFrame? || kind.MigrationAck? }

  function Signer(kind: Kind): string
    requires IsWire(kind)
  {
    match kind
    case MatchFrame => "from_key"
    case MigrationAck => "acked_by"
    case _ => "self_key"
  }

  lemma AcceptedWire(kind: Kind, r: Record)
    requires Accepted(kind, r) && IsWire(kind)
    ensures VerifyObject(r, StrAt(r, Signer(kind))) && Schema(kind, r)
  {
  }

  lemma SignerIsString(kind: Kind, r: Record)
    requires Schema(kind, r) && IsWire(kind)
    ensures At(r, Signer(kind)).Str?
  {
    match kind
    case Presence => assert ["self_key", "session_nonce", "timestamp_utc", "signature"][0] == "self_key";
    case Intent => assert INTENT_NAMES[1] == "self_key";
    case MatchFrame => assert ["match_id", "from_key", "session_nonce", "timestamp_utc", "signature"][1] == "from_key";
    case MigrationAck => assert ACK_NAMES[1] == "acked_by";
  }

  lemma WireSlot(kind: Kind, slot: (string, string))
    requires IsWire(kind) && slot in Slots(kind)
    ensures slot == ("signature", Signer(kind))
  {
  }

  lemma WireIsSigned(kind: Kind, r: Record)
    requires Accepted(kind, r) && IsWire(kind)
    ensures VerifySlot(kind, r, ("signature", Signer(kind))) && Schema(kind, r)
  {
    AcceptedWire(kind, r);
    SignerIsString(kind, r);
    ObjectIsSigned(kind, r, Signer(kind));
  }

  lemma BothSigned(r: Record)
    requires VerifyKeyMigration(r) == Valid
    ensures VerifySlot(Migration, r, ("old_sig", "old_key")) && VerifySlot(Migration, r, ("new_sig", "new_key"))
    ensures Schema(Migration, r)
  {
  }

  lemma MigrationSlot(slot: (string, string))
    requires slot in Slots(Migration)
    ensures slot == ("old_sig", "old_key") || slot == ("new_sig", "new_key")
  {
  }

  /** Every signature an accepted record carries is its named signer's, over its body. */
  lemma AcceptedIsSigned(kind: Kind, r: Record, slot: (string, string))
    requires Accepted(kind, r) && slot in Slots(kind)
    ensures VerifySlot(kind, r, slot) && Schema(kind, r)
  {
    match kind
    case Binding =>
    case Migration => BothSigned(r); MigrationSlot(slot);
    case _ => WireSlot(kind, slot); WireIsSigned(kind, r);
  }

  lemma NamesDiffer()
    ensures Ascii("type") != SIGNATURE() && Ascii("presence") != Ascii("intent")
    ensures Ascii("type") != Ascii("identity_key") && Ascii("type") != Ascii("transport_key") && Ascii("type") != Ascii("created_utc")
    ensures Ascii("presence") != Ascii("match_offer") && Ascii("presence") != Ascii("match_answer")
    ensures Ascii("presence") != Ascii("key_migration") && Ascii("presence") != Ascii("migration_ack")
    ensures Ascii("intent") != Ascii("match_offer") && Ascii("intent") != Ascii("match_answer")
    ensures Ascii("intent") != Ascii("key_migration") && Ascii("intent") != Ascii("migration_ack")
    ensures Ascii("match_offer") != Ascii("key_migration") && Ascii("match_offer") != Ascii("migration_ack")
    ensures Ascii("match_answer") != Ascii("key_migration") && Ascii("match_answer") != Ascii("migration_ack")
    ensures Ascii("key_migration") != Ascii("migration_ack")
  {
    assert |Ascii("type")| == 4;
    assert |Ascii("presence")| == 8 && |Ascii("intent")| == 6 && |Ascii("match_offer")| == 11;
    assert |Ascii("match_answer")| == 12;
    assert Ascii("key_migration")[0] == 'k' as int && Ascii("migration_ack")[0] == 'm' as int;
  }

  /** The signed type: undefined for a binding, which has none. */
  predicate TypeFits(kind: Kind, t: Value) {
    match kind
    case Binding => t == Undefined
    case Presence => t == Str(Ascii("presence"))
    case Intent => t == Str(Ascii("intent"))
    case MatchFrame => t == Str(Ascii("match_offer")) || t == Str(Ascii("match_answer"))
    case Migration => t == Str(Ascii("key_migration"))
    case MigrationAck => t == Str(Ascii("migration_ack"))
  }

  lemma BodyType(kind: Kind, r: Record)
    requires Schema(kind, r)
    ensures TypeFits(kind, At(Body(kind, r), "type"))
  {
    NamesDiffer();
    match kind
    case Binding =>
      assert forall n :: n in BINDING_BODY ==> Ascii("type") != Ascii(n);
    case Migration => assert MIGRATION_BODY[0] == "type";
    case _ =>
  }

  lemma TypeFixesKind(a: Kind, b: Kind, t: Value)
    requires TypeFits(a, t) && TypeFits(b, t)
    ensures a == b
  {
    NamesDiffer();
  }

  /** A signature found in two accepted records comes from one signer and one record kind, and the two
   *  records say the same: no signature over one kind ever passes as another kind. */
  lemma SignatureFixesRecord(a: Kind, r: Record, slot: (string, string), b: Kind, s: Record, slot': (string, string))
    requires Accepted(a, r) && slot in Slots(a)
    requires Accepted(b, s) && slot' in Slots(b)
    requires At(r, slot.0) == At(s, slot'.0)
    ensures a == b && At(r, slot.1) == At(s, slot'.1)
    ensures Printable(Obj(Body(a, r))) && Printable(Obj(Body(b, s))) && Says(Body(a, r)) == Says(Body(b, s))
  {
    AcceptedIsSigned(a, r, slot);
    AcceptedIsSigned(b, s, slot');
    var p, q := Body(a, r), Body(b, s);
    PrintsIff(Obj(p), true);
    PrintsIff(Obj(q), true);
    SigIsFree(At(r, slot.1).s, Preimage(p).value, At(s, slot'.1).s, Preimage(q).value);
    BytesIffSameMeaning(Obj(p), Obj(q));
    BodyType(a, r);
    BodyType(b, s);
    TypeKept(p, q);
    TypeFixesKind(a, b, At(p, "type"));
  }

  lemma TypeKept(p: Record, q: Record)
    requires Printable(Obj(p)) && Printable(Obj(q)) && Mean(Obj(p)) == Mean(Obj(q))
    requires At(p, "type").Str? || At(p, "type").Undefined?
    requires At(q, "type").Str? || At(q, "type").Undefined?
    ensures At(p, "type") == At(q, "type")
  {
    PropMeans(p, Ascii("type"));
    PropMeans(q, Ascii("type"));
  }

  // ---------------------------------------------------------------------------------------------
  // Exactly what is accepted
  // ---------------------------------------------------------------------------------------------

  /** A non-empty string property. */
  predicate HasText(r: Record, name: string) { At(r, name).Str? && At(r, name).s != [] }

  /** A match frame's binding ties the sender's key to the transport key that the frame announces. */
  predicate BindsSender(f: Record) {
    HasText(f, "transport_key") && At(f, "binding").Obj? && VerifyBinding(At(f, "binding").fields) &&
    At(At(f, "binding").fields, "identity_key") == At(f, "from_key") &&
    At(At(f, "binding").fields, "transport_key") == At(f, "transport_key")
  }

  lemma TextOrAbsent(f: Record, name: string)
    requires OptionalString(f, name)
    ensures Truthy(At(f, name)) <==> HasText(f, name)
  {
    assert At(f, name) == Prop(f, Ascii(name));
  }

  lemma FrameTexts(f: Record)
    requires Schema(MatchFrame, f)
    ensures OptionalString(f, "transport_key") && OptionalString(f, "enc_signaling")
  {
  }

  predicate SoundPhase(f: Record) {
    if At(f, "phase") == Str(Ascii("key")) then BindsSender(f) else HasText(f, "enc_signaling")
  }

  /** The second half of the check: signature, sender, and what the phase asks for. */
  predicate SoundFrame(f: Record, expected: Option<Key>) {
    VerifyObject(f, StrAt(f, "from_key")) && (expected.Some? && expected.value != [] ==> StrAt(f, "from_key") == expected.value) &&
    SoundPhase(f)
  }

  lemma PhaseIff(f: Record)
    requires Truthy(At(f, "transport_key")) <==> HasText(f, "transport_key")
    requires Truthy(At(f, "enc_signaling")) <==> HasText(f, "enc_signaling")
    ensures CheckPhase(f) == Valid <==> SoundPhase(f)
  {
  }

  lemma CheckedIff(f: Record, expected: Option<Key>)
    requires OptionalString(f, "transport_key") && OptionalString(f, "enc_signaling")
    ensures CheckFrame(f, expected) == Valid <==> SoundFrame(f, expected)
  {
    TextOrAbsent(f, "transport_key");
    TextOrAbsent(f, "enc_signaling");
    PhaseIff(f);
  }

  /** A match frame is valid exactly if it has the prescribed shape, its sender signed it, that is the expected one if
   *  one is expected, and it announces a transport key bound by its sender, or carries sealed signaling. */
  lemma FrameValidIff(f: Record, expected: Option<Key>)
    ensures VerifyMatchFrame(f, expected) == Valid <==> Schema(MatchFrame, f) && SoundFrame(f, expected)
  {
    if Schema(MatchFrame, f) {
      FrameTexts(f);
      CheckedIff(f, expected);
    }
  }

  /** What a reason says of a frame. */
  predicate Reason(f: Record, expected: Option<Key>, why: string) {
    match why
    case "bad-signature" => !VerifyObject(f, StrAt(f, "from_key"))
    case "unexpected-sender" => expected.Some? && StrAt(f, "from_key") != expected.value
    case _ => PhaseReason(f, why)
  }

  predicate PhaseReason(f: Record, why: string) {
    match why
    case "signaling-frame-missing-blob" => !HasText(f, "enc_signaling")
    case "key-frame-missing-transport-key-or-binding" => !HasText(f, "transport_key") || !At(f, "binding").Obj?
    case "bad-binding" => At(f, "binding").Obj? && !VerifyBinding(At(f, "binding").fields)
    case "binding-identity-mismatch" => At(f, "binding").Obj? && At(At(f, "binding").fields, "identity_key") != At(f, "from_key")
    case "binding-transport-mismatch" =>
      At(f, "binding").Obj? && At(At(f, "binding").fields, "transport_key") != At(f, "transport_key")
    case _ => false
  }

  lemma PhaseReasonHolds(f: Record)
    requires Truthy(At(f, "transport_key")) <==> HasText(f, "transport_key")
    requires Truthy(At(f, "enc_signaling")) <==> HasText(f, "enc_signaling")
    requires CheckPhase(f).Invalid?
    ensures PhaseReason(f, CheckPhase(f).reason) && CheckPhase(f).reason != "bad-signature" && CheckPhase(f).reason != "unexpected-sender"
  {
  }

  /** The reason why a frame that has the shape is not valid is true of it. */
  lemma FrameReason(f: Record, expected: Option<Key>)
    requires CheckFrame(f, expected).Invalid? && OptionalString(f, "transport_key") && OptionalString(f, "enc_signaling")
    ensures Reason(f, expected, CheckFrame(f, expected).reason)
  {
    TextOrAbsent(f, "transport_key");
    TextOrAbsent(f, "enc_signaling");
    if CheckPhase(f).Invalid? { PhaseReasonHolds(f); }
  }

  /** An announcement is accepted as what its type says exactly if it has that shape and its self key signed it. */
  lemma AnnounceIff(r: Record, kind: Kind)
    ensures VerifyAnnounce(r) == Some(kind) <==>
            (kind.Presence? || kind.Intent?) && Schema(kind, r) && VerifyObject(r, StrAt(r, "self_key"))
  {
    NamesDiffer();
  }

  /** What a device signs itself is accepted: a record of the prescribed shape, signed by the key that it names as its
   *  signer; of a match frame also what its phase asks for. */
  lemma SignedIsAccepted(kind: Kind, record: Record, key: Key)
    requires IsWire(kind) && SignObject(record, key).Some?
    requires var r := SignObject(record, key).value;
             Schema(kind, r) && StrAt(r, Signer(kind)) == key &&
             (kind.MatchFrame? ==> SoundPhase(r))
    ensures Accepted(kind, SignObject(record, key).value)
  {
    var r := SignObject(record, key).value;
    SignsIff(record, key);
    VerifiesIff(record, key, r, key);
    SameBody(record, Prop(r, SIGNATURE()));
    SameSigned(record, r);
    match kind
    case MatchFrame => FrameValidIff(r, None);
    case MigrationAck =>
    case _ => AnnounceIff(r, kind);
  }

  /** Signing does not change what a record says. */
  lemma SameSigned(record: Record, r: Record)
    requires Printable(Obj(Without(record, SIGNATURE()))) && Preimage(Without(r, SIGNATURE())) == Preimage(Without(record, SIGNATURE()))
    ensures Printable(Obj(Without(r, SIGNATURE()))) && BodyMeaning(r) == BodyMeaning(record)
  {
    var a, b := Obj(Without(record, SIGNATURE())), Obj(Without(r, SIGNATURE()));
    PrintsIff(a, true);
    PrintsIff(b, true);
    BytesIffSameMeaning(a, b);
  }

  // ---------------------------------------------------------------------------------------------
  // An honest migration is accepted
  // ---------------------------------------------------------------------------------------------

  lemma {:induction false} PickAgain(q: Record, r: Record, names: seq<string>)
    requires forall i :: 0 <= i < |names| ==> At(q, names[i]) == At(r, names[i])
    ensures Pick(q, names) == Pick(r, names)
  {
    if names == [] {
    } else {
      assert names[0] == names[0..][0];
      forall i | 0 <= i < |names[1..]| ensures At(q, names[1..][i]) == At(r, names[1..][i]) {
        assert names[1..][i] == names[i + 1];
      }
      PickAgain(q, r, names[1..]);
    }
  }

  function WithSignatures(body: Record, a: Text, b: Text): Record {
    With(With(body, Ascii("old_sig"), Str(a)), Ascii("new_sig"), Str(b))
  }

  /** makeKeyMigration, from the body it has put together: both keys sign it. */
  function CoSigned(body: Record, oldKey: Key, newKey: Key): Option<Record> {
    var preimage := Preimage(Pick(body, MIGRATION_BODY));
    if preimage.None? then None
    else Some(WithSignatures(body, Sig(oldKey, preimage.value), Sig(newKey, preimage.value)))
  }

  /** The two keys can sign exactly what prints. */
  lemma CoSignsIff(body: Record, oldKey: Key, newKey: Key)
    ensures CoSigned(body, oldKey, newKey).Some? <==> Printable(Obj(Pick(body, MIGRATION_BODY)))
  {
    PrintsIff(Obj(Pick(body, MIGRATION_BODY)), true);
  }

  predicate IsAscii(s: string) { forall i :: 0 <= i < |s| ==> s[i] < 0x80 as char }

  lemma AsciiDiffers(a: string, b: string)
    requires IsAscii(a) && IsAscii(b) && a != b
    ensures Ascii(a) != Ascii(b)
  {
    if |a| == |b| {
      var i :| 0 <= i < |a| && a[i] != b[i];
      assert Ascii(a)[i] == a[i] as int && Ascii(b)[i] == b[i] as int;
    } else {
      assert |Ascii(a)| != |Ascii(b)|;
    }
  }

  /** Adding the signatures leaves every other property. */
  lemma SignaturesAreApart(body: Record, a: Text, b: Text, name: string)
    requires IsAscii(name) && name != "old_sig" && name != "new_sig"
    ensures At(WithSignatures(body, a, b), name) == At(body, name)
  {
    AsciiDiffers(name, "old_sig");
    AsciiDiffers(name, "new_sig");
  }

  lemma SignaturesAreThere(body: Record, a: Text, b: Text)
    ensures At(WithSignatures(body, a, b), "old_sig") == Str(a) && At(WithSignatures(body, a, b), "new_sig") == Str(b)
  {
    AsciiDiffers("old_sig", "new_sig");
  }

  lemma BodyNames(i: nat)
    requires i < |MIGRATION_BODY|
    ensures var name := MIGRATION_BODY[i]; IsAscii(name) && name != "old_sig" && name != "new_sig"
  {
  }

  lemma SameSignedBody(body: Record, a: Text, b: Text)
    ensures Pick(WithSignatures(body, a, b), MIGRATION_BODY) == Pick(body, MIGRATION_BODY)
  {
    forall i | 0 <= i < |MIGRATION_BODY|
      ensures At(WithSignatures(body, a, b), MIGRATION_BODY[i]) == At(body, MIGRATION_BODY[i])
    {
      BodyNames(i);
      SignaturesAreApart(body, a, b, MIGRATION_BODY[i]);
    }
    PickAgain(WithSignatures(body, a, b), body, MIGRATION_BODY);
  }

  lemma SlotHolds(m: Record, slot: (string, string), key: Key, preimage: seq<Utf8Text.Byte>)
    requires At(m, slot.0) == Str(Sig(key, preimage)) && At(m, slot.1) == Str(key)
    requires Preimage(Body(Migration, m)) == Some(preimage)
    ensures VerifySlot(Migration, m, slot)
  {
  }

  lemma BothSlots(m: Record, oldKey: Key, newKey: Key, preimage: seq<Utf8Text.Byte>)
    requires At(m, "old_sig") == Str(Sig(oldKey, preimage)) && At(m, "new_sig") == Str(Sig(newKey, preimage))
    requires At(m, "old_key") == Str(oldKey) && At(m, "new_key") == Str(newKey)
    requires Preimage(Body(Migration, m)) == Some(preimage)
    ensures VerifySlot(Migration, m, ("old_sig", "old_key")) && VerifySlot(Migration, m, ("new_sig", "new_key"))
  {
    SlotHolds(m, ("old_sig", "old_key"), oldKey, preimage);
    SlotHolds(m, ("new_sig", "new_key"), newKey, preimage);
  }

  lemma MigrationBytes(m: Record, body: Record)
    requires Pick(m, MIGRATION_BODY) == Pick(body, MIGRATION_BODY)
    ensures Preimage(Body(Migration, m)) == Preimage(Pick(body, MIGRATION_BODY))
  {
  }

  lemma KeyNames()
    ensures IsAscii("old_key") && "old_key" != "old_sig" && "old_key" != "new_sig"
    ensures IsAscii("new_key") && "new_key" != "old_sig" && "new_key" != "new_sig"
  {
    assert "old_key"[4] == 'k' && "new_key"[4] == 'k' && "old_sig"[4] == 's' && "new_sig"[4] == 's';
  }

  lemma KeysAreApart(body: Record, a: Text, b: Text)
    ensures At(WithSignatures(body, a, b), "old_key") == At(body, "old_key")
    ensures At(WithSignatures(body, a, b), "new_key") == At(body, "new_key")
  {
    KeyNames();
    SignaturesAreApart(body, a, b, "old_key");
    SignaturesAreApart(body, a, b, "new_key");
  }

  lemma CoSignedSlots(body: Record, oldKey: Key, newKey: Key, preimage: seq<Utf8Text.Byte>, m: Record)
    requires Preimage(Pick(body, MIGRATION_BODY)) == Some(preimage)
    requires m == WithSignatures(body, Sig(oldKey, preimage), Sig(newKey, preimage))
    requires At(body, "old_key") == Str(oldKey) && At(body, "new_key") == Str(newKey)
    ensures VerifySlot(Migration, m, ("old_sig", "old_key")) && VerifySlot(Migration, m, ("new_sig", "new_key"))
  {
    SameSignedBody(body, Sig(oldKey, preimage), Sig(newKey, preimage));
    MigrationBytes(m, body);
    SignaturesAreThere(body, Sig(oldKey, preimage), Sig(newKey, preimage));
    KeysAreApart(body, Sig(oldKey, preimage), Sig(newKey, preimage));
    BothSlots(m, oldKey, newKey, preimage);
  }

  /** What the verifier asks besides the two signatures. */
  predicate WellMade(m: Record) {
    Schema(Migration, m) && At(m, "old_key") != At(m, "new_key") &&
    (var b := At(m, "new_binding");
     b.Obj? && VerifyBinding(b.fields) && At(b.fields, "identity_key") == At(m, "new_key"))
  }

  lemma AcceptedIff(m: Record)
    ensures VerifyKeyMigration(m) == Valid <==>
            WellMade(m) && VerifySlot(Migration, m, ("old_sig", "old_key")) && VerifySlot(Migration, m, ("new_sig", "new_key"))
  {
  }

  /** A migration its two keys have signed passes the verifier exactly when the keys differ, it has the
   *  prescribed shape, and its binding is the new key's own. */
  lemma CoSignedIsAcceptedIff(body: Record, oldKey: Key, newKey: Key)
    requires CoSigned(body, oldKey, newKey).Some?
    requires At(body, "old_key") == Str(oldKey) && At(body, "new_key") == Str(newKey)
    ensures var m := CoSigned(body, oldKey, newKey).value; VerifyKeyMigration(m) == Valid <==> WellMade(m)
  {
    CoSignedSlots(body, oldKey, newKey, Preimage(Pick(body, MIGRATION_BODY)).value, CoSigned(body, oldKey, newKey).value);
    AcceptedIff(CoSigned(body, oldKey, newKey).value);
  }

  const MIGRATION_STRINGS: seq<string> := ["old_key", "new_key", "issued_utc", "retire_after_utc", "session_nonce", "timestamp_utc"]

  /** What makeKeyMigration puts together: the named strings and a binding, and nothing else. */
  predicate MigrationBodyShape(body: Record) {
    TypeIs(body, "key_migration") && BindingSchema(At(body, "new_binding")) && HasStrings(body, MIGRATION_STRINGS) && Only(body, MIGRATION_BODY)
  }

  lemma StringNames(i: nat)
    requires i < |MIGRATION_STRINGS|
    ensures var name := MIGRATION_STRINGS[i]; IsAscii(name) && name != "old_sig" && name != "new_sig"
  {
  }

  lemma OtherNames()
    ensures IsAscii("type") && "type" != "old_sig" && "type" != "new_sig"
    ensures IsAscii("new_binding") && "new_binding" != "old_sig" && "new_binding" != "new_sig"
  {
    assert |"type"| == 4 && |"new_binding"| == 11 && |"old_sig"| == 7 && |"new_sig"| == 7;
  }

  lemma ShapeStrings(body: Record, a: Text, b: Text)
    requires HasStrings(body, MIGRATION_STRINGS)
    ensures HasStrings(WithSignatures(body, a, b), MIGRATION_STRINGS + ["old_sig", "new_sig"])
  {
    var m, names := WithSignatures(body, a, b), MIGRATION_STRINGS + ["old_sig", "new_sig"];
    SignaturesAreThere(body, a, b);
    forall i | 0 <= i < |names| ensures At(m, names[i]).Str? {
      if i < |MIGRATION_STRINGS| {
        StringNames(i);
        SignaturesAreApart(body, a, b, MIGRATION_STRINGS[i]);
      }
    }
  }

  lemma IsNamed(k: Text, names: seq<string>, i: nat)
    requires i < |names| && k == Ascii(names[i])
    ensures exists n :: n in names && k == Ascii(n)
  {
    assert names[i] in names;
  }

  lemma ShapeName(body: Record, k: Text, names: seq<string>)
    requires Only(body, MIGRATION_BODY) && names == MIGRATION_BODY + ["old_sig", "new_sig"]
    requires k in Keys(body) || k == Ascii("old_sig") || k == Ascii("new_sig")
    ensures exists n :: n in names && k == Ascii(n)
  {
    if k == Ascii("old_sig") {
      IsNamed(k, names, |MIGRATION_BODY|);
    } else if k == Ascii("new_sig") {
      IsNamed(k, names, |MIGRATION_BODY| + 1);
    } else {
      var n :| n in MIGRATION_BODY && k == Ascii(n);
      var i :| 0 <= i < |MIGRATION_BODY| && MIGRATION_BODY[i] == n;
      IsNamed(k, names, i);
    }
  }

  lemma ShapeNames(body: Record, a: Text, b: Text)
    requires Only(body, MIGRATION_BODY)
    ensures Only(WithSignatures(body, a, b), MIGRATION_BODY + ["old_sig", "new_sig"])
  {
    forall k | k in Keys(WithSignatures(body, a, b)) ensures exists n :: n in MIGRATION_BODY + ["old_sig", "new_sig"] && k == Ascii(n) {
      ShapeName(body, k, MIGRATION_BODY + ["old_sig", "new_sig"]);
    }
  }

  lemma SignedNames()
    ensures MIGRATION_STRINGS + ["old_sig", "new_sig"] ==
            ["old_key", "new_key", "issued_utc", "retire_after_utc", "session_nonce", "timestamp_utc", "old_sig", "new_sig"]
  {
  }

  /** With both signatures, such a body has the prescribed shape. */
  lemma CoSignedShape(body: Record, a: Text, b: Text)
    requires MigrationBodyShape(body)
    ensures Schema(Migration, WithSignatures(body, a, b))
  {
    OtherNames();
    SignaturesAreApart(body, a, b, "type");
    SignaturesAreApart(body, a, b, "new_binding");
    ShapeStrings(body, a, b);
    SignedNames();
    ShapeNames(body, a, b);
  }

  /** What remains to be asked of it concerns its keys. */
  lemma CoSignedIsWellMade(body: Record, a: Text, b: Text)
    requires MigrationBodyShape(body) && At(body, "old_key") != At(body, "new_key")
    requires VerifyBinding(At(body, "new_binding").fields) && At(At(body, "new_binding").fields, "identity_key") == At(body, "new_key")
    ensures WellMade(WithSignatures(body, a, b))
  {
    CoSignedShape(body, a, b);
    KeysAreApart(body, a, b);
    OtherNames();
    SignaturesAreApart(body, a, b, "new_binding");
  }

  /** So an honest migration to another key, with that key's own binding, is accepted. */
  lemma HonestMigrationIsAccepted(body: Record, oldKey: Key, newKey: Key)
    requires MigrationBodyShape(body) && CoSigned(body, oldKey, newKey).Some? && oldKey != newKey
    requires At(body, "old_key") == Str(oldKey) && At(body, "new_key") == Str(newKey)
    requires VerifyBinding(At(body, "new_binding").fields) && At(At(body, "new_binding").fields, "identity_key") == Str(newKey)
    ensures VerifyKeyMigration(CoSigned(body, oldKey, newKey).value) == Valid
  {
    var preimage := Preimage(Pick(body, MIGRATION_BODY)).value;
    CoSignedIsWellMade(body, Sig(oldKey, preimage), Sig(newKey, preimage));
    CoSignedIsAcceptedIff(body, oldKey, newKey);
  }
}
