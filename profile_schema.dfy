/**
 * The profile schema: which string paths a stored profile has, which of them are
 * required, which take a default, the three enumerations, the `name` trim setter and
 * the rule for custom-field entries. A Mongoose document is modelled as a map from
 * path to string (a path absent from the map is unset) plus the custom-field list.
 */
module ProfileSchema {
  import opened CustomFieldJson

  /** The string paths of the schema, in its order. */
  datatype Path =
    | UserId | Name | Age | Gender | Type | PhotoUrl
    | Address | City | State | Pincode | Phone | Email
    | BloodGroup | Condition | Medications | Allergies | Disabilities | SpecialNeeds | Medical
    | EmergencyName | EmergencyRelation | EmergencyPhone | EmergencyPhone2
    | Language | CommunicationNeeds | Message
    | Species | Breed | ChipId | VetName | VetPhone

  /** The key of a path in a request body and in the stored document. */
  function PathName(p: Path): string {
    match p
    case UserId => "userId"
    case Name => "name"
    case Age => "age"
    case Gender => "gender"
    case Type => "type"
    case PhotoUrl => "photoUrl"
    case Address => "address"
    case City => "city"
    case State => "state"
    case Pincode => "pincode"
    case Phone => "phone"
    case Email => "email"
    case BloodGroup => "bloodGroup"
    case Condition => "condition"
    case Medications => "medications"
    case Allergies => "allergies"
    case Disabilities => "disabilities"
    case SpecialNeeds => "specialNeeds"
    case Medical => "medical"
    case EmergencyName => "emergencyName"
    case EmergencyRelation => "emergencyRelation"
    case EmergencyPhone => "emergencyPhone"
    case EmergencyPhone2 => "emergencyPhone2"
    case Language => "language"
    case CommunicationNeeds => "communicationNeeds"
    case Message => "message"
    case Species => "species"
    case Breed => "breed"
    case ChipId => "chipId"
    case VetName => "vetName"
    case VetPhone => "vetPhone"
  }

  /** A stored profile: the paths that are set, and the custom-field list. */
  datatype Profile = Profile(fields: map<Path, string>, customFields: seq<CustomField>)

  /** The paths with `required: true`; none of them has a default. */
  predicate Required(p: Path) {
    p == UserId || p == Name || p == Age || p == Type || p == PhotoUrl || p == EmergencyPhone
  }

  /** Every other path has `default: ""`. */
  predicate Defaulted(p: Path) {
    !Required(p)
  }

  const Genders: set<string> := {"Male", "Female", "Other", "Prefer not to say", ""}

  const ProfileTypes: set<string> := {
    "Senior", "Child", "Special Needs", "Pet", "Self", "Family Member", "Friend",
    "Colleague", "Caregiver", "Guardian", "Parent", "Other", ""
  }

  const BloodGroups: set<string> := {"A+", "A-", "B+", "B-", "AB+", "AB-", "O+", "O-", ""}

  // ---------------------------------------------------------------------------
  // The `trim: true` setter of `name` (String.prototype.trim)
  // ---------------------------------------------------------------------------

  /** The characters `trim` removes: ECMAScript WhiteSpace and LineTerminator. */
  predicate IsJsWhitespace(c: char) {
    c == '\t' || c == '\n' || c == '\U{000B}' || c == '\U{000C}' || c == '\r' || c == ' '
    || c == '\U{00A0}' || c == '\U{1680}' || ('\U{2000}' <= c <= '\U{200A}')
    || c == '\U{2028}' || c == '\U{2029}' || c == '\U{202F}' || c == '\U{205F}'
    || c == '\U{3000}' || c == '\U{FEFF}'
  }

  /** Drops the leading whitespace: the result is a suffix and starts with a non-space. */
  function TrimStart(s: string): (r: string)
    ensures |r| <= |s| && r == s[|s| - |r|..]
    ensures forall i :: 0 <= i < |s| - |r| ==> IsJsWhitespace(s[i])
    ensures r != [] ==> !IsJsWhitespace(r[0])
  {
    if s != [] && IsJsWhitespace(s[0]) then TrimStart(s[1..]) else s
  }

  /** Drops the trailing whitespace: the result is a prefix and ends with a non-space. */
  function TrimEnd(s: string): (r: string)
    ensures |r| <= |s| && r == s[..|r|]
    ensures forall i :: |r| <= i < |s| ==> IsJsWhitespace(s[i])
    ensures r != [] ==> !IsJsWhitespace(r[|r| - 1])
  {
    if s != [] && IsJsWhitespace(s[|s| - 1]) then TrimEnd(s[..|s| - 1]) else s
  }

  /** `String.prototype.trim`: both ends shed their whitespace. */
  function Trim(s: string): (r: string)
    ensures |r| <= |s|
    ensures r != [] ==> !IsJsWhitespace(r[0]) && !IsJsWhitespace(r[|r| - 1])
  {
    var t := TrimStart(s);
    var r := TrimEnd(t);
    assert r != [] ==> r[0] == t[0];
    r
  }

  /** The number of whitespace characters `s` starts with. */
  function LeadingSpace(s: string): (n: nat)
    ensures n <= |s|
    ensures forall k :: 0 <= k < n ==> IsJsWhitespace(s[k])
    ensures n < |s| ==> !IsJsWhitespace(s[n])
  {
    if s != [] && IsJsWhitespace(s[0]) then 1 + LeadingSpace(s[1..]) else 0
  }

  lemma {:induction false} TrimStartDropsLeading(s: string)
    ensures TrimStart(s) == s[LeadingSpace(s)..]
  {
    if s != [] && IsJsWhitespace(s[0]) {
      TrimStartDropsLeading(s[1..]);
    }
  }

  /** Whitespace at the end of a suffix is whitespace at the end of the whole string. */
  lemma SuffixSpace(s: string, i: nat, n: nat)
    requires i <= |s| && i + n <= |s|
    requires forall k :: n <= k < |s| - i ==> IsJsWhitespace(s[i..][k])
    ensures forall k :: i + n <= k < |s| ==> IsJsWhitespace(s[k])
  {
    forall k | i + n <= k < |s|
      ensures IsJsWhitespace(s[k])
    {
      assert s[k] == s[i..][k - i];
    }
  }

  /**
   * What `trim` keeps: the slice of `s` after its leading whitespace, with only
   * whitespace after it.
   */
  lemma TrimSlice(s: string)
    ensures var i, r := LeadingSpace(s), Trim(s);
      i + |r| <= |s| && r == s[i..i + |r|]
      && forall k :: i + |r| <= k < |s| ==> IsJsWhitespace(s[k])
  {
    var i, t := LeadingSpace(s), TrimStart(s);
    TrimStartDropsLeading(s);
    var r := TrimEnd(t);
    assert Trim(s) == r;
    assert r == s[i..][..|r|];
    SuffixSpace(s, i, |r|);
  }

  /** Trimming leaves nothing exactly when every character is whitespace. */
  lemma TrimEmptyIff(s: string)
    ensures Trim(s) == [] <==> forall i :: 0 <= i < |s| ==> IsJsWhitespace(s[i])
  {
    var t := TrimStart(s);
    var r := TrimEnd(t);
    assert t != [] ==> |r| > 0;
  }

  /** Trimming a trimmed string changes nothing, so a stored name is a fixed point of the setter. */
  lemma TrimIdempotent(s: string)
    ensures Trim(Trim(s)) == Trim(s)
  {
    var t := Trim(s);
    if t != [] {
      assert TrimStart(t) == t;
      assert TrimEnd(t) == t;
    }
  }

  /** The value a path stores for a given string: the setter of `name` trims it. */
  function CastValue(path: Path, v: string): (r: string)
    ensures path == Name ==> r == Trim(v)
    ensures path != Name ==> r == v
  {
    if path == Name then Trim(v) else v
  }

  // ---------------------------------------------------------------------------
  // Documents
  // ---------------------------------------------------------------------------

  /**
   * `new Profile(values)`: a given path is cast, a missing path with a default takes
   * `""`, and a missing required path stays unset.
   */
  function Document(values: map<Path, string>, cf: seq<CustomField>): (p: Profile)
    ensures forall k :: k in values ==> k in p.fields && p.fields[k] == CastValue(k, values[k])
    ensures forall k :: Defaulted(k) && k !in values ==> k in p.fields && p.fields[k] == ""
    ensures forall k :: Required(k) && k !in values ==> k !in p.fields
    ensures p.customFields == cf
  {
    Profile(map k: Path | k in values || Defaulted(k) ::
              if k in values then CastValue(k, values[k]) else "", cf)
  }

  /** A string path passes `required` when it is set to a non-empty string. */
  predicate Filled(p: Profile, path: Path) {
    path in p.fields && p.fields[path] != ""
  }

  /** An enumerated path passes when it is unset or holds one of the listed values. */
  predicate InEnum(p: Profile, path: Path, allowed: set<string>) {
    path in p.fields ==> p.fields[path] in allowed
  }

  predicate EntryValid(f: CustomField) {
    f.labelText != "" && f.valueText != ""
  }

  /** What `save()` checks before it stores a document. */
  predicate Valid(p: Profile) {
    (forall k :: Required(k) ==> Filled(p, k))
    && InEnum(p, Gender, Genders)
    && InEnum(p, Type, ProfileTypes)
    && InEnum(p, BloodGroup, BloodGroups)
    && (forall i :: 0 <= i < |p.customFields| ==> EntryValid(p.customFields[i]))
  }

  // ---------------------------------------------------------------------------
  // Properties of the schema
  // ---------------------------------------------------------------------------

  /** A valid profile carries every required path, non-empty. */
  lemma ValidRequired(p: Profile)
    requires Valid(p)
    ensures Filled(p, UserId) && Filled(p, Name) && Filled(p, Age)
    ensures Filled(p, Type) && Filled(p, PhotoUrl) && Filled(p, EmergencyPhone)
  {
    assert Required(UserId) && Required(Name) && Required(Age);
    assert Required(Type) && Required(PhotoUrl) && Required(EmergencyPhone);
  }

  /** Conversely, filling the six required paths meets the `required` part of `Valid`. */
  lemma RequiredFilled(p: Profile)
    requires Filled(p, UserId) && Filled(p, Name) && Filled(p, Age)
    requires Filled(p, Type) && Filled(p, PhotoUrl) && Filled(p, EmergencyPhone)
    ensures forall k :: Required(k) ==> Filled(p, k)
  {
  }

  /** `""` is listed for `type` but can never be saved, because `type` is also required. */
  lemma ValidTypeIsNamed(p: Profile)
    requires Valid(p)
    ensures Type in p.fields && p.fields[Type] in ProfileTypes - {""}
  {
    ValidRequired(p);
  }

  /**
   * `save()` of `new Profile(values)` in terms of the values given: every required path
   * is given and non-empty once cast, each given enumerated value is listed, and every
   * custom-field entry has a label and a value.
   */
  lemma ValidDocument(values: map<Path, string>, cf: seq<CustomField>)
    ensures Valid(Document(values, cf)) <==>
      && (forall k :: Required(k) ==> k in values && CastValue(k, values[k]) != "")
      && (Gender in values ==> values[Gender] in Genders)
      && (Type in values ==> values[Type] in ProfileTypes)
      && (BloodGroup in values ==> values[BloodGroup] in BloodGroups)
      && (forall i :: 0 <= i < |cf| ==> EntryValid(cf[i]))
  {
    DocumentRequired(values, cf);
    DocumentEnums(values, cf);
  }

  /** The required half of `ValidDocument`, path by path. */
  lemma DocumentRequired(values: map<Path, string>, cf: seq<CustomField>)
    ensures var p := Document(values, cf);
      forall k :: Required(k) ==> (Filled(p, k) <==> k in values && CastValue(k, values[k]) != "")
  {
  }

  /** The enumerated half of `ValidDocument`: a default `""` is listed, an unset `type` passes. */
  lemma DocumentEnums(values: map<Path, string>, cf: seq<CustomField>)
    ensures var p := Document(values, cf);
      && (InEnum(p, Gender, Genders) <==> (Gender in values ==> values[Gender] in Genders))
      && (InEnum(p, Type, ProfileTypes) <==> (Type in values ==> values[Type] in ProfileTypes))
      && (InEnum(p, BloodGroup, BloodGroups) <==> (BloodGroup in values ==> values[BloodGroup] in BloodGroups))
  {
    var p := Document(values, cf);
    assert Defaulted(Gender) && Defaulted(BloodGroup) && Required(Type);
    assert Gender !in values ==> p.fields[Gender] == "";
    assert BloodGroup !in values ==> p.fields[BloodGroup] == "";
    assert Type !in values ==> Type !in p.fields;
  }

  /** `gender` and `bloodGroup` default to `""`, which both enumerations admit. */
  lemma DefaultsAdmitted(values: map<Path, string>, cf: seq<CustomField>)
    requires Gender !in values && BloodGroup !in values
    ensures Document(values, cf).fields[Gender] == "" && Document(values, cf).fields[BloodGroup] == ""
    ensures InEnum(Document(values, cf), Gender, Genders)
    ensures InEnum(Document(values, cf), BloodGroup, BloodGroups)
  {
    assert Defaulted(Gender) && Defaulted(BloodGroup);
  }

  /** A document's name, when set, is already trimmed. */
  lemma DocumentNameTrimmed(values: map<Path, string>, cf: seq<CustomField>)
    ensures var p := Document(values, cf); Name in p.fields ==> Trim(p.fields[Name]) == p.fields[Name]
  {
    if Name in values {
      TrimIdempotent(values[Name]);
    }
  }

  /** A name made only of whitespace passes a JavaScript truthiness test but not `required`. */
  lemma BlankNameInvalid(values: map<Path, string>, cf: seq<CustomField>)
    requires Name in values && values[Name] != []
    requires forall i :: 0 <= i < |values[Name]| ==> IsJsWhitespace(values[Name][i])
    ensures !Valid(Document(values, cf))
  {
    var p := Document(values, cf);
    TrimEmptyIff(values[Name]);
    assert p.fields[Name] == "";
    assert Required(Name) && !Filled(p, Name);
  }
}
