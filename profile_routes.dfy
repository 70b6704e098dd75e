/**
 * The profile route handlers: an owner-scoped table of profiles keyed by id. The
 * caller's session user id, the request body's text fields and the uploaded file are
 * inputs; the JSON reply of each handler is the `Reply` a method returns.
 */
module ProfileRoutes {
  import opened Wrappers
  import opened CustomFieldJson
  import opened ProfileSchema

  type ProfileId = nat

  /** The text fields of a request body; a key the client did not send is absent. */
  type Body = map<string, string>

  /** What the upload middleware leaves in `req.file`: a path and a secure URL, either may be empty. */
  datatype UploadedFile = UploadedFile(path: string, secureUrl: string)

  /** The `missing` report of a create request without its required fields. */
  datatype Missing = Missing(name: bool, age: bool, phone: bool, address: bool, emergencyPhone: bool)

  datatype Reply =
    | MsgReply(status: nat, msg: string)
    | MissingFields(missing: Missing)
    | WithProfile(status: nat, msg: string, id: ProfileId, profile: Profile)
    | Found(id: ProfileId, profile: Profile)

  const NotFound: Reply := MsgReply(404, "Profile not found")
  const BadCustomFields: Reply := MsgReply(400, "Invalid customFields format")

  /** The checks of a handler either reject the request or produce the record it stores. */
  datatype Outcome = Rejected(reply: Reply) | Accepted(record: Profile)

  // ---------------------------------------------------------------------------
  // Reading the request
  // ---------------------------------------------------------------------------

  /** JavaScript truthiness of `req.body[k]`: sent and not the empty string. */
  predicate Present(body: Body, k: string) {
    k in body && body[k] != ""
  }

  /** `req.body[k] || ""`. */
  function Field(body: Body, k: string): (v: string)
    ensures Present(body, k) ==> v == body[k]
    ensures !Present(body, k) ==> v == ""
  {
    if k in body then body[k] else ""
  }

  predicate HasRequired(body: Body) {
    Present(body, "name") && Present(body, "age") && Present(body, "phone")
    && Present(body, "address") && Present(body, "emergencyPhone")
  }

  function MissingFlags(body: Body): Missing {
    Missing(!Present(body, "name"), !Present(body, "age"), !Present(body, "phone"),
            !Present(body, "address"), !Present(body, "emergencyPhone"))
  }

  /** `req.body.customFields || "[]"`: the text the create handler parses. */
  function CustomFieldsText(body: Body): (t: string)
    ensures t != ""
  {
    if Present(body, "customFields") then body["customFields"] else "[]"
  }

  /** `req.file.path || req.file.secure_url`. */
  function UploadedUrl(file: UploadedFile): (url: string)
    ensures url == "" <==> file.path == "" && file.secureUrl == ""
    ensures file.path != "" ==> url == file.path
    ensures file.path == "" ==> url == file.secureUrl
  {
    if file.path != "" then file.path else file.secureUrl
  }

  /** The paths the create handler destructures from the body. */
  predicate Destructured(k: Path) {
    k == Name || k == Age || k == Gender || k == Type || k == Condition || k == Medications
    || k == Address || k == Phone || k == Message || k == BloodGroup || k == Medical
    || k == Allergies || k == EmergencyName || k == EmergencyPhone || k == Breed || k == ChipId
  }

  /**
   * The record the create handler builds before it hands it to the schema: the session's
   * user, the photo URL and each destructured field, an optional one as `x || ""`. It is
   * built after the required fields were found present, so for those `x || ""` is `x`.
   */
  function ProfileData(user: string, body: Body, photoUrl: string): (d: map<Path, string>)
    ensures forall k :: k in d <==> k == UserId || k == PhotoUrl || Destructured(k)
  {
    map k: Path | k == UserId || k == PhotoUrl || Destructured(k) ::
      if k == UserId then user else if k == PhotoUrl then photoUrl else Field(body, PathName(k))
  }

  // ---------------------------------------------------------------------------
  // What each handler decides
  // ---------------------------------------------------------------------------

  /**
   * POST `/`: the required fields, then the custom-field text, then the file, then its
   * URL, then the schema, each with its own early reply.
   */
  function CreateOutcome(user: string, body: Body, file: Option<UploadedFile>): Outcome {
    if !HasRequired(body) then Rejected(MissingFields(MissingFlags(body)))
    else match Parse(CustomFieldsText(body))
      case None => Rejected(BadCustomFields)
      case Some(cf) => PhotoOutcome(user, body, cf, file)
  }

  /** The file checks of POST `/`, once the custom fields are parsed. */
  function PhotoOutcome(user: string, body: Body, cf: seq<CustomField>, file: Option<UploadedFile>): Outcome {
    if file.None? then Rejected(MsgReply(400, "Photo is required"))
    else if UploadedUrl(file.value) == "" then Rejected(MsgReply(500, "Image upload failed"))
    else SaveOutcome(NewRecord(user, body, UploadedUrl(file.value), cf))
  }

  /** `new Profile(profileData)`. */
  function NewRecord(user: string, body: Body, photoUrl: string, cf: seq<CustomField>): Profile {
    Document(ProfileData(user, body, photoUrl), cf)
  }

  /** `save()`: a document the schema refuses is caught as a 500. */
  function SaveOutcome(doc: Profile): (o: Outcome)
    ensures o.Accepted? <==> Valid(doc)
    ensures o.Accepted? ==> o.record == doc
  {
    if Valid(doc) then Accepted(doc) else Rejected(MsgReply(500, "Server error"))
  }

  /** The owner test of `{ _id, userId }` queries. */
  predicate OwnedBy(p: Profile, user: string) {
    UserId in p.fields && p.fields[UserId] == user
  }

  predicate Owns(profiles: map<ProfileId, Profile>, user: string, id: ProfileId) {
    id in profiles && OwnedBy(profiles[id], user)
  }

  /** `{ ...req.body }` with `customFields` then replaced, as the update handler writes it. */
  function MergeAsWritten(body: Body): (u: map<string, string>)
    ensures u.Keys == body.Keys - {"customFields"}
    ensures forall k :: k in u ==> u[k] == body[k]
  {
    map k | k in body && k != "customFields" :: body[k]
  }

  /** The update the handler evidently means: the body's fields except the owner and the custom-field text. */
  function Merge(body: Body): (u: map<string, string>)
    ensures u.Keys == body.Keys - {"customFields", "userId"}
    ensures forall k :: k in u ==> u[k] == body[k]
  {
    map k | k in body && k != "customFields" && k != "userId" :: body[k]
  }

  /**
   * `findByIdAndUpdate`: each schema path the update names is cast and set, keys outside
   * the schema are dropped, and every other path keeps its value.
   */
  function ApplyUpdate(existing: Profile, updates: map<string, string>, cf: seq<CustomField>): (p: Profile)
    ensures p.customFields == cf
    ensures forall k :: PathName(k) in updates ==> k in p.fields && p.fields[k] == CastValue(k, updates[PathName(k)])
    ensures forall k :: PathName(k) !in updates ==> (k in p.fields <==> k in existing.fields)
    ensures forall k :: PathName(k) !in updates && k in existing.fields ==> p.fields[k] == existing.fields[k]
  {
    Profile(existing.fields + map k: Path | PathName(k) in updates :: CastValue(k, updates[PathName(k)]), cf)
  }

  /** The photo an update installs: a new file's path, when there is one. */
  function WithPhoto(updates: map<string, string>, file: Option<UploadedFile>): map<string, string> {
    if file.Some? && file.value.path != "" then updates["photoUrl" := file.value.path] else updates
  }

  /** The custom fields an update stores: the sent text parsed, or the existing list when none is sent. */
  function UpdatedCustomFields(existing: Profile, body: Body): Option<seq<CustomField>> {
    if Present(body, "customFields") then Parse(body["customFields"]) else Some(existing.customFields)
  }

  /** PUT `/:id` as written: the owner query, then the custom-field text, then the merge. */
  function UpdateOutcome(profiles: map<ProfileId, Profile>, user: string, id: ProfileId, body: Body,
                         file: Option<UploadedFile>): Outcome {
    if !Owns(profiles, user, id) then Rejected(NotFound)
    else match UpdatedCustomFields(profiles[id], body)
      case None => Rejected(BadCustomFields)
      case Some(cf) => Accepted(ApplyUpdate(profiles[id], WithPhoto(MergeAsWritten(body), file), cf))
  }

  /** PUT `/:id` as evidently intended: the same checks, with the merge that leaves the owner alone. */
  function IntendedUpdateOutcome(profiles: map<ProfileId, Profile>, user: string, id: ProfileId, body: Body,
                                 file: Option<UploadedFile>): Outcome {
    if !Owns(profiles, user, id) then Rejected(NotFound)
    else match UpdatedCustomFields(profiles[id], body)
      case None => Rejected(BadCustomFields)
      case Some(cf) => Accepted(ApplyUpdate(profiles[id], WithPhoto(Merge(body), file), cf))
  }

  /** The records `find({ userId })` returns. */
  function OwnedRecords(profiles: map<ProfileId, Profile>, user: string): (r: map<ProfileId, Profile>)
    ensures forall id :: id in r <==> id in profiles && OwnedBy(profiles[id], user)
    ensures forall id :: id in r ==> r[id] == profiles[id]
  {
    map id | id in profiles && OwnedBy(profiles[id], user) :: profiles[id]
  }

  /** What `deleteMany({ userId })` leaves behind. */
  function Disowned(profiles: map<ProfileId, Profile>, user: string): (r: map<ProfileId, Profile>)
    ensures forall id :: id in r <==> id in profiles && !OwnedBy(profiles[id], user)
    ensures forall id :: id in r ==> r[id] == profiles[id]
  {
    map id | id in profiles && !OwnedBy(profiles[id], user) :: profiles[id]
  }

  // ---------------------------------------------------------------------------
  // The store
  // ---------------------------------------------------------------------------

  /** The `profiles` collection, with a counter standing in for the database's fresh ids. */
  class ProfileStore {
    var profiles: map<ProfileId, Profile>
    var nextId: ProfileId

    /** Every stored id is below the counter, so the counter is always a fresh id. */
    ghost predicate Invariant()
      reads this
    {
      forall id :: id in profiles ==> id < nextId
    }

    constructor ()
      ensures Invariant() && profiles == map[] && nextId == 0
    {
      profiles := map[];
      nextId := 0;
    }

    /** POST `/`. */
    method Create(user: string, body: Body, file: Option<UploadedFile>) returns (reply: Reply)
      requires Invariant()
      modifies this
      ensures Invariant()
      ensures old(nextId) !in old(profiles)
      ensures CreateOutcome(user, body, file).Rejected? ==>
        reply == CreateOutcome(user, body, file).reply && profiles == old(profiles) && nextId == old(nextId)
      ensures CreateOutcome(user, body, file).Accepted? ==>
        var p := CreateOutcome(user, body, file).record;
        reply == WithProfile(201, "Profile created successfully", old(nextId), p)
        && profiles == old(profiles)[old(nextId) := p] && nextId == old(nextId) + 1
    {
      if !HasRequired(body) {
        return MissingFields(MissingFlags(body));
      }
      var parsed := Parse(CustomFieldsText(body));
      if parsed.None? {
        return BadCustomFields;
      }
      if file.None? {
        return MsgReply(400, "Photo is required");
      }
      var photoUrl := UploadedUrl(file.value);
      if photoUrl == "" {
        return MsgReply(500, "Image upload failed");
      }
      var doc := NewRecord(user, body, photoUrl, parsed.value);
      if !Valid(doc) {
        return MsgReply(500, "Server error");
      }
      var id := Insert(doc);
      reply := WithProfile(201, "Profile created successfully", id, doc);
    }

    /** Stores a validated document under a fresh id. */
    method Insert(doc: Profile) returns (id: ProfileId)
      requires Invariant()
      modifies this
      ensures Invariant()
      ensures id == old(nextId) && id !in old(profiles)
      ensures profiles == old(profiles)[id := doc] && nextId == old(nextId) + 1
    {
      id := nextId;
      profiles := profiles[id := doc];
      nextId := nextId + 1;
    }

    /** GET `/user`. */
    method ListByOwner(user: string) returns (r: map<ProfileId, Profile>)
      ensures forall id :: id in r <==> id in profiles && OwnedBy(profiles[id], user)
      ensures forall id :: id in r ==> r[id] == profiles[id]
    {
      r := OwnedRecords(profiles, user);
    }

    /** DELETE `/user/all`. */
    method DeleteAll(user: string) returns (reply: Reply)
      requires Invariant()
      modifies this
      ensures Invariant() && nextId == old(nextId)
      ensures profiles == Disowned(old(profiles), user)
      ensures reply == MsgReply(200, "All profiles deleted")
    {
      profiles := Disowned(profiles, user);
      reply := MsgReply(200, "All profiles deleted");
    }

    /** GET `/:id`: public, so there is no caller to check. */
    method GetById(id: ProfileId) returns (reply: Reply)
      ensures id in profiles ==> reply == Found(id, profiles[id])
      ensures id !in profiles ==> reply == NotFound
    {
      if id !in profiles {
        return NotFound;
      }
      reply := Found(id, profiles[id]);
    }

    /** PUT `/:id`. */
    method Update(user: string, id: ProfileId, body: Body, file: Option<UploadedFile>) returns (reply: Reply)
      requires Invariant()
      modifies this
      ensures Invariant() && nextId == old(nextId)
      ensures UpdateOutcome(old(profiles), user, id, body, file).Rejected? ==>
        reply == UpdateOutcome(old(profiles), user, id, body, file).reply && profiles == old(profiles)
      ensures UpdateOutcome(old(profiles), user, id, body, file).Accepted? ==>
        var p := UpdateOutcome(old(profiles), user, id, body, file).record;
        reply == WithProfile(200, "Profile updated successfully", id, p) && profiles == old(profiles)[id := p]
    {
      if !Owns(profiles, user, id) {
        return NotFound;
      }
      var existing := profiles[id];
      var updates := MergeAsWritten(body);
      var cf := UpdatedCustomFields(existing, body);
      if cf.None? {
        return BadCustomFields;
      }
      if file.Some? && file.value.path != "" {
        updates := updates["photoUrl" := file.value.path];
      }
      var updated := ApplyUpdate(existing, updates, cf.value);
      Replace(id, updated);
      reply := WithProfile(200, "Profile updated successfully", id, updated);
    }

    /** Writes an updated record back under its id. */
    method Replace(id: ProfileId, p: Profile)
      requires Invariant() && id in profiles
      modifies this
      ensures Invariant() && nextId == old(nextId)
      ensures profiles == old(profiles)[id := p]
    {
      profiles := profiles[id := p];
    }

    /** DELETE `/:id`. */
    method Delete(user: string, id: ProfileId) returns (reply: Reply)
      requires Invariant()
      modifies this
      ensures Invariant() && nextId == old(nextId)
      ensures Owns(old(profiles), user, id) ==>
        profiles == old(profiles) - {id} && reply == MsgReply(200, "Profile deleted successfully")
      ensures !Owns(old(profiles), user, id) ==> profiles == old(profiles) && reply == NotFound
    {
      if !Owns(profiles, user, id) {
        return NotFound;
      }
      profiles := profiles - {id};
      reply := MsgReply(200, "Profile deleted successfully");
    }
  }

  // ---------------------------------------------------------------------------
  // Create
  // ---------------------------------------------------------------------------

  /** A request without a required field gets the 400 report, with each flag set exactly when that field is empty. */
  lemma CreateReportsMissing(user: string, body: Body, file: Option<UploadedFile>)
    requires !Present(body, "name") || !Present(body, "age") || !Present(body, "phone")
          || !Present(body, "address") || !Present(body, "emergencyPhone")
    ensures CreateOutcome(user, body, file).Rejected?
    ensures var r := CreateOutcome(user, body, file).reply;
      r.MissingFields?
      && (r.missing.name <==> !Present(body, "name"))
      && (r.missing.age <==> !Present(body, "age"))
      && (r.missing.phone <==> !Present(body, "phone"))
      && (r.missing.address <==> !Present(body, "address"))
      && (r.missing.emergencyPhone <==> !Present(body, "emergencyPhone"))
  {
  }

  /** The required fields are checked before the custom-field text, whatever that text and the file are. */
  lemma MissingBeforeCustomFields(user: string, body: Body, file: Option<UploadedFile>, text: string)
    requires !HasRequired(body) && "customFields" !in body
    ensures CreateOutcome(user, body["customFields" := text], file) == CreateOutcome(user, body, None)
  {
    var b := body["customFields" := text];
    assert Present(b, "name") == Present(body, "name");
    assert Present(b, "age") == Present(body, "age");
    assert Present(b, "phone") == Present(body, "phone");
    assert Present(b, "address") == Present(body, "address");
    assert Present(b, "emergencyPhone") == Present(body, "emergencyPhone");
  }

  /** The custom-field text is checked before the file: malformed text without a file reports the text. */
  lemma CustomFieldsBeforePhoto(user: string, body: Body)
    requires HasRequired(body) && Parse(CustomFieldsText(body)).None?
    ensures CreateOutcome(user, body, None) == Rejected(BadCustomFields)
  {
  }

  /** Without a custom-field text the create handler parses `"[]"`, so a stored record has no custom fields. */
  lemma AbsentCustomFieldsEmpty(user: string, body: Body, file: Option<UploadedFile>)
    requires !Present(body, "customFields")
    ensures Parse(CustomFieldsText(body)) == Some([])
    ensures CreateOutcome(user, body, file).Accepted? ==> CreateOutcome(user, body, file).record.customFields == []
  {
    ParseEmptyArray();
    if CreateOutcome(user, body, file).Accepted? {
      CreatedRecord(user, body, file.value);
    }
  }

  /** A file that yields no URL is a 500, and nothing is stored. */
  lemma NoUrlNoRecord(user: string, body: Body, file: UploadedFile)
    requires HasRequired(body) && Parse(CustomFieldsText(body)).Some?
    requires file.path == "" && file.secureUrl == ""
    ensures CreateOutcome(user, body, Some(file)) == Rejected(MsgReply(500, "Image upload failed"))
  {
  }

  /**
   * The record a create builds, path by path: the owner is the session's user, the photo
   * URL is the given one, each destructured field is cast from the body (`""` when not
   * sent), and every other path is `""` whatever the body says.
   */
  lemma NewRecordField(user: string, body: Body, photoUrl: string, cf: seq<CustomField>, k: Path)
    ensures NewRecord(user, body, photoUrl, cf).customFields == cf
    ensures var p := NewRecord(user, body, photoUrl, cf);
      k in p.fields && p.fields[k] ==
        if k == UserId then user
        else if k == PhotoUrl then photoUrl
        else if Destructured(k) then CastValue(k, Field(body, PathName(k)))
        else ""
  {
    var d := ProfileData(user, body, photoUrl);
    if k == UserId || k == PhotoUrl || Destructured(k) {
      assert k in d;
    } else {
      assert k !in d && Defaulted(k);
    }
  }

  /** The required paths of a create's record are filled when the handler's inputs are. */
  lemma NewRecordFilled(user: string, body: Body, photoUrl: string, cf: seq<CustomField>)
    requires user != "" && photoUrl != "" && Trim(Field(body, "name")) != ""
    requires Field(body, "age") != "" && Field(body, "type") != "" && Field(body, "emergencyPhone") != ""
    ensures var p := NewRecord(user, body, photoUrl, cf);
      Filled(p, UserId) && Filled(p, PhotoUrl) && Filled(p, Name)
      && Filled(p, Age) && Filled(p, Type) && Filled(p, EmergencyPhone)
  {
    NewRecordField(user, body, photoUrl, cf, UserId);
    NewRecordField(user, body, photoUrl, cf, PhotoUrl);
    NewRecordField(user, body, photoUrl, cf, Name);
    NewRecordField(user, body, photoUrl, cf, Age);
    NewRecordField(user, body, photoUrl, cf, Type);
    NewRecordField(user, body, photoUrl, cf, EmergencyPhone);
    var p := NewRecord(user, body, photoUrl, cf);
    assert p.fields[Name] == Trim(Field(body, "name"));
    assert p.fields[Age] == Field(body, "age");
    assert p.fields[Type] == Field(body, "type");
    assert p.fields[EmergencyPhone] == Field(body, "emergencyPhone");
  }

  /** The enumerated paths of a create's record hold the body's values. */
  lemma NewRecordEnums(user: string, body: Body, photoUrl: string, cf: seq<CustomField>)
    requires Field(body, "gender") in Genders && Field(body, "type") in ProfileTypes
    requires Field(body, "bloodGroup") in BloodGroups
    ensures var p := NewRecord(user, body, photoUrl, cf);
      InEnum(p, Gender, Genders) && InEnum(p, Type, ProfileTypes) && InEnum(p, BloodGroup, BloodGroups)
  {
    NewRecordField(user, body, photoUrl, cf, Gender);
    NewRecordField(user, body, photoUrl, cf, Type);
    NewRecordField(user, body, photoUrl, cf, BloodGroup);
    var p := NewRecord(user, body, photoUrl, cf);
    assert p.fields[Gender] == Field(body, "gender");
    assert p.fields[Type] == Field(body, "type");
    assert p.fields[BloodGroup] == Field(body, "bloodGroup");
  }

  /** A create whose fields meet the schema passes `save()`. */
  lemma NewRecordValid(user: string, body: Body, photoUrl: string, cf: seq<CustomField>)
    requires user != "" && photoUrl != "" && Trim(Field(body, "name")) != ""
    requires Field(body, "age") != "" && Field(body, "type") != "" && Field(body, "emergencyPhone") != ""
    requires Field(body, "gender") in Genders && Field(body, "type") in ProfileTypes
    requires Field(body, "bloodGroup") in BloodGroups
    requires forall i :: 0 <= i < |cf| ==> EntryValid(cf[i])
    ensures Valid(NewRecord(user, body, photoUrl, cf))
  {
    NewRecordFilled(user, body, photoUrl, cf);
    NewRecordEnums(user, body, photoUrl, cf);
    RequiredFilled(NewRecord(user, body, photoUrl, cf));
  }

  /**
   * The stored record of a successful create: the session's user owns it, its photo URL
   * is the file's path or else its secure URL, its name is the body's name trimmed, and
   * its custom fields are the parsed text.
   */
  lemma CreatedRecord(user: string, body: Body, file: UploadedFile)
    requires CreateOutcome(user, body, Some(file)).Accepted?
    ensures var p := CreateOutcome(user, body, Some(file)).record;
      && p == NewRecord(user, body, UploadedUrl(file), Parse(CustomFieldsText(body)).value)
      && p.fields[UserId] == user
      && p.fields[PhotoUrl] == (if file.path != "" then file.path else file.secureUrl)
      && p.fields[Name] == Trim(body["name"])
      && p.customFields == Parse(CustomFieldsText(body)).value
  {
    var url, cf := UploadedUrl(file), Parse(CustomFieldsText(body)).value;
    NewRecordField(user, body, url, cf, UserId);
    NewRecordField(user, body, url, cf, PhotoUrl);
    NewRecordField(user, body, url, cf, Name);
  }

  /** The converse: a create that passes every check stores the record it built. */
  lemma CreateAccepted(user: string, body: Body, file: UploadedFile, cf: seq<CustomField>)
    requires HasRequired(body) && Parse(CustomFieldsText(body)) == Some(cf)
    requires UploadedUrl(file) != ""
    requires Valid(NewRecord(user, body, UploadedUrl(file), cf))
    ensures CreateOutcome(user, body, Some(file)) == Accepted(NewRecord(user, body, UploadedUrl(file), cf))
  {
  }

  /** A path the handler does not destructure is stored as `""`, whatever the body holds under its key. */
  lemma CreateDropsUnread(user: string, body: Body, file: Option<UploadedFile>, k: Path)
    requires CreateOutcome(user, body, file).Accepted?
    requires k != UserId && k != PhotoUrl && !Destructured(k)
    ensures k in CreateOutcome(user, body, file).record.fields
    ensures CreateOutcome(user, body, file).record.fields[k] == ""
  {
    CreatedRecord(user, body, file.value);
    NewRecordField(user, body, UploadedUrl(file.value), Parse(CustomFieldsText(body)).value, k);
  }

  /** The session's user owns the stored record: no body field can choose the owner. */
  lemma CreateOwner(user: string, body: Body, file: Option<UploadedFile>)
    requires CreateOutcome(user, body, file).Accepted?
    ensures OwnedBy(CreateOutcome(user, body, file).record, user)
  {
  }

  /** A new document built from a body without `type` leaves that required path empty, so `save()` refuses it. */
  lemma TypeUnsetRefused(user: string, body: Body, photoUrl: string, cf: seq<CustomField>)
    requires !Present(body, "type")
    ensures !Valid(NewRecord(user, body, photoUrl, cf))
  {
    NewRecordField(user, body, photoUrl, cf, Type);
    assert PathName(Type) == "type" && Field(body, "type") == "";
    assert !Filled(NewRecord(user, body, photoUrl, cf), Type) && Required(Type);
  }

  /** A create without a `type` passes every check of the handler and still fails at the schema. */
  lemma CreateWithoutType(user: string, body: Body, file: Option<UploadedFile>)
    requires HasRequired(body) && !Present(body, "type")
    ensures CreateOutcome(user, body, file).Rejected?
  {
    match Parse(CustomFieldsText(body))
    case None =>
    case Some(cf) =>
      if file.Some? && UploadedUrl(file.value) != "" {
        var url := UploadedUrl(file.value);
        TypeUnsetRefused(user, body, url, cf);
        assert PhotoOutcome(user, body, cf, file) == SaveOutcome(NewRecord(user, body, url, cf));
      }
  }

  // ---------------------------------------------------------------------------
  // List, get, delete
  // ---------------------------------------------------------------------------

  /** The caller's records and what delete-all leaves behind split the table. */
  lemma OwnedSplit(profiles: map<ProfileId, Profile>, user: string)
    ensures OwnedRecords(profiles, user).Keys !! Disowned(profiles, user).Keys
    ensures OwnedRecords(profiles, user).Keys + Disowned(profiles, user).Keys == profiles.Keys
  {
  }

  /** Delete-all leaves nothing of the caller's, keeps every other owner's records, and repeating it changes nothing. */
  lemma DeleteAllProperties(profiles: map<ProfileId, Profile>, user: string, other: string)
    requires other != user
    ensures OwnedRecords(Disowned(profiles, user), user) == map[]
    ensures OwnedRecords(Disowned(profiles, user), other) == OwnedRecords(profiles, other)
    ensures Disowned(Disowned(profiles, user), user) == Disowned(profiles, user)
  {
    var d := Disowned(profiles, user);
    assert OwnedRecords(d, user).Keys == {};
  }

  // ---------------------------------------------------------------------------
  // Update
  // ---------------------------------------------------------------------------

  /** A record that is missing and a record owned by someone else get the same 404. */
  lemma UpdateNotFound(profiles: map<ProfileId, Profile>, user: string, id: ProfileId, body: Body,
                       file: Option<UploadedFile>)
    requires !Owns(profiles, user, id)
    ensures UpdateOutcome(profiles, user, id, body, file) == Rejected(NotFound)
    ensures UpdateOutcome(profiles, user, id, body, file) == UpdateOutcome(profiles - {id}, user, id, body, file)
  {
  }

  /** Only `photoUrl` and `userId` are named so, and no path is named `customFields`. */
  lemma PathNameFacts(k: Path)
    ensures PathName(k) != "customFields"
    ensures PathName(k) == "photoUrl" ==> k == PhotoUrl
    ensures PathName(k) == "userId" ==> k == UserId
  {
    match k {
      case UserId =>
      case Name =>
      case Age =>
      case Gender =>
      case Type =>
      case PhotoUrl =>
      case Address =>
      case City =>
      case State =>
      case Pincode =>
      case Phone =>
      case Email =>
      case BloodGroup =>
      case Condition =>
      case Medications =>
      case Allergies =>
      case Disabilities =>
      case SpecialNeeds =>
      case Medical =>
      case EmergencyName =>
      case EmergencyRelation =>
      case EmergencyPhone =>
      case EmergencyPhone2 =>
      case Language =>
      case CommunicationNeeds =>
      case Message =>
      case Species =>
      case Breed =>
      case ChipId =>
      case VetName =>
      case VetPhone =>
    }
  }

  /**
   * A path of the record an update writes: a schema path the body names is overwritten
   * with the body's value, `userId` included, and a path the body does not name keeps
   * its stored value; `photoUrl` is `UpdatedPhoto`'s.
   */
  lemma UpdatedField(was: Profile, body: Body, file: Option<UploadedFile>, cf: seq<CustomField>, k: Path)
    requires k != PhotoUrl
    ensures var p := ApplyUpdate(was, WithPhoto(MergeAsWritten(body), file), cf);
      && (PathName(k) in body ==> k in p.fields && p.fields[k] == CastValue(k, body[PathName(k)]))
      && (PathName(k) !in body && k in was.fields ==> k in p.fields && p.fields[k] == was.fields[k])
  {
    PathNameFacts(k);
    var u := WithPhoto(MergeAsWritten(body), file);
    assert PathName(k) in u <==> PathName(k) in body;
    assert PathName(k) in u ==> u[PathName(k)] == body[PathName(k)];
  }

  /**
   * The photo URL an update writes: a new file's path when there is one; otherwise the
   * body's `photoUrl` if it names one, and else the stored URL.
   */
  lemma UpdatedPhoto(was: Profile, body: Body, file: Option<UploadedFile>, cf: seq<CustomField>)
    ensures var p := ApplyUpdate(was, WithPhoto(MergeAsWritten(body), file), cf);
      && (file.Some? && file.value.path != "" ==> PhotoUrl in p.fields && p.fields[PhotoUrl] == file.value.path)
      && (!(file.Some? && file.value.path != "") && "photoUrl" in body ==>
            PhotoUrl in p.fields && p.fields[PhotoUrl] == body["photoUrl"])
      && (!(file.Some? && file.value.path != "") && "photoUrl" !in body && PhotoUrl in was.fields ==>
            PhotoUrl in p.fields && p.fields[PhotoUrl] == was.fields[PhotoUrl])
  {
    assert PathName(PhotoUrl) == "photoUrl";
  }

  /**
   * A successful update was of the caller's record, writes the merged record of
   * `UpdatedField` and `UpdatedPhoto`, keeps the custom fields unless new ones are sent,
   * and keeps the owner unless the body names a `userId`, which then becomes the owner.
   */
  lemma UpdatedRecord(profiles: map<ProfileId, Profile>, user: string, id: ProfileId, body: Body,
                      file: Option<UploadedFile>)
    requires UpdateOutcome(profiles, user, id, body, file).Accepted?
    ensures Owns(profiles, user, id)
    ensures var p := UpdateOutcome(profiles, user, id, body, file).record;
      && p == ApplyUpdate(profiles[id], WithPhoto(MergeAsWritten(body), file), p.customFields)
      && ("userId" !in body ==> OwnedBy(p, user))
      && ("userId" in body ==> UserId in p.fields && p.fields[UserId] == body["userId"])
      && (!Present(body, "customFields") ==> p.customFields == profiles[id].customFields)
      && (Present(body, "customFields") ==> Some(p.customFields) == Parse(body["customFields"]))
  {
    var cf := UpdatedCustomFields(profiles[id], body).value;
    UpdatedField(profiles[id], body, file, cf, UserId);
    assert PathName(UserId) == "userId";
  }

  /** The update as written hands the caller's record to whichever account the body's `userId` names. */
  lemma AsWrittenReassignsOwner(profiles: map<ProfileId, Profile>, user: string, other: string, id: ProfileId)
    requires Owns(profiles, user, id) && other != user
    ensures var o := UpdateOutcome(profiles, user, id, map["userId" := other], None);
      o.Accepted? && OwnedBy(o.record, other) && !OwnedBy(o.record, user)
  {
    var body := map["userId" := other];
    assert !Present(body, "customFields");
    UpdatedRecord(profiles, user, id, body, None);
  }

  /** The merge that drops `userId` never touches the owner. */
  lemma UpdateKeepsOwner(existing: Profile, updates: map<string, string>, cf: seq<CustomField>)
    requires "userId" !in updates
    ensures ApplyUpdate(existing, updates, cf).fields.Keys >= existing.fields.Keys
    ensures UserId in existing.fields ==> ApplyUpdate(existing, updates, cf).fields[UserId] == existing.fields[UserId]
  {
    assert PathName(UserId) !in updates;
  }

  /** With the intended merge, an accepted update keeps the record with the caller whatever the body says. */
  lemma IntendedUpdateKeepsOwner(profiles: map<ProfileId, Profile>, user: string, id: ProfileId, body: Body,
                                 file: Option<UploadedFile>)
    requires IntendedUpdateOutcome(profiles, user, id, body, file).Accepted?
    ensures Owns(profiles, user, id)
    ensures var p := IntendedUpdateOutcome(profiles, user, id, body, file).record;
      OwnedBy(p, user) && p.fields.Keys >= profiles[id].fields.Keys
  {
    var cf := UpdatedCustomFields(profiles[id], body).value;
    UpdateKeepsOwner(profiles[id], WithPhoto(Merge(body), file), cf);
  }
}
