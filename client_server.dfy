/**
 * What the create handler makes of the request the create-profile form sends: the
 * custom fields arrive intact, the form's checks miss two of the handler's required
 * fields, and a form that meets the schema is stored with its address line but
 * without the fields the handler does not read.
 */
module ClientServer {
  import opened Wrappers
  import opened CustomFieldJson
  import opened ProfileSchema
  import R = ProfileRoutes
  import F = CreateProfileForm

  lemma StringifyNotEmpty(fs: seq<CustomField>)
    ensures Stringify(fs) != ""
  {
    var ts := ListTokens(fs);
    assert Render(ts) == TokenText(ts[0]) + Render(ts[1..]);
  }

  /** The list the form sends is the list the handler parses, entry for entry and in order. */
  lemma SubmittedCustomFieldsParse(f: F.Form)
    requires F.Submit(f).Send?
    ensures Parse(R.CustomFieldsText(F.Submit(f).body)) == Some(f.customFields)
  {
    var body := F.Submit(f).body;
    assert body["customFields"] == Stringify(f.customFields);
    StringifyNotEmpty(f.customFields);
    ParseStringify(f.customFields);
  }

  /**
   * The form never checks `phone` or the address, so a form that passes every check of
   * its own still gets the handler's 400 when the phone is empty or all four address
   * parts are.
   */
  lemma ClientChecksMissPhoneAndAddress(f: F.Form, user: string, file: Option<R.UploadedFile>)
    requires F.Submit(f).Send?
    requires f.phone == "" || (f.address == "" && f.city == "" && f.state == "" && f.pincode == "")
    ensures R.CreateOutcome(user, F.Submit(f).body, file)
         == R.Rejected(R.MissingFields(R.Missing(false, false, f.phone == "",
              f.address == "" && f.city == "" && f.state == "" && f.pincode == "", false)))
  {
    var body := F.Submit(f).body;
    F.FullAddressProperties(f.address, f.city, f.state, f.pincode);
    assert body["name"] == f.name && body["age"] == f.age && body["phone"] == f.phone;
    assert body["address"] == F.FullAddress(f.address, f.city, f.state, f.pincode);
    assert body["emergencyPhone"] == f.emergencyPhone;
  }

  /** How the handler reads the form's body: every key it looks up is one the form sends. */
  lemma SubmittedFields(f: F.Form)
    requires F.Submit(f).Send?
    ensures var body := F.Submit(f).body;
      && R.Field(body, "name") == f.name && R.Field(body, "age") == f.age
      && R.Field(body, "gender") == f.gender && R.Field(body, "type") == f.profileType
      && R.Field(body, "address") == F.FullAddress(f.address, f.city, f.state, f.pincode)
      && R.Field(body, "phone") == f.phone && R.Field(body, "bloodGroup") == f.bloodGroup
      && R.Field(body, "emergencyPhone") == f.emergencyPhone
      && R.HasRequired(body) == (f.phone != "" && F.FullAddress(f.address, f.city, f.state, f.pincode) != "")
  {
  }

  /**
   * A form that passes its checks and meets the schema is stored, with the custom fields
   * as entered.
   */
  lemma SubmittedFormStored(f: F.Form, user: string, file: R.UploadedFile)
    requires F.Submit(f).Send?
    requires f.phone != "" && F.FullAddress(f.address, f.city, f.state, f.pincode) != ""
    requires file.path != "" || file.secureUrl != ""
    requires user != "" && Trim(f.name) != ""
    requires f.gender in Genders && f.profileType in ProfileTypes && f.bloodGroup in BloodGroups
    requires forall i :: 0 <= i < |f.customFields| ==> EntryValid(f.customFields[i])
    ensures R.CreateOutcome(user, F.Submit(f).body, Some(file))
         == R.Accepted(R.NewRecord(user, F.Submit(f).body, R.UploadedUrl(file), f.customFields))
  {
    var body := F.Submit(f).body;
    var url := R.UploadedUrl(file);
    SubmittedFields(f);
    SubmittedCustomFieldsParse(f);
    R.NewRecordValid(user, body, url, f.customFields);
    R.CreateAccepted(user, body, file, f.customFields);
  }

  /** The record built from a submitted form holds the form's address line under `address`. */
  lemma SubmittedAddress(f: F.Form, user: string, photoUrl: string)
    requires F.Submit(f).Send?
    ensures var p := R.NewRecord(user, F.Submit(f).body, photoUrl, f.customFields);
      Address in p.fields && p.fields[Address] == F.FullAddress(f.address, f.city, f.state, f.pincode)
  {
    var body := F.Submit(f).body;
    assert "address" in F.SentKeys && PathName(Address) == "address";
    assert R.Field(body, "address") == body["address"] == F.FullAddress(f.address, f.city, f.state, f.pincode);
    R.NewRecordField(user, body, photoUrl, f.customFields, Address);
  }

  /**
   * The form sends city, state, pincode, email, disabilities, special needs, the second
   * emergency contact, language, communication needs and the pet's species and vet, but
   * the create handler does not read them: each is stored as `""`.
   */
  lemma SubmittedFieldsDropped(f: F.Form, user: string, file: Option<R.UploadedFile>, k: Path)
    requires F.Submit(f).Send? && R.CreateOutcome(user, F.Submit(f).body, file).Accepted?
    requires k != UserId && k != PhotoUrl && !R.Destructured(k)
    ensures PathName(k) in F.Submit(f).body
    ensures k in R.CreateOutcome(user, F.Submit(f).body, file).record.fields
    ensures R.CreateOutcome(user, F.Submit(f).body, file).record.fields[k] == ""
  {
    R.CreateDropsUnread(user, F.Submit(f).body, file, k);
    assert F.Submit(f).body.Keys == F.SentKeys;
    match k {
      case City => assert "city" in F.SentKeys;
      case State => assert "state" in F.SentKeys;
      case Pincode => assert "pincode" in F.SentKeys;
      case Email => assert "email" in F.SentKeys;
      case Disabilities => assert "disabilities" in F.SentKeys;
      case SpecialNeeds => assert "specialNeeds" in F.SentKeys;
      case EmergencyRelation => assert "emergencyRelation" in F.SentKeys;
      case EmergencyPhone2 => assert "emergencyPhone2" in F.SentKeys;
      case Language => assert "language" in F.SentKeys;
      case CommunicationNeeds => assert "communicationNeeds" in F.SentKeys;
      case Species => assert "species" in F.SentKeys;
      case VetName => assert "vetName" in F.SentKeys;
      case VetPhone => assert "vetPhone" in F.SentKeys;
      case _ =>
    }
  }
}
