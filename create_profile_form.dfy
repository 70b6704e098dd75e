/**
 * The create-profile form: editing the list of custom fields, the checks the form
 * makes before it sends anything, the full address it builds, and the fields it sends.
 */
module CreateProfileForm {
  import opened Wrappers
  import opened CustomFieldJson

  // ---------------------------------------------------------------------------
  // The custom-field list
  // ---------------------------------------------------------------------------

  /** One `{ label, value }` object of the form's list; the inputs edit it in place. */
  class FieldEntry {
    var labelText: string
    var valueText: string

    constructor (l: string, v: string)
      ensures labelText == l && valueText == v
    {
      labelText := l;
      valueText := v;
    }
  }

  /** The keys an input of the list edits. */
  datatype FieldKey = LabelKey | ValueKey

  /** The label/value pairs the list's objects hold right now. */
  function Snapshot(entries: seq<FieldEntry>): (s: seq<CustomField>)
    reads set i | 0 <= i < |entries| :: entries[i]
    ensures |s| == |entries|
    ensures forall i :: 0 <= i < |entries| ==> s[i] == CustomField(entries[i].labelText, entries[i].valueText)
  {
    if entries == [] then []
    else [CustomField(entries[0].labelText, entries[0].valueText)] + Snapshot(entries[1..])
  }

  /** `handleAddField`: a new list with one fresh empty entry at the end. */
  method AddField(entries: seq<FieldEntry>) returns (updated: seq<FieldEntry>)
    ensures |updated| == |entries| + 1 && updated[..|entries|] == entries
    ensures fresh(updated[|entries|])
    ensures Snapshot(updated) == Snapshot(entries) + [CustomField("", "")]
    ensures Distinct(entries) ==> Distinct(updated)
  {
    var e := new FieldEntry("", "");
    updated := entries + [e];
    assert Snapshot(updated)[|entries|] == CustomField("", "");
  }

  /**
   * `handleRemoveField` (`filter((_, i) => i !== index)`): keeps every position but
   * `index`, in order; an index outside the list keeps everything.
   */
  function RemoveField<T>(s: seq<T>, index: int): (r: seq<T>)
    ensures 0 <= index < |s| ==> r == s[..index] + s[index + 1..]
    ensures !(0 <= index < |s|) ==> r == s
    decreases |s|
  {
    if s == [] then []
    else
      var rest := RemoveField(s[1..], index - 1);
      assert 0 < index < |s| ==> [s[0]] + s[1..][..index - 1] == s[..index] && s[1..][index..] == s[index + 1..];
      (if index == 0 then [] else [s[0]]) + rest
  }

  /** Removing an entry removes its pair, and only that one, from what the list holds. */
  lemma RemoveFieldSnapshot(entries: seq<FieldEntry>, index: int)
    ensures Snapshot(RemoveField(entries, index)) == RemoveField(Snapshot(entries), index)
  {
    var r := RemoveField(entries, index);
    var s := Snapshot(entries);
    if 0 <= index < |entries| {
      assert Snapshot(r) == s[..index] + s[index + 1..] by {
        forall i | 0 <= i < |r| ensures Snapshot(r)[i] == (s[..index] + s[index + 1..])[i] {
          if i < index {
            assert r[i] == entries[i];
          } else {
            assert r[i] == entries[i + 1];
          }
        }
      }
    }
  }

  /** The lists the form builds never hold an object twice: removing keeps the others distinct. */
  lemma RemoveFieldDistinct(entries: seq<FieldEntry>, index: int)
    requires Distinct(entries)
    ensures Distinct(RemoveField(entries, index))
  {
  }

  /** A pair with one key changed. */
  function Changed(f: CustomField, key: FieldKey, val: string): CustomField {
    match key
    case LabelKey => f.(labelText := val)
    case ValueKey => f.(valueText := val)
  }

  /** No object occurs twice in the list. */
  predicate Distinct(entries: seq<FieldEntry>) {
    forall i, j :: 0 <= i < j < |entries| ==> entries[i] != entries[j]
  }

  /**
   * `handleChangeField`: the new list holds the same objects, and the object at `index`
   * is changed in place, so the list before the change sees it as well. When no object
   * occurs twice, exactly that position's key changes.
   */
  method ChangeField(entries: seq<FieldEntry>, index: nat, key: FieldKey, val: string)
    returns (updated: seq<FieldEntry>)
    requires index < |entries|
    modifies entries[index]
    ensures updated == entries
    ensures CustomField(entries[index].labelText, entries[index].valueText)
         == Changed(old(CustomField(entries[index].labelText, entries[index].valueText)), key, val)
    ensures Distinct(entries) ==> Snapshot(updated) == old(Snapshot(entries))[index := Changed(old(Snapshot(entries))[index], key, val)]
  {
    updated := entries;
    match key {
      case LabelKey => updated[index].labelText := val;
      case ValueKey => updated[index].valueText := val;
    }
  }

  // ---------------------------------------------------------------------------
  // Submitting
  // ---------------------------------------------------------------------------

  /** The form's state; `photo` says whether a file was chosen. */
  datatype Form = Form(
    name: string, age: string, gender: string, profileType: string, photo: bool,
    address: string, city: string, state: string, pincode: string, phone: string, email: string,
    bloodGroup: string, medicalConditions: string, medications: string, allergies: string,
    disabilities: string, specialNeeds: string,
    emergencyName: string, emergencyRelation: string, emergencyPhone: string, emergencyPhone2: string,
    language: string, communicationNeeds: string, notes: string,
    breed: string, species: string, chipId: string, vetName: string, vetPhone: string,
    customFields: seq<CustomField>)

  /** The alert of the first check that fails, in the form's order; `None` when all pass. */
  function SubmitCheck(f: Form): Option<string> {
    if !f.photo then Some("Photo is required")
    else if f.name == "" || f.age == "" || f.profileType == "" then Some("Please fill all required fields marked with *")
    else if f.emergencyPhone == "" then Some("Emergency contact phone is required")
    else None
  }

  /** The address line: `address`, then `, city`, `, state` and ` - pincode` for each part that is set. */
  function FullAddress(address: string, city: string, state: string, pincode: string): string {
    address + (if city != "" then ", " + city else "")
      + (if state != "" then ", " + state else "")
      + (if pincode != "" then " - " + pincode else "")
  }

  /** The full address is empty exactly when all four parts are, and it starts with the street address. */
  lemma FullAddressProperties(address: string, city: string, state: string, pincode: string)
    ensures FullAddress(address, city, state, pincode) == "" <==> address == "" && city == "" && state == "" && pincode == ""
    ensures FullAddress(address, city, state, pincode)[..|address|] == address
    ensures city == "" && state == "" && pincode == "" ==> FullAddress(address, city, state, pincode) == address
  {
    var r := FullAddress(address, city, state, pincode);
    var tail := r[|address|..];
    assert r == address + tail;
    assert city != "" ==> |tail| > 0;
  }

  /** The keys of the multipart text fields the form appends; the photo goes as the file. */
  const SentKeys: set<string> := {
    "name", "age", "gender", "type",
    "address", "city", "state", "pincode", "phone", "email",
    "bloodGroup", "condition", "medications", "allergies", "disabilities", "specialNeeds",
    "emergencyName", "emergencyRelation", "emergencyPhone", "emergencyPhone2",
    "language", "communicationNeeds", "message",
    "breed", "species", "chipId", "vetName", "vetPhone",
    "customFields"
  }

  /** The value the form appends under each key. */
  function SentValue(f: Form, k: string): string {
    if k == "name" then f.name
    else if k == "age" then f.age
    else if k == "gender" then f.gender
    else if k == "type" then f.profileType
    else if k == "address" then FullAddress(f.address, f.city, f.state, f.pincode)
    else if k == "city" then f.city
    else if k == "state" then f.state
    else if k == "pincode" then f.pincode
    else if k == "phone" then f.phone
    else if k == "email" then f.email
    else if k == "bloodGroup" then f.bloodGroup
    else if k == "condition" then f.medicalConditions
    else if k == "medications" then f.medications
    else if k == "allergies" then f.allergies
    else if k == "disabilities" then f.disabilities
    else if k == "specialNeeds" then f.specialNeeds
    else if k == "emergencyName" then f.emergencyName
    else if k == "emergencyRelation" then f.emergencyRelation
    else if k == "emergencyPhone" then f.emergencyPhone
    else if k == "emergencyPhone2" then f.emergencyPhone2
    else if k == "language" then f.language
    else if k == "communicationNeeds" then f.communicationNeeds
    else if k == "message" then f.notes
    else if k == "breed" then f.breed
    else if k == "species" then f.species
    else if k == "chipId" then f.chipId
    else if k == "vetName" then f.vetName
    else if k == "vetPhone" then f.vetPhone
    else Stringify(f.customFields)
  }

  /** The multipart text fields of the request. */
  function RequestBody(f: Form): (body: map<string, string>)
    ensures body.Keys == SentKeys
  {
    map k | k in SentKeys :: SentValue(f, k)
  }

  /** Submitting either alerts and sends nothing, or sends the body. */
  datatype Submission = Alert(msg: string) | Send(body: map<string, string>)

  function Submit(f: Form): Submission {
    match SubmitCheck(f)
    case Some(msg) => Alert(msg)
    case None => Send(RequestBody(f))
  }

  /** A request is sent exactly when a photo is chosen and name, age, type and emergency phone are filled. */
  lemma SubmitSendsIff(f: Form)
    ensures Submit(f).Send? <==> f.photo && f.name != "" && f.age != "" && f.profileType != "" && f.emergencyPhone != ""
  {
  }

  /** The checks run in order: the photo first, then name/age/type, then the emergency phone. */
  lemma SubmitCheckOrder(f: Form)
    ensures !f.photo ==> Submit(f) == Alert("Photo is required")
    ensures f.photo && (f.name == "" || f.age == "" || f.profileType == "") ==>
      Submit(f) == Alert("Please fill all required fields marked with *")
    ensures f.photo && f.name != "" && f.age != "" && f.profileType != "" && f.emergencyPhone == "" ==>
      Submit(f) == Alert("Emergency contact phone is required")
  {
  }
}
