# Care-Connect profile table

This project models the owner-scoped profile table of Care-Connect in Dafny. A signed-in
user creates profiles for the people and pets they care for: one photo, contact, medical
and emergency details, and a free list of label/value "custom fields". The user lists,
edits and deletes their own profiles. Anyone can read a single profile by id.

It covers three parts of the repository:

- **The route handlers** (`ProfileRoutes`). `ProfileRoutes.ProfileStore` is a class whose
  `profiles` map stands in for the MongoDB collection. A counter stands in for fresh
  ObjectIds. The six handlers are its methods:
  - `Create` (POST `/`)
  - `ListByOwner` (GET `/user`)
  - `DeleteAll` (DELETE `/user/all`)
  - `GetById` (GET `/:id`)
  - `Update` (PUT `/:id`)
  - `Delete` (DELETE `/:id`)

  Each method takes as parameters what its handler reads from the request: `Create` takes
  the session's user id, the body's text fields and the uploaded file; `Update` takes the
  same and the profile id; `ListByOwner` and `DeleteAll` take the user id; `Delete` takes
  the user id and a profile id; `GetById` takes only a profile id. `ListByOwner` returns
  the caller's records as a map from id to record; every other method returns its JSON
  reply as a `Reply` value. The order of checks in the
  create and update handlers is written as pure functions: `CreateOutcome` and
  `UpdateOutcome` say whether the request is rejected or what record is stored. Each
  method's `ensures` ties it to those functions.
- **The Mongoose schema** (`ProfileSchema`). A document is a map from schema path to string
  plus the custom-field list:
  - `Document` builds a document the way `new Profile(values)` does: missing optional paths
    get `""`, and the `name` setter trims.
  - `Valid` is what `save()` checks: the required paths, the three enumerations, and that
    every custom-field entry has a label and a value.
- **The create-profile form** (`CreateProfileForm`). It covers:
  - the list of custom fields the user edits (add, remove, change in place);
  - the form's three submit checks, in order;
  - the `fullAddress` line;
  - the multipart fields the form sends.

  `CustomFieldJson` models `JSON.stringify` of the list on the client and `JSON.parse` on
  the server, and proves that they round-trip. `ClientServer` connects the form to the
  handler.

Behaviours of the code that the model keeps on purpose:

- A body key `photoUrl` on PUT overwrites the stored URL when no file comes with it.
- `findByIdAndUpdate` does not run the schema's validators, so an update may store a record
  that `Valid` refuses. The store's invariant asks only that every id is below the counter.
- A body key `userId` on PUT is copied into the update, so the owner can hand the record to
  another account or leave it with no owner. `ProfileRoutes.ProfileStore.Update` does this
  too; see "## Findings".
- DELETE `/user/all` replies `{ msg: "All profiles deleted" }` with no count, as the code
  does.
- The form sends `city`, `state`, `pincode`, `email` and nine more keys that the create
  handler never reads. They are stored as `""`; `ClientServer.SubmittedFieldsDropped`
  states this.

## Model

| member | source | states |
|---|---|---|
| ProfileSchema.Trim | server/models/profileID.js:12-16 | the `trim: true` setter never lengthens a name, and a non-empty result starts and ends with a non-whitespace character |
| ProfileSchema.LeadingSpace | server/models/profileID.js:12-16 | the length of a name's leading run of ECMAScript whitespace: every character before it is whitespace and the one at it is not |
| ProfileSchema.TrimStartDropsLeading | server/models/profileID.js:12-16 | trimming the start removes exactly the leading whitespace run |
| ProfileSchema.TrimSlice | server/models/profileID.js:12-16 | the trimmed name is the original with only its leading and trailing whitespace removed: a contiguous slice starting after the leading run, with nothing but whitespace after it |
| ProfileSchema.TrimEmptyIff | server/models/profileID.js:12-16 | trimming leaves the empty string exactly when every character is ECMAScript whitespace |
| ProfileSchema.TrimIdempotent | server/models/profileID.js:12-16 | trimming a trimmed name changes nothing |
| ProfileSchema.CastValue | server/models/profileID.js:12-16 | definition: `name` is stored trimmed; every other path stores the given string |
| ProfileSchema.Document | server/models/profileID.js:3-168 | a given path is cast and kept; a missing path with `default: ""` becomes `""`; a missing required path stays unset; the custom-field list is kept |
| ProfileSchema.Valid | server/models/profileID.js:5-167 | definition: the validators `save()` runs: every `required` path non-empty, `gender`, `type` and `bloodGroup` among their listed values when set, and every custom-field entry with a non-empty label and value |
| ProfileSchema.ValidRequired | server/models/profileID.js:5-119 | the required set `Valid` checks is the one `Required` names: a savable profile has non-empty `userId`, `name`, `age`, `type`, `photoUrl` and `emergencyPhone` |
| ProfileSchema.ValidTypeIsNamed | server/models/profileID.js:26-44 | `""` is listed for `type`, but a saved `type` is always one of the 12 named values |
| ProfileSchema.ValidDocument | server/models/profileID.js:3-168 | `save()` accepts `new Profile(values)` exactly when every required value casts to a non-empty string, the given gender, type and blood group are listed values, and every custom-field entry has a non-empty label and value |
| ProfileSchema.DefaultsAdmitted | server/models/profileID.js:21-25 | `gender` and `bloodGroup` left out default to `""`, which both enumerations admit |
| ProfileSchema.DocumentNameTrimmed | server/models/profileID.js:12-16 | a document's name, when set, is a fixed point of trimming |
| ProfileSchema.BlankNameInvalid | server/models/profileID.js:12-16 | a whitespace-only name is truthy in JavaScript, yet it trims to `""` and fails `required` |
| CustomFieldJson.Stringify | client/src/pages/CreateProfile.jsx:134 | definition: `JSON.stringify` of the list: an array of `{"label": …, "value": …}` objects with each string escaped |
| CustomFieldJson.Parse | server/routes/profileRoutes.js:63-71 | definition: `JSON.parse` of a custom-field text, as the create handler runs it and the update handler runs it at line 223; `None` stands for the thrown error |
| CustomFieldJson.EscapeParses | client/src/pages/CreateProfile.jsx:134 | the JSON string escape of any text lexes back to that text, and the rest of the input is untouched |
| CustomFieldJson.LexRender | client/src/pages/CreateProfile.jsx:134 | lexing rendered JSON tokens gives back the same tokens |
| CustomFieldJson.ParseStringify | client/src/pages/CreateProfile.jsx:134 | `JSON.parse(JSON.stringify(list))` is the same list of label/value pairs, in order |
| CustomFieldJson.SurrogateEscapeParses | server/routes/profileRoutes.js:66 | inside a string literal, every escaped high surrogate followed by an escaped low surrogate is read as the one character the pair encodes |
| CustomFieldJson.SurrogatePairInverts | server/routes/profileRoutes.js:66 | every character above U+FFFF is the decoding of its UTF-16 surrogate pair |
| CustomFieldJson.SurrogatePairDecodes | server/routes/profileRoutes.js:66 | the pair is recovered from the character it decodes to, so distinct pairs give distinct characters |
| CustomFieldJson.SurrogatePairParses | server/routes/profileRoutes.js:66 | an example: the escaped pair `"\ud83d\ude00"` is read as U+1F600 |
| CustomFieldJson.LoneSurrogateRefused | server/routes/profileRoutes.js:66 | every escape of a low surrogate with no high one before it is refused (see "## Left out") |
| CustomFieldJson.UnpairedHighRefused | server/routes/profileRoutes.js:66 | every escape of a high surrogate that no low surrogate escape follows is refused (see "## Left out") |
| CustomFieldJson.ParseEmptyArray | server/routes/profileRoutes.js:66 | the fallback text `"[]"` parses to the empty list |
| ProfileRoutes.Field | server/routes/profileRoutes.js:100-114 | definition: `x \|\| ""` is the body's value when it is truthy and `""` otherwise |
| ProfileRoutes.CustomFieldsText | server/routes/profileRoutes.js:66 | the text the handler parses is never empty: `"[]"` replaces an absent or empty `customFields` |
| ProfileRoutes.UploadedUrl | server/routes/profileRoutes.js:82 | the photo URL is the file's path if it has one, else its secure URL; it is empty exactly when both are |
| ProfileRoutes.ProfileData | server/routes/profileRoutes.js:96-116 | the object handed to the schema holds `userId`, `photoUrl` and the 16 destructured fields, and nothing else |
| ProfileRoutes.CreateOutcome | server/routes/profileRoutes.js:47-135 | definition: POST `/` checks the required fields, then parses the custom-field text, then hands on to `PhotoOutcome`, each failure with its own reply |
| ProfileRoutes.PhotoOutcome | server/routes/profileRoutes.js:72-135 | definition: the file must be there and yield a URL; then the built document goes to `save()` |
| ProfileRoutes.SaveOutcome | server/routes/profileRoutes.js:124-127 | definition: `save()` stores the document exactly when the schema accepts it |
| ProfileRoutes.MergeAsWritten | server/routes/profileRoutes.js:218 | definition: the update as written: every body key except `customFields`, with the body's values |
| ProfileRoutes.Merge | server/routes/profileRoutes.js:218 | definition: the corrected update: every body key except `customFields` and `userId`, with the body's values |
| ProfileRoutes.ApplyUpdate | server/routes/profileRoutes.js:236-240 | each schema path the update names is cast and set; every other path keeps whether it is set and its value; the custom fields are replaced |
| ProfileRoutes.UpdateOutcome | server/routes/profileRoutes.js:212-240 | definition: PUT `/:id` as written: 404 unless the caller owns the record, 400 for a malformed custom-field text, else the record with the merge as written (body `userId` kept), the new photo and the custom fields applied |
| ProfileRoutes.IntendedUpdateOutcome | server/routes/profileRoutes.js:212-240 | definition: the same handler with the corrected merge of line 218, which leaves `userId` out |
| ProfileRoutes.OwnedRecords | server/routes/profileRoutes.js:156 | definition: `find({ userId })` keeps exactly the caller's records, unchanged |
| ProfileRoutes.Disowned | server/routes/profileRoutes.js:170 | definition: `deleteMany({ userId })` keeps exactly the records of other owners, unchanged |
| ProfileRoutes.ProfileStore.Create | server/routes/profileRoutes.js:12-148 | a rejected create replies with that check's reply and leaves the store alone; an accepted one replies 201 with the record and stores it under a fresh id, leaving every other record as it was |
| ProfileRoutes.ProfileStore.Insert | server/routes/profileRoutes.js:124-127 | a saved document gets an id no record has, and only that entry is added |
| ProfileRoutes.ProfileStore.ListByOwner | server/routes/profileRoutes.js:151-164 | the listing holds exactly the caller's records |
| ProfileRoutes.ProfileStore.DeleteAll | server/routes/profileRoutes.js:167-178 | the caller's records are gone, every other record stays, and the reply is always "All profiles deleted" |
| ProfileRoutes.ProfileStore.GetById | server/routes/profileRoutes.js:181-198 | the record is returned exactly when the id exists, whoever owns it; otherwise the reply is 404 "Profile not found" |
| ProfileRoutes.ProfileStore.Update | server/routes/profileRoutes.js:201-253 | a rejected update replies 404 or 400 and changes nothing; an accepted one writes the record merged as the code does, `userId` included, back under the same id and replies with it |
| ProfileRoutes.ProfileStore.Replace | server/routes/profileRoutes.js:236-240 | only the record with that id changes |
| ProfileRoutes.ProfileStore.Delete | server/routes/profileRoutes.js:256-277 | the record is removed exactly when the caller owns it; otherwise the reply is 404 and the store is unchanged |
| ProfileRoutes.CreateReportsMissing | server/routes/profileRoutes.js:47-58 | a create that lacks a required field gets the `missing` report, each flag true exactly when its field is empty |
| ProfileRoutes.MissingBeforeCustomFields | server/routes/profileRoutes.js:47-71 | missing required fields are reported whatever the custom-field text and the file are |
| ProfileRoutes.CustomFieldsBeforePhoto | server/routes/profileRoutes.js:63-77 | malformed custom fields without a photo report "Invalid customFields format" |
| ProfileRoutes.AbsentCustomFieldsEmpty | server/routes/profileRoutes.js:66 | a create without custom-field text parses the empty list, and a record it stores has no custom fields |
| ProfileRoutes.NoUrlNoRecord | server/routes/profileRoutes.js:82-87 | a file with neither path nor secure URL gets 500 "Image upload failed" |
| ProfileRoutes.NewRecordField | server/routes/profileRoutes.js:96-124 | path by path, the new document's owner is the session user, its photo URL is the given one, a destructured field is the body's value cast (`""` when not sent), and any other path is `""` |
| ProfileRoutes.NewRecordFilled | server/routes/profileRoutes.js:96-127 | the new document fills every required path when the user, URL, trimmed name, age, type and emergency phone are non-empty |
| ProfileRoutes.NewRecordEnums | server/routes/profileRoutes.js:96-127 | the new document passes the three enumerations when the body's gender, type and blood group are listed values |
| ProfileRoutes.NewRecordValid | server/routes/profileRoutes.js:123-127 | under those conditions and with valid custom-field entries, `save()` accepts the new document |
| ProfileRoutes.CreatedRecord | server/routes/profileRoutes.js:82-127 | an accepted create stores the document built from the body: the session user as owner, the file's path or else its secure URL, the body's name trimmed, and the parsed custom fields |
| ProfileRoutes.CreateAccepted | server/routes/profileRoutes.js:47-135 | conversely, a create that passes every check and meets the schema is accepted with that document |
| ProfileRoutes.CreateDropsUnread | server/routes/profileRoutes.js:27-44 | a path the handler does not destructure is stored as `""` whatever the body holds under its key |
| ProfileRoutes.CreateOwner | server/routes/profileRoutes.js:92-97 | the stored record is owned by the session's user; no body key can set the owner |
| ProfileRoutes.TypeUnsetRefused | server/routes/profileRoutes.js:101-127 | a document built from a body without `type` is refused by `save()`, because `type` is required |
| ProfileRoutes.CreateWithoutType | server/routes/profileRoutes.js:101 | a create without `type` passes the handler's own checks but always fails at the schema |
| ProfileRoutes.OwnedSplit | server/routes/profileRoutes.js:156-170 | the caller's records and those delete-all keeps partition the table |
| ProfileRoutes.DeleteAllProperties | server/routes/profileRoutes.js:170-173 | after delete-all the caller owns nothing, every other owner's listing is unchanged, and repeating it changes nothing |
| ProfileRoutes.UpdateNotFound | server/routes/profileRoutes.js:212-216 | an update of a record that is missing or owned by someone else gets 404, and the reply is the same in both cases |
| ProfileRoutes.UpdatedField | server/routes/profileRoutes.js:218-240 | a schema path the body names, `userId` included, is overwritten with the body's value (cast); a path it does not name keeps its stored value |
| ProfileRoutes.UpdatedPhoto | server/routes/profileRoutes.js:231-234 | the photo URL becomes a new file's path when there is one; otherwise the body's `photoUrl` if sent; otherwise it keeps the stored value |
| ProfileRoutes.UpdatedRecord | server/routes/profileRoutes.js:212-240 | an accepted update was the caller's record and writes the merged record; it keeps the owner unless the body names a `userId`, which then becomes the owner; it keeps the stored custom fields unless the body sends new ones, which are then the parsed text |
| ProfileRoutes.AsWrittenReassignsOwner | server/routes/profileRoutes.js:212-240 | the update handler as written, given a body `{"userId": other}` by the record's owner, accepts it and hands the record to `other` (an empty `other` leaves it with no owner) |
| ProfileRoutes.UpdateKeepsOwner | server/routes/profileRoutes.js:218-240 | an update without `userId` keeps every set path set and never changes the owner |
| ProfileRoutes.IntendedUpdateKeepsOwner | server/routes/profileRoutes.js:212-240 | with the corrected merge, an accepted update keeps the record with the caller whatever the body says, and keeps every set path set |
| CreateProfileForm.AddField | client/src/pages/CreateProfile.jsx:54-56 | one fresh `{label: "", value: ""}` is appended; the earlier entries are the same objects, in order |
| CreateProfileForm.RemoveField | client/src/pages/CreateProfile.jsx:58-61 | only position `index` is removed and the rest keep their order; an index outside the list removes nothing |
| CreateProfileForm.RemoveFieldDistinct | client/src/pages/CreateProfile.jsx:58-61 | removing an entry keeps a list with no object twice that way |
| CreateProfileForm.RemoveFieldSnapshot | client/src/pages/CreateProfile.jsx:58-61 | removing an entry removes exactly its label/value pair from what the list holds |
| CreateProfileForm.ChangeField | client/src/pages/CreateProfile.jsx:63-67 | the copied list holds the same objects; only the chosen key of the object at `index` changes; with no object listed twice, no other entry or key changes |
| CreateProfileForm.FullAddress | client/src/pages/CreateProfile.jsx:89 | definition: the street address, then `", " + city`, `", " + state` and `" - " + pincode` for each part that is non-empty |
| CreateProfileForm.FullAddressProperties | client/src/pages/CreateProfile.jsx:89 | the address line starts with the street address, is just that when the other parts are empty, and is empty exactly when all four parts are |
| CreateProfileForm.RequestBody | client/src/pages/CreateProfile.jsx:91-134 | the form sends exactly its 29 text keys |
| CreateProfileForm.SubmitCheck | client/src/pages/CreateProfile.jsx:73-86 | definition: the alert of the first failing check (photo, then name/age/type, then emergency phone), or none |
| CreateProfileForm.Submit | client/src/pages/CreateProfile.jsx:70-134 | definition: a failing check alerts and sends nothing; otherwise the request body is sent |
| CreateProfileForm.SubmitSendsIff | client/src/pages/CreateProfile.jsx:73-86 | a request is sent exactly when a photo is chosen and name, age, type and emergency phone are filled |
| CreateProfileForm.SubmitCheckOrder | client/src/pages/CreateProfile.jsx:73-86 | the checks run in order (photo, then name/age/type, then emergency phone), each with its own alert |
| ClientServer.SubmittedCustomFieldsParse | client/src/pages/CreateProfile.jsx:134 | the custom-field list the form sends is the list the create handler parses |
| ClientServer.ClientChecksMissPhoneAndAddress | client/src/pages/CreateProfile.jsx:73-86 | a form that passes its own checks but has no phone or no address gets the handler's 400 with exactly those flags set |
| ClientServer.SubmittedFields | client/src/pages/CreateProfile.jsx:93-134 | the handler reads the form's name, age, gender, type, address line, phone, blood group and emergency phone unchanged |
| ClientServer.SubmittedFormStored | server/routes/profileRoutes.js:96-135 | a submitted form with a phone, an address, a usable file and values the schema admits is stored as the document built from it |
| ClientServer.SubmittedAddress | client/src/pages/CreateProfile.jsx:89-101 | the stored `address` is the form's full address line |
| ClientServer.SubmittedFieldsDropped | client/src/pages/CreateProfile.jsx:102-132 | the form sends keys such as `city` and `vetPhone`, but they are stored as `""` |

## Left out

- Sessions, HTTP plumbing, `console.log`, async/await and concurrency: the caller's user id is a parameter and each handler runs on its own.
- The multer/Cloudinary upload, with its 5 MB limit and format filter: the file is an optional pair of path and secure URL.
- MongoDB ObjectIds, timestamps and indexes: ids are natural numbers from a counter. A malformed id, which gives a `CastError` and a 500, is not modelled.
- The `error` and `details` members of 500 replies: a failed `save()` is `MsgReply(500, "Server error")`.
- The order of the GET `/user` list: the listing is a map from id to record.
- Request bodies are maps from key to string, as multipart text fields are. Non-string JSON values in a body and `_id` keys are not modelled.
- CustomFieldJson.Parse: accepts only the shape of a custom-field list, an array of objects whose members are strings. Other valid JSON (numbers, nested values, a bare object) is reported as malformed; `JSON.parse` accepts it and Mongoose then casts or rejects it. An escaped surrogate pair is decoded, but a `\u` escape of an unpaired surrogate is refused: a Dafny string holds only Unicode scalar values, while `JSON.parse` yields a lone UTF-16 code unit.
- ProfileRoutes.ApplyUpdate: assumes Mongoose runs the `name` trim setter when it casts an update. The model does not check this.
- The rendering, alerts, navigation and axios call of the form, and the session-loading logic. What is kept is the list editing, the checks, the address line and the keys and values it appends.
- server/index.js, server/middleware/upload.js, Navbar.jsx and Footer.jsx are not part of this model. They are wiring and presentation.

## Findings

| source | as written | input that shows it | evidently intended | confidence | as-written member | corrected member |
|---|---|---|---|---|---|---|
| server/routes/profileRoutes.js:218 | `{ ...req.body }` copies every body key into the update, including `userId`, and `findByIdAndUpdate` applies it | PUT `/:id` by the owner "alice" with body `{"userId": "mallory"}` | an update keeps the record's owner; ownership is set only from the session on create | medium, not executed | ProfileRoutes.AsWrittenReassignsOwner | ProfileRoutes.IntendedUpdateKeepsOwner |

The store's `Update` and `UpdateOutcome` follow the code as written, with `MergeAsWritten`.
`IntendedUpdateOutcome` is the same handler with the corrected `Merge`, which drops `userId`;
`IntendedUpdateKeepsOwner` and `UpdateKeepsOwner` are proved about it.

Rows whose third column starts with "definition:" are reference definitions: their
`ensures` spell out what the function computes, and the lemmas in the other rows reason
about them.
