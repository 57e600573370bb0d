# Doctor portfolio API — a Dafny model

This project models the HTTP layer of a small record-management backend: appointments booked by
patients, blog posts, and one admin-editable settings record, all kept in a document store.

What is modelled:

- **Record schemas** (`schemas.dfy`, module `Schemas`): `Appointment`, `BlogPost` and
  `DoctorSettings` as datatypes. Their validation (`Validate…`) turns a request body into a record:
  it fills in the declared defaults, lists the fields that fail, and ignores fields the schema does
  not declare. Their serialisation (`Dump…`, Pydantic's `model_dump`) gives the document that is written.
- **The document store** (`store.dfy`, module `Store`): a class `DocumentStore` whose state is a map
  from collection name to an ordered sequence of documents, plus the counter that assigns `_id`s.
  Its three operations are the ones the handlers use: `get_documents` (a query), `create_document`
  (an insert) and `update_one` with `$set`. A failing store call is an input: each operation takes
  `fault: Option<string>`, and `Some(message)` makes that call raise with that message.
- **The handlers** (`api.dfy`, module `Api`): the two list endpoints, with their filter building and
  their in-place output normalisation loop; the two create endpoints; and the settings read and
  upsert. Each handler is a method over the store. Beside each handler is a pure function that
  specifies it: the filters, `Normalize`/`NormalizeAll`, `SettingsView`, `CreateStep` and
  `UpdateSettingsStep`. The lemmas state what the handlers promise together, for example that a
  created record is listed, the upsert law, and that reading the settings serves the last write.
- **Scenarios** (`scenarios.dfy`): client methods that call the handlers on a fresh store. They are
  verified against the handlers' contracts and the schema lemmas: the booking scenario, the settings create-then-read scenario and the
  default-settings scenario.

The clock is a `now: Timestamp` parameter of `UpdateSettings`. The DEFAULT_EMAIL environment
variable is a `defaultEmail: Option<string>` parameter, where `None` means unset. Python's `str()`
of an identifier and `datetime.isoformat()` are the two function fields of a `Conv` parameter.

Modelling choices where the code and its description differ (the code is followed):

- A store failure reaches the client as status 500 carrying the exception's full message. It is not truncated.
  Truncation happens only in the diagnostic endpoint, which is not modelled.
- On an empty settings collection the validated payload is inserted. The `updated_at` computed
  before the branch is not part of that insert. On a non-empty collection the payload and
  `updated_at` are merged into the first document with `$set`. This is a merge: fields of the old document that the payload
  does not name stay. The upsert law still holds, because every payload names the same two fields.
- If the first settings document has no `_id`, the lookup `existing[0]["_id"]` raises `KeyError`.
  The model gives a 500 whose detail is `'_id'`.
- `os.getenv("DEFAULT_EMAIL", "doctor@example.com")` falls back only when the variable is unset.
  When it is set to the empty string, the default settings carry `""`.

## Model

| member | source | states |
|---|---|---|
| `Values.StrsOf` | schemas.py:38 | a JSON array reads as a `List[str]` exactly when every element is a string, keeping elements and order |
| `Values.StrsOfStrValues` | schemas.py:38 | a list of strings written as a JSON array reads back as the same list |
| `Schemas.ValidateAppointment` | schemas.py:17-28 | a body is accepted exactly when `name`, `email`, `date`, `time` are strings, `phone`/`note` are absent, null or strings, and `status` is absent or a string; otherwise the error is `AppointmentErrors`, never empty, so a missing required field always fails; on success the four required fields are the body's strings, `phone`/`note` are None exactly when absent or null, and `status` is the body's or "pending" |
| `Schemas.AppointmentErrors` | schemas.py:17-28 | the 422 error names a field exactly when it is a declared Appointment field whose value is not of its declared type (a missing required field included); it is empty exactly when the body is well typed |
| `Schemas.AppointmentDefaults` | schemas.py:22-28 | a body with only `name`, `email`, `date` and `time` is accepted, with `phone` and `note` None and `status` "pending" |
| `Schemas.ValidateAppointmentOfDump` | schemas.py:17-28 | any body holding an appointment's dumped fields, whatever else it holds, validates to that appointment (dump/validate round trip) |
| `Schemas.DumpAppointment` | schemas.py:17-28 | the dumped document has exactly the seven declared fields |
| `Schemas.ValidateBlogPost` | schemas.py:30-39 | a body is accepted exactly when `title` and `content` are strings, `cover_image` is absent, null or a string, `tags` absent or an array of strings, and `published` absent or a boolean; otherwise the error is `BlogPostErrors`; `cover_image` is None exactly when absent or null; `tags` default to the empty list and `published` to false; present fields are taken from the body |
| `Schemas.BlogPostErrors` | schemas.py:30-39 | the error names a field exactly when it is a declared BlogPost field that is not of its declared type; it is empty exactly when the body is well typed |
| `Schemas.BlogPostDefaults` | schemas.py:35-39 | a body with only `title` and `content` is accepted, with no cover image, no tags and `published` false |
| `Schemas.ValidateBlogPostOfDump` | schemas.py:30-39 | any body holding a post's dumped fields validates to that post |
| `Schemas.DumpBlogPost` | schemas.py:30-39 | the dumped document has exactly the five declared fields |
| `Schemas.ValidateSettings` | schemas.py:41-47 | a body is accepted exactly when `notification_email` is a string and `available_slots` is absent, null or an array of strings; otherwise the error is `SettingsErrors`; `available_slots` defaults to the empty list, a null reads as None, and a list reads as its strings |
| `Schemas.SettingsErrors` | schemas.py:41-47 | the error names a field exactly when it is a declared DoctorSettings field that is not of its declared type; it is empty exactly when the body is well typed |
| `Schemas.SettingsDefaults` | schemas.py:46-47 | a body with only `notification_email` is accepted, with `available_slots` the empty list |
| `Schemas.ValidateSettingsOfDump` | schemas.py:41-47 | any body holding the dumped settings validates to those settings |
| `Schemas.DumpSettings` | schemas.py:41-47 | the dumped document has exactly the two declared fields |
| `Store.Select` | main.py:78 | a query returns at most the collection's documents, each of them in the collection and matching every filter field |
| `Store.SelectKeepsMatches` | main.py:107 | every document of the collection that matches the filter is returned |
| `Store.SelectEverything` | main.py:123 | the empty filter returns the whole collection in store order |
| `Store.Stored` | main.py:61 | an inserted document holds the record's fields and an `_id` holding the assigned identifier, and nothing else |
| `Store.SetFields` | main.py:143 | `$set` gives a document with the old keys and the set keys, the set fields taking the new values and every other field kept |
| `Store.SetFirst` | main.py:143 | `update_one` with `$set` merges the fields into the first matching document, wherever it is, and leaves every other document alone; with no match nothing changes; the length never changes |
| `Store.DocumentStore.GetDocuments` | main.py:123 | a query changes nothing and returns the selected documents or the store's error |
| `Store.DocumentStore.CreateDocument` | main.py:61 | an insert appends the record with the next `_id` and returns that id, or on failure changes nothing |
| `Store.DocumentStore.UpdateOne` | main.py:143 | the update rewrites only the named collection through `SetFirst`, or on failure changes nothing |
| `Api.AppointmentFilter` | main.py:73-77 | the filter has `email` exactly when the email argument is a non-empty string, and `date` likewise, each with the argument's value; it has no other key |
| `Api.EmptyEmailIsNoFilter` | main.py:74-75 | an empty-string email gives the same filter as no email |
| `Api.BlogFilter` | main.py:104-106 | the filter has `published` exactly when the argument is given, `false` included, with its value; with None it is empty |
| `Api.Normalize` | main.py:80-86 | `_id` becomes its string form when present and null when absent; `created_at`/`updated_at` become ISO text only when they hold datetimes; every other field is unchanged and no field is dropped |
| `Api.NormalizeAll` | main.py:80-87 | normalisation keeps the number and order of the fetched documents, each normalised |
| `Api.NormalizeInPlace` | main.py:108-113 | the in-place loop leaves the array equal to the normalised documents of its old contents |
| `Api.NormalizeKeepsRecord` | main.py:80-86 | normalisation never touches a record field outside `_id`, `created_at` and `updated_at` |
| `Api.ListedReply` | main.py:87-89 | a failed query becomes a 500 with its message, a successful one the normalised items |
| `Api.ListAppointments` | main.py:70-89 | GET /api/appointments replies with the normalised result of querying "appointment" with the truthiness filter, or a 500 with the store's message |
| `Api.ListBlogs` | main.py:101-116 | GET /api/blogs replies with the normalised result of querying "blogpost" with the not-None filter, or a 500 |
| `Api.ListedByEmail` | main.py:73-80 | with a non-empty email every listed item has that email, and every stored appointment with that email is listed |
| `Api.ListedByPublication` | main.py:104-108 | with `published` = p, for false as for true, every listed item has that value, and every post with it is listed |
| `Api.ListedWithoutFilter` | main.py:73-78 | with `email` and `date` not truthy, the appointment listing is the whole collection normalised in order, and so is the blog listing with `published` None (a `published` of false does filter) |
| `Api.AppointmentRecord` | main.py:58-60 | a body is turned into a record exactly when it is a well-typed Appointment; the record has exactly the declared fields and validates to the same appointment as the body; otherwise the failing fields |
| `Api.BlogPostRecord` | main.py:93-95 | the same for a BlogPost body |
| `Api.CreateStep` | main.py:60-64 | a create refuses an invalid body with its failing fields, turns a store failure into a 500 with its message, and otherwise appends one document holding the record and the next `_id`, replying with that id |
| `Api.Create` | main.py:95-99 | the shared create path changes the store exactly as `CreateStep` says |
| `Api.CreateAppointment` | main.py:58-64 | POST /api/appointments validates the body as an Appointment and inserts its dump into "appointment" as `CreateStep` says |
| `Api.CreateBlog` | main.py:93-99 | POST /api/blogs validates the body as a BlogPost and inserts its dump into "blogpost" as `CreateStep` says |
| `Api.ListedAppointmentReadsBack` | main.py:80-86 | a stored appointment, as listed, holds its dumped fields and validates back to the appointment |
| `Api.ListedBlogPostReadsBack` | main.py:108-113 | a stored post, as listed, holds its dumped fields and validates back to the post |
| `Api.CreatedAppointmentIsListed` | main.py:58-87 | after a successful create, the unfiltered listing has one more item, the last, whose fields equal the validated input |
| `Api.CreatedBlogPostIsListed` | main.py:93-114 | after a successful create, the unfiltered blog listing ends with the new post, whose fields equal the validated input |
| `Api.DefaultSettings` | main.py:128-129 | the default settings have only the two settings fields and validate to DEFAULT_EMAIL (or "doctor@example.com" when unset) and the five slots 09:00, 10:00, 11:00, 14:00, 15:00 |
| `Api.SettingsView` | main.py:123-129 | with documents, the served settings are the first document with only `_id` stringified; with none, the default |
| `Api.GetSettings` | main.py:120-131 | GET /api/settings serves `SettingsView` of the settings collection, or a 500; it has no modifies clause, so it never writes |
| `Api.SettingsData` | main.py:139-140 | the `$set` payload holds the dumped settings and `updated_at` = now, nothing else |
| `Api.UpdateSettingsStep` | main.py:133-149 | on error nothing is written; with documents, the first gets the payload and `updated_at` merged in, keeping `_id` and every other key, while the others and the length stay; reply `updated`; with none, exactly one document holding the payload and an `_id`, and, because any stamping inside `database.py` is not modelled, no `updated_at`; reply `created`; a first document without `_id` gives a 500 `'_id'` |
| `Api.UpdateSettings` | main.py:133-149 | POST /api/settings refuses an invalid body without writing, and otherwise changes the store exactly as `UpdateSettingsStep` says |
| `Api.UpdateKeepsSingleton` | main.py:141-147 | sequential updates keep the settings collection at most one document |
| `Api.UpsertLaw` | main.py:137-147 | from no settings, update(a) then update(b) gives `created`, then `updated`, and one document with keys `_id`, `notification_email`, `available_slots`, `updated_at` that validates to b |
| `Api.GetServesLastUpdate` | main.py:120-147 | after a successful update, the settings GET serves validate to the posted payload |
| `Scenarios.ListedAlone` | main.py:73-87 | listing by its email a collection holding one booking lists exactly that booking, normalised |

## Left out

- The diagnostic endpoint GET `/test` (main.py:26-54) is left out: it checks environment variables, lists collections and truncates messages, which is all I/O.
- GET `/` (main.py:22-24) is left out: it returns a constant message.
- The CORS middleware and the uvicorn start-up (main.py:14-20, main.py:151-154) are configuration.
- The unused `AppointmentQuery` class (main.py:66-68) is left out.
- `database.py` is not part of this model. Its query is modelled as exact equality on every filter
  field, and its insert as storing the record's fields plus a fresh `_id`. Any `created_at`/`updated_at`
  stamping it may do is not modelled. Its returned id is modelled as the store's number for the `_id`,
  not the text form.
- Email and date validation is left out. `EmailStr` format checking and the normalisation it applies, and `datetime.date` parsing, are foreign
  library calls: email and date are plain strings, accepted as sent.
- Pydantic's lax coercions are left out. A field must hold a value of its declared JSON type: no `"true"` for a bool and no number
  for a string. FastAPI's parsing of the `published` query parameter is not modelled either; the handler receives an `Option<bool>`.
- The 422 reply lists the failing field names. Pydantic's error messages and error locations are not modelled.
- `datetime.utcnow()`, `str()` of an identifier and `isoformat()` are inputs (`now`, `Conv`).
- The concurrent `update_settings` race is left out: two calls that both see no settings can both insert. The model is sequential.
- The store order of a collection is modelled as insertion order: an insert appends. The
  listing-after-create lemmas (`CreatedAppointmentIsListed`, `CreatedBlogPostIsListed`) and
  `CreateStep` rest on this, whereas the real store decides its own order.
- Each store call fails or succeeds as a whole. A partial write inside the store is not modelled.
- JSON serialisation of replies by FastAPI is not modelled. An exception other than a store failure or the missing
  `_id` is not modelled either; the handlers' `except Exception` is modelled for those two sources.
