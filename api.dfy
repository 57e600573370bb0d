/**
 * The HTTP handlers of the service: listing and creating appointments and
 * blog posts, and reading and upserting the singleton settings record. Each
 * handler is a method over the injected `DocumentStore`; the pure functions
 * beside them (filters, output normalisation, the settings view and the
 * effect of each write on its collection) specify them, and the lemmas state
 * what the handlers promise together.
 */
module Api {
  import opened Wrappers
  import opened Values
  import opened Schemas
  import opened Store

  const AppointmentCollection: string := "appointment"
  const BlogPostCollection: string := "blogpost"
  const SettingsCollection: string := "doctorsettings"

  /** The notification email of the default settings when DEFAULT_EMAIL is unset. */
  const FallbackEmail: string := "doctor@example.com"
  /** The slots of the default settings. */
  const DefaultSlots: seq<string> := ["09:00", "10:00", "11:00", "14:00", "15:00"]
  /** The fields the list endpoints rewrite. */
  const NormalizedKeys: set<string> := {"_id", "created_at", "updated_at"}
  /** `str(KeyError("_id"))`: the detail when the first settings document has no `_id`. */
  const MissingIdMessage: string := "'_id'"

  /** The JSON body of a successful reply (every one also carries `"ok": true`). */
  datatype Body =
    | Created(id: nat)
    | Items(items: seq<Document>)
    | Settings(settings: Document)
    | SettingsUpdated
    | SettingsCreated

  datatype Reply =
    | Ok(body: Body)                // status 200
    | Invalid(fields: seq<string>)  // status 422: the request body failed schema validation
    | ServerError(detail: string)   // status 500: an exception, with its message as detail

  /** What a handler does to the one collection it touches: new documents, next id, reply. */
  datatype Step = Step(docs: seq<Document>, nextId: nat, reply: Reply)

  /** The store now holds what `s` says: `s.docs` in collection `name` when the reply is Ok, nothing new otherwise. */
  twostate predicate Applied(store: DocumentStore, name: string, s: Step)
    reads store
  {
    && store.nextId == s.nextId
    && store.collections == if s.reply.Ok? then old(store.collections)[name := s.docs] else old(store.collections)
  }

  // ---------------------------------------------------------------- filters

  /** The filter of GET /api/appointments: a query parameter is used only when it is truthy. */
  function AppointmentFilter(email: Option<string>, date: Option<string>): (f: Document)
    ensures "email" in f <==> email.Some? && email.value != ""
    ensures "email" in f ==> f["email"] == Str(email.value)
    ensures "date" in f <==> date.Some? && date.value != ""
    ensures "date" in f ==> f["date"] == Str(date.value)
    ensures f.Keys <= {"email", "date"}
  {
    var f := if Truthy(email) then map["email" := Str(email.value)] else map[];
    if Truthy(date) then f["date" := Str(date.value)] else f
  }

  /** The filter of GET /api/blogs: `published` is used whenever it is given, false included. */
  function BlogFilter(published: Option<bool>): (f: Document)
    ensures "published" in f <==> published.Some?
    ensures published.Some? ==> f["published"] == Bool(published.value)
    ensures f.Keys <= {"published"}
  {
    if published.Some? then map["published" := Bool(published.value)] else map[]
  }

  /** An empty-string email is no filter at all. */
  lemma EmptyEmailIsNoFilter(date: Option<string>)
    ensures AppointmentFilter(Some(""), date) == AppointmentFilter(None, date)
  {
  }

  // ---------------------------------------------------------- normalisation

  /** The `_id` of a listed document: its string form, or null when the document has none. */
  function StringifiedId(conv: Conv, d: Document): Value {
    if "_id" in d then Str(conv.str(d["_id"])) else Null
  }

  /** A timestamp field as listed: ISO text when it holds a datetime, untouched otherwise. */
  function IsoValue(conv: Conv, v: Value): Value {
    if v.DateTime? then Str(conv.isoformat(v.at)) else v
  }

  /** Rewrites field `key` to ISO text when it holds a datetime. */
  function IsoField(conv: Conv, d: Document, key: string): Document {
    if key in d && d[key].DateTime? then d[key := IsoValue(conv, d[key])] else d
  }

  /** One listed document: `_id` stringified (or null), datetimes in `created_at`/`updated_at` as ISO text. */
  function Normalize(conv: Conv, d: Document): (n: Document)
    ensures n.Keys == d.Keys + {"_id"}
    ensures n["_id"] == if "_id" in d then Str(conv.str(d["_id"])) else Null
    ensures "created_at" in d ==> n["created_at"] == if d["created_at"].DateTime? then Str(conv.isoformat(d["created_at"].at)) else d["created_at"]
    ensures "updated_at" in d ==> n["updated_at"] == if d["updated_at"].DateTime? then Str(conv.isoformat(d["updated_at"].at)) else d["updated_at"]
    ensures forall k :: k in d && k !in NormalizedKeys ==> n[k] == d[k]
  {
    IsoField(conv, IsoField(conv, d["_id" := StringifiedId(conv, d)], "created_at"), "updated_at")
  }

  /** The listed documents: each normalised, same number, same order. */
  function NormalizeAll(conv: Conv, docs: seq<Document>): (r: seq<Document>)
    ensures |r| == |docs|
    ensures forall i :: 0 <= i < |docs| ==> r[i] == Normalize(conv, docs[i])
  {
    if docs == [] then [] else [Normalize(conv, docs[0])] + NormalizeAll(conv, docs[1..])
  }

  /** Normalisation never touches a record's own fields. */
  lemma NormalizeKeepsRecord(conv: Conv, d: Document, record: Document)
    requires Extends(d, record) && record.Keys !! NormalizedKeys
    ensures Extends(Normalize(conv, d), record)
  {
    forall k | k in record ensures k in Normalize(conv, d) && Normalize(conv, d)[k] == record[k] {
      assert k !in NormalizedKeys;
    }
  }

  /** The rewrite loop of the list endpoints, in place over the fetched documents. */
  method NormalizeInPlace(conv: Conv, docs: array<Document>)
    modifies docs
    ensures docs[..] == NormalizeAll(conv, old(docs[..]))
  {
    var i := 0;
    while i < docs.Length
      invariant 0 <= i <= docs.Length
      invariant forall k :: 0 <= k < i ==> docs[k] == Normalize(conv, old(docs[k]))
      invariant forall k :: i <= k < docs.Length ==> docs[k] == old(docs[k])
    {
      docs[i] := Normalize(conv, docs[i]);
      i := i + 1;
    }
  }

  /** The fetched documents, normalised in place, as a reply. */
  method ListedReply(conv: Conv, found: Result<seq<Document>, string>) returns (r: Reply)
    ensures found.Failure? ==> r == ServerError(found.error)
    ensures found.Success? ==> r == Ok(Items(NormalizeAll(conv, found.value)))
  {
    if found.Failure? {
      return ServerError(found.error);
    }
    var s := found.value;
    var docs := new Document[|s|](i requires 0 <= i < |s| => s[i]);
    assert docs[..] == s;
    NormalizeInPlace(conv, docs);
    r := Ok(Items(docs[..]));
  }

  // ------------------------------------------------------------ list handlers

  /** GET /api/appointments?email=&date= */
  method ListAppointments(store: DocumentStore, conv: Conv, email: Option<string>, date: Option<string>, fault: Option<string>)
    returns (r: Reply)
    ensures fault.Some? ==> r == ServerError(fault.value)
    ensures fault.None? ==>
      r == Ok(Items(NormalizeAll(conv, Select(store.Collection(AppointmentCollection), AppointmentFilter(email, date)))))
  {
    var filt: Document := map[];
    if Truthy(email) {
      filt := filt["email" := Str(email.value)];
    }
    if Truthy(date) {
      filt := filt["date" := Str(date.value)];
    }
    assert filt == AppointmentFilter(email, date);
    var found := store.GetDocuments(AppointmentCollection, filt, fault);
    r := ListedReply(conv, found);
  }

  /** GET /api/blogs?published= */
  method ListBlogs(store: DocumentStore, conv: Conv, published: Option<bool>, fault: Option<string>)
    returns (r: Reply)
    ensures fault.Some? ==> r == ServerError(fault.value)
    ensures fault.None? ==>
      r == Ok(Items(NormalizeAll(conv, Select(store.Collection(BlogPostCollection), BlogFilter(published)))))
  {
    var filt: Document := map[];
    if published.Some? {
      filt := filt["published" := Bool(published.value)];
    }
    var found := store.GetDocuments(BlogPostCollection, filt, fault);
    r := ListedReply(conv, found);
  }

  /** Listing by a non-empty email gives exactly the appointments booked with that email. */
  lemma ListedByEmail(conv: Conv, docs: seq<Document>, e: string)
    requires e != ""
    ensures var items := NormalizeAll(conv, Select(docs, AppointmentFilter(Some(e), None)));
      && (forall i :: 0 <= i < |items| ==> Has(items[i], "email", Str(e)))
      && (forall d :: d in docs && Has(d, "email", Str(e)) ==> Normalize(conv, d) in items)
  {
    var filt := AppointmentFilter(Some(e), None);
    var sel := Select(docs, filt);
    var items := NormalizeAll(conv, sel);
    forall i | 0 <= i < |items| ensures Has(items[i], "email", Str(e)) {
      assert sel[i] in sel;
      assert "email" in filt;
    }
    forall d | d in docs && Has(d, "email", Str(e)) ensures Normalize(conv, d) in items {
      SelectKeepsMatches(docs, filt, d);
      var j :| 0 <= j < |sel| && sel[j] == d;
      assert items[j] == Normalize(conv, d);
    }
  }

  /** Listing with `published` = p gives exactly the posts whose `published` is p, for false as for true. */
  lemma ListedByPublication(conv: Conv, docs: seq<Document>, p: bool)
    ensures var items := NormalizeAll(conv, Select(docs, BlogFilter(Some(p))));
      && (forall i :: 0 <= i < |items| ==> Has(items[i], "published", Bool(p)))
      && (forall d :: d in docs && Has(d, "published", Bool(p)) ==> Normalize(conv, d) in items)
  {
    var filt := BlogFilter(Some(p));
    var sel := Select(docs, filt);
    var items := NormalizeAll(conv, sel);
    forall i | 0 <= i < |items| ensures Has(items[i], "published", Bool(p)) {
      assert sel[i] in sel;
      assert "published" in filt;
    }
    forall d | d in docs && Has(d, "published", Bool(p)) ensures Normalize(conv, d) in items {
      SelectKeepsMatches(docs, filt, d);
      var j :| 0 <= j < |sel| && sel[j] == d;
      assert items[j] == Normalize(conv, d);
    }
  }

  /** Without parameters both list endpoints return the whole collection, normalised, in store order. */
  lemma ListedWithoutFilter(conv: Conv, docs: seq<Document>, email: Option<string>, date: Option<string>)
    requires !Truthy(email) && !Truthy(date)
    ensures NormalizeAll(conv, Select(docs, AppointmentFilter(email, date))) == NormalizeAll(conv, docs)
    ensures NormalizeAll(conv, Select(docs, BlogFilter(None))) == NormalizeAll(conv, docs)
  {
    assert AppointmentFilter(email, date) == map[];
    assert BlogFilter(None) == map[];
    SelectEverything(docs);
  }

  // ---------------------------------------------------------- create handlers

  /**
   * The record an appointment create inserts (`Appointment(**body).model_dump()`):
   * a well-typed body gives a document of exactly the declared fields that
   * validates to the same appointment as the body; any other body gives its
   * failing fields.
   */
  function AppointmentRecord(body: Document): (r: Result<Document, seq<string>>)
    ensures r.Success? <==> AppointmentWellTyped(body)
    ensures r.Failure? ==> r.error == AppointmentErrors(body)
    ensures r.Success? ==> r.value.Keys == AppointmentFields && ValidateAppointment(r.value) == ValidateAppointment(body)
  {
    match ValidateAppointment(body)
    case Success(a) =>
      ValidateAppointmentOfDump(DumpAppointment(a), a);
      Success(DumpAppointment(a))
    case Failure(e) => Failure(e)
  }

  /** The record a blog create inserts: the same, for a BlogPost body. */
  function BlogPostRecord(body: Document): (r: Result<Document, seq<string>>)
    ensures r.Success? <==> BlogPostWellTyped(body)
    ensures r.Failure? ==> r.error == BlogPostErrors(body)
    ensures r.Success? ==> r.value.Keys == BlogPostFields && ValidateBlogPost(r.value) == ValidateBlogPost(body)
  {
    match ValidateBlogPost(body)
    case Success(p) =>
      ValidateBlogPostOfDump(DumpBlogPost(p), p);
      Success(DumpBlogPost(p))
    case Failure(e) => Failure(e)
  }

  /**
   * What a create endpoint does to its collection: an invalid body is
   * refused with its failing fields; a store failure is a 500 carrying its
   * message; otherwise the record is appended with the next id, which is
   * the reply's `id`.
   */
  function CreateStep(docs: seq<Document>, nextId: nat, record: Result<Document, seq<string>>, fault: Option<string>): (s: Step)
    ensures record.Failure? ==> s == Step(docs, nextId, Invalid(record.error))
    ensures record.Success? && fault.Some? ==> s == Step(docs, nextId, ServerError(fault.value))
    ensures record.Success? && fault.None? ==>
      && s.reply == Ok(Created(nextId)) && s.nextId == nextId + 1
      && |s.docs| == |docs| + 1 && s.docs[..|docs|] == docs
      && Extends(s.docs[|docs|], record.value - {"_id"}) && Has(s.docs[|docs|], "_id", ObjectId(nextId))
  {
    match record
    case Failure(fields) => Step(docs, nextId, Invalid(fields))
    case Success(rec) =>
      if fault.Some? then Step(docs, nextId, ServerError(fault.value))
      else
        assert (docs + [Stored(rec, nextId)])[..|docs|] == docs;
        Step(docs + [Stored(rec, nextId)], nextId + 1, Ok(Created(nextId)))
  }

  /** Inserts a validated record and replies with its id. */
  method Create(store: DocumentStore, name: string, record: Result<Document, seq<string>>, fault: Option<string>)
    returns (r: Reply)
    modifies store
    ensures var s := CreateStep(old(store.Collection(name)), old(store.nextId), record, fault);
      r == s.reply && Applied(store, name, s)
  {
    if record.Failure? {
      return Invalid(record.error);
    }
    var inserted := store.CreateDocument(name, record.value, fault);
    match inserted
    case Failure(msg) => r := ServerError(msg);
    case Success(id) => r := Ok(Created(id));
  }

  /** POST /api/appointments */
  method CreateAppointment(store: DocumentStore, body: Document, fault: Option<string>) returns (r: Reply)
    modifies store
    ensures var s := CreateStep(old(store.Collection(AppointmentCollection)), old(store.nextId), AppointmentRecord(body), fault);
      r == s.reply && Applied(store, AppointmentCollection, s)
  {
    r := Create(store, AppointmentCollection, AppointmentRecord(body), fault);
  }

  /** POST /api/blogs */
  method CreateBlog(store: DocumentStore, body: Document, fault: Option<string>) returns (r: Reply)
    modifies store
    ensures var s := CreateStep(old(store.Collection(BlogPostCollection)), old(store.nextId), BlogPostRecord(body), fault);
      r == s.reply && Applied(store, BlogPostCollection, s)
  {
    r := Create(store, BlogPostCollection, BlogPostRecord(body), fault);
  }

  /** A stored appointment, as listed, still holds its dumped fields and reads back as the appointment. */
  lemma ListedAppointmentReadsBack(conv: Conv, a: Appointment, id: nat)
    ensures Extends(Normalize(conv, Stored(DumpAppointment(a), id)), DumpAppointment(a))
    ensures ValidateAppointment(Normalize(conv, Stored(DumpAppointment(a), id))) == Success(a)
  {
    var record := DumpAppointment(a);
    assert record.Keys !! NormalizedKeys;
    NormalizeKeepsRecord(conv, Stored(record, id), record);
    ValidateAppointmentOfDump(Normalize(conv, Stored(record, id)), a);
  }

  /** A stored blog post, as listed, still holds its dumped fields and reads back as the post. */
  lemma ListedBlogPostReadsBack(conv: Conv, p: BlogPost, id: nat)
    ensures Extends(Normalize(conv, Stored(DumpBlogPost(p), id)), DumpBlogPost(p))
    ensures ValidateBlogPost(Normalize(conv, Stored(DumpBlogPost(p), id))) == Success(p)
  {
    var record := DumpBlogPost(p);
    assert record.Keys !! NormalizedKeys;
    NormalizeKeepsRecord(conv, Stored(record, id), record);
    ValidateBlogPostOfDump(Normalize(conv, Stored(record, id)), p);
  }

  /** The listed form of a collection with one more document appended. */
  lemma ListedAfterAppend(conv: Conv, docs: seq<Document>, d: Document)
    ensures var items := NormalizeAll(conv, Select(docs + [d], map[]));
      |items| == |docs| + 1 && items[|docs|] == Normalize(conv, d)
  {
    SelectEverything(docs + [d]);
  }

  /** An appointment just created is listed last, its fields as validated. */
  lemma CreatedAppointmentIsListed(conv: Conv, docs: seq<Document>, nextId: nat, body: Document)
    requires ValidateAppointment(body).Success?
    ensures var s := CreateStep(docs, nextId, AppointmentRecord(body), None);
      var items := NormalizeAll(conv, Select(s.docs, AppointmentFilter(None, None)));
      && |items| == |docs| + 1
      && Extends(items[|docs|], DumpAppointment(ValidateAppointment(body).value))
      && ValidateAppointment(items[|docs|]) == ValidateAppointment(body)
  {
    var a := ValidateAppointment(body).value;
    var stored := Stored(DumpAppointment(a), nextId);
    assert CreateStep(docs, nextId, AppointmentRecord(body), None).docs == docs + [stored];
    assert AppointmentFilter(None, None) == map[];
    ListedAfterAppend(conv, docs, stored);
    ListedAppointmentReadsBack(conv, a, nextId);
  }

  /** A blog post just created is listed last, its fields as validated. */
  lemma CreatedBlogPostIsListed(conv: Conv, docs: seq<Document>, nextId: nat, body: Document)
    requires ValidateBlogPost(body).Success?
    ensures var s := CreateStep(docs, nextId, BlogPostRecord(body), None);
      var items := NormalizeAll(conv, Select(s.docs, BlogFilter(None)));
      && |items| == |docs| + 1
      && Extends(items[|docs|], DumpBlogPost(ValidateBlogPost(body).value))
      && ValidateBlogPost(items[|docs|]) == ValidateBlogPost(body)
  {
    var p := ValidateBlogPost(body).value;
    var stored := Stored(DumpBlogPost(p), nextId);
    assert CreateStep(docs, nextId, BlogPostRecord(body), None).docs == docs + [stored];
    assert BlogFilter(None) == map[];
    ListedAfterAppend(conv, docs, stored);
    ListedBlogPostReadsBack(conv, p, nextId);
  }

  // -------------------------------------------------------- settings handlers

  /**
   * The settings served while none are stored: the notification email is
   * DEFAULT_EMAIL when that is set (even to ""), "doctor@example.com"
   * otherwise, and the five default slots. It carries no `_id`.
   */
  function DefaultSettings(defaultEmail: Option<string>): (d: Document)
    ensures d.Keys == DoctorSettingsFields
    ensures ValidateSettings(d) ==
      Success(DoctorSettings(if defaultEmail.Some? then defaultEmail.value else FallbackEmail, Some(DefaultSlots)))
  {
    var email := if defaultEmail.Some? then defaultEmail.value else FallbackEmail;
    var d := map["notification_email" := Str(email), "available_slots" := List(StrValues(DefaultSlots))];
    ValidateSettingsOfDump(d, DoctorSettings(email, Some(DefaultSlots)));
    d
  }

  /** The settings GET /api/settings serves: the first stored document with only `_id` stringified, else the default. */
  function SettingsView(conv: Conv, docs: seq<Document>, defaultEmail: Option<string>): (d: Document)
    ensures docs == [] ==> d == DefaultSettings(defaultEmail)
    ensures docs != [] ==>
      && d.Keys == docs[0].Keys + {"_id"}
      && d["_id"] == (if "_id" in docs[0] then Str(conv.str(docs[0]["_id"])) else Null)
      && forall k :: k in docs[0] && k != "_id" ==> d[k] == docs[0][k]
  {
    if docs == [] then DefaultSettings(defaultEmail)
    else docs[0]["_id" := StringifiedId(conv, docs[0])]
  }

  /** GET /api/settings. It only reads the store (no modifies clause). */
  method GetSettings(store: DocumentStore, conv: Conv, defaultEmail: Option<string>, fault: Option<string>)
    returns (r: Reply)
    ensures fault.Some? ==> r == ServerError(fault.value)
    ensures fault.None? ==> r == Ok(Settings(SettingsView(conv, store.Collection(SettingsCollection), defaultEmail)))
  {
    var found := store.GetDocuments(SettingsCollection, map[], fault);
    if found.Failure? {
      return ServerError(found.error);
    }
    SelectEverything(store.Collection(SettingsCollection));
    var docs := found.value;
    if docs != [] {
      var d := docs[0];
      d := d["_id" := StringifiedId(conv, d)];
      return Ok(Settings(d));
    }
    r := Ok(Settings(DefaultSettings(defaultEmail)));
  }

  /** The `$set` payload of an update: the dumped settings and the update time. */
  function SettingsData(payload: DoctorSettings, now: Timestamp): (data: Document)
    ensures data.Keys == DoctorSettingsFields + {"updated_at"}
    ensures Extends(data, DumpSettings(payload)) && data["updated_at"] == DateTime(now)
  {
    DumpSettings(payload)["updated_at" := DateTime(now)]
  }

  /**
   * What POST /api/settings does to the settings collection, given a valid
   * payload: with documents present, `$set` the payload and `updated_at`
   * into the first one (by its `_id`); with none, insert the payload alone.
   */
  function UpdateSettingsStep(docs: seq<Document>, nextId: nat, payload: DoctorSettings, now: Timestamp,
                              findFault: Option<string>, writeFault: Option<string>): (s: Step)
    ensures !s.reply.Ok? ==> s.docs == docs && s.nextId == nextId
    ensures findFault.Some? ==> s.reply == ServerError(findFault.value)
    ensures findFault.None? && docs != [] && "_id" !in docs[0] ==> s.reply == ServerError(MissingIdMessage)
    ensures findFault.None? && docs != [] && "_id" in docs[0] && writeFault.Some? ==> s.reply == ServerError(writeFault.value)
    ensures findFault.None? && docs == [] && writeFault.Some? ==> s.reply == ServerError(writeFault.value)
    ensures |s.docs| == if docs == [] && s.reply.Ok? then 1 else |docs|
    // PRESENT: the first document is merged into, the others are left alone
    ensures findFault.None? && writeFault.None? && docs != [] && "_id" in docs[0] ==>
      && s.reply == Ok(SettingsUpdated) && s.nextId == nextId && s.docs[1..] == docs[1..]
      && s.docs[0].Keys == docs[0].Keys + DoctorSettingsFields + {"updated_at"}
      && Extends(s.docs[0], DumpSettings(payload)) && s.docs[0]["updated_at"] == DateTime(now)
      && (forall k :: k in docs[0] && k !in DoctorSettingsFields && k != "updated_at" ==> s.docs[0][k] == docs[0][k])
    // ABSENT: one document holding the payload, with no `updated_at`
    ensures findFault.None? && writeFault.None? && docs == [] ==>
      && s.reply == Ok(SettingsCreated) && s.nextId == nextId + 1
      && s.docs[0].Keys == DoctorSettingsFields + {"_id"}
      && Extends(s.docs[0], DumpSettings(payload)) && s.docs[0]["_id"] == ObjectId(nextId)
    ensures s.reply.Ok? ==> ValidateSettings(s.docs[0]) == Success(payload)
  {
    if findFault.Some? then Step(docs, nextId, ServerError(findFault.value))
    else if docs != [] then
      if "_id" !in docs[0] then Step(docs, nextId, ServerError(MissingIdMessage))
      else if writeFault.Some? then Step(docs, nextId, ServerError(writeFault.value))
      else
        var updated := SetFirst(docs, map["_id" := docs[0]["_id"]], SettingsData(payload, now));
        ValidateSettingsOfDump(updated[0], payload);
        Step(updated, nextId, Ok(SettingsUpdated))
    else if writeFault.Some? then Step(docs, nextId, ServerError(writeFault.value))
    else
      var created := Stored(DumpSettings(payload), nextId);
      ValidateSettingsOfDump(created, payload);
      Step([created], nextId + 1, Ok(SettingsCreated))
  }

  /** POST /api/settings: validate, read the collection, then update the first document or insert. */
  method UpdateSettings(store: DocumentStore, body: Document, now: Timestamp,
                        findFault: Option<string>, writeFault: Option<string>) returns (r: Reply)
    modifies store
    ensures ValidateSettings(body).Failure? ==> r == Invalid(ValidateSettings(body).error) && unchanged(store)
    ensures ValidateSettings(body).Success? ==>
      var s := UpdateSettingsStep(old(store.Collection(SettingsCollection)), old(store.nextId),
                                  ValidateSettings(body).value, now, findFault, writeFault);
      r == s.reply && Applied(store, SettingsCollection, s)
  {
    var validated := ValidateSettings(body);
    if validated.Failure? {
      return Invalid(validated.error);
    }
    var payload := validated.value;
    var existing := store.GetDocuments(SettingsCollection, map[], findFault);
    if existing.Failure? {
      return ServerError(existing.error);
    }
    SelectEverything(store.Collection(SettingsCollection));
    var data := DumpSettings(payload);
    data := data["updated_at" := DateTime(now)];
    if existing.value != [] {
      if "_id" !in existing.value[0] {
        return ServerError(MissingIdMessage);
      }
      var id := existing.value[0]["_id"];
      var written := store.UpdateOne(SettingsCollection, map["_id" := id], data, writeFault);
      if written.Fail? {
        return ServerError(written.error);
      }
      r := Ok(SettingsUpdated);
      assert data == SettingsData(payload, now);
    } else {
      var created := store.CreateDocument(SettingsCollection, DumpSettings(payload), writeFault);
      if created.Failure? {
        return ServerError(created.error);
      }
      r := Ok(SettingsCreated);
      assert old(store.Collection(SettingsCollection)) + [Stored(DumpSettings(payload), old(store.nextId))]
          == [Stored(DumpSettings(payload), old(store.nextId))];
    }
  }

  /** At most one settings document stays at most one: sequential updates never duplicate it. */
  lemma UpdateKeepsSingleton(docs: seq<Document>, nextId: nat, payload: DoctorSettings, now: Timestamp,
                             findFault: Option<string>, writeFault: Option<string>)
    requires |docs| <= 1
    ensures |UpdateSettingsStep(docs, nextId, payload, now, findFault, writeFault).docs| <= 1
  {
  }

  /**
   * Upsert law: from no settings, update(a) then update(b) leaves exactly one
   * document, which reads back as b and holds nothing of a beyond its `_id`.
   */
  lemma UpsertLaw(nextId: nat, a: DoctorSettings, b: DoctorSettings, t1: Timestamp, t2: Timestamp)
    ensures var s1 := UpdateSettingsStep([], nextId, a, t1, None, None);
      var s2 := UpdateSettingsStep(s1.docs, s1.nextId, b, t2, None, None);
      && s1.reply == Ok(SettingsCreated) && s2.reply == Ok(SettingsUpdated)
      && |s2.docs| == 1
      && s2.docs[0].Keys == {"_id", "notification_email", "available_slots", "updated_at"}
      && s2.docs[0]["_id"] == ObjectId(nextId)
      && ValidateSettings(s2.docs[0]) == Success(b)
  {
  }

  /** GET /api/settings after a successful POST /api/settings serves what was posted. */
  lemma GetServesLastUpdate(conv: Conv, docs: seq<Document>, nextId: nat, payload: DoctorSettings, now: Timestamp,
                            defaultEmail: Option<string>)
    ensures var s := UpdateSettingsStep(docs, nextId, payload, now, None, None);
      s.reply.Ok? ==> ValidateSettings(SettingsView(conv, s.docs, defaultEmail)) == Success(payload)
  {
    var s := UpdateSettingsStep(docs, nextId, payload, now, None, None);
    if s.reply.Ok? {
      ValidateSettingsOfDump(SettingsView(conv, s.docs, defaultEmail), payload);
    }
  }
}
