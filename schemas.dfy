/**
 * The three record shapes of the service and their validation (Pydantic's
 * `model_validate`) and serialisation (`model_dump`). Validation is what fills
 * in the declared defaults; it ignores fields the schema does not declare.
 * Email and date formats are not checked: both are plain strings here.
 */
module Schemas {
  import opened Wrappers
  import opened Values

  /** Collection "appointment": a booking made by a patient. */
  datatype Appointment = Appointment(
    name: string,
    email: string,
    phone: Option<string>,
    date: string,
    time: string,
    note: Option<string>,
    status: string)

  /** Collection "blogpost": a post by the doctor. */
  datatype BlogPost = BlogPost(
    title: string,
    content: string,
    coverImage: Option<string>,
    tags: seq<string>,
    published: bool)

  /** Collection "doctorsettings": the admin-editable settings record. */
  datatype DoctorSettings = DoctorSettings(
    notificationEmail: string,
    availableSlots: Option<seq<string>>)

  const DefaultStatus: string := "pending"

  const AppointmentFields: set<string> := {"name", "email", "phone", "date", "time", "note", "status"}
  const BlogPostFields: set<string> := {"title", "content", "cover_image", "tags", "published"}
  const DoctorSettingsFields: set<string> := {"notification_email", "available_slots"}

  // Well-typed fields: what each declared field of a request body may hold.

  /** A required `str` field: present and a string. */
  predicate StrField(body: Document, key: string) {
    key in body && body[key].Str?
  }

  /** A `str` field with a default: absent or a string. */
  predicate StrFieldOrAbsent(body: Document, key: string) {
    key !in body || body[key].Str?
  }

  /** An `Optional[str]` field: absent, null or a string. */
  predicate OptionalStrField(body: Document, key: string) {
    key !in body || body[key] == Null || body[key].Str?
  }

  /** An array of strings. */
  predicate StrList(v: Value) {
    v.List? && forall i :: 0 <= i < |v.elems| ==> v.elems[i].Str?
  }

  /** A `List[str]` field with a default: absent or an array of strings. */
  predicate StrListField(body: Document, key: string) {
    key !in body || StrList(body[key])
  }

  /** An `Optional[List[str]]` field with a default: absent, null or an array of strings. */
  predicate OptionalStrListField(body: Document, key: string) {
    key !in body || body[key] == Null || StrList(body[key])
  }

  /** A `bool` field with a default: absent or a boolean. */
  predicate BoolField(body: Document, key: string) {
    key !in body || body[key].Bool?
  }

  // Field readers. Each gives None exactly when the field is not well typed.

  /** A required `str` field. */
  function RequiredStr(body: Document, key: string): (r: Option<string>)
    ensures r.Some? <==> StrField(body, key)
  {
    if key in body && body[key].Str? then Some(body[key].s) else None
  }

  /** A `str` field with a default. */
  function StrOr(body: Document, key: string, default: string): (r: Option<string>)
    ensures r.Some? <==> StrFieldOrAbsent(body, key)
  {
    if key !in body then Some(default)
    else if body[key].Str? then Some(body[key].s)
    else None
  }

  /** An `Optional[str]` field defaulting to None: absent and null both read as None. */
  function OptionalStr(body: Document, key: string): (r: Option<Option<string>>)
    ensures r.Some? <==> OptionalStrField(body, key)
  {
    if key !in body || body[key] == Null then Some(None)
    else if body[key].Str? then Some(Some(body[key].s))
    else None
  }

  /** A `List[str]` field with a default. */
  function StrListOr(body: Document, key: string, default: seq<string>): (r: Option<seq<string>>)
    ensures r.Some? <==> StrListField(body, key)
  {
    if key !in body then Some(default)
    else if body[key].List? then StrsOf(body[key].elems)
    else None
  }

  /** An `Optional[List[str]]` field with a default list: null reads as None. */
  function OptionalStrListOr(body: Document, key: string, default: seq<string>): (r: Option<Option<seq<string>>>)
    ensures r.Some? <==> OptionalStrListField(body, key)
  {
    if key !in body then Some(Some(default))
    else if body[key] == Null then Some(None)
    else if body[key].List? then
      match StrsOf(body[key].elems)
      case None => None
      case Some(xs) => Some(Some(xs))
    else None
  }

  /** A `bool` field with a default. */
  function BoolOr(body: Document, key: string, default: bool): (r: Option<bool>)
    ensures r.Some? <==> BoolField(body, key)
  {
    if key !in body then Some(default)
    else if body[key].Bool? then Some(body[key].b)
    else None
  }

  /** The error entry for one field: its name when it is not well typed. */
  function Blame(key: string, ok: bool): seq<string> {
    if ok then [] else [key]
  }

  /** An `Optional[str]` as a JSON value. */
  function OptionalValue(o: Option<string>): Value {
    match o
    case None => Null
    case Some(s) => Str(s)
  }

  /** The Appointment field `key` of `body` holds a value of its declared type. */
  predicate AppointmentFieldOk(body: Document, key: string) {
    if key == "phone" || key == "note" then OptionalStrField(body, key)
    else if key == "status" then StrFieldOrAbsent(body, key)
    else StrField(body, key)
  }

  /** Every declared field of an Appointment body holds a value of its declared type. */
  predicate AppointmentWellTyped(body: Document) {
    && StrField(body, "name") && StrField(body, "email") && OptionalStrField(body, "phone")
    && StrField(body, "date") && StrField(body, "time") && OptionalStrField(body, "note")
    && StrFieldOrAbsent(body, "status")
  }

  /** The fields an Appointment body fails on: exactly the declared fields that are not well typed. */
  function AppointmentErrors(body: Document): (e: seq<string>)
    ensures forall k :: k in e <==> k in AppointmentFields && !AppointmentFieldOk(body, k)
    ensures e == [] <==> AppointmentWellTyped(body)
  {
    Blame("name", StrField(body, "name")) + Blame("email", StrField(body, "email"))
    + Blame("phone", OptionalStrField(body, "phone")) + Blame("date", StrField(body, "date"))
    + Blame("time", StrField(body, "time")) + Blame("note", OptionalStrField(body, "note"))
    + Blame("status", StrFieldOrAbsent(body, "status"))
  }

  /**
   * Validates a request body as an Appointment. `name`, `email`, `date` and
   * `time` are required; `phone` and `note` default to None, `status` to
   * "pending". A body is accepted exactly when it is well typed; otherwise
   * the error lists exactly the offending fields.
   */
  function ValidateAppointment(body: Document): (r: Result<Appointment, seq<string>>)
    ensures r.Success? <==> AppointmentWellTyped(body)
    ensures r.Failure? ==> r.error != [] && r.error == AppointmentErrors(body)
    ensures "name" !in body ==> r.Failure? && "name" in r.error
    ensures "email" !in body ==> r.Failure? && "email" in r.error
    ensures "date" !in body ==> r.Failure? && "date" in r.error
    ensures "time" !in body ==> r.Failure? && "time" in r.error
    ensures r.Success? ==>
      && Has(body, "name", Str(r.value.name)) && Has(body, "email", Str(r.value.email))
      && Has(body, "date", Str(r.value.date)) && Has(body, "time", Str(r.value.time))
    ensures r.Success? ==>
      if "status" in body then body["status"] == Str(r.value.status) else r.value.status == DefaultStatus
    ensures r.Success? ==>
      && (r.value.phone == None <==> "phone" !in body || body["phone"] == Null)
      && (r.value.phone.Some? ==> body["phone"] == Str(r.value.phone.value))
      && (r.value.note == None <==> "note" !in body || body["note"] == Null)
      && (r.value.note.Some? ==> body["note"] == Str(r.value.note.value))
  {
    if AppointmentWellTyped(body) then
      Success(Appointment(RequiredStr(body, "name").value, RequiredStr(body, "email").value,
                          OptionalStr(body, "phone").value, RequiredStr(body, "date").value,
                          RequiredStr(body, "time").value, OptionalStr(body, "note").value,
                          StrOr(body, "status", DefaultStatus).value))
    else
      Failure(AppointmentErrors(body))
  }

  /** `model_dump()` of an Appointment: every declared field, None as null. */
  function DumpAppointment(a: Appointment): (d: Document)
    ensures d.Keys == AppointmentFields
  {
    map["name" := Str(a.name), "email" := Str(a.email), "phone" := OptionalValue(a.phone),
        "date" := Str(a.date), "time" := Str(a.time), "note" := OptionalValue(a.note),
        "status" := Str(a.status)]
  }

  /** Any document that holds the dumped fields of `a`, whatever else it holds, validates to `a`. */
  lemma ValidateAppointmentOfDump(body: Document, a: Appointment)
    requires Extends(body, DumpAppointment(a))
    ensures ValidateAppointment(body) == Success(a)
  {
    var d := DumpAppointment(a);
    assert body["name"] == d["name"] && body["email"] == d["email"] && body["phone"] == d["phone"];
    assert body["date"] == d["date"] && body["time"] == d["time"] && body["note"] == d["note"];
    assert body["status"] == d["status"];
  }

  /** The BlogPost field `key` of `body` holds a value of its declared type. */
  predicate BlogPostFieldOk(body: Document, key: string) {
    if key == "cover_image" then OptionalStrField(body, key)
    else if key == "tags" then StrListField(body, key)
    else if key == "published" then BoolField(body, key)
    else StrField(body, key)
  }

  /** A body with only the four required fields is accepted, with the declared defaults for the rest. */
  lemma AppointmentDefaults(name: string, email: string, date: string, time: string)
    ensures ValidateAppointment(map["name" := Str(name), "email" := Str(email), "date" := Str(date), "time" := Str(time)])
         == Success(Appointment(name, email, None, date, time, None, DefaultStatus))
  {
  }

  /** Every declared field of a BlogPost body holds a value of its declared type. */
  predicate BlogPostWellTyped(body: Document) {
    && StrField(body, "title") && StrField(body, "content") && OptionalStrField(body, "cover_image")
    && StrListField(body, "tags") && BoolField(body, "published")
  }

  /** The fields a BlogPost body fails on: exactly the declared fields that are not well typed. */
  function BlogPostErrors(body: Document): (e: seq<string>)
    ensures forall k :: k in e <==> k in BlogPostFields && !BlogPostFieldOk(body, k)
    ensures e == [] <==> BlogPostWellTyped(body)
  {
    Blame("title", StrField(body, "title")) + Blame("content", StrField(body, "content"))
    + Blame("cover_image", OptionalStrField(body, "cover_image")) + Blame("tags", StrListField(body, "tags"))
    + Blame("published", BoolField(body, "published"))
  }

  /**
   * Validates a request body as a BlogPost. `title` and `content` are
   * required; `cover_image` defaults to None, `tags` to the empty list and
   * `published` to false. A body is accepted exactly when it is well typed.
   */
  function ValidateBlogPost(body: Document): (r: Result<BlogPost, seq<string>>)
    ensures r.Success? <==> BlogPostWellTyped(body)
    ensures r.Failure? ==> r.error != [] && r.error == BlogPostErrors(body)
    ensures "title" !in body ==> r.Failure? && "title" in r.error
    ensures "content" !in body ==> r.Failure? && "content" in r.error
    ensures r.Success? ==> Has(body, "title", Str(r.value.title)) && Has(body, "content", Str(r.value.content))
    ensures r.Success? ==>
      && (r.value.coverImage == None <==> "cover_image" !in body || body["cover_image"] == Null)
      && (r.value.coverImage.Some? ==> body["cover_image"] == Str(r.value.coverImage.value))
    ensures r.Success? ==>
      if "tags" in body then body["tags"] == List(StrValues(r.value.tags)) else r.value.tags == []
    ensures r.Success? ==>
      if "published" in body then body["published"] == Bool(r.value.published) else !r.value.published
  {
    if BlogPostWellTyped(body) then
      var tags := StrListOr(body, "tags", []).value;
      assert "tags" in body ==> body["tags"].elems == StrValues(tags);
      Success(BlogPost(RequiredStr(body, "title").value, RequiredStr(body, "content").value,
                       OptionalStr(body, "cover_image").value, tags, BoolOr(body, "published", false).value))
    else
      Failure(BlogPostErrors(body))
  }

  /** `model_dump()` of a BlogPost. */
  function DumpBlogPost(p: BlogPost): (d: Document)
    ensures d.Keys == BlogPostFields
  {
    map["title" := Str(p.title), "content" := Str(p.content), "cover_image" := OptionalValue(p.coverImage),
        "tags" := List(StrValues(p.tags)), "published" := Bool(p.published)]
  }

  /** Any document that holds the dumped fields of `p` validates to `p`. */
  lemma ValidateBlogPostOfDump(body: Document, p: BlogPost)
    requires Extends(body, DumpBlogPost(p))
    ensures ValidateBlogPost(body) == Success(p)
  {
    var d := DumpBlogPost(p);
    assert body["title"] == d["title"] && body["content"] == d["content"];
    assert body["cover_image"] == d["cover_image"] && body["published"] == d["published"];
    assert body["tags"] == d["tags"];
    StrsOfStrValues(p.tags);
  }

  /** A body with only a title and content is accepted: no cover image, no tags, not published. */
  lemma BlogPostDefaults(title: string, content: string)
    ensures ValidateBlogPost(map["title" := Str(title), "content" := Str(content)])
         == Success(BlogPost(title, content, None, [], false))
  {
  }

  /** The DoctorSettings field `key` of `body` holds a value of its declared type. */
  predicate SettingsFieldOk(body: Document, key: string) {
    if key == "available_slots" then OptionalStrListField(body, key) else StrField(body, key)
  }

  /** Both declared fields of a DoctorSettings body hold values of their declared types. */
  predicate SettingsWellTyped(body: Document) {
    StrField(body, "notification_email") && OptionalStrListField(body, "available_slots")
  }

  /** The fields a DoctorSettings body fails on: exactly the declared fields that are not well typed. */
  function SettingsErrors(body: Document): (e: seq<string>)
    ensures forall k :: k in e <==> k in DoctorSettingsFields && !SettingsFieldOk(body, k)
    ensures e == [] <==> SettingsWellTyped(body)
  {
    Blame("notification_email", StrField(body, "notification_email"))
    + Blame("available_slots", OptionalStrListField(body, "available_slots"))
  }

  /**
   * Validates a request body as DoctorSettings. `notification_email` is
   * required; `available_slots` defaults to the empty list and may be null.
   * A body is accepted exactly when it is well typed.
   */
  function ValidateSettings(body: Document): (r: Result<DoctorSettings, seq<string>>)
    ensures r.Success? <==> SettingsWellTyped(body)
    ensures r.Failure? ==> r.error != [] && r.error == SettingsErrors(body)
    ensures "notification_email" !in body ==> r.Failure? && "notification_email" in r.error
    ensures r.Success? ==> Has(body, "notification_email", Str(r.value.notificationEmail))
    ensures r.Success? && "available_slots" !in body ==> r.value.availableSlots == Some([])
    ensures r.Success? && "available_slots" in body ==>
      match r.value.availableSlots
      case None => body["available_slots"] == Null
      case Some(xs) => body["available_slots"] == List(StrValues(xs))
  {
    if SettingsWellTyped(body) then
      var slots := OptionalStrListOr(body, "available_slots", []).value;
      assert "available_slots" in body && slots.Some? ==>
        body["available_slots"].elems == StrValues(slots.value);
      Success(DoctorSettings(RequiredStr(body, "notification_email").value, slots))
    else
      Failure(SettingsErrors(body))
  }

  /** `model_dump()` of DoctorSettings: `available_slots` None is dumped as null. */
  function DumpSettings(s: DoctorSettings): (d: Document)
    ensures d.Keys == DoctorSettingsFields
  {
    map["notification_email" := Str(s.notificationEmail),
        "available_slots" := match s.availableSlots case None => Null case Some(xs) => List(StrValues(xs))]
  }

  /** Any document that holds the dumped fields of `s` validates to `s`. */
  lemma ValidateSettingsOfDump(body: Document, s: DoctorSettings)
    requires Extends(body, DumpSettings(s))
    ensures ValidateSettings(body) == Success(s)
  {
    var d := DumpSettings(s);
    assert body["notification_email"] == d["notification_email"];
    assert body["available_slots"] == d["available_slots"];
    if s.availableSlots.Some? {
      StrsOfStrValues(s.availableSlots.value);
    }
  }

  /** A body with only a notification email is accepted, with no slots. */
  lemma SettingsDefaults(email: string)
    ensures ValidateSettings(map["notification_email" := Str(email)]) == Success(DoctorSettings(email, Some([])))
  {
  }
}
