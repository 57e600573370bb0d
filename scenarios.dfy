/**
 * Client calls of the handlers against a fresh store, verified against the
 * handlers' contracts and the schema lemmas: the booking, settings and
 * default-settings scenarios the service documents.
 */
module Scenarios {
  import opened Wrappers
  import opened Values
  import opened Schemas
  import opened Store
  import opened Api

  /** Book an appointment: it is stored with the first id and status "pending". */
  method BookingScenario(conv: Conv) {
    var store := new DocumentStore();
    var body := map["name" := Str("Jane Doe"), "email" := Str("jane@x.com"),
                    "date" := Str("2025-03-01"), "time" := Str("10:00")];
    var jane := Appointment("Jane Doe", "jane@x.com", None, "2025-03-01", "10:00", None, DefaultStatus);
    assert AppointmentRecord(body) == Success(DumpAppointment(jane)) by {
      AppointmentDefaults("Jane Doe", "jane@x.com", "2025-03-01", "10:00");
    }
    var created := CreateAppointment(store, body, None);
    assert created == Ok(Created(0));
    assert store.Collection(AppointmentCollection) == [] + [Stored(DumpAppointment(jane), 0)];
    ListBooking(store, conv, jane);
  }

  /** List by the email of the one booking: one item, which reads back as that booking. */
  method ListBooking(store: DocumentStore, conv: Conv, booked: Appointment)
    requires booked.email != ""
    requires store.Collection(AppointmentCollection) == [Stored(DumpAppointment(booked), 0)]
  {
    var listed := ListAppointments(store, conv, Some(booked.email), None, None);
    var stored := Stored(DumpAppointment(booked), 0);
    ListedAlone(conv, stored, booked.email);
    ListedAppointmentReadsBack(conv, booked, 0);
    assert listed == Ok(Items([Normalize(conv, stored)]));
    assert ValidateAppointment(listed.body.items[0]) == Success(booked);
  }

  /** Listing by email e a collection whose one document was booked with e lists that document alone. */
  lemma ListedAlone(conv: Conv, stored: Document, e: string)
    requires e != "" && Has(stored, "email", Str(e))
    ensures NormalizeAll(conv, Select([stored], AppointmentFilter(Some(e), None))) == [Normalize(conv, stored)]
  {
    ListedByEmail(conv, [stored], e);
    var items := NormalizeAll(conv, Select([stored], AppointmentFilter(Some(e), None)));
    assert Normalize(conv, stored) in items && |items| <= 1;
  }

  /** Post settings while none exist, then read them back. */
  method SettingsScenario(conv: Conv, now: Timestamp) {
    var store := new DocumentStore();
    var body := map["notification_email" := Str("doc@x.com"), "available_slots" := List([Str("09:00")])];
    var posted := DoctorSettings("doc@x.com", Some(["09:00"]));
    ValidateSettingsOfDump(body, posted);
    var r := UpdateSettings(store, body, now, None, None);
    assert r == Ok(SettingsCreated);
    assert |store.Collection(SettingsCollection)| == 1;

    var g := GetSettings(store, conv, None, None);
    GetServesLastUpdate(conv, [], 0, posted, now, None);
    assert g.Ok? && ValidateSettings(g.body.settings) == Success(posted);

    var again := GetSettings(store, conv, None, None);
    assert again == g;
  }

  /** Read settings before any write: the default, and nothing is stored. */
  method DefaultSettingsScenario(conv: Conv) {
    var store := new DocumentStore();
    var g := GetSettings(store, conv, None, None);
    assert g == Ok(Settings(DefaultSettings(None)));
    assert ValidateSettings(g.body.settings) == Success(DoctorSettings("doctor@example.com", Some(DefaultSlots)));
    assert store.collections == map[];
  }
}
