/** The canister's endpoints. The update calls are methods that change the
    shared `HealthStore`; six query calls are functions that read it, and the
    listing of all records is a method whose loop stands for the map
    iteration. The host clock is the explicit `now` parameter. Nothing is validated and no caller
    identity is consulted: every endpoint does only what its lookup decides. */
module Canister {
  import opened Types
  import opened Store

  // ---------------------------------------------------------------------
  // Decimal rendering, as `format!("{}")` writes an unsigned integer.

  predicate IsDigits(s: string)
  {
    forall i :: 0 <= i < |s| ==> '0' <= s[i] <= '9'
  }

  function DigitValue(c: char): (d: nat)
    requires '0' <= c <= '9'
    ensures d < 10
  {
    c as int - '0' as int
  }

  function DigitChar(d: nat): (c: char)
    requires d < 10
    ensures '0' <= c <= '9' && DigitValue(c) == d
  {
    ('0' as int + d) as char
  }

  /** The decimal digits of `n`: never empty, digits only, no leading zero. */
  function Decimal(n: nat): (s: string)
    ensures |s| >= 1 && IsDigits(s)
    ensures s[0] == '0' <==> n == 0
    ensures n == 0 ==> s == "0"
    decreases n
  {
    if n < 10 then [DigitChar(n)] else Decimal(n / 10) + [DigitChar(n % 10)]
  }

  /** Reads a string of decimal digits back as a number. */
  function ParseDecimal(s: string): nat
    requires IsDigits(s)
    decreases |s|
  {
    if s == [] then 0 else ParseDecimal(s[..|s| - 1]) * 10 + DigitValue(s[|s| - 1])
  }

  /** The rendering loses nothing: parsing it gives the number back. */
  lemma {:induction false} DecimalRoundTrip(n: nat)
    ensures ParseDecimal(Decimal(n)) == n
    decreases n
  {
    var s := Decimal(n);
    if n >= 10 {
      DecimalRoundTrip(n / 10);
      assert s[..|s| - 1] == Decimal(n / 10);
    } else {
      assert s[..|s| - 1] == [];
    }
  }

  // ---------------------------------------------------------------------
  // Messages carried by the NotFound and GenerateFailed errors.

  /** `m` is `prefix`, then the decimal digits of `id`, then `suffix`: the
      id can be read back out of the message. */
  predicate NamesId(m: string, prefix: string, suffix: string, id: nat)
  {
    && |prefix| + |suffix| <= |m|
    && m[..|prefix|] == prefix
    && m[|m| - |suffix|..] == suffix
    && IsDigits(m[|prefix|..|m| - |suffix|])
    && ParseDecimal(m[|prefix|..|m| - |suffix|]) == id
  }

  /** A message names exactly one id. */
  lemma NamesOneId(m: string, prefix: string, suffix: string, a: nat, b: nat)
    requires NamesId(m, prefix, suffix, a) && NamesId(m, prefix, suffix, b)
    ensures a == b
  {
  }

  lemma {:induction false} FramedNamesId(prefix: string, id: nat, suffix: string)
    ensures NamesId(prefix + Decimal(id) + suffix, prefix, suffix, id)
  {
    var m := prefix + Decimal(id) + suffix;
    assert m[..|prefix|] == prefix;
    assert m[|m| - |suffix|..] == suffix;
    assert m[|prefix|..|m| - |suffix|] == Decimal(id);
    DecimalRoundTrip(id);
  }

  const NotFoundPrefix := "a health record with id="
  const NotFoundSuffix := " not found"
  const UpdateNotFoundPrefix := "couldn't update a health record with id="
  const UpdateNotFoundSuffix := ". record not found"
  const DeleteNotFoundPrefix := "couldn't delete a health record with id="
  const DeleteNotFoundSuffix := ". record not found."

  /** The message of get, history, latest-activity and report errors. */
  function NotFoundMessage(id: nat): (m: string)
    ensures NamesId(m, NotFoundPrefix, NotFoundSuffix, id)
  {
    FramedNamesId(NotFoundPrefix, id, NotFoundSuffix);
    NotFoundPrefix + Decimal(id) + NotFoundSuffix
  }

  /** The message of update's NotFound. */
  function UpdateNotFoundMessage(id: nat): (m: string)
    ensures NamesId(m, UpdateNotFoundPrefix, UpdateNotFoundSuffix, id)
  {
    FramedNamesId(UpdateNotFoundPrefix, id, UpdateNotFoundSuffix);
    UpdateNotFoundPrefix + Decimal(id) + UpdateNotFoundSuffix
  }

  /** The message of delete's NotFound. */
  function DeleteNotFoundMessage(id: nat): (m: string)
    ensures NamesId(m, DeleteNotFoundPrefix, DeleteNotFoundSuffix, id)
  {
    FramedNamesId(DeleteNotFoundPrefix, id, DeleteNotFoundSuffix);
    DeleteNotFoundPrefix + Decimal(id) + DeleteNotFoundSuffix
  }

  // ---------------------------------------------------------------------
  // Update calls.

  /** `after` is `before` with the payload written over its six clinical fields
      and `updatedAt` stamped; id, principal, history and creation time kept. */
  predicate UpdatedFrom(after: HealthRecord, before: HealthRecord, payload: PatientUpdatePayload, now: nat)
  {
    && Carries(after, payload)
    && after.updatedAt == Some(now)
    && after.id == before.id
    && after.doctorPrincipal == before.doctorPrincipal
    && after.medicationHistory == before.medicationHistory
    && after.createdAt == before.createdAt
  }

  /** `add_health_record`: takes the counter's current value as the new id and
      bumps the counter, stores a fresh record (principal left at its default
      empty string, no history, never updated) under that id, and always
      succeeds. The id was never handed out before. */
  method AddHealthRecord(store: HealthStore, record: PatientUpdatePayload, now: nat) returns (r: Option<HealthRecord>)
    requires store.Valid()
    requires now >= store.clock
    modifies store
    ensures store.Valid() && store.clock == now
    ensures r.Some?
    ensures r.value.id == old(store.counter) && store.counter == old(store.counter) + 1
    ensures r.value.id !in old(store.issued) && store.issued == old(store.issued) + {r.value.id}
    ensures Carries(r.value, record) && r.value.doctorPrincipal == ""
    ensures r.value.medicationHistory == [] && r.value.createdAt == now && r.value.updatedAt == None
    ensures store.records == old(store.records)[r.value.id := r.value]
    ensures GetHealthRecord(store, r.value.id) == Ok(r.value)
    ensures old(store.KeyedByOwnId()) ==> store.KeyedByOwnId()
  {
    var id := store.counter;
    store.counter := store.counter + 1;
    store.issued := store.issued + {id};
    store.clock := now;
    var healthRecord := HealthRecord(
      id, "", record.patientName, record.age, record.symptoms, record.diagnosis,
      record.medications, [], record.monitoringData, now, None);
    store.InsertHealthRecord(healthRecord);
    r := Some(healthRecord);
  }

  /** `update_health_record`: on a missing key, NotFound and no change. On a
      present key, the payload overwrites the clinical fields, `updatedAt`
      becomes `now`, and the result is re-inserted under its OWN `id` field,
      which is the looked-up key whenever records are keyed by their ids. */
  method UpdateHealthRecord(store: HealthStore, id: nat, payload: PatientUpdatePayload, now: nat)
    returns (r: Result<HealthRecord, Error>)
    requires now >= store.clock
    modifies store`records, store`clock
    ensures old(store.Valid()) ==> store.Valid()
    ensures id !in old(store.records) ==>
      r == Err(NotFound(UpdateNotFoundMessage(id))) && store.records == old(store.records)
      && store.clock == old(store.clock)
    ensures id in old(store.records) ==>
      && r.Ok?
      && UpdatedFrom(r.value, old(store.records)[id], payload, now)
      && store.records == old(store.records)[r.value.id := r.value]
      && store.clock == now
    ensures old(store.KeyedByOwnId()) ==> store.KeyedByOwnId()
    ensures old(store.KeyedByOwnId()) && id in old(store.records) ==>
      && store.records == old(store.records)[id := r.value]
      && GetLatestHealthRecordByUpdateTime(store, id) == Ok(now)
  {
    match store.Lookup(id)
    case Some(healthRecord) =>
      var updated := healthRecord.(
        patientName := payload.patientName,
        age := payload.age,
        symptoms := payload.symptoms,
        diagnosis := payload.diagnosis,
        medications := payload.medications,
        monitoringData := payload.monitoringData,
        updatedAt := Some(now));
      store.clock := now;
      store.InsertHealthRecord(updated);
      r := Ok(updated);
    case None =>
      r := Err(NotFound(UpdateNotFoundMessage(id)));
  }

  /** `delete_health_record`: removes the key and returns what it held, or
      NotFound with the map unchanged. Either way the key is absent after. */
  method DeleteHealthRecord(store: HealthStore, id: nat) returns (r: Result<HealthRecord, Error>)
    modifies store`records
    ensures old(store.Valid()) ==> store.Valid()
    ensures id in old(store.records) ==>
      r == Ok(old(store.records)[id]) && store.records == old(store.records) - {id}
    ensures id !in old(store.records) ==>
      r == Err(NotFound(DeleteNotFoundMessage(id))) && store.records == old(store.records)
    ensures !HealthRecordExists(store, id)
    ensures old(store.KeyedByOwnId()) ==> store.KeyedByOwnId()
  {
    match store.Lookup(id)
    case Some(healthRecord) =>
      store.records := store.records - {id};
      r := Ok(healthRecord);
    case None =>
      r := Err(NotFound(DeleteNotFoundMessage(id)));
  }

  /** `add_medication_record`: an unknown key first gets a `Default` record
      (whose own `id` is 0, whatever the key); then the medication is appended
      to the history under that key. Always Ok; `updatedAt` is untouched. The
      map stays keyed by record ids exactly when the key existed or is 0. */
  method AddMedicationRecord(store: HealthStore, id: nat, medication: string) returns (r: Result<(), Error>)
    modifies store`records
    ensures old(store.Valid()) ==> store.Valid()
    ensures r == Ok(())
    ensures var before := if id in old(store.records) then old(store.records)[id] else DefaultHealthRecord();
      store.records == old(store.records)[id := before.TrackMedication(medication)]
    ensures id in store.records
    ensures store.records[id].medicationHistory ==
      (if id in old(store.records) then old(store.records)[id].medicationHistory else []) + [medication]
    ensures id in old(store.records) ==>
      store.records[id].updatedAt == old(store.records)[id].updatedAt
      && GetLatestHealthRecordByUpdateTime(store, id) == old(GetLatestHealthRecordByUpdateTime(store, id))
    ensures id !in old(store.records) ==> store.records[id].id == 0
    ensures store.KeyedByOwnId() <==> old(store.KeyedByOwnId()) && (id in old(store.records) || id == 0)
  {
    ghost var before := store.records;
    if id !in store.records {
      var healthRecord := DefaultHealthRecord();
      store.records := store.records[id := healthRecord];
    }
    var found := store.Lookup(id);
    if found.Some? {
      var healthRecord := found.value.TrackMedication(medication);
      store.records := store.records[id := healthRecord];
    }
    r := Ok(());
    if store.KeyedByOwnId() {
      forall k | k in before
        ensures before[k].id == k
      {
        assert store.records[k].id == k;
      }
      assert id !in before ==> store.records[id].id == id;
    }
  }

  // ---------------------------------------------------------------------
  // Query calls.

  /** `get_health_record`: the stored record, or NotFound. */
  function GetHealthRecord(store: HealthStore, id: nat): (r: Result<HealthRecord, Error>)
    reads store
    ensures r.Ok? <==> id in store.records
    ensures r.Ok? ==> r.value == store.records[id]
    ensures r.Err? ==> r.error == NotFound(NotFoundMessage(id))
  {
    match store.Lookup(id)
    case Some(record) => Ok(record)
    case None => Err(NotFound(NotFoundMessage(id)))
  }

  /** `get_all_health_records`: one entry per stored record. The ghost `keys`
      says which key each entry came from; the order is not specified. */
  method GetAllHealthRecords(store: HealthStore) returns (all: seq<HealthRecord>, ghost keys: seq<nat>)
    ensures |all| == GetTotalHealthRecords(store)
    ensures forall i :: 0 <= i < |all| ==> all[i] in store.records.Values
    ensures forall k :: k in store.records ==> store.records[k] in all
    ensures |keys| == |all|
    ensures forall i :: 0 <= i < |keys| ==> keys[i] in store.records && all[i] == store.records[keys[i]]
    ensures forall i, j :: 0 <= i < j < |keys| ==> keys[i] != keys[j]
    ensures forall k :: k in store.records ==> k in keys
  {
    var rest := store.records.Keys;
    all, keys := [], [];
    while rest != {}
      invariant rest <= store.records.Keys
      invariant |all| == |keys| && |keys| + |rest| == |store.records|
      invariant forall i :: 0 <= i < |keys| ==>
        keys[i] in store.records && keys[i] !in rest && all[i] == store.records[keys[i]]
      invariant forall i, j :: 0 <= i < j < |keys| ==> keys[i] != keys[j]
      invariant forall k :: k in store.records ==> k in rest || k in keys
      decreases rest
    {
      var k :| k in rest;
      all := all + [store.records[k]];
      keys := keys + [k];
      rest := rest - {k};
    }
  }

  /** `get_medication_history`: the stored history, or NotFound. */
  function GetMedicationHistory(store: HealthStore, id: nat): (r: Result<seq<string>, Error>)
    reads store
    ensures r.Ok? <==> GetHealthRecord(store, id).Ok?
    ensures r.Ok? ==> r.value == GetHealthRecord(store, id).value.medicationHistory
    ensures r.Err? ==> r.error == NotFound(NotFoundMessage(id))
  {
    match store.Lookup(id)
    case Some(record) => Ok(record.medicationHistory)
    case None => Err(NotFound(NotFoundMessage(id)))
  }

  /** `get_total_health_records`: the number of stored keys. */
  function GetTotalHealthRecords(store: HealthStore): (n: nat)
    reads store
    ensures n == |store.records.Keys|
  {
    |store.records|
  }

  /** `get_latest_health_record_by_update_time`: the last update time, or the
      creation time of a record never updated; NotFound for a missing key. */
  function GetLatestHealthRecordByUpdateTime(store: HealthStore, id: nat): (r: Result<nat, Error>)
    reads store
    ensures r.Ok? <==> id in store.records
    ensures r.Ok? && store.records[id].updatedAt.Some? ==> r.value == store.records[id].updatedAt.value
    ensures r.Ok? && store.records[id].updatedAt.None? ==> r.value == store.records[id].createdAt
    ensures r.Err? ==> r.error == NotFound(NotFoundMessage(id))
  {
    match store.Lookup(id)
    case Some(record) =>
      Ok(match record.updatedAt case Some(t) => t case None => record.createdAt)
    case None => Err(NotFound(NotFoundMessage(id)))
  }

  /** `health_record_exists`: true exactly when get would succeed. */
  function HealthRecordExists(store: HealthStore, id: nat): (b: bool)
    reads store
    ensures b <==> GetHealthRecord(store, id).Ok?
  {
    id in store.records
  }

  /** The fixed report template, filled from the record's displayed fields.
      It opens with the patient's name and the record's own `id` field and
      closes with the monitoring data. */
  function Report(r: HealthRecord): (s: string)
    ensures var head := "Health Report for Patient " + r.patientName + " (ID: " + Decimal(r.id) + ")";
      |head| <= |s| && s[..|head|] == head
    ensures var tail := "\nMonitoring Data: " + r.monitoringData;
      |tail| <= |s| && s[|s| - |tail|..] == tail
  {
    "Health Report for Patient " + r.patientName + " (ID: " + Decimal(r.id) + ")\nAge: " + Decimal(r.age)
    + "\nSymptoms: " + r.symptoms + "\nDiagnosis: " + r.diagnosis + "\nMedications: " + r.medications
    + "\nMonitoring Data: " + r.monitoringData
  }

  /** `generate_health_report`: the report of the stored record, or
      GenerateFailed for a missing key. */
  function GenerateHealthReport(store: HealthStore, id: nat): (r: Result<string, Error>)
    reads store
    ensures r.Ok? <==> id in store.records
    ensures r.Ok? ==> r.value == Report(store.records[id])
    ensures r.Err? ==> r.error == GenerateFailed(NotFoundMessage(id))
  {
    match store.Lookup(id)
    case Some(record) => Ok(Report(record))
    case None => Err(GenerateFailed(NotFoundMessage(id)))
  }

  /** The report shows only the name, id, age and the four text fields: two
      records that agree on those give the same report, whatever their
      histories, principals and timestamps. */
  lemma ReportIgnoresHistoryAndTimes(a: HealthRecord, b: HealthRecord)
    requires a.patientName == b.patientName && a.id == b.id && a.age == b.age
    requires a.symptoms == b.symptoms && a.diagnosis == b.diagnosis
    requires a.medications == b.medications && a.monitoringData == b.monitoringData
    ensures Report(a) == Report(b)
  {
  }
}
