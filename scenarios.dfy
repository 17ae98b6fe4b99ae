/** Call sequences on a fresh store, stating what each sequence of endpoint
    calls leads to, including the two places where `add_medication_record`'s
    defaulted record interacts badly with the other update calls. */
module Scenarios {
  import opened Types
  import opened Store
  import opened Canister

  /** Create, update, track a medication, delete, then read and delete again.
      The first id is 0; tracking keeps the update's timestamp; after the
      delete the id reads as NotFound and a second delete fails. */
  method RecordLifecycle(t0: nat, t1: nat)
    returns (created: HealthRecord, updated: Result<HealthRecord, Error>, latest: Result<nat, Error>,
             history: Result<seq<string>, Error>, deleted: Result<HealthRecord, Error>,
             afterDelete: Result<HealthRecord, Error>, secondDelete: Result<HealthRecord, Error>)
    requires t0 <= t1
    ensures created.id == 0 && created.medicationHistory == [] && created.updatedAt == None
    ensures created.createdAt == t0 && created.patientName == "Jane Doe" && created.age == 30
    ensures updated.Ok? && updated.value.age == 31 && updated.value.updatedAt == Some(t1)
    ensures latest == Ok(t1)
    ensures history == Ok(["ibuprofen"])
    ensures deleted.Ok? && deleted.value.age == 31 && deleted.value.medicationHistory == ["ibuprofen"]
    ensures afterDelete == Err(NotFound(NotFoundMessage(0)))
    ensures secondDelete == Err(NotFound(DeleteNotFoundMessage(0)))
  {
    var store := new HealthStore();
    var jane := PatientUpdatePayload("Jane Doe", 30, "cough", "flu", "paracetamol", "stable");
    var r := AddHealthRecord(store, jane, t0);
    created := r.value;
    updated := UpdateHealthRecord(store, created.id, jane.(age := 31), t1);
    var tracked := AddMedicationRecord(store, created.id, "ibuprofen");
    assert [] + ["ibuprofen"] == ["ibuprofen"];
    latest := GetLatestHealthRecordByUpdateTime(store, created.id);
    history := GetMedicationHistory(store, created.id);
    deleted := DeleteHealthRecord(store, created.id);
    afterDelete := GetHealthRecord(store, created.id);
    secondDelete := DeleteHealthRecord(store, created.id);
  }

  /** Deleting the only record does not give its id back: the next create
      gets the following id. */
  method IdsNotReusedAfterDelete(payload: PatientUpdatePayload, t0: nat, t1: nat)
    returns (first: nat, second: nat, total: nat)
    requires t0 <= t1
    ensures first == 0 && second == 1 && first != second
    ensures total == 1
  {
    var store := new HealthStore();
    var a := AddHealthRecord(store, payload, t0);
    first := a.value.id;
    var d := DeleteHealthRecord(store, first);
    var b := AddHealthRecord(store, payload, t1);
    second := b.value.id;
    total := GetTotalHealthRecords(store);
  }

  /** Tracking a medication under key 5 of an empty store creates a default
      record whose own id is 0. Updating key 5 then writes the updated record
      under key 0 and leaves key 5 as it was; the report for key 5 shows ID 0. */
  method UpsertedRecordUpdateLandsOnKeyZero(payload: PatientUpdatePayload, now: nat)
    returns (records: map<nat, HealthRecord>, updated: Result<HealthRecord, Error>, report: Result<string, Error>)
    ensures updated.Ok? && updated.value.id == 0
    ensures records.Keys == {0, 5}
    ensures records[0] == updated.value && Carries(records[0], payload)
    ensures records[5].medicationHistory == ["aspirin"] && records[5].updatedAt == None
    ensures records[5].patientName == "" && records[5].id == 0
    ensures report.Ok? && report.value == Report(records[5])
  {
    var store := new HealthStore();
    var tracked := AddMedicationRecord(store, 5, "aspirin");
    updated := UpdateHealthRecord(store, 5, payload, now);
    records := store.records;
    report := GenerateHealthReport(store, 5);
  }

  /** Tracking a medication under key 0 of an empty store creates a record the
      counter has not yet reached; the next create is handed id 0 and replaces
      it, medication history and all. */
  method CreateOverwritesUpsertedRecord(payload: PatientUpdatePayload, now: nat)
    returns (before: Result<seq<string>, Error>, created: Option<HealthRecord>,
             after: Result<seq<string>, Error>, total: nat)
    ensures before == Ok(["aspirin"])
    ensures created.Some? && created.value.id == 0
    ensures after == Ok([])
    ensures total == 1
  {
    var store := new HealthStore();
    var tracked := AddMedicationRecord(store, 0, "aspirin");
    assert [] + ["aspirin"] == ["aspirin"];
    before := GetMedicationHistory(store, 0);
    created := AddHealthRecord(store, payload, now);
    after := GetMedicationHistory(store, 0);
    total := GetTotalHealthRecords(store);
  }

  /** After a real create (id 0), tracking a medication under the unknown key
      7 and then updating key 7 replaces record 0 with the updated default
      record: created at time 0, carrying the tracked history, while key 7
      keeps its blank record. */
  method UpsertedRecordUpdateReplacesRecordZero(
    first: PatientUpdatePayload, second: PatientUpdatePayload, t0: nat, t1: nat)
    returns (created: HealthRecord, records: map<nat, HealthRecord>)
    requires t0 <= t1
    ensures created.id == 0 && created.createdAt == t0 && created.medicationHistory == []
    ensures records.Keys == {0, 7}
    ensures records[0].createdAt == 0 && records[0].medicationHistory == ["m"]
    ensures Carries(records[0], second) && records[0].updatedAt == Some(t1)
    ensures records[7].medicationHistory == ["m"] && records[7].updatedAt == None
  {
    var store := new HealthStore();
    var r := AddHealthRecord(store, first, t0);
    created := r.value;
    var tracked := AddMedicationRecord(store, 7, "m");
    assert [] + ["m"] == ["m"];
    var updated := UpdateHealthRecord(store, 7, second, t1);
    records := store.records;
  }
}
