/** The record, payload and error types of the health record canister, the
    derived `Default` record, and medication tracking on a single record. */
module Types {

  datatype Option<+T> = None | Some(value: T)

  datatype Result<+T, +E> = Ok(value: T) | Err(error: E)

  /** The canister's error enum. Only `NotFound` and `GenerateFailed` are ever
      built by the endpoints; `NotDoctor` and `InputValidationFailed` are
      declared and never constructed. */
  datatype Error =
    | NotFound(msg: string)
    | NotDoctor
    | GenerateFailed(msg: string)
    | InputValidationFailed(msg: string)

  /** One patient health record. Ids, ages and timestamps are unbounded
      naturals here (u64 / u32 in the canister). */
  datatype HealthRecord = HealthRecord(
    id: nat,
    doctorPrincipal: string,
    patientName: string,
    age: nat,
    symptoms: string,
    diagnosis: string,
    medications: string,
    medicationHistory: seq<string>,
    monitoringData: string,
    createdAt: nat,
    updatedAt: Option<nat>)
  {
    /** Pushes one medication onto the end of the history; every other field,
        `updatedAt` included, is left as it was. */
    function TrackMedication(medication: string): (r: HealthRecord)
      ensures |r.medicationHistory| == |medicationHistory| + 1
      ensures r.medicationHistory[|medicationHistory|] == medication
      ensures forall i :: 0 <= i < |medicationHistory| ==> r.medicationHistory[i] == medicationHistory[i]
      ensures r.(medicationHistory := medicationHistory) == this
    {
      this.(medicationHistory := medicationHistory + [medication])
    }
  }

  /** The input of create and update: the six clinical fields and nothing else
      (no id, no history, no timestamps, no principal). */
  datatype PatientUpdatePayload = PatientUpdatePayload(
    patientName: string,
    age: nat,
    symptoms: string,
    diagnosis: string,
    medications: string,
    monitoringData: string)

  /** The record that `#[derive(Default)]` produces. It is blank: id 0,
      empty strings, age 0, no history, created at time 0, never updated. */
  function DefaultHealthRecord(): (d: HealthRecord)
    ensures d.id == 0 && d.age == 0 && d.createdAt == 0 && d.updatedAt == None
    ensures d.medicationHistory == [] && d.doctorPrincipal == ""
    ensures Carries(d, PatientUpdatePayload("", 0, "", "", "", ""))
  {
    HealthRecord(0, "", "", 0, "", "", "", [], "", 0, None)
  }

  /** `r` holds exactly the payload's values in its six clinical fields. */
  predicate Carries(r: HealthRecord, payload: PatientUpdatePayload)
  {
    && r.patientName == payload.patientName
    && r.age == payload.age
    && r.symptoms == payload.symptoms
    && r.diagnosis == payload.diagnosis
    && r.medications == payload.medications
    && r.monitoringData == payload.monitoringData
  }

  /** The record reached from `r` by tracking each medication of `meds` in turn. */
  function TrackEach(r: HealthRecord, meds: seq<string>): HealthRecord
    decreases |meds|
  {
    if meds == [] then r else TrackEach(r.TrackMedication(meds[0]), meds[1..])
  }

  /** Tracking n medications one after another appends exactly those n entries,
      in call order, after the existing history, and changes nothing else. */
  lemma {:induction false} TrackEachAppendsInOrder(r: HealthRecord, meds: seq<string>)
    ensures TrackEach(r, meds).medicationHistory == r.medicationHistory + meds
    ensures TrackEach(r, meds).(medicationHistory := r.medicationHistory) == r
    decreases |meds|
  {
    if meds != [] {
      var r' := r.TrackMedication(meds[0]);
      TrackEachAppendsInOrder(r', meds[1..]);
      assert r'.medicationHistory == r.medicationHistory + [meds[0]];
      assert meds == [meds[0]] + meds[1..];
      assert r.medicationHistory + [meds[0]] + meds[1..] == r.medicationHistory + meds;
    }
  }
}
