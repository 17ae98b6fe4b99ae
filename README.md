# Virtual healthcare assistant record store, in Dafny

This project models the backend canister of the virtual healthcare assistant:
a store of patient health records kept in a stable map from a `u64` id to a
`HealthRecord`, next to a stable `u64` id counter, and the eleven endpoints
that read and change them.

- `types.dfy` (module `Types`) holds the record, the update payload, the error
  enum, the derived `Default` record and `track_medication`. Records are values
  (the canister clones them out of the map and inserts them back), so
  `track_medication`, which pushes onto a local copy, is a member function that
  returns the new record.
- `store.dfy` (module `Store`) holds the class `HealthStore`. Its fields
  `records` and `counter` are `HEALTH_STORAGE` and `HEALTH_ID_COUNTER`. The
  ghost field `issued` is the set of ids that create has handed out. The ghost
  field `clock` is the latest host time stamped onto a record. `Valid()` ties
  `issued` to the counter and keeps every record's timestamps ordered: created
  no later than the clock, and updated no earlier than created and no later
  than the clock. Every update call keeps `Valid()`. `InsertHealthRecord` and
  `Lookup` are the map helpers.
- `canister.dfy` (module `Canister`) holds the endpoints. The four update calls
  are methods that change a `HealthStore`. Each states the store's whole new
  state in terms of the old one. Six of the seven query calls are functions that
  read the store; `GetAllHealthRecords` is a method whose loop stands for the
  map iteration. The host clock `time()` is the parameter `now`; the two calls
  that stamp a time require it to be no earlier than the store's `clock`, as
  the host clock never runs backwards. The decimal
  rendering that `format!` uses for ids and ages is written out and proved
  invertible.
- `scenarios.dfy` (module `Scenarios`) holds call sequences on fresh stores
  and states what each sequence yields.

The model follows the code. The code differs from a reader's expectation of a
doctor-owned record store in several ways:

- Nothing is validated and no caller identity is checked. `doctor_principal` is
  never written or compared, and `NotDoctor` and `InputValidationFailed` are
  never constructed. Create always returns `Some`.
- The create struct literal omits `doctor_principal`. The model gives it its
  `Default`, the empty string.
- Ids are the counter's value before the increment (`Cell::set` returns the
  previous value), so the first id is 0, not 1.
- Tracking a medication against an unknown id first stores a `Default` record
  under that id. That record's own `id` field is 0, whatever key it sits under.
- Update re-inserts the updated record under its own `id` field, not under the
  key it was read from. For a record created by medication tracking under a key
  other than 0, the update lands on key 0 and the original key is left as it
  was (`Scenarios.UpsertedRecordUpdateLandsOnKeyZero`). If key 0 held a
  created record, that record is replaced by the updated default one
  (`Scenarios.UpsertedRecordUpdateReplacesRecordZero`). When every record sits
  under its own id (`HealthStore.KeyedByOwnId`), update writes back to the same
  key. Create, update and delete preserve that property. Medication tracking
  preserves it exactly when the key already existed or is 0.
- The counter knows nothing of keys made by medication tracking. A create can
  therefore be handed an id that is already a key and replace that record,
  medication history included (`Scenarios.CreateOverwritesUpsertedRecord`).
  Create still never hands out the same id twice.

## Model

| member | source | states |
|---|---|---|
| `Types.HealthRecord.TrackMedication` | src/backend/src/types.rs:41-44 | the history grows by exactly one entry, the new medication is at the end, every earlier entry stays in place and order, and no other field (`updatedAt` included) changes |
| `Types.TrackEachAppendsInOrder` | src/backend/src/types.rs:41-44 | n tracking calls in a row leave the old history followed by the n medications in call order, with every other field unchanged |
| `Types.DefaultHealthRecord` | src/backend/src/types.rs:6-19 | the `Default` record has id 0, empty strings, age 0, an empty history, creation time 0 and no update time |
| `Store.HealthStore.constructor` | src/backend/src/store.rs:18-26 | the map starts empty, the counter starts at 0 and no id has been handed out |
| `Store.HealthStore.Lookup` | src/backend/src/store.rs:35-37 | the stored record when the key is present, None exactly when it is absent |
| `Store.HealthStore.InsertHealthRecord` | src/backend/src/store.rs:30-32 | the record is stored under its own `id`, replacing any entry with that key; a lookup of that id then returns it; every other key is unchanged |
| `Canister.Decimal` | src/backend/src/lib.rs:159-162 | the decimal rendering of a number is non-empty, all digits, and has no leading zero |
| `Canister.DecimalRoundTrip` | src/backend/src/lib.rs:159-162 | parsing the decimal rendering gives the number back, so ids and ages are shown without loss |
| `Canister.NotFoundMessage` | src/backend/src/lib.rs:17-19 | the message is the fixed text around the decimal id, and the id reads back out of it |
| `Canister.UpdateNotFoundMessage` | src/backend/src/lib.rs:64-69 | update's message is its fixed text around the decimal id, and the id reads back out of it |
| `Canister.DeleteNotFoundMessage` | src/backend/src/lib.rs:78-83 | delete's message is its fixed text around the decimal id, and the id reads back out of it |
| `Canister.AddHealthRecord` | src/backend/src/lib.rs:24-47 | keeps `Valid()` with the clock at `now`; always `Some`; the id is the counter's old value and was never handed out; the counter rises by one; the record carries the payload, an empty principal and history, `createdAt = now`, no update time; it is stored under its id and nothing else changes |
| `Canister.UpdateHealthRecord` | src/backend/src/lib.rs:50-71 | keeps `Valid()`, so the stamped record's update time is at least its creation time; a missing key gives NotFound and no change; otherwise the six fields take the payload's values, `updatedAt = now`, id, principal, creation time and history are kept, and the record is written under its own id; with records keyed by their ids that is the same key and the latest activity becomes `now` |
| `Canister.DeleteHealthRecord` | src/backend/src/lib.rs:74-85 | keeps `Valid()`; a present key is removed and its record returned; a missing key gives NotFound and no change; afterwards the key does not exist |
| `Canister.AddMedicationRecord` | src/backend/src/lib.rs:96-116 | keeps `Valid()`; always `Ok`; the key is then present, holding the old record (or the `Default` one, id 0) with the medication appended; update time and latest activity unchanged; keying by own id survives exactly when the key existed or is 0 |
| `Canister.GetHealthRecord` | src/backend/src/lib.rs:13-21 | the stored record when the key is present, otherwise NotFound with the id in its message |
| `Canister.GetAllHealthRecords` | src/backend/src/lib.rs:87-93 | as many entries as the total count; every entry is a stored record and every stored record appears; a ghost key list pairs each entry with a distinct key whose record it is |
| `Canister.GetMedicationHistory` | src/backend/src/lib.rs:119-127 | the stored record's history exactly when get succeeds, otherwise NotFound |
| `Canister.GetTotalHealthRecords` | src/backend/src/lib.rs:129-135 | the number of keys in the map |
| `Canister.GetLatestHealthRecordByUpdateTime` | src/backend/src/lib.rs:137-145 | the update time if the record was updated, else its creation time; NotFound for a missing key |
| `Canister.HealthRecordExists` | src/backend/src/lib.rs:147-153 | true exactly when get succeeds |
| `Canister.GenerateHealthReport` | src/backend/src/lib.rs:155-169 | the fixed-template report of the stored record, a function of its fields alone; GenerateFailed for a missing key |
| `Canister.ReportIgnoresHistoryAndTimes` | src/backend/src/lib.rs:159-162 | two records that agree on name, id, age and the four text fields give the same report, whatever their history, principal and timestamps |
| `Canister.Report` | src/backend/src/lib.rs:159-162 | the report opens with the patient's name and the record's own `id` field, and closes with the monitoring data |
| `Scenarios.RecordLifecycle` | src/backend/src/lib.rs:24-145 | create gives id 0 with empty history; update sets age and update time; tracking then leaves latest activity at the update time and the history at one entry; delete returns the record; afterwards get and a second delete give NotFound |
| `Scenarios.IdsNotReusedAfterDelete` | src/backend/src/lib.rs:26-31 | after create and delete of id 0, the next create gets id 1 |
| `Scenarios.UpsertedRecordUpdateLandsOnKeyZero` | src/backend/src/lib.rs:53-111 | after tracking under key 5 of an empty store, update of key 5 writes the payload under key 0, key 5 keeps its blank record, and its report shows id 0 |
| `Scenarios.UpsertedRecordUpdateReplacesRecordZero` | src/backend/src/lib.rs:26-111 | after a create gives id 0, tracking under key 7 and updating key 7 replaces record 0 with a record created at time 0 carrying the tracked history; key 7 keeps its blank record |
| `Scenarios.CreateOverwritesUpsertedRecord` | src/backend/src/lib.rs:26-111 | after tracking under key 0 of an empty store, the next create gets id 0 and its record replaces the tracked one, leaving an empty history and one record |

## Left out

- Candid serialisation (`Storable::to_bytes`/`from_bytes`) and the 1024-byte
  `MAX_SIZE` bound: they go through foreign encode/decode macros. A record whose
  encoding exceeds the bound is not modelled.
- Memory manager, virtual memories, `thread_local!` and `RefCell`: the two
  stable structures are the two fields of `HealthStore`.
- The `#[ic_cdk::query]`/`#[ic_cdk::update]` attributes and `export_candid!`:
  canister plumbing.
- `ic_cdk::api::time()`: a host call, replaced by the `now` parameter. That the
  host clock never runs backwards is a precondition of the two stamping calls.
- AddHealthRecord: ids, the counter, ages and timestamps are unbounded naturals.
  Overflow of `current_value + 1` after 2^64 creates is not modelled. Whether it
  panics or wraps depends on the build profile, not on the source. The
  `.expect` on `Cell::set` is also not modelled, since storing a `u64` in the
  cell does not fail.
- GetAllHealthRecords: does not state the order of the entries. The order comes
  from the stable B-tree's iteration, which the library defines.
- The derived `Default` of `PatientUpdatePayload`: no endpoint uses it.
- Concurrency: canister calls run one at a time, so each endpoint is one
  sequential step on the store.
