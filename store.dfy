/** The canister's stable state: the record map `HEALTH_STORAGE` and the id
    counter `HEALTH_ID_COUNTER`, held as the two fields of one object, with the
    insert and lookup helpers that work on the map. */
module Store {
  import opened Types

  class HealthStore {
    /** HEALTH_STORAGE: record id -> record. */
    var records: map<nat, HealthRecord>
    /** HEALTH_ID_COUNTER: the next id that create hands out. */
    var counter: nat
    /** The ids create has handed out so far (deletion does not give any back). */
    ghost var issued: set<nat>
    /** The latest host time stamped onto a record; the host clock never runs
        backwards, so every later stamp is at least this. */
    ghost var clock: nat

    /** Every id below the counter, and no other, has been handed out, and the
        stored timestamps are ordered. */
    ghost predicate Valid()
      reads this
    {
      && (forall i: int :: i in issued <==> 0 <= i < counter)
      && TimesOrdered()
    }

    /** No record was created after the clock, and an updated record was
        updated no earlier than it was created and no later than the clock. */
    ghost predicate TimesOrdered()
      reads this
    {
      forall k :: k in records ==>
        && records[k].createdAt <= clock
        && (records[k].updatedAt.Some? ==>
              records[k].createdAt <= records[k].updatedAt.value <= clock)
    }

    /** Every record is stored under its own `id` field. */
    predicate KeyedByOwnId()
      reads this
    {
      forall k :: k in records ==> records[k].id == k
    }

    /** Both stable structures start empty; the counter cell is initialised to 0. */
    constructor ()
      ensures Valid()
      ensures records == map[] && counter == 0 && issued == {} && clock == 0
      ensures KeyedByOwnId()
    {
      records := map[];
      counter := 0;
      issued := {};
      clock := 0;
    }

    /** `_get_health_record`: the stored record, or None when the key is absent. */
    function Lookup(id: nat): (r: Option<HealthRecord>)
      reads this
      ensures r.Some? <==> id in records
      ensures r.Some? ==> r.value == records[id]
    {
      if id in records then Some(records[id]) else None
    }

    /** `do_insert_health_record`: stores the record under its own `id`,
        replacing whatever that key held, and touches no other key. */
    method InsertHealthRecord(record: HealthRecord)
      modifies this`records
      ensures records == old(records)[record.id := record]
      ensures Lookup(record.id) == Some(record)
      ensures forall k :: k != record.id ==> Lookup(k) == old(Lookup(k))
      ensures old(KeyedByOwnId()) ==> KeyedByOwnId()
    {
      records := records[record.id := record];
    }
  }
}
