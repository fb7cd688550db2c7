/** The store of suspended operations. regent/backend/storage.py holds only
    an unfinished stub, and the in-memory store the service creates is not
    part of this model; this class states the behaviour the service relies
    on: `save` stores (overwriting) a record under an id, and `load` hands the
    record back and removes it, or raises DoesNotExist. */
module Storage {
  import opened Values
  import Serialiser

  /** One suspended operation: `(frozen_op, frozen_auth)`. */
  datatype Record = Record(op: Serialiser.Frozen, auth: Serialiser.Frozen)

  type Store = map<Json, Record>

  class Memory {
    var records: Store

    constructor()
      ensures records == map[]
    {
      records := map[];
    }

    method Save(uid: Json, rec: Record)
      modifies this
      ensures records == old(records)[uid := rec]
    {
      records := records[uid := rec];
    }

    /** Loading is destructive: a record can be loaded at most once. */
    method Load(uid: Json) returns (r: Result<Record>)
      modifies this
      ensures uid in old(records) ==> r == Ok(old(records)[uid]) && records == old(records) - {uid}
      ensures uid !in old(records) ==> r == Err(DoesNotExist("")) && records == old(records)
    {
      if uid in records {
        r := Ok(records[uid]);
        records := records - {uid};
      } else {
        r := Err(DoesNotExist(""));
      }
    }
  }
}
