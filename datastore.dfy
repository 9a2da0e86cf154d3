/** The record store the handlers and workers call as `_data`. Its source
    (lib/data.js) is not part of this model; it is modelled by its contract:
    JSON documents grouped by collection and keyed by id, whole-document
    create (refused when the id exists), read, update (refused when the id
    is absent), delete (refused when absent) and list. */
module DataStore {
  import opened JsValues

  datatype Collection = Users | Tokens | Checks

  type Key = (Collection, string)

  /** The ids stored in collection `c`. */
  function IdsIn(records: map<Key, Record>, c: Collection): (ids: set<string>)
    ensures forall id :: id in ids <==> (c, id) in records
  {
    set k | k in records.Keys && k.0 == c :: k.1
  }

  class Store {
    var records: map<Key, Record>

    constructor ()
      ensures records == map[]
    {
      records := map[];
    }

    /** `_data.create(c, id, data)`: fails, changing nothing, when the id is
        already taken. */
    method Create(c: Collection, id: string, data: Record) returns (err: bool)
      modifies this
      ensures err == ((c, id) in old(records))
      ensures records == if err then old(records) else old(records)[(c, id) := data]
    {
      err := (c, id) in records;
      if !err {
        records := records[(c, id) := data];
      }
    }

    /** `_data.read(c, id)`: the stored document, or an error when absent. */
    method Read(c: Collection, id: string) returns (r: Option<Record>)
      ensures r.Some? <==> (c, id) in records
      ensures r.Some? ==> r.value == records[(c, id)]
    {
      if (c, id) in records {
        r := Some(records[(c, id)]);
      } else {
        r := None;
      }
    }

    /** `_data.update(c, id, data)`: overwrites the whole document; fails,
        changing nothing, when the id is absent. */
    method Update(c: Collection, id: string, data: Record) returns (err: bool)
      modifies this
      ensures err == ((c, id) !in old(records))
      ensures records == if err then old(records) else old(records)[(c, id) := data]
    {
      err := (c, id) !in records;
      if !err {
        records := records[(c, id) := data];
      }
    }

    /** `_data.delete(c, id)`: fails when the id is absent. */
    method Delete(c: Collection, id: string) returns (err: bool)
      modifies this
      ensures err == ((c, id) !in old(records))
      ensures records == old(records) - {(c, id)}
    {
      err := (c, id) !in records;
      records := records - {(c, id)};
    }

    /** `_data.list(c)`: every id of the collection once, in no particular
        order. */
    method List(c: Collection) returns (ids: seq<string>)
      ensures forall i, j :: 0 <= i < j < |ids| ==> ids[i] != ids[j]
      ensures forall id :: id in ids <==> (c, id) in records
    {
      var remaining := IdsIn(records, c);
      ids := [];
      while remaining != {}
        invariant remaining <= IdsIn(records, c)
        invariant forall id :: id in ids <==> (c, id) in records && id !in remaining
        invariant forall i, j :: 0 <= i < j < |ids| ==> ids[i] != ids[j]
        decreases remaining
      {
        var id :| id in remaining;
        ids := ids + [id];
        remaining := remaining - {id};
      }
    }
  }
}
