/**
 * The server table as the JPA repository exposes it to the controllers:
 * records by id, and the identity value the database hands out next.
 */
module Repository {
  import opened Outcomes
  import opened Entities

  class ServerRepository {
    var records: map<int, Server>
    var nextId: int

    /** Every stored record carries its own id, and every id was handed out before `nextId`. */
    ghost predicate Valid()
      reads this
    {
      forall id :: id in records ==> records[id].id == Some(id) && id < nextId
    }

    constructor ()
      ensures Valid() && records == map[] && nextId == 1
    {
      records := map[];
      nextId := 1;
    }

    /** `findById`. */
    function FindById(id: int): Option<Server>
      reads this
    {
      if id in records then Some(records[id]) else None
    }

    /**
     * `save`: a record without an id is inserted under a fresh identity
     * value, which it receives; a record with an id replaces the stored one.
     * The panel saves only new records and records it has just loaded.
     */
    method Save(server: Server) returns (saved: Server)
      requires Valid()
      requires server.id.None? || server.id.value in records
      modifies this
      ensures Valid()
      ensures server.id.None? ==> saved == server.(id := Some(old(nextId))) && nextId == old(nextId) + 1
      ensures server.id.None? ==> saved.id.value !in old(records)
      ensures server.id.Some? ==> saved == server && nextId == old(nextId)
      ensures records == old(records)[saved.id.value := saved]
    {
      if server.id.None? {
        saved := server.(id := Some(nextId));
        records := records[nextId := saved];
        nextId := nextId + 1;
      } else {
        saved := server;
        records := records[server.id.value := server];
      }
    }

    /** `delete`: removes the record with the entity's id; an entity without id or without a row is ignored. */
    method Delete(server: Server)
      requires Valid()
      modifies this
      ensures Valid()
      ensures records == if server.id.Some? then old(records) - {server.id.value} else old(records)
      ensures nextId == old(nextId)
    {
      if server.id.Some? {
        records := records - {server.id.value};
      }
    }
  }
}
