/** The services table and `ServiceService` (backend/internal/services/service.go). */
module ServiceStore {
  import opened Wrappers
  import Sorting

  /** A row of `services`; times are abstract instants, `config` is the JSON text. */
  datatype Service = Service(id: int, name: string, serviceType: string, url: string, config: string,
                             createdAt: int, updatedAt: int)

  const NotFound := "service not found"

  /** The row an UPDATE produces: the editable fields from `input`, the identity and creation time kept. */
  function Updated(row: Service, input: Service, now: int): (u: Service)
    ensures u.id == row.id && u.createdAt == row.createdAt && u.updatedAt == now
    ensures u.name == input.name && u.serviceType == input.serviceType
    ensures u.url == input.url && u.config == input.config
  {
    row.(name := input.name, serviceType := input.serviceType, url := input.url,
         config := input.config, updatedAt := now)
  }

  /** The row an INSERT ... RETURNING produces: the input's id and times are replaced. */
  function Created(id: int, input: Service, now: int): (c: Service)
    ensures c.id == id && c.createdAt == now && c.updatedAt == now
    ensures c.name == input.name && c.serviceType == input.serviceType
    ensures c.url == input.url && c.config == input.config
  {
    Service(id, input.name, input.serviceType, input.url, input.config, now, now)
  }

  /** The lookup behind `GetService` once the query itself has succeeded. */
  function Lookup(rows: map<int, Service>, id: int): (r: Result<Service>)
    ensures r.Ok? <==> id in rows
    ensures r.Ok? ==> r.value == rows[id]
    ensures r.Err? ==> r.msg == NotFound
  {
    if id in rows then Ok(rows[id]) else Err(NotFound)
  }

  /** After a successful delete, a lookup of that id is "service not found" and every other lookup is as before. */
  lemma LookupAfterDelete(rows: map<int, Service>, id: int, other: int)
    requires id in rows
    ensures Lookup(rows - {id}, id) == Err(NotFound)
    ensures other != id ==> Lookup(rows - {id}, other) == Lookup(rows, other)
  {
  }

  /** ORDER BY created_at DESC. */
  predicate NewerFirst(a: Service, b: Service) {
    a.createdAt >= b.createdAt
  }

  lemma NewerFirstIsTotalPreorder()
    ensures Sorting.TotalPreorder(NewerFirst)
  {
  }

  lemma NonEmptyHasElement(s: set<int>)
    requires s != {}
    ensures exists x :: x in s
  {
    if forall x :: x !in s {
      assert false;
    }
  }

  class ServiceTable {
    var rows: map<int, Service>
    var nextId: int

    ghost predicate Valid()
      reads this
    {
      nextId >= 1 && forall id :: id in rows ==> 1 <= id < nextId && rows[id].id == id
    }

    /** The service `s` is a stored row. */
    ghost predicate Stored(s: Service)
      reads this
    {
      s.id in rows && rows[s.id] == s
    }

    constructor ()
      ensures Valid() && rows == map[] && nextId == 1
    {
      rows := map[];
      nextId := 1;
    }

    /** INSERT ... RETURNING: the input's id and times are ignored. */
    method CreateService(service: Service, now: int, dbError: Option<string>) returns (r: Result<Service>)
      requires Valid()
      modifies this
      ensures Valid()
      ensures dbError.Some? ==> r == Err("failed to create service: " + dbError.value) && unchanged(this)
      ensures dbError.None? ==>
        && r == Ok(Created(old(nextId), service, now))
        && old(nextId) !in old(rows)
        && rows == old(rows)[old(nextId) := r.value] && nextId == old(nextId) + 1
    {
      if dbError.Some? {
        return Err("failed to create service: " + dbError.value);
      }
      var row := Created(nextId, service, now);
      rows := rows[nextId := row];
      nextId := nextId + 1;
      r := Ok(row);
    }

    method GetService(id: int, dbError: Option<string>) returns (r: Result<Service>)
      ensures dbError.Some? ==> r == Err("failed to get service: " + dbError.value)
      ensures dbError.None? ==> r == Lookup(rows, id)
    {
      if dbError.Some? {
        return Err("failed to get service: " + dbError.value);
      }
      if id !in rows {
        return Err(NotFound);
      }
      r := Ok(rows[id]);
    }

    /** UPDATE ... WHERE id = service.id ... RETURNING. */
    method UpdateService(service: Service, now: int, dbError: Option<string>) returns (r: Result<Service>)
      requires Valid()
      modifies this
      ensures Valid() && nextId == old(nextId)
      ensures dbError.Some? ==> r == Err("failed to update service: " + dbError.value) && rows == old(rows)
      ensures dbError.None? && service.id !in old(rows) ==> r == Err(NotFound) && rows == old(rows)
      ensures dbError.None? && service.id in old(rows) ==>
        && r == Ok(Updated(old(rows)[service.id], service, now))
        && rows == old(rows)[service.id := r.value]
    {
      if dbError.Some? {
        return Err("failed to update service: " + dbError.value);
      }
      if service.id !in rows {
        return Err(NotFound);
      }
      var row := Updated(rows[service.id], service, now);
      rows := rows[service.id := row];
      r := Ok(row);
    }

    /** DELETE ... WHERE id = $1; zero rows affected is "service not found". */
    method DeleteService(id: int, dbError: Option<string>) returns (err: Option<string>)
      requires Valid()
      modifies this
      ensures Valid() && nextId == old(nextId)
      ensures dbError.Some? ==> err == Some("failed to delete service: " + dbError.value) && rows == old(rows)
      ensures dbError.None? && id !in old(rows) ==> err == Some(NotFound) && rows == old(rows)
      ensures dbError.None? && id in old(rows) ==> err == None && rows == old(rows) - {id}
    {
      if dbError.Some? {
        return Some("failed to delete service: " + dbError.value);
      }
      if id !in rows {
        return Some(NotFound);
      }
      rows := rows - {id};
      err := None;
    }

    /** SELECT ... ORDER BY created_at DESC: every stored service exactly once, newest first. */
    method ListServices(dbError: Option<string>) returns (r: Result<seq<Service>>)
      requires Valid()
      ensures dbError.Some? ==> r == Err("failed to query services: " + dbError.value)
      ensures dbError.None? ==> r.Ok?
      ensures r.Ok? ==> forall s :: multiset(r.value)[s] == if Stored(s) then 1 else 0
      ensures r.Ok? ==> Sorting.SortedBy(r.value, NewerFirst)
    {
      if dbError.Some? {
        return Err("failed to query services: " + dbError.value);
      }
      NewerFirstIsTotalPreorder();
      var services: seq<Service> := [];
      var left := rows.Keys;
      while left != {}
        invariant left <= rows.Keys
        invariant forall s :: multiset(services)[s] == if Stored(s) && s.id !in left then 1 else 0
        invariant Sorting.SortedBy(services, NewerFirst)
        decreases left
      {
        NonEmptyHasElement(left);
        var id :| id in left;
        Sorting.InsertSorted(rows[id], services, NewerFirst);
        services := Sorting.Insert(rows[id], services, NewerFirst);
        left := left - {id};
      }
      r := Ok(services);
    }
  }
}
