/**
 The instance table (pkg/dao/instance.go), keyed by instance id as openshift/db.sql
 declares it. Every statement may fail without effect.
 */
module Dao {
  import opened Results

  datatype Instance = Instance(
    instanceID: string,
    serviceID: string,
    instanceName: string,
    serviceName: string,
    planID: string,
    namespace: string,
    organizationGUID: string,
    spaceGUID: string,
    parameters: string,
    yaml: string)

  /** Go's zero value, which a select without rows returns. */
  const NO_INSTANCE := Instance("", "", "", "", "", "", "", "", "", "")

  type Table = map<string, Instance>

  datatype DbError = Unreachable | DuplicateKey

  ghost predicate KeyedById(table: Table) {
    forall id :: id in table ==> table[id].instanceID == id
  }

  function SelectRow(table: Table, id: string, down: bool): Result<Instance, DbError> {
    if down then Err(Unreachable)
    else Ok(if id in table then table[id] else NO_INSTANCE)
  }

  function InsertRow(table: Table, i: Instance, down: bool): (Table, Result<int, DbError>) {
    if down then (table, Err(Unreachable))
    else if i.instanceID in table then (table, Err(DuplicateKey))
    else (table[i.instanceID := i], Ok(1))
  }

  /** A row with the columns that an update sets. */
  function Refreshed(i: Instance, other: Instance): Instance {
    i.(planID := other.planID, parameters := other.parameters, yaml := other.yaml)
  }

  function UpdateRow(table: Table, i: Instance, down: bool): (Table, Result<int, DbError>) {
    if down then (table, Err(Unreachable))
    else if i.instanceID !in table then (table, Ok(0))
    else (table[i.instanceID := Refreshed(table[i.instanceID], i)], Ok(1))
  }

  function DeleteRow(table: Table, id: string, down: bool): (Table, Result<int, DbError>) {
    if down then (table, Err(Unreachable))
    else (table - {id}, Ok(if id in table then 1 else 0))
  }

  class Dao {
    var table: Table

    constructor (table: Table)
      ensures this.table == table
    {
      this.table := table;
    }

    /** The rows that a WHERE clause on the primary key yields. */
    method Rows(id: string) returns (rows: seq<Instance>)
      ensures rows == if id in table then [table[id]] else []
    {
      if id in table { return [table[id]]; }
      return [];
    }

    method InsertInstance(i: Instance, down: bool) returns (r: Result<int, DbError>)
      modifies this
      ensures (table, r) == InsertRow(old(table), i, down)
    {
      if down { return Err(Unreachable); }
      if i.instanceID in table { return Err(DuplicateKey); }
      table := table[i.instanceID := i];
      return Ok(1);
    }

    method UpdateInstance(i: Instance, down: bool) returns (r: Result<int, DbError>)
      modifies this
      ensures (table, r) == UpdateRow(old(table), i, down)
    {
      if down { return Err(Unreachable); }
      var rows := Rows(i.instanceID);
      if rows == [] { return Ok(0); }
      table := table[i.instanceID := rows[0].(planID := i.planID, parameters := i.parameters, yaml := i.yaml)];
      return Ok(1);
    }

    method DeleteInstance(id: string, down: bool) returns (r: Result<int, DbError>)
      modifies this
      ensures (table, r) == DeleteRow(old(table), id, down)
    {
      if down { return Err(Unreachable); }
      var affected := if id in table then 1 else 0;
      table := table - {id};
      return Ok(affected);
    }

    method SelectInstance(id: string, down: bool) returns (r: Result<Instance, DbError>)
      ensures r == SelectRow(table, id, down)
    {
      if down { return Err(Unreachable); }
      var rows := Rows(id);
      var instance := NO_INSTANCE;
      for n := 0 to |rows|
        invariant instance == if n == 0 then NO_INSTANCE else rows[n - 1]
      {
        instance := rows[n];
      }
      return Ok(instance);
    }
  }

  /** Statements keep the table keyed, and each undoes or leaves alone what the others did. */
  lemma StatementsFit(table: Table, i: Instance)
    requires KeyedById(table)
    ensures KeyedById(InsertRow(table, i, false).0) && KeyedById(UpdateRow(table, i, false).0)
    ensures InsertRow(table, i, false).1.Ok? <==>
              SelectRow(table, i.instanceID, false) == Ok(NO_INSTANCE) && i.instanceID !in table
    ensures i.instanceID !in table ==>
              var inserted := InsertRow(table, i, false).0;
              && InsertRow(table, i, false).1 == Ok(1)
              && SelectRow(inserted, i.instanceID, false) == Ok(i)
              && DeleteRow(inserted, i.instanceID, false) == (table, Ok(1))
              && UpdateRow(table, i, false) == (table, Ok(0))
    ensures UpdateRow(table, i, false).0.Keys == table.Keys
    ensures i.instanceID in table ==> UpdateRow(table, i, false).1 == Ok(1)
    ensures i.instanceID in table ==>
              var before, after := table[i.instanceID], UpdateRow(table, i, false).0[i.instanceID];
              && (after.planID, after.parameters, after.yaml) == (i.planID, i.parameters, i.yaml)
              && (after.serviceID, after.serviceName, after.instanceName)
                  == (before.serviceID, before.serviceName, before.instanceName)
              && (after.namespace, after.organizationGUID, after.spaceGUID)
                 == (before.namespace, before.organizationGUID, before.spaceGUID)
    ensures forall id :: id in table && id != i.instanceID ==>
              UpdateRow(table, i, false).0[id] == table[id] && InsertRow(table, i, false).0[id] == table[id]
              && id in DeleteRow(table, i.instanceID, false).0
              && DeleteRow(table, i.instanceID, false).0[id] == table[id]
  {
    if i.instanceID !in table {
      assert table[i.instanceID := i] - {i.instanceID} == table;
    }
  }

  /** A statement that fails says so and changes nothing, and so does a second insert of an id. */
  lemma StatementsFail(table: Table, i: Instance)
    ensures SelectRow(table, i.instanceID, true) == Err(Unreachable)
    ensures InsertRow(table, i, true) == (table, Err(Unreachable))
    ensures UpdateRow(table, i, true) == (table, Err(Unreachable))
    ensures DeleteRow(table, i.instanceID, true) == (table, Err(Unreachable))
    ensures i.instanceID in table ==> InsertRow(table, i, false) == (table, Err(DuplicateKey))
    ensures SelectRow(table, i.instanceID, false)
         == Ok(if i.instanceID in table then table[i.instanceID] else Instance("", "", "", "", "", "", "", "", "", ""))
    ensures DeleteRow(table, i.instanceID, false)
         == (table - {i.instanceID}, Ok(if i.instanceID in table then 1 else 0))
  {
  }
}
