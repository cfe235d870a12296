/** The directory of tables under its own mutex. */
module Directories {
  import opened Basics
  import opened Tables
  import opened SharedTable

  /** The values of table objects. */
  ghost function StatesOf(ts: seq<Table>): (r: seq<TableState>)
    reads ts
    ensures |r| == |ts| && forall i :: 0 <= i < |ts| ==> r[i] == ts[i].State()
  {
    if ts == [] then [] else StatesOf(ts[..|ts| - 1]) + [ts[|ts| - 1].State()]
  }

  ghost function Ids(tables: map<string, Table>): map<string, TableId> {
    map n | n in tables :: tables[n].id
  }

  lemma IdsUpdate(tables: map<string, Table>, name: string, t: Table)
    ensures Ids(tables[name := t]) == Ids(tables)[name := t.id]
  {
  }

  lemma StatesOfAppend(ts: seq<Table>, t: Table)
    ensures StatesOf(ts + [t]) == StatesOf(ts) + [t.State()]
  {
    assert (ts + [t])[..|ts|] == ts;
  }

  class Server {
    var serverTables: map<string, Table>
    var tablesMutex: Option<ClientId>
    ghost var created: seq<Table>  // every table there is, bound or not, in the order of creation

    constructor ()
      ensures Valid() && created == [] && Directory() == map[] && tablesMutex.None?
    {
      serverTables, tablesMutex, created := map[], None, [];
    }

    ghost predicate Valid()
      reads this`created, this`serverTables
    {
      && (forall i :: 0 <= i < |created| ==> created[i].id == i)
      && (forall n :: n in serverTables ==> serverTables[n] in created)
    }

    /** The directory, with tables named by their place in the order of creation. */
    ghost function Directory(): map<string, TableId>
      reads this`serverTables
    {
      Ids(serverTables)
    }

    ghost function States(): seq<TableState>
      reads this`created, created
    {
      StatesOf(created)
    }

    /** Binds the name to a new table, whether or not it is bound already. */
    method CreateTable(c: ClientId, name: string)
      requires Valid() && tablesMutex.None?
      modifies this
      ensures Valid() && tablesMutex.None?
      ensures |created| == old(|created|) + 1 && created[..old(|created|)] == old(created)
      ensures fresh(created[old(|created|)])
      ensures States() == old(States()) + [TableState(name, None, map[], map[])]
      ensures Directory() == old(Directory())[name := old(|created|)]
    {
      tablesMutex := Some(c);
      var table := new Table(name, |created|);
      serverTables := serverTables[name := table];
      created := created + [table];
      tablesMutex := None;
      assert created[..old(|created|)] == old(created);
      hide StatesOf, Table.State, Ids;
      StatesOfAppend(old(created), table);
      IdsUpdate(old(serverTables), name, table);
    }

    method FindTable(c: ClientId, name: string) returns (table: Table?)
      requires Valid() && tablesMutex.None?
      modifies this`tablesMutex
      ensures tablesMutex.None?
      ensures table == null <==> name !in Directory()
      ensures table != null ==> table in created && Directory()[name] == table.id
    {
      tablesMutex := Some(c);
      table := if name in serverTables then serverTables[name] else null;
      tablesMutex := None;
    }
  }
}
