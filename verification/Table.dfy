/** The table object of table.cpp. Its methods do what the functions of TableState say. */
module SharedTable {
  import opened Basics
  import opened Tables

  class Table {
    const name: string
    ghost const id: TableId  // its place in the order of creation
    var theMap: Row
    var tempMap: Row
    var owner: Option<ClientId>

    constructor (name: string, ghost id: TableId)
      ensures State() == TableState(name, None, map[], map[]) && this.id == id
    {
      this.name, this.id := name, id;
      theMap, tempMap, owner := map[], map[], None;
    }

    function State(): TableState
      reads this
    {
      TableState(name, owner, theMap, tempMap)
    }

    /** Returns once the mutex is free: the precondition is the moment the wait ends. */
    method Lock(c: ClientId)
      requires owner.None?
      modifies this
      ensures State() == old(State()).(owner := Some(c))
    {
      owner := Some(c);
    }

    method Unlock()
      modifies this
      ensures State() == old(State()).(owner := None)
    {
      owner := None;
    }

    method TryLock(c: ClientId) returns (ok: bool)
      modifies this
      ensures ok <==> old(owner).None?
      ensures State() == if ok then old(State()).(owner := Some(c)) else old(State())
    {
      ok := owner.None?;
      if ok {
        owner := Some(c);
      }
    }

    method Set(key: Key, value: Value)
      modifies this
      ensures State() == old(State()).Set(key, value)
    {
      tempMap := tempMap[key := value];
    }

    /** The comparison meant to catch an absent key relates iterators of two different maps, so
        reading falls through to a subscript that inserts the key. */
    method Get(key: Key) returns (value: Value)
      modifies this
      ensures value == Lookup(old(State()).Visible(), key)
      ensures State() == old(State()).AfterGet(key)
    {
      if key !in tempMap {
        if key !in theMap {
          theMap := theMap[key := ""];
        }
        return theMap[key];
      }
      return tempMap[key];
    }

    method HasKey(key: Key) returns (found: bool)
      ensures found <==> State().HasKey(key)
    {
      return key in theMap || key in tempMap;
    }

    /** Copies the pending pairs one by one, in any order. */
    method CommitChanges()
      modifies this
      ensures State() == old(State()).Commit()
    {
      var todo := tempMap.Keys;
      while todo != {}
        invariant todo <= tempMap.Keys && tempMap == old(tempMap) && owner == old(owner)
        invariant theMap.Keys == old(theMap).Keys + (tempMap.Keys - todo)
        invariant forall k :: k in theMap ==>
                    theMap[k] == if k in tempMap && k !in todo then tempMap[k] else old(theMap)[k]
        decreases todo
      {
        var key :| key in todo;
        theMap := theMap[key := tempMap[key]];
        todo := todo - {key};
      }
      tempMap := map[];
    }

    method RollbackChanges()
      modifies this
      ensures State() == old(State()).Rollback()
    {
      tempMap := map[];
    }
  }
}
