/** A key/value table: committed and pending maps, and the mutex that guards them. */
module Tables {
  import opened Basics

  type Key = string
  type Value = string
  type ClientId = nat
  type TableId = nat
  type Row = map<Key, Value>

  /** A map read with the empty string where a key is absent. */
  function Lookup(m: Row, k: Key): Value {
    if k in m then m[k] else ""
  }

  /** The value of a table. The mutex is an optional owner. */
  datatype TableState = TableState(name: string, owner: Option<ClientId>, committed: Row, pending: Row) {

    /** What get consults: a pending entry hides the committed one. */
    function Visible(): Row { committed + pending }

    predicate HasKey(k: Key) { k in committed || k in pending }

    function Set(k: Key, v: Value): TableState { this.(pending := pending[k := v]) }

    /** Reading a key found in neither map stores the empty string in the committed map. */
    function AfterGet(k: Key): TableState {
      if HasKey(k) then this else this.(committed := committed[k := ""])
    }

    function Commit(): TableState { this.(committed := committed + pending, pending := map[]) }

    function Rollback(): TableState { this.(pending := map[]) }
  }
}
