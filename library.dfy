/**
 * The `StandardLibrary` object: its name table, the two ways to create it and `init_std`,
 * which fills the table with the nineteen built-in closures.
 */
module Library {
  import opened Stdlib

  /** The entries `init_std` inserts. */
  function StdTable(): map<string, Builtin>
  {
    map[
      "print" := Print, "read" := Read, "round" := Round, "ceil" := Ceil,
      "floor" := Floor, "log" := Log, "sin" := Sin, "cos" := Cos, "tan" := Tan,
      "sqrt" := Sqrt, "cbrt" := Cbrt, "nrt" := Nrt, "len" := Len, "get" := Get,
      "set" := Set, "sum" := Sum, "product" := Product, "map" := Map, "graph" := Graph]
  }

  /** The nineteen inserts of `init_std`, one after another, merge `StdTable()` into `m`. */
  lemma InsertsMerge(m: map<string, Builtin>)
    ensures m
      ["print" := Print]
      ["read" := Read]
      ["round" := Round]
      ["ceil" := Ceil]
      ["floor" := Floor]
      ["log" := Log]
      ["sin" := Sin]
      ["cos" := Cos]
      ["tan" := Tan]
      ["sqrt" := Sqrt]
      ["cbrt" := Cbrt]
      ["nrt" := Nrt]
      ["len" := Len]
      ["get" := Get]
      ["set" := Set]
      ["sum" := Sum]
      ["product" := Product]
      ["map" := Map]
      ["graph" := Graph]
      == m + StdTable()
  {
  }

  /** `StandardLibrary`: a registry that `init_std` fills in place. */
  class StandardLibrary {
    var entries: Registry

    /** `StandardLibrary::new`. */
    constructor ()
      ensures entries == map[]
    {
      entries := map[];
    }

    /** `StandardLibrary::from_map`. */
    constructor FromMap(m: Registry)
      ensures entries == m
    {
      entries := m;
    }

    /** `init_std`: nineteen inserts into the table, each replacing an entry of the same name. */
    method InitStd()
      modifies this
      ensures entries == old(entries) + StdTable()
    {
      var m := entries;
      m := m["print" := Print];
      m := m["read" := Read];
      m := m["round" := Round];
      m := m["ceil" := Ceil];
      m := m["floor" := Floor];
      m := m["log" := Log];
      m := m["sin" := Sin];
      m := m["cos" := Cos];
      m := m["tan" := Tan];
      m := m["sqrt" := Sqrt];
      m := m["cbrt" := Cbrt];
      m := m["nrt" := Nrt];
      m := m["len" := Len];
      m := m["get" := Get];
      m := m["set" := Set];
      m := m["sum" := Sum];
      m := m["product" := Product];
      m := m["map" := Map];
      m := m["graph" := Graph];
      entries := m;
      InsertsMerge(old(entries));
    }
  }

  /** `init_std` installs these nineteen names and no others. */
  lemma StdTableNames()
    ensures StdTable().Keys == {
      "print", "read", "round", "ceil", "floor", "log", "sin", "cos", "tan", "sqrt",
      "cbrt", "nrt", "len", "get", "set", "sum", "product", "map", "graph"}
  {
  }

  /** The empty name, which `map` looks up when it finds no function, is not installed. */
  lemma StdTableHasNoEmptyName()
    ensures "" !in StdTable()
  {
  }

  /** A fresh library after `init_std` holds the standard table and nothing else. */
  method NewInitialised() returns (lib: StandardLibrary)
    ensures lib.entries == StdTable()
  {
    lib := new StandardLibrary();
    lib.InitStd();
    assert map[] + StdTable() == StdTable();
  }
}
