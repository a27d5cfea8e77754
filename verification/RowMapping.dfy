/**
 The name mapping of the SQL client: property names become column names on the way in, column names or
 aliases become property names again on the way out.
 */
module RowMapping {
  import opened Common

  /** One entry of a table's column table: the property's name and the column's. */
  datatype Column = Column(field: string, name: string)

  type Entries<T> = seq<(string, T)>

  /** Column name to property name; of several properties on one column the last wins. */
  function FieldMap(columns: seq<Column>): map<string, string> {
    if columns == [] then map[]
    else FieldMap(columns[..|columns| - 1])[columns[|columns| - 1].name := columns[|columns| - 1].field]
  }

  /** Property name to column name. */
  function ColumnMap(columns: seq<Column>): map<string, string> {
    if columns == [] then map[]
    else ColumnMap(columns[..|columns| - 1])[columns[|columns| - 1].field := columns[|columns| - 1].name]
  }

  function Lookup(names: map<string, string>, k: string): string { if k in names then names[k] else k }

  /** The object a row becomes; a later entry overwrites an earlier one of the same name. */
  function Mapped<T>(row: Entries<T>, names: map<string, string>): map<string, T> {
    if row == [] then map[]
    else Mapped(row[..|row| - 1], names)[Lookup(names, row[|row| - 1].0) := row[|row| - 1].1]
  }

  method BuildFieldMap(columns: seq<Column>) returns (names: map<string, string>)
    ensures names == FieldMap(columns)
  {
    names := map[];
    for i := 0 to |columns|
      invariant names == FieldMap(columns[..i])
    {
      assert columns[..i + 1][..i] == columns[..i];
      names := names[columns[i].name := columns[i].field];
    }
    assert columns[..|columns|] == columns;
  }

  method BuildColMap(columns: seq<Column>) returns (names: map<string, string>)
    ensures names == ColumnMap(columns)
  {
    names := map[];
    for i := 0 to |columns|
      invariant names == ColumnMap(columns[..i])
    {
      assert columns[..i + 1][..i] == columns[..i];
      names := names[columns[i].field := columns[i].name];
    }
    assert columns[..|columns|] == columns;
  }

  method MapRow<T>(row: Entries<T>, names: map<string, string>) returns (mapped: map<string, T>)
    ensures mapped == Mapped(row, names)
  {
    mapped := map[];
    for i := 0 to |row|
      invariant mapped == Mapped(row[..i], names)
    {
      assert row[..i + 1][..i] == row[..i];
      mapped := mapped[Lookup(names, row[i].0) := row[i].1];
    }
    assert row[..|row|] == row;
  }

  /** The entries of an object that are not undefined. */
  function Defined<T>(values: Entries<Option<T>>): Entries<T> {
    if values == [] then []
    else
      var last := values[|values| - 1];
      Defined(values[..|values| - 1]) + if last.1.Some? then [(last.0, last.1.value)] else []
  }

  /** The column names and values an insert writes. */
  function Stored<T>(values: Entries<T>, names: map<string, string>): Entries<T> {
    if values == [] then []
    else Stored(values[..|values| - 1], names) + [(Lookup(names, values[|values| - 1].0), values[|values| - 1].1)]
  }

  method InsertColumns<T>(values: Entries<Option<T>>, columns: seq<Column>) returns (stored: Entries<T>)
    ensures stored == Stored(Defined(values), ColumnMap(columns))
  {
    var names := BuildColMap(columns);
    stored := [];
    for i := 0 to |values|
      invariant stored == Stored(Defined(values[..i]), names)
    {
      assert values[..i + 1][..i] == values[..i];
      if values[i].1.Some? {
        StoredLast(Defined(values[..i]), (values[i].0, values[i].1.value), names);
        stored := stored + [(Lookup(names, values[i].0), values[i].1.value)];
      } else {
        assert Defined(values[..i]) + [] == Defined(values[..i]);
      }
    }
    assert values[..|values|] == values;
  }

  lemma StoredLast<T>(values: Entries<T>, last: (string, T), names: map<string, string>)
    ensures Stored(values + [last], names) == Stored(values, names) + [(Lookup(names, last.0), last.1)]
  {
    assert (values + [last])[..|values|] == values;
  }

  // ---- In and out again --------------------------------------------------------------

  /** The object whose properties were inserted. */
  function Original<T>(values: Entries<T>): map<string, T> {
    if values == [] then map[] else Original(values[..|values| - 1])[values[|values| - 1].0 := values[|values| - 1].1]
  }

  /** Property names are the keys of an object, so no two entries share one. */
  predicate DistinctFields(columns: seq<Column>) {
    forall i, j :: 0 <= i < j < |columns| ==> columns[i].field != columns[j].field
  }

  /** The name a property comes back under. */
  function ThereAndBack(columns: seq<Column>, k: string): string {
    Lookup(FieldMap(columns), Lookup(ColumnMap(columns), k))
  }

  /** In the schema: no later property has this one's column, and a name that is no property is no column either. */
  predicate Returns(columns: seq<Column>, k: string) {
    && (forall i, j :: 0 <= i < j < |columns| && columns[i].field == k ==> columns[j].name != columns[i].name)
    && ((forall i :: 0 <= i < |columns| ==> columns[i].field != k) ==>
          forall i :: 0 <= i < |columns| ==> columns[i].name != k)
  }

  lemma {:induction false} FieldMapLast(columns: seq<Column>, name: string) returns (at: nat)
    ensures name in FieldMap(columns) <==> exists i :: 0 <= i < |columns| && columns[i].name == name
    ensures name in FieldMap(columns) ==>
              at < |columns| && columns[at].name == name && FieldMap(columns)[name] == columns[at].field
              && forall j :: at < j < |columns| ==> columns[j].name != name
  {
    at := 0;
    if columns != [] {
      var n := |columns| - 1;
      at := FieldMapLast(columns[..n], name);
      if columns[n].name == name { at := n; }
      assert forall i :: 0 <= i < n ==> columns[..n][i] == columns[i];
    }
  }

  lemma {:induction false} ColumnMapAt(columns: seq<Column>, field: string) returns (at: nat)
    ensures field in ColumnMap(columns) <==> exists i :: 0 <= i < |columns| && columns[i].field == field
    ensures field in ColumnMap(columns) ==>
              at < |columns| && columns[at].field == field && ColumnMap(columns)[field] == columns[at].name
  {
    at := 0;
    if columns != [] {
      var n := |columns| - 1;
      at := ColumnMapAt(columns[..n], field);
      if columns[n].field == field { at := n; }
      assert forall i :: 0 <= i < n ==> columns[..n][i] == columns[i];
    }
  }

  /** The schema condition is exactly what brings a name back as it was. */
  lemma ReturnsIff(columns: seq<Column>, k: string)
    requires DistinctFields(columns)
    ensures Returns(columns, k) <==> ThereAndBack(columns, k) == k
  {
    var i := ColumnMapAt(columns, k);
    var j := FieldMapLast(columns, Lookup(ColumnMap(columns), k));
  }

  /** A name that has been there and back comes back the same from then on. */
  lemma SettlesAtOnce(columns: seq<Column>, k: string)
    requires DistinctFields(columns)
    ensures ThereAndBack(columns, ThereAndBack(columns, k)) == ThereAndBack(columns, k)
  {
    var name := Lookup(ColumnMap(columns), k);
    var own := ColumnMapAt(columns, k);
    var j := FieldMapLast(columns, name);
    if name in FieldMap(columns) {
      var i := ColumnMapAt(columns, columns[j].field);
      assert columns[i].field == columns[j].field && i == j;
    }
  }

  lemma {:induction false} MappedKeys<T>(values: Entries<T>, columns: seq<Column>, f: string) returns (at: nat)
    ensures f in Mapped(Stored(values, ColumnMap(columns)), FieldMap(columns)) ==>
              at < |values| && ThereAndBack(columns, values[at].0) == f
  {
    at := 0;
    if values != [] {
      var n := |values| - 1;
      var stored := Stored(values, ColumnMap(columns));
      at := MappedKeys(values[..n], columns, f);
      assert stored[..|stored| - 1] == Stored(values[..n], ColumnMap(columns));
      if ThereAndBack(columns, values[n].0) == f { at := n; }
    }
  }

  lemma {:induction false} OriginalKeys<T>(values: Entries<T>, i: nat)
    requires i < |values|
    ensures values[i].0 in Original(values)
  {
    if i < |values| - 1 { OriginalKeys(values[..|values| - 1], i); }
  }

  lemma {:induction false} SameNamesSameObject<T>(values: Entries<T>, columns: seq<Column>)
    requires forall i :: 0 <= i < |values| ==> ThereAndBack(columns, values[i].0) == values[i].0
    ensures Mapped(Stored(values, ColumnMap(columns)), FieldMap(columns)) == Original(values)
  {
    if values != [] {
      var init, stored := values[..|values| - 1], Stored(values, ColumnMap(columns));
      SameNamesSameObject(init, columns);
      assert stored[..|stored| - 1] == Stored(init, ColumnMap(columns));
    }
  }

  /**
   An inserted object is read back as it was, whatever its values, exactly when each of its property names
   returns in the schema.
   */
  lemma InsertedReadsBackIff<T>(columns: seq<Column>, values: Entries<T>)
    requires DistinctFields(columns)
    ensures Mapped(Stored(values, ColumnMap(columns)), FieldMap(columns)) == Original(values)
            <==> forall i :: 0 <= i < |values| ==> Returns(columns, values[i].0)
  {
    if forall i :: 0 <= i < |values| ==> Returns(columns, values[i].0) {
      forall i | 0 <= i < |values|
        ensures ThereAndBack(columns, values[i].0) == values[i].0
      {
        ReturnsIff(columns, values[i].0);
      }
      SameNamesSameObject(values, columns);
    } else if Mapped(Stored(values, ColumnMap(columns)), FieldMap(columns)) == Original(values) {
      forall i | 0 <= i < |values|
        ensures Returns(columns, values[i].0)
      {
        OriginalKeys(values, i);
        var at := MappedKeys(values, columns, values[i].0);
        SettlesAtOnce(columns, values[at].0);
        ReturnsIff(columns, values[i].0);
      }
    }
  }

  /** With a column of its own for every property, and properties only, nothing is lost. */
  lemma OwnColumnsSuffice(columns: seq<Column>, k: string)
    requires forall i, j :: 0 <= i < j < |columns| ==> columns[i].name != columns[j].name
    requires exists i :: 0 <= i < |columns| && columns[i].field == k
    ensures ThereAndBack(columns, k) == k && Returns(columns, k)
  {
    var i := ColumnMapAt(columns, k);
    var j := FieldMapLast(columns, Lookup(ColumnMap(columns), k));
  }

  // ---- Whole rows ------------------------------------------------------------------------------

  /** A row as the server returns it: every column of the table, in the table's order. */
  function TableRow<T>(order: seq<string>, cells: string -> T): Entries<T> {
    seq(|order|, i requires 0 <= i < |order| => (order[i], cells(order[i])))
  }

  /** What a property of the object shows that a row of the table becomes. */
  function Shown<T>(columns: seq<Column>, order: seq<string>, cells: string -> T, k: string): Option<T> {
    var mapped := Mapped(TableRow(order, cells), FieldMap(columns));
    if k in mapped then Some(mapped[k]) else None
  }

  /** The column a property shows: the last one whose name maps to it. */
  function SourceOf(order: seq<string>, names: map<string, string>, k: string): Option<nat> {
    if order == [] then None
    else if Lookup(names, order[|order| - 1]) == k then Some(|order| - 1)
    else SourceOf(order[..|order| - 1], names, k)
  }

  lemma {:induction false} SourceIsLast(order: seq<string>, names: map<string, string>, k: string)
    ensures SourceOf(order, names, k).Some? ==>
              var at := SourceOf(order, names, k).value;
              && at < |order| && Lookup(names, order[at]) == k
              && forall j :: at < j < |order| ==> Lookup(names, order[j]) != k
    ensures SourceOf(order, names, k).None? ==> forall j :: 0 <= j < |order| ==> Lookup(names, order[j]) != k
  {
    if order != [] {
      SourceIsLast(order[..|order| - 1], names, k);
      assert forall j :: 0 <= j < |order| - 1 ==> order[..|order| - 1][j] == order[j];
    }
  }

  lemma {:induction false} ShowsItsSource<T>(columns: seq<Column>, order: seq<string>, cells: string -> T, k: string)
    ensures SourceOf(order, FieldMap(columns), k).Some? ==> SourceOf(order, FieldMap(columns), k).value < |order|
    ensures Shown(columns, order, cells, k)
            == match SourceOf(order, FieldMap(columns), k)
               case None => None
               case Some(at) => Some(cells(order[at]))
  {
    if order != [] {
      var init := order[..|order| - 1];
      ShowsItsSource(columns, init, cells, k);
      assert TableRow(order, cells)[..|order| - 1] == TableRow(init, cells);
    }
  }

  predicate DistinctNames(order: seq<string>) { forall i, j :: 0 <= i < j < |order| ==> order[i] != order[j] }

  /** Behind the property's own column stands one that is no property's but is called like it. */
  predicate Shadowed(columns: seq<Column>, order: seq<string>, at: nat, k: string) {
    && (forall i :: 0 <= i < |columns| ==> columns[i].name != k)
    && exists j :: at < j < |order| && order[j] == k
  }

  /** A property shows its own column exactly when its name returns in the schema and no column shadows it. */
  lemma ReadsOwnColumnIff(columns: seq<Column>, order: seq<string>, at: nat, k: string)
    requires DistinctFields(columns) && DistinctNames(order)
    requires at < |order| && order[at] == Lookup(ColumnMap(columns), k)
    ensures SourceOf(order, FieldMap(columns), k) == Some(at)
            <==> Returns(columns, k) && !Shadowed(columns, order, at, k)
  {
    var names := FieldMap(columns);
    SourceIsLast(order, names, k);
    ReturnsIff(columns, k);
    var none := FieldMapLast(columns, k);
    if j :| at < j < |order| && Lookup(names, order[j]) == k {
      OnlyShadowsInterfere(columns, order, at, j, k);
    }
  }

  lemma OnlyShadowsInterfere(columns: seq<Column>, order: seq<string>, at: nat, j: nat, k: string)
    requires DistinctFields(columns) && DistinctNames(order)
    requires at < j < |order| && order[at] == Lookup(ColumnMap(columns), k) && Lookup(FieldMap(columns), order[j]) == k
    ensures Shadowed(columns, order, at, k)
  {
    var own := ColumnMapAt(columns, k);
    var last := FieldMapLast(columns, order[j]);
  }

  /**
   A property of the object read from a row shows what its column holds, whatever the row holds, exactly
   when its name returns in the schema and no column shadows it.
   */
  lemma ShowsOwnCellIff<T(!new)>(columns: seq<Column>, order: seq<string>, at: nat, k: string, a: T, b: T)
    requires DistinctFields(columns) && DistinctNames(order) && a != b
    requires at < |order| && order[at] == Lookup(ColumnMap(columns), k)
    ensures (forall cells: string -> T :: Shown(columns, order, cells, k) == Some(cells(order[at])))
            <==> Returns(columns, k) && !Shadowed(columns, order, at, k)
  {
    ReadsOwnColumnIff(columns, order, at, k);
    forall cells: string -> T
      ensures SourceOf(order, FieldMap(columns), k) == Some(at) ==>
                Shown(columns, order, cells, k) == Some(cells(order[at]))
    {
      ShowsItsSource(columns, order, cells, k);
    }
    if SourceOf(order, FieldMap(columns), k) != Some(at) {
      var cells := (c: string) => if c == order[at] then a else b;
      ShowsItsSource(columns, order, cells, k);
      assert Shown(columns, order, cells, k) != Some(cells(order[at]));
    }
  }

  /** It happens: property x is kept in column y, and a later column x is no property's; x then shows that column. */
  lemma ShadowHappens<T>(cells: string -> T)
    ensures Returns([Column("x", "y")], "x") && Shadowed([Column("x", "y")], ["y", "x"], 0, "x")
    ensures Shown([Column("x", "y")], ["y", "x"], cells, "x") == Some(cells("x"))
  {
    var columns, order := [Column("x", "y")], ["y", "x"];
    assert order[1] == "x" && columns[0].name == "y" && "x"[0] != "y"[0];
    var none := FieldMapLast(columns, "x");
    assert Lookup(FieldMap(columns), order[1]) == "x";
    ShowsItsSource(columns, order, cells, "x");
  }

  /** The server takes an insert whose columns are distinct and the table's, and stores its values. */
  predicate Accepts<T(==)>(order: seq<string>, stored: Entries<T>, cells: string -> T) {
    && DistinctNames(order)
    && forall i :: 0 <= i < |stored| ==> stored[i].0 in order && cells(stored[i].0) == stored[i].1
  }

  lemma {:induction false} StoredAt<T>(values: Entries<T>, names: map<string, string>, i: nat)
    requires i < |values|
    ensures |Stored(values, names)| == |values|
    ensures Stored(values, names)[i] == (Lookup(names, values[i].0), values[i].1)
  {
    if |values| > 1 { StoredAt(values[..|values| - 1], names, if i < |values| - 1 then i else 0); }
  }

  lemma {:induction false} DefinedAt<T>(values: Entries<Option<T>>, i: nat) returns (at: nat)
    requires i < |values| && values[i].1.Some?
    ensures at < |Defined(values)| && Defined(values)[at] == (values[i].0, values[i].1.value)
  {
    if i < |values| - 1 {
      at := DefinedAt(values[..|values| - 1], i);
    } else {
      at := |Defined(values[..|values| - 1])|;
    }
  }

  /**
   After an accepted insert, the row read back from the whole table shows a property that was set with
   the value it was set to, if its name returns in the schema and no column shadows it.
   */
  lemma InsertedPropertyReadsBack<T>(columns: seq<Column>, order: seq<string>, cells: string -> T,
      values: Entries<Option<T>>, i: nat) returns (at: nat)
    requires DistinctFields(columns) && Accepts(order, Stored(Defined(values), ColumnMap(columns)), cells)
    requires i < |values| && values[i].1.Some?
    ensures at < |order| && order[at] == Lookup(ColumnMap(columns), values[i].0)
    ensures Returns(columns, values[i].0) && !Shadowed(columns, order, at, values[i].0) ==>
              Shown(columns, order, cells, values[i].0) == values[i].1
  {
    var d := DefinedAt(values, i);
    StoredAt(Defined(values), ColumnMap(columns), d);
    at :| at < |order| && order[at] == Lookup(ColumnMap(columns), values[i].0);
    ReadsOwnColumnIff(columns, order, at, values[i].0);
    ShowsItsSource(columns, order, cells, values[i].0);
  }

  // ---- Aliases ----------------------------------------------------------------------------

  /** The first alias that equals a returned name up to case, else the name itself. */
  function AliasFor(aliases: seq<string>, k: string, lower: string -> string): string {
    if aliases == [] then k
    else if lower(aliases[0]) == lower(k) then aliases[0]
    else AliasFor(aliases[1..], k, lower)
  }

  /**
   However the server changed the case of an alias, it is found again exactly when no earlier one differs from it
   only in case.
   */
  lemma {:induction false} AliasReturnsIff(aliases: seq<string>, at: nat, k: string, lower: string -> string)
    requires at < |aliases| && lower(k) == lower(aliases[at])
    requires forall i, j :: 0 <= i < j < |aliases| ==> aliases[i] != aliases[j]
    ensures AliasFor(aliases, k, lower) == aliases[at]
            <==> forall i :: 0 <= i < at ==> lower(aliases[i]) != lower(aliases[at])
  {
    if at > 0 {
      if lower(aliases[0]) != lower(k) {
        AliasReturnsIff(aliases[1..], at - 1, k, lower);
        assert forall i :: 0 < i < at ==> aliases[i] == aliases[1..][i - 1];
        assert forall i :: 0 <= i < at - 1 ==> aliases[1..][i] == aliases[i + 1];
      }
    }
  }
}
