/** store_recursive (work.py:386-426): one stage result is written at the same time
    into the sample's row of the table (pandas `frame`, one row, so a map from column
    name to cell) and into the nested `structured` record.  Lists and dicts are
    spread over columns whose names extend the parent's with "." and the index or key;
    only the top-level call writes to the record. */
module Flatten {
  import opened Base
  import opened Strings

  /** The Python values a stage can return, and that store_recursive walks. */
  datatype Value =
    | Null                        // None
    | Str(s: string)
    | Int(i: int)
    | List(items: seq<Value>)
    | Tuple(items: seq<Value>)
    | Dict(entries: Dict<Value>)  // a dict: its items in insertion order, keys distinct

  /** The key a stage is registered under in PARSERS: one column, or a tuple of names
      over which a dict result is spread. */
  datatype Name = Column(column: string) | Columns(columns: seq<string>)

  /** The sample's row of the frame and its structured record. */
  datatype Tables = Tables(row: map<string, Value>, record: map<string, Value>)

  /** The tables after a call, and the exception it raised, if any. */
  datatype Stored = Stored(tables: Tables, fault: Option<Fault>)

  /** store_recursive's default separator. */
  const Separator: string := "."

  /** f"{name}{separator}{key}" */
  function Child(name: string, key: string): string {
    name + Separator + key
  }

  /** value.get(key, None) on a dict value. */
  function Get(v: Value, key: string): (r: Value)
    requires v.Dict?
    ensures r.Null? || r < v
  {
    if HasKey(v.entries, key) then v.entries[KeyIndex(v.entries, key)].1 else Null
  }

  predicate IsScalar(v: Value) {
    v.Str? || v.Int?
  }

  /** store_recursive(frame, structured, row, parser_name, name, value, table_only). */
  function Store(t: Tables, name: Name, v: Value, tableOnly: bool): Stored
    decreases v, 2
  {
    match v
    case Null => Stored(t, None)
    case List(_) => StoreList(t, name, v, tableOnly)
    case Tuple(_) => StoreList(t, name, v, tableOnly)
    case Dict(_) =>
      (match name
       case Columns(cols) => StoreNamed(t, cols, v, 0, tableOnly)
       case Column(n) =>
         var s := StoreEntries(t, n, v, 0);
         if s.fault.Some? || tableOnly then s
         else Stored(Tables(s.tables.row, s.tables.record[n := v]), None))
    case _ =>
      match name
      case Column(n) => Stored(Tables(t.row[n := v], if tableOnly then t.record else t.record[n := v]), None)
      case Columns(_) => Stored(t, Some(ScalarUnderNameTuple))
  }

  /** A list, or a tuple taken as the list of its items: the length column, then each
      item under name.i, then the whole list in the record. */
  function StoreList(t: Tables, name: Name, v: Value, tableOnly: bool): Stored
    requires v.List? || v.Tuple?
    decreases v, 1
  {
    match name
    case Columns(_) => Stored(t, Some(ListUnderNameTuple))
    case Column(n) =>
      var s := StoreItems(Tables(t.row[Child(n, "length") := Int(|v.items|)], t.record), n, v, 0);
      if s.fault.Some? || tableOnly then s
      else Stored(Tables(s.tables.row, s.tables.record[n := List(v.items)]), None)
  }

  /** The items of a list from index i on, each stored table-only under name.i. */
  function StoreItems(t: Tables, n: string, v: Value, i: nat): Stored
    requires (v.List? || v.Tuple?) && i <= |v.items|
    decreases v, 0, |v.items| - i
  {
    if i == |v.items| then Stored(t, None)
    else
      var s := Store(t, Column(Child(n, ShowNat(i))), v.items[i], true);
      if s.fault.Some? then s else StoreItems(s.tables, n, v, i + 1)
  }

  /** The items of a dict stored under a string name, from item i on, each table-only
      under name.key. */
  function StoreEntries(t: Tables, n: string, v: Value, i: nat): Stored
    requires v.Dict? && i <= |v.entries|
    decreases v, 0, |v.entries| - i
  {
    if i == |v.entries| then Stored(t, None)
    else
      var s := Store(t, Column(Child(n, v.entries[i].0)), v.entries[i].1, true);
      if s.fault.Some? then s else StoreEntries(s.tables, n, v, i + 1)
  }

  /** A dict stored under a tuple of names, from name i on: each name gets
      value.get(name, None), table-only, and unless table_only also in the record. */
  function StoreNamed(t: Tables, cols: seq<string>, v: Value, i: nat, tableOnly: bool): Stored
    requires v.Dict? && i <= |cols|
    decreases v, 0, |cols| - i
  {
    if i == |cols| then Stored(t, None)
    else
      var item := Get(v, cols[i]);
      // the call on None returns at once (written out, as None is not a part of v)
      var s := if item.Null? then Stored(t, None) else Store(t, Column(cols[i]), item, true);
      if s.fault.Some? then s
      else
        var t' := if tableOnly then s.tables else Tables(s.tables.row, s.tables.record[cols[i] := item]);
        StoreNamed(t', cols, v, i + 1, tableOnly)
  }

  /** The frame and the structured record store_recursive writes into. */
  class Sink {
    var row: map<string, Value>
    var record: map<string, Value>

    constructor(record: map<string, Value>)
      ensures row == map[] && this.record == record
    {
      row := map[];
      this.record := record;
    }

    function Contents(): Tables
      reads this
    {
      Tables(row, record)
    }
  }

  /** store_recursive itself: the recursion and the loops of the source, writing into
      the sink in place; an exception leaves the writes made before it. */
  method StoreRecursive(sink: Sink, name: Name, value: Value, tableOnly: bool) returns (fault: Option<Fault>)
    modifies sink
    ensures Stored(sink.Contents(), fault) == Store(old(sink.Contents()), name, value, tableOnly)
    decreases value, 2
  {
    if value.Null? {
      return None;
    }
    if value.List? || value.Tuple? {
      if name.Columns? {
        return Some(ListUnderNameTuple);
      }
      var n := name.column;
      sink.row := sink.row[Child(n, "length") := Int(|value.items|)];
      ghost var start := sink.Contents();
      var i := 0;
      while i < |value.items|
        invariant 0 <= i <= |value.items|
        invariant StoreItems(start, n, value, 0) == StoreItems(sink.Contents(), n, value, i)
      {
        var f := StoreRecursive(sink, Column(Child(n, ShowNat(i))), value.items[i], true);
        if f.Some? {
          return f;
        }
        i := i + 1;
      }
      if !tableOnly {
        sink.record := sink.record[n := List(value.items)];
      }
      return None;
    }
    if value.Dict? {
      if name.Columns? {
        var cols := name.columns;
        ghost var start := sink.Contents();
        var i := 0;
        while i < |cols|
          invariant 0 <= i <= |cols|
          invariant StoreNamed(start, cols, value, 0, tableOnly) == StoreNamed(sink.Contents(), cols, value, i, tableOnly)
        {
          var item := Get(value, cols[i]);
          if !item.Null? {
            var f := StoreRecursive(sink, Column(cols[i]), item, true);
            if f.Some? {
              return f;
            }
          }
          if !tableOnly {
            sink.record := sink.record[cols[i] := item];
          }
          i := i + 1;
        }
        return None;
      }
      var n := name.column;
      ghost var start := sink.Contents();
      var i := 0;
      while i < |value.entries|
        invariant 0 <= i <= |value.entries|
        invariant StoreEntries(start, n, value, 0) == StoreEntries(sink.Contents(), n, value, i)
      {
        var f := StoreRecursive(sink, Column(Child(n, value.entries[i].0)), value.entries[i].1, true);
        if f.Some? {
          return f;
        }
        i := i + 1;
      }
      if !tableOnly {
        sink.record := sink.record[n := value];
      }
      return None;
    }
    if name.Column? {
      sink.row := sink.row[name.column := value];
      if !tableOnly {
        sink.record := sink.record[name.column := value];
      }
      return None;
    }
    return Some(ScalarUnderNameTuple);
  }

  /** Under a column name store_recursive never raises: every recursive call is made
      under a column name too. */
  lemma {:induction false} ColumnNeverRaises(t: Tables, n: string, v: Value, tableOnly: bool)
    ensures Store(t, Column(n), v, tableOnly).fault == None
    decreases v, 2
  {
    match v
    case List(_) => ItemsNeverRaise(Tables(t.row[Child(n, "length") := Int(|v.items|)], t.record), n, v, 0);
    case Tuple(_) => ItemsNeverRaise(Tables(t.row[Child(n, "length") := Int(|v.items|)], t.record), n, v, 0);
    case Dict(_) => EntriesNeverRaise(t, n, v, 0);
    case _ =>
  }

  lemma {:induction false} ItemsNeverRaise(t: Tables, n: string, v: Value, i: nat)
    requires (v.List? || v.Tuple?) && i <= |v.items|
    ensures StoreItems(t, n, v, i).fault == None
    decreases v, 0, |v.items| - i
  {
    if i < |v.items| {
      ColumnNeverRaises(t, Child(n, ShowNat(i)), v.items[i], true);
      ItemsNeverRaise(Store(t, Column(Child(n, ShowNat(i))), v.items[i], true).tables, n, v, i + 1);
    }
  }

  lemma {:induction false} EntriesNeverRaise(t: Tables, n: string, v: Value, i: nat)
    requires v.Dict? && i <= |v.entries|
    ensures StoreEntries(t, n, v, i).fault == None
    decreases v, 0, |v.entries| - i
  {
    if i < |v.entries| {
      ColumnNeverRaises(t, Child(n, v.entries[i].0), v.entries[i].1, true);
      EntriesNeverRaise(Store(t, Column(Child(n, v.entries[i].0)), v.entries[i].1, true).tables, n, v, i + 1);
    }
  }

  lemma {:induction false} NamedNeverRaises(t: Tables, cols: seq<string>, v: Value, i: nat, tableOnly: bool)
    requires v.Dict? && i <= |cols|
    ensures StoreNamed(t, cols, v, i, tableOnly).fault == None
    decreases |cols| - i
  {
    if i < |cols| {
      var item := Get(v, cols[i]);
      if !item.Null? {
        ColumnNeverRaises(t, cols[i], item, true);
      }
      var s := if item.Null? then Stored(t, None) else Store(t, Column(cols[i]), item, true);
      var t' := if tableOnly then s.tables else Tables(s.tables.row, s.tables.record[cols[i] := item]);
      NamedNeverRaises(t', cols, v, i + 1, tableOnly);
    }
  }

  /** The exceptions of store_recursive: only a list or tuple (AssertionError) or a
      scalar (the explicit raise) under a tuple of names; None, a dict, and anything
      under a column name are stored without raising. */
  lemma StoreRaises(t: Tables, name: Name, v: Value, tableOnly: bool)
    ensures Store(t, name, v, tableOnly).fault ==
      if name.Column? || v.Null? || v.Dict? then None
      else if v.List? || v.Tuple? then Some(ListUnderNameTuple)
      else Some(ScalarUnderNameTuple)
    ensures Store(t, name, v, tableOnly).fault.Some? ==> Store(t, name, v, tableOnly).tables == t
  {
    if name.Column? {
      ColumnNeverRaises(t, name.column, v, tableOnly);
    } else if v.Dict? {
      NamedNeverRaises(t, name.columns, v, 0, tableOnly);
    }
  }

  /** A table-only call, which is what every recursive call is, leaves the record as it
      was, whatever it stores and even when it raises. */
  lemma {:induction false} TableOnlyKeepsRecord(t: Tables, name: Name, v: Value)
    ensures Store(t, name, v, true).tables.record == t.record
    decreases v, 2
  {
    match v
    case List(_) =>
      if name.Column? {
        ItemsKeepRecord(Tables(t.row[Child(name.column, "length") := Int(|v.items|)], t.record), name.column, v, 0);
      }
    case Tuple(_) =>
      if name.Column? {
        ItemsKeepRecord(Tables(t.row[Child(name.column, "length") := Int(|v.items|)], t.record), name.column, v, 0);
      }
    case Dict(_) =>
      if name.Column? {
        EntriesKeepRecord(t, name.column, v, 0);
      } else {
        NamedKeepsRecord(t, name.columns, v, 0);
      }
    case _ =>
  }

  lemma {:induction false} ItemsKeepRecord(t: Tables, n: string, v: Value, i: nat)
    requires (v.List? || v.Tuple?) && i <= |v.items|
    ensures StoreItems(t, n, v, i).tables.record == t.record
    decreases v, 0, |v.items| - i
  {
    if i < |v.items| {
      TableOnlyKeepsRecord(t, Column(Child(n, ShowNat(i))), v.items[i]);
      ItemsKeepRecord(Store(t, Column(Child(n, ShowNat(i))), v.items[i], true).tables, n, v, i + 1);
    }
  }

  lemma {:induction false} EntriesKeepRecord(t: Tables, n: string, v: Value, i: nat)
    requires v.Dict? && i <= |v.entries|
    ensures StoreEntries(t, n, v, i).tables.record == t.record
    decreases v, 0, |v.entries| - i
  {
    if i < |v.entries| {
      TableOnlyKeepsRecord(t, Column(Child(n, v.entries[i].0)), v.entries[i].1);
      EntriesKeepRecord(Store(t, Column(Child(n, v.entries[i].0)), v.entries[i].1, true).tables, n, v, i + 1);
    }
  }

  lemma {:induction false} NamedKeepsRecord(t: Tables, cols: seq<string>, v: Value, i: nat)
    requires v.Dict? && i <= |cols|
    ensures StoreNamed(t, cols, v, i, true).tables.record == t.record
    decreases v, 0, |cols| - i
  {
    if i < |cols| {
      var item := Get(v, cols[i]);
      if !item.Null? {
        TableOnlyKeepsRecord(t, Column(cols[i]), item);
      }
      var s := if item.Null? then Stored(t, None) else Store(t, Column(cols[i]), item, true);
      NamedKeepsRecord(s.tables, cols, v, i + 1);
    }
  }

  /** Two maps agree on every key outside ks. */
  ghost predicate AgreeOutside(a: map<string, Value>, b: map<string, Value>, ks: set<string>) {
    forall k :: k !in ks ==> (k in a <==> k in b) && (k in a ==> a[k] == b[k])
  }

  /** The top-level call under a column name puts the value in the record under that
      name (a tuple as the list of its items) and touches no other key; None changes
      nothing. */
  lemma StoreRecordColumn(t: Tables, n: string, v: Value)
    ensures Store(t, Column(n), v, false).tables.record ==
      if v.Null? then t.record else t.record[n := if v.Tuple? then List(v.items) else v]
  {
    if v.List? || v.Tuple? {
      var t1 := Tables(t.row[Child(n, "length") := Int(|v.items|)], t.record);
      ItemsKeepRecord(t1, n, v, 0);
      ItemsNeverRaise(t1, n, v, 0);
    } else if v.Dict? {
      EntriesKeepRecord(t, n, v, 0);
      EntriesNeverRaise(t, n, v, 0);
    }
  }

  /** A dict under a tuple of names puts value.get(name, None) in the record under each
      of the names, None included, and touches no other key. */
  lemma {:induction false} StoreRecordNamed(t: Tables, cols: seq<string>, v: Value, i: nat)
    requires v.Dict? && i <= |cols|
    ensures var r := StoreNamed(t, cols, v, i, false).tables.record;
      && (forall j :: i <= j < |cols| ==> cols[j] in r && r[cols[j]] == Get(v, cols[j]))
      && AgreeOutside(t.record, r, set j | i <= j < |cols| :: cols[j])
    decreases |cols| - i
  {
    if i < |cols| {
      var item := Get(v, cols[i]);
      if !item.Null? {
        TableOnlyKeepsRecord(t, Column(cols[i]), item);
        ColumnNeverRaises(t, cols[i], item, true);
      }
      var s := if item.Null? then Stored(t, None) else Store(t, Column(cols[i]), item, true);
      var t' := Tables(s.tables.row, s.tables.record[cols[i] := item]);
      StoreRecordNamed(t', cols, v, i + 1);
      var r := StoreNamed(t', cols, v, i + 1, false).tables.record;
      assert StoreNamed(t, cols, v, i, false).tables.record == r;
      assert cols[i] in r && r[cols[i]] == item by {
        if cols[i] !in set j | i + 1 <= j < |cols| :: cols[j] {
          assert cols[i] in t'.record;
        }
      }
    }
  }

  /** None is a no-op, and a tuple is stored exactly as the list of its items. */
  lemma NoneAndTuple(t: Tables, name: Name, xs: seq<Value>, tableOnly: bool)
    ensures Store(t, name, Null, tableOnly) == Stored(t, None)
    ensures Store(t, name, Tuple(xs), tableOnly) == Store(t, name, List(xs), tableOnly)
  {
    if name.Column? {
      var n := name.column;
      ItemsOfTuple(Tables(t.row[Child(n, "length") := Int(|xs|)], t.record), n, xs, 0);
    }
  }

  lemma {:induction false} ItemsOfTuple(t: Tables, n: string, xs: seq<Value>, i: nat)
    requires i <= |xs|
    ensures StoreItems(t, n, Tuple(xs), i) == StoreItems(t, n, List(xs), i)
    decreases |xs| - i
  {
    if i < |xs| {
      var s := Store(t, Column(Child(n, ShowNat(i))), xs[i], true);
      if s.fault.None? {
        ItemsOfTuple(s.tables, n, xs, i + 1);
      }
    }
  }

  /** Distinct keys give distinct child column names. */
  lemma ChildInjective(n: string, a: string, b: string)
    requires Child(n, a) == Child(n, b)
    ensures a == b
  {
    assert a == Child(n, a)[|n| + 1..];
    assert b == Child(n, b)[|n| + 1..];
  }

  /** The index columns name.0, name.1, ... are pairwise distinct and none is
      name.length. */
  lemma IndexColumns(n: string, i: nat, j: nat)
    ensures Child(n, ShowNat(i)) == Child(n, ShowNat(j)) ==> i == j
    ensures Child(n, "length") != Child(n, ShowNat(i))
  {
    if Child(n, ShowNat(i)) == Child(n, ShowNat(j)) {
      ChildInjective(n, ShowNat(i), ShowNat(j));
      ShowNatInjective(i, j);
    }
    var k := |n| + |Separator|;
    assert Child(n, "length")[k] == 'l';
    assert Child(n, ShowNat(i))[k] == ShowNat(i)[0] && IsDigit(ShowNat(i)[0]);
  }

  /** The index columns of items i.. of a list. */
  ghost function IndexColumnsFrom(n: string, xs: seq<Value>, i: nat): set<string> {
    set j | i <= j < |xs| :: Child(n, ShowNat(j))
  }

  /** Agreement outside two key sets composes. */
  lemma AgreeOutsideTrans(a: map<string, Value>, b: map<string, Value>, c: map<string, Value>, ks: set<string>, ks': set<string>)
    requires AgreeOutside(a, b, ks) && AgreeOutside(b, c, ks')
    ensures AgreeOutside(a, c, ks + ks')
  {
  }

  /** Writing item i in front of the cells of items i+1.. gives the cells of items i.. */
  lemma CellsStep(a: map<string, Value>, r: map<string, Value>, n: string, xs: seq<Value>, i: nat)
    requires i < |xs|
    requires forall j :: i + 1 <= j < |xs| ==> Child(n, ShowNat(j)) in r && r[Child(n, ShowNat(j))] == xs[j]
    requires AgreeOutside(a[Child(n, ShowNat(i)) := xs[i]], r, IndexColumnsFrom(n, xs, i + 1))
    ensures forall j :: i <= j < |xs| ==> Child(n, ShowNat(j)) in r && r[Child(n, ShowNat(j))] == xs[j]
    ensures AgreeOutside(a, r, IndexColumnsFrom(n, xs, i))
  {
    var c := Child(n, ShowNat(i));
    assert c !in IndexColumnsFrom(n, xs, i + 1) by {
      forall j | i + 1 <= j < |xs| ensures Child(n, ShowNat(j)) != c {
        IndexColumns(n, i, j);
      }
    }
    assert IndexColumnsFrom(n, xs, i) == {c} + IndexColumnsFrom(n, xs, i + 1);
    AgreeOutsideTrans(a, a[c := xs[i]], r, {c}, IndexColumnsFrom(n, xs, i + 1));
  }

  lemma {:induction false} ItemsRow(t: Tables, n: string, v: Value, i: nat)
    requires (v.List? || v.Tuple?) && i <= |v.items|
    requires forall j :: i <= j < |v.items| ==> IsScalar(v.items[j])
    ensures var r := StoreItems(t, n, v, i).tables.row;
      && (forall j :: i <= j < |v.items| ==> Child(n, ShowNat(j)) in r && r[Child(n, ShowNat(j))] == v.items[j])
      && AgreeOutside(t.row, r, IndexColumnsFrom(n, v.items, i))
    decreases |v.items| - i
  {
    if i < |v.items| {
      var t' := Tables(t.row[Child(n, ShowNat(i)) := v.items[i]], t.record);
      assert StoreItems(t, n, v, i) == StoreItems(t', n, v, i + 1) by {
        assert Store(t, Column(Child(n, ShowNat(i))), v.items[i], true) == Stored(t', None);
      }
      ItemsRow(t', n, v, i + 1);
      CellsStep(t.row, StoreItems(t', n, v, i + 1).tables.row, n, v.items, i);
    }
  }

  /** A list of scalars under a column name: name.length holds its length, name.i its
      i-th item, and no other column of the row changes. */
  lemma ListRow(t: Tables, n: string, v: Value, tableOnly: bool)
    requires v.List? || v.Tuple?
    requires forall j :: 0 <= j < |v.items| ==> IsScalar(v.items[j])
    ensures var r := Store(t, Column(n), v, tableOnly).tables.row;
      && Child(n, "length") in r && r[Child(n, "length")] == Int(|v.items|)
      && (forall j :: 0 <= j < |v.items| ==> Child(n, ShowNat(j)) in r && r[Child(n, ShowNat(j))] == v.items[j])
      && AgreeOutside(t.row, r, {Child(n, "length")} + IndexColumnsFrom(n, v.items, 0))
  {
    var t1 := Tables(t.row[Child(n, "length") := Int(|v.items|)], t.record);
    ItemsRow(t1, n, v, 0);
    ItemsNeverRaise(t1, n, v, 0);
    assert Child(n, "length") !in IndexColumnsFrom(n, v.items, 0) by {
      forall j | 0 <= j < |v.items| ensures Child(n, ShowNat(j)) != Child(n, "length") {
        IndexColumns(n, j, j);
      }
    }
  }

  /** The names of a tuple, from i on, whose value in the dict is not None. */
  ghost function PresentFrom(cols: seq<string>, v: Value, i: nat): set<string>
    requires v.Dict?
  {
    set j | i <= j < |cols| && !Get(v, cols[j]).Null? :: cols[j]
  }

  /** A dict of scalars (or None) under a tuple of names: each name whose value is
      present gets a column holding it; a name the dict lacks, or maps to None, gets no
      column, and no other column changes. */
  lemma {:induction false} NamedRow(t: Tables, cols: seq<string>, v: Value, i: nat, tableOnly: bool)
    requires v.Dict? && i <= |cols|
    requires forall k :: 0 <= k < |v.entries| ==> IsScalar(v.entries[k].1) || v.entries[k].1.Null?
    ensures var r := StoreNamed(t, cols, v, i, tableOnly).tables.row;
      && (forall j :: i <= j < |cols| && !Get(v, cols[j]).Null? ==> cols[j] in r && r[cols[j]] == Get(v, cols[j]))
      && AgreeOutside(t.row, r, PresentFrom(cols, v, i))
    decreases |cols| - i
  {
    if i < |cols| {
      var item := Get(v, cols[i]);
      var s := if item.Null? then Stored(t, None) else Store(t, Column(cols[i]), item, true);
      assert !item.Null? ==> s == Stored(Tables(t.row[cols[i] := item], t.record), None);
      var t' := if tableOnly then s.tables else Tables(s.tables.row, s.tables.record[cols[i] := item]);
      NamedRow(t', cols, v, i + 1, tableOnly);
      var r := StoreNamed(t', cols, v, i + 1, tableOnly).tables.row;
      assert StoreNamed(t, cols, v, i, tableOnly).tables.row == r;
      if !item.Null? {
        assert cols[i] in r && r[cols[i]] == item by {
          if cols[i] !in PresentFrom(cols, v, i + 1) {
            assert cols[i] in t'.row;
          }
        }
      }
    }
  }

  /** The record keys a top-level call may write: its column, or its tuple of names. */
  ghost function NameKeys(name: Name): set<string> {
    match name
    case Column(n) => {n}
    case Columns(cols) => set j | 0 <= j < |cols| :: cols[j]
  }

  /** A top-level call leaves every record key outside its name alone. */
  lemma StoreRecordOutside(t: Tables, name: Name, v: Value)
    ensures AgreeOutside(t.record, Store(t, name, v, false).tables.record, NameKeys(name))
  {
    StoreRaises(t, name, v, false);
    match name
    case Column(n) => StoreRecordColumn(t, n, v);
    case Columns(cols) =>
      if v.Dict? {
        StoreRecordNamed(t, cols, v, 0);
      }
  }
}
