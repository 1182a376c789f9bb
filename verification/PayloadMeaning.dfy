/** What the comparator's verdict and its table mean: equality of plain values, and one row per field. */
module PayloadMeaning {
  import opened Lists
  import opened Payloads

  // ---------------------------------------------------------------- equality of plain values

  /** A JSON value without the order of its keys. */
  datatype Plain =
    | PlainNull
    | PlainBool(b: bool)
    | PlainInt(n: int)
    | PlainFloat(r: real)
    | PlainStr(s: string)
    | PlainList(items: seq<Plain>)
    | PlainDict(entries: map<string, Plain>)

  function Canon(v: Value): Plain {
    match v
    case Null => PlainNull
    case Bool(b) => PlainBool(b)
    case Int(n) => PlainInt(n)
    case Float(r) => PlainFloat(r)
    case Str(s) => PlainStr(s)
    case List(items) => PlainList(seq(|items|, i requires 0 <= i < |items| => Canon(items[i])))
    case Dict(_, entries) => PlainDict(map k | k in entries :: Canon(entries[k]))
  }

  /** The types tell the seven kinds of values apart. */
  lemma TypesTellApart(a: Value, b: Value)
    ensures TypeOf(a) == TypeOf(b) <==>
            || (a.Null? && b.Null?) || (a.Bool? && b.Bool?) || (a.Int? && b.Int?) || (a.Float? && b.Float?)
            || (a.Str? && b.Str?) || (a.List? && b.List?) || (a.Dict? && b.Dict?)
  {
  }

  /** For values that are neither lists nor mappings it is plain equality. */
  lemma IdenticalScalars(a: Value, b: Value)
    requires !a.List? && !a.Dict?
    ensures Identical(a, b) <==> a == b
  {
  }

  /** Identity is equality up to the order of keys. */
  lemma {:induction false} IdenticalIsCanon(a: Value, b: Value)
    ensures Identical(a, b) <==> Canon(a) == Canon(b)
  {
    match (a, b) {
      case (List(xs), List(ys)) =>
        forall i | 0 <= i < |xs| && i < |ys|
          ensures Identical(xs[i], ys[i]) <==> Canon(xs[i]) == Canon(ys[i])
        {
          IdenticalIsCanon(xs[i], ys[i]);
        }
        ListsCanon(xs, ys);
      case (Dict(_, d), Dict(_, e)) =>
        forall k | k in d && k in e
          ensures Identical(d[k], e[k]) <==> Canon(d[k]) == Canon(e[k])
        {
          IdenticalIsCanon(d[k], e[k]);
        }
        DictsCanon(a, b);
      case _ =>
    }
  }

  lemma ListsCanon(xs: seq<Value>, ys: seq<Value>)
    ensures Canon(List(xs)) == Canon(List(ys)) <==> |xs| == |ys| && forall i :: 0 <= i < |xs| ==> Canon(xs[i]) == Canon(ys[i])
  {
    var p, q := Canon(List(xs)).items, Canon(List(ys)).items;
    assert forall i :: 0 <= i < |xs| ==> p[i] == Canon(xs[i]);
    assert forall i :: 0 <= i < |ys| ==> q[i] == Canon(ys[i]);
  }

  lemma DictsCanon(a: Value, b: Value)
    requires a.Dict? && b.Dict?
    ensures Canon(a) == Canon(b) <==>
            a.entries.Keys == b.entries.Keys && forall k :: k in a.entries ==> Canon(a.entries[k]) == Canon(b.entries[k])
  {
    var p, q := Canon(a).entries, Canon(b).entries;
    assert p.Keys == a.entries.Keys && q.Keys == b.entries.Keys;
    assert forall k :: k in a.entries ==> p[k] == Canon(a.entries[k]);
    assert forall k :: k in b.entries ==> q[k] == Canon(b.entries[k]);
  }

  /** The strings a value holds, at any depth. */
  function StringsIn(v: Value): set<string> {
    match v
    case Str(s) => {s}
    case List(items) => set i, s | 0 <= i < |items| && s in StringsIn(items[i]) :: s
    case Dict(_, entries) => set k, s | k in entries && s in StringsIn(entries[k]) :: s
    case _ => {}
  }

  lemma {:induction false} EqualStrings(a: Value, b: Value)
    requires Equal(a, b)
    ensures StringsIn(a) == StringsIn(b)
  {
    match (a, b) {
      case (List(xs), List(ys)) =>
        forall i | 0 <= i < |xs|
          ensures StringsIn(xs[i]) == StringsIn(ys[i])
        {
          EqualStrings(xs[i], ys[i]);
        }
      case (Dict(_, d), Dict(_, e)) =>
        forall k | k in d
          ensures StringsIn(d[k]) == StringsIn(e[k])
        {
          EqualStrings(d[k], e[k]);
        }
      case _ =>
    }
  }

  /** Payloads that pass without volatile keys hold the same strings. */
  lemma {:induction false} PassHoldsStrings(a: Value, b: Value)
    requires a.Dict? && b.Dict? && Same({}, a, b)
    ensures StringsIn(a) == StringsIn(b)
  {
    forall k | k in a.entries
      ensures StringsIn(a.entries[k]) == StringsIn(b.entries[k])
    {
      if a.entries[k].Dict? && b.entries[k].Dict? {
        PassHoldsStrings(a.entries[k], b.entries[k]);
      } else {
        EqualStrings(a.entries[k], b.entries[k]);
      }
    }
  }

  // ---------------------------------------------------------------- one row per field

  /** The value at the end of a path of keys. */
  function Lookup(v: Value, path: seq<string>): Option<Value> {
    if path == [] then Some(v)
    else if v.Dict? && path[0] in v.entries then Lookup(v.entries[path[0]], path[1..])
    else None
  }

  /** A path along mappings of both sides to a field that at least one of them has, and that is not a mapping on both. */
  predicate IsField(a: Value, b: Value, path: seq<string>)
    requires a.Dict? && b.Dict?
  {
    && path != []
    && var k := path[0];
       if k in a.entries && k in b.entries && a.entries[k].Dict? && b.entries[k].Dict?
       then IsField(a.entries[k], b.entries[k], path[1..])
       else |path| == 1 && (k in a.entries || k in b.entries)
  }

  function Dotted(path: seq<string>): string
    requires path != []
  {
    if |path| == 1 then path[0] else path[0] + "." + Dotted(path[1..])
  }

  function OrMissing(v: Option<Value>): Value {
    if v.Some? then v.value else Str("<<MISSING>>")
  }

  /** What the row of a field says: its path, both values and their types, whether it is volatile, whether it passes and why. */
  ghost predicate Describes(copy: Copy, volatile: set<string>, a: Value, b: Value, path: seq<string>, row: Row)
    requires path != []
  {
    var x, y, drifts := Lookup(a, path), Lookup(b, path), Last(path) in volatile;
    var present := x.Some? && y.Some?;
    && row.property == Dotted(path)
    && row.directValue == OrMissing(x) && row.gatewayValue == OrMissing(y)
    && row.directType == TypeOf(OrMissing(x)) && row.gatewayType == TypeOf(OrMissing(y))
    && row.volatile == drifts
    && (row.byteIdentical <==> present && TypeOf(x.value) == TypeOf(y.value) && (drifts || Equal(x.value, y.value)))
    && (!present ==> row.reason == FieldAddedOrDropped)
    && (present && TypeOf(x.value) != TypeOf(y.value) ==> row.reason == TypeCastDrift)
    && (present && TypeOf(x.value) == TypeOf(y.value) && !Equal(x.value, y.value) && !drifts ==> row.reason == ValueMismatch)
    && (row.byteIdentical ==> row.reason == if copy == Gateway then NoReason
                                            else if Equal(x.value, y.value) then Fine else AcceptableVolatileDrift)
  }

  /** The row describes some field. */
  ghost predicate IsFieldRow(copy: Copy, volatile: set<string>, a: Value, b: Value, row: Row)
    requires a.Dict? && b.Dict?
  {
    exists path :: IsField(a, b, path) && Describes(copy, volatile, a, b, path, row)
  }

  /** The rows of one key describe the fields whose path starts with it, */
  lemma LeafDescribed(copy: Copy, volatile: set<string>, a: Value, b: Value, k: string)
    requires a.Dict? && b.Dict? && !BothNested(a, b, k)
    ensures Describes(copy, volatile, a, b, [k], LeafRow(copy, volatile, a, b, k))
  {
    assert [k][1..] == [];
    assert Lookup(a, [k]) == if k in a.entries then Some(a.entries[k]) else None;
    assert Lookup(b, [k]) == if k in b.entries then Some(b.entries[k]) else None;
  }

  /** and a path grows with its label when rows are taken over from a nested mapping. */
  lemma NestedDescribed(copy: Copy, volatile: set<string>, a: Value, b: Value, k: string, path: seq<string>, row: Row)
    requires a.Dict? && b.Dict? && BothNested(a, b, k) && IsField(a.entries[k], b.entries[k], path)
    requires Describes(copy, volatile, a.entries[k], b.entries[k], path, row)
    ensures IsField(a, b, [k] + path) && Describes(copy, volatile, a, b, [k] + path, row.(property := k + "." + row.property))
  {
    var longer := [k] + path;
    assert longer[0] == k && longer[1..] == path && Last(longer) == Last(path);
  }

  /** Every row of the table describes a field, */
  lemma {:induction false} RowsAreFields(copy: Copy, volatile: set<string>, a: Value, b: Value, ks: seq<string>)
    requires a.Dict? && b.Dict? && WellFormed(a) && WellFormed(b)
    requires forall k :: k in ks ==> k in a.entries || k in b.entries
    ensures forall row :: row in RowsOf(copy, volatile, a, b, ks) ==> IsFieldRow(copy, volatile, a, b, row)
    decreases a, |ks|
  {
    if ks != [] {
      var front, k := Init(ks), Last(ks);
      RowsAreFields(copy, volatile, a, b, front);
      assert k in ks;
      if BothNested(a, b, k) {
        var x, y := a.entries[k], b.entries[k];
        AllKeysAre(x, y);
        RowsAreFields(copy, volatile, x, y, AllKeys(x, y));
      }
      KeyRowsAreFields(copy, volatile, a, b, k);
    }
  }

  lemma KeyRowsAreFields(copy: Copy, volatile: set<string>, a: Value, b: Value, k: string)
    requires a.Dict? && b.Dict? && (k in a.entries || k in b.entries)
    requires BothNested(a, b, k) ==>
               forall row :: row in Matrix(copy, volatile, a.entries[k], b.entries[k]) ==>
                 IsFieldRow(copy, volatile, a.entries[k], b.entries[k], row)
    ensures forall row :: row in KeyRows(copy, volatile, a, b, k) ==> IsFieldRow(copy, volatile, a, b, row)
  {
    if BothNested(a, b, k) {
      var rows := Matrix(copy, volatile, a.entries[k], b.entries[k]);
      forall i | 0 <= i < |rows|
        ensures IsFieldRow(copy, volatile, a, b, Prefixed(k, rows)[i])
      {
        assert rows[i] in rows;
        var path :| IsField(a.entries[k], b.entries[k], path)
                    && Describes(copy, volatile, a.entries[k], b.entries[k], path, rows[i]);
        NestedDescribed(copy, volatile, a, b, k, path, rows[i]);
      }
    } else {
      LeafDescribed(copy, volatile, a, b, k);
      assert IsField(a, b, [k]);
    }
  }

  /** and every field has its row. */
  lemma {:induction false} FieldsHaveRows(copy: Copy, volatile: set<string>, a: Value, b: Value, path: seq<string>)
      returns (row: Row)
    requires a.Dict? && b.Dict? && WellFormed(a) && WellFormed(b) && IsField(a, b, path)
    ensures row in Matrix(copy, volatile, a, b) && Describes(copy, volatile, a, b, path, row)
    decreases |path|
  {
    var k := path[0];
    AllKeysAre(a, b);
    if BothNested(a, b, k) {
      var rows := Matrix(copy, volatile, a.entries[k], b.entries[k]);
      var inner := FieldsHaveRows(copy, volatile, a.entries[k], b.entries[k], path[1..]);
      var i :| 0 <= i < |rows| && rows[i] == inner;
      row := Prefixed(k, rows)[i];
      NestedDescribed(copy, volatile, a, b, k, path[1..], inner);
      assert path == [k] + path[1..];
    } else {
      row := LeafRow(copy, volatile, a, b, k);
      LeafDescribed(copy, volatile, a, b, k);
      assert path == [k];
    }
    KeyRowsIn(copy, volatile, a, b, AllKeys(a, b), k, row);
  }

  lemma {:induction false} KeyRowsIn(copy: Copy, volatile: set<string>, a: Value, b: Value, ks: seq<string>, k: string, row: Row)
    requires a.Dict? && b.Dict? && k in ks && row in KeyRows(copy, volatile, a, b, k)
    ensures row in RowsOf(copy, volatile, a, b, ks)
    decreases |ks|
  {
    if k != Last(ks) {
      KeyRowsIn(copy, volatile, a, b, Init(ks), k, row);
    }
  }

  /** The table holds exactly one kind of row: those that describe a field of the two payloads. */
  lemma MatrixIsFields(copy: Copy, volatile: set<string>, a: Value, b: Value)
    requires a.Dict? && b.Dict? && WellFormed(a) && WellFormed(b)
    ensures forall row :: row in Matrix(copy, volatile, a, b) ==> IsFieldRow(copy, volatile, a, b, row)
    ensures forall path :: IsField(a, b, path) ==>
              exists row :: row in Matrix(copy, volatile, a, b) && Describes(copy, volatile, a, b, path, row)
  {
    AllKeysAre(a, b);
    RowsAreFields(copy, volatile, a, b, AllKeys(a, b));
    forall path | IsField(a, b, path)
      ensures exists row :: row in Matrix(copy, volatile, a, b) && Describes(copy, volatile, a, b, path, row)
    {
      var row := FieldsHaveRows(copy, volatile, a, b, path);
    }
  }

  /** Rows follow the keys of the direct payload, in its order, and then those that only the relayed one has, in its order. */
  lemma KeysInOrder(a: Value, b: Value)
    requires a.Dict? && b.Dict? && WellFormed(a) && WellFormed(b)
    ensures AllKeys(a, b) == a.keys + Filter(k => k !in a.entries, b.keys)
  {
    var extra := Filter(k => k !in a.entries, b.keys);
    FilterDistinct(k => k !in a.entries, b.keys);
    DistinctAppend(a.keys, extra);
    FirstSeenOfDistinct(a.keys + extra);
  }
}
