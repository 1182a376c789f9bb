/** The payload comparator, in its two copies: `transparent_proxy.py` and `iob-integration/gateway_app/transparent_proxy.py`.
    Numbers are exact, so NaN does not occur. */
module Payloads {
  import opened Lists

  // ---------------------------------------------------------------- JSON values

  datatype Value =
    | Null
    | Bool(b: bool)
    | Int(n: int)
    | Float(r: real)
    | Str(s: string)
    | List(items: seq<Value>)
    | Dict(keys: seq<string>, entries: map<string, Value>)

  /** A dictionary's key order lists exactly its keys, at every depth. */
  ghost predicate WellFormed(v: Value) {
    match v
    case List(items) => forall x :: x in items ==> WellFormed(x)
    case Dict(keys, entries) =>
      Distinct(keys) && (forall k :: k in keys <==> k in entries) && forall k :: k in entries ==> WellFormed(entries[k])
    case _ => true
  }

  datatype TypeName = NoneType | BoolType | IntType | FloatType | StrType | ListType | DictType

  function TypeOf(v: Value): TypeName {
    match v
    case Null => NoneType
    case Bool(_) => BoolType
    case Int(_) => IntType
    case Float(_) => FloatType
    case Str(_) => StrType
    case List(_) => ListType
    case Dict(_, _) => DictType
  }

  predicate IsNumber(v: Value) {
    v.Bool? || v.Int? || v.Float?
  }

  function Numeric(v: Value): real
    requires IsNumber(v)
  {
    match v
    case Bool(b) => if b then 1.0 else 0.0
    case Int(n) => n as real
    case Float(r) => r
  }

  /** Python's `==`: numbers by value across types, lists by position, dictionaries by key whatever their order. */
  predicate Equal(a: Value, b: Value) {
    if IsNumber(a) && IsNumber(b) then Numeric(a) == Numeric(b)
    else match (a, b)
      case (Null, Null) => true
      case (Str(s), Str(t)) => s == t
      case (List(xs), List(ys)) => |xs| == |ys| && forall i :: 0 <= i < |xs| ==> Equal(xs[i], ys[i])
      case (Dict(_, d), Dict(_, e)) => d.Keys == e.Keys && forall k :: k in d ==> Equal(d[k], e[k])
      case _ => false
  }

  lemma {:induction false} EqualReflexive(a: Value)
    ensures Equal(a, a)
  {
    match a {
      case List(items) =>
        forall i | 0 <= i < |items| ensures Equal(items[i], items[i]) { EqualReflexive(items[i]); }
      case Dict(_, entries) =>
        forall k | k in entries ensures Equal(entries[k], entries[k]) { EqualReflexive(entries[k]); }
      case _ =>
    }
  }

  lemma {:induction false} EqualSymmetric(a: Value, b: Value)
    requires Equal(a, b)
    ensures Equal(b, a)
  {
    match (a, b) {
      case (List(xs), List(ys)) =>
        forall i | 0 <= i < |xs| ensures Equal(ys[i], xs[i]) { EqualSymmetric(xs[i], ys[i]); }
      case (Dict(_, d), Dict(_, e)) =>
        forall k | k in e ensures Equal(e[k], d[k]) { EqualSymmetric(d[k], e[k]); }
      case _ =>
    }
  }

  lemma {:induction false} EqualTransitive(a: Value, b: Value, c: Value)
    requires Equal(a, b) && Equal(b, c)
    ensures Equal(a, c)
  {
    match (a, b, c) {
      case (List(xs), List(ys), List(zs)) =>
        forall i | 0 <= i < |xs| ensures Equal(xs[i], zs[i]) { EqualTransitive(xs[i], ys[i], zs[i]); }
      case (Dict(_, d), Dict(_, e), Dict(_, f)) =>
        forall k | k in d ensures Equal(d[k], f[k]) { EqualTransitive(d[k], e[k], f[k]); }
      case _ =>
    }
  }

  // ---------------------------------------------------------------- the verdict

  /** What two payloads must satisfy to pass: the same keys, nested mappings compared alike,
      other fields of the same type, and equal unless the key is volatile. */
  predicate Same(volatile: set<string>, a: Value, b: Value)
    requires a.Dict? && b.Dict?
  {
    && a.entries.Keys == b.entries.Keys
    && forall k :: k in a.entries ==>
         if a.entries[k].Dict? && b.entries[k].Dict? then Same(volatile, a.entries[k], b.entries[k])
         else TypeOf(a.entries[k]) == TypeOf(b.entries[k]) && (k in volatile || Equal(a.entries[k], b.entries[k]))
  }

  lemma {:induction false} SameReflexive(volatile: set<string>, a: Value)
    requires a.Dict?
    ensures Same(volatile, a, a)
  {
    forall k | k in a.entries
      ensures a.entries[k].Dict? ==> Same(volatile, a.entries[k], a.entries[k])
      ensures Equal(a.entries[k], a.entries[k])
    {
      EqualReflexive(a.entries[k]);
      if a.entries[k].Dict? {
        SameReflexive(volatile, a.entries[k]);
      }
    }
  }

  lemma {:induction false} SameSymmetric(volatile: set<string>, a: Value, b: Value)
    requires a.Dict? && b.Dict? && Same(volatile, a, b)
    ensures Same(volatile, b, a)
  {
    forall k | k in b.entries
      ensures if b.entries[k].Dict? && a.entries[k].Dict? then Same(volatile, b.entries[k], a.entries[k])
              else TypeOf(b.entries[k]) == TypeOf(a.entries[k]) && (k in volatile || Equal(b.entries[k], a.entries[k]))
    {
      var x, y := a.entries[k], b.entries[k];
      if x.Dict? && y.Dict? {
        SameSymmetric(volatile, x, y);
      } else if k !in volatile {
        EqualSymmetric(x, y);
      }
    }
  }

  lemma {:induction false} SameTransitive(volatile: set<string>, a: Value, b: Value, c: Value)
    requires a.Dict? && b.Dict? && c.Dict? && Same(volatile, a, b) && Same(volatile, b, c)
    ensures Same(volatile, a, c)
  {
    forall k | k in a.entries
      ensures if a.entries[k].Dict? && c.entries[k].Dict? then Same(volatile, a.entries[k], c.entries[k])
              else TypeOf(a.entries[k]) == TypeOf(c.entries[k]) && (k in volatile || Equal(a.entries[k], c.entries[k]))
    {
      var x, y, z := a.entries[k], b.entries[k], c.entries[k];
      if x.Dict? && y.Dict? {
        SameTransitive(volatile, x, y, z);
      } else if k !in volatile {
        EqualTransitive(x, y, z);
      }
    }
  }

  /** The same keys and types along nested mappings; what lists hold is not looked at. */
  predicate SameShape(a: Value, b: Value)
    requires a.Dict? && b.Dict?
  {
    && a.entries.Keys == b.entries.Keys
    && forall k :: k in a.entries ==>
         if a.entries[k].Dict? && b.entries[k].Dict? then SameShape(a.entries[k], b.entries[k])
         else TypeOf(a.entries[k]) == TypeOf(b.entries[k])
  }

  /** Some field named `name`, at some depth, differs in value. */
  predicate Drifts(a: Value, b: Value, name: string)
    requires a.Dict? && b.Dict?
  {
    exists k :: k in a.entries && k in b.entries &&
      if a.entries[k].Dict? && b.entries[k].Dict? then Drifts(a.entries[k], b.entries[k], name)
      else k == name && !Equal(a.entries[k], b.entries[k])
  }

  /** Payloads pass exactly when their shapes agree along nested mappings and every drifting name is volatile.
      So enlarging the volatile set never turns a pass into a fail. */
  lemma {:induction false} PassIffDriftIsVolatile(volatile: set<string>, a: Value, b: Value)
    requires a.Dict? && b.Dict?
    ensures Same(volatile, a, b) <==> SameShape(a, b) && forall name :: Drifts(a, b, name) ==> name in volatile
  {
    forall k | k in a.entries && k in b.entries && a.entries[k].Dict? && b.entries[k].Dict?
      ensures Same(volatile, a.entries[k], b.entries[k]) <==>
              SameShape(a.entries[k], b.entries[k]) && forall name :: Drifts(a.entries[k], b.entries[k], name) ==> name in volatile
      ensures forall name :: Drifts(a.entries[k], b.entries[k], name) ==> Drifts(a, b, name)
    {
      PassIffDriftIsVolatile(volatile, a.entries[k], b.entries[k]);
    }
    forall k | k in a.entries && k in b.entries && !(a.entries[k].Dict? && b.entries[k].Dict?)
      ensures !Equal(a.entries[k], b.entries[k]) ==> Drifts(a, b, k)
    {
    }
  }

  lemma MoreVolatileStillPasses(volatile: set<string>, more: set<string>, a: Value, b: Value)
    requires a.Dict? && b.Dict? && volatile <= more && Same(volatile, a, b)
    ensures Same(more, a, b)
  {
    PassIffDriftIsVolatile(volatile, a, b);
    PassIffDriftIsVolatile(more, a, b);
  }

  // ---------------------------------------------------------------- what a pass leaves unflagged

  /** Equal, and of the same type at every depth. */
  predicate Identical(a: Value, b: Value) {
    match (a, b)
    case (List(xs), List(ys)) => |xs| == |ys| && forall i :: 0 <= i < |xs| ==> Identical(xs[i], ys[i])
    case (Dict(_, d), Dict(_, e)) => d.Keys == e.Keys && forall k :: k in d ==> Identical(d[k], e[k])
    case _ => TypeOf(a) == TypeOf(b) && Equal(a, b)
  }

  /** Of the same type wherever both have a value. */
  predicate TypesAgree(a: Value, b: Value) {
    && TypeOf(a) == TypeOf(b)
    && match (a, b)
       case (List(xs), List(ys)) => forall i :: 0 <= i < |xs| && i < |ys| ==> TypesAgree(xs[i], ys[i])
       case (Dict(_, d), Dict(_, e)) => forall k :: k in d && k in e ==> TypesAgree(d[k], e[k])
       case _ => true
  }

  lemma {:induction false} IdenticalIff(a: Value, b: Value)
    ensures Identical(a, b) <==> Equal(a, b) && TypesAgree(a, b)
  {
    match (a, b) {
      case (List(xs), List(ys)) =>
        forall i | 0 <= i < |xs| && i < |ys|
          ensures Identical(xs[i], ys[i]) <==> Equal(xs[i], ys[i]) && TypesAgree(xs[i], ys[i])
        {
          IdenticalIff(xs[i], ys[i]);
        }
      case (Dict(_, d), Dict(_, e)) =>
        forall k | k in d && k in e
          ensures Identical(d[k], e[k]) <==> Equal(d[k], e[k]) && TypesAgree(d[k], e[k])
        {
          IdenticalIff(d[k], e[k]);
        }
      case _ =>
    }
  }

  /** No two equal lists, in corresponding fields, hold values of different types. */
  predicate ListsKeepTypes(a: Value, b: Value)
    requires a.Dict? && b.Dict?
  {
    forall k :: k in a.entries && k in b.entries ==>
      if a.entries[k].Dict? && b.entries[k].Dict? then ListsKeepTypes(a.entries[k], b.entries[k])
      else a.entries[k].List? && Equal(a.entries[k], b.entries[k]) ==> TypesAgree(a.entries[k], b.entries[k])
  }

  /** A pass without volatile keys means equality of values and types, as documented, exactly when equal lists agree in type. */
  lemma {:induction false} IdenticalIffPass(a: Value, b: Value)
    requires a.Dict? && b.Dict?
    ensures Identical(a, b) <==> Same({}, a, b) && ListsKeepTypes(a, b)
  {
    forall k | k in a.entries && k in b.entries
      ensures Identical(a.entries[k], b.entries[k]) <==> FieldUnflagged(a.entries[k], b.entries[k])
    {
      var x, y := a.entries[k], b.entries[k];
      if x.Dict? && y.Dict? {
        IdenticalIffPass(x, y);
      } else {
        IdenticalIff(x, y);
      }
    }
  }

  /** A field that passes without being volatile, its lists agreeing in type. */
  predicate FieldUnflagged(x: Value, y: Value) {
    if x.Dict? && y.Dict? then Same({}, x, y) && ListsKeepTypes(x, y)
    else TypeOf(x) == TypeOf(y) && Equal(x, y) && (x.List? ==> TypesAgree(x, y))
  }

  /** Inside a list numbers and booleans of equal value pass for each other. */
  lemma CastInsideListPasses(a: Value, b: Value)
    requires a == Dict(["x"], map["x" := List([Int(1), Bool(true)])])
    requires b == Dict(["x"], map["x" := List([Float(1.0), Int(1)])])
    ensures Same({}, a, b) && !Identical(a, b)
  {
    var xs, ys := a.entries["x"].items, b.entries["x"].items;
    assert Equal(xs[0], ys[0]) && Equal(xs[1], ys[1]);
    assert !Identical(xs[0], ys[0]);
  }

  // ---------------------------------------------------------------- the audit matrix

  datatype Reason = FieldAddedOrDropped | TypeCastDrift | ValueMismatch | AcceptableVolatileDrift | Fine | NoReason

  datatype Row = Row(property: string, directValue: Value, directType: TypeName, gatewayValue: Value, gatewayType: TypeName,
                     byteIdentical: bool, volatile: bool, reason: Reason)

  /** The two copies differ in how they label rows that pass. */
  datatype Copy = Root | Gateway

  const MISSING := Str("<<MISSING>>")

  function FailureReason(valueMatch: bool, typeMatch: bool, presentMatch: bool, volatile: bool): Reason {
    if !presentMatch then FieldAddedOrDropped
    else if !typeMatch then TypeCastDrift
    else if !valueMatch && !volatile then ValueMismatch
    else if !valueMatch && volatile then AcceptableVolatileDrift
    else Fine
  }

  function GatewayReason(valueMatch: bool, typeMatch: bool, presentMatch: bool, volatile: bool): Reason {
    if !presentMatch then FieldAddedOrDropped
    else if !typeMatch then TypeCastDrift
    else if !valueMatch && !volatile then ValueMismatch
    else NoReason
  }

  function ValueAt(v: Value, k: string): Value
    requires v.Dict?
  {
    if k in v.entries then v.entries[k] else MISSING
  }

  predicate BothNested(a: Value, b: Value, k: string)
    requires a.Dict? && b.Dict?
  {
    k in a.entries && k in b.entries && a.entries[k].Dict? && b.entries[k].Dict?
  }

  /** The row of a field that is not nested on both sides. */
  function LeafRow(copy: Copy, volatile: set<string>, a: Value, b: Value, k: string): Row
    requires a.Dict? && b.Dict?
  {
    var d, r := ValueAt(a, k), ValueAt(b, k);
    var valueMatch, typeMatch := Equal(d, r), TypeOf(d) == TypeOf(r);
    var presentMatch := k in a.entries && k in b.entries;
    Row(k, d, TypeOf(d), r, TypeOf(r),
        typeMatch && presentMatch && (k in volatile || valueMatch), k in volatile,
        if copy == Root then FailureReason(valueMatch, typeMatch, presentMatch, k in volatile)
        else GatewayReason(valueMatch, typeMatch, presentMatch, k in volatile))
  }

  function Prefixed(k: string, rows: seq<Row>): (r: seq<Row>)
    ensures |r| == |rows|
  {
    seq(|rows|, i requires 0 <= i < |rows| => rows[i].(property := k + "." + rows[i].property))
  }

  /** The keys of both sides: those of `a`, then those only `b` has. */
  function AllKeys(a: Value, b: Value): seq<string>
    requires a.Dict? && b.Dict?
  {
    FirstSeen(a.keys + Filter(k => k !in a.entries, b.keys))
  }

  /** The rows of the given keys: one per field, nested mappings flattened under their key. */
  function RowsOf(copy: Copy, volatile: set<string>, a: Value, b: Value, ks: seq<string>): seq<Row>
    requires a.Dict? && b.Dict?
    decreases a, 1, |ks|
  {
    if ks == [] then [] else RowsOf(copy, volatile, a, b, Init(ks)) + KeyRows(copy, volatile, a, b, Last(ks))
  }

  function KeyRows(copy: Copy, volatile: set<string>, a: Value, b: Value, k: string): seq<Row>
    requires a.Dict? && b.Dict?
    decreases a, 0, 0
  {
    if BothNested(a, b, k)
    then Prefixed(k, RowsOf(copy, volatile, a.entries[k], b.entries[k], AllKeys(a.entries[k], b.entries[k])))
    else [LeafRow(copy, volatile, a, b, k)]
  }

  function Matrix(copy: Copy, volatile: set<string>, a: Value, b: Value): seq<Row>
    requires a.Dict? && b.Dict?
  {
    RowsOf(copy, volatile, a, b, AllKeys(a, b))
  }

  predicate AllIdentical(rows: seq<Row>) {
    forall row :: row in rows ==> row.byteIdentical
  }

  /** Every row passes exactly when the payloads do. */
  lemma {:induction false} MatrixVerdict(copy: Copy, volatile: set<string>, a: Value, b: Value)
    requires a.Dict? && b.Dict? && WellFormed(a) && WellFormed(b)
    ensures AllIdentical(Matrix(copy, volatile, a, b)) <==> Same(volatile, a, b)
    decreases a
  {
    var ks := AllKeys(a, b);
    RowsVerdict(copy, volatile, a, b, ks);
    SameIffFieldsPass(volatile, a, b);
    forall k | k in ks
      ensures AllIdentical(KeyRows(copy, volatile, a, b, k)) <==> FieldPasses(volatile, a, b, k)
    {
      if BothNested(a, b, k) {
        MatrixVerdict(copy, volatile, a.entries[k], b.entries[k]);
      }
      KeyVerdict(copy, volatile, a, b, k);
    }
  }

  lemma KeyVerdict(copy: Copy, volatile: set<string>, a: Value, b: Value, k: string)
    requires a.Dict? && b.Dict?
    requires BothNested(a, b, k) ==>
               (AllIdentical(Matrix(copy, volatile, a.entries[k], b.entries[k])) <==> Same(volatile, a.entries[k], b.entries[k]))
    ensures AllIdentical(KeyRows(copy, volatile, a, b, k)) <==> FieldPasses(volatile, a, b, k)
  {
    if BothNested(a, b, k) {
      PrefixKeepsVerdict(k, Matrix(copy, volatile, a.entries[k], b.entries[k]));
    } else {
      var row := LeafRow(copy, volatile, a, b, k);
      assert KeyRows(copy, volatile, a, b, k) == [row];
      assert AllIdentical([row]) <==> row.byteIdentical by { assert row in [row]; }
    }
  }

  lemma AllKeysAre(a: Value, b: Value)
    requires a.Dict? && b.Dict? && WellFormed(a) && WellFormed(b)
    ensures forall k :: k in AllKeys(a, b) <==> k in a.entries || k in b.entries
  {
  }

  lemma SameIffFieldsPass(volatile: set<string>, a: Value, b: Value)
    requires a.Dict? && b.Dict? && WellFormed(a) && WellFormed(b)
    ensures Same(volatile, a, b) <==> forall k :: k in AllKeys(a, b) ==> FieldPasses(volatile, a, b, k)
  {
    AllKeysAre(a, b);
    SameByFields(volatile, a, b, AllKeys(a, b));
  }

  lemma SameByFields(volatile: set<string>, a: Value, b: Value, ks: seq<string>)
    requires a.Dict? && b.Dict? && forall k :: k in ks <==> k in a.entries || k in b.entries
    ensures Same(volatile, a, b) <==> forall k :: k in ks ==> FieldPasses(volatile, a, b, k)
  {
    if forall k :: k in ks ==> FieldPasses(volatile, a, b, k) {
      assert forall k :: k in a.entries <==> k in b.entries;
    }
  }

  predicate FieldPasses(volatile: set<string>, a: Value, b: Value, k: string)
    requires a.Dict? && b.Dict?
  {
    && k in a.entries && k in b.entries
    && if a.entries[k].Dict? && b.entries[k].Dict? then Same(volatile, a.entries[k], b.entries[k])
       else TypeOf(a.entries[k]) == TypeOf(b.entries[k]) && (k in volatile || Equal(a.entries[k], b.entries[k]))
  }

  /** No key's rows contain a failure. */
  ghost predicate AllKeysIdentical(copy: Copy, volatile: set<string>, a: Value, b: Value, ks: seq<string>)
    requires a.Dict? && b.Dict?
  {
    forall k :: k in ks ==> AllIdentical(KeyRows(copy, volatile, a, b, k))
  }

  lemma {:induction false} RowsVerdict(copy: Copy, volatile: set<string>, a: Value, b: Value, ks: seq<string>)
    requires a.Dict? && b.Dict?
    ensures AllIdentical(RowsOf(copy, volatile, a, b, ks)) <==> AllKeysIdentical(copy, volatile, a, b, ks)
    decreases |ks|
  {
    if ks == [] {
      assert RowsOf(copy, volatile, a, b, ks) == [];
    } else {
      var front, last := Init(ks), Last(ks);
      RowsVerdict(copy, volatile, a, b, front);
      AllIdenticalAppend(RowsOf(copy, volatile, a, b, front), KeyRows(copy, volatile, a, b, last));
      assert forall k :: k in ks <==> k in front || k == last by { assert ks == front + [last]; }
    }
  }

  lemma AllIdenticalAppend(xs: seq<Row>, ys: seq<Row>)
    ensures AllIdentical(xs + ys) <==> AllIdentical(xs) && AllIdentical(ys)
  {
    assert forall row :: row in xs || row in ys <==> row in xs + ys;
  }

  lemma PrefixKeepsVerdict(k: string, rows: seq<Row>)
    ensures AllIdentical(Prefixed(k, rows)) <==> AllIdentical(rows)
  {
    assert forall i :: 0 <= i < |rows| ==> rows[i] in rows && Prefixed(k, rows)[i] in Prefixed(k, rows);
  }
}
