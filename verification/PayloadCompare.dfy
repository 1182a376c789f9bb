/** The comparator's loops, one method per copy, and the agreement of the two copies. */
module PayloadCompare {
  import opened Lists
  import opened Payloads

  /** One more key of a matrix under construction. */
  lemma RowsStep(copy: Copy, volatile: set<string>, a: Value, b: Value, ks: seq<string>, i: nat, before: seq<Row>, added: seq<Row>)
    requires a.Dict? && b.Dict? && i < |ks|
    requires before == RowsOf(copy, volatile, a, b, ks[..i]) && added == KeyRows(copy, volatile, a, b, ks[i])
    ensures before + added == RowsOf(copy, volatile, a, b, ks[..i + 1])
    ensures AllIdentical(before + added) <==> AllIdentical(before) && AllIdentical(added)
  {
    PrefixStep(ks, i);
    AllIdenticalAppend(before, added);
  }

  /** `transparent_proxy.py`: nested rows are relabelled and copied one at a time, each failure clearing the verdict. */
  method CompareRoot(direct: Value, relayed: Value, volatileKeys: set<string>) returns (identical: bool, matrix: seq<Row>)
    requires direct.Dict? && relayed.Dict? && WellFormed(direct) && WellFormed(relayed)
    ensures matrix == Matrix(Root, volatileKeys, direct, relayed)
    ensures identical <==> AllIdentical(matrix)
    ensures identical <==> Same(volatileKeys, direct, relayed)
    decreases direct
  {
    matrix, identical := [], true;
    var ks := AllKeys(direct, relayed);
    for i := 0 to |ks|
      invariant matrix == RowsOf(Root, volatileKeys, direct, relayed, ks[..i])
      invariant identical <==> AllIdentical(matrix)
    {
      var key := ks[i];
      ghost var before := matrix;
      if BothNested(direct, relayed, key) {
        var subOk, subMatrix := CompareRoot(direct.entries[key], relayed.entries[key], volatileKeys);
        matrix, identical := CopyRows(key, subMatrix, matrix, identical);
        RowsStep(Root, volatileKeys, direct, relayed, ks, i, before, Prefixed(key, subMatrix));
      } else {
        var row := LeafRow(Root, volatileKeys, direct, relayed, key);
        RowsStep(Root, volatileKeys, direct, relayed, ks, i, before, [row]);
        assert AllIdentical([row]) <==> row.byteIdentical by { assert row in [row]; }
        if !row.byteIdentical {
          identical := false;
        }
        matrix := matrix + [row];
      }
    }
    assert ks[..|ks|] == ks;
    MatrixVerdict(Root, volatileKeys, direct, relayed);
  }

  method CopyRows(key: string, rows: seq<Row>, matrix0: seq<Row>, identical0: bool) returns (matrix: seq<Row>, identical: bool)
    ensures matrix == matrix0 + Prefixed(key, rows)
    ensures identical <==> identical0 && AllIdentical(Prefixed(key, rows))
  {
    matrix, identical := matrix0, identical0;
    ghost var labelled := Prefixed(key, rows);
    for j := 0 to |rows|
      invariant matrix == matrix0 + labelled[..j]
      invariant identical <==> identical0 && AllIdentical(labelled[..j])
    {
      var row := rows[j].(property := key + "." + rows[j].property);
      assert labelled[..j + 1] == labelled[..j] + [row];
      AllIdenticalAppend(labelled[..j], [row]);
      assert AllIdentical([row]) <==> row.byteIdentical by { assert row in [row]; }
      matrix := matrix + [row];
      if !row.byteIdentical {
        identical := false;
      }
    }
    assert labelled[..|rows|] == labelled;
  }

  /** `iob-integration/gateway_app/transparent_proxy.py`, mapping mode: nested verdicts are conjoined. */
  method CompareGateway(direct: Value, relayed: Value, volatileKeys: set<string>) returns (identical: bool, matrix: seq<Row>)
    requires direct.Dict? && relayed.Dict? && WellFormed(direct) && WellFormed(relayed)
    ensures matrix == Matrix(Gateway, volatileKeys, direct, relayed)
    ensures identical <==> AllIdentical(matrix)
    ensures identical <==> Same(volatileKeys, direct, relayed)
    decreases direct
  {
    matrix, identical := [], true;
    var ks := AllKeys(direct, relayed);
    for i := 0 to |ks|
      invariant matrix == RowsOf(Gateway, volatileKeys, direct, relayed, ks[..i])
      invariant identical <==> AllIdentical(matrix)
    {
      var key := ks[i];
      if BothNested(direct, relayed, key) {
        var subOk, rows := CompareGateway(direct.entries[key], relayed.entries[key], volatileKeys);
        RowsStep(Gateway, volatileKeys, direct, relayed, ks, i, matrix, Prefixed(key, rows));
        PrefixKeepsVerdict(key, rows);
        matrix := matrix + Prefixed(key, rows);
        identical := identical && subOk;
      } else {
        var row := LeafRow(Gateway, volatileKeys, direct, relayed, key);
        RowsStep(Gateway, volatileKeys, direct, relayed, ks, i, matrix, [row]);
        assert AllIdentical([row]) <==> row.byteIdentical by { assert row in [row]; }
        matrix := matrix + [row];
        identical := identical && row.byteIdentical;
      }
    }
    assert ks[..|ks|] == ks;
    MatrixVerdict(Gateway, volatileKeys, direct, relayed);
  }

  // ---------------------------------------------------------------- the copies agree

  /** The gateway copy leaves the reason of passing rows empty. */
  function Relabel(row: Row): Row {
    if row.reason == Fine || row.reason == AcceptableVolatileDrift then row.(reason := NoReason) else row
  }

  function RelabelAll(rows: seq<Row>): (r: seq<Row>)
    ensures |r| == |rows|
  {
    seq(|rows|, i requires 0 <= i < |rows| => Relabel(rows[i]))
  }

  /** Row by row the two matrices differ in nothing but the reasons of rows that pass. */
  lemma {:induction false} CopiesAgreeOn(volatile: set<string>, a: Value, b: Value, ks: seq<string>)
    requires a.Dict? && b.Dict?
    ensures RowsOf(Gateway, volatile, a, b, ks) == RelabelAll(RowsOf(Root, volatile, a, b, ks))
    decreases a, |ks|
  {
    if ks != [] {
      var front, k := Init(ks), Last(ks);
      CopiesAgreeOn(volatile, a, b, front);
      if BothNested(a, b, k) {
        var x, y := a.entries[k], b.entries[k];
        CopiesAgreeOn(volatile, x, y, AllKeys(x, y));
        assert Prefixed(k, RelabelAll(Matrix(Root, volatile, x, y))) == RelabelAll(Prefixed(k, Matrix(Root, volatile, x, y)));
      }
      assert KeyRows(Gateway, volatile, a, b, k) == RelabelAll(KeyRows(Root, volatile, a, b, k));
      RelabelAppend(RowsOf(Root, volatile, a, b, front), KeyRows(Root, volatile, a, b, k));
    }
  }

  lemma RelabelAppend(xs: seq<Row>, ys: seq<Row>)
    ensures RelabelAll(xs + ys) == RelabelAll(xs) + RelabelAll(ys)
  {
  }

  lemma CopiesAgree(volatile: set<string>, a: Value, b: Value)
    requires a.Dict? && b.Dict? && WellFormed(a) && WellFormed(b)
    ensures Matrix(Gateway, volatile, a, b) == RelabelAll(Matrix(Root, volatile, a, b))
    ensures AllIdentical(Matrix(Gateway, volatile, a, b)) <==> AllIdentical(Matrix(Root, volatile, a, b))
  {
    CopiesAgreeOn(volatile, a, b, AllKeys(a, b));
    MatrixVerdict(Root, volatile, a, b);
    MatrixVerdict(Gateway, volatile, a, b);
  }

  /** A row passes exactly when its reason is one of the two harmless ones. */
  lemma {:induction false} ReasonsExplain(volatile: set<string>, a: Value, b: Value, ks: seq<string>)
    requires a.Dict? && b.Dict?
    ensures forall row :: row in RowsOf(Root, volatile, a, b, ks) ==>
              (row.byteIdentical <==> row.reason == Fine || row.reason == AcceptableVolatileDrift)
    decreases a, |ks|
  {
    if ks != [] {
      var front, k := Init(ks), Last(ks);
      ReasonsExplain(volatile, a, b, front);
      if BothNested(a, b, k) {
        var x, y := a.entries[k], b.entries[k];
        ReasonsExplain(volatile, x, y, AllKeys(x, y));
        var rows := Matrix(Root, volatile, x, y);
        assert forall i :: 0 <= i < |rows| ==> rows[i] in rows;
      }
    }
  }
}
