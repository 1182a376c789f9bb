/** The recorded effectiveness of the SOPs of a bundle. A recorded 0 counts as 0.75, so it can come too early. */
module SopOrder {
  import opened Lists
  import opened Sorting
  import opened Sops

  /** What the first row of an SOP records. */
  function Recorded(rows: seq<Row>, id: string): Option<real> {
    if rows == [] then None
    else if rows[0].sopId == id then rows[0].effectiveness
    else Recorded(rows[1..], id)
  }

  lemma {:induction false} RecordedOf(rows: seq<Row>, id: string)
    ensures LinkageOf(rows, id).effectiveness == Effectiveness(Recorded(rows, id))
  {
    if rows != [] && rows[0].sopId != id {
      RecordedOf(rows[1..], id);
    }
  }

  /** Higher recorded effectiveness first, among the SOPs that have one recorded. */
  ghost predicate RecordedDescends(rows: seq<Row>, linkages: seq<Linkage>) {
    forall i, j :: 0 <= i < j < |linkages| ==> InRecordedOrder(rows, linkages[i].sopId, linkages[j].sopId)
  }

  predicate InRecordedOrder(rows: seq<Row>, a: string, b: string) {
    Recorded(rows, a).Some? && Recorded(rows, b).Some? ==> Recorded(rows, a).value >= Recorded(rows, b).value
  }

  /** A recorded 0 overtakes a positive value below 0.75, and one of exactly 0.75 that stands behind it. */
  predicate Overtakes(rows: seq<Row>, kept: seq<string>, i: nat, j: nat)
    requires i < |kept| && j < |kept|
  {
    && Recorded(rows, kept[i]) == Some(0.0) && Recorded(rows, kept[j]).Some?
    && var v := Recorded(rows, kept[j]).value;
       0.0 < v && (v < 0.75 || (v == 0.75 && i < j))
  }

  function Bundled(rows: seq<Row>, maxSops: int): seq<Linkage> {
    Sort(MoreEffective(), LinkagesOf(rows, Kept(rows, maxSops)))
  }

  /** The position of each linkage before sorting. */
  lemma PlaceOf(rows: seq<Row>, maxSops: int, i: nat) returns (p: nat)
    requires i < |Bundled(rows, maxSops)|
    ensures p < |Kept(rows, maxSops)| && Bundled(rows, maxSops)[i] == LinkagesOf(rows, Kept(rows, maxSops))[p]
    ensures Bundled(rows, maxSops)[i].sopId == Kept(rows, maxSops)[p]
    ensures Bundled(rows, maxSops)[i].effectiveness == Effectiveness(Recorded(rows, Kept(rows, maxSops)[p]))
  {
    var kept := LinkagesOf(rows, Kept(rows, maxSops));
    SortPermutes(MoreEffective(), kept);
    assert Bundled(rows, maxSops)[i] in kept;
    p :| 0 <= p < |kept| && kept[p] == Bundled(rows, maxSops)[i];
    RecordedOf(rows, Kept(rows, maxSops)[p]);
  }

  lemma PlaceAfter(rows: seq<Row>, maxSops: int, p: nat) returns (i: nat)
    requires p < |Kept(rows, maxSops)|
    ensures i < |Bundled(rows, maxSops)| && Bundled(rows, maxSops)[i] == LinkagesOf(rows, Kept(rows, maxSops))[p]
    ensures Bundled(rows, maxSops)[i].sopId == Kept(rows, maxSops)[p]
    ensures Bundled(rows, maxSops)[i].effectiveness == Effectiveness(Recorded(rows, Kept(rows, maxSops)[p]))
  {
    var kept := LinkagesOf(rows, Kept(rows, maxSops));
    SortPermutes(MoreEffective(), kept);
    assert kept[p] in Bundled(rows, maxSops);
    i :| 0 <= i < |Bundled(rows, maxSops)| && Bundled(rows, maxSops)[i] == kept[p];
    RecordedOf(rows, Kept(rows, maxSops)[p]);
  }

  /** Of two linkages the first is at least as effective, and stood first if they are equally so. */
  lemma SortedPlaces(rows: seq<Row>, maxSops: int, p: nat, q: nat, i: nat, j: nat)
    requires p < |Kept(rows, maxSops)| && q < |Kept(rows, maxSops)| && i < |Bundled(rows, maxSops)| && j < |Bundled(rows, maxSops)|
    requires Bundled(rows, maxSops)[i] == LinkagesOf(rows, Kept(rows, maxSops))[p]
    requires Bundled(rows, maxSops)[j] == LinkagesOf(rows, Kept(rows, maxSops))[q]
    ensures i < j ==> Bundled(rows, maxSops)[i].effectiveness >= Bundled(rows, maxSops)[j].effectiveness
    ensures Bundled(rows, maxSops)[i].effectiveness == Bundled(rows, maxSops)[j].effectiveness && p < q ==> i < j
  {
    var kept, le := LinkagesOf(rows, Kept(rows, maxSops)), MoreEffective();
    var sorted := Sort(le, kept);
    SortSorted(le, kept);
    assert i < j ==> le(sorted[i], sorted[j]);
    KeptDistinct(rows, maxSops);
    var e := kept[p].effectiveness;
    if kept[q].effectiveness == e && p < q {
      TiesKeepPlaces(le, kept, (l: Linkage) => l.effectiveness == e, p, q, i, j);
    }
  }

  /** The linkages of a bundle are in descending recorded order, as documented, exactly when no kept SOP
      with a recorded 0 overtakes another kept one. */
  lemma RecordedOrderIff(rows: seq<Row>, maxSops: int)
    ensures var kept := Kept(rows, maxSops);
            RecordedDescends(rows, Bundled(rows, maxSops)) <==>
            forall p, q :: 0 <= p < |kept| && 0 <= q < |kept| ==> !Overtakes(rows, kept, p, q)
  {
    var kept, sorted := Kept(rows, maxSops), Bundled(rows, maxSops);
    if forall p, q :: 0 <= p < |kept| && 0 <= q < |kept| ==> !Overtakes(rows, kept, p, q) {
      forall i, j | 0 <= i < j < |sorted|
        ensures InRecordedOrder(rows, sorted[i].sopId, sorted[j].sopId)
      {
        var p := PlaceOf(rows, maxSops, i);
        var q := PlaceOf(rows, maxSops, j);
        SortedPlaces(rows, maxSops, p, q, i, j);
        SortedPlaces(rows, maxSops, q, p, j, i);
        assert !Overtakes(rows, kept, p, q);
      }
    }
    if RecordedDescends(rows, sorted) {
      forall p, q | 0 <= p < |kept| && 0 <= q < |kept|
        ensures !Overtakes(rows, kept, p, q)
      {
        var i := PlaceAfter(rows, maxSops, p);
        var j := PlaceAfter(rows, maxSops, q);
        SortedPlaces(rows, maxSops, p, q, i, j);
        SortedPlaces(rows, maxSops, q, p, j, i);
        assert i < j ==> InRecordedOrder(rows, sorted[i].sopId, sorted[j].sopId);
      }
    }
  }

  /** An SOP recorded as never effective comes before one recorded as effective half of the time. */
  lemma NeverEffectiveFirst(rows: seq<Row>, a: Row, b: Row)
    requires rows == [a, b] && a == Row("A", "a", Some(0.0), None) && b == Row("B", "b", Some(0.5), None)
    ensures var linkages := Bundled(rows, 3);
            && |linkages| == 2 && linkages[0].sopId == "A" && linkages[1].sopId == "B"
            && Recorded(rows, "A") == Some(0.0) && Recorded(rows, "B") == Some(0.5)
  {
    TwoRows(rows, a, b);
    SortPair(MoreEffective(), ToLinkage(a), ToLinkage(b));
  }

  lemma TwoRows(rows: seq<Row>, a: Row, b: Row)
    requires rows == [a, b] && a.sopId != "" && b.sopId != "" && a.sopId != b.sopId
    ensures Kept(rows, 3) == [a.sopId, b.sopId] && LinkagesOf(rows, Kept(rows, 3)) == [ToLinkage(a), ToLinkage(b)]
    ensures Recorded(rows, a.sopId) == a.effectiveness && Recorded(rows, b.sopId) == b.effectiveness
  {
    assert Init(rows) == [a] && Init([a]) == [] && rows[1..] == [b];
    assert SopIds([a]) == [] + [a.sopId];
    assert SopIds(rows) == [a.sopId] + [b.sopId];
    FirstSeenOfDistinct([a.sopId, b.sopId]);
    assert Kept(rows, 3) == [a.sopId, b.sopId];
    assert LinkageOf(rows, b.sopId) == LinkageOf([b], b.sopId) == ToLinkage(b);
  }

  // ---------------------------------------------------------------- row order

  /** Sorting keeps the row order of the kept SOPs exactly when their effectiveness, as counted, never rises. */
  lemma RowOrderIff(rows: seq<Row>, maxSops: int)
    ensures var kept := Kept(rows, maxSops);
            Bundled(rows, maxSops) == LinkagesOf(rows, kept) <==>
            forall p, q :: 0 <= p < q < |kept| ==> Effectiveness(Recorded(rows, kept[p])) >= Effectiveness(Recorded(rows, kept[q]))
  {
    var kept := Kept(rows, maxSops);
    forall p | 0 <= p < |kept|
      ensures LinkagesOf(rows, kept)[p].effectiveness == Effectiveness(Recorded(rows, kept[p]))
    {
      RecordedOf(rows, kept[p]);
    }
    SortKeepsIff(LinkagesOf(rows, kept));
  }

  lemma SortKeepsIff(links: seq<Linkage>)
    ensures Sort(MoreEffective(), links) == links <==>
            forall p, q :: 0 <= p < q < |links| ==> links[p].effectiveness >= links[q].effectiveness
  {
    var le := MoreEffective();
    assert Sorted(le, links) <==> forall p, q :: 0 <= p < q < |links| ==> links[p].effectiveness >= links[q].effectiveness;
    SortSorted(le, links);
    if Sorted(le, links) {
      SortOfSorted(le, links);
    }
  }

  /** What the query orders its rows by: a missing value counts as 0.5. */
  function ServerValue(recorded: Option<real>): real {
    if recorded.Some? then recorded.value else 0.5
  }

  ghost predicate ServerOrdered(rows: seq<Row>, kept: seq<string>) {
    forall p, q :: 0 <= p < q < |kept| ==> ServerValue(Recorded(rows, kept[p])) >= ServerValue(Recorded(rows, kept[q]))
  }

  /** The second SOP, with no effectiveness recorded or 0, overtakes the first, recorded below 0.75. */
  predicate Displaces(first: Option<real>, second: Option<real>) {
    first.Some? && first.value != 0.0 && first.value < 0.75 && (second == None || second.value == 0.0)
  }

  /** The order of the server is preserved, as documented, exactly when no kept SOP without a value, or with 0,
      stands behind one with a value below 0.75. */
  lemma ServerOrderKeptIff(rows: seq<Row>, maxSops: int)
    requires ServerOrdered(rows, Kept(rows, maxSops))
    ensures var kept := Kept(rows, maxSops);
            Bundled(rows, maxSops) == LinkagesOf(rows, kept) <==>
            forall p, q :: 0 <= p < q < |kept| ==> !Displaces(Recorded(rows, kept[p]), Recorded(rows, kept[q]))
  {
    var kept := Kept(rows, maxSops);
    RowOrderIff(rows, maxSops);
    forall p, q | 0 <= p < q < |kept|
      ensures Effectiveness(Recorded(rows, kept[p])) >= Effectiveness(Recorded(rows, kept[q])) <==>
              !Displaces(Recorded(rows, kept[p]), Recorded(rows, kept[q]))
    {
      DisplacesIff(Recorded(rows, kept[p]), Recorded(rows, kept[q]));
    }
  }

  lemma DisplacesIff(first: Option<real>, second: Option<real>)
    requires ServerValue(first) >= ServerValue(second)
    ensures Effectiveness(first) >= Effectiveness(second) <==> !Displaces(first, second)
  {
  }

  /** An SOP without a recorded value overtakes one recorded at 0.6, which the server puts first. */
  lemma MissingOvertakes(rows: seq<Row>, a: Row, b: Row)
    requires rows == [a, b] && a == Row("A", "a", Some(0.6), None) && b == Row("B", "b", None, None)
    ensures ServerOrdered(rows, Kept(rows, 3))
    ensures var linkages := Bundled(rows, 3);
            |linkages| == 2 && linkages[0].sopId == "B" && linkages[1].sopId == "A"
  {
    TwoRows(rows, a, b);
    SortPair(MoreEffective(), ToLinkage(a), ToLinkage(b));
  }
}
