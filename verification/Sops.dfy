/** SOP grouping of `app/decision/sop_matcher.py`: a capped group-by over rows followed by two stable sorts. */
module Sops {
  import opened Lists
  import opened Sorting

  // ---------------------------------------------------------------- rows and bundles

  datatype StepRow = StepRow(sequenceNumber: Option<int>, instruction: string)

  /** One (SOP, step) record. A missing SOP id is the empty string. */
  datatype Row = Row(sopId: string, title: string, effectiveness: Option<real>, step: Option<StepRow>)

  datatype Linkage = Linkage(sopId: string, title: string, effectiveness: real)

  datatype StepDetail = StepDetail(sopId: string, sopTitle: string, sequenceNumber: int, instruction: string)

  /** A missing effectiveness counts as 0.75, and so does one of 0. */
  function Effectiveness(recorded: Option<real>): real {
    if recorded == None || recorded.value == 0.0 then 0.75 else recorded.value
  }

  function ToLinkage(r: Row): Linkage {
    Linkage(r.sopId, r.title, Effectiveness(r.effectiveness))
  }

  // ---------------------------------------------------------------- what the grouping means

  /** The SOP ids of the rows that carry one. */
  function SopIds(rows: seq<Row>): seq<string> {
    if rows == [] then []
    else SopIds(Init(rows)) + if Last(rows).sopId != "" then [Last(rows).sopId] else []
  }

  /** The first `maxSops` distinct SOPs in row order. */
  function Kept(rows: seq<Row>, maxSops: int): seq<string> {
    Capped(FirstSeen(SopIds(rows)), maxSops)
  }

  /** The linkage of an SOP comes from its first row. */
  function LinkageOf(rows: seq<Row>, id: string): (l: Linkage)
    ensures l.sopId == id
  {
    if rows == [] then Linkage(id, "", 0.75)
    else if rows[0].sopId == id then ToLinkage(rows[0])
    else LinkageOf(rows[1..], id)
  }

  function LinkagesOf(rows: seq<Row>, ids: seq<string>): (r: seq<Linkage>)
    ensures |r| == |ids|
  {
    seq(|ids|, i requires 0 <= i < |ids| => LinkageOf(rows, ids[i]))
  }

  /** The steps of the kept SOPs, in row order. A step without a number takes the next position. */
  function StepsOf(rows: seq<Row>, kept: seq<string>): seq<StepDetail> {
    if rows == [] then []
    else
      var before, r := StepsOf(Init(rows), kept), Last(rows);
      if r.sopId != "" && r.sopId in kept && r.step.Some? then
        before + [StepDetail(r.sopId, LinkageOf(rows, r.sopId).title,
                             if r.step.value.sequenceNumber.Some? then r.step.value.sequenceNumber.value else |before| + 1,
                             r.step.value.instruction)]
      else before
  }

  function MoreEffective(): (Linkage, Linkage) -> bool {
    (a: Linkage, b: Linkage) => a.effectiveness >= b.effectiveness
  }

  /** The position of an SOP among the linkages; past the end for one that is not there. */
  function RankOf(linkages: seq<Linkage>, id: string): nat {
    if linkages == [] then 0
    else if linkages[0].sopId == id then 0
    else 1 + RankOf(linkages[1..], id)
  }

  function InProcedureOrder(linkages: seq<Linkage>): (StepDetail, StepDetail) -> bool {
    (a: StepDetail, b: StepDetail) =>
      RankOf(linkages, a.sopId) < RankOf(linkages, b.sopId)
      || (RankOf(linkages, a.sopId) == RankOf(linkages, b.sopId) && a.sequenceNumber <= b.sequenceNumber)
  }

  // ---------------------------------------------------------------- the loop

  lemma {:induction false} LinkageOfPrefix(rows: seq<Row>, r: Row, id: string)
    ensures id in SopIds(rows) ==> LinkageOf(rows + [r], id) == LinkageOf(rows, id)
    ensures id != "" && id !in SopIds(rows) && r.sopId == id ==> LinkageOf(rows + [r], id) == ToLinkage(r)
    decreases |rows|
  {
    SopIdsMembers(rows);
    if rows == [] {
      assert rows + [r] == [r];
    } else {
      assert (rows + [r])[1..] == rows[1..] + [r] && (rows + [r])[0] == rows[0];
      SopIdsMembers(rows[1..]);
      LinkageOfPrefix(rows[1..], r, id);
      assert rows == [rows[0]] + rows[1..];
    }
  }

  lemma {:induction false} SopIdsMembers(rows: seq<Row>)
    ensures forall id :: id in SopIds(rows) <==> id != "" && exists r :: r in rows && r.sopId == id
  {
    if rows != [] {
      SopIdsMembers(Init(rows));
      assert rows == Init(rows) + [Last(rows)];
    }
  }

  lemma {:induction false} StepsOnlyOfKept(rows: seq<Row>, kept: seq<string>, kept': seq<string>)
    requires forall id :: id in SopIds(rows) ==> (id in kept <==> id in kept')
    ensures StepsOf(rows, kept) == StepsOf(rows, kept')
  {
    if rows != [] {
      StepsOnlyOfKept(Init(rows), kept, kept');
    }
  }

  function Capped(ids: seq<string>, maxSops: int): seq<string> {
    if maxSops <= 0 then [] else if maxSops < |ids| then ids[..maxSops] else ids
  }

  lemma CappedStep(ids: seq<string>, id: string, maxSops: int)
    ensures Capped(ids + [id], maxSops) ==
            if |Capped(ids, maxSops)| < maxSops then Capped(ids, maxSops) + [id] else Capped(ids, maxSops)
    ensures |Capped(ids, maxSops)| < maxSops ==> Capped(ids, maxSops) == ids
    ensures forall x :: x in Capped(ids, maxSops) ==> x in ids
  {
  }

  /** How one more row changes the kept SOPs: it can only add its own id at the end. */
  lemma KeptStep(rows: seq<Row>, r: Row, maxSops: int)
    ensures Kept(rows + [r], maxSops) ==
            if r.sopId != "" && r.sopId !in Kept(rows, maxSops) && |Kept(rows, maxSops)| < maxSops
            then Kept(rows, maxSops) + [r.sopId] else Kept(rows, maxSops)
    ensures |Kept(rows, maxSops)| < maxSops ==> (r.sopId in Kept(rows, maxSops) <==> r.sopId in SopIds(rows))
  {
    assert Init(rows + [r]) == rows && Last(rows + [r]) == r;
    assert SopIds(rows + [r]) == SopIds(rows) + if r.sopId != "" then [r.sopId] else [];
    CapStep(SopIds(rows), r.sopId, maxSops);
    if r.sopId == "" {
      assert SopIds(rows + [r]) == SopIds(rows);
    }
  }

  lemma CapStep(ids: seq<string>, id: string, maxSops: int)
    ensures var kept := Capped(FirstSeen(ids), maxSops);
            && Capped(FirstSeen(ids + [id]), maxSops) == (if id !in kept && |kept| < maxSops then kept + [id] else kept)
            && (|kept| < maxSops ==> (id in kept <==> id in ids))
  {
    FirstSeenSnoc(ids, id);
    CappedStep(FirstSeen(ids), id, maxSops);
  }

  /** The dictionary of linkages, its key order and the steps collected after some rows. */
  ghost predicate Grouped(rows: seq<Row>, maxSops: int, order: seq<string>, table: map<string, Linkage>, steps: seq<StepDetail>) {
    order == Kept(rows, maxSops) && TableOf(rows, order, table) && steps == StepsOf(rows, order)
  }

  ghost predicate TableOf(rows: seq<Row>, order: seq<string>, table: map<string, Linkage>) {
    (forall id :: id in table <==> id in order) && (forall id :: id in table ==> table[id] == LinkageOf(rows, id))
  }

  function NewStep(r: Row, title: string, position: nat): seq<StepDetail> {
    if r.step == None then []
    else [StepDetail(r.sopId, title,
                     if r.step.value.sequenceNumber.Some? then r.step.value.sequenceNumber.value else position,
                     r.step.value.instruction)]
  }

  /** Rows seen later do not change the linkage of a kept SOP. */
  lemma TableStep(rows: seq<Row>, r: Row, order: seq<string>, table: map<string, Linkage>)
    requires TableOf(rows, order, table) && forall id :: id in order ==> id in SopIds(rows)
    ensures TableOf(rows + [r], order, table)
  {
    forall id | id in table
      ensures LinkageOf(rows + [r], id) == LinkageOf(rows, id)
    {
      LinkageOfPrefix(rows, r, id);
    }
  }

  lemma StepsStep(rows: seq<Row>, r: Row, kept: seq<string>)
    ensures StepsOf(rows + [r], kept) ==
            StepsOf(rows, kept) +
            if r.sopId != "" && r.sopId in kept
            then NewStep(r, LinkageOf(rows + [r], r.sopId).title, |StepsOf(rows, kept)| + 1) else []
  {
    assert Init(rows + [r]) == rows && Last(rows + [r]) == r;
  }

  /** A row whose SOP is not kept changes nothing. */
  lemma DroppedRow(rows: seq<Row>, r: Row, maxSops: int, order: seq<string>, table: map<string, Linkage>, steps: seq<StepDetail>)
    requires Grouped(rows, maxSops, order, table, steps)
    requires r.sopId == "" || (r.sopId !in table && |order| >= maxSops)
    ensures Grouped(rows + [r], maxSops, order, table, steps)
  {
    KeptStep(rows, r, maxSops);
    KeptAreIds(rows, maxSops);
    TableStep(rows, r, order, table);
    StepsStep(rows, r, order);
  }

  /** A row of a kept SOP adds its step. */
  lemma KeptRow(rows: seq<Row>, r: Row, maxSops: int, order: seq<string>, table: map<string, Linkage>, steps: seq<StepDetail>)
    requires Grouped(rows, maxSops, order, table, steps) && r.sopId != "" && r.sopId in table
    ensures Grouped(rows + [r], maxSops, order, table, steps + NewStep(r, table[r.sopId].title, |steps| + 1))
  {
    KeptStep(rows, r, maxSops);
    KeptAreIds(rows, maxSops);
    TableStep(rows, r, order, table);
    StepsStep(rows, r, order);
  }

  /** The first row of a further SOP opens it. */
  lemma OpeningRow(rows: seq<Row>, r: Row, maxSops: int, order: seq<string>, table: map<string, Linkage>, steps: seq<StepDetail>)
    requires Grouped(rows, maxSops, order, table, steps) && r.sopId != "" && r.sopId !in table && |order| < maxSops
    ensures Grouped(rows + [r], maxSops, order + [r.sopId], table[r.sopId := ToLinkage(r)],
                    steps + NewStep(r, r.title, |steps| + 1))
  {
    KeptStep(rows, r, maxSops);
    KeptAreIds(rows, maxSops);
    OpeningTable(rows, r, order, table);
    OpeningStep(rows, r, order, steps);
  }

  lemma OpeningTable(rows: seq<Row>, r: Row, order: seq<string>, table: map<string, Linkage>)
    requires TableOf(rows, order, table) && forall id :: id in order ==> id in SopIds(rows)
    requires r.sopId != "" && r.sopId !in SopIds(rows)
    ensures TableOf(rows + [r], order + [r.sopId], table[r.sopId := ToLinkage(r)])
  {
    TableStep(rows, r, order, table);
    LinkageOfPrefix(rows, r, r.sopId);
  }

  lemma OpeningStep(rows: seq<Row>, r: Row, order: seq<string>, steps: seq<StepDetail>)
    requires steps == StepsOf(rows, order) && r.sopId != "" && r.sopId !in SopIds(rows)
    ensures StepsOf(rows + [r], order + [r.sopId]) == steps + NewStep(r, r.title, |steps| + 1)
  {
    LinkageOfPrefix(rows, r, r.sopId);
    StepsOnlyOfKept(rows, order, order + [r.sopId]);
    StepsStep(rows, r, order + [r.sopId]);
  }

  lemma KeptAreIds(rows: seq<Row>, maxSops: int)
    ensures forall id :: id in Kept(rows, maxSops) ==> id in SopIds(rows)
  {
    CappedStep(FirstSeen(SopIds(rows)), "", maxSops);
  }

  method GroupRows(rows: seq<Row>, maxSops: int)
    returns (order: seq<string>, table: map<string, Linkage>, steps: seq<StepDetail>)
    ensures Grouped(rows, maxSops, order, table, steps)
  {
    order, table, steps := [], map[], [];
    for i := 0 to |rows|
      invariant Grouped(rows[..i], maxSops, order, table, steps)
    {
      PrefixStep(rows, i);
      var r := rows[i];
      if r.sopId == "" {
        DroppedRow(rows[..i], r, maxSops, order, table, steps);
        continue;
      }
      if r.sopId in table {
        KeptRow(rows[..i], r, maxSops, order, table, steps);
      } else {
        if |order| >= maxSops {
          DroppedRow(rows[..i], r, maxSops, order, table, steps);
          continue;
        }
        OpeningRow(rows[..i], r, maxSops, order, table, steps);
        table := table[r.sopId := ToLinkage(r)];
        order := order + [r.sopId];
      }
      steps := steps + NewStep(r, table[r.sopId].title, |steps| + 1);
    }
    assert rows[..|rows|] == rows;
  }

  method RecordsToSopBundle(rows: seq<Row>, maxSops: int) returns (linkages: seq<Linkage>, steps: seq<StepDetail>)
    ensures linkages == Sort(MoreEffective(), LinkagesOf(rows, Kept(rows, maxSops)))
    ensures steps == Sort(InProcedureOrder(linkages), StepsOf(rows, Kept(rows, maxSops)))
  {
    var order, table;
    order, table, steps := GroupRows(rows, maxSops);
    linkages := LookUpAll(order, table);
    assert linkages == LinkagesOf(rows, order);
    linkages := Sort(MoreEffective(), linkages);
    steps := Sort(InProcedureOrder(linkages), steps);
  }

  method LookUpAll(order: seq<string>, table: map<string, Linkage>) returns (linkages: seq<Linkage>)
    requires forall id :: id in order ==> id in table
    ensures |linkages| == |order| && forall i :: 0 <= i < |order| ==> order[i] in table && linkages[i] == table[order[i]]
  {
    linkages := [];
    for i := 0 to |order|
      invariant |linkages| == i
      invariant forall j :: 0 <= j < i ==> order[j] in table && linkages[j] == table[order[j]]
    {
      assert order[i] in order;
      linkages := linkages + [table[order[i]]];
    }
  }

  // ---------------------------------------------------------------- properties of a bundle

  /** The linkages of a bundle: the kept SOPs, each once, at most `maxSops`, by descending effectiveness. */
  lemma BundleLinkages(rows: seq<Row>, maxSops: int)
    ensures var kept := LinkagesOf(rows, Kept(rows, maxSops));
            var linkages := Sort(MoreEffective(), kept);
            && multiset(linkages) == multiset(kept) && Distinct(kept)
            && (forall i, j :: 0 <= i < j < |linkages| ==> linkages[i].effectiveness >= linkages[j].effectiveness)
            && (maxSops >= 0 ==> |linkages| <= maxSops)
  {
    var kept, le := LinkagesOf(rows, Kept(rows, maxSops)), MoreEffective();
    KeptDistinct(rows, maxSops);
    SortPermutes(le, kept);
    SortSorted(le, kept);
    var linkages := Sort(le, kept);
    assert forall i, j :: 0 <= i < j < |linkages| ==> le(linkages[i], linkages[j]);
  }

  lemma KeptDistinct(rows: seq<Row>, maxSops: int)
    ensures Distinct(Kept(rows, maxSops)) && Distinct(LinkagesOf(rows, Kept(rows, maxSops)))
  {
    FirstSeenDistinct(SopIds(rows));
    var ids, kept := Kept(rows, maxSops), LinkagesOf(rows, Kept(rows, maxSops));
    forall i, j | 0 <= i < j < |kept|
      ensures kept[i] != kept[j]
    {
      assert kept[i].sopId == ids[i] && kept[j].sopId == ids[j];
    }
  }

  /** SOPs of equal effectiveness stay in row order. */
  lemma EqualLinkagesKeepOrder(rows: seq<Row>, maxSops: int, e: real)
    ensures var kept, tied := LinkagesOf(rows, Kept(rows, maxSops)), (l: Linkage) => l.effectiveness == e;
            Filter(tied, Sort(MoreEffective(), kept)) == Filter(tied, kept)
  {
    SortStable(MoreEffective(), LinkagesOf(rows, Kept(rows, maxSops)), (l: Linkage) => l.effectiveness == e);
  }

  lemma {:induction false} RankOfMember(linkages: seq<Linkage>, id: string)
    ensures RankOf(linkages, id) <= |linkages|
    ensures RankOf(linkages, id) < |linkages| ==> linkages[RankOf(linkages, id)].sopId == id
    ensures (exists l :: l in linkages && l.sopId == id) ==> RankOf(linkages, id) < |linkages|
  {
    if linkages != [] && linkages[0].sopId != id {
      RankOfMember(linkages[1..], id);
      assert linkages == [linkages[0]] + linkages[1..];
    }
  }

  lemma {:induction false} StepsAreOfKept(rows: seq<Row>, kept: seq<string>)
    ensures forall s :: s in StepsOf(rows, kept) ==> s.sopId in kept
  {
    if rows != [] {
      StepsAreOfKept(Init(rows), kept);
    }
  }

  /** A row that gives a step: it has one, and its SOP is kept. */
  predicate GivesStep(r: Row, kept: seq<string>) {
    r.sopId != "" && r.sopId in kept && r.step.Some?
  }

  function Giving(kept: seq<string>): Row -> bool {
    (r: Row) => GivesStep(r, kept)
  }

  /** The title in the first row of an SOP. */
  ghost predicate TitledBy(rows: seq<Row>, id: string, title: string) {
    exists i :: 0 <= i < |rows| && rows[i].sopId == id && rows[i].title == title && forall j :: 0 <= j < i ==> rows[j].sopId != id
  }

  /** Step `n` is that of the row: its SOP, number and instruction, the next free number if it has none,
      and the title of the SOP's first row. */
  ghost predicate StepFrom(rows: seq<Row>, r: Row, n: nat, s: StepDetail)
    requires r.step.Some?
  {
    && s.sopId == r.sopId && s.instruction == r.step.value.instruction && TitledBy(rows, r.sopId, s.sopTitle)
    && match r.step.value.sequenceNumber
       case Some(number) => s.sequenceNumber == number
       case None => s.sequenceNumber == n + 1
  }

  lemma {:induction false} LinkageTitled(rows: seq<Row>, id: string)
    requires exists r :: r in rows && r.sopId == id
    ensures TitledBy(rows, id, LinkageOf(rows, id).title)
  {
    if rows[0].sopId != id {
      assert rows == [rows[0]] + rows[1..];
      LinkageTitled(rows[1..], id);
      TitledBehind(rows, rows[1..], id, LinkageOf(rows, id).title);
    }
  }

  lemma TitledBehind(rows: seq<Row>, rest: seq<Row>, id: string, title: string)
    requires rows != [] && rest == rows[1..] && rows[0].sopId != id && TitledBy(rest, id, title)
    ensures TitledBy(rows, id, title)
  {
    var i :| 0 <= i < |rest| && rest[i].sopId == id && rest[i].title == title && forall j :: 0 <= j < i ==> rest[j].sopId != id;
    assert rows[i + 1] == rest[i] && forall j :: 0 < j < i + 1 ==> rows[j] == rest[j - 1];
  }

  lemma TitledFurther(front: seq<Row>, rows: seq<Row>, id: string, title: string)
    requires TitledBy(front, id, title) && front <= rows
    ensures TitledBy(rows, id, title)
  {
    var i :| 0 <= i < |front| && front[i].sopId == id && front[i].title == title && forall j :: 0 <= j < i ==> front[j].sopId != id;
    assert rows[i] == front[i] && forall j :: 0 <= j < i ==> rows[j] == front[j];
  }

  /** There is one step per row that gives one, in row order. */
  lemma {:induction false} StepsAreRows(rows: seq<Row>, kept: seq<string>)
    ensures var giving := Filter(Giving(kept), rows);
            && |StepsOf(rows, kept)| == |giving|
            && forall n :: 0 <= n < |giving| ==> GivesStep(giving[n], kept) && StepFrom(rows, giving[n], n, StepsOf(rows, kept)[n])
  {
    if rows != [] {
      var front, last := Init(rows), Last(rows);
      StepsAreRows(front, kept);
      var before, giving := StepsOf(front, kept), Filter(Giving(kept), front);
      forall n | 0 <= n < |giving|
        ensures StepFrom(rows, giving[n], n, before[n])
      {
        assert giving[n] in giving;
        TitledFurther(front, rows, giving[n].sopId, before[n].sopTitle);
      }
      if GivesStep(last, kept) {
        assert last in rows;
        LinkageTitled(rows, last.sopId);
      }
    }
  }

  /** The steps of a bundle: a permutation of the kept SOPs' step rows (`StepsAreRows`), ordered by the rank of their SOP
      among the bundle's linkages and then by number. */
  lemma BundleSteps(rows: seq<Row>, maxSops: int)
    ensures var kept := Kept(rows, maxSops);
            var linkages := Sort(MoreEffective(), LinkagesOf(rows, kept));
            var steps := Sort(InProcedureOrder(linkages), StepsOf(rows, kept));
            && multiset(steps) == multiset(StepsOf(rows, kept))
            && (forall s :: s in steps ==> RankOf(linkages, s.sopId) < |linkages|
                                           && linkages[RankOf(linkages, s.sopId)].sopId == s.sopId)
            && (forall i, j :: 0 <= i < j < |steps| ==>
                 var p, q := RankOf(linkages, steps[i].sopId), RankOf(linkages, steps[j].sopId);
                 p < q || (p == q && steps[i].sequenceNumber <= steps[j].sequenceNumber))
  {
    var kept := Kept(rows, maxSops);
    var links := LinkagesOf(rows, kept);
    var linkages := Sort(MoreEffective(), links);
    var le := InProcedureOrder(linkages);
    var steps := Sort(le, StepsOf(rows, kept));
    SortPermutes(le, StepsOf(rows, kept));
    SortSorted(le, StepsOf(rows, kept));
    assert forall i, j :: 0 <= i < j < |steps| ==> le(steps[i], steps[j]);
    SortPermutes(MoreEffective(), links);
    StepsAreOfKept(rows, kept);
    forall s | s in steps
      ensures RankOf(linkages, s.sopId) < |linkages| && linkages[RankOf(linkages, s.sopId)].sopId == s.sopId
    {
      RankedSomewhere(rows, kept, s.sopId);
    }
  }

  lemma RankedSomewhere(rows: seq<Row>, kept: seq<string>, id: string)
    requires id in kept
    ensures var linkages := Sort(MoreEffective(), LinkagesOf(rows, kept));
            RankOf(linkages, id) < |linkages| && linkages[RankOf(linkages, id)].sopId == id
  {
    var links := LinkagesOf(rows, kept);
    SortPermutes(MoreEffective(), links);
    var i :| 0 <= i < |kept| && kept[i] == id;
    assert links[i] in Sort(MoreEffective(), links) && links[i].sopId == id;
    RankOfMember(Sort(MoreEffective(), links), id);
  }

  /** Steps of one SOP with one number stay in row order. */
  lemma EqualStepsKeepOrder(rows: seq<Row>, maxSops: int, linkages: seq<Linkage>, id: string, n: int)
    ensures var steps, tied := StepsOf(rows, Kept(rows, maxSops)), (s: StepDetail) => s.sopId == id && s.sequenceNumber == n;
            Filter(tied, Sort(InProcedureOrder(linkages), steps)) == Filter(tied, steps)
  {
    SortStable(InProcedureOrder(linkages), StepsOf(rows, Kept(rows, maxSops)), (s: StepDetail) => s.sopId == id && s.sequenceNumber == n);
  }
}
