/** What one deduplication pass settles: ids, display names and confidences, and that it loses no name. */
module EntityProperties {
  import opened Lists
  import opened Sorting
  import opened Entities

  // ---------------------------------------------------------------- sketches

  /** What deduplication settles about an entity: canonical id, canonical display name, confidence. */
  datatype Sketch = Sketch(id: string, displayName: string, confidence: real)

  function KeyOf(t: Tables, e: Entity): Sketch {
    Sketch(CanonicalId(t, e), DisplayFor(t, CanonicalId(t, e), e.displayName), e.confidence)
  }

  function Keys(t: Tables, es: seq<Entity>): (r: seq<Sketch>)
    ensures |r| == |es|
  {
    seq(|es|, i requires 0 <= i < |es| => KeyOf(t, es[i]))
  }

  function SketchOf(e: Entity): Sketch {
    Sketch(e.id, e.displayName, e.confidence)
  }

  function Sketches(es: seq<Entity>): (r: seq<Sketch>)
    ensures |r| == |es|
  {
    seq(|es|, i requires 0 <= i < |es| => SketchOf(es[i]))
  }

  function SketchIds(xs: seq<Sketch>): (r: seq<string>)
    ensures |r| == |xs|
  {
    seq(|xs|, i requires 0 <= i < |xs| => xs[i].id)
  }

  /** The display name of the first sketch of an id. */
  function FirstDisplay(xs: seq<Sketch>, id: string): Option<string> {
    if xs == [] then None
    else if FirstDisplay(Init(xs), id).Some? then FirstDisplay(Init(xs), id)
    else if Last(xs).id == id then Some(Last(xs).displayName)
    else None
  }

  function Higher(a: Option<real>, b: Option<real>): Option<real> {
    if a == None then b
    else if b == None || a.value >= b.value then a
    else b
  }

  /** The highest confidence among the sketches of an id. */
  function BestConfidence(xs: seq<Sketch>, id: string): Option<real> {
    if xs == [] then None
    else Higher(BestConfidence(Init(xs), id), if Last(xs).id == id then Some(Last(xs).confidence) else None)
  }

  /** Two sketch lists that deduplicate alike: same ids in order of appearance, same first display name, same best confidence. */
  ghost predicate Alike(xs: seq<Sketch>, ys: seq<Sketch>) {
    && FirstSeen(SketchIds(xs)) == FirstSeen(SketchIds(ys))
    && (forall id :: FirstDisplay(xs, id) == FirstDisplay(ys, id) && BestConfidence(xs, id) == BestConfidence(ys, id))
  }

  lemma SketchSnoc(xs: seq<Sketch>, x: Sketch, id: string)
    ensures FirstDisplay(xs + [x], id) == if FirstDisplay(xs, id).Some? then FirstDisplay(xs, id)
                                          else if x.id == id then Some(x.displayName) else None
    ensures BestConfidence(xs + [x], id) == Higher(BestConfidence(xs, id), if x.id == id then Some(x.confidence) else None)
  {
    assert Init(xs + [x]) == xs && Last(xs + [x]) == x;
  }

  lemma {:induction false} DisplayAppend(xs: seq<Sketch>, ys: seq<Sketch>, id: string)
    ensures FirstDisplay(xs + ys, id) == if FirstDisplay(xs, id).Some? then FirstDisplay(xs, id) else FirstDisplay(ys, id)
    decreases |ys|
  {
    if ys == [] {
      assert xs + ys == xs;
    } else {
      assert Init(xs + ys) == xs + Init(ys) && Last(xs + ys) == Last(ys);
      DisplayAppend(xs, Init(ys), id);
    }
  }

  lemma {:induction false} BestAppend(xs: seq<Sketch>, ys: seq<Sketch>, id: string)
    ensures BestConfidence(xs + ys, id) == Higher(BestConfidence(xs, id), BestConfidence(ys, id))
    decreases |ys|
  {
    if ys == [] {
      assert xs + ys == xs;
    } else {
      assert Init(xs + ys) == xs + Init(ys) && Last(xs + ys) == Last(ys);
      BestAppend(xs, Init(ys), id);
    }
  }

  lemma AlikeAppend(xs: seq<Sketch>, xs': seq<Sketch>, ys: seq<Sketch>, ys': seq<Sketch>)
    requires Alike(xs, xs') && Alike(ys, ys')
    ensures Alike(xs + ys, xs' + ys')
  {
    assert SketchIds(xs + ys) == SketchIds(xs) + SketchIds(ys);
    assert SketchIds(xs' + ys') == SketchIds(xs') + SketchIds(ys');
    FirstSeenCongruent(SketchIds(xs), SketchIds(xs'), SketchIds(ys), SketchIds(ys'));
    forall id
      ensures FirstDisplay(xs + ys, id) == FirstDisplay(xs' + ys', id)
      ensures BestConfidence(xs + ys, id) == BestConfidence(xs' + ys', id)
    {
      DisplayAppend(xs, ys, id);
      DisplayAppend(xs', ys', id);
      BestAppend(xs, ys, id);
      BestAppend(xs', ys', id);
    }
  }

  /** A list with distinct ids is determined by its ids, display names and confidences. */
  lemma {:induction false} DistinctSketch(xs: seq<Sketch>, i: nat)
    requires Distinct(SketchIds(xs)) && i < |xs|
    ensures FirstDisplay(xs, xs[i].id) == Some(xs[i].displayName)
    ensures BestConfidence(xs, xs[i].id) == Some(xs[i].confidence)
  {
    var front, last, id := Init(xs), Last(xs), xs[i].id;
    assert xs == front + [last];
    SketchSnoc(front, last, id);
    assert SketchIds(xs) == SketchIds(front) + [last.id];
    DistinctSnoc(SketchIds(front), last.id);
    if i < |front| {
      DistinctSketch(front, i);
      assert front[i] == xs[i] && SketchIds(front)[i] == id;
    } else {
      AbsentSketch(front, id);
    }
  }

  lemma {:induction false} AbsentSketch(xs: seq<Sketch>, id: string)
    requires id !in SketchIds(xs)
    ensures FirstDisplay(xs, id) == None && BestConfidence(xs, id) == None
  {
    if xs != [] {
      assert SketchIds(xs) == SketchIds(Init(xs)) + [Last(xs).id];
      AbsentSketch(Init(xs), id);
    }
  }

  lemma AlikeDistinct(xs: seq<Sketch>, ys: seq<Sketch>)
    requires Alike(xs, ys) && Distinct(SketchIds(xs)) && Distinct(SketchIds(ys))
    ensures xs == ys
  {
    FirstSeenOfDistinct(SketchIds(xs));
    FirstSeenOfDistinct(SketchIds(ys));
    forall i | 0 <= i < |xs|
      ensures xs[i] == ys[i]
    {
      assert SketchIds(xs)[i] == SketchIds(ys)[i];
      DistinctSketch(xs, i);
      DistinctSketch(ys, i);
    }
  }

  // ---------------------------------------------------------------- what a pass does to sketches

  lemma KeysSnoc(t: Tables, front: seq<Entity>, last: Entity, es: seq<Entity>)
    requires es == front + [last]
    ensures Keys(t, es) == Keys(t, front) + [KeyOf(t, last)]
  {
  }

  /** What merging one more occurrence does to the name and confidence of a record. */
  lemma AbsorbSketch(xs: seq<Sketch>, x: Sketch, r: Entity, e: Entity, id: string)
    requires FirstDisplay(xs, id) == Some(r.displayName) && BestConfidence(xs, id) == Some(r.confidence)
    requires x.id == id && x.confidence == e.confidence
    ensures Absorb(r, e).id == r.id
    ensures FirstDisplay(xs + [x], id) == Some(Absorb(r, e).displayName)
    ensures BestConfidence(xs + [x], id) == Some(Absorb(r, e).confidence)
  {
    SketchSnoc(xs, x, id);
  }

  /** Of a group with one id, the record keeps the first display name and the best confidence. */
  lemma {:induction false} RecordSketch(t: Tables, g: seq<Entity>, id: string)
    requires g != [] && forall e :: e in g ==> CanonicalId(t, e) == id
    ensures Record(t, g).id == id
    ensures FirstDisplay(Keys(t, g), id) == Some(Record(t, g).displayName)
    ensures BestConfidence(Keys(t, g), id) == Some(Record(t, g).confidence)
  {
    var front, last := Init(g), Last(g);
    assert last in g;
    KeysSnoc(t, front, last, g);
    if front == [] {
      SketchSnoc([], KeyOf(t, last), id);
    } else {
      RecordSketch(t, front, id);
      AbsorbSketch(Keys(t, front), KeyOf(t, last), Record(t, front), last, id);
    }
  }

  lemma {:induction false} GroupSketch(t: Tables, es: seq<Entity>, id: string)
    ensures FirstDisplay(Keys(t, Group(t, es, id)), id) == FirstDisplay(Keys(t, es), id)
    ensures BestConfidence(Keys(t, Group(t, es, id)), id) == BestConfidence(Keys(t, es), id)
  {
    if es != [] {
      var front, last := Init(es), Last(es);
      var g, key := Group(t, front, id), KeyOf(t, last);
      GroupSketch(t, front, id);
      KeysSnoc(t, front, last, es);
      SketchSnoc(Keys(t, front), key, id);
      KeysSnoc(t, g, last, g + [last]);
      SketchSnoc(Keys(t, g), key, id);
      assert Group(t, es, id) == if CanonicalId(t, last) == id then g + [last] else g;
    }
  }

  lemma DedupIdsDistinct(t: Tables, es: seq<Entity>)
    ensures SketchIds(Sketches(Dedup(t, es))) == FirstSeen(IdsOf(t, es))
    ensures Distinct(SketchIds(Sketches(Dedup(t, es))))
  {
    var ids, r := FirstSeen(IdsOf(t, es)), Dedup(t, es);
    FirstSeenDistinct(IdsOf(t, es));
    forall i | 0 <= i < |r|
      ensures r[i].id == ids[i]
    {
      assert ids[i] in ids;
      GroupMembers(t, es, ids[i]);
      RecordSketch(t, Group(t, es, ids[i]), ids[i]);
    }
  }

  /** The output of a pass is alike to its input. */
  lemma DedupAlike(t: Tables, es: seq<Entity>)
    ensures Alike(Sketches(Dedup(t, es)), Keys(t, es))
  {
    var ids, xs, ys := FirstSeen(IdsOf(t, es)), Sketches(Dedup(t, es)), Keys(t, es);
    DedupIdsDistinct(t, es);
    FirstSeenOfDistinct(ids);
    assert SketchIds(ys) == IdsOf(t, es);
    forall id
      ensures FirstDisplay(xs, id) == FirstDisplay(ys, id) && BestConfidence(xs, id) == BestConfidence(ys, id)
    {
      if id in ids {
        var i :| 0 <= i < |ids| && ids[i] == id;
        GroupMembers(t, es, id);
        RecordSketch(t, Group(t, es, id), id);
        GroupSketch(t, es, id);
        assert xs[i].id == SketchIds(xs)[i];
        DistinctSketch(xs, i);
      } else {
        AbsentSketch(xs, id);
        AbsentSketch(ys, id);
      }
    }
  }

  /** A further pass keeps every id exactly when every record resolves to its own id. */
  lemma PassKeepsIds(t: Tables, rs: seq<Entity>)
    requires Distinct(SketchIds(Sketches(rs)))
    ensures SketchIds(Sketches(Dedup(t, rs))) == SketchIds(Sketches(rs)) <==> forall r :: r in rs ==> CanonicalId(t, r) == r.id
  {
    var ids, own := IdsOf(t, rs), SketchIds(Sketches(rs));
    DedupIdsDistinct(t, rs);
    if FirstSeen(ids) == own {
      FirstSeenFullLength(ids);
      forall r | r in rs
        ensures CanonicalId(t, r) == r.id
      {
        var i :| 0 <= i < |rs| && rs[i] == r;
        assert ids[i] == own[i];
      }
    }
    if forall r :: r in rs ==> CanonicalId(t, r) == r.id {
      forall i | 0 <= i < |rs|
        ensures ids[i] == own[i]
      {
        assert rs[i] in rs;
      }
      assert ids == own;
      FirstSeenOfDistinct(own);
    }
  }
  // ---------------------------------------------------------------- no name is lost

  lemma {:induction false} RecordKeepsNames(t: Tables, g: seq<Entity>, e: Entity, n: string)
    requires e in g && (n in e.aliases || n == e.displayName)
    ensures n in Record(t, g).aliases
  {
    if |g| == 1 {
      SortedSetElements(Names(t, e));
      assert n in Names(t, e);
    } else {
      var r, last := Record(t, Init(g)), Last(g);
      SortedSetElements(r.aliases + last.aliases + [last.displayName]);
      if e in Init(g) {
        RecordKeepsNames(t, Init(g), e, n);
      } else {
        assert e == last;
      }
    }
  }

  /** Every name of every entity ends up among the aliases of the record it is merged into. */
  lemma NoNameLost(t: Tables, es: seq<Entity>, e: Entity, n: string) returns (r: Entity)
    requires e in es && (n in e.aliases || n == e.displayName)
    ensures r in Dedup(t, es) && r.id == CanonicalId(t, e) && n in r.aliases
  {
    var ids, id := FirstSeen(IdsOf(t, es)), CanonicalId(t, e);
    GroupMembers(t, es, id);
    RecordKeepsNames(t, Group(t, es, id), e, n);
    RecordSketch(t, Group(t, es, id), id);
    var i :| 0 <= i < |ids| && ids[i] == id;
    r := Dedup(t, es)[i];
  }
}
