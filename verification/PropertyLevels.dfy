/** The properties that two levels of deduplication give against those of one: for which entities they are the same. */
module PropertyLevels {
  import opened Lists
  import opened Entities
  import opened EntityProperties
  import opened EntityLevels
  import opened PropertyMerging
  import opened ValueSlots

  function SlotOf(e: Entity, k: string): Slot {
    Slot(PropertyOf(e.properties, k), e.confidence)
  }

  function SlotsOf(es: seq<Entity>, k: string): (r: seq<Slot>)
    ensures |r| == |es|
  {
    seq(|es|, i requires 0 <= i < |es| => SlotOf(es[i], k))
  }

  lemma AbsorbMerges(r: Entity, e: Entity, k: string)
    ensures SlotOf(Absorb(r, e), k) == Merge(SlotOf(r, k), SlotOf(e, k))
  {
    AbsorbedConfidence(r, e, k);
    if k in r.properties && k in e.properties {
      AbsorbedValue(r, e, k);
    }
  }

  /** Merging a group merges its slots, key by key. */
  lemma {:induction false} RecordFolds(t: Tables, g: seq<Entity>, k: string)
    requires g != []
    ensures Fold(SlotsOf(g, k)) == Some(SlotOf(Record(t, g), k))
  {
    var front, last := Init(g), Last(g);
    assert SlotsOf(g, k) == SlotsOf(front, k) + [SlotOf(last, k)];
    FoldSnoc(SlotsOf(front, k), SlotOf(last, k));
    if front == [] {
      assert SlotsOf(front, k) == [];
    } else {
      RecordFolds(t, front, k);
      AbsorbMerges(Record(t, front), last, k);
    }
  }

  // ---------------------------------------------------------------- when the levels fill alike

  /** No three entities of the pool that share an id fill a key differently. */
  ghost predicate FillsAgree(t: Tables, pool: iset<Entity>) {
    forall e, f, g, k :: e in pool && f in pool && g in pool && CanonicalId(t, e) == CanonicalId(t, f) == CanonicalId(t, g) ==>
      !FillsDiffer(SlotOf(e, k), SlotOf(f, k), SlotOf(g, k))
  }

  ghost function PoolSlots(t: Tables, pool: iset<Entity>, id: string, k: string): iset<Slot> {
    iset e | e in pool && CanonicalId(t, e) == id :: SlotOf(e, k)
  }

  lemma PoolNoneDiffers(t: Tables, pool: iset<Entity>, id: string, k: string)
    requires FillsAgree(t, pool)
    ensures NoneDiffers(PoolSlots(t, pool, id, k))
  {
  }

  lemma {:induction false} GroupAppend(t: Tables, xs: seq<Entity>, ys: seq<Entity>, id: string)
    ensures Group(t, xs + ys, id) == Group(t, xs, id) + Group(t, ys, id)
    decreases |ys|
  {
    if ys == [] {
      assert xs + ys == xs;
    } else {
      assert Init(xs + ys) == xs + Init(ys) && Last(xs + ys) == Last(ys);
      GroupAppend(t, xs, Init(ys), id);
    }
  }

  /** Slots of entities of one id, merged in parts. */
  lemma FoldGroups(t: Tables, xs: seq<Entity>, ys: seq<Entity>, pool: iset<Entity>, id: string, k: string)
    requires FillsAgree(t, pool) && forall e :: e in xs || e in ys ==> e in pool
    ensures Fold(SlotsOf(Group(t, xs + ys, id), k)) == Join(Fold(SlotsOf(Group(t, xs, id), k)), Fold(SlotsOf(Group(t, ys, id), k)))
  {
    var a, b, slots := Group(t, xs, id), Group(t, ys, id), PoolSlots(t, pool, id, k);
    GroupAppend(t, xs, ys, id);
    GroupMembers(t, xs, id);
    GroupMembers(t, ys, id);
    PoolNoneDiffers(t, pool, id, k);
    SlotsInPool(t, a, pool, id, k);
    SlotsInPool(t, b, pool, id, k);
    SlotsAppend(a, b, k);
    FoldAppend(SlotsOf(a, k), SlotsOf(b, k), slots);
  }

  lemma SlotsAppend(xs: seq<Entity>, ys: seq<Entity>, k: string)
    ensures SlotsOf(xs + ys, k) == SlotsOf(xs, k) + SlotsOf(ys, k)
  {
  }

  lemma SlotsInPool(t: Tables, g: seq<Entity>, pool: iset<Entity>, id: string, k: string)
    requires forall e :: e in g ==> e in pool && CanonicalId(t, e) == id
    ensures forall s :: s in SlotsOf(g, k) ==> s in PoolSlots(t, pool, id, k)
  {
    forall i | 0 <= i < |g|
      ensures SlotsOf(g, k)[i] in PoolSlots(t, pool, id, k)
    {
      assert g[i] in g;
    }
  }

  /** If the records keep their ids, a pass leaves one record with the merged slot of each id. */
  lemma DedupSlots(t: Tables, es: seq<Entity>, id: string, k: string)
    requires Keys(t, Dedup(t, es)) == Sketches(Dedup(t, es))
    ensures Fold(SlotsOf(Group(t, Dedup(t, es), id), k)) == Fold(SlotsOf(Group(t, es, id), k))
    ensures |Group(t, Dedup(t, es), id)| <= 1
  {
    var rs := Dedup(t, es);
    DedupIdsDistinct(t, es);
    assert IdsOf(t, rs) == SketchIds(Keys(t, rs));
    GroupMembers(t, rs, id);
    GroupMembers(t, es, id);
    if id in IdsOf(t, rs) {
      var i :| 0 <= i < |rs| && IdsOf(t, rs)[i] == id;
      GroupAlone(t, rs, i);
      RecordFolds(t, Group(t, es, id), k);
      SlotOfOne(rs[i], k);
    }
  }

  lemma SlotOfOne(e: Entity, k: string)
    ensures Fold(SlotsOf([e], k)) == Some(SlotOf(e, k))
  {
    assert SlotsOf([e], k) == [SlotOf(e, k)];
    FoldOne(SlotOf(e, k));
  }

  /** One more record at most merges as an entity does. */
  lemma FoldShort(t: Tables, xs: seq<Entity>, ys: seq<Entity>, id: string, k: string)
    requires |Group(t, ys, id)| <= 1
    ensures Fold(SlotsOf(Group(t, xs + ys, id), k)) == Join(Fold(SlotsOf(Group(t, xs, id), k)), Fold(SlotsOf(Group(t, ys, id), k)))
  {
    var a, b := Group(t, xs, id), Group(t, ys, id);
    GroupAppend(t, xs, ys, id);
    if b == [] {
      assert a + b == a && SlotsOf(b, k) == [];
    } else {
      assert SlotsOf(b, k) == [SlotOf(b[0], k)];
      SlotsAppend(a, b, k);
      FoldSnoc(SlotsOf(a, k), SlotOf(b[0], k));
      FoldOne(SlotOf(b[0], k));
    }
  }

  lemma {:induction false} ChunkwiseSlots(t: Tables, chunks: seq<seq<Entity>>, pool: iset<Entity>, id: string, k: string)
    requires PairsSettle(t, pool) && FillsAgree(t, pool) && DrawnFrom(chunks, pool)
    ensures forall e :: e in Flatten(chunks) ==> e in pool
    ensures Fold(SlotsOf(Group(t, Flatten(DedupEach(t, chunks)), id), k)) == Fold(SlotsOf(Group(t, Flatten(chunks), id), k))
  {
    if chunks != [] {
      var front, last := Init(chunks), Last(chunks);
      assert last in chunks && forall c :: c in front ==> c in chunks;
      FlattenDedup(t, chunks);
      ChunkwiseSlots(t, front, pool, id, k);
      DedupKeepsSketches(t, last, pool);
      DedupSlots(t, last, id, k);
      FoldGroups(t, Flatten(front), last, pool, id, k);
      FoldShort(t, Flatten(DedupEach(t, front)), Dedup(t, last), id, k);
    }
  }

  lemma DedupValue(t: Tables, es: seq<Entity>, i: nat, k: string)
    requires i < |Dedup(t, es)|
    ensures Fold(SlotsOf(Group(t, es, FirstSeen(IdsOf(t, es))[i]), k)) == Some(SlotOf(Dedup(t, es)[i], k))
  {
    var id := FirstSeen(IdsOf(t, es))[i];
    assert id in FirstSeen(IdsOf(t, es));
    GroupMembers(t, es, id);
    RecordFolds(t, Group(t, es, id), k);
  }

  /** Two levels give the records the properties that one gives them. */
  ghost predicate PropertiesAgree(t: Tables, chunks: seq<seq<Entity>>) {
    var one, two := Dedup(t, Flatten(chunks)), Dedup(t, Flatten(DedupEach(t, chunks)));
    |one| == |two| && forall i :: 0 <= i < |one| ==> two[i].properties == one[i].properties
  }

  lemma SettledPropertiesAgree(t: Tables, chunks: seq<seq<Entity>>, pool: iset<Entity>)
    requires PairsSettle(t, pool) && FillsAgree(t, pool) && DrawnFrom(chunks, pool)
    ensures PropertiesAgree(t, chunks)
  {
    var flat, flat' := Flatten(chunks), Flatten(DedupEach(t, chunks));
    SettledLevelsAgree(t, chunks, pool);
    DedupIdsDistinct(t, flat);
    DedupIdsDistinct(t, flat');
    forall i, k | 0 <= i < |Dedup(t, flat)|
      ensures PropertyOf(Dedup(t, flat')[i].properties, k) == PropertyOf(Dedup(t, flat)[i].properties, k)
    {
      ChunkwiseSlots(t, chunks, pool, FirstSeen(IdsOf(t, flat))[i], k);
      DedupValue(t, flat, i, k);
      DedupValue(t, flat', i, k);
    }
    forall i | 0 <= i < |Dedup(t, flat)|
      ensures Dedup(t, flat')[i].properties == Dedup(t, flat)[i].properties
    {
      SameProperties(Dedup(t, flat')[i].properties, Dedup(t, flat)[i].properties);
    }
  }

  lemma SameProperties(p: Properties, q: Properties)
    requires forall k :: PropertyOf(p, k) == PropertyOf(q, k)
    ensures p == q
  {
    assert forall k :: k in p <==> PropertyOf(p, k).Some?;
    assert forall k :: k in q <==> PropertyOf(q, k).Some?;
    assert forall k :: k in p ==> PropertyOf(p, k) == Some(p[k]);
  }

  // ---------------------------------------------------------------- three entities decide

  /** The record of a chunk of settled entities stays what it is. */
  lemma ChunkRecord(t: Tables, c: seq<Entity>, id: string, pool: iset<Entity>)
    requires PairsSettle(t, pool) && c != [] && forall e :: e in c ==> e in pool && CanonicalId(t, e) == id
    ensures Dedup(t, c) == [Record(t, c)] && CanonicalId(t, Record(t, c)) == id
  {
    assert c[0] in c;
    forall f | f in c
      ensures NamesSettle(t, PairNames(t, c[0], f), id)
    {
    }
    DedupOfGroup(t, c, id);
    PairsSettleGroup(t, c, id);
    GroupResolves(t, c, id);
  }

  /** Two chunks of one id: the record of all entities on one level, that of the two records on two. */
  lemma TwoChunks(t: Tables, c: seq<Entity>, d: seq<Entity>, id: string, pool: iset<Entity>)
    requires PairsSettle(t, pool) && c != [] && d != []
    requires forall e :: e in c || e in d ==> e in pool && CanonicalId(t, e) == id
    ensures Dedup(t, Flatten([c, d])) == [Record(t, c + d)]
    ensures Dedup(t, Flatten(DedupEach(t, [c, d]))) == [Record(t, [Record(t, c), Record(t, d)])]
  {
    ChunkRecord(t, c, id, pool);
    ChunkRecord(t, d, id, pool);
    ChunkRecord(t, c + d, id, pool);
    FlattenTwo(c, d);
    TwoRecords(t, c, d, Record(t, c), Record(t, d));
    DedupOfGroup(t, [Record(t, c), Record(t, d)], id);
  }

  /** Three entities in the chunks [[e], [f, g]]: one level merges the first two first, two levels the last two. */
  lemma ThreeOnTwoLevels(t: Tables, e: Entity, f: Entity, g: Entity, id: string, pool: iset<Entity>, k: string, chunks: seq<seq<Entity>>)
    requires chunks == [[e], [f, g]] && PairsSettle(t, pool) && e in pool && f in pool && g in pool
    requires CanonicalId(t, e) == CanonicalId(t, f) == CanonicalId(t, g) == id
    ensures var one, two := Dedup(t, Flatten(chunks)), Dedup(t, Flatten(DedupEach(t, chunks)));
            && |one| == |two| == 1
            && SlotOf(one[0], k) == Merge(Merge(SlotOf(e, k), SlotOf(f, k)), SlotOf(g, k))
            && SlotOf(two[0], k) == Merge(SlotOf(e, k), Merge(SlotOf(f, k), SlotOf(g, k)))
  {
    TwoChunks(t, [e], [f, g], id, pool);
    assert [e] + [f, g] == [e, f, g];
    RecordSlots(t, e, f, g, Record(t, [e]), Record(t, [f, g]), k);
  }

  lemma TwoRecords(t: Tables, c: seq<Entity>, d: seq<Entity>, r: Entity, q: Entity)
    requires Dedup(t, c) == [r] && Dedup(t, d) == [q]
    ensures Flatten(DedupEach(t, [c, d])) == [r, q]
  {
    assert DedupEach(t, [c, d]) == [[r], [q]];
    FlattenTwo([r], [q]);
    assert [r] + [q] == [r, q];
  }

  lemma SlotOfTwo(t: Tables, e: Entity, f: Entity, k: string)
    ensures SlotOf(Record(t, [e, f]), k) == Merge(SlotOf(e, k), SlotOf(f, k))
  {
    RecordOfTwo(t, e, f);
    AbsorbMerges(Fresh(t, e), f, k);
  }

  lemma RecordSlots(t: Tables, e: Entity, f: Entity, g: Entity, r: Entity, q: Entity, k: string)
    requires r == Record(t, [e]) && q == Record(t, [f, g])
    ensures SlotOf(Record(t, [e, f, g]), k) == Merge(Merge(SlotOf(e, k), SlotOf(f, k)), SlotOf(g, k))
    ensures SlotOf(Record(t, [r, q]), k) == Merge(SlotOf(e, k), Merge(SlotOf(f, k), SlotOf(g, k)))
  {
    RecordOfOne(t, e);
    SlotOfTwo(t, f, g, k);
    SlotOfTwo(t, r, q, k);
    SlotOfTwo(t, e, f, k);
    RecordStep(t, [e, f], g);
    assert [e, f] + [g] == [e, f, g];
    AbsorbMerges(Record(t, [e, f]), g, k);
  }

  lemma AgreeOnThree(t: Tables, e: Entity, f: Entity, g: Entity, pool: iset<Entity>, k: string, chunks: seq<seq<Entity>>)
    requires PairsSettle(t, pool) && e in pool && f in pool && g in pool
    requires CanonicalId(t, e) == CanonicalId(t, f) == CanonicalId(t, g)
    requires chunks == [[e], [f, g]] && (DrawnFrom(chunks, pool) ==> PropertiesAgree(t, chunks))
    ensures !FillsDiffer(SlotOf(e, k), SlotOf(f, k), SlotOf(g, k))
  {
    DrawnThree(e, f, g, pool, chunks);
    AgreedValue(t, chunks, k);
    ThreeOnTwoLevels(t, e, f, g, CanonicalId(t, e), pool, k, chunks);
    FillsDifferIff(SlotOf(e, k), SlotOf(f, k), SlotOf(g, k));
  }

  lemma DrawnThree(e: Entity, f: Entity, g: Entity, pool: iset<Entity>, chunks: seq<seq<Entity>>)
    requires chunks == [[e], [f, g]] && e in pool && f in pool && g in pool
    ensures DrawnFrom(chunks, pool)
  {
  }

  lemma AgreedValue(t: Tables, chunks: seq<seq<Entity>>, k: string)
    requires PropertiesAgree(t, chunks)
    ensures var one, two := Dedup(t, Flatten(chunks)), Dedup(t, Flatten(DedupEach(t, chunks)));
            |one| == |two| && (one != [] ==> SlotOf(one[0], k).value == SlotOf(two[0], k).value)
  {
  }

  /** Where two levels keep the ids, they agree with one on the properties of all chunks drawn from a pool exactly when
      no three of its entities that share an id fill a key differently. */
  lemma PropertiesAgreeIff(t: Tables, pool: iset<Entity>)
    requires PairsSettle(t, pool)
    ensures (forall chunks :: DrawnFrom(chunks, pool) ==> PropertiesAgree(t, chunks)) <==> FillsAgree(t, pool)
  {
    if FillsAgree(t, pool) {
      forall chunks | DrawnFrom(chunks, pool)
        ensures PropertiesAgree(t, chunks)
      {
        SettledPropertiesAgree(t, chunks, pool);
      }
    }
    if forall chunks :: DrawnFrom(chunks, pool) ==> PropertiesAgree(t, chunks) {
      forall e, f, g, k | e in pool && f in pool && g in pool && CanonicalId(t, e) == CanonicalId(t, f) == CanonicalId(t, g)
        ensures !FillsDiffer(SlotOf(e, k), SlotOf(f, k), SlotOf(g, k))
      {
        AgreeOnThree(t, e, f, g, pool, k, [[e], [f, g]]);
      }
    }
  }

  /** Ids, display names, confidences and properties: two levels agree with one on all chunks drawn from a pool
      exactly when its pairs settle and its triples fill alike. */
  lemma FullyAgreeIff(t: Tables, pool: iset<Entity>)
    ensures (forall chunks :: DrawnFrom(chunks, pool) ==> LevelsAgree(t, chunks) && PropertiesAgree(t, chunks)) <==>
            PairsSettle(t, pool) && FillsAgree(t, pool)
  {
    LevelsAgreeIff(t, pool);
    if PairsSettle(t, pool) {
      PropertiesAgreeIff(t, pool);
    }
  }

  ghost predicate NoBlanks(es: seq<Entity>) {
    forall e, k :: e in es && k in e.properties ==> !IsBlank(e.properties[k])
  }

  /** Where two levels agree on ids and no value is blank, they agree on the properties as well. */
  lemma LevelsAgreeOnProperties(t: Tables, chunks: seq<seq<Entity>>, pool: iset<Entity>)
    requires PairsSettle(t, pool) && DrawnFrom(chunks, pool) && NoBlanks(Flatten(chunks))
    ensures PropertiesAgree(t, chunks)
  {
    var drawn := iset e | e in pool && e in Flatten(chunks);
    forall c, e | c in chunks && e in c
      ensures e in drawn
    {
      var i :| 0 <= i < |chunks| && chunks[i] == c;
      InFlatten(chunks, i, e);
    }
    SettledPropertiesAgree(t, chunks, drawn);
  }

  // ---------------------------------------------------------------- an input

  /** An entity with one property. */
  function Valued(value: string, confidence: real): Entity {
    Entity("a", "A", confidence, [], map["k" := Text(value)])
  }

  lemma NoAliasesSettle(t: Tables, pool: iset<Entity>)
    requires t.aliases == map[]
    ensures PairsSettle(t, pool)
  {
  }

  /** A blank value may be filled from a later entity, and then the levels can fill it from different ones. */
  lemma BlankFilledDifferently(t: Tables, e: Entity, f: Entity, g: Entity, chunks: seq<seq<Entity>>)
    requires t.aliases == map[] && chunks == [[e], [f, g]]
    requires e == Valued("", 0.5) && f == Valued("x", 0.4) && g == Valued("y", 0.6)
    ensures var one, two := Dedup(t, Flatten(chunks)), Dedup(t, Flatten(DedupEach(t, chunks)));
            && |one| == |two| == 1
            && PropertyOf(one[0].properties, "k") == Some(Text("y")) && PropertyOf(two[0].properties, "k") == Some(Text("x"))
  {
    var pool := iset x | x in [e, f, g];
    NoAliasesSettle(t, pool);
    ThreeOnTwoLevels(t, e, f, g, "a", pool, "k", chunks);
  }
}
