/** One deduplication against two: a pass per chunk followed by a global pass gives the same ids, display names
    and confidences as one global pass. `LevelsAgreeIff` says for which entities. */
module EntityLevels {
  import opened Lists
  import opened Sorting
  import opened Entities
  import opened EntityProperties

  // ---------------------------------------------------------------- the name that decides

  /** Whatever `name` hits in the alias map is `id`. */
  predicate Agrees(t: Tables, name: string, id: string) {
    Hits(t, name) ==> Hit(t, name) == id
  }

  /** `n` is the least of the names that hit. */
  ghost predicate Leads(t: Tables, names: seq<string>, n: string) {
    n in names && Hits(t, n) && forall m :: m in names && Hits(t, m) ==> StringLe(n, m)
  }

  /** In sorted names the least one that hits is found first. */
  lemma {:induction false} LeaderFound(t: Tables, names: seq<string>, n: string)
    requires Sorted(StringOrder(), names) && Leads(t, names, n)
    ensures FirstHit(t, names) == Some(Hit(t, n))
  {
    assert names == [names[0]] + names[1..];
    if Hits(t, names[0]) {
      var i :| 0 <= i < |names| && names[i] == n;
      assert i > 0 ==> StringOrder()(names[0], n);
      if i > 0 {
        StringLeAntisymmetric(n, names[0]);
      }
    } else {
      LeaderFound(t, names[1..], n);
    }
  }

  lemma {:induction false} LeaderExists(t: Tables, names: seq<string>) returns (n: string)
    requires Sorted(StringOrder(), names) && exists m :: m in names && Hits(t, m)
    ensures Leads(t, names, n)
  {
    assert names == [names[0]] + names[1..];
    if Hits(t, names[0]) {
      n := names[0];
      StringLeTotal(n, n);
      forall m | m in names && Hits(t, m)
        ensures StringLe(n, m)
      {
        var i :| 0 <= i < |names| && names[i] == m;
        assert i > 0 ==> StringOrder()(names[0], m);
      }
    } else {
      n := LeaderExists(t, names[1..]);
    }
  }

  /** The least name that hits leads to `id`; if none hits, the canonical display name of `id` leads to no other id. */
  ghost predicate NamesSettle(t: Tables, names: seq<string>, id: string) {
    && (forall n :: Leads(t, names, n) ==> Hit(t, n) == id)
    && ((forall n :: n in names ==> !Hits(t, n)) ==> id in t.displays ==> Agrees(t, t.displays[id], id))
  }

  /** A record resolves to its own id exactly when its names settle. */
  lemma RecordResolves(t: Tables, r: Entity, displayName: string)
    requires Sorted(StringOrder(), r.aliases) && displayName in r.aliases
    requires r.displayName == DisplayFor(t, r.id, displayName)
    ensures CanonicalId(t, r) == r.id <==> NamesSettle(t, r.aliases, r.id)
  {
    if n :| n in r.aliases && Hits(t, n) {
      var leader := LeaderExists(t, r.aliases);
      LeaderFound(t, r.aliases, leader);
      forall m | Leads(t, r.aliases, m)
        ensures Hit(t, m) == Hit(t, leader)
      {
        LeaderFound(t, r.aliases, m);
      }
    }
  }

  /** The names a record collects from a group. */
  function GroupNames(t: Tables, g: seq<Entity>): seq<string>
    requires g != []
  {
    if |g| == 1 then Names(t, g[0]) else GroupNames(t, Init(g)) + Last(g).aliases + [Last(g).displayName]
  }

  ghost predicate SameNames(xs: seq<string>, ys: seq<string>) {
    forall n :: n in xs <==> n in ys
  }

  lemma SettleBySameNames(t: Tables, xs: seq<string>, ys: seq<string>, id: string)
    requires SameNames(xs, ys) && NamesSettle(t, xs, id)
    ensures NamesSettle(t, ys, id)
  {
    forall n | Leads(t, ys, n)
      ensures Leads(t, xs, n)
    {
    }
  }

  lemma SortedSetSorted(names: seq<string>)
    ensures Sorted(StringOrder(), SortedSet(names)) && SameNames(SortedSet(names), names)
  {
    StringOrderTotal();
    SortSorted(StringOrder(), FirstSeen(names));
    SortedSetElements(names);
  }

  lemma {:induction false} RecordNames(t: Tables, g: seq<Entity>)
    requires g != []
    ensures Sorted(StringOrder(), Record(t, g).aliases) && SameNames(Record(t, g).aliases, GroupNames(t, g))
  {
    if |g| == 1 {
      SortedSetSorted(Names(t, g[0]));
    } else {
      var r, last := Record(t, Init(g)), Last(g);
      RecordNames(t, Init(g));
      SortedSetSorted(r.aliases + last.aliases + [last.displayName]);
    }
  }

  lemma {:induction false} RecordDisplay(t: Tables, g: seq<Entity>, id: string)
    requires g != [] && CanonicalId(t, g[0]) == id
    ensures Record(t, g).id == id && Record(t, g).displayName == DisplayFor(t, id, g[0].displayName)
    ensures g[0].displayName in GroupNames(t, g)
  {
    if |g| > 1 {
      RecordDisplay(t, Init(g), id);
    }
  }

  /** A group's record keeps the group's id in a further pass exactly when the group's names settle. */
  lemma GroupResolves(t: Tables, g: seq<Entity>, id: string)
    requires g != [] && CanonicalId(t, g[0]) == id
    ensures CanonicalId(t, Record(t, g)) == id <==> NamesSettle(t, GroupNames(t, g), id)
  {
    var r, names := Record(t, g), GroupNames(t, g);
    RecordNames(t, g);
    RecordDisplay(t, g, id);
    RecordResolves(t, r, g[0].displayName);
    if NamesSettle(t, names, id) {
      SettleBySameNames(t, names, r.aliases, id);
    }
    if NamesSettle(t, r.aliases, id) {
      SettleBySameNames(t, r.aliases, names, id);
    }
  }

  // ---------------------------------------------------------------- pairs decide groups

  /** The names the record of two entities collects. */
  function PairNames(t: Tables, e: Entity, f: Entity): seq<string> {
    Names(t, e) + f.aliases + [f.displayName]
  }

  lemma PairIsGroup(t: Tables, e: Entity, f: Entity)
    ensures GroupNames(t, [e, f]) == PairNames(t, e, f)
  {
    assert Init([e, f]) == [e] && Last([e, f]) == f;
  }

  lemma {:induction false} PairWithinGroup(t: Tables, g: seq<Entity>, f: Entity, n: string)
    requires f in g && n in PairNames(t, g[0], f)
    ensures n in GroupNames(t, g)
  {
    if |g| > 1 {
      if f in Init(g) {
        PairWithinGroup(t, Init(g), f, n);
      } else if n in Names(t, g[0]) {
        PairWithinGroup(t, Init(g), g[0], n);
      }
    }
  }

  lemma {:induction false} NameOfPair(t: Tables, g: seq<Entity>, n: string) returns (f: Entity)
    requires g != [] && n in GroupNames(t, g)
    ensures f in g && n in PairNames(t, g[0], f)
  {
    f := Last(g);
    if |g| > 1 && n !in f.aliases && n != f.displayName {
      f := NameOfPair(t, Init(g), n);
    }
  }

  /** The least hitting name of a group is already that of its first entity and one other. */
  lemma PairsSettleGroup(t: Tables, g: seq<Entity>, id: string)
    requires g != [] && forall f :: f in g ==> NamesSettle(t, PairNames(t, g[0], f), id)
    ensures NamesSettle(t, GroupNames(t, g), id)
  {
    var names := GroupNames(t, g);
    forall f, m | f in g && m in PairNames(t, g[0], f)
      ensures m in names
    {
      PairWithinGroup(t, g, f, m);
    }
    forall n | Leads(t, names, n)
      ensures Hit(t, n) == id
    {
      var f := NameOfPair(t, g, n);
      assert Leads(t, PairNames(t, g[0], f), n);
    }
    assert g[0] in g;
  }

  /** Any two entities of the pool that share an id settle on it. */
  ghost predicate PairsSettle(t: Tables, pool: iset<Entity>) {
    forall e, f :: e in pool && f in pool && CanonicalId(t, e) == CanonicalId(t, f) ==>
      NamesSettle(t, PairNames(t, e, f), CanonicalId(t, e))
  }

  lemma DedupKeepsSketches(t: Tables, es: seq<Entity>, pool: iset<Entity>)
    requires PairsSettle(t, pool) && forall e :: e in es ==> e in pool
    ensures Keys(t, Dedup(t, es)) == Sketches(Dedup(t, es))
  {
    var ids, rs := FirstSeen(IdsOf(t, es)), Dedup(t, es);
    forall i | 0 <= i < |rs|
      ensures KeyOf(t, rs[i]) == SketchOf(rs[i])
    {
      var g := Group(t, es, ids[i]);
      assert ids[i] in ids;
      GroupMembers(t, es, ids[i]);
      assert g[0] in g;
      PairsSettleGroup(t, g, ids[i]);
      GroupResolves(t, g, ids[i]);
      RecordDisplay(t, g, ids[i]);
    }
  }

  // ---------------------------------------------------------------- two levels against one

  function DedupEach(t: Tables, chunks: seq<seq<Entity>>): (r: seq<seq<Entity>>)
    ensures |r| == |chunks|
  {
    seq(|chunks|, i requires 0 <= i < |chunks| => Dedup(t, chunks[i]))
  }

  lemma KeysAppend(t: Tables, xs: seq<Entity>, ys: seq<Entity>)
    ensures Keys(t, xs + ys) == Keys(t, xs) + Keys(t, ys)
  {
  }

  lemma FlattenDedup(t: Tables, chunks: seq<seq<Entity>>)
    requires chunks != []
    ensures Flatten(chunks) == Flatten(Init(chunks)) + Last(chunks)
    ensures Flatten(DedupEach(t, chunks)) == Flatten(DedupEach(t, Init(chunks))) + Dedup(t, Last(chunks))
  {
    assert Init(DedupEach(t, chunks)) == DedupEach(t, Init(chunks));
    assert Last(DedupEach(t, chunks)) == Dedup(t, Last(chunks));
  }

  ghost predicate DrawnFrom(chunks: seq<seq<Entity>>, pool: iset<Entity>) {
    forall c, e :: c in chunks && e in c ==> e in pool
  }

  lemma {:induction false} ChunkwiseAlike(t: Tables, chunks: seq<seq<Entity>>, pool: iset<Entity>)
    requires PairsSettle(t, pool) && DrawnFrom(chunks, pool)
    ensures Alike(Keys(t, Flatten(DedupEach(t, chunks))), Keys(t, Flatten(chunks)))
  {
    if chunks != [] {
      var front, last := Init(chunks), Last(chunks);
      assert last in chunks;
      ChunkwiseAlike(t, front, pool);
      DedupKeepsSketches(t, last, pool);
      DedupAlike(t, last);
      var a, b := Flatten(front), Flatten(DedupEach(t, front));
      FlattenDedup(t, chunks);
      KeysAppend(t, a, last);
      KeysAppend(t, b, Dedup(t, last));
      AlikeAppend(Keys(t, b), Keys(t, a), Keys(t, Dedup(t, last)), Keys(t, last));
    }
  }

  /** Deduplicating every chunk and then the whole gives the ids, display names and confidences
      of deduplicating the whole once, in the same order. */
  ghost predicate LevelsAgree(t: Tables, chunks: seq<seq<Entity>>) {
    Sketches(Dedup(t, Flatten(DedupEach(t, chunks)))) == Sketches(Dedup(t, Flatten(chunks)))
  }

  lemma SettledLevelsAgree(t: Tables, chunks: seq<seq<Entity>>, pool: iset<Entity>)
    requires PairsSettle(t, pool) && DrawnFrom(chunks, pool)
    ensures LevelsAgree(t, chunks)
  {
    var one, two := Flatten(chunks), Flatten(DedupEach(t, chunks));
    ChunkwiseAlike(t, chunks, pool);
    DedupAlike(t, one);
    DedupAlike(t, two);
    DedupIdsDistinct(t, one);
    DedupIdsDistinct(t, two);
    AlikeDistinct(Sketches(Dedup(t, two)), Sketches(Dedup(t, one)));
  }

  /** Two levels agree with one on all chunks drawn from a pool exactly when any two of its entities that share an id
      settle on it: the least of their names that hits leads to that id, and if none hits, neither does
      the canonical display name lead elsewhere. */
  lemma LevelsAgreeIff(t: Tables, pool: iset<Entity>)
    ensures (forall chunks :: DrawnFrom(chunks, pool) ==> LevelsAgree(t, chunks)) <==> PairsSettle(t, pool)
  {
    if PairsSettle(t, pool) {
      forall chunks | DrawnFrom(chunks, pool)
        ensures LevelsAgree(t, chunks)
      {
        SettledLevelsAgree(t, chunks, pool);
      }
    }
    if forall chunks :: DrawnFrom(chunks, pool) ==> LevelsAgree(t, chunks) {
      forall e, f | e in pool && f in pool && CanonicalId(t, e) == CanonicalId(t, f)
        ensures NamesSettle(t, PairNames(t, e, f), CanonicalId(t, e))
      {
        assert DrawnFrom([[e, f]], pool);
        assert LevelsAgree(t, [[e, f]]);
        OneChunk(t, [e, f]);
        PairAgrees(t, e, f);
      }
    }
  }

  lemma OneChunk(t: Tables, es: seq<Entity>)
    ensures LevelsAgree(t, [es]) <==> Sketches(Dedup(t, Dedup(t, es))) == Sketches(Dedup(t, es))
  {
    FlattenOne(es);
    FlattenOne(Dedup(t, es));
    assert DedupEach(t, [es]) == [Dedup(t, es)];
  }

  lemma PairAgrees(t: Tables, e: Entity, f: Entity)
    requires CanonicalId(t, e) == CanonicalId(t, f)
    ensures Sketches(Dedup(t, Dedup(t, [e, f]))) == Sketches(Dedup(t, [e, f])) ==> NamesSettle(t, PairNames(t, e, f), CanonicalId(t, e))
  {
    var r := Record(t, [e, f]);
    DedupOfGroup(t, [e, f], CanonicalId(t, e));
    DedupOfGroup(t, [r], CanonicalId(t, r));
    RecordDisplay(t, [e, f], CanonicalId(t, e));
    PairIsGroup(t, e, f);
    GroupResolves(t, [e, f], CanonicalId(t, e));
    if Sketches(Dedup(t, [r])) == Sketches([r]) {
      assert Sketches([Fresh(t, r)])[0] == Sketches([r])[0];
    }
  }

  /** Entities of one id deduplicate to their record. */
  lemma DedupOfGroup(t: Tables, g: seq<Entity>, id: string)
    requires g != [] && forall e :: e in g ==> CanonicalId(t, e) == id
    ensures Dedup(t, g) == [Record(t, g)]
  {
    GroupOfOneId(t, g, id);
    OneIdSeen(IdsOf(t, g), id);
  }

  lemma {:induction false} GroupOfOneId(t: Tables, g: seq<Entity>, id: string)
    requires forall e :: e in g ==> CanonicalId(t, e) == id
    ensures Group(t, g, id) == g
  {
    if g != [] {
      assert g == Init(g) + [Last(g)];
      GroupOfOneId(t, Init(g), id);
    }
  }

  lemma {:induction false} OneIdSeen(ids: seq<string>, id: string)
    requires ids != [] && forall x :: x in ids ==> x == id
    ensures FirstSeen(ids) == [id]
  {
    assert Last(ids) in ids && forall x :: x in Init(ids) ==> x in ids;
    if |ids| > 1 {
      OneIdSeen(Init(ids), id);
      assert Init(ids)[0] == ids[0];
    } else {
      assert Init(ids) == [];
    }
  }

  // ---------------------------------------------------------------- coherence

  ghost predicate AllAgree(t: Tables, names: seq<string>, id: string) {
    forall n :: n in names ==> Agrees(t, n, id)
  }

  /** No two names of the entity hit different ids. */
  ghost predicate Coherent(t: Tables, e: Entity) {
    forall m, n :: m in Names(t, e) && n in Names(t, e) && Hits(t, m) && Hits(t, n) ==> Hit(t, m) == Hit(t, n)
  }

  /** The canonical display name of an id does not hit another id. */
  ghost predicate TablesCoherent(t: Tables) {
    forall id :: id in t.displays ==> Agrees(t, t.displays[id], id)
  }

  lemma CoherentNamesAgree(t: Tables, e: Entity)
    requires Coherent(t, e)
    ensures AllAgree(t, Names(t, e), CanonicalId(t, e))
  {
    var id := CanonicalId(t, e);
    forall n | n in Names(t, e) && Hits(t, n)
      ensures Hit(t, n) == id
    {
      if FirstHit(t, e.aliases).Some? {
        var m :| m in e.aliases && Hits(t, m) && Hit(t, m) == id;
        assert m in Names(t, e);
      } else if Hits(t, e.displayName) {
        assert e.displayName in Names(t, e);
      }
    }
  }

  /** A record whose names all agree with its id, and whose display name is canonical. */
  ghost predicate Settled(t: Tables, r: Entity) {
    && AllAgree(t, r.aliases, r.id) && Agrees(t, r.displayName, r.id)
    && DisplayFor(t, r.id, r.displayName) == r.displayName
  }

  lemma SettledKeepsId(t: Tables, r: Entity)
    requires Settled(t, r)
    ensures CanonicalId(t, r) == r.id
  {
  }

  lemma FreshSettled(t: Tables, e: Entity)
    requires TablesCoherent(t) && Coherent(t, e)
    ensures Settled(t, Fresh(t, e)) && Fresh(t, e).id == CanonicalId(t, e)
  {
    CoherentNamesAgree(t, e);
    SortedSetElements(Names(t, e));
    assert e.displayName in Names(t, e);
  }

  /** The record of a group of coherent entities is settled under the group's id. */
  lemma {:induction false} RecordSettled(t: Tables, g: seq<Entity>, id: string)
    requires TablesCoherent(t) && g != []
    requires forall e :: e in g ==> Coherent(t, e) && CanonicalId(t, e) == id
    ensures Settled(t, Record(t, g)) && Record(t, g).id == id
    ensures Record(t, g).displayName == DisplayFor(t, id, g[0].displayName)
  {
    if |g| == 1 {
      FreshSettled(t, g[0]);
    } else {
      var r, e := Record(t, Init(g)), Last(g);
      RecordSettled(t, Init(g), id);
      assert e in g;
      CoherentNamesAgree(t, e);
      var names := r.aliases + e.aliases + [e.displayName];
      SortedSetElements(names);
      assert forall n :: n in names ==> n in r.aliases || n in Names(t, e);
    }
  }

  /** The records of coherent entities are settled. */
  lemma DedupSettled(t: Tables, es: seq<Entity>)
    requires TablesCoherent(t) && forall e :: e in es ==> Coherent(t, e)
    ensures forall r :: r in Dedup(t, es) ==> Settled(t, r)
  {
    var ids, rs := FirstSeen(IdsOf(t, es)), Dedup(t, es);
    forall i | 0 <= i < |rs|
      ensures Settled(t, rs[i])
    {
      assert ids[i] in ids;
      GroupMembers(t, es, ids[i]);
      RecordSettled(t, Group(t, es, ids[i]), ids[i]);
    }
  }

  /** Coherent entities settle, so two levels agree on them. */
  lemma ChunkwiseIsGlobal(t: Tables, chunks: seq<seq<Entity>>)
    requires TablesCoherent(t) && forall c, e :: c in chunks && e in c ==> Coherent(t, e)
    ensures LevelsAgree(t, chunks)
  {
    var pool := iset e | Coherent(t, e);
    forall e, f | e in pool && f in pool && CanonicalId(t, e) == CanonicalId(t, f)
      ensures NamesSettle(t, PairNames(t, e, f), CanonicalId(t, e))
    {
      CoherentNamesAgree(t, e);
      CoherentNamesAgree(t, f);
    }
    SettledLevelsAgree(t, chunks, pool);
  }

  // ---------------------------------------------------------------- the third pass

  /** Deduplicating settled records with distinct ids gives each record on its own. */
  lemma SettledAlone(t: Tables, rs: seq<Entity>, i: nat)
    requires Distinct(SketchIds(Sketches(rs))) && forall r :: r in rs ==> Settled(t, r)
    requires i < |rs|
    ensures |Dedup(t, rs)| == |rs| && Dedup(t, rs)[i] == Fresh(t, rs[i])
  {
    var own := SketchIds(Sketches(rs));
    forall j | 0 <= j < |rs|
      ensures IdsOf(t, rs)[j] == own[j]
    {
      assert rs[j] in rs;
      SettledKeepsId(t, rs[j]);
    }
    assert IdsOf(t, rs) == own;
    FirstSeenOfDistinct(own);
    GroupAlone(t, rs, i);
  }

  lemma {:induction false} GroupAlone(t: Tables, rs: seq<Entity>, i: nat)
    requires Distinct(IdsOf(t, rs)) && i < |rs|
    ensures Group(t, rs, CanonicalId(t, rs[i])) == [rs[i]]
  {
    var front, last, id := Init(rs), Last(rs), CanonicalId(t, rs[i]);
    assert IdsOf(t, rs) == IdsOf(t, front) + [CanonicalId(t, last)];
    DistinctSnoc(IdsOf(t, front), CanonicalId(t, last));
    assert rs == front + [last];
    GroupStep(t, front, last, id);
    if i < |front| {
      GroupAlone(t, front, i);
      assert IdsOf(t, front)[i] == id;
    } else {
      GroupMembers(t, front, id);
    }
  }

  /** After two passes over coherent entities nothing changes any more, aliases and properties included. */
  lemma ThirdPassChangesNothing(t: Tables, es: seq<Entity>)
    requires TablesCoherent(t) && forall e :: e in es ==> Coherent(t, e)
    ensures var twice := Dedup(t, Dedup(t, es)); Dedup(t, twice) == twice
  {
    var once := Dedup(t, es);
    var twice := Dedup(t, once);
    DedupSettled(t, es);
    DedupIdsDistinct(t, es);
    DedupIdsDistinct(t, once);
    forall i | 0 <= i < |twice|
      ensures |once| == |twice| && Settled(t, twice[i]) && Fresh(t, twice[i]) == twice[i]
    {
      assert |once| > 0 by { assert |FirstSeen(IdsOf(t, once))| <= |once|; }
      SettledAlone(t, once, 0);
      SettledAlone(t, once, i);
      assert once[i] in once;
      FreshIsStable(t, once[i]);
    }
    forall i | 0 <= i < |twice|
      ensures |Dedup(t, twice)| == |twice| && Dedup(t, twice)[i] == twice[i]
    {
      SettledAlone(t, twice, i);
    }
    if twice == [] {
      assert Dedup(t, twice) == [];
    }
  }

  lemma FreshIsStable(t: Tables, r: Entity)
    requires Settled(t, r)
    ensures Settled(t, Fresh(t, r)) && Fresh(t, Fresh(t, r)) == Fresh(t, r)
  {
    SettledKeepsId(t, r);
    var s := Fresh(t, r);
    assert Names(t, r) == r.aliases + [r.displayName];
    SortedSetElements(Names(t, r));
    SettledKeepsId(t, s);
    assert Names(t, s) == s.aliases + [s.displayName];
    SortedSetAbsorbs(Names(t, r), s.displayName);
  }

  // ---------------------------------------------------------------- where two levels differ

  /** An entity known by one name under the id of another. */
  function Clash(t: Tables, displayName: string, alias: string): Entity
    requires Hits(t, alias)
  {
    Entity(Hit(t, alias), displayName, 0.0, [alias], map[])
  }

  /** Two names that hit different ids: the alias decides the first pass, but the first of the sorted aliases
      the second, so the entity changes its id. */
  lemma ClashChangesId(t: Tables, m: string, n: string)
    requires Hits(t, m) && Hits(t, n) && Hit(t, m) != Hit(t, n) && StringLe(m, n)
    ensures var once := Dedup(t, [Clash(t, m, n)]);
            && once == [Fresh(t, Clash(t, m, n))] && once[0].id == Hit(t, n)
            && Dedup(t, once) == [Fresh(t, once[0])] && Dedup(t, once)[0].id == Hit(t, m)
  {
    var e := Clash(t, m, n);
    assert FirstHit(t, [n]) == Some(Hit(t, n));
    assert Names(t, e) == [n, m];
    SortTwo(m, n);
    var r := Fresh(t, e);
    assert r.aliases == [m, n];
    assert FirstHit(t, [m, n]) == Some(Hit(t, m));
    DedupOfGroup(t, [e], CanonicalId(t, e));
    DedupOfGroup(t, [r], CanonicalId(t, r));
  }

  /** Agreement of the name and the aliases alone is not enough: a replaced id becomes an alias,
      and if it hits another id and sorts first, the second pass follows it. */
  lemma ReplacedIdClash(t: Tables, e: Entity)
    requires e.aliases == [] && Hits(t, e.displayName) && Hits(t, e.id)
    requires Hit(t, e.displayName) != Hit(t, e.id) && Hit(t, e.displayName) != e.id && StringLe(e.id, e.displayName)
    ensures var once := Dedup(t, [e]);
            && once == [Fresh(t, e)] && once[0].id == Hit(t, e.displayName)
            && Dedup(t, once) == [Fresh(t, once[0])] && Dedup(t, once)[0].id == Hit(t, e.id)
  {
    assert Names(t, e) == [e.displayName, e.id];
    SortTwo(e.id, e.displayName);
    var r := Fresh(t, e);
    assert r.aliases == [e.id, e.displayName];
    DedupOfGroup(t, [e], CanonicalId(t, e));
    DedupOfGroup(t, [r], CanonicalId(t, r));
  }

  lemma SortTwo(m: string, n: string)
    requires StringLe(m, n) && m != n
    ensures SortedSet([n, m]) == [m, n]
  {
    var le, names := StringOrder(), [n, m];
    FirstSeenOfDistinct(names);
    assert names[1..] == [m] && [m][1..] == [];
    assert Sort(le, [m]) == [m] by { assert Insert(le, m, []) == [m]; }
    if StringLe(n, m) {
      StringLeAntisymmetric(m, n);
    }
    assert Insert(le, n, [m]) == [m] + Insert(le, n, []);
    assert Sort(le, names) == Insert(le, n, Sort(le, [m]));
  }

  /** Every name in the alias map leads to one id. */
  ghost predicate OneTarget(t: Tables) {
    forall m, n :: Hits(t, m) && Hits(t, n) ==> Hit(t, m) == Hit(t, n)
  }

  /** Two levels agree with one on every input exactly for tables whose names all lead to one id. */
  lemma LevelsAlwaysAgreeIff(t: Tables)
    requires TablesCoherent(t)
    ensures (forall chunks :: LevelsAgree(t, chunks)) <==> OneTarget(t)
  {
    if OneTarget(t) {
      forall chunks
        ensures LevelsAgree(t, chunks)
      {
        ChunkwiseIsGlobal(t, chunks);
      }
    } else {
      var m, n :| Hits(t, m) && Hits(t, n) && Hit(t, m) != Hit(t, n);
      StringLeTotal(m, n);
      var x, y := if StringLe(m, n) then m else n, if StringLe(m, n) then n else m;
      ClashChangesId(t, x, y);
      var e := Clash(t, x, y);
      var once := Dedup(t, [e]);
      OneChunk(t, [e]);
      assert Sketches(Dedup(t, once))[0].id != Sketches(once)[0].id;
      assert !LevelsAgree(t, [[e]]);
    }
  }
  // ---------------------------------------------------------------- no name is lost

  /** Nor is one lost by deduplicating the chunks first. */
  lemma NoNameLostChunkwise(t: Tables, chunks: seq<seq<Entity>>, c: nat, e: Entity, n: string) returns (r: Entity)
    requires c < |chunks| && e in chunks[c] && (n in e.aliases || n == e.displayName)
    ensures r in Dedup(t, Flatten(DedupEach(t, chunks))) && n in r.aliases
  {
    var first := NoNameLost(t, chunks[c], e, n);
    InFlatten(DedupEach(t, chunks), c, first);
    r := NoNameLost(t, Flatten(DedupEach(t, chunks)), first, n);
  }

  lemma {:induction false} InFlatten<T>(xss: seq<seq<T>>, i: nat, x: T)
    requires i < |xss| && x in xss[i]
    ensures x in Flatten(xss)
  {
    if i < |xss| - 1 {
      InFlatten(Init(xss), i, x);
    }
  }
}
