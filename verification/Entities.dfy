/** Entity deduplication of `app/ingestion/entity_resolver.py` and the aggregation pass of `app/ingestion/pipeline.py`.
    It runs once per chunk and again over all chunks; `ChunkwiseIsGlobal` says when that equals running it once. */
module Entities {
  import opened Lists
  import opened Sorting

  // ---------------------------------------------------------------- values

  datatype Property = Null | Text(s: string) | Number(r: real) | Items(xs: seq<string>) | Nested(keys: seq<string>)

  predicate IsBlank(v: Property) {
    v == Null || v == Text("") || v == Items([]) || v == Nested([])
  }

  type Properties = map<string, Property>

  datatype Entity = Entity(id: string, displayName: string, confidence: real, aliases: seq<string>, properties: Properties)

  /** The alias map, the display names of canonical ids and the normalisation of surface forms. */
  datatype Tables = Tables(aliases: map<string, string>, displays: map<string, string>, normalize: string -> string)

  // ---------------------------------------------------------------- sorted alias sets

  predicate StringLe(a: string, b: string) {
    a == "" || (b != "" && (a[0] < b[0] || (a[0] == b[0] && StringLe(a[1..], b[1..]))))
  }

  lemma {:induction false} StringLeTotal(a: string, b: string)
    ensures StringLe(a, b) || StringLe(b, a)
  {
    if a != "" && b != "" {
      StringLeTotal(a[1..], b[1..]);
    }
  }

  lemma {:induction false} StringLeTransitive(a: string, b: string, c: string)
    requires StringLe(a, b) && StringLe(b, c)
    ensures StringLe(a, c)
  {
    if a != "" && b != "" && c != "" && a[0] == b[0] == c[0] {
      StringLeTransitive(a[1..], b[1..], c[1..]);
    }
  }

  lemma {:induction false} StringLeAntisymmetric(a: string, b: string)
    requires StringLe(a, b) && StringLe(b, a)
    ensures a == b
  {
    if a != "" {
      StringLeAntisymmetric(a[1..], b[1..]);
      assert a == [a[0]] + a[1..] && b == [b[0]] + b[1..];
    }
  }

  function StringOrder(): (string, string) -> bool {
    (a, b) => StringLe(a, b)
  }

  lemma StringOrderTotal()
    ensures TotalPreorder(StringOrder())
  {
    forall a, b
      ensures StringLe(a, b) || StringLe(b, a)
    {
      StringLeTotal(a, b);
    }
    forall a, b, c | StringLe(a, b) && StringLe(b, c)
      ensures StringLe(a, c)
    {
      StringLeTransitive(a, b, c);
    }
  }

  /** `sorted(set(names))`. */
  function SortedSet(names: seq<string>): seq<string> {
    Sort(StringOrder(), FirstSeen(names))
  }

  lemma SortedSetElements(names: seq<string>)
    ensures forall n :: n in SortedSet(names) <==> n in names
  {
    SortPermutes(StringOrder(), FirstSeen(names));
  }

  /** Adding what is there already changes nothing. */
  lemma SortedSetAbsorbs(names: seq<string>, n: string)
    requires n in SortedSet(names)
    ensures SortedSet(SortedSet(names) + [n]) == SortedSet(names)
  {
    var le, sorted := StringOrder(), SortedSet(names);
    StringOrderTotal();
    SortSorted(le, FirstSeen(names));
    FirstSeenDistinct(names);
    SortDistinct(le, FirstSeen(names));
    FirstSeenSnoc(sorted, n);
    FirstSeenOfDistinct(sorted);
    SortOfSorted(le, sorted);
  }

  // ---------------------------------------------------------------- resolving and merging

  predicate Hits(t: Tables, name: string) {
    t.normalize(name) in t.aliases
  }

  function Hit(t: Tables, name: string): string
    requires Hits(t, name)
  {
    t.aliases[t.normalize(name)]
  }

  function FirstHit(t: Tables, names: seq<string>): (r: Option<string>)
    ensures r == None <==> forall n :: n in names ==> !Hits(t, n)
    ensures r.Some? ==> exists n :: n in names && Hits(t, n) && Hit(t, n) == r.value
  {
    if names == [] then None
    else if Hits(t, names[0]) then Some(Hit(t, names[0]))
    else FirstHit(t, names[1..])
  }

  /** The first alias in the table decides, then the display name, then the entity's own id. */
  function CanonicalId(t: Tables, e: Entity): string {
    match FirstHit(t, e.aliases)
    case Some(id) => id
    case None => if Hits(t, e.displayName) then Hit(t, e.displayName) else e.id
  }

  function DisplayFor(t: Tables, id: string, displayName: string): string {
    if id in t.displays then t.displays[id] else displayName
  }

  /** The names a first occurrence stores as aliases. */
  function Names(t: Tables, e: Entity): seq<string> {
    e.aliases + [e.displayName] + if e.id != CanonicalId(t, e) then [e.id] else []
  }

  /** The record of a first occurrence. */
  function Fresh(t: Tables, e: Entity): Entity {
    var id := CanonicalId(t, e);
    Entity(id, DisplayFor(t, id, e.displayName), e.confidence, SortedSet(Names(t, e)), e.properties)
  }

  /** Missing keys are added, and blank values replaced. */
  function FillBlanks(p: Properties, q: Properties): Properties {
    map k | k in p.Keys + q.Keys :: if k in p && !(k in q && IsBlank(p[k])) then p[k] else q[k]
  }

  /** Merge a later occurrence into a record. */
  function Absorb(r: Entity, e: Entity): Entity {
    var better := e.confidence > r.confidence;
    r.(aliases := SortedSet(r.aliases + e.aliases + [e.displayName]),
       confidence := if better then e.confidence else r.confidence,
       properties := e.properties + if better then FillBlanks(r.properties, e.properties) else r.properties)
  }

  /** The record of all occurrences of one id, in order. */
  function Record(t: Tables, group: seq<Entity>): Entity
    requires group != []
  {
    if |group| == 1 then Fresh(t, group[0]) else Absorb(Record(t, Init(group)), Last(group))
  }

  function IdsOf(t: Tables, es: seq<Entity>): (r: seq<string>)
    ensures |r| == |es|
  {
    seq(|es|, i requires 0 <= i < |es| => CanonicalId(t, es[i]))
  }

  /** The occurrences of one id, in order. */
  function Group(t: Tables, es: seq<Entity>, id: string): seq<Entity> {
    if es == [] then []
    else Group(t, Init(es), id) + if CanonicalId(t, Last(es)) == id then [Last(es)] else []
  }

  lemma {:induction false} GroupMembers(t: Tables, es: seq<Entity>, id: string)
    ensures forall e :: e in Group(t, es, id) <==> e in es && CanonicalId(t, e) == id
    ensures Group(t, es, id) != [] <==> id in IdsOf(t, es)
  {
    if es != [] {
      GroupMembers(t, Init(es), id);
      assert es == Init(es) + [Last(es)];
      assert IdsOf(t, es) == IdsOf(t, Init(es)) + [CanonicalId(t, Last(es))];
    }
  }

  /** One record per id, in order of first appearance. */
  function Dedup(t: Tables, es: seq<Entity>): (r: seq<Entity>)
    ensures |r| == |FirstSeen(IdsOf(t, es))|
  {
    var ids := FirstSeen(IdsOf(t, es));
    seq(|ids|, i requires 0 <= i < |ids| => GroupMembers(t, es, ids[i]); assert ids[i] in ids; Record(t, Group(t, es, ids[i])))
  }

  // ---------------------------------------------------------------- the loop

  /** Scan the aliases for the first one in the table. */
  method ResolveId(t: Tables, e: Entity) returns (id: string)
    ensures id == CanonicalId(t, e)
  {
    id := if Hits(t, e.displayName) then Hit(t, e.displayName) else e.id;
    for i := 0 to |e.aliases|
      invariant FirstHit(t, e.aliases) == FirstHit(t, e.aliases[i..])
    {
      if Hits(t, e.aliases[i]) {
        id := Hit(t, e.aliases[i]);
        return;
      }
    }
  }

  /** The dictionary of merged records, with its key order. */
  ghost predicate MergedTable(t: Tables, es: seq<Entity>, order: seq<string>, merged: map<string, Entity>) {
    KeysMatch(IdsOf(t, es), order, merged) && RecordsMatch(t, es, merged)
  }

  ghost predicate KeysMatch(ids: seq<string>, order: seq<string>, merged: map<string, Entity>) {
    order == FirstSeen(ids) && forall id :: id in merged <==> id in ids
  }

  ghost predicate RecordsMatch(t: Tables, es: seq<Entity>, merged: map<string, Entity>) {
    forall id :: id in merged ==> Group(t, es, id) != [] && merged[id] == Record(t, Group(t, es, id))
  }

  lemma GroupStep(t: Tables, es: seq<Entity>, e: Entity, id: string)
    ensures Group(t, es + [e], id) == if CanonicalId(t, e) == id then Group(t, es, id) + [e] else Group(t, es, id)
  {
    assert Init(es + [e]) == es && Last(es + [e]) == e;
  }

  lemma RecordStep(t: Tables, g: seq<Entity>, e: Entity)
    ensures Record(t, g + [e]) == if g == [] then Fresh(t, e) else Absorb(Record(t, g), e)
  {
    assert Init(g + [e]) == g && Last(g + [e]) == e;
  }

  lemma MergeStep(t: Tables, es: seq<Entity>, order: seq<string>, merged: map<string, Entity>, e: Entity, id: string)
    requires MergedTable(t, es, order, merged) && id == CanonicalId(t, e)
    ensures MergedTable(t, es + [e], if id in merged then order else order + [id],
                        merged[id := if id in merged then Absorb(merged[id], e) else Fresh(t, e)])
  {
    assert IdsOf(t, es + [e]) == IdsOf(t, es) + [id];
    FirstSeenSnoc(IdsOf(t, es), id);
    RecordsStep(t, es, merged, e, id);
  }

  lemma RecordsStep(t: Tables, es: seq<Entity>, merged: map<string, Entity>, e: Entity, id: string)
    requires RecordsMatch(t, es, merged) && id == CanonicalId(t, e) && (id in merged <==> id in IdsOf(t, es))
    ensures RecordsMatch(t, es + [e], merged[id := if id in merged then Absorb(merged[id], e) else Fresh(t, e)])
  {
    var merged' := merged[id := if id in merged then Absorb(merged[id], e) else Fresh(t, e)];
    forall k | k in merged'
      ensures Group(t, es + [e], k) != [] && merged'[k] == Record(t, Group(t, es + [e], k))
    {
      RecordAfter(t, es, e, k);
      assert k != id ==> k in merged;
    }
  }

  /** How one more entity changes the record of an id. */
  lemma RecordAfter(t: Tables, es: seq<Entity>, e: Entity, k: string)
    ensures CanonicalId(t, e) != k ==> Group(t, es + [e], k) == Group(t, es, k)
    ensures CanonicalId(t, e) == k ==>
              && Group(t, es + [e], k) != []
              && (k !in IdsOf(t, es) ==> Record(t, Group(t, es + [e], k)) == Fresh(t, e))
              && (k in IdsOf(t, es) ==> Group(t, es, k) != []
                                        && Record(t, Group(t, es + [e], k)) == Absorb(Record(t, Group(t, es, k)), e))
  {
    GroupStep(t, es, e, k);
    GroupMembers(t, es, k);
    RecordStep(t, Group(t, es, k), e);
  }

  method DeduplicateEntities(t: Tables, es: seq<Entity>) returns (result: seq<Entity>)
    ensures result == Dedup(t, es)
  {
    var order, merged := MergeAll(t, es);
    result := Values(order, merged);
    RecordsInOrder(t, es, order, merged, result);
  }

  /** `list(merged.values())`. */
  method Values(order: seq<string>, merged: map<string, Entity>) returns (result: seq<Entity>)
    requires forall id :: id in order ==> id in merged
    ensures |result| == |order| && forall j :: 0 <= j < |order| ==> order[j] in merged && result[j] == merged[order[j]]
  {
    result := [];
    for i := 0 to |order|
      invariant |result| == i
      invariant forall j :: 0 <= j < i ==> order[j] in merged && result[j] == merged[order[j]]
    {
      assert order[i] in order;
      result := result + [merged[order[i]]];
    }
  }

  lemma RecordsInOrder(t: Tables, es: seq<Entity>, order: seq<string>, merged: map<string, Entity>, result: seq<Entity>)
    requires MergedTable(t, es, order, merged) && |result| == |order|
    requires forall j :: 0 <= j < |order| ==> order[j] in merged && result[j] == merged[order[j]]
    ensures result == Dedup(t, es)
  {
  }

  method MergeAll(t: Tables, es: seq<Entity>) returns (order: seq<string>, merged: map<string, Entity>)
    ensures MergedTable(t, es, order, merged)
  {
    order, merged := [], map[];
    for i := 0 to |es|
      invariant MergedTable(t, es[..i], order, merged)
    {
      PrefixStep(es, i);
      var e := es[i];
      var id := ResolveId(t, e);
      MergeStep(t, es[..i], order, merged, e, id);
      if id !in merged {
        order := order + [id];
        merged := merged[id := Fresh(t, e)];
      } else {
        merged := merged[id := Absorb(merged[id], e)];
      }
    }
    assert es[..|es|] == es;
  }
}
