/** What becomes of the properties of merged entities: the first occurrence wins, unless a blank value gives way. */
module PropertyMerging {
  import opened Lists
  import opened Entities
  import opened EntityProperties
  import opened EntityLevels

  function PropertyOf(p: Properties, k: string): Option<Property> {
    if k in p then Some(p[k]) else None
  }

  /** The value of the first entity that has the key. */
  function FirstValue(es: seq<Entity>, k: string): Option<Property> {
    if es == [] then None
    else if FirstValue(Init(es), k).Some? then FirstValue(Init(es), k)
    else PropertyOf(Last(es).properties, k)
  }

  /** If the first of two values is blank and the second more confident, they are equal. */
  predicate BlankStays(e: Entity, f: Entity, k: string) {
    k in e.properties && k in f.properties && IsBlank(e.properties[k]) && f.confidence > e.confidence ==>
      f.properties[k] == e.properties[k]
  }

  /** No blank value gives way to another of a more confident entity with the same id. */
  ghost predicate BlanksStay(t: Tables, pool: iset<Entity>) {
    forall e, f, k :: e in pool && f in pool && CanonicalId(t, e) == CanonicalId(t, f) ==> BlankStays(e, f, k)
  }

  /** The first occurrence wins. */
  ghost predicate FirstWins(t: Tables, g: seq<Entity>, k: string)
    requires g != []
  {
    PropertyOf(Record(t, g).properties, k) == FirstValue(g, k)
  }

  ghost predicate GroupOf(t: Tables, g: seq<Entity>, pool: iset<Entity>) {
    g != [] && forall e :: e in g ==> e in pool && CanonicalId(t, e) == CanonicalId(t, g[0])
  }

  /** The value of a key in a record is that of some entity no more confident than the record. */
  ghost predicate ValueFrom(r: Entity, g: seq<Entity>, k: string) {
    k in r.properties ==>
      exists e :: e in g && k in e.properties && e.properties[k] == r.properties[k] && e.confidence <= r.confidence
  }

  lemma {:induction false} RecordFirstWins(t: Tables, g: seq<Entity>, pool: iset<Entity>, k: string)
    requires BlanksStay(t, pool) && GroupOf(t, g, pool)
    ensures FirstWins(t, g, k)
    ensures ValueFrom(Record(t, g), g, k)
  {
    var front, last := Init(g), Last(g);
    assert last in g && g[0] in g;
    if front == [] {
      assert FirstValue(front, k) == None;
    } else {
      assert forall e :: e in front ==> e in g;
      RecordFirstWins(t, front, pool, k);
      AbsorbFirstWins(t, front, pool, Record(t, front), last, k);
    }
  }

  /** Which value of a key a merge keeps. */
  lemma AbsorbedValue(r: Entity, e: Entity, k: string)
    requires k in r.properties && k in e.properties
    ensures k in Absorb(r, e).properties
    ensures Absorb(r, e).properties[k] ==
            if e.confidence > r.confidence && IsBlank(r.properties[k]) then e.properties[k] else r.properties[k]
    ensures Absorb(r, e).confidence == if e.confidence > r.confidence then e.confidence else r.confidence
  {
  }

  lemma AbsorbedConfidence(r: Entity, e: Entity, k: string)
    ensures r.confidence <= Absorb(r, e).confidence && e.confidence <= Absorb(r, e).confidence
    ensures k !in r.properties ==> PropertyOf(Absorb(r, e).properties, k) == PropertyOf(e.properties, k)
    ensures k !in e.properties ==> PropertyOf(Absorb(r, e).properties, k) == PropertyOf(r.properties, k)
  {
  }

  lemma AbsorbFirstWins(t: Tables, g: seq<Entity>, pool: iset<Entity>, r: Entity, e: Entity, k: string)
    requires BlanksStay(t, pool) && GroupOf(t, g, pool) && e in pool && CanonicalId(t, e) == CanonicalId(t, g[0])
    requires ValueFrom(r, g, k)
    ensures PropertyOf(Absorb(r, e).properties, k) == if k in r.properties then Some(r.properties[k]) else PropertyOf(e.properties, k)
    ensures ValueFrom(Absorb(r, e), g + [e], k)
  {
    AbsorbedConfidence(r, e, k);
    assert e in g + [e];
    if k in r.properties {
      var f :| f in g && k in f.properties && f.properties[k] == r.properties[k] && f.confidence <= r.confidence;
      assert BlankStays(f, e, k) && f in g + [e];
      if k in e.properties {
        AbsorbedValue(r, e, k);
      }
    }
  }

  /** Merging is first-wins, as documented, for all groups drawn from a pool exactly when blank values stay. */
  lemma FirstWinsIff(t: Tables, pool: iset<Entity>)
    ensures (forall g, k :: GroupOf(t, g, pool) ==> FirstWins(t, g, k)) <==> BlanksStay(t, pool)
  {
    if BlanksStay(t, pool) {
      forall g, k | GroupOf(t, g, pool)
        ensures FirstWins(t, g, k)
      {
        RecordFirstWins(t, g, pool, k);
      }
    }
    if forall g, k :: GroupOf(t, g, pool) ==> FirstWins(t, g, k) {
      forall e, f, k | e in pool && f in pool && CanonicalId(t, e) == CanonicalId(t, f)
        ensures BlankStays(e, f, k)
      {
        assert GroupOf(t, [e, f], pool);
        assert FirstWins(t, [e, f], k);
        PairValues(t, e, f, k);
      }
    }
  }

  lemma PairValues(t: Tables, e: Entity, f: Entity, k: string)
    requires FirstWins(t, [e, f], k)
    ensures BlankStays(e, f, k)
  {
    RecordOfTwo(t, e, f);
    if k in e.properties && k in f.properties {
      AbsorbedValue(Fresh(t, e), f, k);
    }
    FirstValueOfOne(e, k);
    assert Init([e, f]) == [e];
  }

  lemma FirstValueOfOne(e: Entity, k: string)
    ensures FirstValue([e], k) == PropertyOf(e.properties, k)
  {
    assert Init([e]) == [];
  }

  lemma RecordOfOne(t: Tables, e: Entity)
    ensures Record(t, [e]) == Fresh(t, e)
  {
    RecordStep(t, [], e);
    assert [] + [e] == [e];
  }

  lemma RecordOfTwo(t: Tables, e: Entity, f: Entity)
    ensures Record(t, [e, f]) == Absorb(Fresh(t, e), f)
  {
    RecordOfOne(t, e);
    RecordStep(t, [e], f);
    assert [e] + [f] == [e, f];
  }
}
