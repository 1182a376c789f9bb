/** `aggregate_results` of `app/ingestion/pipeline.py`: the chunk results concatenated, entities deduplicated globally,
    relationships kept once per (source, relationship, target). */
module Aggregation {
  import opened Lists
  import opened Entities

  datatype Relationship = Relationship(sourceId: string, kind: string, targetId: string, confidence: real)

  datatype ExtractionResult = ExtractionResult(chunkId: string, entities: seq<Entity>, relationships: seq<Relationship>)

  type TripleKey = (string, string, string)

  function KeyOf(r: Relationship): TripleKey {
    (r.sourceId, r.kind, r.targetId)
  }

  function EntityLists(results: seq<ExtractionResult>): (r: seq<seq<Entity>>)
    ensures |r| == |results|
  {
    seq(|results|, i requires 0 <= i < |results| => results[i].entities)
  }

  function RelationshipLists(results: seq<ExtractionResult>): (r: seq<seq<Relationship>>)
    ensures |r| == |results|
  {
    seq(|results|, i requires 0 <= i < |results| => results[i].relationships)
  }

  method UniqueRelationships(relationships: seq<Relationship>) returns (unique: seq<Relationship>)
    ensures unique == FirstBy(KeyOf, relationships)
  {
    unique := [];
    var seen: set<TripleKey> := {};
    for i := 0 to |relationships|
      invariant unique == FirstBy(KeyOf, relationships[..i])
      invariant forall k :: k in seen <==> k in Map(KeyOf, relationships[..i])
    {
      PrefixStep(relationships, i);
      var key := KeyOf(relationships[i]);
      assert Map(KeyOf, relationships[..i + 1]) == Map(KeyOf, relationships[..i]) + [key];
      if key !in seen {
        seen := seen + {key};
        unique := unique + [relationships[i]];
      }
    }
    assert relationships[..|relationships|] == relationships;
  }

  method AggregateResults(t: Tables, results: seq<ExtractionResult>)
    returns (entities: seq<Entity>, relationships: seq<Relationship>, chunkIds: seq<string>)
    ensures entities == Dedup(t, Flatten(EntityLists(results)))
    ensures relationships == FirstBy(KeyOf, Flatten(RelationshipLists(results)))
    ensures |chunkIds| == |results| && forall i :: 0 <= i < |results| ==> chunkIds[i] == results[i].chunkId
  {
    entities, relationships, chunkIds := [], [], [];
    for i := 0 to |results|
      invariant entities == Flatten(EntityLists(results)[..i])
      invariant relationships == Flatten(RelationshipLists(results)[..i])
      invariant |chunkIds| == i && forall j :: 0 <= j < i ==> chunkIds[j] == results[j].chunkId
    {
      PrefixStep(EntityLists(results), i);
      PrefixStep(RelationshipLists(results), i);
      entities := entities + results[i].entities;
      relationships := relationships + results[i].relationships;
      chunkIds := chunkIds + [results[i].chunkId];
    }
    assert EntityLists(results)[..|results|] == EntityLists(results);
    assert RelationshipLists(results)[..|results|] == RelationshipLists(results);
    entities := DeduplicateEntities(t, entities);
    relationships := UniqueRelationships(relationships);
  }

  predicate SameTriple(r: Relationship, q: Relationship) {
    r.sourceId == q.sourceId && r.kind == q.kind && r.targetId == q.targetId
  }

  /** Each source, kind and target is kept once: the first relationship that has them, */
  lemma TriplesKeptOnce(relationships: seq<Relationship>)
    ensures var kept := FirstBy(KeyOf, relationships);
            && (forall i, j :: 0 <= i < j < |kept| ==> !SameTriple(kept[i], kept[j]))
            && (forall r :: r in kept <==>
                 exists i :: 0 <= i < |relationships| && relationships[i] == r && forall j :: 0 <= j < i ==> !SameTriple(relationships[j], r))
  {
    var keys, kept := Map(KeyOf, relationships), FirstBy(KeyOf, relationships);
    FirstByKeys(KeyOf, relationships);
    FirstSeenDistinct(keys);
    assert forall i :: 0 <= i < |kept| ==> KeyOf(kept[i]) == FirstSeen(keys)[i];
    forall r
      ensures r in kept <==>
              exists i :: 0 <= i < |relationships| && relationships[i] == r && forall j :: 0 <= j < i ==> !SameTriple(relationships[j], r)
    {
      FirstByIs(KeyOf, relationships, r);
      assert forall q :: KeyOf(q) == KeyOf(r) <==> SameTriple(q, r);
    }
  }

  /** and the kept ones stand in the order of their triples' first appearance. */
  lemma TriplesInOrder(relationships: seq<Relationship>)
    ensures Map(KeyOf, FirstBy(KeyOf, relationships)) == FirstSeen(Map(KeyOf, relationships))
  {
    FirstByKeys(KeyOf, relationships);
  }
}
