/** What a merged record holds, in terms of the entities it was merged from and the two tables. */
module RecordMeaning {
  import opened Lists
  import opened Sorting
  import opened Entities
  import opened EntityLevels

  // ---------------------------------------------------------------- the order of strings

  /** Python's `<=` on strings: a prefix, or smaller at the first difference. */
  ghost predicate Lexicographic(a: string, b: string) {
    a <= b || exists i :: 0 <= i < |a| && i < |b| && a[..i] == b[..i] && a[i] < b[i]
  }

  lemma {:induction false} StringLeIff(a: string, b: string)
    ensures StringLe(a, b) <==> Lexicographic(a, b)
  {
    if a != "" && b != "" {
      var x, y := a[1..], b[1..];
      StringLeIff(x, y);
      assert a == [a[0]] + x && b == [b[0]] + y;
      if a[0] < b[0] {
        assert a[..0] == b[..0];
      } else if a[0] == b[0] {
        SameHead(a, b, x, y);
      }
    }
  }

  lemma SameHead(a: string, b: string, x: string, y: string)
    requires a != "" && b != "" && a[0] == b[0] && x == a[1..] && y == b[1..]
    ensures Lexicographic(a, b) <==> Lexicographic(x, y)
  {
    assert a == [a[0]] + x && b == [b[0]] + y;
    if i :| 0 <= i < |x| && i < |y| && x[..i] == y[..i] && x[i] < y[i] {
      assert a[..i + 1] == [a[0]] + x[..i] && b[..i + 1] == [b[0]] + y[..i];
      assert a[i + 1] < b[i + 1];
    }
    if i :| 0 <= i < |a| && i < |b| && a[..i] == b[..i] && a[i] < b[i] {
      assert i > 0 && x[..i - 1] == a[..i][1..] && y[..i - 1] == b[..i][1..];
      assert x[i - 1] < y[i - 1];
    }
  }

  // ---------------------------------------------------------------- blanks and ids

  /** The length of a text or a container; a number has none. */
  function Size(v: Property): Option<nat> {
    match v
    case Null => Some(0)
    case Text(s) => Some(|s|)
    case Number(_) => None
    case Items(xs) => Some(|xs|)
    case Nested(keys) => Some(|keys|)
  }

  /** Exactly the missing value and the empty texts, lists and mappings are blank. */
  lemma BlankIff(v: Property)
    ensures IsBlank(v) <==> Size(v) == Some(0)
  {
  }

  /** Alias `i` is the first one whose normal form the alias map has. */
  ghost predicate FirstMapped(t: Tables, e: Entity, i: nat) {
    i < |e.aliases| && t.normalize(e.aliases[i]) in t.aliases && forall j :: 0 <= j < i ==> t.normalize(e.aliases[j]) !in t.aliases
  }

  /** The first mapped alias decides, then the display name, then the entity's own id. */
  lemma CanonicalIs(t: Tables, e: Entity)
    ensures forall i: nat :: FirstMapped(t, e, i) ==> CanonicalId(t, e) == t.aliases[t.normalize(e.aliases[i])]
    ensures (forall n :: n in e.aliases ==> t.normalize(n) !in t.aliases) ==>
              CanonicalId(t, e) == if t.normalize(e.displayName) in t.aliases then t.aliases[t.normalize(e.displayName)] else e.id
  {
    forall i: nat | FirstMapped(t, e, i)
      ensures CanonicalId(t, e) == t.aliases[t.normalize(e.aliases[i])]
    {
      FirstMappedHit(t, e.aliases, i);
    }
  }

  lemma {:induction false} FirstMappedHit(t: Tables, names: seq<string>, i: nat)
    requires i < |names| && t.normalize(names[i]) in t.aliases && forall j :: 0 <= j < i ==> t.normalize(names[j]) !in t.aliases
    ensures FirstHit(t, names) == Some(t.aliases[t.normalize(names[i])])
  {
    if i > 0 {
      assert t.normalize(names[0]) !in t.aliases;
      FirstMappedHit(t, names[1..], i - 1);
    }
  }

  // ---------------------------------------------------------------- the record of a group

  /** The aliases stand in ascending order, each once. */
  ghost predicate Ascends(names: seq<string>) {
    forall i, j :: 0 <= i < j < |names| ==> Lexicographic(names[i], names[j]) && names[i] != names[j]
  }

  lemma SortedSetAscends(names: seq<string>)
    ensures Ascends(SortedSet(names))
  {
    var r := SortedSet(names);
    SortedSetSorted(names);
    FirstSeenDistinct(names);
    SortDistinct(StringOrder(), FirstSeen(names));
    forall i, j | 0 <= i < j < |r|
      ensures Lexicographic(r[i], r[j]) && r[i] != r[j]
    {
      assert StringOrder()(r[i], r[j]);
      StringLeIff(r[i], r[j]);
    }
  }

  /** A name of some entity of the group, or the id that the first one gave up. */
  ghost predicate NameOf(t: Tables, g: seq<Entity>, n: string)
    requires g != []
  {
    (exists e :: e in g && (n in e.aliases || n == e.displayName)) || (n == g[0].id && n != CanonicalId(t, g[0]))
  }

  lemma {:induction false} GroupNamesAre(t: Tables, g: seq<Entity>, n: string)
    requires g != []
    ensures n in GroupNames(t, g) <==> NameOf(t, g, n)
  {
    var front, last := Init(g), Last(g);
    assert forall e :: e in g <==> e in front || e == last by { assert g == front + [last]; }
    if |g| > 1 {
      GroupNamesAre(t, front, n);
    }
  }

  lemma {:induction false} RecordAliases(t: Tables, g: seq<Entity>)
    requires g != []
    ensures Ascends(Record(t, g).aliases)
  {
    if |g| == 1 {
      SortedSetAscends(Names(t, g[0]));
    } else {
      var r, last := Record(t, Init(g)), Last(g);
      SortedSetAscends(r.aliases + last.aliases + [last.displayName]);
    }
  }

  lemma {:induction false} RecordConfidence(t: Tables, g: seq<Entity>)
    requires g != []
    ensures (exists e :: e in g && Record(t, g).confidence == e.confidence)
    ensures forall e :: e in g ==> e.confidence <= Record(t, g).confidence
  {
    var front, last := Init(g), Last(g);
    assert forall e :: e in g <==> e in front || e == last by { assert g == front + [last]; }
    if |g| > 1 {
      RecordConfidence(t, front);
    }
  }

  /** A record has the group's id, the canonical display name of that id or else the first entity's, the highest confidence,
      and as aliases exactly the names of the entities, in ascending order. */
  lemma RecordMeans(t: Tables, g: seq<Entity>)
    requires g != []
    ensures var r, id := Record(t, g), CanonicalId(t, g[0]);
            && r.id == id && r.displayName == (if id in t.displays then t.displays[id] else g[0].displayName)
            && (exists e :: e in g && r.confidence == e.confidence) && (forall e :: e in g ==> e.confidence <= r.confidence)
            && Ascends(r.aliases) && (forall n :: n in r.aliases <==> NameOf(t, g, n))
  {
    RecordDisplay(t, g, CanonicalId(t, g[0]));
    RecordConfidence(t, g);
    RecordAliases(t, g);
    RecordNames(t, g);
    forall n
      ensures n in GroupNames(t, g) <==> NameOf(t, g, n)
    {
      GroupNamesAre(t, g, n);
    }
  }

  function WithId(t: Tables, id: string): Entity -> bool {
    (e: Entity) => CanonicalId(t, e) == id
  }

  /** The records of a pass: for the i-th id in order of first appearance, the record of all entities with that id, in order. */
  lemma DedupMeans(t: Tables, es: seq<Entity>, i: nat)
    requires i < |Dedup(t, es)|
    ensures var id := FirstSeen(IdsOf(t, es))[i];
            var g := Filter(WithId(t, id), es);
            g != [] && Dedup(t, es)[i] == Record(t, g)
  {
    var id := FirstSeen(IdsOf(t, es))[i];
    assert id in FirstSeen(IdsOf(t, es));
    GroupMembers(t, es, id);
    GroupIsFilter(t, es, id);
  }

  lemma {:induction false} GroupIsFilter(t: Tables, es: seq<Entity>, id: string)
    ensures Group(t, es, id) == Filter(WithId(t, id), es)
  {
    if es != [] {
      GroupIsFilter(t, Init(es), id);
    }
  }

  /** One name of each kind, out of order: the record lists them in ascending order. */
  lemma AliasesOutOfOrder(t: Tables, e: Entity)
    requires t.aliases == map[] && e.displayName == "Pump A" && e.aliases == ["CP A"]
    ensures Record(t, [e]).aliases == ["CP A", "Pump A"]
  {
    assert Names(t, e) == ["CP A"] + ["Pump A"];
    assert StringLe("CP A", "Pump A");
    FirstSeenOfDistinct(["CP A", "Pump A"]);
    SortPair(StringOrder(), "CP A", "Pump A");
  }
}
