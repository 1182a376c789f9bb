/** What the records, the citations and the audit of an answer hold, in terms of the ranked candidates and the answer's text. */
module CitationMeaning {
  import opened Lists
  import opened FusionEngine
  import opened Rounding
  import opened Citations

  // ---------------------------------------------------------------- tags as text

  /** A decimal digit is one of these ten. */
  lemma DigitsAre(c: char)
    ensures IsDigit(c) <==> c in "0123456789"
  {
  }

  /** Two tags as they are printed. */
  lemma TagsPrinted()
    ensures MakeTag(1) == "[Source #1]" && MakeTag(12) == "[Source #12]"
  {
    assert Numeral(1) == "1";
    assert Numeral(12) == Numeral(1) + "2";
  }

  /** A numeral has no leading zero. */
  lemma {:induction false} NoLeadingZero(n: nat)
    ensures Numeral(n)[0] == '0' <==> n == 0
  {
    if n >= 10 {
      NoLeadingZero(n / 10);
    }
  }

  // ---------------------------------------------------------------- records

  /** The better of two scores. */
  predicate BetterOf(score: real, x: real, y: real) {
    score >= x && score >= y && (score == x || score == y)
  }

  /** Record `i`, counted from 0, is numbered i + 1, tagged by that number, and names candidate `i` with its better score
      and the channels in which it scored. */
  lemma BuiltRecord(candidates: seq<Candidate>, i: nat)
    requires i < |candidates|
    ensures var p, c := Provenance(candidates)[i], candidates[i];
            && p.index == i + 1 && p.tag == MakeTag(i + 1) && p.sourceId == c.id && BetterOf(p.score, c.scoreVector, c.scoreGraph)
            && (p.source == FromBoth <==> c.scoreVector > 0.0 && c.scoreGraph > 0.0)
            && (p.source == FromVector <==> c.scoreVector > 0.0 && c.scoreGraph <= 0.0)
  {
  }

  lemma BuiltNumbered(candidates: seq<Candidate>)
    ensures Numbered(Provenance(candidates))
  {
    forall i | 0 <= i < |candidates|
      ensures Provenance(candidates)[i].index == i + 1 && Provenance(candidates)[i].tag == MakeTag(i + 1)
    {
      BuiltRecord(candidates, i);
    }
  }

  // ---------------------------------------------------------------- citations

  /** The citation of a built record's tag names that candidate. */
  lemma RecordOfTag(candidates: seq<Candidate>, i: nat)
    requires i < |candidates|
    ensures Known(Provenance(candidates), MakeTag(i + 1))
    ensures RecordOf(Provenance(candidates), MakeTag(i + 1)) == Provenance(candidates)[i]
  {
    var prov := Provenance(candidates);
    BuiltNumbered(candidates);
    assert prov[i].tag == MakeTag(i + 1);
    var p := RecordOf(prov, MakeTag(i + 1));
    var j :| 0 <= j < |prov| && prov[j] == p;
    BuiltTagsUnique(prov, i, j);
  }

  /** Citation `k` of an answer carries its k-th valid tag; the number in that tag names the candidate cited. */
  lemma CitationNames(text: string, candidates: seq<Candidate>, k: nat) returns (i: nat)
    requires k < |ValidTags(Tags(text), Provenance(candidates))|
    ensures i < |candidates|
    ensures var prov := Provenance(candidates);
            var valid := ValidTags(Tags(text), prov);
            var citation := CitationsFor(valid, prov)[k];
            && valid[k] == MakeTag(i + 1) == citation.citationId && citation.sourceId == candidates[i].id
            && BetterOf(citation.confidence, candidates[i].scoreVector, candidates[i].scoreGraph)
  {
    var prov := Provenance(candidates);
    var valid := ValidTags(Tags(text), prov);
    assert valid[k] in valid && Known(prov, valid[k]);
    i :| 0 <= i < |prov| && prov[i].tag == valid[k];
    BuiltRecord(candidates, i);
    RecordOfTag(candidates, i);
  }

  // ---------------------------------------------------------------- the audit

  /** The valid tags of an answer are the found ones that some record carries, the invented ones are the others,
      both in the order in which they are found. */
  lemma AuditSplits(text: string, prov: seq<ProvenanceRecord>)
    ensures var a := Audit(text, prov);
            && a.found == Tags(text)
            && (forall t :: t in a.valid <==> t in a.found && exists i :: 0 <= i < |prov| && prov[i].tag == t)
            && (forall t :: t in a.hallucinated <==> t in a.found && forall i :: 0 <= i < |prov| ==> prov[i].tag != t)
            && InOrderOf(a.valid, a.found) && InOrderOf(a.hallucinated, a.found)
  {
    FilterInOrder(t => Known(prov, t), Tags(text));
    FilterInOrder(t => !Known(prov, t), Tags(text));
  }

  /** The reported ratio is that of valid to found tags, up to half a thousandth, and 0 where none is found. */
  lemma AuditRatio(text: string, prov: seq<ProvenanceRecord>)
    ensures var a := Audit(text, prov);
            && (a.found == [] ==> a.compliance == 0.0)
            && (a.found != [] ==> var ratio := |a.valid| as real / |a.found| as real;
                                  ratio - 0.0005 <= a.compliance <= ratio + 0.0005)
  {
    var a := Audit(text, prov);
    var x := |a.valid| as real / (if |a.found| > 1 then |a.found| else 1) as real;
    Round3Near(x);
    RoundsToNearest(0.0, 0);
  }

  /** The elements of `ys` occur in `xs` in the same order, each at a place of its own. */
  ghost predicate InOrderOf<T(!new)>(ys: seq<T>, xs: seq<T>) {
    exists place: seq<nat> :: Places(place, ys, xs)
  }

  ghost predicate Places<T(!new)>(place: seq<nat>, ys: seq<T>, xs: seq<T>) {
    && |place| == |ys|
    && (forall i :: 0 <= i < |ys| ==> place[i] < |xs| && xs[place[i]] == ys[i])
    && (forall i, j :: 0 <= i < j < |ys| ==> place[i] < place[j])
  }

  lemma {:induction false} FilterInOrder<T(!new)>(p: T -> bool, xs: seq<T>)
    ensures InOrderOf(Filter(p, xs), xs)
  {
    if xs == [] {
      assert Places([], Filter(p, xs), xs);
    } else {
      var front, last := Init(xs), Last(xs);
      FilterInOrder(p, front);
      var place: seq<nat> :| Places(place, Filter(p, front), front);
      if p(last) {
        PlacesSnoc(place, Filter(p, front), front, last, xs);
      } else {
        assert Places(place, Filter(p, xs), xs);
      }
    }
  }

  lemma PlacesSnoc<T(!new)>(place: seq<nat>, ys: seq<T>, front: seq<T>, last: T, xs: seq<T>)
    requires Places(place, ys, front) && xs == front + [last]
    ensures InOrderOf(ys + [last], xs)
  {
    var longer := place + [|front|];
    forall i | 0 <= i < |longer|
      ensures longer[i] < |xs| && xs[longer[i]] == (ys + [last])[i]
    {
    }
    assert Places(longer, ys + [last], xs);
  }
}
