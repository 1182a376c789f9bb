/** Citation tags of `app/graphrag`: printing, scanning an answer for them, resolving and auditing them. */
module Citations {
  import opened Lists
  import opened Fusion
  import opened FusionEngine
  import opened Rounding

  // ---------------------------------------------------------------- tags

  const PREFIX := "[Source #"
  const SUFFIX := "]"

  predicate IsDigit(c: char) {
    '0' <= c <= '9'
  }

  predicate AllDigits(s: string) {
    forall i :: 0 <= i < |s| ==> IsDigit(s[i])
  }

  /** Decimal numeral without leading zeros. */
  function Numeral(n: nat): (s: string)
    ensures s != "" && AllDigits(s)
  {
    if n < 10 then [('0' as int + n) as char] else Numeral(n / 10) + [('0' as int + n % 10) as char]
  }

  function ParseNumeral(s: string): nat
    requires AllDigits(s)
  {
    if s == "" then 0 else 10 * ParseNumeral(Init(s)) + (Last(s) as int - '0' as int)
  }

  lemma {:induction false} ParseOfNumeral(n: nat)
    ensures ParseNumeral(Numeral(n)) == n
  {
    if n >= 10 {
      ParseOfNumeral(n / 10);
      assert Init(Numeral(n)) == Numeral(n / 10);
    } else {
      assert Init(Numeral(n)) == "";
    }
  }

  function TagOf(digits: string): string {
    PREFIX + digits + SUFFIX
  }

  function MakeTag(index: nat): string {
    TagOf(Numeral(index))
  }

  predicate IsTag(t: string) {
    |t| > |PREFIX| + 1 && AllDigits(t[|PREFIX|..|t| - 1]) && t == TagOf(t[|PREFIX|..|t| - 1])
  }

  /** The number between `#` and the closing bracket. */
  function TagIndex(t: string): nat
    requires IsTag(t)
  {
    ParseNumeral(t[|PREFIX|..|t| - 1])
  }

  lemma TagParts(digits: string)
    ensures |TagOf(digits)| == |PREFIX| + |digits| + 1
    ensures TagOf(digits)[|PREFIX|..|TagOf(digits)| - 1] == digits
    ensures digits != "" && AllDigits(digits) ==> IsTag(TagOf(digits))
  {
  }

  lemma TagIndexOfMake(n: nat)
    ensures IsTag(MakeTag(n)) && TagIndex(MakeTag(n)) == n
  {
    TagParts(Numeral(n));
    ParseOfNumeral(n);
  }

  // ---------------------------------------------------------------- scanning

  function LeadingDigits(s: string): (r: string)
    ensures r <= s && AllDigits(r)
    ensures |r| < |s| ==> !IsDigit(s[|r|])
  {
    if s != "" && IsDigit(s[0]) then [s[0]] + LeadingDigits(s[1..]) else ""
  }

  /** The text starts with the prefix, one digit or more, and the closing bracket. */
  predicate TagHere(text: string) {
    PREFIX <= text &&
    var digits := LeadingDigits(text[|PREFIX|..]);
    digits != "" && |PREFIX| + |digits| < |text| && text[|PREFIX| + |digits|] == ']'
  }

  function DigitsHere(text: string): (digits: string)
    requires TagHere(text)
    ensures digits != "" && AllDigits(digits) && TagOf(digits) <= text
  {
    LeadingDigits(text[|PREFIX|..])
  }

  /** `re.findall`: leftmost matches, each search resuming behind the previous match. */
  function FindAll(text: string): seq<string>
    decreases |text|
  {
    if text == "" then []
    else if TagHere(text) then
      [DigitsHere(text)] + FindAll(text[|TagOf(DigitsHere(text))|..])
    else FindAll(text[1..])
  }

  /** The plain reading: a match is looked for at every position. */
  function EveryMatch(text: string): seq<string> {
    if text == "" then []
    else (if TagHere(text) then [DigitsHere(text)] else []) + EveryMatch(text[1..])
  }

  lemma {:induction false} NoBracketNoMatch(text: string, n: nat)
    requires n <= |text| && forall i :: 0 <= i < n ==> text[i] != '['
    ensures EveryMatch(text) == EveryMatch(text[n..])
    decreases n
  {
    if n > 0 {
      assert PREFIX[0] == '[';
      NoBracketNoMatch(text[1..], n - 1);
      assert text[1..][n - 1..] == text[n..];
    } else {
      assert text[0..] == text;
    }
  }

  /** A match holds no bracket but its first character, so skipping over it skips no other match. */
  lemma {:induction false} MatchesNeverOverlap(text: string)
    ensures FindAll(text) == EveryMatch(text)
    decreases |text|
  {
    if text == "" {
    } else if TagHere(text) {
      var n := |TagOf(DigitsHere(text))|;
      MatchesNeverOverlap(text[n..]);
      forall i | 0 <= i < n - 1
        ensures text[1..][i] != '['
      {
        TagHasOneBracket(DigitsHere(text), i + 1);
        assert text[i + 1] == TagOf(DigitsHere(text))[i + 1];
      }
      NoBracketNoMatch(text[1..], n - 1);
      assert text[1..][n - 1..] == text[n..];
    } else {
      MatchesNeverOverlap(text[1..]);
    }
  }

  lemma TagHasOneBracket(digits: string, i: nat)
    requires AllDigits(digits) && 0 < i < |TagOf(digits)|
    ensures TagOf(digits)[i] != '['
  {
    if |PREFIX| <= i < |PREFIX| + |digits| {
      assert TagOf(digits)[i] == digits[i - |PREFIX|];
    }
  }

  lemma {:induction false} LeadingDigitsOf(digits: string, rest: string)
    requires AllDigits(digits) && (rest == "" || !IsDigit(rest[0]))
    ensures LeadingDigits(digits + rest) == digits
  {
    if digits == "" {
      assert digits + rest == rest;
    } else {
      LeadingDigitsOf(digits[1..], rest);
      assert (digits + rest)[1..] == digits[1..] + rest;
    }
  }

  /** Where a tag is written, the scanner reads its digits. */
  lemma TagIsRead(digits: string, rest: string)
    requires digits != "" && AllDigits(digits)
    ensures TagHere(TagOf(digits) + rest) && DigitsHere(TagOf(digits) + rest) == digits
  {
    var text := TagOf(digits) + rest;
    assert text == PREFIX + (digits + (SUFFIX + rest));
    assert text[|PREFIX|..] == digits + (SUFFIX + rest);
    LeadingDigitsOf(digits, SUFFIX + rest);
    assert text[|PREFIX| + |digits|] == (digits + (SUFFIX + rest))[|digits|];
  }

  /** In any text whatever, exactly the digit strings that occur inside a written tag are found. */
  lemma {:induction false} EveryOccurrenceFound(text: string, digits: string)
    requires digits != "" && AllDigits(digits)
    ensures digits in FindAll(text) <==> exists p :: 0 <= p <= |text| && TagOf(digits) <= text[p..]
  {
    MatchesNeverOverlap(text);
    FoundWhereWritten(text, digits);
  }

  lemma {:induction false} FoundWhereWritten(text: string, digits: string)
    requires digits != "" && AllDigits(digits)
    ensures digits in EveryMatch(text) <==> exists p :: 0 <= p <= |text| && TagOf(digits) <= text[p..]
  {
    if text != "" {
      FoundWhereWritten(text[1..], digits);
      assert text[0..] == text;
      if TagOf(digits) <= text {
        assert text == TagOf(digits) + text[|TagOf(digits)|..];
        TagIsRead(digits, text[|TagOf(digits)|..]);
      }
      if p :| 0 <= p <= |text| && TagOf(digits) <= text[p..] && p > 0 {
        assert text[1..][p - 1..] == text[p..];
      }
      if q :| 0 <= q <= |text[1..]| && TagOf(digits) <= text[1..][q..] {
        assert text[1..][q..] == text[q + 1..];
      }
    }
  }

  // ---------------------------------------------------------------- the round trip

  /** Pieces of text with a printed tag between each two. */
  function Render(pieces: seq<string>, indices: seq<nat>): string
    requires |pieces| == |indices| + 1
  {
    if indices == [] then pieces[0]
    else pieces[0] + MakeTag(indices[0]) + Render(pieces[1..], indices[1..])
  }

  predicate BracketFree(s: string) {
    forall i :: 0 <= i < |s| ==> s[i] != '['
  }

  function Numerals(indices: seq<nat>): (r: seq<string>)
    ensures |r| == |indices|
  {
    seq(|indices|, i requires 0 <= i < |indices| => Numeral(indices[i]))
  }

  /** Text without brackets in front changes nothing, */
  lemma ScanPastPiece(piece: string, rest: string)
    requires BracketFree(piece)
    ensures FindAll(piece + rest) == FindAll(rest)
  {
    MatchesNeverOverlap(piece + rest);
    MatchesNeverOverlap(rest);
    NoBracketNoMatch(piece + rest, |piece|);
    assert (piece + rest)[|piece|..] == rest;
  }

  /** and a tag in front adds its numeral. */
  lemma ScanTag(digits: string, rest: string)
    requires digits != "" && AllDigits(digits)
    ensures FindAll(TagOf(digits) + rest) == [digits] + FindAll(rest)
  {
    TagIsRead(digits, rest);
    assert (TagOf(digits) + rest)[|TagOf(digits)|..] == rest;
  }

  lemma {:induction false} ScanOfRender(pieces: seq<string>, indices: seq<nat>)
    requires |pieces| == |indices| + 1 && forall p :: p in pieces ==> BracketFree(p)
    ensures FindAll(Render(pieces, indices)) == Numerals(indices)
    decreases |indices|
  {
    assert BracketFree(pieces[0]) by { assert pieces[0] in pieces; }
    if indices == [] {
      ScanPastPiece(pieces[0], "");
      assert pieces[0] + "" == pieces[0];
    } else {
      var tag, rest := MakeTag(indices[0]), Render(pieces[1..], indices[1..]);
      ScanOfRender(pieces[1..], indices[1..]);
      assert Render(pieces, indices) == pieces[0] + (tag + rest);
      ScanPastPiece(pieces[0], tag + rest);
      ScanTag(Numeral(indices[0]), rest);
      assert Numerals(indices) == [Numeral(indices[0])] + Numerals(indices[1..]);
    }
  }

  // ---------------------------------------------------------------- extraction

  /** The tags of an answer, each once, in order of first appearance. */
  function Tags(text: string): seq<string> {
    FirstSeen(Map(TagOf, FindAll(text)))
  }

  method ExtractCitationTags(text: string) returns (result: seq<string>)
    ensures result == Tags(text)
  {
    var matches := FindAll(text);
    var seen := {};
    result := [];
    for i := 0 to |matches|
      invariant result == FirstSeen(Map(TagOf, matches[..i]))
      invariant forall t :: t in seen <==> t in result
    {
      var tag := TagOf(matches[i]);
      assert Map(TagOf, matches[..i + 1]) == Map(TagOf, matches[..i]) + [tag];
      FirstSeenSnoc(Map(TagOf, matches[..i]), tag);
      if tag !in seen {
        seen := seen + {tag};
        result := result + [tag];
      }
    }
    assert matches[..|matches|] == matches;
  }

  lemma {:induction false} FoundAreDigits(text: string)
    ensures forall d :: d in FindAll(text) ==> d != "" && AllDigits(d)
    decreases |text|
  {
    if text == "" {
    } else if TagHere(text) {
      FoundAreDigits(text[|TagOf(DigitsHere(text))|..]);
    } else {
      FoundAreDigits(text[1..]);
    }
  }

  lemma TagsAreTags(text: string)
    ensures Distinct(Tags(text)) && forall t :: t in Tags(text) ==> IsTag(t)
  {
    var found := FindAll(text);
    FoundAreDigits(text);
    FirstSeenDistinct(Map(TagOf, found));
    forall t | t in Tags(text)
      ensures IsTag(t)
    {
      var i :| 0 <= i < |found| && TagOf(found[i]) == t;
      assert found[i] in found;
      TagParts(found[i]);
    }
  }

  function MakeTags(indices: seq<nat>): (r: seq<string>)
    ensures |r| == |indices|
  {
    seq(|indices|, i requires 0 <= i < |indices| => MakeTag(indices[i]))
  }

  /** Extracting from an answer that cites by printed tags gives back those tags. */
  lemma TagsOfRender(pieces: seq<string>, indices: seq<nat>)
    requires |pieces| == |indices| + 1 && forall p :: p in pieces ==> BracketFree(p)
    ensures Tags(Render(pieces, indices)) == FirstSeen(MakeTags(indices))
  {
    ScanOfRender(pieces, indices);
    assert Map(TagOf, Numerals(indices)) == MakeTags(indices);
  }

  // ---------------------------------------------------------------- provenance

  datatype ProvenanceRecord = ProvenanceRecord(tag: string, index: nat, source: Source, sourceId: string, score: real)

  datatype Citation = Citation(citationId: string, sourceId: string, confidence: real)

  function ToCitation(p: ProvenanceRecord): Citation {
    Citation(p.tag, p.sourceId, p.score)
  }

  function Max(a: real, b: real): real {
    if b > a then b else a
  }

  /** The provenance of a ranked list: the i-th candidate, counted from 1, gets index i, its tag, its source mark and its better score. */
  function Provenance(candidates: seq<Candidate>): (r: seq<ProvenanceRecord>)
    ensures |r| == |candidates|
  {
    seq(|candidates|, i requires 0 <= i < |candidates| =>
      var c := candidates[i];
      ProvenanceRecord(MakeTag(i + 1), i + 1, FusedSource(c), c.id, Max(c.scoreVector, c.scoreGraph)))
  }

  method Build(candidates: seq<Candidate>) returns (records: seq<ProvenanceRecord>)
    ensures records == Provenance(candidates)
  {
    records := [];
    for i := 0 to |candidates|
      invariant records == Provenance(candidates)[..i]
    {
      var c := candidates[i];
      records := records + [ProvenanceRecord(MakeTag(i + 1), i + 1, FusedSource(c), c.id, Max(c.scoreVector, c.scoreGraph))];
    }
  }

  /** Records as `Build` makes them: numbered from 1, tagged by their number. */
  ghost predicate Numbered(prov: seq<ProvenanceRecord>) {
    forall i :: 0 <= i < |prov| ==> prov[i].index == i + 1 && prov[i].tag == MakeTag(i + 1)
  }

  lemma BuiltTagsUnique(prov: seq<ProvenanceRecord>, i: nat, j: nat)
    requires Numbered(prov) && i < |prov| && j < |prov|
    ensures prov[i].tag == prov[j].tag <==> i == j
    ensures IsTag(prov[i].tag) && TagIndex(prov[i].tag) == prov[i].index
  {
    TagIndexOfMake(i + 1);
    TagIndexOfMake(j + 1);
  }

  // ---------------------------------------------------------------- resolution and audit

  predicate Known(prov: seq<ProvenanceRecord>, tag: string) {
    exists i :: 0 <= i < |prov| && prov[i].tag == tag
  }

  /** The record a `{p.tag: p}` table holds for a tag: the last one. */
  function RecordOf(prov: seq<ProvenanceRecord>, tag: string): (p: ProvenanceRecord)
    requires Known(prov, tag)
    ensures p in prov && p.tag == tag
  {
    if Last(prov).tag == tag then Last(prov) else RecordOf(Init(prov), tag)
  }

  method IndexByTag(prov: seq<ProvenanceRecord>) returns (byTag: map<string, ProvenanceRecord>)
    ensures forall t :: t in byTag <==> Known(prov, t)
    ensures forall t :: t in byTag ==> byTag[t] == RecordOf(prov, t)
  {
    byTag := map[];
    for i := 0 to |prov|
      invariant forall t :: t in byTag <==> Known(prov[..i], t)
      invariant forall t :: t in byTag ==> byTag[t] == RecordOf(prov[..i], t)
    {
      KnownStep(prov, i);
      byTag := byTag[prov[i].tag := prov[i]];
    }
    assert prov[..|prov|] == prov;
  }

  lemma KnownStep(prov: seq<ProvenanceRecord>, i: nat)
    requires i < |prov|
    ensures forall t :: Known(prov[..i + 1], t) <==> Known(prov[..i], t) || t == prov[i].tag
    ensures RecordOf(prov[..i + 1], prov[i].tag) == prov[i]
    ensures forall t :: Known(prov[..i], t) && t != prov[i].tag ==> RecordOf(prov[..i + 1], t) == RecordOf(prov[..i], t)
  {
    PrefixStep(prov, i);
    var shorter, longer := prov[..i], prov[..i + 1];
    assert longer[i] == prov[i];
    forall t | Known(shorter, t)
      ensures Known(longer, t)
    {
      var k :| 0 <= k < i && shorter[k].tag == t;
      assert longer[k].tag == t;
    }
  }

  method ResolveCitations(text: string, prov: seq<ProvenanceRecord>) returns (citations: seq<Citation>)
    ensures citations == CitationsFor(ValidTags(Tags(text), prov), prov)
  {
    var tags := ExtractCitationTags(text);
    var byTag := IndexByTag(prov);
    citations := [];
    for i := 0 to |tags|
      invariant citations == CitationsFor(ValidTags(tags[..i], prov), prov)
    {
      PrefixStep(tags, i);
      if tags[i] in byTag {
        citations := citations + [ToCitation(byTag[tags[i]])];
      }
    }
    assert tags[..|tags|] == tags;
  }

  /** One citation per tag, in the same order. */
  function CitationsFor(tags: seq<string>, prov: seq<ProvenanceRecord>): (r: seq<Citation>)
    requires forall t :: t in tags ==> Known(prov, t)
    ensures |r| == |tags|
  {
    seq(|tags|, i requires 0 <= i < |tags| => assert tags[i] in tags; ToCitation(RecordOf(prov, tags[i])))
  }

  function ValidTags(found: seq<string>, prov: seq<ProvenanceRecord>): (r: seq<string>)
    ensures forall t :: t in r ==> Known(prov, t)
  {
    Filter(t => Known(prov, t), found)
  }

  datatype AuditReport = AuditReport(found: seq<string>, valid: seq<string>, hallucinated: seq<string>,
                                     missing: seq<string>, compliance: real)

  function TagsOf(prov: seq<ProvenanceRecord>): (r: seq<string>)
    ensures |r| == |prov|
  {
    Map((p: ProvenanceRecord) => p.tag, prov)
  }

  /** No valid tag parses to the record's index. */
  function Uncited(valid: seq<string>): ProvenanceRecord -> bool {
    (p: ProvenanceRecord) => !(exists t :: t in valid && IsTag(t) && TagIndex(t) == p.index)
  }

  function TagIn(found: seq<string>): ProvenanceRecord -> bool {
    (p: ProvenanceRecord) => p.tag in found
  }

  function TagNotIn(found: seq<string>): ProvenanceRecord -> bool {
    (p: ProvenanceRecord) => p.tag !in found
  }

  /** The audit of `validate_citations_in_response`; a record is missing when no valid tag parses to its index. */
  function Audit(text: string, prov: seq<ProvenanceRecord>): AuditReport {
    var found := Tags(text);
    var valid := ValidTags(found, prov);
    AuditReport(
      found, valid,
      Filter(t => !Known(prov, t), found),
      TagsOf(Filter(Uncited(valid), prov)),
      Round3(|valid| as real / (if |found| > 1 then |found| else 1) as real))
  }

  /** A record's tag is among the valid ones exactly when some valid tag parses to its index. */
  lemma CitedByIndex(prov: seq<ProvenanceRecord>, valid: seq<string>, i: nat)
    requires Numbered(prov) && i < |prov|
    requires forall t :: t in valid ==> Known(prov, t) && IsTag(t)
    ensures prov[i].tag in valid <==> exists t :: t in valid && IsTag(t) && TagIndex(t) == prov[i].index
  {
    BuiltTagsUnique(prov, i, i);
    if t :| t in valid && TagIndex(t) == prov[i].index {
      var j :| 0 <= j < |prov| && prov[j].tag == t;
      BuiltTagsUnique(prov, j, j);
    }
  }

  /** The records that count as missing are those whose tag the answer does not contain. */
  lemma MissingAreNotFound(prov: seq<ProvenanceRecord>, found: seq<string>)
    requires Numbered(prov) && forall t :: t in found ==> IsTag(t)
    ensures Filter(Uncited(ValidTags(found, prov)), prov) == Filter(TagNotIn(found), prov)
  {
    var valid := ValidTags(found, prov);
    forall p | p in prov
      ensures Uncited(valid)(p) == TagNotIn(found)(p)
    {
      var i :| 0 <= i < |prov| && prov[i] == p;
      CitedByIndex(prov, valid, i);
    }
    FilterCongruent(Uncited(valid), TagNotIn(found), prov);
  }

  /** For built provenance the audit and the resolver agree: the missing tags are exactly those of the records
      not found in the answer, cited and missing records make up the provenance, and the reported ratio is 1 unless
      more than one found tag in 2000 is invented. */
  lemma AuditAgrees(text: string, prov: seq<ProvenanceRecord>)
    requires Numbered(prov)
    ensures var a := Audit(text, prov);
            && a.missing == TagsOf(Filter(TagNotIn(a.found), prov))
            && |a.valid| + |a.missing| == |prov|
            && |a.valid| + |a.hallucinated| == |a.found|
            && (a.compliance == 1.0 <==> a.found != [] && 2000 * |a.hallucinated| <= |a.found|)
  {
    var found := Tags(text);
    TagsAreTags(text);
    MissingAreNotFound(prov, found);
    FilterSplit(t => Known(prov, t), t => !Known(prov, t), found);
    FilterSplit(TagIn(found), TagNotIn(found), prov);
    CitedRecords(prov, found);
    var a := Audit(text, prov);
    ComplianceOne(|a.valid|, |a.hallucinated|, |found|);
  }

  /** The citations resolved from an answer carry the valid tags of its audit, in order. */
  lemma ResolvedAreValid(text: string, prov: seq<ProvenanceRecord>)
    ensures var valid := Audit(text, prov).valid;
            Map((c: Citation) => c.citationId, CitationsFor(valid, prov)) == valid
  {
    var valid := Audit(text, prov).valid;
    forall k | 0 <= k < |valid|
      ensures CitationsFor(valid, prov)[k].citationId == valid[k]
    {
      assert valid[k] in valid;
    }
  }

  /** The reported ratio, rounded to three decimals, is 1 when at most one found tag in 2000 is invented. */
  lemma ComplianceOne(valid: nat, hallucinated: nat, found: nat)
    requires valid + hallucinated == found
    ensures Round3(valid as real / (if found > 1 then found else 1) as real) == 1.0 <==> found > 0 && 2000 * hallucinated <= found
  {
    if found > 0 {
      RatioOne(valid as real, hallucinated as real, found as real);
    }
  }

  lemma RatioOne(v: real, h: real, n: real)
    requires v + h == n > 0.0 && h >= 0.0
    ensures Round3(v / n) == 1.0 <==> 2000.0 * h <= n
  {
    Quotient(v, n, 0.9995);
    Quotient(v, n, 1.0);
    RoundsToNearest(v / n * 1000.0, 1000);
    assert Round3(v / n) == 1.0 <==> RoundHalfEven(v / n * 1000.0) == 1000;
  }

  lemma Quotient(v: real, n: real, c: real)
    requires n > 0.0
    ensures v / n > c <==> v > c * n
    ensures v / n == c <==> v == c * n
  {
    var x := v / n;
    assert x * n == v;
    ScaleOrder(x, c, n);
  }

  /** As many records are cited as there are valid tags. */
  lemma CitedRecords(prov: seq<ProvenanceRecord>, found: seq<string>)
    requires Numbered(prov) && Distinct(found)
    ensures |ValidTags(found, prov)| == |Filter(TagIn(found), prov)|
  {
    var cited := Filter(TagIn(found), prov);
    var valid := ValidTags(found, prov);
    FilterDistinct(t => Known(prov, t), found);
    NumberedDistinct(prov);
    FilterDistinct(TagIn(found), prov);
    var tags := TagsOf(cited);
    assert Distinct(tags) by {
      forall i, j | 0 <= i < j < |tags|
        ensures tags[i] != tags[j]
      {
        assert cited[i] in prov && cited[j] in prov;
        var m :| 0 <= m < |prov| && prov[m] == cited[i];
        var n :| 0 <= n < |prov| && prov[n] == cited[j];
        BuiltTagsUnique(prov, m, n);
      }
    }
    forall t
      ensures t in tags <==> t in valid
    {
      if t in valid {
        var i :| 0 <= i < |prov| && prov[i].tag == t;
        assert prov[i] in cited;
        var k :| 0 <= k < |cited| && cited[k] == prov[i];
        assert tags[k] == t;
      }
      if k :| 0 <= k < |tags| && tags[k] == t {
        assert cited[k] in prov;
      }
    }
    assert Elements(tags) == Elements(valid);
    DistinctSize(tags);
    DistinctSize(valid);
  }

  lemma NumberedDistinct(prov: seq<ProvenanceRecord>)
    requires Numbered(prov)
    ensures Distinct(prov)
  {
    forall i, j | 0 <= i < j < |prov|
      ensures prov[i] != prov[j]
    {
      assert prov[i].index != prov[j].index;
    }
  }

  /** An answer that cites only by printed tags of the provenance passes its audit. */
  lemma HonestAnswerPasses(pieces: seq<string>, indices: seq<nat>, prov: seq<ProvenanceRecord>)
    requires Numbered(prov) && forall n :: n in indices ==> 1 <= n <= |prov|
    requires |pieces| == |indices| + 1 && forall p :: p in pieces ==> BracketFree(p)
    ensures var a := Audit(Render(pieces, indices), prov);
            && a.hallucinated == [] && a.valid == a.found == FirstSeen(MakeTags(indices))
            && (indices != [] ==> a.compliance == 1.0)
  {
    TagsOfRender(pieces, indices);
    var found := FirstSeen(MakeTags(indices));
    forall t | t in found
      ensures Known(prov, t)
    {
      var i :| 0 <= i < |indices| && MakeTags(indices)[i] == t;
      assert indices[i] in indices;
      assert prov[indices[i] - 1].tag == t;
    }
    FilterAll(t => Known(prov, t), found);
    FilterNone(t => !Known(prov, t), found);
    if indices != [] {
      assert MakeTags(indices)[0] in found;
      AuditAgrees(Render(pieces, indices), prov);
    }
  }
}
