/** The parts of Python's `str` the models rely on: `strip` and `" ".join`. */
module Text {
  import opened Lists

  /** ASCII whitespace as `str.strip` sees it. */
  predicate IsSpace(c: char) {
    c == ' ' || '\t' <= c <= '\r' || '\U{1c}' <= c <= '\U{1f}'
  }

  /** Blank, tab, line feed, vertical tab, form feed, carriage return and the four separators. */
  lemma SpacesAre(c: char)
    ensures IsSpace(c) <==> c in [' ', '\t', '\n', '\U{0b}', '\U{0c}', '\r', '\U{1c}', '\U{1d}', '\U{1e}', '\U{1f}']
  {
  }

  function StripLeft(s: string): (r: string)
    ensures r == "" || !IsSpace(r[0])
    ensures |r| <= |s| && s[|s| - |r|..] == r
  {
    if s != "" && IsSpace(s[0]) then StripLeft(s[1..]) else s
  }

  function StripRight(s: string): (r: string)
    ensures r <= s
    ensures r == "" || !IsSpace(r[|r| - 1])
  {
    if s != "" && IsSpace(s[|s| - 1]) then StripRight(s[..|s| - 1]) else s
  }

  function Strip(s: string): (r: string)
    ensures r == "" || (!IsSpace(r[0]) && !IsSpace(r[|r| - 1]))
  {
    StripRight(StripLeft(s))
  }

  predicate Stripped(s: string) {
    s != "" && !IsSpace(s[0]) && !IsSpace(s[|s| - 1])
  }

  /** `strip` changes nothing exactly when the ends carry no whitespace. */
  lemma StripFixed(s: string)
    ensures Strip(s) == s <==> s == "" || Stripped(s)
  {
  }

  predicate AllSpace(s: string) {
    forall i :: 0 <= i < |s| ==> IsSpace(s[i])
  }

  lemma AllSpaceButFirst(s: string, rest: string)
    requires s != "" && rest == s[1..]
    ensures AllSpace(s) <==> IsSpace(s[0]) && AllSpace(rest)
  {
    assert forall i :: 0 < i < |s| ==> s[i] == rest[i - 1];
  }

  lemma AllSpaceButLast(s: string, rest: string)
    requires s != "" && rest == s[..|s| - 1]
    ensures AllSpace(s) <==> IsSpace(s[|s| - 1]) && AllSpace(rest)
  {
    assert forall i :: 0 <= i < |rest| ==> s[i] == rest[i];
  }

  lemma {:induction false} StripsToNothing(s: string)
    ensures Strip(s) == "" <==> AllSpace(s)
  {
    LeftStripsSpaces(s);
    if Strip(s) == "" && StripLeft(s) != "" {
      RightStripsSpaces(StripLeft(s));
    }
  }

  lemma {:induction false} LeftStripsSpaces(s: string)
    ensures StripLeft(s) == "" <==> AllSpace(s)
  {
    if s != "" {
      AllSpaceButFirst(s, s[1..]);
      if IsSpace(s[0]) {
        LeftStripsSpaces(s[1..]);
      }
    }
  }

  lemma {:induction false} RightStripsSpaces(s: string)
    requires StripRight(s) == ""
    ensures AllSpace(s)
  {
    if s != "" {
      AllSpaceButLast(s, s[..|s| - 1]);
      RightStripsSpaces(s[..|s| - 1]);
    }
  }

  /** `" ".join(ss)`. */
  function Join(ss: seq<string>): string {
    if ss == [] then ""
    else if |ss| == 1 then ss[0]
    else Join(Init(ss)) + " " + Last(ss)
  }

  function TotalLength(ss: seq<string>): nat {
    if ss == [] then 0 else TotalLength(Init(ss)) + |Last(ss)|
  }

  lemma {:induction false} JoinLength(ss: seq<string>)
    requires ss != []
    ensures |Join(ss)| == TotalLength(ss) + |ss| - 1
  {
    if |ss| == 1 {
      assert Init(ss) == [];
    } else {
      JoinLength(Init(ss));
    }
  }

  lemma {:induction false} JoinStripped(ss: seq<string>)
    requires ss != [] && forall s :: s in ss ==> Stripped(s)
    ensures Stripped(Join(ss)) && Strip(Join(ss)) == Join(ss)
  {
    assert Stripped(Last(ss)) by { assert Last(ss) in ss; }
    if |ss| == 1 {
      assert Join(ss) == Last(ss);
    } else {
      var front := Init(ss);
      forall s | s in front
        ensures Stripped(s)
      {
        assert s in ss;
      }
      JoinStripped(front);
      StrippedEnds(Join(front), Last(ss));
    }
    StripFixed(Join(ss));
  }

  lemma StrippedEnds(left: string, right: string)
    requires Stripped(left) && Stripped(right)
    ensures Stripped(left + " " + right)
  {
    var all := left + " " + right;
    assert all[0] == left[0] && all[|all| - 1] == right[|right| - 1];
  }

  // ---------------------------------------------------------------- what the two functions yield

  /** `strip` cuts white space off both ends and nothing else. */
  lemma {:induction false} StripCuts(s: string) returns (i: nat, j: nat)
    ensures i <= j <= |s| && Strip(s) == s[i..j] && AllSpace(s[..i]) && AllSpace(s[j..])
  {
    i := LeftCut(s);
    j := RightCutFrom(s, i, StripLeft(s));
  }

  lemma {:induction false} RightCutFrom(s: string, i: nat, rest: string) returns (j: nat)
    requires i <= |s| && rest == s[i..]
    ensures i <= j <= |s| && StripRight(rest) == s[i..j] && AllSpace(s[j..])
  {
    j := RightCut(rest);
    CutOfRest(s, i, j);
    j := i + j;
  }

  lemma CutOfRest(s: string, i: nat, n: nat)
    requires i + n <= |s|
    ensures s[i..][..n] == s[i..i + n] && s[i..][n..] == s[i + n..]
  {
  }

  lemma {:induction false} LeftCut(s: string) returns (i: nat)
    ensures i <= |s| && StripLeft(s) == s[i..] && AllSpace(s[..i])
  {
    i := 0;
    if s != "" && IsSpace(s[0]) {
      i := LeftCut(s[1..]);
      CutFurther(s, s[1..], i);
      i := i + 1;
    }
  }

  lemma CutFurther(s: string, rest: string, i: nat)
    requires s != "" && rest == s[1..] && i <= |rest| && IsSpace(s[0]) && AllSpace(rest[..i])
    ensures rest[i..] == s[i + 1..] && AllSpace(s[..i + 1])
  {
    assert s[..i + 1][1..] == rest[..i];
    AllSpaceButFirst(s[..i + 1], rest[..i]);
  }

  lemma {:induction false} RightCut(s: string) returns (j: nat)
    ensures j <= |s| && StripRight(s) == s[..j] && AllSpace(s[j..])
  {
    j := |s|;
    if s != "" && IsSpace(s[|s| - 1]) {
      var front := s[..|s| - 1];
      j := RightCut(front);
      AllSpaceButLast(s[j..], front[j..]);
    }
  }

  /** The text reads the strings in order, one space between each two, and nothing else. */
  ghost predicate Spells(text: string, ss: seq<string>) {
    && |text| == TotalLength(ss) + |ss| - 1
    && forall k :: 0 <= k < |ss| ==> ReadsAt(text, ss, k)
  }

  /** String `k` stands behind the ones before it and a space after each of those. */
  ghost predicate ReadsAt(text: string, ss: seq<string>, k: nat)
    requires k < |ss|
  {
    var p := TotalLength(ss[..k]) + k;
    && p + |ss[k]| <= |text| && text[p..p + |ss[k]|] == ss[k]
    && (k > 0 ==> text[p - 1] == ' ')
  }

  lemma {:induction false} JoinSpells(ss: seq<string>)
    requires ss != []
    ensures Spells(Join(ss), ss)
  {
    JoinLength(ss);
    var front, last := Init(ss), Last(ss);
    if front == [] {
      assert TotalLength(ss[..0]) == 0;
    } else {
      JoinSpells(front);
      JoinLength(front);
      forall k | 0 <= k < |ss|
        ensures ReadsAt(Join(ss), ss, k)
      {
        if k < |front| {
          ReadsFurther(Join(front), front, k, Join(ss), ss);
        } else {
          assert ss[..k] == front;
        }
      }
    }
  }

  lemma ReadsFurther(text: string, front: seq<string>, k: nat, longer: string, ss: seq<string>)
    requires k < |front| && ReadsAt(text, front, k) && text <= longer && front <= ss
    ensures ReadsAt(longer, ss, k)
  {
    assert ss[..k] == front[..k] && ss[k] == front[k];
  }
}
