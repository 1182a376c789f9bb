/** What the chunks of a finished run amount to: the plan is unique, its windows rebuild the
    sentences, and the sizes of chunks and overlaps are bounded. */
module ChunkerProperties {
  import opened Lists
  import opened Runs
  import opened Text
  import opened Chunker

  // ---------------------------------------------------------------- the plan is determined by the input

  /** Two greedy windows with one start end together. */
  lemma GreedyEnd(c: Config, ss: seq<string>, v: Window, w: Window)
    requires Bounded(c, ss, v) && Bounded(c, ss, w) && v.lo == w.lo
    requires v.hi == |ss| || Full(c, ss, v)
    ensures w.hi <= v.hi
  {
    if v.hi < w.hi {
      CostGrows(ss, v.hi + 1, w.hi);
    }
  }

  ghost predicate Closed(c: Config, ss: seq<string>, ws: seq<Window>) {
    Flushed(c, ss, ws) || Plan(c, ss, ws)
  }

  /** The windows of two runs agree wherever both have one. */
  lemma {:induction false} WindowsAgree(c: Config, ss: seq<string>, vs: seq<Window>, ws: seq<Window>)
    requires Closed(c, ss, vs) && Closed(c, ss, ws) && |vs| == |ws|
    ensures vs == ws
  {
    if vs != [] {
      WindowsAgree(c, ss, Init(vs), Init(ws));
      GreedyEnd(c, ss, Last(vs), Last(ws));
      GreedyEnd(c, ss, Last(ws), Last(vs));
      assert vs == Init(vs) + [Last(vs)] && ws == Init(ws) + [Last(ws)];
    }
  }

  lemma {:induction false} FlushedPrefix(c: Config, ss: seq<string>, ws: seq<Window>, n: nat)
    requires Closed(c, ss, ws) && n <= |ws|
    ensures n < |ws| ==> Flushed(c, ss, ws[..n])
    ensures n < |ws| ==> ws[n].hi < |ss| || (n == |ws| - 1 && Plan(c, ss, ws))
    decreases |ws|
  {
    if ws != [] && n < |ws| {
      assert Init(ws)[..n] == ws[..n];
      if n < |ws| - 1 {
        FlushedPrefix(c, ss, Init(ws), n);
        assert Init(ws)[n] == ws[n];
      }
    }
  }

  lemma PlanNotLonger(c: Config, ss: seq<string>, vs: seq<Window>, ws: seq<Window>)
    requires Plan(c, ss, vs) && Plan(c, ss, ws)
    ensures |ws| <= |vs|
  {
    if |vs| < |ws| {
      var n := |vs| - 1;
      FlushedPrefix(c, ss, ws, |vs|);
      FlushedPrefix(c, ss, ws, n);
      WindowsAgree(c, ss, vs, ws[..|vs|]);
      assert false;
    }
  }

  lemma PlanUnique(c: Config, ss: seq<string>, vs: seq<Window>, ws: seq<Window>)
    requires Plan(c, ss, vs) && Plan(c, ss, ws)
    ensures vs == ws
  {
    PlanNotLonger(c, ss, vs, ws);
    PlanNotLonger(c, ss, ws, vs);
    WindowsAgree(c, ss, vs, ws);
  }

  /** Every finished run of the loop, turn by turn, returns the chunks of the plan. */
  lemma RunFollowsPlan(c: Config, ss: seq<string>, n: nat) returns (ws: seq<Window>)
    requires ss != [] && forall s :: s in ss ==> Stripped(s)
    requires RunFrom(c, ss, START, n).i == |ss|
    ensures Plan(c, ss, ws) && Finish(RunFrom(c, ss, START, n)) == ChunksOf(c, ss, ws)
  {
    assert Halts(c, ss);
    HaltsIffFits(c, ss);
    RunTracks(c, ss, n);
    var end := RunFrom(c, ss, START, n);
    var vs: seq<Window>, lo: nat :| Tracks(c, ss, vs, lo, end);
    EndIsPlan(c, ss, vs, lo, end);
    ws := vs + [Window(lo, end.i)];
  }

  ghost predicate Tracked(c: Config, ss: seq<string>, s: State) {
    exists ws: seq<Window>, lo: nat :: Tracks(c, ss, ws, lo, s)
  }

  lemma TurnKeepsTracked(c: Config, ss: seq<string>, s: State)
    requires Fits(c, ss) && forall s :: s in ss ==> Stripped(s)
    requires Tracked(c, ss, s)
    ensures Tracked(c, ss, Turn(c, ss)(s))
  {
    var ws: seq<Window>, lo: nat :| Tracks(c, ss, ws, lo, s);
    if s.i < |ss| {
      var ws', lo' := TurnTracks(c, ss, ws, lo, s);
    }
  }

  lemma RunTracks(c: Config, ss: seq<string>, n: nat)
    requires Fits(c, ss) && forall s :: s in ss ==> Stripped(s)
    ensures Tracked(c, ss, RunFrom(c, ss, START, n))
  {
    var inv := (s: State) => Tracked(c, ss, s);
    forall s | inv(s)
      ensures inv(Turn(c, ss)(s))
    {
      TurnKeepsTracked(c, ss, s);
    }
    StartTracks(c, ss);
    Invariant(Turn(c, ss), inv, START, n);
  }

  // ---------------------------------------------------------------- order, coverage and overlap

  /** Windows before the last one of a plan or of a run. */
  lemma {:induction false} StartsAndEndsIncrease(c: Config, ss: seq<string>, ws: seq<Window>, j: nat, k: nat)
    requires Closed(c, ss, ws) && j < k < |ws|
    ensures ws[j].lo < ws[k].lo <= ws[k - 1].hi && ws[j].hi < ws[k].hi
    decreases |ws|
  {
    var front := Init(ws);
    if k < |ws| - 1 {
      StartsAndEndsIncrease(c, ss, front, j, k);
    } else if j < k - 1 {
      StartsAndEndsIncrease(c, ss, front, j, k - 1);
    }
  }

  /** The sentences of each window of a plan. */
  function Texts(ss: seq<string>, ws: seq<Window>): seq<seq<string>>
    requires forall w :: w in ws ==> w.lo <= w.hi <= |ss|
  {
    seq(|ws|, k requires 0 <= k < |ws| => assert ws[k] in ws; Sentences(ss, ws[k]))
  }

  /** The inverse of chunking: drop from each window the overlap its predecessor left in front of it. */
  function Rebuild(c: Config, texts: seq<seq<string>>): seq<string> {
    if texts == [] then []
    else if |texts| == 1 then texts[0]
    else
      var prev := texts[|texts| - 2];
      var overlap := |prev| - KeepStart(c, prev, 0, |prev|);
      Rebuild(c, Init(texts)) + if overlap <= |Last(texts)| then Last(texts)[overlap..] else []
  }

  lemma {:induction false} WindowsInRange(c: Config, ss: seq<string>, ws: seq<Window>)
    requires Closed(c, ss, ws)
    ensures forall w :: w in ws ==> w.lo < w.hi <= |ss|
  {
    if ws != [] {
      WindowsInRange(c, ss, Init(ws));
      assert forall w :: w in ws ==> w in Init(ws) || w == Last(ws);
    }
  }

  /** From the windows alone the sentence list comes back, each sentence once and in order. */
  lemma {:induction false} RebuildPrefix(c: Config, ss: seq<string>, ws: seq<Window>)
    requires ws != [] && Closed(c, ss, ws)
    requires forall w :: w in ws ==> w.lo < w.hi <= |ss|
    ensures Rebuild(c, Texts(ss, ws)) == ss[..Last(ws).hi]
    decreases |ws|
  {
    var texts, w := Texts(ss, ws), Last(ws);
    assert w in ws && Last(texts) == ss[w.lo..w.hi];
    if |ws| > 1 {
      var front := Init(ws);
      var v := Last(front);
      assert Init(texts) == Texts(ss, front);
      RebuildPrefix(c, ss, front);
      assert texts[|texts| - 2] == ss[v.lo..v.hi];
      OverlapOfWindow(c, ss, v.lo, v.hi, ss[v.lo..v.hi], w.lo);
      RejoinAt(ss, w.lo, v.hi, w.hi);
    }
  }

  lemma RejoinAt<T>(xs: seq<T>, lo: nat, mid: nat, hi: nat)
    requires lo <= mid <= hi <= |xs|
    ensures xs[..mid] + xs[lo..hi][mid - lo..] == xs[..hi]
  {
  }

  lemma Reconstruction(c: Config, ss: seq<string>, ws: seq<Window>)
    requires Plan(c, ss, ws)
    ensures forall w :: w in ws ==> w.lo < w.hi <= |ss|
    ensures Rebuild(c, Texts(ss, ws)) == ss
  {
    WindowsInRange(c, ss, ws);
    RebuildPrefix(c, ss, ws);
  }

  /** Each window but the first opens with the longest suffix of its predecessor within the overlap budget. */
  lemma OverlapIsLongest(c: Config, ss: seq<string>, ws: seq<Window>, k: nat, j: nat)
    requires Plan(c, ss, ws) && 0 < k < |ws| && j <= ws[k - 1].hi <= |ss|
    ensures Span(ss, j, ws[k - 1].hi) <= c.overlapTokens <==> ws[k].lo <= j
  {
    NextStartOf(c, ss, ws, k);
    BeforeKeepStart(c, ss, 0, ws[k - 1].hi, j);
  }

  lemma {:induction false} NextStartOf(c: Config, ss: seq<string>, ws: seq<Window>, k: nat)
    requires Closed(c, ss, ws) && 0 < k < |ws|
    ensures ws[k - 1].hi <= |ss| && ws[k].lo == KeepStart(c, ss, 0, ws[k - 1].hi)
    decreases |ws|
  {
    if k < |ws| - 1 {
      NextStartOf(c, ss, Init(ws), k);
    }
  }

  // ---------------------------------------------------------------- sizes

  /** Sentence tokens of a window never exceed the target, save for a single long sentence. */
  lemma WindowSize(c: Config, ss: seq<string>, ws: seq<Window>, k: nat)
    requires Plan(c, ss, ws) && k < |ws|
    ensures ws[k].lo < ws[k].hi <= |ss|
    ensures ws[k].hi > ws[k].lo + 1 ==> Span(ss, ws[k].lo, ws[k].hi) <= c.chunkTokens
    ensures k < |ws| - 1 ==> Full(c, ss, ws[k])
  {
    if k < |ws| - 1 {
      FlushedPrefix(c, ss, ws, k + 1);
      assert Last(ws[..k + 1]) == ws[k];
    }
  }

  lemma {:induction false} LengthBounds(ss: seq<string>)
    ensures TotalLength(ss) <= 4 * Cost(ss, |ss|) + 3 * |ss|
    ensures (forall s :: s in ss ==> |s| >= 3) ==> TotalLength(ss) >= 4 * Cost(ss, |ss|) - |ss|
  {
    if ss != [] {
      LengthBounds(Init(ss));
      CostOfSlice(ss, 0, |ss|, |ss| - 1);
      CostOfSlice(ss, 0, |ss| - 1, |ss| - 1);
      assert Last(ss) in ss;
    }
  }

  /** Joining n sentences adds at most n - 1 tokens to their sum, and loses at most one. */
  lemma JoinTokens(ss: seq<string>)
    requires ss != []
    ensures CountTokens(Join(ss)) <= Cost(ss, |ss|) + |ss| - 1
    ensures (forall s :: s in ss ==> |s| >= 3) ==> Cost(ss, |ss|) - 1 <= CountTokens(Join(ss))
  {
    JoinLength(ss);
    LengthBounds(ss);
    CostGrows(ss, 0, |ss|);
  }

  /** The upper bound is reached by every number of sentences one character short of another token. */
  lemma {:induction false} JoinTokensTight(n: nat, t: nat, s: string)
    requires n > 0 && t > 0 && |s| == 4 * t + 3
    ensures CountTokens(Join(Copies(s, n))) == Cost(Copies(s, n), n) + n - 1
  {
    JoinLength(Copies(s, n));
    CopiesTotals(n, s);
  }

  lemma {:induction false} CopiesTotals(n: nat, s: string)
    ensures Cost(Copies(s, n), n) == n * CountTokens(s)
    ensures TotalLength(Copies(s, n)) == n * |s|
  {
    if n > 0 {
      CopiesTotals(n - 1, s);
      OneMoreCopy(n, s, Copies(s, n), Copies(s, n - 1));
      TimesOneMore(n, CountTokens(s));
      TimesOneMore(n, |s|);
    }
  }

  lemma {:induction false} OneMoreCopy(n: nat, s: string, ss: seq<string>, fewer: seq<string>)
    requires n > 0 && ss == Copies(s, n) && fewer == Copies(s, n - 1)
    ensures Cost(ss, n) == Cost(fewer, n - 1) + CountTokens(s) && TotalLength(ss) == TotalLength(fewer) + |s|
  {
    assert Init(ss) == fewer && Last(ss) == s;
    assert ss[0..n - 1] == fewer;
    CostOfSlice(ss, 0, n - 1, n - 1);
  }

  lemma TimesOneMore(n: nat, m: nat)
    requires n > 0
    ensures (n - 1) * m + m == n * m
  {
  }

  // ---------------------------------------------------------------- no window is dropped

  /** A window whose tokens exceed the overlap has a text that reaches any minimum up to the overlap. */
  lemma WindowReachesMinimum(c: Config, ss: seq<string>, w: Window)
    requires w.lo < w.hi <= |ss| && w.lo < KeepStart(c, ss, 0, w.hi)
    requires c.minChunkTokens <= c.overlapTokens && forall s :: s in ss ==> |s| >= 3
    ensures CountTokens(Join(Sentences(ss, w))) >= c.minChunkTokens
  {
    BeforeKeepStart(c, ss, 0, w.hi, w.lo);
    WindowCost(ss, w, Sentences(ss, w));
    JoinTokens(Sentences(ss, w));
  }

  lemma WindowCost(ss: seq<string>, w: Window, text: seq<string>)
    requires w.lo < w.hi <= |ss| && text == Sentences(ss, w)
    ensures text != [] && Cost(text, |text|) == Span(ss, w.lo, w.hi) && forall s :: s in text ==> s in ss
  {
    CostOfSlice(ss, w.lo, w.hi, w.hi - w.lo);
  }

  /** The joined text of every window, in order. */
  function WindowTexts(ss: seq<string>, ws: seq<Window>): seq<string>
    requires forall w :: w in ws ==> w.lo <= w.hi <= |ss|
  {
    if ws == [] then []
    else
      assert Last(ws) in ws;
      WindowTexts(ss, Init(ws)) + [Join(Sentences(ss, Last(ws)))]
  }

  /** No flush falls below the minimum: the window after it starts further on. */
  lemma {:induction false} NoFlushDropped(c: Config, ss: seq<string>, ws: seq<Window>, next: nat)
    requires Flushed(c, ss, ws)
    requires c.minChunkTokens <= c.overlapTokens && forall s :: s in ss ==> |s| >= 3
    requires ws != [] ==> Last(ws).lo < next == KeepStart(c, ss, 0, Last(ws).hi)
    ensures forall w :: w in ws ==> w.lo < w.hi <= |ss|
    ensures Cut(c, ss, ws) == WindowTexts(ss, ws)
    decreases |ws|
  {
    WindowsInRange(c, ss, ws);
    if ws != [] {
      var w, front := Last(ws), Init(ws);
      NoFlushDropped(c, ss, front, w.lo);
      WindowReachesMinimum(c, ss, w);
    }
  }

  /** With sentences of three characters or more and a minimum within the overlap,
      the chunks are exactly the joined windows of the plan, which rebuild the sentences (`Reconstruction`). */
  lemma ChunksAreWindows(c: Config, ss: seq<string>, ws: seq<Window>)
    requires Plan(c, ss, ws)
    requires c.minChunkTokens <= c.overlapTokens && forall s :: s in ss ==> |s| >= 3
    ensures forall w :: w in ws ==> w.lo < w.hi <= |ss|
    ensures ChunksOf(c, ss, ws) == WindowTexts(ss, ws)
  {
    WindowsInRange(c, ss, ws);
    NoFlushDropped(c, ss, Init(ws), Last(ws).lo);
  }

  /** Every chunk reads the sentences of a window of the plan, in order, with a space between each two. */
  lemma ChunkReadsWindow(c: Config, ss: seq<string>, ws: seq<Window>, chunk: string) returns (w: Window)
    requires Plan(c, ss, ws) && chunk in ChunksOf(c, ss, ws)
    ensures w in ws && w.lo < w.hi <= |ss| && Spells(chunk, ss[w.lo..w.hi])
  {
    WindowsInRange(c, ss, ws);
    w := Last(ws);
    if chunk != Join(Sentences(ss, w)) {
      w := CutFromWindow(c, ss, Init(ws), chunk);
    }
    JoinSpells(Sentences(ss, w));
  }

  lemma {:induction false} CutFromWindow(c: Config, ss: seq<string>, ws: seq<Window>, chunk: string) returns (w: Window)
    requires Flushed(c, ss, ws) && chunk in Cut(c, ss, ws)
    ensures w in ws && w.lo < w.hi <= |ss| && chunk == Join(Sentences(ss, w))
  {
    w := Last(ws);
    if chunk != Join(Sentences(ss, w)) {
      w := CutFromWindow(c, ss, Init(ws), chunk);
    }
  }

  /** Where nothing is dropped, chunk `k` reads window `k`. */
  lemma ChunkReadsItsWindow(c: Config, ss: seq<string>, ws: seq<Window>, k: nat)
    requires Plan(c, ss, ws) && c.minChunkTokens <= c.overlapTokens && (forall s :: s in ss ==> |s| >= 3) && k < |ws|
    ensures |ChunksOf(c, ss, ws)| == |ws| && ws[k].lo < ws[k].hi <= |ss|
    ensures Spells(ChunksOf(c, ss, ws)[k], ss[ws[k].lo..ws[k].hi])
  {
    WindowsInRange(c, ss, ws);
    ChunksAreWindows(c, ss, ws);
    WindowTextAt(ss, ws, k);
    assert ws[k] in ws;
    JoinSpells(Sentences(ss, ws[k]));
  }

  lemma {:induction false} WindowTextAt(ss: seq<string>, ws: seq<Window>, k: nat)
    requires k < |ws| && forall w :: w in ws ==> w.lo <= w.hi <= |ss|
    ensures |WindowTexts(ss, ws)| == |ws| && ws[k] in ws && WindowTexts(ss, ws)[k] == Join(Sentences(ss, ws[k]))
  {
    assert forall w :: w in Init(ws) ==> w in ws;
    if k < |ws| - 1 {
      WindowTextAt(ss, Init(ws), k);
    } else if |ws| > 1 {
      WindowTextAt(ss, Init(ws), 0);
    }
  }

  // ---------------------------------------------------------------- when text is lost

  /** Sentences as the splitter yields them, of three characters or more. */
  predicate LongEnough(ss: seq<string>) {
    forall s :: s in ss ==> Stripped(s) && |s| >= 3
  }

  /** Every window of the plan is a chunk. */
  ghost predicate NothingLost(c: Config, ss: seq<string>, ws: seq<Window>)
    requires Plan(c, ss, ws)
  {
    (forall w :: w in ws ==> w.lo <= w.hi <= |ss|) && ChunksOf(c, ss, ws) == WindowTexts(ss, ws)
  }

  /** A configuration drops no window, whatever the sentences, exactly when its minimum is within the overlap. */
  lemma NothingLostIff(c: Config)
    ensures (forall ss, ws :: Fits(c, ss) && LongEnough(ss) && Plan(c, ss, ws) ==> NothingLost(c, ss, ws)) <==>
            c.minChunkTokens <= c.overlapTokens
  {
    if c.minChunkTokens <= c.overlapTokens {
      forall ss, ws | Fits(c, ss) && LongEnough(ss) && Plan(c, ss, ws)
        ensures NothingLost(c, ss, ws)
      {
        ChunksAreWindows(c, ss, ws);
      }
    } else {
      var ss, ws := ManyShortOneLong(c);
      assert !NothingLost(c, ss, ws);
    }
  }

  /** One sentence more than the overlap holds, of three characters each, and a long one that forces a flush:
      the joined text measures one token less than its sentences. */
  lemma ManyShortOneLong(c: Config) returns (ss: seq<string>, ws: seq<Window>)
    requires c.minChunkTokens > c.overlapTokens
    ensures Fits(c, ss) && LongEnough(ss) && Plan(c, ss, ws) && |ws| == 2
    ensures |ChunksOf(c, ss, ws)| == 1 && !NothingLost(c, ss, ws)
  {
    var n, long := c.overlapTokens + 1, seq(4 * (c.chunkTokens - c.overlapTokens), _ => 'b');
    ss, ws := Copies("aaa", n) + [long], [Window(0, n), Window(1, n + 1)];
    ShortCosts(c, ss, n);
    ShortsFit(c, ss, n);
    ShortsPlan(c, ss, n, ws);
    ShortText(n);
    assert Sentences(ss, ws[0]) == Copies("aaa", n);
    OnlyLastKept(c, ss, ws);
  }

  lemma ShortText(n: nat)
    requires n >= 2
    ensures CountTokens(Join(Copies("aaa", n))) == n - 1
  {
    JoinLength(Copies("aaa", n));
    CopiesTotals(n, "aaa");
  }

  /** Sentences of one token each, and one of as many tokens as an overlap leaves room for. */
  ghost predicate ShortsThenLong(c: Config, ss: seq<string>, n: nat) {
    && |ss| == n + 1 && n == c.overlapTokens + 1
    && (forall k :: 0 <= k <= n ==> Cost(ss, k) == k)
    && Cost(ss, n + 1) == c.chunkTokens + 1
  }

  lemma ShortCosts(c: Config, ss: seq<string>, n: nat)
    requires n == c.overlapTokens + 1
    requires ss == Copies("aaa", n) + [seq(4 * (c.chunkTokens - c.overlapTokens), _ => 'b')]
    ensures ShortsThenLong(c, ss, n) && LongEnough(ss)
  {
    forall k | 0 <= k <= n
      ensures Cost(ss, k) == k
    {
      UnitCosts(ss, k);
    }
  }

  lemma {:induction false} UnitCosts(ss: seq<string>, k: nat)
    requires k <= |ss| && forall i :: 0 <= i < k ==> ss[i] == "aaa"
    ensures Cost(ss, k) == k
  {
    if k > 0 {
      UnitCosts(ss, k - 1);
    }
  }

  lemma ShortsFit(c: Config, ss: seq<string>, n: nat)
    requires ShortsThenLong(c, ss, n)
    ensures Fits(c, ss) && KeepStart(c, ss, 0, n) == 1
  {
    BeforeKeepStart(c, ss, 0, n, 0);
    BeforeKeepStart(c, ss, 0, n, 1);
    forall i | 0 <= i < |ss|
      ensures FitsAt(c, ss, i)
    {
      assert Cost(ss, i) == i && Cost(ss, n) == n;
      assert i < n ==> Cost(ss, i + 1) == i + 1;
    }
  }

  lemma ShortsPlan(c: Config, ss: seq<string>, n: nat, ws: seq<Window>)
    requires ShortsThenLong(c, ss, n) && KeepStart(c, ss, 0, n) == 1 && ws == [Window(0, n), Window(1, n + 1)]
    ensures Plan(c, ss, ws)
  {
    assert Cost(ss, 0) == 0 && Cost(ss, 1) == 1 && Cost(ss, n) == n;
    TwoWindows(c, ss, ws);
  }

  /** Two windows make a plan. */
  lemma TwoWindows(c: Config, ss: seq<string>, ws: seq<Window>)
    requires |ws| == 2 && ws[0].lo == 0 && Bounded(c, ss, ws[0]) && Full(c, ss, ws[0])
    requires Bounded(c, ss, ws[1]) && ws[1].hi == |ss| && 0 < ws[1].lo == KeepStart(c, ss, 0, ws[0].hi)
    ensures Plan(c, ss, ws)
  {
    var first := [ws[0]];
    assert Init(ws) == first && Init(first) == [];
    assert Last(first) == ws[0] && Follows(c, ss, Init(first), Last(first));
    assert Flushed(c, ss, Init(first)) && Flushed(c, ss, first);
    assert Follows(c, ss, first, ws[1]);
  }

  lemma OnlyLastKept(c: Config, ss: seq<string>, ws: seq<Window>)
    requires Plan(c, ss, ws) && |ws| == 2 && ws[0].lo <= ws[0].hi <= |ss|
    requires CountTokens(Join(Sentences(ss, ws[0]))) < c.minChunkTokens
    ensures ws[1].lo <= ws[1].hi <= |ss| && ChunksOf(c, ss, ws) == [Join(Sentences(ss, ws[1]))]
    ensures !NothingLost(c, ss, ws)
  {
    var first := [ws[0]];
    assert Init(ws) == first && Init(first) == [];
    assert Cut(c, ss, first) == [];
    if NothingLost(c, ss, ws) {
      assert |WindowTexts(ss, ws)| == 1 + |WindowTexts(ss, first)|;
    }
  }

  /** With sizes that the constructor accepts, a first sentence of 240 characters is lost in front of one of 2000. */
  lemma FirstSentenceLost(c: Config, a: string, b: string, ss: seq<string>, ws: seq<Window>)
    requires c == SemanticChunker(512, 52, 80) && |a| == 240 && |b| == 2000 && ss == [a, b]
    requires ws == [Window(0, 1), Window(1, 2)]
    ensures Fits(c, ss) && Plan(c, ss, ws) && ChunksOf(c, ss, ws) == [b]
  {
    assert Cost(ss, 0) == 0 && Cost(ss, 1) == 60 && Cost(ss, 2) == 560;
    BeforeKeepStart(c, ss, 0, 1, 0);
    assert KeepStart(c, ss, 0, 0) == 0;
    TwoWindows(c, ss, ws);
    assert Sentences(ss, ws[0]) == [a] && Sentences(ss, ws[1]) == [b];
    OnlyLastKept(c, ss, ws);
  }
}
