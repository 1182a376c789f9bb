/** The sentence-aware sliding window of `app/ingestion/chunker.py`.
    The loop does not advance after a flush, so it need not end; `HaltsIffFits` says exactly when it does. */
module Chunker {
  import opened Lists
  import opened Runs
  import opened Text

  // ---------------------------------------------------------------- configuration

  datatype SemanticChunker = SemanticChunker(chunkTokens: int, overlapTokens: int, minChunkTokens: int) {
    predicate Valid() {
      512 <= chunkTokens <= 1024 && chunkTokens <= 10 * overlapTokens && 5 * overlapTokens <= chunkTokens
    }
  }

  datatype ConfigError = ChunkTokensOutOfRange | OverlapRatioOutOfRange

  type Config = c: SemanticChunker | c.Valid() witness SemanticChunker(768, 120, 80)

  const DEFAULT: Config := SemanticChunker(768, 120, 80)

  /** The two range checks of the constructor, in order. */
  function NewChunker(chunkTokens: int, overlapTokens: int, minChunkTokens: int): (r: Result<SemanticChunker, ConfigError>)
    ensures r.Ok? <==> SemanticChunker(chunkTokens, overlapTokens, minChunkTokens).Valid()
    ensures r.Ok? ==> r.value == SemanticChunker(chunkTokens, overlapTokens, minChunkTokens)
                      && 0 < overlapTokens < chunkTokens
    ensures r == Err(OverlapRatioOutOfRange) ==> 512 <= chunkTokens <= 1024
  {
    if !(512 <= chunkTokens <= 1024) then Err(ChunkTokensOutOfRange)
    else if !(chunkTokens <= 10 * overlapTokens && 5 * overlapTokens <= chunkTokens) then Err(OverlapRatioOutOfRange)
    else Ok(SemanticChunker(chunkTokens, overlapTokens, minChunkTokens))
  }

  // ---------------------------------------------------------------- token costs

  function CountTokens(text: string): (n: nat)
    ensures n >= 1
  {
    if |text| / 4 > 1 then |text| / 4 else 1
  }

  /** Tokens of the first `k` sentences. */
  function Cost(ss: seq<string>, k: nat): nat
    requires k <= |ss|
  {
    if k == 0 then 0 else Cost(ss, k - 1) + CountTokens(ss[k - 1])
  }

  /** Tokens of `ss[lo..hi]`. */
  function Span(ss: seq<string>, lo: nat, hi: nat): int
    requires lo <= |ss| && hi <= |ss|
  {
    Cost(ss, hi) - Cost(ss, lo)
  }

  lemma {:induction false} CostGrows(ss: seq<string>, lo: nat, hi: nat)
    requires lo <= hi <= |ss|
    ensures Span(ss, lo, hi) >= hi - lo
  {
    if lo < hi {
      CostGrows(ss, lo, hi - 1);
    }
  }

  lemma {:induction false} CostOfSlice(ss: seq<string>, lo: nat, hi: nat, k: nat)
    requires lo <= hi <= |ss| && k <= hi - lo
    ensures Cost(ss[lo..hi], k) == Span(ss, lo, lo + k)
  {
    if k > 0 {
      CostOfSlice(ss, lo, hi, k - 1);
      assert ss[lo..hi][k - 1] == ss[lo + k - 1];
    }
  }

  /** Where the longest suffix of `ss[lo..hi]` within the overlap budget begins. */
  function KeepStart(c: Config, ss: seq<string>, lo: nat, hi: nat): (k: nat)
    requires lo <= hi <= |ss|
    ensures lo <= k <= hi
    ensures Span(ss, k, hi) <= c.overlapTokens
    ensures k > lo ==> Span(ss, k - 1, hi) > c.overlapTokens
    decreases hi - lo
  {
    if Span(ss, lo, hi) <= c.overlapTokens then lo else KeepStart(c, ss, lo + 1, hi)
  }

  lemma BeforeKeepStart(c: Config, ss: seq<string>, lo: nat, hi: nat, k: nat)
    requires lo <= k <= hi <= |ss|
    ensures k < KeepStart(c, ss, lo, hi) <==> Span(ss, k, hi) > c.overlapTokens
  {
    var s := KeepStart(c, ss, lo, hi);
    if k < s {
      CostGrows(ss, k, s - 1);
    } else {
      CostGrows(ss, s, k);
    }
  }

  /** The kept suffix of a window is that of the sentences it was cut from. */
  lemma KeepStartOfSlice(c: Config, ss: seq<string>, lo: nat, hi: nat, w: seq<string>)
    requires lo <= hi <= |ss| && w == ss[lo..hi]
    ensures KeepStart(c, w, 0, |w|) == KeepStart(c, ss, lo, hi) - lo
  {
    var a, b := KeepStart(c, w, 0, |w|), KeepStart(c, ss, lo, hi) - lo;
    SpanOfSlice(ss, lo, hi, w, a);
    SpanOfSlice(ss, lo, hi, w, b);
    BeforeKeepStart(c, w, 0, |w|, b);
    BeforeKeepStart(c, ss, lo, hi, lo + a);
  }

  lemma SpanOfSlice(ss: seq<string>, lo: nat, hi: nat, w: seq<string>, k: nat)
    requires lo <= hi <= |ss| && k <= hi - lo && w == ss[lo..hi]
    ensures Span(w, k, |w|) == Span(ss, lo + k, hi)
  {
    CostOfSlice(ss, lo, hi, hi - lo);
    CostOfSlice(ss, lo, hi, k);
  }

  /** Sentences in front of a window that covers the kept suffix do not matter to it. */
  lemma KeepStartFromWindow(c: Config, ss: seq<string>, lo: nat, hi: nat)
    requires lo <= hi <= |ss| && lo <= KeepStart(c, ss, 0, hi)
    ensures KeepStart(c, ss, lo, hi) == KeepStart(c, ss, 0, hi)
  {
    BeforeKeepStart(c, ss, 0, hi, KeepStart(c, ss, lo, hi));
    BeforeKeepStart(c, ss, lo, hi, KeepStart(c, ss, 0, hi));
  }

  // ---------------------------------------------------------------- one turn of the loop

  datatype State = State(i: nat, current: seq<string>, currentTokens: nat, chunks: seq<string>)

  const START := State(0, [], 0, [])

  /** The chunks after a flush: text below the minimum is dropped. */
  function AfterFlush(c: Config, chunks: seq<string>, text: string): seq<string> {
    if CountTokens(text) >= c.minChunkTokens then chunks + [text] else chunks
  }

  /** Sentence `i` would overflow a non-empty window. */
  predicate Flushes(c: Config, ss: seq<string>, s: State)
    requires s.i < |ss|
  {
    s.currentTokens + CountTokens(ss[s.i]) > c.chunkTokens && s.current != []
  }

  /** Emit the window and keep its overlap; `i` stays. */
  function Flush(c: Config, s: State): State {
    var n := |s.current|;
    var k := KeepStart(c, s.current, 0, n);
    CostGrows(s.current, k, n);
    State(s.i, s.current[k..], Span(s.current, k, n), AfterFlush(c, s.chunks, Strip(Join(s.current))))
  }

  function Append(ss: seq<string>, s: State): State
    requires s.i < |ss|
  {
    State(s.i + 1, s.current + [ss[s.i]], s.currentTokens + CountTokens(ss[s.i]), s.chunks)
  }

  function Step(c: Config, ss: seq<string>, s: State): State
    requires s.i < |ss|
  {
    if Flushes(c, ss, s) then Flush(c, s) else Append(ss, s)
  }

  /** One turn of the loop, which stops once every sentence is consumed. */
  function Turn(c: Config, ss: seq<string>): State -> State {
    (s: State) => if s.i < |ss| then Step(c, ss, s) else s
  }

  /** The state after at most `n` turns from `s`. */
  function RunFrom(c: Config, ss: seq<string>, s: State, n: nat): State {
    Iterate(Turn(c, ss), s, n)
  }

  /** What is returned once every sentence has been consumed. */
  function Finish(s: State): seq<string> {
    var text := Strip(Join(s.current));
    if s.current != [] && text != "" then s.chunks + [text] else s.chunks
  }

  // ---------------------------------------------------------------- when the loop ends

  /** Sentence `i` fits beside the longest overlap the sentences before it can leave. */
  predicate FitsAt(c: Config, ss: seq<string>, i: nat)
    requires i < |ss|
  {
    var k := KeepStart(c, ss, 0, i);
    k == i || Span(ss, k, i + 1) <= c.chunkTokens
  }

  /** Checkable before the call: no sentence is too long for the overlap in front of it. */
  predicate Fits(c: Config, ss: seq<string>) {
    FitsUpTo(c, ss, |ss|)
  }

  predicate FitsUpTo(c: Config, ss: seq<string>, n: nat)
    requires n <= |ss|
  {
    forall i :: 0 <= i < n ==> FitsAt(c, ss, i)
  }

  ghost predicate Halts(c: Config, ss: seq<string>) {
    exists n: nat :: RunFrom(c, ss, START, n).i == |ss|
  }

  /** `current` holds `ss[lo..i]`, and everything an overlap could keep is in it. */
  ghost predicate At(c: Config, ss: seq<string>, s: State, lo: nat) {
    && lo <= s.i <= |ss|
    && s.current == ss[lo..s.i]
    && s.currentTokens == Span(ss, lo, s.i)
    && lo <= KeepStart(c, ss, 0, s.i)
    && FitsUpTo(c, ss, s.i)
  }

  /** Cutting the overlap out of `current` is cutting it out of the sentences consumed so far. */
  lemma OverlapOfWindow(c: Config, ss: seq<string>, lo: nat, i: nat, w: seq<string>, k: nat)
    requires lo <= i <= |ss| && w == ss[lo..i]
    requires lo <= k == KeepStart(c, ss, 0, i)
    ensures KeepStart(c, w, 0, |w|) == k - lo
    ensures Span(w, k - lo, |w|) == Span(ss, k, i)
  {
    KeepStartOfSlice(c, ss, lo, i, w);
    KeepStartFromWindow(c, ss, lo, i);
    SpanOfSlice(ss, lo, i, w, k - lo);
  }

  lemma SliceOfSlice<T>(xs: seq<T>, w: seq<T>, lo: nat, i: nat, k: nat)
    requires lo <= k <= i <= |xs| && w == xs[lo..i]
    ensures w[k - lo..] == xs[k..i]
  {
  }

  /** An append can only happen because sentence `i` fits. */
  lemma AppendFits(c: Config, ss: seq<string>, lo: nat, i: nat)
    requires lo <= i < |ss| && lo <= KeepStart(c, ss, 0, i)
    requires lo == i || Span(ss, lo, i + 1) <= c.chunkTokens
    ensures FitsAt(c, ss, i)
    ensures lo <= KeepStart(c, ss, 0, i + 1)
  {
    CostGrows(ss, lo, KeepStart(c, ss, 0, i));
    if lo > 0 {
      BeforeKeepStart(c, ss, 0, i, lo - 1);
      BeforeKeepStart(c, ss, 0, i + 1, lo - 1);
    }
  }

  /** The window start after one turn. */
  ghost function StartAfter(c: Config, ss: seq<string>, s: State, lo: nat): nat
    requires s.i < |ss|
  {
    if Flushes(c, ss, s) then KeepStart(c, ss, 0, s.i) else lo
  }

  lemma StepKeepsAt(c: Config, ss: seq<string>, s: State, lo: nat)
    requires At(c, ss, s, lo) && s.i < |ss|
    ensures At(c, ss, Step(c, ss, s), StartAfter(c, ss, s, lo))
  {
    if Flushes(c, ss, s) {
      FlushKeepsAt(c, ss, s, lo, KeepStart(c, ss, 0, s.i));
    } else {
      AppendFits(c, ss, lo, s.i);
      AppendKeepsAt(c, ss, s, lo);
    }
  }

  lemma FlushKeepsAt(c: Config, ss: seq<string>, s: State, lo: nat, k: nat)
    requires At(c, ss, s, lo) && k == KeepStart(c, ss, 0, s.i)
    ensures At(c, ss, Flush(c, s), k)
  {
    OverlapOfWindow(c, ss, lo, s.i, s.current, k);
    SliceOfSlice(ss, s.current, lo, s.i, k);
  }

  lemma AppendKeepsAt(c: Config, ss: seq<string>, s: State, lo: nat)
    requires At(c, ss, s, lo) && s.i < |ss|
    requires FitsAt(c, ss, s.i) && lo <= KeepStart(c, ss, 0, s.i + 1)
    ensures At(c, ss, Append(ss, s), lo)
  {
    FitsOneMore(c, ss, s.i);
    WindowGrows(ss, lo, s.i, s.current);
  }

  lemma WindowGrows(ss: seq<string>, lo: nat, i: nat, w: seq<string>)
    requires lo <= i < |ss| && w == ss[lo..i]
    ensures w + [ss[i]] == ss[lo..i + 1]
    ensures Span(ss, lo, i) + CountTokens(ss[i]) == Span(ss, lo, i + 1)
  {
  }

  lemma FitsOneMore(c: Config, ss: seq<string>, i: nat)
    requires i < |ss| && FitsUpTo(c, ss, i) && FitsAt(c, ss, i)
    ensures FitsUpTo(c, ss, i + 1)
  {
  }

  ghost predicate Reachable(c: Config, ss: seq<string>, s: State) {
    exists lo: nat :: At(c, ss, s, lo)
  }

  lemma TurnKeepsReachable(c: Config, ss: seq<string>, s: State)
    requires Reachable(c, ss, s)
    ensures Reachable(c, ss, Turn(c, ss)(s))
  {
    var lo: nat :| At(c, ss, s, lo);
    if s.i < |ss| {
      StepKeepsAt(c, ss, s, lo);
      assert At(c, ss, Step(c, ss, s), StartAfter(c, ss, s, lo));
    }
  }

  lemma RunKeepsReachable(c: Config, ss: seq<string>, n: nat)
    ensures Reachable(c, ss, RunFrom(c, ss, START, n))
  {
    var inv := (s: State) => Reachable(c, ss, s);
    forall s | inv(s)
      ensures inv(Turn(c, ss)(s))
    {
      TurnKeepsReachable(c, ss, s);
    }
    assert At(c, ss, START, 0);
    Invariant(Turn(c, ss), inv, START, n);
  }

  /** When sentence `i` fits, a flush drops at least one sentence. */
  lemma FittingFlushShrinks(c: Config, ss: seq<string>, s: State, lo: nat)
    requires At(c, ss, s, lo) && s.i < |ss| && Flushes(c, ss, s) && FitsAt(c, ss, s.i)
    ensures lo < KeepStart(c, ss, 0, s.i)
    ensures Step(c, ss, s).i == s.i
  {
  }

  /** From any reached state the rest of the run ends, by (sentences left, length of `current`). */
  lemma {:induction false} FitsRunsOut(c: Config, ss: seq<string>, s: State, lo: nat) returns (n: nat)
    requires Fits(c, ss) && At(c, ss, s, lo)
    ensures RunFrom(c, ss, s, n).i == |ss|
    decreases |ss| - s.i, s.i - lo
  {
    n := 0;
    if s.i < |ss| {
      StepKeepsAt(c, ss, s, lo);
      if Flushes(c, ss, s) {
        FittingFlushShrinks(c, ss, s, lo);
      }
      n := FitsRunsOut(c, ss, Step(c, ss, s), StartAfter(c, ss, s, lo));
      n := n + 1;
    }
  }

  /** The loop ends on exactly the inputs that fit. */
  lemma HaltsIffFits(c: Config, ss: seq<string>)
    ensures Halts(c, ss) <==> Fits(c, ss)
  {
    if Fits(c, ss) {
      var n := FitsRunsOut(c, ss, START, 0);
    }
    if Halts(c, ss) {
      var n: nat :| RunFrom(c, ss, START, n).i == |ss|;
      RunKeepsReachable(c, ss, n);
    }
  }

  /** Sentences no longer than a window less its overlap always fit. */
  lemma ShortSentencesFit(c: Config, ss: seq<string>)
    requires forall s :: s in ss ==> CountTokens(s) <= c.chunkTokens - c.overlapTokens
    ensures Fits(c, ss)
  {
    forall i | 0 <= i < |ss|
      ensures FitsAt(c, ss, i)
    {
      assert ss[i] in ss;
    }
  }

  function Copies(text: string, n: nat): seq<string> {
    seq(n, _ => text)
  }

  /** A window within the overlap budget that the next sentence overflows. */
  predicate Stuck(c: Config, ss: seq<string>, s: State) {
    && s.i < |ss| && s.current != []
    && s.currentTokens == Cost(s.current, |s.current|) <= c.overlapTokens
    && s.currentTokens + CountTokens(ss[s.i]) > c.chunkTokens
  }

  /** Every flush of a stuck window keeps it whole: position, window and token count repeat,
      and the same text is appended again and again. */
  lemma {:induction false} StuckForever(c: Config, ss: seq<string>, s: State, n: nat, t: State, text: string)
    requires Stuck(c, ss, s) && t == RunFrom(c, ss, s, n) && text == Strip(Join(s.current))
    ensures t.i == s.i && t.current == s.current && t.currentTokens == s.currentTokens
    ensures t.chunks == s.chunks + Copies(text, if CountTokens(text) >= c.minChunkTokens then n else 0)
    decreases n
  {
    if n > 0 {
      var s' := s.(chunks := AfterFlush(c, s.chunks, text));
      StuckStep(c, ss, s);
      StuckForever(c, ss, s', n - 1, t, text);
    }
  }

  lemma StuckStep(c: Config, ss: seq<string>, s: State)
    requires Stuck(c, ss, s)
    ensures Step(c, ss, s) == s.(chunks := AfterFlush(c, s.chunks, Strip(Join(s.current))))
    ensures Stuck(c, ss, Step(c, ss, s))
  {
    assert KeepStart(c, s.current, 0, |s.current|) == 0;
    assert s.current[0..] == s.current;
  }

  /** With the default settings a 100-token sentence followed by a 700-token one never finishes. */
  lemma DefaultsCanHang()
    ensures var ss := [seq(400, _ => 'a'), seq(2800, _ => 'b')];
            CountTokens(ss[0]) == 100 && CountTokens(ss[1]) == 700 && !Halts(DEFAULT, ss)
  {
    var ss := [seq(400, _ => 'a'), seq(2800, _ => 'b')];
    assert Cost(ss, 1) == 100 && Cost(ss, 2) == 800;
    assert KeepStart(DEFAULT, ss, 0, 1) == 0;
    assert !FitsAt(DEFAULT, ss, 1);
    HaltsIffFits(DEFAULT, ss);
  }

  // ---------------------------------------------------------------- the windows of a finished run

  /** The sentences `ss[lo..hi]` that were in `current` when a chunk was cut. */
  datatype Window = Window(lo: nat, hi: nat)

  predicate Bounded(c: Config, ss: seq<string>, w: Window) {
    w.lo < w.hi <= |ss| && (w.hi == w.lo + 1 || Span(ss, w.lo, w.hi) <= c.chunkTokens)
  }

  /** The next sentence would have overflowed the window. */
  predicate Full(c: Config, ss: seq<string>, w: Window) {
    w.lo <= w.hi < |ss| && Span(ss, w.lo, w.hi + 1) > c.chunkTokens
  }

  /** Where the window after `ws` begins: the longest suffix of what was consumed that fits the overlap. */
  function NextStart(c: Config, ss: seq<string>, ws: seq<Window>): nat
    requires ws != [] ==> Last(ws).hi <= |ss|
  {
    if ws == [] then 0 else KeepStart(c, ss, 0, Last(ws).hi)
  }

  /** `w` follows `ws`: it starts with their overlap, and both its ends lie further on. */
  ghost predicate Follows(c: Config, ss: seq<string>, ws: seq<Window>, w: Window) {
    && Bounded(c, ss, w)
    && (ws != [] ==> Last(ws).hi < w.hi && Last(ws).lo < w.lo)
    && w.lo == NextStart(c, ss, ws)
  }

  /** The windows cut by flushes, each greedy. */
  ghost predicate Flushed(c: Config, ss: seq<string>, ws: seq<Window>) {
    ws == [] ||
    (Flushed(c, ss, Init(ws)) && Follows(c, ss, Init(ws), Last(ws)) && Full(c, ss, Last(ws)))
  }

  /** A complete chunking: overlapping greedy windows from the first sentence to the last. */
  ghost predicate Plan(c: Config, ss: seq<string>, ws: seq<Window>) {
    ws != [] && Flushed(c, ss, Init(ws)) && Follows(c, ss, Init(ws), Last(ws)) && Last(ws).hi == |ss|
  }

  function Sentences(ss: seq<string>, w: Window): seq<string>
    requires w.lo <= w.hi <= |ss|
  {
    ss[w.lo..w.hi]
  }

  /** The chunks cut by flushes: the window texts that reach the minimum. */
  ghost function Cut(c: Config, ss: seq<string>, ws: seq<Window>): seq<string>
    requires Flushed(c, ss, ws)
  {
    if ws == [] then [] else AfterFlush(c, Cut(c, ss, Init(ws)), Join(Sentences(ss, Last(ws))))
  }

  /** All chunks of a plan; the last window is emitted whatever its size. */
  ghost function ChunksOf(c: Config, ss: seq<string>, ws: seq<Window>): seq<string>
    requires Plan(c, ss, ws)
  {
    Cut(c, ss, Init(ws)) + [Join(Sentences(ss, Last(ws)))]
  }

  // ---------------------------------------------------------------- the loops

  /** The inner loop: sentences are taken from the back while they fit the overlap budget. */
  method KeepOverlap(c: Config, current: seq<string>) returns (kept: seq<string>, acc: nat)
    ensures var k := KeepStart(c, current, 0, |current|);
            kept == current[k..] && acc == Span(current, k, |current|)
  {
    kept, acc := [], 0;
    var j := |current|;
    while j > 0
      invariant 0 <= j <= |current| && kept == current[j..]
      invariant acc == Span(current, j, |current|) <= c.overlapTokens
    {
      SpanStep(current, j - 1);
      var tokens := CountTokens(current[j - 1]);
      if acc + tokens > c.overlapTokens {
        break;
      }
      kept, acc, j := [current[j - 1]] + kept, acc + tokens, j - 1;
    }
    IsKeepStart(c, current, j);
  }

  lemma SpanStep(w: seq<string>, j: nat)
    requires j < |w|
    ensures Span(w, j, |w|) == Span(w, j + 1, |w|) + CountTokens(w[j])
  {
  }

  lemma IsKeepStart(c: Config, w: seq<string>, j: nat)
    requires j <= |w| && Span(w, j, |w|) <= c.overlapTokens
    requires j > 0 ==> Span(w, j - 1, |w|) > c.overlapTokens
    ensures KeepStart(c, w, 0, |w|) == j
  {
    BeforeKeepStart(c, w, 0, |w|, j);
    if j > 0 {
      BeforeKeepStart(c, w, 0, |w|, j - 1);
    }
  }

  /** The flush branch of the loop: emit the window if it is large enough, keep its overlap. */
  method FlushWindow(c: Config, current: seq<string>, chunks: seq<string>, ghost s: State)
    returns (kept: seq<string>, keptTokens: nat, chunks': seq<string>)
    requires s.current == current && s.chunks == chunks
    ensures Flush(c, s) == State(s.i, kept, keptTokens, chunks')
  {
    chunks' := chunks;
    var chunkText := Strip(Join(current));
    if CountTokens(chunkText) >= c.minChunkTokens {
      chunks' := chunks' + [chunkText];
    }
    kept, keptTokens := KeepOverlap(c, current);
  }

  /** The main loop, up to the point where every sentence is consumed. */
  method ConsumeSentences(c: Config, sentences: seq<string>)
    returns (current: seq<string>, chunks: seq<string>, ghost s: State, ghost ws: seq<Window>, ghost lo: nat)
    requires forall s :: s in sentences ==> Stripped(s)
    requires Fits(c, sentences)
    ensures s.i == |sentences| && s.current == current && s.chunks == chunks
    ensures Tracks(c, sentences, ws, lo, s)
  {
    var currentTokens: nat, i: nat := 0, 0;
    current, chunks := [], [];
    s, ws, lo := START, [], 0;
    StartTracks(c, sentences);
    while i < |sentences|
      invariant s == State(i, current, currentTokens, chunks)
      invariant Tracks(c, sentences, ws, lo, s)
      decreases |sentences| - i, |current|
    {
      ws, lo := TurnTracks(c, sentences, ws, lo, s);
      var sentTokens := CountTokens(sentences[i]);
      if currentTokens + sentTokens > c.chunkTokens && current != [] {
        current, currentTokens, chunks := FlushWindow(c, current, chunks, s);
      } else {
        current, currentTokens, i := current + [sentences[i]], currentTokens + sentTokens, i + 1;
      }
      s := Step(c, sentences, s);
    }
  }

  /** The fallback chunker. It may be called exactly when its loop ends (`HaltsIffFits`). */
  method ChunkSlidingWindow(c: Config, text: string, sentences: seq<string>)
    returns (chunks: seq<string>, ghost ws: seq<Window>)
    requires forall s :: s in sentences ==> Stripped(s)
    requires Fits(c, sentences)
    ensures sentences == [] ==> chunks == if Strip(text) != "" then [text] else []
    ensures sentences != [] ==> Plan(c, sentences, ws) && chunks == ChunksOf(c, sentences, ws)
  {
    if sentences == [] {
      return if Strip(text) != "" then [text] else [], [];
    }
    var current;
    ghost var s, lo;
    current, chunks, s, ws, lo := ConsumeSentences(c, sentences);
    EndIsPlan(c, sentences, ws, lo, s);
    ws := ws + [Window(lo, s.i)];
    if current != [] {
      var chunkText := Strip(Join(current));
      if chunkText != "" {
        chunks := chunks + [chunkText];
      }
    }
  }

  /** What the loop keeps about the window it is filling, `ss[lo..i]`, after the windows `ws`. */
  ghost predicate Open(c: Config, ss: seq<string>, ws: seq<Window>, lo: nat, i: nat) {
    && lo <= i <= |ss|
    && (ws != [] ==> Last(ws).hi <= i && Last(ws).lo < lo)
    && lo == NextStart(c, ss, ws)
    && (lo < i ==> Bounded(c, ss, Window(lo, i)))
    && (lo == i ==> i == if ws == [] then 0 else Last(ws).hi)
  }

  /** On inputs that fit, a flush closes a window that follows the earlier ones. */
  lemma FlushKeepsOpen(c: Config, ss: seq<string>, ws: seq<Window>, lo: nat, i: nat)
    requires Flushed(c, ss, ws) && Open(c, ss, ws, lo, i)
    requires lo < i < |ss| && Span(ss, lo, i + 1) > c.chunkTokens
    requires lo <= KeepStart(c, ss, 0, i) && FitsAt(c, ss, i)
    ensures Flushed(c, ss, ws + [Window(lo, i)])
    ensures Open(c, ss, ws + [Window(lo, i)], KeepStart(c, ss, 0, i), i)
    ensures lo < KeepStart(c, ss, 0, i)
  {
    var w, k := Window(lo, i), KeepStart(c, ss, 0, i);
    assert Init(ws + [w]) == ws && Last(ws + [w]) == w;
    CostGrows(ss, k, i);
    CostGrows(ss, lo, k);
    assert Follows(c, ss, ws, w);
    assert k < i ==> Bounded(c, ss, Window(k, i));
  }

  /** The loop state together with the windows it has cut. */
  ghost predicate Tracks(c: Config, ss: seq<string>, ws: seq<Window>, lo: nat, s: State) {
    At(c, ss, s, lo) && Flushed(c, ss, ws) && s.chunks == Cut(c, ss, ws) && Open(c, ss, ws, lo, s.i)
  }

  lemma StartTracks(c: Config, ss: seq<string>)
    ensures Tracks(c, ss, [], 0, START)
  {
  }

  /** One turn on an input that fits keeps the windows and brings the end nearer. */
  lemma TurnTracks(c: Config, ss: seq<string>, ws: seq<Window>, lo: nat, s: State)
    returns (ws': seq<Window>, lo': nat)
    requires Tracks(c, ss, ws, lo, s) && s.i < |ss| && Fits(c, ss)
    requires forall s :: s in ss ==> Stripped(s)
    ensures var t := Step(c, ss, s);
            Tracks(c, ss, ws', lo', t) && (s.i < t.i <= |ss| || (s.i == t.i && |t.current| < |s.current|))
  {
    StepKeepsAt(c, ss, s, lo);
    assert FitsAt(c, ss, s.i);
    if Flushes(c, ss, s) {
      lo', ws' := KeepStart(c, ss, 0, s.i), ws + [Window(lo, s.i)];
      FlushTracks(c, ss, ws, lo, s);
    } else {
      lo', ws' := lo, ws;
    }
  }

  lemma FlushTracks(c: Config, ss: seq<string>, ws: seq<Window>, lo: nat, s: State)
    requires Tracks(c, ss, ws, lo, s) && s.i < |ss| && Flushes(c, ss, s) && FitsAt(c, ss, s.i)
    requires forall s :: s in ss ==> Stripped(s)
    ensures var ws', lo' := ws + [Window(lo, s.i)], KeepStart(c, ss, 0, s.i);
            Flushed(c, ss, ws') && Flush(c, s).chunks == Cut(c, ss, ws') && Open(c, ss, ws', lo', s.i) && lo < lo'
  {
    FlushKeepsOpen(c, ss, ws, lo, s.i);
    CutStep(c, ss, ws, Window(lo, s.i), s.current);
    FlushedText(c, s);
  }

  /** The window text needs no stripping. */
  lemma FlushedText(c: Config, s: State)
    requires s.current != [] && forall x :: x in s.current ==> Stripped(x)
    ensures Flush(c, s).chunks == AfterFlush(c, s.chunks, Join(s.current))
  {
    JoinStripped(s.current);
  }

  lemma CutStep(c: Config, ss: seq<string>, ws: seq<Window>, w: Window, text: seq<string>)
    requires Flushed(c, ss, ws) && Flushed(c, ss, ws + [w]) && w.lo <= w.hi <= |ss| && text == ss[w.lo..w.hi]
    ensures Cut(c, ss, ws + [w]) == AfterFlush(c, Cut(c, ss, ws), Join(text))
  {
    assert Init(ws + [w]) == ws && Last(ws + [w]) == w;
  }

  /** The window left at the end completes the plan. */
  lemma EndIsPlan(c: Config, ss: seq<string>, ws: seq<Window>, lo: nat, s: State)
    requires Tracks(c, ss, ws, lo, s) && s.i == |ss| > 0
    requires forall s :: s in ss ==> Stripped(s)
    ensures Plan(c, ss, ws + [Window(lo, s.i)])
    ensures Finish(s) == ChunksOf(c, ss, ws + [Window(lo, s.i)])
  {
    var w := Window(lo, s.i);
    assert Init(ws + [w]) == ws && Last(ws + [w]) == w;
    assert lo < s.i by {
      assert ws != [] ==> Full(c, ss, Last(ws));
    }
    assert Plan(c, ss, ws + [w]) by {
      assert Follows(c, ss, ws, w);
    }
    assert Sentences(ss, w) == s.current;
    JoinStripped(s.current);
  }
}
