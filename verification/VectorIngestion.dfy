/** Batched vector ingestion of `app/vector/pipeline.py`. The store is a map from point to payload; a point id is
    an injective function of the payload's chunk id, so the chunk id itself is the key. */
module VectorIngestion {
  import opened Lists
  import opened Text

  datatype Chunk = Chunk(chunkId: Option<string>, text: string)

  type Store = map<string, Chunk>

  /** Which calls raise: the lookup, the encoder on the batch at a position, the payload model on a chunk,
      the upsert of a sub-batch of that batch. A failed upsert stores nothing. */
  datatype Faults = Faults(lookup: bool, encode: nat -> bool, payload: Chunk -> bool, upsert: (nat, nat) -> bool)

  datatype BatchResult = BatchResult(totalRequested: nat, embedded: nat, skippedExisting: nat, upserted: nat, failed: nat)

  /** The encoder and the store never fail. */
  ghost predicate Reliable(f: Faults) {
    (forall b :: !f.encode(b)) && (forall b, u :: !f.upsert(b, u))
  }

  // ---------------------------------------------------------------- chunks and points

  /** Nothing but whitespace. */
  predicate IsBlank(c: Chunk) {
    AllSpace(c.text)
  }

  function Blank(): Chunk -> bool {
    (c: Chunk) => IsBlank(c)
  }

  function NonBlank(): Chunk -> bool {
    (c: Chunk) => !IsBlank(c)
  }

  /** The payload model accepts the chunk: it has an id and passes the schema. */
  function Accepts(f: Faults): Chunk -> bool {
    (c: Chunk) => c.chunkId.Some? && !f.payload(c)
  }

  /** Chunks that reach the store when nothing fails around them. */
  function Good(f: Faults): Chunk -> bool {
    (c: Chunk) => !IsBlank(c) && c.chunkId.Some? && !f.payload(c)
  }

  /** The payload model strips whitespace from ids. */
  function PointKey(c: Chunk): string {
    if c.chunkId.Some? then Strip(c.chunkId.value) else ""
  }

  function Put(store: Store, points: seq<Chunk>): Store {
    if points == [] then store else Put(store, Init(points))[PointKey(Last(points)) := Last(points)]
  }

  lemma {:induction false} PutAppend(store: Store, xs: seq<Chunk>, ys: seq<Chunk>)
    ensures Put(store, xs + ys) == Put(Put(store, xs), ys)
    decreases |ys|
  {
    if ys == [] {
      assert xs + ys == xs;
    } else {
      assert Init(xs + ys) == xs + Init(ys) && Last(xs + ys) == Last(ys);
      PutAppend(store, xs, Init(ys));
    }
  }

  lemma {:induction false} PutKeys(store: Store, points: seq<Chunk>)
    ensures forall k :: k in Put(store, points) <==> k in store || exists c :: c in points && PointKey(c) == k
  {
    if points != [] {
      PutKeys(store, Init(points));
      assert forall c :: c in points <==> c in Init(points) || c == Last(points) by {
        assert points == Init(points) + [Last(points)];
      }
    }
  }

  /** The store holds under each key the last point stored under it, */
  lemma {:induction false} LastStored(store: Store, points: seq<Chunk>, i: nat)
    requires i < |points| && forall j :: i < j < |points| ==> PointKey(points[j]) != PointKey(points[i])
    ensures PointKey(points[i]) in Put(store, points) && Put(store, points)[PointKey(points[i])] == points[i]
    decreases |points|
  {
    if i < |points| - 1 {
      var front := Init(points);
      assert front[i] == points[i] && forall j :: i < j < |front| ==> front[j] == points[j];
      LastStored(store, front, i);
    }
  }

  /** and under any other what it held before. */
  lemma {:induction false} OthersKept(store: Store, points: seq<Chunk>, key: string)
    requires forall c :: c in points ==> PointKey(c) != key
    ensures key in Put(store, points) <==> key in store
    ensures key in store ==> Put(store, points)[key] == store[key]
  {
    if points != [] {
      assert Last(points) in points && forall c :: c in Init(points) ==> c in points;
      OthersKept(store, Init(points), key);
    }
  }

  // ---------------------------------------------------------------- skipping

  function KnownIds(chunks: seq<Chunk>): set<string> {
    set c | c in chunks && c.chunkId.Some? && c.chunkId.value != "" :: c.chunkId.value
  }

  /** `existing_point_ids`: the non-empty stored ids among those asked for; none when the lookup fails. */
  function Existing(store: Store, chunks: seq<Chunk>, lookupFails: bool): set<string> {
    if lookupFails then {} else set k | k in KnownIds(chunks) && k in store
  }

  function NotIn(existing: set<string>): Chunk -> bool {
    (c: Chunk) => !(c.chunkId.Some? && c.chunkId.value in existing)
  }

  function ToProcess(store: Store, chunks: seq<Chunk>, skipExisting: bool, lookupFails: bool): seq<Chunk> {
    Filter(NotIn(if skipExisting then Existing(store, chunks, lookupFails) else {}), chunks)
  }

  /** The chunk is left out of the run: skipping is on, the lookup works, and the store has its non-empty id. */
  predicate SkippedBy(store: Store, skipExisting: bool, lookupFails: bool, c: Chunk) {
    skipExisting && !lookupFails && c.chunkId.Some? && c.chunkId.value != "" && c.chunkId.value in store
  }

  /** Exactly those chunks are left out; the others stay in order. */
  lemma SkippedAre(store: Store, chunks: seq<Chunk>, skipExisting: bool, lookupFails: bool)
    ensures ToProcess(store, chunks, skipExisting, lookupFails) == Filter(c => !SkippedBy(store, skipExisting, lookupFails, c), chunks)
  {
    var existing := if skipExisting then Existing(store, chunks, lookupFails) else {};
    forall c | c in chunks
      ensures NotIn(existing)(c) == !SkippedBy(store, skipExisting, lookupFails, c)
    {
      if c.chunkId.Some? && c.chunkId.value != "" {
        assert c.chunkId.value in KnownIds(chunks);
      }
    }
    FilterCongruent(NotIn(existing), c => !SkippedBy(store, skipExisting, lookupFails, c), chunks);
  }

  /** What a run without encoder and upsert failures stores. */
  function Ingested(f: Faults, store: Store, chunks: seq<Chunk>, skipExisting: bool): seq<Chunk> {
    Filter(Good(f), ToProcess(store, chunks, skipExisting, f.lookup))
  }

  function BlankCount(chunks: seq<Chunk>): nat {
    |Filter(Blank(), chunks)|
  }

  /** The counters of a run and the chunks it has stored, in order. */
  datatype Tally = Tally(embedded: nat, upserted: nat, failed: nat, stored: seq<Chunk>)

  function Plus(t: Tally, u: Tally): Tally {
    Tally(t.embedded + u.embedded, t.upserted + u.upserted, t.failed + u.failed, t.stored + u.stored)
  }

  /** What the tally of a batch, or of several, says about its chunks and about the store before and after. */
  ghost predicate Accounts(f: Faults, chunks: seq<Chunk>, before: Store, after: Store, t: Tally) {
    && t.upserted == |t.stored| && t.embedded <= t.upserted + t.failed
    && t.upserted + t.failed + BlankCount(chunks) == |chunks|
    && multiset(t.stored) <= multiset(Filter(Good(f), chunks))
    && (Reliable(f) ==> t.stored == Filter(Good(f), chunks))
    && after == Put(before, t.stored)
  }

  lemma {:induction false} AccountsAppend(f: Faults, todo: seq<Chunk>, i: nat, next: nat, s0: Store, s1: Store, s2: Store, t: Tally, u: Tally)
    requires i <= next <= |todo|
    requires Accounts(f, todo[..i], s0, s1, t) && Accounts(f, todo[i..next], s1, s2, u)
    ensures Accounts(f, todo[..next], s0, s2, Plus(t, u))
  {
    var xs, ys := todo[..i], todo[i..next];
    assert todo[..next] == xs + ys;
    CountsAppend(f, xs, ys, t, u);
    PutAppend(s0, t.stored, u.stored);
  }

  lemma {:induction false} CountsAppend(f: Faults, xs: seq<Chunk>, ys: seq<Chunk>, t: Tally, u: Tally)
    ensures BlankCount(xs + ys) == BlankCount(xs) + BlankCount(ys)
    ensures Filter(Good(f), xs + ys) == Filter(Good(f), xs) + Filter(Good(f), ys)
    ensures multiset(t.stored) <= multiset(Filter(Good(f), xs)) && multiset(u.stored) <= multiset(Filter(Good(f), ys)) ==>
              multiset(t.stored + u.stored) <= multiset(Filter(Good(f), xs + ys))
  {
    BlankCountAppend(xs, ys);
    FilterAppend(Good(f), xs, ys);
  }

  lemma BlankCountAppend(xs: seq<Chunk>, ys: seq<Chunk>)
    ensures BlankCount(xs + ys) == BlankCount(xs) + BlankCount(ys)
  {
    FilterAppend(Blank(), xs, ys);
  }

  // ---------------------------------------------------------------- what survives the failures

  /** The first position of the batch of `size` that position `p` belongs to. */
  function BatchStart(p: nat, size: nat): (start: nat)
    requires size > 0
    ensures start <= p
  {
    p - p % size
  }

  lemma BatchStartOf(p: nat, size: nat, start: nat)
    requires size > 0 && start % size == 0 && start <= p < start + size
    ensures BatchStart(p, size) == start
  {
    var q := start / size;
    assert start == q * size && p == q * size + (p - start);
    assert p / size == q && p % size == p - start by { Quotient(p, size, q, p - start); }
  }

  lemma Quotient(p: nat, size: nat, q: nat, r: nat)
    requires size > 0 && r < size && p == q * size + r
    ensures p / size == q && p % size == r
  {
    var d := p / size - q;
    assert p == (p / size) * size + p % size;
    assert d * size == r - p % size;
    assert d >= 1 ==> d * size >= size;
    assert d <= -1 ==> d * size <= -(size as int);
  }

  /** How many of the first `n` chunks are embedded: those with text whose batch is encoded. */
  function EmbeddedCount(f: Faults, todo: seq<Chunk>, size: nat, n: nat): nat
    requires size > 0 && n <= |todo|
  {
    if n == 0 then 0
    else EmbeddedCount(f, todo, size, n - 1) + if IsBlank(todo[n - 1]) || f.encode(BatchStart(n - 1, size)) then 0 else 1
  }

  lemma {:induction false} EmbeddedBatch(f: Faults, todo: seq<Chunk>, size: nat, start: nat, n: nat)
    requires size > 0 && start % size == 0 && start <= n <= start + size && n <= |todo|
    ensures EmbeddedCount(f, todo, size, n) ==
            EmbeddedCount(f, todo, size, start) + if f.encode(start) then 0 else n - start - BlankCount(todo[start..n])
    decreases n
  {
    if n > start {
      EmbeddedBatch(f, todo, size, start, n - 1);
      BatchStartOf(n - 1, size, start);
      assert todo[start..n] == todo[start..n - 1] + [todo[n - 1]];
      FilterSnoc(Blank(), todo[start..n - 1], todo[n - 1]);
    }
  }

  /** The points of a batch that are stored: those whose sub-batch is upserted. */
  function Saved(f: Faults, batchStart: nat, points: seq<Chunk>, size: nat, n: nat): seq<Chunk>
    requires size > 0 && n <= |points|
  {
    if n == 0 then []
    else if f.upsert(batchStart, BatchStart(n - 1, size)) then Saved(f, batchStart, points, size, n - 1)
    else Saved(f, batchStart, points, size, n - 1) + [points[n - 1]]
  }

  lemma {:induction false} SavedBatch(f: Faults, batchStart: nat, points: seq<Chunk>, size: nat, start: nat, n: nat)
    requires size > 0 && start % size == 0 && start <= n <= start + size && n <= |points|
    ensures Saved(f, batchStart, points, size, n) ==
            Saved(f, batchStart, points, size, start) + if f.upsert(batchStart, start) then [] else points[start..n]
    decreases n
  {
    if n > start {
      SavedBatch(f, batchStart, points, size, start, n - 1);
      BatchStartOf(n - 1, size, start);
      assert points[start..n] == points[start..n - 1] + [points[n - 1]];
    }
  }

  /** The sub-batches before position `u` are done. */
  ghost predicate SavedUpTo(f: Faults, batchStart: nat, points: seq<Chunk>, size: nat, u: nat, stored: seq<Chunk>) {
    && size > 0 && u <= |points| && (u % size == 0 || u == |points|)
    && stored == Saved(f, batchStart, points, size, u)
    && multiset(stored) <= multiset(points[..u])
    && ((forall v :: !f.upsert(batchStart, v)) ==> stored == points[..u])
  }

  lemma SavedStep(f: Faults, batchStart: nat, points: seq<Chunk>, size: nat, u: nat, stored: seq<Chunk>, next: nat)
    requires SavedUpTo(f, batchStart, points, size, u, stored) && u < |points|
    requires next == if u + size <= |points| then u + size else |points|
    ensures SavedUpTo(f, batchStart, points, size, next,
                      if f.upsert(batchStart, u) then stored else stored + points[u..next])
  {
    SavedBatch(f, batchStart, points, size, u, next);
    NextStart(u, size);
    assert points[..next] == points[..u] + points[u..next];
  }

  lemma NextStart(i: nat, size: nat)
    requires size > 0 && i % size == 0
    ensures (i + size) % size == 0
  {
    Quotient(i + size, size, i / size + 1, 0);
  }

  function SavedOfBatch(f: Faults, batchStart: nat, batch: seq<Chunk>, size: nat): seq<Chunk>
    requires size > 0
  {
    var points := Filter(Good(f), batch);
    if f.encode(batchStart) then [] else Saved(f, batchStart, points, size, |points|)
  }

  /** What a run stores from position `i` on, batch after batch. */
  function SavedFrom(f: Faults, todo: seq<Chunk>, batchSize: nat, upsertBatchSize: nat, i: nat): seq<Chunk>
    requires batchSize > 0 && upsertBatchSize > 0
    decreases |todo| - i
  {
    if i >= |todo| then []
    else
      var next := if i + batchSize <= |todo| then i + batchSize else |todo|;
      SavedOfBatch(f, i, todo[i..next], upsertBatchSize) + SavedFrom(f, todo, batchSize, upsertBatchSize, next)
  }

  /** The batches before position `i` are done. */
  ghost predicate DoneUpTo(f: Faults, todo: seq<Chunk>, size: nat, upsertSize: nat, i: nat, s0: Store, s1: Store, t: Tally) {
    && size > 0 && upsertSize > 0 && i <= |todo| && (i % size == 0 || i == |todo|)
    && Accounts(f, todo[..i], s0, s1, t)
    && t.embedded == EmbeddedCount(f, todo, size, i)
    && t.stored + SavedFrom(f, todo, size, upsertSize, i) == SavedFrom(f, todo, size, upsertSize, 0)
  }

  lemma AllDone(f: Faults, todo: seq<Chunk>, size: nat, upsertSize: nat, s0: Store, s1: Store, t: Tally)
    requires DoneUpTo(f, todo, size, upsertSize, |todo|, s0, s1, t)
    ensures Accounts(f, todo, s0, s1, t)
    ensures t.embedded == EmbeddedCount(f, todo, size, |todo|)
    ensures t.stored == SavedFrom(f, todo, size, upsertSize, 0)
  {
    assert todo[..|todo|] == todo;
  }

  lemma BatchDone(f: Faults, todo: seq<Chunk>, size: nat, upsertSize: nat, i: nat, next: nat,
                  s0: Store, s1: Store, s2: Store, t: Tally, u: Tally)
    requires DoneUpTo(f, todo, size, upsertSize, i, s0, s1, t) && i < |todo|
    requires next == if i + size <= |todo| then i + size else |todo|
    requires Accounts(f, todo[i..next], s1, s2, u)
    requires u.embedded == if f.encode(i) then 0 else next - i - BlankCount(todo[i..next])
    requires u.stored == SavedOfBatch(f, i, todo[i..next], upsertSize)
    ensures DoneUpTo(f, todo, size, upsertSize, next, s0, s2, Plus(t, u))
  {
    EmbeddedBatch(f, todo, size, i, next);
    NextStart(i, size);
    AccountsAppend(f, todo, i, next, s0, s1, s2, t, u);
    SavedFromStep(f, todo, size, upsertSize, i, next, t.stored, u.stored, SavedFrom(f, todo, size, upsertSize, 0));
  }

  lemma SavedFromStep(f: Faults, todo: seq<Chunk>, size: nat, upsertSize: nat, i: nat, next: nat,
                      done: seq<Chunk>, added: seq<Chunk>, all: seq<Chunk>)
    requires size > 0 && upsertSize > 0 && i < |todo| && next == if i + size <= |todo| then i + size else |todo|
    requires done + SavedFrom(f, todo, size, upsertSize, i) == all
    requires added == SavedOfBatch(f, i, todo[i..next], upsertSize)
    ensures (done + added) + SavedFrom(f, todo, size, upsertSize, next) == all
  {
    assert SavedFrom(f, todo, size, upsertSize, i) == added + SavedFrom(f, todo, size, upsertSize, next);
  }

  // ---------------------------------------------------------------- the pipeline

  class VectorIngestionPipeline {
    const batchSize: nat
    var store: Store

    constructor (batchSize: nat)
      requires batchSize > 0
      ensures this.batchSize == batchSize && store == map[]
    {
      this.batchSize := batchSize;
      store := map[];
    }

    /** Points of the chunks the payload model accepts; the others count as failed. */
    method BuildPoints(f: Faults, chunks: seq<Chunk>) returns (points: seq<Chunk>, failed: nat)
      ensures points == Filter(Accepts(f), chunks) && |points| + failed == |chunks|
    {
      points, failed := [], 0;
      for i := 0 to |chunks|
        invariant points == Filter(Accepts(f), chunks[..i]) && |points| + failed == i
      {
        PrefixStep(chunks, i);
        if chunks[i].chunkId.Some? && !f.payload(chunks[i]) {
          points := points + [chunks[i]];
        } else {
          failed := failed + 1;
        }
      }
      assert chunks[..|chunks|] == chunks;
    }

    /** Upsert in sub-batches, each of which is stored whole or fails whole. */
    method UpsertPoints(f: Faults, batchStart: nat, points: seq<Chunk>, upsertBatchSize: nat)
      returns (upserted: nat, failed: nat, ghost stored: seq<Chunk>)
      requires upsertBatchSize > 0
      modifies `store
      ensures store == Put(old(store), stored) && upserted == |stored| && upserted + failed == |points|
      ensures multiset(stored) <= multiset(points)
      ensures stored == Saved(f, batchStart, points, upsertBatchSize, |points|)
      ensures (forall u :: !f.upsert(batchStart, u)) ==> stored == points
    {
      upserted, failed, stored := 0, 0, [];
      var u := 0;
      while u < |points|
        invariant SavedUpTo(f, batchStart, points, upsertBatchSize, u, stored)
        invariant upserted + failed == u && upserted == |stored|
        invariant store == Put(old(store), stored)
      {
        var next := if u + upsertBatchSize <= |points| then u + upsertBatchSize else |points|;
        var sub := points[u..next];
        SavedStep(f, batchStart, points, upsertBatchSize, u, stored, next);
        if f.upsert(batchStart, u) {
          failed := failed + |sub|;
        } else {
          PutAppend(old(store), stored, sub);
          store := Put(store, sub);
          stored := stored + sub;
          upserted := upserted + |sub|;
        }
        u := next;
      }
      assert points[..|points|] == points;
    }

    /** Chunks with text, that is, with some left once it is stripped. */
    method DropBlanks(batch: seq<Chunk>) returns (valid: seq<Chunk>)
      ensures valid == Filter(NonBlank(), batch)
    {
      valid := [];
      for i := 0 to |batch|
        invariant valid == Filter(NonBlank(), batch[..i])
      {
        PrefixStep(batch, i);
        StripsToNothing(batch[i].text);
        if Strip(batch[i].text) != "" {
          valid := valid + [batch[i]];
        }
      }
      assert batch[..|batch|] == batch;
    }

    /** One batch: drop blanks, encode, build points, upsert. */
    method IngestBatch(f: Faults, batchStart: nat, batch: seq<Chunk>, upsertBatchSize: nat)
      returns (embedded: nat, upserted: nat, failed: nat, ghost stored: seq<Chunk>)
      requires upsertBatchSize > 0
      modifies `store
      ensures Accounts(f, batch, old(store), store, Tally(embedded, upserted, failed, stored))
      ensures embedded == if f.encode(batchStart) then 0 else |batch| - BlankCount(batch)
      ensures stored == SavedOfBatch(f, batchStart, batch, upsertBatchSize)
    {
      embedded, upserted, failed, stored := 0, 0, 0, [];
      var valid := DropBlanks(batch);
      FilterSplit(NonBlank(), Blank(), batch);
      FilterTwice(f, batch);
      if valid == [] {
        return;
      }
      if f.encode(batchStart) {
        failed := |valid|;
        return;
      }
      embedded := |valid|;
      var points, rejected := BuildPoints(f, valid);
      upserted, failed, stored := UpsertPoints(f, batchStart, points, upsertBatchSize);
      failed := failed + rejected;
    }

    /** The batch at position `i`, after those before it. */
    method IngestNext(f: Faults, todo: seq<Chunk>, upsertBatchSize: nat, i: nat, ghost s0: Store, ghost t: Tally)
      returns (next: nat, embedded: nat, upserted: nat, failed: nat, ghost stored: seq<Chunk>)
      requires DoneUpTo(f, todo, batchSize, upsertBatchSize, i, s0, store, t) && i < |todo|
      modifies `store
      ensures i < next <= |todo|
      ensures DoneUpTo(f, todo, batchSize, upsertBatchSize, next, s0, store, Plus(t, Tally(embedded, upserted, failed, stored)))
    {
      next := if i + batchSize <= |todo| then i + batchSize else |todo|;
      ghost var before := store;
      embedded, upserted, failed, stored := IngestBatch(f, i, todo[i..next], upsertBatchSize);
      BatchDone(f, todo, batchSize, upsertBatchSize, i, next, s0, before, store, t, Tally(embedded, upserted, failed, stored));
    }

    /** All batches in order. */
    method IngestBatches(f: Faults, todo: seq<Chunk>, upsertBatchSize: nat)
      returns (embedded: nat, upserted: nat, failed: nat, ghost stored: seq<Chunk>)
      requires batchSize > 0 && upsertBatchSize > 0
      modifies `store
      ensures DoneUpTo(f, todo, batchSize, upsertBatchSize, |todo|, old(store), store, Tally(embedded, upserted, failed, stored))
    {
      embedded, upserted, failed, stored := 0, 0, 0, [];
      var i := 0;
      while i < |todo|
        invariant DoneUpTo(f, todo, batchSize, upsertBatchSize, i, old(store), store, Tally(embedded, upserted, failed, stored))
      {
        var next, e, u, x;
        ghost var added;
        next, e, u, x, added := IngestNext(f, todo, upsertBatchSize, i, old(store), Tally(embedded, upserted, failed, stored));
        embedded, upserted, failed, stored := embedded + e, upserted + u, failed + x, stored + added;
        i := next;
      }
    }

    /** The whole run. Every requested chunk is skipped, stored, failed or blank, whatever fails on the way. */
    method IngestChunks(f: Faults, chunks: seq<Chunk>, skipExisting: bool, upsertBatchSize: nat)
      returns (r: BatchResult, ghost stored: seq<Chunk>)
      requires batchSize > 0 && upsertBatchSize > 0
      modifies `store
      ensures var todo := ToProcess(old(store), chunks, skipExisting, f.lookup);
              && r.totalRequested == |chunks| && r.skippedExisting == |chunks| - |todo|
              && r.skippedExisting + r.upserted + r.failed + BlankCount(todo) == r.totalRequested
      ensures var todo := ToProcess(old(store), chunks, skipExisting, f.lookup);
              && r.embedded == EmbeddedCount(f, todo, batchSize, |todo|) <= r.upserted + r.failed
              && stored == SavedFrom(f, todo, batchSize, upsertBatchSize, 0)
      ensures store == Put(old(store), stored) && r.upserted == |stored|
      ensures multiset(stored) <= multiset(Filter(Good(f), ToProcess(old(store), chunks, skipExisting, f.lookup)))
      ensures Reliable(f) ==> stored == Ingested(f, old(store), chunks, skipExisting)
    {
      if |chunks| == 0 {
        return BatchResult(0, 0, 0, 0, 0), [];
      }
      var todo := ToProcess(store, chunks, skipExisting, f.lookup);
      var embedded, upserted, failed;
      embedded, upserted, failed, stored := IngestBatches(f, todo, upsertBatchSize);
      AllDone(f, todo, batchSize, upsertBatchSize, old(store), store, Tally(embedded, upserted, failed, stored));
      r := BatchResult(|chunks|, embedded, |chunks| - |todo|, upserted, failed);
    }
  }

  /** Dropping blanks and then rejects leaves the good chunks. */
  lemma {:induction false} FilterTwice(f: Faults, chunks: seq<Chunk>)
    ensures Filter(Accepts(f), Filter(NonBlank(), chunks)) == Filter(Good(f), chunks)
  {
    if chunks != [] {
      FilterTwice(f, Init(chunks));
      FilterSnoc(Accepts(f), Filter(NonBlank(), Init(chunks)), Last(chunks));
    }
  }

  // ---------------------------------------------------------------- repeating a run

  /** Keys as the store holds them: without whitespace around them. */
  ghost predicate StrippedKeys(store: Store) {
    forall k :: k in store ==> Strip(k) == k
  }

  lemma StripTwice(s: string)
    ensures Strip(Strip(s)) == Strip(s)
  {
    StripFixed(Strip(s));
  }

  lemma PutKeepsStripped(store: Store, points: seq<Chunk>)
    requires StrippedKeys(store)
    ensures StrippedKeys(Put(store, points))
  {
    PutKeys(store, points);
    forall k | k in Put(store, points)
      ensures Strip(k) == k
    {
      if k !in store {
        var c :| c in points && PointKey(c) == k;
        if c.chunkId.Some? {
          StripTwice(c.chunkId.value);
        }
      }
    }
  }

  /** An id the lookup can find again: not empty, and unchanged by stripping. */
  predicate FindableId(c: Chunk) {
    c.chunkId.Some? && c.chunkId.value != "" && Strip(c.chunkId.value) == c.chunkId.value
  }

  function Unfindable(f: Faults): Chunk -> bool {
    (c: Chunk) => Good(f)(c) && !FindableId(c)
  }

  /** Every good chunk of a completed run has its key in the store. */
  lemma RunStoresKeys(f: Faults, store: Store, chunks: seq<Chunk>, skipExisting: bool, c: Chunk)
    requires StrippedKeys(store) && c in chunks && Good(f)(c)
    ensures PointKey(c) in Put(store, Ingested(f, store, chunks, skipExisting))
  {
    var todo := ToProcess(store, chunks, skipExisting, f.lookup);
    PutKeys(store, Ingested(f, store, chunks, skipExisting));
    if c in todo {
      assert c in Ingested(f, store, chunks, skipExisting);
    } else {
      assert c.chunkId.value in store;
    }
  }

  /** Repeating a failure-free run with the lookup working upserts exactly the good chunks whose ids the lookup
      cannot find again. It therefore upserts nothing exactly when every good chunk has a findable id. */
  lemma RepeatUpserts(f: Faults, store: Store, chunks: seq<Chunk>, skipExisting: bool)
    requires StrippedKeys(store)
    ensures var again := Put(store, Ingested(f, store, chunks, skipExisting));
            && Ingested(f.(lookup := false), again, chunks, true) == Filter(Unfindable(f), chunks)
            && (Ingested(f.(lookup := false), again, chunks, true) == [] <==>
                forall c :: c in chunks && Good(f)(c) ==> FindableId(c))
  {
    var stored := Ingested(f, store, chunks, skipExisting);
    var again, g := Put(store, stored), f.(lookup := false);
    PutKeepsStripped(store, stored);
    var skip := Existing(again, chunks, false);
    forall c | c in chunks && Good(f)(c)
      ensures NotIn(skip)(c) <==> !FindableId(c)
    {
      RunStoresKeys(f, store, chunks, skipExisting, c);
      if FindableId(c) {
        assert c.chunkId.value in KnownIds(chunks);
      }
    }
    GoodAmong(f, g, NotIn(skip), chunks);
    if Filter(Unfindable(f), chunks) == [] {
      forall c | c in chunks && Good(f)(c)
        ensures FindableId(c)
      {
        assert Unfindable(f)(c) ==> c in Filter(Unfindable(f), chunks);
      }
    } else {
      assert Filter(Unfindable(f), chunks)[0] in Filter(Unfindable(f), chunks);
    }
  }

  /** A chunk whose id starts with a space is stored again by a repeated run. */
  lemma SpacedIdUpsertedAgain(f: Faults, c: Chunk, chunks: seq<Chunk>)
    requires c == Chunk(Some(" c1"), "text") && chunks == [c] && !f.lookup && !f.payload(c)
    ensures var stored := Ingested(f, map[], chunks, true);
            stored == [c] && Ingested(f, Put(map[], stored), chunks, true) == [c]
  {
    SpacedIdUnfindable(f, c);
    FilterOne(NotIn(Existing(map[], chunks, false)), c);
    FilterOne(Good(f), c);
    FilterOne(Unfindable(f), c);
    assert f.(lookup := false) == f;
    RepeatUpserts(f, map[], chunks, true);
  }

  lemma SpacedIdUnfindable(f: Faults, c: Chunk)
    requires c == Chunk(Some(" c1"), "text") && !f.payload(c)
    ensures Good(f)(c) && Unfindable(f)(c)
  {
    assert c.text[0] == 't' && !IsSpace('t');
    StripFixed(c.chunkId.value);
  }

  lemma {:induction false} GoodAmong(f: Faults, g: Faults, keep: Chunk -> bool, chunks: seq<Chunk>)
    requires g == f.(lookup := g.lookup)
    requires forall c :: c in chunks && Good(f)(c) ==> (keep(c) <==> !FindableId(c))
    ensures Filter(Good(g), Filter(keep, chunks)) == Filter(Unfindable(f), chunks)
  {
    if chunks != [] {
      var front, last := Init(chunks), Last(chunks);
      assert forall c :: c in front ==> c in chunks;
      assert last in chunks;
      GoodAmong(f, g, keep, front);
      FilterSnoc(Good(g), Filter(keep, front), last);
    }
  }

  /** Repeating a failure-free run, even when its lookup fails, adds no key to the store. */
  lemma RepeatKeepsKeys(f: Faults, g: Faults, store: Store, chunks: seq<Chunk>, skipExisting: bool, skipAgain: bool)
    requires StrippedKeys(store) && g == f.(lookup := g.lookup)
    ensures var again := Put(store, Ingested(f, store, chunks, skipExisting));
            Put(again, Ingested(g, again, chunks, skipAgain)).Keys == again.Keys
  {
    var again := Put(store, Ingested(f, store, chunks, skipExisting));
    var more := Ingested(g, again, chunks, skipAgain);
    PutKeys(again, more);
    forall c | c in more
      ensures PointKey(c) in again
    {
      RunStoresKeys(f, store, chunks, skipExisting, c);
    }
  }
}
