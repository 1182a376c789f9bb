/** Merging one key of entities: a value, if there is one, with the confidence of the record that holds it.
    The merge is associative save in three cases, and where none of them occurs, merging in parts is merging at once. */
module ValueSlots {
  import opened Lists
  import opened Entities

  datatype Slot = Slot(value: Option<Property>, confidence: real)

  predicate BlankSlot(s: Slot) {
    s.value.Some? && IsBlank(s.value.value)
  }

  /** What `Absorb` does to one key: the first value stays, unless it is blank and the other more confident. */
  function Merge(a: Slot, b: Slot): Slot {
    var better := b.confidence > a.confidence;
    Slot(if a.value == None || (better && BlankSlot(a) && b.value.Some?) then b.value else a.value,
         if better then b.confidence else a.confidence)
  }

  /** Three slots whose value depends on which two are merged first:
      a missing value is filled from a blank that gives way only on its own;
      a blank gives way to a value only with the confidence of a slot that has none;
      a blank gives way to a value only with the confidence of a slot behind it. */
  predicate FillsDiffer(a: Slot, b: Slot, c: Slot) {
    || (a.value == None && BlankSlot(b) && c.value.Some? && c.value != b.value && b.confidence < c.confidence <= a.confidence)
    || (BlankSlot(a) && b.value == None && c.value.Some? && c.value != a.value
        && c.confidence <= b.confidence && a.confidence < b.confidence)
    || (BlankSlot(a) && b.value.Some? && b.confidence <= a.confidence < c.confidence
        && if BlankSlot(b) then c.value == None && b.value != a.value else c.value != b.value)
  }

  lemma FillsDifferIff(a: Slot, b: Slot, c: Slot)
    ensures Merge(Merge(a, b), c).confidence == Merge(a, Merge(b, c)).confidence
    ensures Merge(Merge(a, b), c).value != Merge(a, Merge(b, c)).value <==> FillsDiffer(a, b, c)
  {
  }

  // ---------------------------------------------------------------- merging many

  /** Nothing merged with a slot is the slot. */
  function Join(a: Option<Slot>, b: Option<Slot>): Option<Slot> {
    if a == None then b else if b == None then a else Some(Merge(a.value, b.value))
  }

  function Fold(ss: seq<Slot>): Option<Slot> {
    if ss == [] then None else Join(Fold(Init(ss)), Some(Last(ss)))
  }

  ghost predicate NoneDiffers(pool: iset<Slot>) {
    forall a, b, c :: a in pool && b in pool && c in pool ==> !FillsDiffer(a, b, c)
  }

  /** A merged value comes from a slot no more confident; the top confidence of a blank one, or of none,
      comes from a slot that has the same value or none. */
  ghost predicate MergedFrom(s: Slot, pool: iset<Slot>) {
    && (s.value == None ==> s in pool)
    && (s.value.Some? ==> exists h :: h in pool && h.value == s.value && h.confidence <= s.confidence)
    && (BlankSlot(s) ==> s in pool || Slot(None, s.confidence) in pool)
  }

  lemma MergeMergedFrom(s: Slot, c: Slot, pool: iset<Slot>)
    requires MergedFrom(s, pool) && c in pool
    ensures MergedFrom(Merge(s, c), pool)
  {
    var m := Merge(s, c);
    if m.value.Some? && m.value == s.value {
      var h :| h in pool && h.value == s.value && h.confidence <= s.confidence;
      assert h.confidence <= m.confidence;
    } else {
      assert m.value == c.value && c.confidence <= m.confidence;
    }
  }

  lemma {:induction false} FoldMergedFrom(ss: seq<Slot>, pool: iset<Slot>)
    requires ss != [] && forall s :: s in ss ==> s in pool
    ensures Fold(ss).Some? && MergedFrom(Fold(ss).value, pool)
  {
    assert Last(ss) in ss;
    if |ss| == 1 {
      assert Fold(Init(ss)) == None;
    } else {
      FoldMergedFrom(Init(ss), pool);
      MergeMergedFrom(Fold(Init(ss)).value, Last(ss), pool);
    }
  }

  /** Merged slots that differ come from slots of the pool that do. */
  lemma DifferingSlots(a: Slot, b: Slot, c: Slot, pool: iset<Slot>) returns (e: Slot, f: Slot, g: Slot)
    requires MergedFrom(a, pool) && MergedFrom(b, pool) && c in pool && FillsDiffer(a, b, c)
    ensures e in pool && f in pool && g in pool && FillsDiffer(e, f, g)
  {
    e, f, g := a, b, c;
    if a.value.Some? {
      e :| e in pool && e.value == a.value && e.confidence <= a.confidence;
    }
    if b.value.Some? {
      f :| f in pool && f.value == b.value && f.confidence <= b.confidence;
    }
    if a.value.Some? && b.value.Some? {
      if a in pool {
        e := a;
      } else {
        f, g := Slot(None, a.confidence), f;
      }
    }
  }

  lemma JoinAssociative(a: Option<Slot>, b: Option<Slot>, c: Slot, pool: iset<Slot>)
    requires NoneDiffers(pool) && c in pool
    requires (a.Some? ==> MergedFrom(a.value, pool)) && (b.Some? ==> MergedFrom(b.value, pool))
    ensures Join(Join(a, b), Some(c)) == Join(a, Join(b, Some(c)))
  {
    if a.Some? && b.Some? {
      if FillsDiffer(a.value, b.value, c) {
        var e, f, g := DifferingSlots(a.value, b.value, c, pool);
      }
      FillsDifferIff(a.value, b.value, c);
    }
  }

  /** Merging two parts and then their results is merging all at once. */
  lemma {:induction false} FoldAppend(xs: seq<Slot>, ys: seq<Slot>, pool: iset<Slot>)
    requires NoneDiffers(pool) && forall s :: s in xs || s in ys ==> s in pool
    ensures Fold(xs + ys) == Join(Fold(xs), Fold(ys))
    decreases |ys|
  {
    if ys == [] {
      assert xs + ys == xs;
    } else {
      var front, last := Init(ys), Last(ys);
      assert Init(xs + ys) == xs + front && Last(xs + ys) == last && last in ys;
      FoldAppend(xs, front, pool);
      if xs != [] {
        FoldMergedFrom(xs, pool);
      }
      if front != [] {
        FoldMergedFrom(front, pool);
      }
      JoinAssociative(Fold(xs), Fold(front), last, pool);
    }
  }

  lemma FoldSnoc(ss: seq<Slot>, s: Slot)
    ensures Fold(ss + [s]) == Join(Fold(ss), Some(s))
  {
    assert Init(ss + [s]) == ss && Last(ss + [s]) == s;
  }

  lemma FoldOne(s: Slot)
    ensures Fold([s]) == Some(s)
  {
    FoldSnoc([], s);
    assert [] + [s] == [s];
  }
}
