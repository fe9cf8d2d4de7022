/** The free-slot search of the calendar server (`find_free_slot`), over
    integer minutes. The free/busy answer of the calendar backend is an input:
    `busy` is its list of busy intervals, in the order the backend sends them. */
module Scheduler {
  import opened Wrappers

  /** A half-open interval `(start, end)` in minutes. */
  type Interval = (int, int)

  /** Result of the walk over the busy intervals: the free gaps emitted so far
      and the final position of the cursor. */
  datatype Walked = Walked(gaps: seq<Interval>, cursor: int)

  /** One step of the cursor walk: a busy interval that starts after the cursor
      leaves the gap `(cursor, start)`; the cursor moves to the interval's end
      when that end lies beyond it. */
  function GapBefore(cursor: int, b: Interval): seq<Interval> {
    if b.0 > cursor then [(cursor, b.0)] else []
  }

  function Advance(cursor: int, b: Interval): (c: int)
    ensures c >= cursor && c >= b.1
  {
    if b.1 > cursor then b.1 else cursor
  }

  /** The cursor walk over `busy`, starting at `cursor`. */
  function Walk(cursor: int, busy: seq<Interval>): Walked
    decreases |busy|
  {
    if busy == [] then Walked([], cursor)
    else
      var rest := Walk(Advance(cursor, busy[0]), busy[1..]);
      Walked(GapBefore(cursor, busy[0]) + rest.gaps, rest.cursor)
  }

  /** The free gaps of the window `[windowStart, windowEnd)`: the gaps of the
      walk, plus the trailing gap when the cursor stops before the window end. */
  function Gaps(windowStart: int, windowEnd: int, busy: seq<Interval>): seq<Interval> {
    var w := Walk(windowStart, busy);
    if w.cursor < windowEnd then w.gaps + [(w.cursor, windowEnd)] else w.gaps
  }

  /** A gap is long enough for the slot and its padding on both sides (inclusive). */
  predicate Fits(gap: Interval, duration: int, pad: int) {
    gap.1 - gap.0 >= duration + pad * 2
  }

  /** The slot cut from a gap that fits: it starts `pad` after the gap. */
  function SlotIn(gap: Interval, duration: int, pad: int): Interval {
    (gap.0 + pad, gap.0 + pad + duration)
  }

  /** First fit: the slot cut from the earliest gap that fits. */
  function FirstFit(gaps: seq<Interval>, duration: int, pad: int): Option<Interval>
    decreases |gaps|
  {
    if gaps == [] then None
    else if Fits(gaps[0], duration, pad) then Some(SlotIn(gaps[0], duration, pad))
    else FirstFit(gaps[1..], duration, pad)
  }

  /** What `find_free_slot` answers for a given free/busy list; `None` stands
      for `{start: None, end: None}`. */
  function FreeSlot(duration: int, windowStart: int, windowEnd: int, pad: int, busy: seq<Interval>): Option<Interval> {
    FirstFit(Gaps(windowStart, windowEnd, busy), duration, pad)
  }

  /** The calendar server's gap computation and first-fit scan. */
  method FindFreeSlot(duration: int, windowStart: int, windowEnd: int, pad: int, busy: seq<Interval>)
    returns (slot: Option<Interval>)
    ensures slot == FreeSlot(duration, windowStart, windowEnd, pad, busy)
  {
    var blocks := CollectGaps(windowStart, windowEnd, busy);
    slot := ScanFirstFit(blocks, duration, pad);
  }

  /** The cursor walk: the free blocks of the window, in order. */
  method CollectGaps(windowStart: int, windowEnd: int, busy: seq<Interval>) returns (blocks: seq<Interval>)
    ensures blocks == Gaps(windowStart, windowEnd, busy)
  {
    blocks := [];
    var cursor := windowStart;
    var i := 0;
    while i < |busy|
      invariant 0 <= i <= |busy|
      invariant blocks + Walk(cursor, busy[i..]).gaps == Walk(windowStart, busy).gaps
      invariant Walk(cursor, busy[i..]).cursor == Walk(windowStart, busy).cursor
    {
      var b := busy[i];
      WalkFrom(windowStart, busy, i, blocks, cursor);
      ghost var extended, next := blocks + GapBefore(cursor, b), Advance(cursor, b);
      if b.0 > cursor {
        blocks := blocks + [(cursor, b.0)];
      }
      if b.1 > cursor {
        cursor := b.1;
      }
      assert blocks == extended && cursor == next;
      i := i + 1;
    }
    assert busy[i..] == [];
    if cursor < windowEnd {
      blocks := blocks + [(cursor, windowEnd)];
    }
  }

  /** One step of the walk from position `i` of `busy` keeps the walk's
      gaps and final cursor split between `blocks` and the rest of the walk. */
  lemma WalkFrom(start: int, busy: seq<Interval>, i: nat, blocks: seq<Interval>, cursor: int)
    requires i < |busy|
    requires blocks + Walk(cursor, busy[i..]).gaps == Walk(start, busy).gaps
    requires Walk(cursor, busy[i..]).cursor == Walk(start, busy).cursor
    ensures var next := Advance(cursor, busy[i]);
      blocks + GapBefore(cursor, busy[i]) + Walk(next, busy[i + 1..]).gaps == Walk(start, busy).gaps &&
      Walk(next, busy[i + 1..]).cursor == Walk(start, busy).cursor
  {
    assert busy[i..][1..] == busy[i + 1..];
    var gap, rest := GapBefore(cursor, busy[i]), Walk(Advance(cursor, busy[i]), busy[i + 1..]);
    assert Walk(cursor, busy[i..]) == Walked(gap + rest.gaps, rest.cursor);
    assert blocks + gap + rest.gaps == blocks + (gap + rest.gaps);
  }

  /** The first-fit scan over the free blocks, returning at the first block
      long enough for the slot and its padding. */
  method ScanFirstFit(blocks: seq<Interval>, duration: int, pad: int) returns (slot: Option<Interval>)
    ensures slot == FirstFit(blocks, duration, pad)
  {
    var need := duration + pad * 2;
    var k := 0;
    while k < |blocks|
      invariant 0 <= k <= |blocks|
      invariant FirstFit(blocks[k..], duration, pad) == FirstFit(blocks, duration, pad)
    {
      assert blocks[k..][1..] == blocks[k + 1..];
      var (fs, fe) := blocks[k];
      if fe - fs >= need {
        var s := fs + pad;
        var e := s + duration;
        return Some((s, e));
      }
      k := k + 1;
    }
    return None;
  }

  // ---------------------------------------------------------------------
  // Properties of the walk and of the first-fit scan

  /** Every busy interval has `start <= end`, as the backend delivers them. */
  predicate WellFormed(busy: seq<Interval>) {
    forall k :: 0 <= k < |busy| ==> busy[k].0 <= busy[k].1
  }

  /** Busy intervals in non-decreasing order of their start. */
  predicate SortedByStart(busy: seq<Interval>) {
    forall j, k :: 0 <= j < k < |busy| ==> busy[j].0 <= busy[k].0
  }

  /** Gaps in increasing order, pairwise non-overlapping, each non-empty. */
  predicate Ordered(gaps: seq<Interval>) {
    (forall k :: 0 <= k < |gaps| ==> gaps[k].0 < gaps[k].1) &&
    (forall j, k :: 0 <= j < k < |gaps| ==> gaps[j].1 <= gaps[k].0)
  }

  predicate Disjoint(a: Interval, b: Interval) {
    a.1 <= b.0 || b.1 <= a.0
  }

  /** The cursor never moves backwards: every gap starts at or after the
      starting cursor, and the final cursor is past the start and past the
      end of every busy interval. */
  lemma {:induction false} CursorNeverDecreases(cursor: int, busy: seq<Interval>)
    ensures Walk(cursor, busy).cursor >= cursor
    ensures forall k :: 0 <= k < |Walk(cursor, busy).gaps| ==> Walk(cursor, busy).gaps[k].0 >= cursor
    ensures forall k :: 0 <= k < |busy| ==> busy[k].1 <= Walk(cursor, busy).cursor
    decreases |busy|
  {
    if busy != [] {
      var next := Advance(cursor, busy[0]);
      CursorNeverDecreases(next, busy[1..]);
      forall k | 0 <= k < |busy| ensures busy[k].1 <= Walk(cursor, busy).cursor {
        if k > 0 {
          assert busy[k] == busy[1..][k - 1];
        }
      }
    }
  }

  /** With well-formed busy intervals the walk's gaps are ordered and all end
      at or before the final cursor. */
  lemma {:induction false} WalkOrdered(cursor: int, busy: seq<Interval>)
    requires WellFormed(busy)
    ensures Ordered(Walk(cursor, busy).gaps)
    ensures forall k :: 0 <= k < |Walk(cursor, busy).gaps| ==> Walk(cursor, busy).gaps[k].1 <= Walk(cursor, busy).cursor
    decreases |busy|
  {
    if busy != [] {
      var next := Advance(cursor, busy[0]);
      assert WellFormed(busy[1..]) by {
        forall k | 0 <= k < |busy[1..]| ensures busy[1..][k].0 <= busy[1..][k].1 {
          assert busy[1..][k] == busy[k + 1];
        }
      }
      WalkOrdered(next, busy[1..]);
      CursorNeverDecreases(next, busy[1..]);
      CursorNeverDecreases(cursor, busy);
      var head := GapBefore(cursor, busy[0]);
      var rest := Walk(next, busy[1..]).gaps;
      assert forall g :: g in head ==> g.1 <= next;
      assert forall k :: 0 <= k < |rest| ==> rest[k].0 >= next;
    }
  }

  /** Emitted gaps are increasing, pairwise non-overlapping and non-empty. */
  lemma GapsOrdered(windowStart: int, windowEnd: int, busy: seq<Interval>)
    requires WellFormed(busy)
    ensures Ordered(Gaps(windowStart, windowEnd, busy))
  {
    WalkOrdered(windowStart, busy);
  }

  /** Every gap starts at or after the window start. */
  lemma GapsStartInWindow(windowStart: int, windowEnd: int, busy: seq<Interval>)
    ensures forall k :: 0 <= k < |Gaps(windowStart, windowEnd, busy)| ==>
      Gaps(windowStart, windowEnd, busy)[k].0 >= windowStart
  {
    CursorNeverDecreases(windowStart, busy);
  }

  /** With no busy intervals the only gap is the whole window, when it is not empty. */
  lemma GapsOfFreeWindow(windowStart: int, windowEnd: int)
    ensures windowStart < windowEnd ==> Gaps(windowStart, windowEnd, []) == [(windowStart, windowEnd)]
    ensures windowStart >= windowEnd ==> Gaps(windowStart, windowEnd, []) == []
  {
  }

  /** First fit picks the earliest gap that fits and cuts the slot `pad` into it;
      it finds nothing exactly when no gap fits. */
  lemma {:induction false} FirstFitIsEarliest(gaps: seq<Interval>, duration: int, pad: int)
    ensures FirstFit(gaps, duration, pad).None? <==>
      forall k :: 0 <= k < |gaps| ==> !Fits(gaps[k], duration, pad)
    ensures FirstFit(gaps, duration, pad).Some? ==>
      exists k :: 0 <= k < |gaps| && Fits(gaps[k], duration, pad) &&
        (forall j :: 0 <= j < k ==> !Fits(gaps[j], duration, pad)) &&
        FirstFit(gaps, duration, pad).value == SlotIn(gaps[k], duration, pad)
    decreases |gaps|
  {
    if gaps != [] && !Fits(gaps[0], duration, pad) {
      FirstFitIsEarliest(gaps[1..], duration, pad);
      if FirstFit(gaps, duration, pad).Some? {
        var k :| 0 <= k < |gaps[1..]| && Fits(gaps[1..][k], duration, pad) &&
          (forall j :: 0 <= j < k ==> !Fits(gaps[1..][j], duration, pad)) &&
          FirstFit(gaps[1..], duration, pad).value == SlotIn(gaps[1..][k], duration, pad);
        assert forall j :: 0 <= j < k + 1 ==> !Fits(gaps[j], duration, pad) by {
          forall j | 0 <= j < k + 1 ensures !Fits(gaps[j], duration, pad) {
            if j > 0 { assert gaps[j] == gaps[1..][j - 1]; }
          }
        }
        assert gaps[k + 1] == gaps[1..][k];
      } else {
        forall k | 0 <= k < |gaps| ensures !Fits(gaps[k], duration, pad) {
          if k > 0 { assert gaps[k] == gaps[1..][k - 1]; }
        }
      }
    }
  }

  /** A found slot is one of the gaps that fits, the earliest; it starts
      `pad` after the gap's start and lasts exactly `duration`. No gap fits
      exactly when nothing is found. */
  lemma FreeSlotIsFirstFit(duration: int, windowStart: int, windowEnd: int, pad: int, busy: seq<Interval>)
    ensures var gaps := Gaps(windowStart, windowEnd, busy);
      var r := FreeSlot(duration, windowStart, windowEnd, pad, busy);
      (r.None? <==> forall k :: 0 <= k < |gaps| ==> !Fits(gaps[k], duration, pad)) &&
      (r.Some? ==>
        r.value.1 - r.value.0 == duration &&
        exists k :: 0 <= k < |gaps| && Fits(gaps[k], duration, pad) &&
          (forall j :: 0 <= j < k ==> !Fits(gaps[j], duration, pad)) &&
          r.value.0 == gaps[k].0 + pad)
  {
    FirstFitIsEarliest(Gaps(windowStart, windowEnd, busy), duration, pad);
  }

  /** Over busy intervals sorted by start, no gap of the walk overlaps any of them. */
  lemma {:induction false} WalkGapsFree(cursor: int, busy: seq<Interval>)
    requires SortedByStart(busy)
    ensures forall g, k :: g in Walk(cursor, busy).gaps && 0 <= k < |busy| ==> Disjoint(g, busy[k])
    decreases |busy|
  {
    if busy != [] {
      var next := Advance(cursor, busy[0]);
      var tail := busy[1..];
      assert SortedByStart(tail) by {
        forall j, k | 0 <= j < k < |tail| ensures tail[j].0 <= tail[k].0 {
          assert tail[j] == busy[j + 1] && tail[k] == busy[k + 1];
        }
      }
      WalkGapsFree(next, tail);
      CursorNeverDecreases(next, tail);
      var rest := Walk(next, tail).gaps;
      forall g, k | g in Walk(cursor, busy).gaps && 0 <= k < |busy| ensures Disjoint(g, busy[k]) {
        if g in GapBefore(cursor, busy[0]) {
          assert g.1 == busy[0].0 <= busy[k].0;
        } else {
          assert g in rest;
          var i :| 0 <= i < |rest| && rest[i] == g;
          if k == 0 {
            assert busy[0].1 <= next <= g.0;
          } else {
            assert busy[k] == tail[k - 1];
          }
        }
      }
    }
  }

  /** The slot, padded by `pad` on each side, lies inside the gap it was cut from. */
  lemma {:induction false} FirstFitInsideGap(gaps: seq<Interval>, duration: int, pad: int)
    requires FirstFit(gaps, duration, pad).Some?
    ensures exists g :: (g in gaps &&
      g.0 <= FirstFit(gaps, duration, pad).value.0 - pad &&
      FirstFit(gaps, duration, pad).value.1 + pad <= g.1)
    decreases |gaps|
  {
    if !Fits(gaps[0], duration, pad) {
      FirstFitInsideGap(gaps[1..], duration, pad);
      var g :| g in gaps[1..] &&
        g.0 <= FirstFit(gaps, duration, pad).value.0 - pad &&
        FirstFit(gaps, duration, pad).value.1 + pad <= g.1;
      assert g in gaps;
    } else {
      assert gaps[0] in gaps;
    }
  }

  /** Over busy intervals sorted by start, the returned slot padded by `pad` on
      each side overlaps none of them. */
  lemma FreeSlotAvoidsBusy(duration: int, windowStart: int, windowEnd: int, pad: int, busy: seq<Interval>)
    requires SortedByStart(busy)
    requires FreeSlot(duration, windowStart, windowEnd, pad, busy).Some?
    ensures var s := FreeSlot(duration, windowStart, windowEnd, pad, busy).value;
      forall k :: 0 <= k < |busy| ==> Disjoint((s.0 - pad, s.1 + pad), busy[k])
  {
    var gaps := Gaps(windowStart, windowEnd, busy);
    var s := FreeSlot(duration, windowStart, windowEnd, pad, busy).value;
    FirstFitInsideGap(gaps, duration, pad);
    var g :| g in gaps && g.0 <= s.0 - pad && s.1 + pad <= g.1;
    WalkGapsFree(windowStart, busy);
    CursorNeverDecreases(windowStart, busy);
    var w := Walk(windowStart, busy);
    forall k | 0 <= k < |busy| ensures Disjoint((s.0 - pad, s.1 + pad), busy[k]) {
      if g in w.gaps {
        assert Disjoint(g, busy[k]);
      } else {
        assert g == (w.cursor, windowEnd);
        assert busy[k].1 <= g.0;
      }
    }
  }

  /** When no busy interval starts after the window end, every gap lies in the window. */
  lemma {:induction false} WalkGapsBefore(cursor: int, windowEnd: int, busy: seq<Interval>)
    requires forall k :: 0 <= k < |busy| ==> busy[k].0 <= windowEnd
    ensures forall g :: g in Walk(cursor, busy).gaps ==> g.1 <= windowEnd
    decreases |busy|
  {
    if busy != [] {
      assert forall k :: 0 <= k < |busy[1..]| ==> busy[1..][k] == busy[k + 1];
      WalkGapsBefore(Advance(cursor, busy[0]), windowEnd, busy[1..]);
    }
  }

  /** When every busy interval starts inside the window (in particular when it
      lies within the window), the returned slot lies within the window. */
  lemma FreeSlotInWindow(duration: int, windowStart: int, windowEnd: int, pad: int, busy: seq<Interval>)
    requires 0 <= pad && 0 <= duration
    requires forall k :: 0 <= k < |busy| ==> busy[k].0 <= windowEnd
    requires FreeSlot(duration, windowStart, windowEnd, pad, busy).Some?
    ensures var s := FreeSlot(duration, windowStart, windowEnd, pad, busy).value;
      windowStart <= s.0 - pad && s.1 + pad <= windowEnd
  {
    var gaps := Gaps(windowStart, windowEnd, busy);
    var s := FreeSlot(duration, windowStart, windowEnd, pad, busy).value;
    FirstFitInsideGap(gaps, duration, pad);
    var g :| g in gaps && g.0 <= s.0 - pad && s.1 + pad <= g.1;
    GapsStartInWindow(windowStart, windowEnd, busy);
    WalkGapsBefore(windowStart, windowEnd, busy);
    var i :| 0 <= i < |gaps| && gaps[i] == g;
  }

  /** Window 09:00-13:00, busy 09:30-10:00 and 11:00-11:30, 30 minutes, no
      padding: the first gap, 09:00-09:30, already fits. */
  lemma MorningExample()
    ensures FreeSlot(30, 540, 780, 0, [(570, 600), (660, 690)]) == Some((540, 570))
  {
    var busy: seq<Interval> := [(570, 600), (660, 690)];
    assert busy[1..] == [(660, 690)] && busy[1..][1..] == [];
    assert Gaps(540, 780, busy) == [(540, 570), (600, 660), (690, 780)];
  }
}
