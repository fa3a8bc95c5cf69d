/** Range helpers of the searcher: Python's `range` and the inclusive
    variants built on top of it. */
module Utils {

  /** A two-element `(start, end)` tuple, the way the settings write ranges. */
  datatype Span = Span(start: int, end: int)

  /** Python's `range(start, stop, step)`, materialised as a sequence.
      It is the longest arithmetic progression from `start` with the given
      step that stays strictly on the near side of `stop`. */
  function PyRange(start: int, stop: int, step: int): (r: seq<int>)
    requires step != 0
    ensures forall i :: 0 <= i < |r| ==> r[i] == start + i * step
    ensures step > 0 ==> (forall i :: 0 <= i < |r| ==> r[i] < stop) && start + |r| * step >= stop
    ensures step < 0 ==> (forall i :: 0 <= i < |r| ==> r[i] > stop) && start + |r| * step <= stop
    decreases if step > 0 then stop - start else start - stop
  {
    if (step > 0 && start < stop) || (step < 0 && start > stop) then
      var rest := PyRange(start + step, stop, step);
      var r := [start] + rest;
      assert forall i :: 0 <= i < |r| ==> r[i] == start + i * step by {
        forall i | 0 <= i < |r| ensures r[i] == start + i * step {
          if i > 0 {
            assert r[i] == rest[i - 1];
            StepShift(start, step, i);
          }
        }
      }
      StepShift(start, step, |r|);
      r
    else
      []
  }

  /** One more step from `start` is the same progression shifted by one. */
  lemma StepShift(start: int, step: int, i: int)
    ensures start + step + (i - 1) * step == start + i * step
  {
    calc {
      start + step + (i - 1) * step;
      start + step + i * step - step;
      start + i * step;
    }
  }

  /** `range_inclusive(start, end, step)`: `range(start, end + 1, step)`.
      With a positive step every element lies in `[start, end]` and the
      next step would leave it; with step 1 it is exactly `start..end`. */
  function RangeInclusive(start: int, end: int, step: int): (r: seq<int>)
    requires step != 0
    ensures forall i :: 0 <= i < |r| ==> r[i] == start + i * step
    ensures step > 0 ==> (forall i :: 0 <= i < |r| ==> start <= r[i] <= end) && start + |r| * step > end
    ensures step == 1 ==> |r| == (if start <= end then end - start + 1 else 0)
    ensures step == 1 ==> forall x :: x in r <==> start <= x <= end
  {
    var r := PyRange(start, end + 1, step);
    if step == 1 then UnitRange(start, end); r else r
  }

  /** `range(start, end + 1)` with step 1 counts from `start` to `end`. */
  lemma UnitRange(start: int, end: int)
    ensures var r := PyRange(start, end + 1, 1);
      && |r| == (if start <= end then end - start + 1 else 0)
      && forall x :: x in r <==> start <= x <= end
  {
    var r := PyRange(start, end + 1, 1);
    assert forall i :: 0 <= i < |r| ==> r[i] == start + i;
    assert |r| > 0 ==> r[|r| - 1] == start + |r| - 1 < end + 1;
    forall x | start <= x <= end ensures x in r {
      assert r[x - start] == x;
    }
  }

  /** `range_inclusive_tuple` on a two-element tuple: every integer from
      `t.start` to `t.end`, in increasing order. */
  function RangeInclusiveTuple(t: Span): (r: seq<int>)
    ensures |r| == (if t.start <= t.end then t.end - t.start + 1 else 0)
    ensures forall i :: 0 <= i < |r| ==> r[i] == t.start + i
    ensures forall x :: x in r <==> t.start <= x <= t.end
  {
    RangeInclusive(t.start, t.end, 1)
  }

  /** `in_range_inclusive_tuple`: both ends of the tuple are admitted. */
  predicate InRangeInclusiveTuple(value: int, t: Span)
  {
    value >= t.start && value <= t.end
  }
}
