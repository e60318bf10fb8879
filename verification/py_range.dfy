/** Python's built-in `range(start, stop, step)` as a finite sequence. */
module PyRange {

  /** The values `range(start, stop, step)` yields, for a nonzero step
      (Python rejects a zero step). The contract characterises the result
      completely: element `i` is `start + i * step`, and the sequence stops
      at the last such value strictly before `stop`. */
  function Range(start: int, stop: int, step: int): (r: seq<int>)
    requires step != 0
    ensures forall i :: 0 <= i < |r| ==> r[i] == start + i * step
    ensures step > 0 ==> (|r| == 0 <==> stop <= start)
    ensures step < 0 ==> (|r| == 0 <==> start <= stop)
    ensures |r| > 0 && step > 0 ==> r[|r| - 1] < stop <= r[|r| - 1] + step
    ensures |r| > 0 && step < 0 ==> r[|r| - 1] + step <= stop < r[|r| - 1]
    decreases if step > 0 then stop - start else start - stop
  {
    if (step > 0 && start < stop) || (step < 0 && stop < start) then
      [start] + Range(start + step, stop, step)
    else
      []
  }

  /** Python's `len(range(start, stop, step))` for the two-degree steps the
      gradual servo moves use: the number of values strictly before `stop`. */
  lemma RangeLengthByTwo(start: int, stop: int, step: int)
    requires step == 2 || step == -2
    ensures step == 2 ==> |Range(start, stop, step)| == if start < stop then (stop - start + 1) / 2 else 0
    ensures step == -2 ==> |Range(start, stop, step)| == if stop < start then (start - stop + 1) / 2 else 0
  {
  }
}
