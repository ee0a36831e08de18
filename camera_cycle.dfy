/**
 * The index arithmetic of the camera registries (`glCode.RenderResources`
 * and `glStart.RenderResources`): lookup by first occurrence and the wrapping
 * next/previous selection.
 */
module CameraCycle {

  /** `List.indexOf`: the first position holding `x`, or -1 when there is none. */
  function IndexOf<T(==)>(s: seq<T>, x: T): (i: int)
    ensures i == -1 <==> x !in s
    ensures i != -1 ==> 0 <= i < |s| && s[i] == x && x !in s[..i]
  {
    if |s| == 0 then -1
    else if s[0] == x then 0
    else
      var j := IndexOf(s[1..], x);
      assert s[1..][..if j == -1 then 0 else j] == s[1..if j == -1 then 1 else j + 1];
      if j == -1 then -1 else j + 1
  }

  /** `nextCamera`: wraps to 0 from the last index (or beyond it), otherwise increments. */
  function NextIndex(current: int, size: int): int {
    if current >= size - 1 then 0 else current + 1
  }

  /** `previousCamera`: wraps to `size - 1` from index 0 (or below it), otherwise decrements. */
  function PreviousIndex(current: int, size: int): int {
    if current <= 0 then size - 1 else current - 1
  }

  /** On a non-empty list, next and previous keep a valid index valid. */
  lemma SelectionStaysInRange(current: int, size: int)
    requires 0 <= current < size
    ensures 0 <= NextIndex(current, size) < size
    ensures 0 <= PreviousIndex(current, size) < size
  {
  }

  /** On a non-empty list, next and previous undo each other. */
  lemma NextAndPreviousAreInverse(current: int, size: int)
    requires 0 <= current < size
    ensures PreviousIndex(NextIndex(current, size), size) == current
    ensures NextIndex(PreviousIndex(current, size), size) == current
  {
  }

  /** On an empty list `previousCamera` selects index -1, which no camera has. */
  lemma PreviousOnEmptyList(current: int)
    requires current <= 0
    ensures PreviousIndex(current, 0) == -1
  {
  }

  /** The index after `n` calls of `nextCamera`. */
  function NextTimes(current: int, size: int, n: nat): int {
    if n == 0 then current else NextIndex(NextTimes(current, size, n - 1), size)
  }

  /** Pressing next `a` times and then `b` times is pressing it `a + b` times. */
  lemma {:induction false} NextTimesAdd(current: int, size: int, a: nat, b: nat)
    ensures NextTimes(current, size, a + b) == NextTimes(NextTimes(current, size, a), size, b)
  {
    if b > 0 {
      NextTimesAdd(current, size, a, b - 1);
    }
  }

  /** Before the end of the list is reached, `k` presses move the selection `k` places. */
  lemma {:induction false} NextTimesClimbs(current: int, size: int, k: nat)
    requires 0 <= current && current + k < size
    ensures NextTimes(current, size, k) == current + k
  {
    if k > 0 {
      NextTimesClimbs(current, size, k - 1);
    }
  }

  /** After as many presses of next as there are cameras the same camera is active again. */
  lemma FullCycleReturns(current: int, size: int)
    requires 0 <= current < size
    ensures NextTimes(current, size, size) == current
  {
    NextTimesClimbs(current, size, size - 1 - current);
    assert NextTimes(current, size, size - current) == 0;
    NextTimesClimbs(0, size, current);
    NextTimesAdd(current, size, size - current, current);
  }
}
