/**
 * Wrap-around stepping over the indices 0..last, shared by the option list
 * (last is the list size minus one) and the screen-resolution line (last is
 * mMaxValid).
 */
module Cycle {
  /** One step down that wraps below 0 to last (optionmenuitems.h:223 and :806). */
  function StepDown(s: int, last: int): int
  {
    if s - 1 < 0 then last else s - 1
  }

  /** One step up that wraps above last to 0 (optionmenuitems.h:227 and :812). */
  function StepUp(s: int, last: int): int
  {
    if s + 1 > last then 0 else s + 1
  }

  /** Both steps keep an index that is in range in range. */
  lemma StepsStayInRange(s: int, last: int)
    requires 0 <= s <= last
    ensures 0 <= StepDown(s, last) <= last
    ensures 0 <= StepUp(s, last) <= last
  {
  }

  /** Within range, a step up undoes a step down and the other way round. */
  lemma StepsAreInverse(s: int, last: int)
    requires 0 <= s <= last
    ensures StepUp(StepDown(s, last), last) == s
    ensures StepDown(StepUp(s, last), last) == s
  {
  }

  /** k steps up from s. */
  function StepUpTimes(s: int, last: int, k: nat): int
  {
    if k == 0 then s else StepUp(StepUpTimes(s, last, k - 1), last)
  }

  /** k steps down from s. */
  function StepDownTimes(s: int, last: int, k: nat): int
  {
    if k == 0 then s else StepDown(StepDownTimes(s, last, k - 1), last)
  }

  /** Steps up compose: a steps followed by b steps are a + b steps. */
  lemma {:induction false} StepUpTimesAdd(s: int, last: int, a: nat, b: nat)
    ensures StepUpTimes(StepUpTimes(s, last, a), last, b) == StepUpTimes(s, last, a + b)
  {
    if b > 0 {
      StepUpTimesAdd(s, last, a, b - 1);
    }
  }

  /** Below the top, k steps up are addition; one more step from the top wraps to 0. */
  lemma {:induction false} StepUpTimesAdds(s: int, last: int, k: nat)
    requires 0 <= s && s + k <= last
    ensures StepUpTimes(s, last, k) == s + k
    ensures StepUpTimes(s, last, k + 1) == if s + k == last then 0 else s + k + 1
  {
    if k > 0 {
      StepUpTimesAdds(s, last, k - 1);
    }
  }

  /** last + 1 steps up bring every in-range index back to itself. */
  lemma FullCycleUp(s: int, last: int)
    requires 0 <= s <= last
    ensures StepUpTimes(s, last, last + 1) == s
  {
    StepUpTimesAdds(s, last, last - s);
    if s > 0 {
      StepUpTimesAdds(0, last, s - 1);
    }
    StepUpTimesAdd(s, last, last - s + 1, s);
  }

  /** Every in-range index is reached from 0 by stepping up. */
  lemma StepUpReachesAll(j: int, last: int)
    requires 0 <= j <= last
    ensures StepUpTimes(0, last, j) == j
  {
    StepUpTimesAdds(0, last, j);
  }

  /** Stepping down from s, by k < s + 1 steps, is subtraction. */
  lemma {:induction false} StepDownTimesSubtracts(s: int, last: int, k: nat)
    requires 0 <= s <= last && k <= s
    ensures StepDownTimes(s, last, k) == s - k
  {
    if k > 0 {
      StepDownTimesSubtracts(s, last, k - 1);
    }
  }
}
