/** The bounded search for the last cron slot before a date, and the patched matcher. The slots of a
    schedule are a set of instants in milliseconds; the cron parser returns the least slot after a
    date, and throws (None) when there is none. */
module CronSearch {
  import opened Common

  const DEFAULT_LOOKBACK_MS: int := 48 * 60 * 60 * 1000
  const DEFAULT_MAX_ITERATIONS: nat := 3000

  type Slots = int -> bool
  type NextMatch = int -> Option<int>

  /** `next` returns the least slot strictly after its argument. */
  ghost predicate IsNext(slots: Slots, next: NextMatch) {
    && (forall t :: next(t).Some? ==> next(t).value > t && slots(next(t).value))
    && (forall t, s :: slots(s) && s > t ==> next(t).Some? && next(t).value <= s)
  }

  /** The slots strictly between two instants, in order. */
  ghost predicate Window(slots: Slots, lo: int, hi: int, list: seq<int>) {
    && (forall i, j :: 0 <= i < j < |list| ==> list[i] < list[j])
    && (forall s :: s in list <==> lo < s < hi && slots(s))
  }

  /** The last slot of the window, or none. */
  ghost predicate LastSlot(slots: Slots, lo: int, hi: int, r: Option<int>) {
    match r
    case None => forall s :: lo < s < hi ==> !slots(s)
    case Some(last) => lo < last < hi && slots(last) && forall s :: lo < s < hi && slots(s) ==> s <= last
  }

  /** What the search has seen after `i` slots. */
  ghost predicate Progress(lo: int, list: seq<int>, i: nat, cursor: int, last: Option<int>) {
    && i <= |list|
    && cursor == (if i == 0 then lo else list[i - 1])
    && last == (if i == 0 then None else Some(list[i - 1]))
  }

  /** What the search returns, in terms of the slots of the window. */
  ghost function SearchResult(next: NextMatch, before: int, list: seq<int>, maxIterations: nat): Option<int> {
    if |list| >= maxIterations then (if maxIterations == 0 then None else Some(list[maxIterations - 1]))
    else if next(before - 1).None? || list == [] then None
    else Some(list[|list| - 1])
  }

  lemma NextInWindow(slots: Slots, next: NextMatch, lo: int, hi: int, list: seq<int>,
                     i: nat, cursor: int, last: Option<int>)
    requires IsNext(slots, next) && Window(slots, lo, hi, list) && Progress(lo, list, i, cursor, last)
    ensures next(cursor).Some? && next(cursor).value < hi && lo <= cursor ==>
      i < |list| && list[i] == next(cursor).value
    ensures next(cursor).Some? && next(cursor).value >= hi ==> i == |list| && next(hi - 1).Some?
    ensures next(cursor).None? ==> i == |list| && (list == [] || next(hi - 1).None?)
  {
    if i < |list| {
      assert list[i] in list && list[i] > cursor;
    }
    assert i > 0 ==> list[i - 1] in list;
    if next(cursor).Some? {
      var s := next(cursor).value;
      if s < hi && lo <= cursor {
        assert s in list;
        var k :| 0 <= k < |list| && list[k] == s;
      }
    }
  }

  /** At most `maxIterations` slots forward from the start of the window. A matcher that fails to
      advance ends the search, as does one that throws. */
  method GetPreviousCronMatch(next: NextMatch, before: int, lookbackMs: int, maxIterations: nat,
                              ghost slots: Slots, ghost list: seq<int>)
    returns (r: Option<int>)
    requires Window(slots, before - lookbackMs, before, list)
    ensures r.Some? ==> before - lookbackMs < r.value < before
    ensures IsNext(slots, next) ==> r == SearchResult(next, before, list, maxIterations)
  {
    var lo := before - lookbackMs;
    var cursor := lo;
    r := None;
    for i := 0 to maxIterations
      invariant lo <= cursor
      invariant r.Some? ==> lo < r.value < before
      invariant IsNext(slots, next) ==> Progress(lo, list, i, cursor, r)
    {
      if IsNext(slots, next) { NextInWindow(slots, next, lo, before, list, i, cursor, r); }
      var found := next(cursor);
      if found.None? || found.value <= cursor {
        return None;
      }
      if found.value >= before {
        return r;
      }
      r := found;
      cursor := found.value;
    }
  }

  /** The search finds the last slot of the window if and only if the window holds at most
      `maxIterations` slots and, unless it holds none or exactly that many, the schedule goes on
      after it. */
  lemma SearchCorrectIff(slots: Slots, next: NextMatch, lo: int, before: int, list: seq<int>, maxIterations: nat)
    requires IsNext(slots, next) && Window(slots, lo, before, list)
    ensures LastSlot(slots, lo, before, SearchResult(next, before, list, maxIterations)) <==>
      |list| <= maxIterations && (|list| == maxIterations || |list| == 0 || exists s :: s >= before && slots(s))
  {
    var r := SearchResult(next, before, list, maxIterations);
    var n := |list|;
    assert n > 0 ==> list[n - 1] in list && list[0] in list;
    assert next(before - 1).Some? ==> next(before - 1).value >= before && slots(next(before - 1).value);
    forall s | lo < s < before && slots(s) ensures n > 0 && s <= list[n - 1] {
      assert s in list;
      var k :| 0 <= k < n && list[k] == s;
    }
    if n > maxIterations > 0 {
      assert list[maxIterations - 1] < list[n - 1];
    }
  }

  /** Every window has its list of slots. */
  lemma {:induction false} WindowExists(slots: Slots, lo: int, hi: int) returns (list: seq<int>)
    ensures Window(slots, lo, hi, list)
    decreases if hi > lo then hi - lo else 0
  {
    if hi <= lo + 1 {
      list := [];
    } else {
      var init := WindowExists(slots, lo, hi - 1);
      list := if slots(hi - 1) then init + [hi - 1] else init;
      assert forall i :: 0 <= i < |init| ==> init[i] in init;
    }
  }

  // ---- the defaults ----

  lemma {:induction false} Spacing(list: seq<int>, gap: int)
    requires list != [] && gap >= 0 && forall i :: 0 < i < |list| ==> list[i] >= list[i - 1] + gap
    ensures list[|list| - 1] - list[0] >= (|list| - 1) * gap
  {
    if |list| > 1 {
      Spacing(list[..|list| - 1], gap);
    }
  }

  /** A schedule whose slots are whole minutes fits the default window and bound. */
  lemma MinuteSchedulesFit(slots: Slots, before: int, list: seq<int>)
    requires forall s :: slots(s) ==> s % 60_000 == 0
    requires Window(slots, before - DEFAULT_LOOKBACK_MS, before, list)
    ensures |list| <= 2880 < DEFAULT_MAX_ITERATIONS == 3000 && DEFAULT_LOOKBACK_MS == 2 * 86_400_000
  {
    forall i | 0 < i < |list| ensures list[i] >= list[i - 1] + 60_000 {
      assert list[i] in list && list[i - 1] in list;
      assert list[i] % 60_000 == 0 && list[i - 1] % 60_000 == 0;
    }
    if list != [] {
      Spacing(list, 60_000);
      assert list[0] in list && list[|list| - 1] in list;
    }
  }

  /** So for such a schedule that goes on, the defaults find the last slot within 48 hours. */
  lemma DefaultsFindMinuteSlots(slots: Slots, next: NextMatch, before: int, list: seq<int>)
    requires IsNext(slots, next) && forall s :: slots(s) ==> s % 60_000 == 0
    requires Window(slots, before - DEFAULT_LOOKBACK_MS, before, list)
    requires exists s :: s >= before && slots(s)
    ensures LastSlot(slots, before - DEFAULT_LOOKBACK_MS, before,
                     SearchResult(next, before, list, DEFAULT_MAX_ITERATIONS))
  {
    MinuteSchedulesFit(slots, before, list);
    SearchCorrectIff(slots, next, before - DEFAULT_LOOKBACK_MS, before, list, DEFAULT_MAX_ITERATIONS);
  }

  /** A schedule with a slot every second does not fit: the bound stops the search early. */
  lemma SecondSchedulesDoNotFit(slots: Slots, next: NextMatch, before: int, list: seq<int>)
    requires IsNext(slots, next) && forall s :: slots(s) <==> s % 1000 == 0
    requires Window(slots, before - DEFAULT_LOOKBACK_MS, before, list)
    ensures !LastSlot(slots, before - DEFAULT_LOOKBACK_MS, before,
                      SearchResult(next, before, list, DEFAULT_MAX_ITERATIONS))
  {
    SearchCorrectIff(slots, next, before - DEFAULT_LOOKBACK_MS, before, list, DEFAULT_MAX_ITERATIONS);
    ManySlots(slots, before - DEFAULT_LOOKBACK_MS, before, list, DEFAULT_MAX_ITERATIONS + 1);
  }

  /** With a slot every second, `n` seconds hold at least `n` slots. */
  lemma {:induction false} ManySlots(slots: Slots, lo: int, hi: int, list: seq<int>, n: nat)
    requires (forall s :: slots(s) <==> s % 1000 == 0) && Window(slots, lo, hi, list) && lo + 1000 * n < hi
    ensures |list| >= n
    ensures n > 0 ==> lo < list[n - 1] <= lo + 1000 * n
    decreases n
  {
    if n > 0 {
      ManySlots(slots, lo, hi, list, n - 1);
      var previous := if n == 1 then lo else list[n - 2];
      var s := previous + 1000 - previous % 1000;
      assert s in list;
      var k :| 0 <= k < |list| && list[k] == s;
      assert list[n - 1] in list;
    }
  }

  // ---- the patched match ----

  function WholeSecond(date: int): int { date / 1000 * 1000 }

  predicate Match(next: NextMatch, date: int) {
    var normalized := WholeSecond(date);
    next(normalized - 1000) == Some(normalized)
  }

  /** A date matches exactly when its whole second is a slot, for schedules whose slots are whole
      seconds. The division is a floor, as for dates before 1970. */
  lemma MatchIffWholeSecondIsSlot(slots: Slots, next: NextMatch, date: int)
    requires IsNext(slots, next) && forall s :: slots(s) ==> s % 1000 == 0
    ensures Match(next, date) <==> exists s :: slots(s) && s <= date < s + 1000
  {
    var n := WholeSecond(date);
    assert forall s :: slots(s) && s <= date < s + 1000 ==> s == n;
    assert n % 1000 == 0;
    if slots(n) {
      assert next(n - 1000).Some? && next(n - 1000).value <= n;
      assert next(n - 1000).value % 1000 == 0;
    }
  }
}
