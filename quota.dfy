/**
 * The per-device daily translation quota: a persisted counter and the day it
 * was last reset, capped at 150 translations a day. "Today" is passed in as
 * the day string the source formats from the clock ("yyyy-MM-dd").
 */
module Quota {
  import opened Wrappers

  /** Free translations per day, per device. */
  const MaxPerDay: int := 150

  /** The two persisted entries: the count and the day it belongs to (absent on first run). */
  datatype Store = Store(count: int, day: Option<string>)

  /** The counter is in range; every operation keeps it so. */
  predicate Valid(s: Store) {
    0 <= s.count <= MaxPerDay
  }

  /** `resetIfNewDay`: a store from another day, or from no day, restarts at 0 for today. */
  function AfterReset(s: Store, today: string): Store {
    if s.day == Some(today) then s else Store(0, Some(today))
  }

  /** `remainingToday`: what is left of today's quota, never negative. */
  function Remaining(s: Store, today: string): (n: int)
    ensures n >= 0
    ensures Valid(s) ==> n <= MaxPerDay && n == MaxPerDay - AfterReset(s, today).count
  {
    var r := AfterReset(s, today);
    if MaxPerDay - r.count < 0 then 0 else MaxPerDay - r.count
  }

  /**
   * `consumeOneIfAvailable`: whether one translation is granted, and the store
   * afterwards. A translation is granted exactly when today's remaining quota
   * is positive; a grant adds one to the (reset) count and takes one from what
   * remains, a refusal leaves the (reset) store as it is.
   */
  function Consume(s: Store, today: string): (r: (bool, Store))
    ensures r.0 <==> Remaining(s, today) > 0
    ensures r.0 ==> r.1.count == AfterReset(s, today).count + 1
                    && Remaining(r.1, today) == Remaining(s, today) - 1
    ensures !r.0 ==> r.1 == AfterReset(s, today)
    ensures r.1.day == Some(today)
    ensures Valid(s) ==> Valid(r.1)
  {
    var r := AfterReset(s, today);
    if r.count < MaxPerDay then (true, r.(count := r.count + 1)) else (false, r)
  }

  /** The reset stamps today; on the stored day it changes nothing, on any other day it zeroes the count. */
  lemma ResetStampsToday(s: Store, today: string)
    ensures AfterReset(s, today).day == Some(today)
    ensures s.day == Some(today) ==> AfterReset(s, today) == s
    ensures s.day != Some(today) ==> AfterReset(s, today).count == 0
    ensures AfterReset(AfterReset(s, today), today) == AfterReset(s, today)
  {
  }

  /** The store after one consume per day in `days`, in order. */
  function ConsumeAll(s: Store, days: seq<string>): Store
    decreases |days|
  {
    if days == [] then s else ConsumeAll(Consume(s, days[0]).1, days[1..])
  }

  /** The number of those consumes that were granted. */
  function Granted(s: Store, days: seq<string>): nat
    decreases |days|
  {
    if days == [] then 0
    else (if Consume(s, days[0]).0 then 1 else 0) + Granted(Consume(s, days[0]).1, days[1..])
  }

  /** Starting from a count of at most 150, no sequence of consumes takes the count above 150. */
  lemma {:induction false} ConsumeAllStaysValid(s: Store, days: seq<string>)
    requires Valid(s)
    ensures Valid(ConsumeAll(s, days))
    decreases |days|
  {
    if days != [] {
      ConsumeAllStaysValid(Consume(s, days[0]).1, days[1..]);
    }
  }

  /** `n` copies of the same day. */
  function Repeat(today: string, n: nat): (r: seq<string>)
    ensures |r| == n && forall i :: 0 <= i < n ==> r[i] == today
  {
    if n == 0 then [] else [today] + Repeat(today, n - 1)
  }

  /**
   * Within one day, `n` requests are granted `min(n, remaining)` times: the
   * quota grants exactly what remains of today's 150 and nothing more.
   */
  lemma {:induction false} GrantedInOneDay(s: Store, today: string, n: nat)
    requires Valid(s)
    ensures Granted(s, Repeat(today, n)) == if n < Remaining(s, today) then n else Remaining(s, today)
    decreases n
  {
    if n > 0 {
      var days := Repeat(today, n);
      assert days[1..] == Repeat(today, n - 1);
      var next := Consume(s, today).1;
      GrantedInOneDay(next, today, n - 1);
    }
  }

  /** `DailyLimitManager`: the counter persisted as two entries. */
  class DailyLimitManager {
    /** The stored count (`LE_DailyTranslationCount`; 0 when absent). */
    var count: int
    /** The stored day (`LE_DailyTranslationDate`). */
    var day: Option<string>

    function Stored(): Store
      reads this
    {
      Store(count, day)
    }

    /** The manager over whatever the device has persisted. */
    constructor (stored: Store)
      ensures Stored() == stored
    {
      count := stored.count;
      day := stored.day;
    }

    method ResetIfNewDay(today: string)
      modifies this
      ensures Stored() == AfterReset(old(Stored()), today)
    {
      if day.Some? && day.value == today {
        return;
      }
      count := 0;
      day := Some(today);
    }

    method ConsumeOneIfAvailable(today: string) returns (allowed: bool)
      modifies this
      ensures (allowed, Stored()) == Consume(old(Stored()), today)
      ensures old(Valid(Stored())) ==> Valid(Stored())
    {
      ResetIfNewDay(today);
      var current := count;
      if !(current < MaxPerDay) {
        return false;
      }
      count := current + 1;
      return true;
    }

    method RemainingToday(today: string) returns (remaining: int)
      modifies this
      ensures remaining == Remaining(old(Stored()), today)
      ensures Stored() == AfterReset(old(Stored()), today)
      ensures old(Valid(Stored())) ==> 0 <= remaining <= MaxPerDay && Valid(Stored())
    {
      ResetIfNewDay(today);
      var current := count;
      remaining := if MaxPerDay - current < 0 then 0 else MaxPerDay - current;
    }

    method MaxPerDayLimit() returns (limit: int)
      ensures limit == 150
    {
      return MaxPerDay;
    }
  }
}
