/** The streak tracker (components/MTracker.tsx): clean-time decomposition,
    rank lookup in `M_RANKS`, the relapse record, the panic and urge-surfer
    countdowns and the calendar's success counting. */
module MTracker {
  import opened Types
  import opened Strings

  const MS_PER_SECOND: int := 1000
  const MS_PER_MINUTE: int := 60000
  const MS_PER_HOUR: int := 3600000
  const MS_PER_DAY: int := 86400000

  // ---------------------------------------------------------------------------
  // Clean time

  datatype TimeClean = TimeClean(d: int, h: int, m: int, s: int)

  /** `data.lastRelapseDate || now`: a zero timestamp counts as missing. */
  function LastRelapseOr(lastRelapseDate: int, now: int): int {
    if lastRelapseDate == 0 then now else lastRelapseDate
  }

  /** The elapsed clean time, never negative. */
  function CleanDiff(lastRelapseDate: int, now: int): (diff: int)
    ensures diff >= 0
  {
    var last := LastRelapseOr(lastRelapseDate, now);
    if now - last > 0 then now - last else 0
  }

  /** `calculate()`: days, hours, minutes and seconds of the clean time. */
  function Calculate(lastRelapseDate: int, now: int): TimeClean {
    var diff := CleanDiff(lastRelapseDate, now);
    TimeClean(
      diff / MS_PER_DAY,
      (diff % MS_PER_DAY) / MS_PER_HOUR,
      (diff % MS_PER_HOUR) / MS_PER_MINUTE,
      (diff % MS_PER_MINUTE) / MS_PER_SECOND)
  }

  /** The components are in range and add up to the elapsed time, to within
      the milliseconds dropped. */
  lemma {:induction false} CalculateDecomposes(lastRelapseDate: int, now: int)
    ensures var t := Calculate(lastRelapseDate, now);
      var diff := CleanDiff(lastRelapseDate, now);
      var total := t.d * MS_PER_DAY + t.h * MS_PER_HOUR + t.m * MS_PER_MINUTE + t.s * MS_PER_SECOND;
      t.d >= 0 && 0 <= t.h < 24 && 0 <= t.m < 60 && 0 <= t.s < 60 &&
      total <= diff < total + MS_PER_SECOND
  {
    var diff := CleanDiff(lastRelapseDate, now);
    DayIntoHours(diff);
    HourIntoMinutes(diff);
    MinuteIntoSeconds(diff);
  }

  /** Whole days and the hours of the rest give whole hours. */
  lemma {:induction false} DayIntoHours(diff: int)
    requires diff >= 0
    ensures 0 <= (diff % MS_PER_DAY) / MS_PER_HOUR < 24
    ensures diff == (diff / MS_PER_DAY) * MS_PER_DAY + ((diff % MS_PER_DAY) / MS_PER_HOUR) * MS_PER_HOUR + diff % MS_PER_HOUR
  {
    ModOfMod(diff, MS_PER_HOUR, 24);
    DivMod(diff, MS_PER_DAY);
    DivMod(diff % MS_PER_DAY, MS_PER_HOUR);
  }

  /** The hour remainder splits into minutes and the minute remainder. */
  lemma {:induction false} HourIntoMinutes(diff: int)
    requires diff >= 0
    ensures 0 <= (diff % MS_PER_HOUR) / MS_PER_MINUTE < 60
    ensures diff % MS_PER_HOUR == ((diff % MS_PER_HOUR) / MS_PER_MINUTE) * MS_PER_MINUTE + diff % MS_PER_MINUTE
  {
    ModOfMod(diff, MS_PER_MINUTE, 60);
    DivMod(diff % MS_PER_HOUR, MS_PER_MINUTE);
  }

  /** The minute remainder splits into seconds and fewer than 1000 milliseconds. */
  lemma {:induction false} MinuteIntoSeconds(diff: int)
    requires diff >= 0
    ensures 0 <= (diff % MS_PER_MINUTE) / MS_PER_SECOND < 60
    ensures (diff % MS_PER_MINUTE) / MS_PER_SECOND * MS_PER_SECOND <= diff % MS_PER_MINUTE
    ensures diff % MS_PER_MINUTE < (diff % MS_PER_MINUTE) / MS_PER_SECOND * MS_PER_SECOND + MS_PER_SECOND
  {
  }

  // ---------------------------------------------------------------------------
  // Ranks

  /** The index of the last entry of `ranks` whose `days` is at most `d`:
      `[...ranks].reverse().find(r => d >= r.days)`. */
  function LastAtMost(ranks: seq<Rank>, d: int): (r: int)
    ensures -1 <= r < |ranks|
    ensures r >= 0 ==> ranks[r].days <= d
    ensures forall i :: r < i < |ranks| ==> ranks[i].days > d
  {
    if ranks == [] then -1
    else if ranks[|ranks| - 1].days <= d then |ranks| - 1
    else LastAtMost(ranks[..|ranks| - 1], d)
  }

  /** The index of the first entry of `ranks` whose `days` exceeds `d`:
      `ranks.find(r => r.days > d)`. */
  function FirstAbove(ranks: seq<Rank>, d: int): (r: int)
    ensures 0 <= r <= |ranks|
    ensures r < |ranks| ==> ranks[r].days > d
    ensures forall i :: 0 <= i < r ==> ranks[i].days <= d
  {
    if ranks == [] then 0
    else if ranks[0].days > d then 0
    else 1 + FirstAbove(ranks[1..], d)
  }

  predicate Ascending(ranks: seq<Rank>) {
    forall i, j :: 0 <= i < j < |ranks| ==> ranks[i].days <= ranks[j].days
  }

  lemma {:induction false} RanksAscending()
    ensures Ascending(M_RANKS) && M_RANKS[0].days == 0
  {
  }

  /** The last entry of an ascending table reached after `d` days, or its
      first entry. */
  function Reached(ranks: seq<Rank>, d: int): (r: Rank)
    requires ranks != [] && Ascending(ranks)
    ensures r in ranks
    ensures d >= ranks[0].days ==> r.days <= d
    ensures forall q :: q in ranks && q.days <= d ==> q.days <= r.days
  {
    var i := LastAtMost(ranks, d);
    if i >= 0 then ranks[i] else ranks[0]
  }

  /** The first entry of an ascending table not reached after `d` days, or
      `beyond` when every entry is reached. */
  function NotReached(ranks: seq<Rank>, d: int, beyond: Rank): (r: Rank)
    requires Ascending(ranks)
    ensures || (r in ranks && r.days > d && forall q :: q in ranks && q.days > d ==> r.days <= q.days)
            || (r == beyond && forall q :: q in ranks ==> q.days <= d)
  {
    var i := FirstAbove(ranks, d);
    if i < |ranks| then ranks[i] else beyond
  }

  /** The rank held after `d` clean days (also `prevRank` on the roadmap):
      the last entry reached, or the first entry. */
  function CurrentRank(d: int): (r: Rank)
    ensures r in M_RANKS
    ensures d >= 0 ==> r.days <= d
    ensures forall q :: q in M_RANKS && q.days <= d ==> q.days <= r.days
  {
    RanksAscending();
    Reached(M_RANKS, d)
  }

  /** `nextRank`: the first entry not yet reached, or a synthetic LEGEND
      100 days ahead. */
  function NextRank(d: int): (r: Rank)
    ensures r.days > d
    ensures r in M_RANKS ==> forall q :: q in M_RANKS && q.days > d ==> r.days <= q.days
    ensures r !in M_RANKS ==> r == Rank(d + 100, "LEGEND", "cyan-500") && forall q :: q in M_RANKS ==> q.days <= d
  {
    RanksAscending();
    assert Rank(d + 100, "LEGEND", "cyan-500") !in M_RANKS;
    NotReached(M_RANKS, d, Rank(d + 100, "LEGEND", "cyan-500"))
  }

  /** The current rank comes before the next one. */
  lemma {:induction false} RanksBracket(d: int)
    requires d >= 0
    ensures CurrentRank(d).days <= d < NextRank(d).days
  {
  }

  // ---------------------------------------------------------------------------
  // Relapse record

  /** `performReset()`: records a relapse at `now`. */
  function PerformReset(data: NoFapState, now: int): (r: NoFapState)
    ensures r.lastRelapseDate == now && r.currentStreakHours == 0 && r.status == RELAPSED
    ensures r.history == data.history + [HistoryEntry(now, StreakHours(data, now))]
    ensures r.bestStreakHours >= data.bestStreakHours && r.bestStreakHours >= StreakHours(data, now)
    ensures r.bestStreakHours == data.bestStreakHours || r.bestStreakHours == StreakHours(data, now)
  {
    var streakHours := StreakHours(data, now);
    var best := if data.bestStreakHours >= streakHours then data.bestStreakHours else streakHours;
    data.(lastRelapseDate := now, currentStreakHours := 0, bestStreakHours := best,
          history := data.history + [HistoryEntry(now, streakHours)], status := RELAPSED)
  }

  /** Whole hours since the last relapse (`Math.floor`, so a clock behind the
      last relapse gives a negative count). */
  function StreakHours(data: NoFapState, now: int): int {
    (now - LastRelapseOr(data.lastRelapseDate, now)) / MS_PER_HOUR
  }

  /** The relapse record leaves every earlier history entry in place and
      adds exactly one, at the end. */
  lemma {:induction false} ResetAppendsOne(data: NoFapState, now: int)
    ensures |PerformReset(data, now).history| == |data.history| + 1
    ensures PerformReset(data, now).history[..|data.history|] == data.history
    ensures PerformReset(data, now).history[|data.history|].date == now
  {
  }

  // ---------------------------------------------------------------------------
  // Panic and urge-surfer countdowns

  const PANIC_SECONDS: int := 60
  const SURF_SECONDS: int := 600

  /** The countdown state of the tracker screen. */
  class Countdowns {
    var panicMode: bool
    var panicTimer: int
    var isSurfing: bool
    var surfTimer: int

    ghost predicate Valid()
      reads this
    {
      0 <= panicTimer <= PANIC_SECONDS && (panicMode ==> panicTimer >= 1) &&
      1 <= surfTimer <= SURF_SECONDS && (!isSurfing ==> surfTimer == SURF_SECONDS)
    }

    constructor ()
      ensures Valid()
      ensures !panicMode && panicTimer == 0 && !isSurfing && surfTimer == SURF_SECONDS
    {
      panicMode := false;
      panicTimer := 0;
      isSurfing := false;
      surfTimer := SURF_SECONDS;
    }

    /** `handlePanic()`: entering panic mode starts the 60-second countdown;
        pressing it again while in panic mode changes nothing. */
    method Panic()
      requires Valid()
      modifies this
      ensures Valid()
      ensures panicMode
      ensures panicTimer == if old(panicMode) then old(panicTimer) else PANIC_SECONDS
      ensures isSurfing == old(isSurfing) && surfTimer == old(surfTimer)
    {
      if !panicMode {
        panicMode := true;
        panicTimer := PANIC_SECONDS;
      }
    }

    /** The abort button. */
    method AbortPanic()
      requires Valid()
      modifies this
      ensures Valid()
      ensures !panicMode && panicTimer == old(panicTimer)
      ensures isSurfing == old(isSurfing) && surfTimer == old(surfTimer)
    {
      panicMode := false;
    }

    /** One panic interval tick: the countdown drops by one; from 1 (or less)
        it drops to 0 and panic mode ends.  No interval runs outside panic mode. */
    method PanicTick()
      requires Valid()
      modifies this
      ensures Valid()
      ensures old(panicMode) && old(panicTimer) <= 1 ==> !panicMode && panicTimer == 0
      ensures old(panicMode) && old(panicTimer) > 1 ==> panicMode && panicTimer == old(panicTimer) - 1
      ensures !old(panicMode) ==> !panicMode && panicTimer == old(panicTimer)
      ensures isSurfing == old(isSurfing) && surfTimer == old(surfTimer)
    {
      if panicMode {
        if panicTimer <= 1 {
          panicMode := false;
          panicTimer := 0;
        } else {
          panicTimer := panicTimer - 1;
        }
      }
    }

    /** `toggleSurfer()`: cancelling resets the timer to 600 seconds. */
    method ToggleSurfer()
      requires Valid()
      modifies this
      ensures Valid()
      ensures isSurfing == !old(isSurfing)
      ensures surfTimer == if old(isSurfing) then SURF_SECONDS else old(surfTimer)
      ensures panicMode == old(panicMode) && panicTimer == old(panicTimer)
    {
      if isSurfing {
        isSurfing := false;
        surfTimer := SURF_SECONDS;
      } else {
        isSurfing := true;
      }
    }

    /** One surfer interval tick and the effect that follows it: reaching 0
        ends surfing and resets the timer to 600. */
    method SurfTick()
      requires Valid()
      modifies this
      ensures Valid()
      ensures old(isSurfing) && old(surfTimer) > 1 ==> isSurfing && surfTimer == old(surfTimer) - 1
      ensures old(isSurfing) && old(surfTimer) == 1 ==> !isSurfing && surfTimer == SURF_SECONDS
      ensures !old(isSurfing) ==> !isSurfing && surfTimer == old(surfTimer)
      ensures panicMode == old(panicMode) && panicTimer == old(panicTimer)
    {
      if isSurfing && surfTimer > 0 {
        surfTimer := surfTimer - 1;
        if surfTimer == 0 && isSurfing {
          isSurfing := false;
          surfTimer := SURF_SECONDS;
        }
      }
    }

    /** A full panic episode: 60 ticks after it starts, panic mode is over. */
    method RunPanic()
      requires Valid() && !panicMode
      modifies this
      ensures Valid() && !panicMode && panicTimer == 0
      ensures isSurfing == old(isSurfing) && surfTimer == old(surfTimer)
    {
      Panic();
      var ticks := 0;
      while panicMode
        invariant Valid()
        invariant panicMode ==> panicTimer == PANIC_SECONDS - ticks
        invariant !panicMode ==> panicTimer == 0 && ticks == PANIC_SECONDS
        invariant 0 <= ticks <= PANIC_SECONDS
        invariant isSurfing == old(isSurfing) && surfTimer == old(surfTimer)
        decreases panicTimer + (if panicMode then 1 else 0)
      {
        PanicTick();
        ticks := ticks + 1;
      }
    }
  }

  // ---------------------------------------------------------------------------
  // Calendar

  /** One calendar day: the timestamps of its midnight and of the next
      midnight. */
  datatype DaySlot = DaySlot(start: int, nextStart: int)

  /** As written: the day's end is built as 23:59:59.000, one second before
      the next midnight, and the test includes it. */
  predicate InDayAsWritten(day: DaySlot, date: int) {
    day.start <= date <= day.nextStart - MS_PER_SECOND
  }

  /** Corrected: the day runs from its midnight up to the next one. */
  predicate InDay(day: DaySlot, date: int) {
    day.start <= date < day.nextStart
  }

  predicate HasRelapseAsWritten(day: DaySlot, history: seq<HistoryEntry>) {
    exists e :: e in history && InDayAsWritten(day, e.date)
  }

  predicate HasRelapse(day: DaySlot, history: seq<HistoryEntry>) {
    exists e :: e in history && InDay(day, e.date)
  }

  /** A relapse in the last second of a day is shown on no day of the month
      as written; the corrected test places it on its day. */
  lemma {:induction false} LastSecondRelapseLost()
    ensures var days := [DaySlot(0, MS_PER_DAY), DaySlot(MS_PER_DAY, 2 * MS_PER_DAY)];
      var history := [HistoryEntry(MS_PER_DAY - 500, 0)];
      (forall i :: 0 <= i < |days| ==> !HasRelapseAsWritten(days[i], history)) &&
      HasRelapse(days[0], history)
  {
    var history := [HistoryEntry(MS_PER_DAY - 500, 0)];
    assert history[0] in history;
  }

  /** The days of a month: consecutive, each starting before it ends. */
  predicate Consecutive(days: seq<DaySlot>) {
    (forall i :: 0 <= i < |days| ==> days[i].start < days[i].nextStart) &&
    (forall i :: 0 <= i < |days| - 1 ==> days[i].nextStart == days[i + 1].start)
  }

  lemma {:induction false} ConsecutiveOrdered(days: seq<DaySlot>, i: int, j: int)
    requires Consecutive(days)
    requires 0 <= i < j < |days|
    ensures days[i].nextStart <= days[j].start
    decreases j - i
  {
    if j > i + 1 {
      ConsecutiveOrdered(days, i, j - 1);
    }
  }

  /** With the corrected test, every moment of the month lies in exactly one
      day. */
  lemma {:induction false} DaysPartitionMonth(days: seq<DaySlot>, date: int)
    requires Consecutive(days) && |days| > 0
    requires days[0].start <= date < days[|days| - 1].nextStart
    ensures exists i :: 0 <= i < |days| && InDay(days[i], date)
    ensures forall i, j :: 0 <= i < |days| && 0 <= j < |days| && InDay(days[i], date) && InDay(days[j], date) ==> i == j
    decreases |days|
  {
    if |days| > 1 && date >= days[|days| - 2].nextStart {
      assert InDay(days[|days| - 1], date);
    } else if |days| > 1 {
      var front := days[..|days| - 1];
      DaysPartitionMonth(front, date);
      var i :| 0 <= i < |front| && InDay(front[i], date);
      assert InDay(days[i], date);
    } else {
      assert InDay(days[0], date);
    }
    forall i, j | 0 <= i < |days| && 0 <= j < |days| && InDay(days[i], date) && InDay(days[j], date) ensures i == j {
      if i < j {
        ConsecutiveOrdered(days, i, j);
      } else if j < i {
        ConsecutiveOrdered(days, j, i);
      }
    }
  }

  /** A day counts as passed when its midnight is not after `now`. */
  predicate Passed(day: DaySlot, now: int) {
    day.start <= now
  }

  function PassedCount(days: seq<DaySlot>, now: int): (n: nat)
    ensures n <= |days|
  {
    if days == [] then 0
    else PassedCount(days[..|days| - 1], now) + (if Passed(days[|days| - 1], now) then 1 else 0)
  }

  function CleanCount(days: seq<DaySlot>, history: seq<HistoryEntry>, now: int): (n: nat)
    ensures n <= PassedCount(days, now)
  {
    if days == [] then 0
    else
      var last := days[|days| - 1];
      CleanCount(days[..|days| - 1], history, now)
      + (if Passed(last, now) && !HasRelapse(last, history) then 1 else 0)
  }

  /** The counting loop of `renderCalendar`: every passed day is counted,
      and a passed day without a relapse is a success. */
  method CountMonth(days: seq<DaySlot>, history: seq<HistoryEntry>, now: int)
    returns (successCount: nat, totalPassedDays: nat)
    ensures successCount == CleanCount(days, history, now)
    ensures totalPassedDays == PassedCount(days, now)
    ensures successCount <= totalPassedDays <= |days|
  {
    successCount := 0;
    totalPassedDays := 0;
    var k := 0;
    while k < |days|
      invariant 0 <= k <= |days|
      invariant successCount == CleanCount(days[..k], history, now)
      invariant totalPassedDays == PassedCount(days[..k], now)
    {
      assert days[..k + 1][..k] == days[..k];
      var day := days[k];
      var isFuture := day.start > now;
      var hasRelapse := HasRelapseLoop(day, history);
      var isClean := !hasRelapse && !isFuture;
      if !isFuture {
        totalPassedDays := totalPassedDays + 1;
        if isClean {
          successCount := successCount + 1;
        }
      }
      k := k + 1;
    }
    assert days[..k] == days;
  }

  /** `history.some(entry => ...)` with the corrected day test. */
  method HasRelapseLoop(day: DaySlot, history: seq<HistoryEntry>) returns (found: bool)
    ensures found == HasRelapse(day, history)
  {
    found := false;
    var i := 0;
    while i < |history| && !found
      invariant 0 <= i <= |history|
      invariant found ==> HasRelapse(day, history)
      invariant !found ==> forall j :: 0 <= j < i ==> !InDay(day, history[j].date)
    {
      if InDay(day, history[i].date) {
        found := true;
      }
      i := i + 1;
    }
  }

  /** `Math.round(successCount / totalPassedDays * 100)`, or 100 when no day
      has passed, in exact arithmetic: round half up of 100·s/t. */
  function SuccessRate(successCount: nat, totalPassedDays: nat): (r: int)
    requires successCount <= totalPassedDays
    ensures 0 <= r <= 100
    ensures totalPassedDays == 0 || successCount == totalPassedDays ==> r == 100
    ensures successCount == 0 ==> r == 0 || totalPassedDays == 0
  {
    if totalPassedDays > 0 then RoundedPercent(successCount, totalPassedDays) else 100
  }

  function RoundedPercent(s: nat, t: nat): (r: int)
    requires 0 < t && s <= t
    ensures 0 <= r <= 100
    ensures s == t ==> r == 100
    ensures s == 0 ==> r == 0
    ensures 2 * t * r <= 200 * s + t < 2 * t * (r + 1)
  {
    RoundBounds(s, t);
    (200 * s + t) / (2 * t)
  }

  lemma {:induction false} RoundBounds(s: nat, t: nat)
    requires 0 < t && s <= t
    ensures 0 <= (200 * s + t) / (2 * t) <= 100
    ensures s == t ==> (200 * s + t) / (2 * t) == 100
    ensures s == 0 ==> (200 * s + t) / (2 * t) == 0
    ensures 2 * t * ((200 * s + t) / (2 * t)) <= 200 * s + t < 2 * t * ((200 * s + t) / (2 * t) + 1)
  {
    QuotientBounds(200 * s + t, 2 * t, 100);
    if s == t {
      QuotientExact(200 * s + t, 2 * t, 100);
    }
    if s == 0 {
      QuotientExact(200 * s + t, 2 * t, 0);
    }
  }

  /** Division of a non-negative `n` below `d * (k + 1)` gives at most `k`. */
  lemma {:induction false} QuotientBounds(n: nat, d: int, k: nat)
    requires d > 0 && n < d * (k + 1)
    ensures 0 <= n / d <= k
    ensures d * (n / d) <= n < d * (n / d + 1)
  {
    var q := n / d;
    assert n == d * q + n % d;
    assert d * (q + 1) == d * q + d;
    if q > k {
      MulMonotone(k + 1, q, d);
    }
    if q < 0 {
      MulMonotone(q, -1, d);
    }
  }

  /** Division of `d * k + r` with `0 <= r < d` gives `k`. */
  lemma {:induction false} QuotientExact(n: int, d: int, k: int)
    requires d > 0 && d * k <= n < d * k + d
    ensures n / d == k
  {
    var q := n / d;
    assert n == d * q + n % d;
    if q > k {
      assert d * (k + 1) == d * k + d;
      MulMonotone(k + 1, q, d);
    }
    if q < k {
      assert d * (q + 1) <= d * k by { MulMonotone(q + 1, k, d); }
    }
  }

  lemma {:induction false} MulMonotone(a: int, b: int, c: nat)
    requires a <= b
    ensures c * a <= c * b
  {
    assert c * b - c * a == c * (b - a);
  }
}
