/** The dashboard's rules (components/Dashboard.tsx): the canvas colour of a
    Tailwind class, the weather-code text, the focus countdown, the news
    ticker's interleaving, the weekday picker and the ordering of the todo
    and alarm lists. */
module Dashboard {
  import opened Strings
  import opened Types
  import Sorting

  // ---------------------------------------------------------------------------
  // Canvas colours

  const WHITE: string := "#ffffff"

  /** The colour names looked for, in order, with the hex colour each gives. */
  const COLOR_TABLE: seq<(string, string)> := [
    ("cyan", "#06b6d4"), ("blue", "#3b82f6"), ("red", "#ef4444"),
    ("green", "#22c55e"), ("emerald", "#10b981"), ("fuchsia", "#d946ef"),
    ("purple", "#a855f7"), ("pink", "#ec4899"), ("slate", "#94a3b8"),
    ("neutral", "#a3a3a3"), ("yellow", "#eab308"), ("orange", "#f97316"),
    ("teal", "#14b8a6"), ("indigo", "#6366f1"), ("white", "#ffffff"),
    ("black", "#000000")]

  /** The index of the first table entry whose name occurs in `cls`, or
      `|table|` when none does. */
  function FirstColor(cls: string, table: seq<(string, string)>): (r: nat)
    ensures r <= |table|
    ensures r < |table| ==> Contains(cls, table[r].0)
    ensures forall i :: 0 <= i < r ==> !Contains(cls, table[i].0)
  {
    if table == [] then 0
    else if Contains(cls, table[0].0) then 0
    else 1 + FirstColor(cls, table[1..])
  }

  /** `getColor(twClass)`: white for a missing or empty class, otherwise the
      colour of the first name in the table that the class contains. */
  function GetColor(twClass: Option<string>): (r: string)
    ensures twClass == None || twClass == Some("") ==> r == WHITE
    ensures twClass.Some? && twClass.value != "" ==>
      (exists i :: 0 <= i < |COLOR_TABLE| && Contains(twClass.value, COLOR_TABLE[i].0) &&
        (forall j :: 0 <= j < i ==> !Contains(twClass.value, COLOR_TABLE[j].0)) &&
        r == COLOR_TABLE[i].1)
      || ((forall j :: 0 <= j < |COLOR_TABLE| ==> !Contains(twClass.value, COLOR_TABLE[j].0)) && r == WHITE)
  {
    match twClass
    case None => WHITE
    case Some(cls) =>
      if cls == "" then WHITE
      else
        var i := FirstColor(cls, COLOR_TABLE);
        if i < |COLOR_TABLE| then COLOR_TABLE[i].1 else WHITE
  }

  // ---------------------------------------------------------------------------
  // Weather

  /** The condition text of an Open-Meteo weather code. */
  function WeatherCondition(code: int): (r: string)
    ensures r == "CLEAR SKY" <==> code == 0
    ensures r == "CLOUDY" <==> 1 <= code <= 3
    ensures r == "FOG DETECTED" <==> 45 <= code <= 48
    ensures r == "RAIN" <==> 51 <= code <= 67
    ensures r == "SNOW" <==> 71 <= code <= 77
    ensures r == "SHOWERS" <==> 80 <= code <= 82
    ensures r == "STORM ALERT" <==> code >= 95
    ensures r == "UNKNOWN" <==> !(code == 0 || 1 <= code <= 3 || 45 <= code <= 48 || 51 <= code <= 67 ||
                                  71 <= code <= 77 || 80 <= code <= 82 || code >= 95)
  {
    if code == 0 then "CLEAR SKY"
    else if 1 <= code <= 3 then "CLOUDY"
    else if 45 <= code <= 48 then "FOG DETECTED"
    else if 51 <= code <= 67 then "RAIN"
    else if 71 <= code <= 77 then "SNOW"
    else if 80 <= code <= 82 then "SHOWERS"
    else if code >= 95 then "STORM ALERT"
    else "UNKNOWN"
  }

  // ---------------------------------------------------------------------------
  // Focus countdown

  /** The seconds the reactor timer shows at time `now`: counting down from
      the session's length while a session with a start time is active, the
      full length otherwise.  A start time of 0 counts as missing. */
  function RemainingSeconds(focus: FocusState, now: int): (r: int)
    ensures focus.isActive && focus.startTime.Some? && focus.startTime.value != 0 ==>
      0 <= r && (now >= focus.startTime.value ==> r <= focus.durationMinutes * 60 || r == 0)
    ensures !(focus.isActive && focus.startTime.Some? && focus.startTime.value != 0) ==>
      r == focus.durationMinutes * 60
  {
    if focus.isActive && focus.startTime.Some? && focus.startTime.value != 0 then
      var left := focus.durationMinutes * 60 - (now - focus.startTime.value) / 1000;
      if left > 0 then left else 0
    else focus.durationMinutes * 60
  }

  /** The countdown never goes up as time passes. */
  lemma {:induction false} RemainingNonIncreasing(focus: FocusState, now1: int, now2: int)
    requires now1 <= now2
    ensures RemainingSeconds(focus, now2) <= RemainingSeconds(focus, now1)
  {
    if focus.isActive && focus.startTime.Some? && focus.startTime.value != 0 {
      var s := focus.startTime.value;
      DivMonotone(now1 - s, now2 - s, 1000);
    }
  }

  /** An active session shows zero once its full length has elapsed. */
  lemma {:induction false} RemainingReachesZero(focus: FocusState, now: int)
    requires focus.isActive && focus.startTime.Some? && focus.startTime.value != 0
    requires now >= focus.startTime.value + focus.durationMinutes * 60000
    ensures RemainingSeconds(focus, now) == 0
  {
    var s := focus.startTime.value;
    DivMonotone(focus.durationMinutes * 60000, now - s, 1000);
    assert (focus.durationMinutes * 60000) / 1000 == focus.durationMinutes * 60;
  }

  lemma {:induction false} DivMonotone(a: int, b: int, d: int)
    requires a <= b && d > 0
    ensures a / d <= b / d
  {
    var qa := a / d;
    var qb := b / d;
    assert a == d * qa + a % d;
    assert b == d * qb + b % d;
    if qa > qb {
      assert d * (qb + 1) <= d * qa by { MulMonotone(qb + 1, qa, d); }
    }
  }

  lemma {:induction false} MulMonotone(a: int, b: int, c: nat)
    requires a <= b
    ensures c * a <= c * b
  {
    assert c * b - c * a == c * (b - a);
  }

  // ---------------------------------------------------------------------------
  // News ticker

  const MARKETS: seq<string> := [
    "[MARKET] BTC/USD: 94,320 (+2.1%)",
    "[MARKET] ETH/USD: 3,450 (-0.5%)",
    "[MARKET] NVDA: 1,140 (+1.8%)",
    "[SYS] GLOBAL HASH RATE: STABLE",
    "[INTEL] QUANTUM DECRYPTION: OFFLINE"]

  const NEWS_FALLBACK: seq<string> := ["UPLINK FAILED", "USING CACHED PROTOCOLS", "SYSTEM ALERT: CHECK NETWORK"]

  function Headline(title: string): string {
    "[NEWS] " + Upper(title)
  }

  /** The ticker items for the first `|h|` headlines. */
  function Mixed(h: seq<string>): (r: seq<string>)
    ensures |r| == Slot(|h|)
  {
    if h == [] then []
    else
      var i := |h| - 1;
      SlotStep(i);
      Mixed(h[..i]) + [h[i]] + (if i % 3 == 0 then [MARKETS[i % |MARKETS|]] else [])
  }

  /** Where headline `i` lands in the ticker: after the `i` earlier
      headlines and one market line per multiple of 3 below `i`. */
  function Slot(i: nat): nat {
    i + (i + 2) / 3
  }

  lemma {:induction false} SlotStep(n: nat)
    ensures Slot(n + 1) == Slot(n) + 1 + (if n % 3 == 0 then 1 else 0)
  {
    var q, m := n / 3, n % 3;
    assert n == 3 * q + m && 0 <= m < 3;
    assert (n + 3) / 3 == q + 1;
    if m == 0 {
      assert (n + 2) / 3 == q;
    } else {
      assert (n + 2) / 3 == q + 1;
    }
  }

  /** Every headline appears, in order, at `Slot(i)`, and a headline whose
      index is a multiple of 3 is followed by market line `i mod 5`. */
  lemma {:induction false} MixedLayout(h: seq<string>)
    ensures forall i :: 0 <= i < |h| ==> Slot(i) < |Mixed(h)| && Mixed(h)[Slot(i)] == h[i]
    ensures forall i :: 0 <= i < |h| && i % 3 == 0 ==>
      Slot(i) + 1 < |Mixed(h)| && Mixed(h)[Slot(i) + 1] == MARKETS[i % 5]
    ensures forall i, j :: 0 <= i < j < |h| ==> Slot(i) < Slot(j)
  {
    forall i | 0 <= i < |h|
      ensures Slot(i) < |Mixed(h)| && Mixed(h)[Slot(i)] == h[i]
      ensures i % 3 == 0 ==> Slot(i) + 1 < |Mixed(h)| && Mixed(h)[Slot(i) + 1] == MARKETS[i % 5]
    {
      MixedAt(h, i);
    }
    forall i, j | 0 <= i < j < |h| ensures Slot(i) < Slot(j) {
      SlotIncreasing(i, j);
    }
  }

  lemma {:induction false} SlotIncreasing(i: nat, j: nat)
    requires i < j
    ensures Slot(i) < Slot(j)
  {
    assert (i + 2) / 3 <= (j + 2) / 3 by { DivMonotone(i + 2, j + 2, 3); }
  }

  /** Headline `i` and the market line after it, one index at a time. */
  lemma {:induction false} MixedAt(h: seq<string>, i: nat)
    requires i < |h|
    ensures Slot(i) < |Mixed(h)| && Mixed(h)[Slot(i)] == h[i]
    ensures i % 3 == 0 ==> Slot(i) + 1 < |Mixed(h)| && Mixed(h)[Slot(i) + 1] == MARKETS[i % 5]
    decreases |h|
  {
    var n := |h| - 1;
    var front := h[..n];
    var m, mf := Mixed(h), Mixed(front);
    assert |MARKETS| == 5;
    var tail: seq<string> := if n % 3 == 0 then [MARKETS[n % 5]] else [];
    assert m == mf + [h[n]] + tail;
    assert |mf| == Slot(n);
    if i < n {
      MixedAt(front, i);
      assert front[i] == h[i];
      assert m[Slot(i)] == mf[Slot(i)];
      if i % 3 == 0 {
        assert m[Slot(i) + 1] == mf[Slot(i) + 1];
      }
    } else {
      assert m[Slot(n)] == h[n];
      if n % 3 == 0 {
        assert m[Slot(n) + 1] == tail[0];
      }
    }
  }

  /** The interleaving loop that builds the ticker from the fetched
      stories' titles; no stories on a failed fetch. */
  method NewsItems(titles: Option<seq<string>>) returns (items: seq<string>)
    ensures titles.None? ==> items == NEWS_FALLBACK
    ensures titles.Some? ==> items == Mixed(HeadlinesOf(titles.value))
  {
    if titles.None? {
      return NEWS_FALLBACK;
    }
    var headlines := HeadlinesOf(titles.value);
    items := [];
    var i := 0;
    while i < |headlines|
      invariant 0 <= i <= |headlines|
      invariant items == Mixed(headlines[..i])
    {
      assert headlines[..i + 1][..i] == headlines[..i];
      items := items + [headlines[i]];
      if i % 3 == 0 {
        items := items + [MARKETS[i % |MARKETS|]];
      }
      i := i + 1;
    }
    assert headlines[..i] == headlines;
  }

  function HeadlinesOf(titles: seq<string>): (r: seq<string>)
    ensures |r| == |titles|
    ensures forall i :: 0 <= i < |titles| ==> r[i] == Headline(titles[i])
  {
    if titles == [] then [] else HeadlinesOf(titles[..|titles| - 1]) + [Headline(titles[|titles| - 1])]
  }

  // ---------------------------------------------------------------------------
  // Alarm weekday picker

  function Without(days: seq<int>, d: int): (r: seq<int>)
    ensures forall x :: x in r <==> x in days && x != d
    ensures |r| <= |days|
  {
    if days == [] then []
    else if days[0] == d then Without(days[1..], d)
    else [days[0]] + Without(days[1..], d)
  }

  /** A weekday button: removes the day when it is picked, adds it at the
      end otherwise. */
  function ToggleDay(days: seq<int>, d: int): (r: seq<int>)
    ensures d in r <==> d !in days
    ensures forall x :: x != d ==> (x in r <==> x in days)
  {
    if d in days then Without(days, d) else days + [d]
  }

  /** Pressing the same button twice restores the picked set; starting from an
      unpicked day it restores the very list. */
  lemma {:induction false} ToggleTwice(days: seq<int>, d: int)
    ensures (set x | x in ToggleDay(ToggleDay(days, d), d)) == (set x | x in days)
    ensures d !in days ==> ToggleDay(ToggleDay(days, d), d) == days
  {
    if d !in days {
      WithoutAbsent(days, d);
      WithoutAppend(days, d);
    }
  }

  lemma {:induction false} WithoutAbsent(days: seq<int>, d: int)
    requires d !in days
    ensures Without(days, d) == days
  {
    if days != [] {
      assert d !in days[1..];
      WithoutAbsent(days[1..], d);
    }
  }

  lemma {:induction false} WithoutAppend(days: seq<int>, d: int)
    ensures Without(days + [d], d) == Without(days, d)
  {
    if days != [] {
      assert (days + [d])[1..] == days[1..] + [d];
      WithoutAppend(days[1..], d);
    } else {
      assert Without([d], d) == Without([], d);
    }
  }

  // ---------------------------------------------------------------------------
  // List ordering

  /** `priorityVal[priority || 'MED']`. */
  function PriorityValue(p: Option<Priority>): (r: int)
    ensures 1 <= r <= 3
    ensures p == None ==> r == 2
  {
    match p
    case None => 2
    case Some(HIGH) => 3
    case Some(MED) => 2
    case Some(LOW) => 1
  }

  /** Incomplete items first, then higher priority first. */
  function TodoKey(t: TodoItem): seq<int> {
    [if t.completed then 1 else 0, -PriorityValue(t.priority)]
  }

  /** `loadTodos()` ordering (a stable sort). */
  function OrderTodos(todos: seq<TodoItem>): (r: seq<TodoItem>)
    ensures |r| == |todos|
  {
    Sorting.SortBy(todos, TodoKey)
  }

  /** The ordered list is a permutation of the stored one, every incomplete
      item precedes every completed one, and within the same completion
      priorities do not increase. */
  lemma {:induction false} TodosOrdered(todos: seq<TodoItem>)
    ensures multiset(OrderTodos(todos)) == multiset(todos)
    ensures var r := OrderTodos(todos);
      forall i, j :: 0 <= i < j < |r| ==>
        (r[i].completed ==> r[j].completed) &&
        (r[i].completed == r[j].completed ==> PriorityValue(r[i].priority) >= PriorityValue(r[j].priority))
  {
    Sorting.SortByPermutation(todos, TodoKey);
    Sorting.SortBySorted(todos, TodoKey);
    var r := OrderTodos(todos);
    forall i, j | 0 <= i < j < |r|
      ensures r[i].completed ==> r[j].completed
      ensures r[i].completed == r[j].completed ==> PriorityValue(r[i].priority) >= PriorityValue(r[j].priority)
    {
      TodoKeyLe(r[i], r[j]);
    }
  }

  lemma {:induction false} TodoKeyLe(a: TodoItem, b: TodoItem)
    requires Sorting.KeyLe(TodoKey(a), TodoKey(b))
    ensures a.completed ==> b.completed
    ensures a.completed == b.completed ==> PriorityValue(a.priority) >= PriorityValue(b.priority)
  {
    assert TodoKey(a)[1..] == [-PriorityValue(a.priority)];
    assert TodoKey(b)[1..] == [-PriorityValue(b.priority)];
  }

  /** Items with equal completion and priority keep their stored order. */
  lemma {:induction false} TodosStable(todos: seq<TodoItem>, k: seq<int>)
    ensures Sorting.WithKey(OrderTodos(todos), TodoKey, k) == Sorting.WithKey(todos, TodoKey, k)
  {
    Sorting.SortByStable(todos, TodoKey, k);
  }

  function AlarmKey(a: Alarm): seq<int> {
    Sorting.CharCodes(a.time)
  }

  /** `loadAlarms()` ordering: by time text. */
  function OrderAlarms(alarms: seq<Alarm>): (r: seq<Alarm>)
    ensures |r| == |alarms|
  {
    Sorting.SortBy(alarms, AlarmKey)
  }

  /** The ordered alarms are a permutation of the stored ones, ascending by
      time text. */
  lemma {:induction false} AlarmsOrdered(alarms: seq<Alarm>)
    ensures multiset(OrderAlarms(alarms)) == multiset(alarms)
    ensures Sorting.SortedBy(OrderAlarms(alarms), AlarmKey)
  {
    Sorting.SortByPermutation(alarms, AlarmKey);
    Sorting.SortBySorted(alarms, AlarmKey);
  }

  /** `handleAddTodo()`: a blank entry adds nothing; otherwise a new incomplete
      item with the text as typed joins the list, which is then reordered. */
  function AddTodo(todos: seq<TodoItem>, newTodo: string, priority: Priority, id: string): (r: Option<seq<TodoItem>>)
    ensures IsBlank(newTodo) <==> r.None?
    ensures r.Some? ==> multiset(r.value) == multiset(todos) + multiset{TodoItem(id, newTodo, false, Some(priority))}
  {
    if IsBlank(newTodo) then None
    else
      var item := TodoItem(id, newTodo, false, Some(priority));
      Sorting.SortByPermutation(todos + [item], TodoKey);
      Some(OrderTodos(todos + [item]))
  }
}
