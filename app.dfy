/** The application shell (App.tsx): the alarm check that runs once a
    minute, the snooze button, custom-command registration and deletion,
    the commands the assistant issues (`handleAICommand`), the avatar
    carousel and license entry.

    Every `setState(prev => ...)` is a functional update of the record
    `AppState`; the component's other `useState` cells and its
    `lastCheckedMinuteRef` are fields of the class `AppShell`.  Clock
    readings (the formatted "HH:MM" minute, the weekday and the timestamp)
    are parameters; storage writes and sounds are not modelled beyond the
    alarm sound that is playing and the addresses passed to `window.open`. */
module App {
  import opened Strings
  import opened Types
  import Sorting
  import Dashboard
  import MTracker
  import LearningService

  const SNOOZE_MS: int := 5 * 60 * 1000
  const SNOOZE_WINDOW_MS: int := 60000
  const ITEMS_PER_PAGE: nat := 3
  const ACCESS_DENIED: string := "ACCESS DENIED: MASTER CLEARANCE REQUIRED."
  const DEFAULT_ALARM_LABEL: string := "AI ALARM"
  const CREATOR_NAME: string := "Mohammed Waiz Monazzum"
  const CREATOR_WELCOME: string := "Identity Verified: Mohammed Waiz Monazzum. Welcome back, Creator."
  const SETUP_WELCOME_TAIL: string :=
    "**\n\nWelcome to MARCO OS (v3.3). I am your Holographic AI Assistant.\n\n"
    + "I was created and architected by the visionary developer **Mohammed Waiz Monazzum**.\n\n"
    + "I am now linked to your biometrics and fully at your command. My systems are online and ready. How may I serve you today?"

  /** The part of the React state the modelled handlers read or write. */
  datatype AppState = AppState(
    view: AppView,
    theme: ThemeName,
    messages: seq<Message>,
    alarms: seq<Alarm>,
    customCommands: seq<CustomCommand>,
    activeOverlay: string,
    focusMode: FocusState,
    musicState: ActiveMusic,
    soundEffectsOn: bool,
    noFapData: NoFapState,
    learningProfile: LearningProfile,
    masterProfile: MasterProfile,
    userRole: UserRole)

  // ---------------------------------------------------------------------------
  // Lookups

  /** The position of the first element of `xs` satisfying `p`, or `|xs|`. */
  function FirstIndex<T>(xs: seq<T>, p: T -> bool): (i: nat)
    ensures i <= |xs|
    ensures i < |xs| ==> p(xs[i])
    ensures forall j :: 0 <= j < i ==> !p(xs[j])
    decreases |xs|
  {
    if xs == [] then 0
    else if p(xs[0]) then 0
    else 1 + FirstIndex(xs[1..], p)
  }

  /** `xs.find(p)`. */
  function FirstWhere<T>(xs: seq<T>, p: T -> bool): (r: Option<T>)
    ensures r.None? <==> forall j :: 0 <= j < |xs| ==> !p(xs[j])
    ensures r.Some? ==> r.value == xs[FirstIndex(xs, p)] && p(r.value)
  {
    var i := FirstIndex(xs, p);
    if i < |xs| then Some(xs[i]) else None
  }

  /** `Enum[k]` for an enumeration whose members `xs` have keys `key`: the
      member with key `k`. */
  function ByKey<T>(xs: seq<T>, key: T -> string, k: string): (r: Option<T>)
    ensures r.None? <==> forall j :: 0 <= j < |xs| ==> key(xs[j]) != k
    ensures r.Some? ==> key(r.value) == k && r.value in xs
  {
    FirstWhere(xs, (x: T) => key(x) == k)
  }

  /** `AppView[key]`. */
  function ViewByKey(key: string): Option<AppView> {
    ByKey(AppViews, AppViewKey, key)
  }

  lemma {:induction false} AppViewKeyInjective(a: AppView, b: AppView)
    ensures AppViewKey(a) == AppViewKey(b) ==> a == b
  {
  }

  /** A member's own key finds a member with that key. */
  lemma {:induction false} ByKeyFinds<T>(xs: seq<T>, key: T -> string, x: T)
    requires x in xs
    ensures ByKey(xs, key, key(x)).Some?
  {
    var i :| 0 <= i < |xs| && xs[i] == x;
  }

  lemma {:induction false} AppViewListed(v: AppView)
    ensures v in AppViews
  {
  }

  /** Looking a view up by its own key finds that view. */
  lemma {:induction false} ViewByOwnKey(v: AppView)
    ensures ViewByKey(AppViewKey(v)) == Some(v)
  {
    AppViewListed(v);
    ByKeyFinds(AppViews, AppViewKey, v);
    var r := ViewByKey(AppViewKey(v));
    AppViewKeyInjective(r.value, v);
  }

  // ---------------------------------------------------------------------------
  // The alarm check

  /** `alarm.snoozedUntil` taken as a condition: present and not 0. */
  predicate Snoozed(a: Alarm) {
    a.snoozedUntil.Some? && a.snoozedUntil.value != 0
  }

  /** Whether the check at minute `minute`, weekday `day` and timestamp `now`
      takes `a` as an alarm to ring: inactive alarms never ring; a snoozed
      alarm rings once its snooze has ended, whatever the time and day; any
      other alarm rings at its minute on a listed day, or on any day when it
      lists none. */
  predicate Due(a: Alarm, minute: string, day: int, now: int) {
    a.isActive &&
    if Snoozed(a) then now >= a.snoozedUntil.value
    else a.time == minute && (a.days == [] || day in a.days)
  }

  /** The last due alarm in list order. */
  function LastDue(alarms: seq<Alarm>, minute: string, day: int, now: int): Option<Alarm>
    decreases |alarms|
  {
    if alarms == [] then None
    else if Due(alarms[|alarms| - 1], minute, day, now) then Some(alarms[|alarms| - 1])
    else LastDue(alarms[..|alarms| - 1], minute, day, now)
  }

  /** No alarm is chosen exactly when none is due. */
  lemma {:induction false} LastDueNone(alarms: seq<Alarm>, minute: string, day: int, now: int)
    ensures LastDue(alarms, minute, day, now).None? <==> forall i :: 0 <= i < |alarms| ==> !Due(alarms[i], minute, day, now)
    decreases |alarms|
  {
    if alarms != [] {
      var n := |alarms| - 1;
      var pre := alarms[..n];
      LastDueNone(pre, minute, day, now);
      assert forall i :: 0 <= i < n ==> pre[i] == alarms[i];
    }
  }

  /** The chosen alarm is due, with no due alarm after it in the list. */
  lemma {:induction false} LastDueLast(alarms: seq<Alarm>, minute: string, day: int, now: int)
    ensures LastDue(alarms, minute, day, now).Some? ==>
      exists i :: 0 <= i < |alarms| && alarms[i] == LastDue(alarms, minute, day, now).value &&
        Due(alarms[i], minute, day, now) &&
        forall j :: i < j < |alarms| ==> !Due(alarms[j], minute, day, now)
    decreases |alarms|
  {
    if alarms != [] {
      var n := |alarms| - 1;
      var pre := alarms[..n];
      if Due(alarms[n], minute, day, now) {
        assert alarms[n] == LastDue(alarms, minute, day, now).value;
      } else if LastDue(pre, minute, day, now).Some? {
        LastDueLast(pre, minute, day, now);
        var i :| 0 <= i < n && pre[i] == LastDue(pre, minute, day, now).value &&
          Due(pre[i], minute, day, now) && forall j :: i < j < n ==> !Due(pre[j], minute, day, now);
        assert alarms[i] == pre[i];
        assert forall j :: i < j < |alarms| ==> !Due(alarms[j], minute, day, now) by {
          assert forall j :: i < j < n ==> pre[j] == alarms[j];
        }
      }
    }
  }

  /** The `forEach` of the alarm check: each due alarm overwrites the one
      found so far. */
  method FindDue(alarms: seq<Alarm>, minute: string, day: int, now: int) returns (found: Option<Alarm>)
    ensures found == LastDue(alarms, minute, day, now)
  {
    found := None;
    var i := 0;
    while i < |alarms|
      invariant 0 <= i <= |alarms|
      invariant found == LastDue(alarms[..i], minute, day, now)
    {
      assert alarms[..i + 1][..i] == alarms[..i];
      var a := alarms[i];
      if !a.isActive {
      } else if Snoozed(a) && now < a.snoozedUntil.value {
      } else if Snoozed(a) && now >= a.snoozedUntil.value {
        found := Some(a);
      } else if a.time == minute {
        if |a.days| == 0 {
          found := Some(a);
        } else if day in a.days {
          found := Some(a);
        }
      }
      i := i + 1;
    }
    assert alarms[..|alarms|] == alarms;
  }

  /** `alarms.map(a => a.id === id ? u : a)`. */
  function ReplaceId(alarms: seq<Alarm>, id: string, u: Alarm): (r: seq<Alarm>)
    ensures |r| == |alarms|
    ensures forall i :: 0 <= i < |alarms| ==> r[i] == (if alarms[i].id == id then u else alarms[i])
  {
    seq(|alarms|, i requires 0 <= i < |alarms| => if alarms[i].id == id then u else alarms[i])
  }

  /** The alarm list after `fired` rang. */
  function AfterFire(alarms: seq<Alarm>, fired: Alarm): (r: seq<Alarm>)
    ensures |r| == |alarms|
    ensures forall i :: 0 <= i < |alarms| && alarms[i].id != fired.id ==> r[i] == alarms[i]
    ensures fired.days == [] && !Snoozed(fired) ==>
      forall i :: 0 <= i < |alarms| && alarms[i].id == fired.id ==> r[i] == fired.(isActive := false)
    ensures Snoozed(fired) ==>
      forall i :: 0 <= i < |alarms| && alarms[i].id == fired.id ==> r[i] == fired.(snoozedUntil := None)
    ensures fired.days != [] && !Snoozed(fired) ==> r == alarms
  {
    if fired.days == [] && !Snoozed(fired) then ReplaceId(alarms, fired.id, fired.(isActive := false))
    else if Snoozed(fired) then ReplaceId(alarms, fired.id, fired.(snoozedUntil := None))
    else alarms
  }

  /** A one-shot alarm that rang never rings again: every entry with its id
      is switched off. */
  lemma {:induction false} OneShotRingsOnce(alarms: seq<Alarm>, minute: string, day: int, now: int,
                                            m: string, d: int, t: int)
    requires LastDue(alarms, minute, day, now).Some?
    requires LastDue(alarms, minute, day, now).value.days == []
    requires !Snoozed(LastDue(alarms, minute, day, now).value)
    ensures var a := LastDue(alarms, minute, day, now).value;
      forall i :: 0 <= i < |alarms| && alarms[i].id == a.id ==> !Due(AfterFire(alarms, a)[i], m, d, t)
  {
  }

  /** An alarm that rang at the end of its snooze stays on with the snooze
      cleared: it rings next at its own minute. */
  lemma {:induction false} SnoozeEndClears(alarms: seq<Alarm>, minute: string, day: int, now: int,
                                           m: string, d: int, t: int)
    requires LastDue(alarms, minute, day, now).Some?
    requires Snoozed(LastDue(alarms, minute, day, now).value)
    ensures var a := LastDue(alarms, minute, day, now).value;
      forall i :: 0 <= i < |alarms| && alarms[i].id == a.id ==>
        (Due(AfterFire(alarms, a)[i], m, d, t) <==> a.time == m && (a.days == [] || d in a.days))
  {
    var a := LastDue(alarms, minute, day, now).value;
    LastDueLast(alarms, minute, day, now);
    assert a.isActive;
  }

  // ---------------------------------------------------------------------------
  // Snooze

  /** The condition `handleAlarmClose(true)` tests: an active alarm due this
      minute, or one whose snooze ends within the next minute. */
  predicate SnoozeHit(a: Alarm, minute: string, now: int) {
    a.isActive && (a.time == minute || (Snoozed(a) && a.snoozedUntil.value <= now + SNOOZE_WINDOW_MS))
  }

  /** An alarm set to ring again five minutes after `now`. */
  function Rearmed(a: Alarm, now: int): Alarm {
    a.(snoozedUntil := Some(now + SNOOZE_MS), isActive := true)
  }

  /** The alarm list after the snooze button at minute `minute`, timestamp `now`. */
  function Snoozing(alarms: seq<Alarm>, minute: string, now: int): (r: seq<Alarm>)
    ensures |r| == |alarms|
    ensures forall i :: 0 <= i < |alarms| ==>
      r[i] == (if SnoozeHit(alarms[i], minute, now) then Rearmed(alarms[i], now) else alarms[i])
  {
    seq(|alarms|, i requires 0 <= i < |alarms| =>
      if SnoozeHit(alarms[i], minute, now) then Rearmed(alarms[i], now) else alarms[i])
  }

  /** A re-armed alarm rings at every check from five minutes after the
      snooze on, and at no check before. */
  lemma {:induction false} RearmedRingsAfterFive(a: Alarm, now: int, m: string, d: int, t: int)
    requires now >= 0
    ensures Due(Rearmed(a, now), m, d, t) <==> t >= now + SNOOZE_MS
  {
    assert Snoozed(Rearmed(a, now));
  }

  /** As written: a one-shot alarm has already been switched off when it
      rang, so the snooze passes over it and it never rings again. */
  lemma {:induction false} OneShotSnoozeLost(a: Alarm, minute: string, day: int, now: int,
                                             m: string, d: int, t: int)
    requires a.isActive && a.days == [] && a.snoozedUntil == None && a.time == minute
    ensures LastDue([a], minute, day, now) == Some(a)
    ensures Snoozing(AfterFire([a], a), minute, now) == [a.(isActive := false)]
    ensures !Due(Snoozing(AfterFire([a], a), minute, now)[0], m, d, t)
  {
    assert LastDue([a][..0], minute, day, now) == None;
    var fired := AfterFire([a], a);
    assert fired[0] == a.(isActive := false);
    var s := Snoozing(fired, minute, now);
    assert s[0] == fired[0];
  }

  /** The snooze as intended: the alarm that rang is re-armed as well as
      every alarm the written condition picks. */
  function SnoozeRung(alarms: seq<Alarm>, rung: Alarm, minute: string, now: int): (r: seq<Alarm>)
    ensures |r| == |alarms|
    ensures forall i :: 0 <= i < |alarms| ==>
      r[i] == (if alarms[i].id == rung.id || SnoozeHit(alarms[i], minute, now) then Rearmed(alarms[i], now) else alarms[i])
  {
    seq(|alarms|, i requires 0 <= i < |alarms| =>
      if alarms[i].id == rung.id || SnoozeHit(alarms[i], minute, now) then Rearmed(alarms[i], now) else alarms[i])
  }

  /** With the intended snooze, the alarm that rang (a one-shot one
      included) rings again exactly from five minutes later on. */
  lemma {:induction false} SnoozeRungRearms(alarms: seq<Alarm>, rung: Alarm, minute: string, now: int,
                                            i: int, m: string, d: int, t: int)
    requires now >= 0 && 0 <= i < |alarms| && alarms[i].id == rung.id
    ensures Due(SnoozeRung(alarms, rung, minute, now)[i], m, d, t) <==> t >= now + SNOOZE_MS
  {
    RearmedRingsAfterFive(alarms[i], now, m, d, t);
  }

  // ---------------------------------------------------------------------------
  // Custom commands

  /** The trigger as stored: with a leading "/". */
  function NormalTrigger(t: string): (r: string)
    ensures StartsWith(r, "/")
    ensures StartsWith(t, "/") ==> r == t
    ensures !StartsWith(t, "/") ==> r[1..] == t
  {
    if StartsWith(t, "/") then t else "/" + t
  }

  predicate HasTrigger(cmds: seq<CustomCommand>, t: string) {
    exists i :: 0 <= i < |cmds| && cmds[i].trigger == t
  }

  /** No two custom commands share a trigger. */
  predicate UniqueTriggers(cmds: seq<CustomCommand>) {
    forall i, j :: 0 <= i < j < |cmds| ==> cmds[i].trigger != cmds[j].trigger
  }

  /** The command `handleRegisterCommand()` adds, if any: nothing for an
      empty trigger or payload or a trigger already taken. */
  function NewCommand(cmds: seq<CustomCommand>, trigger: string, action: CommandAction, payload: string, id: string): (r: Option<CustomCommand>)
    ensures r.None? <==> trigger == "" || payload == "" || HasTrigger(cmds, NormalTrigger(trigger))
    ensures r.Some? ==> r.value == CustomCommand(id, NormalTrigger(trigger), action, payload)
  {
    if trigger == "" || payload == "" then None
    else
      var t := NormalTrigger(trigger);
      if HasTrigger(cmds, t) then None else Some(CustomCommand(id, t, action, payload))
  }

  /** Registering keeps the triggers distinct. */
  lemma {:induction false} RegisterKeepsUnique(cmds: seq<CustomCommand>, trigger: string, action: CommandAction, payload: string, id: string)
    requires UniqueTriggers(cmds)
    requires NewCommand(cmds, trigger, action, payload, id).Some?
    ensures UniqueTriggers(cmds + [NewCommand(cmds, trigger, action, payload, id).value])
  {
    var c := NewCommand(cmds, trigger, action, payload, id).value;
    var r := cmds + [c];
    forall i, j | 0 <= i < j < |r| ensures r[i].trigger != r[j].trigger {
      if j == |cmds| {
        assert r[i] == cmds[i];
      }
    }
  }

  /** `cmds.filter(c => c.id !== id)`. */
  function WithoutCommand(cmds: seq<CustomCommand>, id: string): (r: seq<CustomCommand>)
    ensures forall c :: c in r <==> c in cmds && c.id != id
    ensures |r| <= |cmds|
    ensures (forall i :: 0 <= i < |cmds| ==> cmds[i].id != id) ==> r == cmds
    ensures |cmds| == 1 ==> r == if cmds[0].id == id then [] else cmds
    decreases |cmds|
  {
    if cmds == [] then []
    else
      var rest := WithoutCommand(cmds[1..], id);
      assert forall c :: c in cmds <==> c == cmds[0] || c in cmds[1..];
      if cmds[0].id == id then rest else [cmds[0]] + rest
  }

  /** The filter works piece by piece: with the one-element case of its
      contract, this fixes the result as the kept commands in their order
      and multiplicity. */
  lemma {:induction false} WithoutCommandAppend(a: seq<CustomCommand>, b: seq<CustomCommand>, id: string)
    ensures WithoutCommand(a + b, id) == WithoutCommand(a, id) + WithoutCommand(b, id)
    decreases |a|
  {
    if a == [] {
      assert a + b == b;
    } else {
      assert (a + b)[0] == a[0] && (a + b)[1..] == a[1..] + b;
      WithoutCommandAppend(a[1..], b, id);
    }
  }

  /** Deleting keeps the triggers distinct. */
  lemma {:induction false} DeleteKeepsUnique(cmds: seq<CustomCommand>, id: string)
    requires UniqueTriggers(cmds)
    ensures UniqueTriggers(WithoutCommand(cmds, id))
    decreases |cmds|
  {
    if cmds != [] {
      var tail := cmds[1..];
      UniqueTail(cmds);
      DeleteKeepsUnique(tail, id);
      var rest := WithoutCommand(tail, id);
      if cmds[0].id != id {
        forall c | c in rest ensures c.trigger != cmds[0].trigger {
          HeadTriggerAlone(cmds, c);
        }
        UniqueCons(cmds[0], rest);
      }
    }
  }

  lemma {:induction false} UniqueTail(cmds: seq<CustomCommand>)
    requires cmds != [] && UniqueTriggers(cmds)
    ensures UniqueTriggers(cmds[1..])
  {
    var tail := cmds[1..];
    forall i, j | 0 <= i < j < |tail| ensures tail[i].trigger != tail[j].trigger {
      assert tail[i] == cmds[i + 1] && tail[j] == cmds[j + 1];
    }
  }

  lemma {:induction false} HeadTriggerAlone(cmds: seq<CustomCommand>, c: CustomCommand)
    requires cmds != [] && UniqueTriggers(cmds) && c in cmds[1..]
    ensures c.trigger != cmds[0].trigger
  {
    var k :| 0 <= k < |cmds[1..]| && cmds[1..][k] == c;
    assert cmds[k + 1] == c;
  }

  lemma {:induction false} UniqueCons(x: CustomCommand, rest: seq<CustomCommand>)
    requires UniqueTriggers(rest)
    requires forall c :: c in rest ==> c.trigger != x.trigger
    ensures UniqueTriggers([x] + rest)
  {
    var r := [x] + rest;
    forall i, j | 0 <= i < j < |r| ensures r[i].trigger != r[j].trigger {
      assert r[j] == rest[j - 1];
      if i > 0 {
        assert r[i] == rest[i - 1];
      }
    }
  }

  // ---------------------------------------------------------------------------
  // THEME

  /** `s.replace(/\s+/g, '_')`: each run of white space becomes one "_". */
  function Underscored(s: string): (r: string)
    ensures |r| <= |s|
    ensures forall i :: 0 <= i < |r| ==> !IsSpace(r[i])
    decreases |s|
  {
    if s == [] then []
    else if IsSpace(s[0]) then "_" + Underscored(TrimStart(s[1..]))
    else [s[0]] + Underscored(s[1..])
  }

  lemma {:induction false} UnderscoredSpaceless(s: string)
    requires forall i :: 0 <= i < |s| ==> !IsSpace(s[i])
    ensures Underscored(s) == s
    decreases |s|
  {
    if s != [] {
      UnderscoredSpaceless(s[1..]);
      assert [s[0]] + s[1..] == s;
    }
  }

  /** The THEME payload as looked up: trimmed, upper-cased, white-space runs
      turned into "_". */
  function ThemeInput(payload: string): string {
    Underscored(Upper(Trim(payload)))
  }

  /** The THEME command's fuzzy test: either string contains the other. */
  predicate Fuzzy(k: string, raw: string) {
    Contains(k, raw) || Contains(raw, k)
  }

  /** `Enum[raw]`, else the first member whose key passes the fuzzy test. */
  function KeyLookup<T>(xs: seq<T>, key: T -> string, raw: string): (r: Option<T>)
    ensures (exists i :: 0 <= i < |xs| && key(xs[i]) == raw) ==> r.Some? && key(r.value) == raw
    ensures (forall i :: 0 <= i < |xs| ==> key(xs[i]) != raw) ==> r == FirstWhere(xs, (x: T) => Fuzzy(key(x), raw))
    ensures r.None? <==> forall i :: 0 <= i < |xs| ==> !Fuzzy(key(xs[i]), raw)
  {
    var exact := ByKey(xs, key, raw);
    if exact.Some? then
      assert Fuzzy(key(exact.value), raw) by { ContainsSelf(raw); }
      exact
    else FirstWhere(xs, (x: T) => Fuzzy(key(x), raw))
  }

  /** The theme the THEME command selects. */
  function ThemeTarget(payload: string): Option<ThemeName> {
    KeyLookup(Themes, ThemeKey, ThemeInput(payload))
  }

  lemma {:induction false} ThemeKeyInjective(a: ThemeName, b: ThemeName)
    ensures ThemeKey(a) == ThemeKey(b) ==> a == b
  {
  }

  predicate KeyChar(c: char) {
    IsUpper(c) || c == '_'
  }

  lemma {:induction false} ThemeKeyNonEmpty(t: ThemeName)
    ensures ThemeKey(t) != []
  {
  }

  lemma {:induction false} ThemeKeyChars(t: ThemeName)
    ensures ThemeKey(t) != [] && forall i :: 0 <= i < |ThemeKey(t)| ==> KeyChar(ThemeKey(t)[i])
  {
  }

  /** A string of capitals and "_" passes the THEME normalisation unchanged. */
  lemma {:induction false} ThemeInputOfKey(k: string)
    requires k != [] && forall i :: 0 <= i < |k| ==> KeyChar(k[i])
    ensures ThemeInput(k) == k
  {
    TrimNoSpaceEnds(k);
    UpperOfNoLower(k);
    UnderscoredSpaceless(k);
  }

  /** Naming a theme by its key selects that theme. */
  lemma {:induction false} ThemeListed(t: ThemeName)
    ensures t in Themes
  {
  }

  /** A member's own key, given exactly, finds that member when keys are
      distinct. */
  lemma {:induction false} KeyLookupOwn<T>(xs: seq<T>, key: T -> string, x: T)
    requires x in xs
    requires forall a, b :: key(a) == key(b) ==> a == b
    ensures KeyLookup(xs, key, key(x)) == Some(x)
  {
    var i :| 0 <= i < |xs| && xs[i] == x;
  }

  lemma {:induction false} ThemeKeyNormal(t: ThemeName)
    ensures ThemeInput(ThemeKey(t)) == ThemeKey(t)
  {
    ThemeKeyChars(t);
    ThemeInputOfKey(ThemeKey(t));
  }

  lemma {:induction false} ThemeByOwnKey(t: ThemeName)
    ensures ThemeTarget(ThemeKey(t)) == Some(t)
  {
    ThemeKeyNormal(t);
    ThemeListed(t);
    forall a, b ensures ThemeKey(a) == ThemeKey(b) ==> a == b {
      ThemeKeyInjective(a, b);
    }
    KeyLookupOwn(Themes, ThemeKey, t);
  }

  /** A blank payload normalises to "" which every key contains, so the
      first theme is selected. */
  lemma {:induction false} BlankThemeIsFirst(payload: string)
    requires AllSpace(payload)
    ensures ThemeTarget(payload) == Some(NEON_BLUE)
  {
    TrimPadded(payload, "", "");
    assert payload + "" + "" == payload;
    assert ThemeInput(payload) == "";
    forall t | t in Themes ensures ThemeKey(t) != "" {
      ThemeKeyNonEmpty(t);
    }
    assert Fuzzy(ThemeKey(Themes[0]), "");
  }

  // ---------------------------------------------------------------------------
  // ALARM

  /** `/^\d{2}:\d{2}$/`: two digits, a colon, two digits. */
  predicate IsClock(t: string) {
    |t| == 5 && IsDigit(t[0]) && IsDigit(t[1]) && t[2] == ':' && IsDigit(t[3]) && IsDigit(t[4])
  }

  /** The label: the trimmed second piece, or the default when it is
      missing or blank (`parts[1]?.trim() || 'AI ALARM'`). */
  function LabelFrom(rest: seq<string>): (r: string)
    ensures r != ""
  {
    if rest != [] && Trim(rest[0]) != "" then Trim(rest[0]) else DEFAULT_ALARM_LABEL
  }

  /** The alarm made from the pieces of the payload: the trimmed first piece
      must look like a time. */
  function AlarmFromParts(parts: seq<string>, id: string): Option<Alarm>
    requires |parts| >= 1
  {
    var time := Trim(parts[0]);
    if IsClock(time) then Some(Alarm(id, time, LabelFrom(parts[1..]), true, [], SIREN, None))
    else None
  }

  /** The alarm the ALARM command creates from "time;;label", if any: an
      active, once-only SIREN alarm at a time of the right shape with a
      non-blank label. */
  function NewAlarm(payload: string, id: string): (r: Option<Alarm>)
    ensures r.Some? ==> IsClock(r.value.time) && r.value.id == id && r.value.labelText != ""
    ensures r.Some? ==> r.value.isActive && r.value.days == [] && r.value.sound == SIREN && r.value.snoozedUntil == None
  {
    if payload == "" then None else AlarmFromParts(Split(payload, ";;"), id)
  }

  lemma {:induction false} ClockTrimmed(t: string)
    requires IsClock(t)
    ensures Trim(t) == t
  {
    TrimNoSpaceEnds(t);
  }

  lemma {:induction false} ClockUnsplit(t: string)
    requires IsClock(t)
    ensures Split(t, ";;") == [t]
  {
    assert ';' !in t;
    SplitNoLead(t, ";;");
  }

  /** A single piece that trims to a clock time gives that time with the
      default label. */
  lemma {:induction false} ClockAlone(parts: seq<string>, time: string, id: string)
    requires |parts| == 1 && IsClock(time) && Trim(parts[0]) == time
    ensures AlarmFromParts(parts, id) == Some(Alarm(id, time, DEFAULT_ALARM_LABEL, true, [], SIREN, None))
  {
    assert parts[1..] == [];
  }

  /** Two pieces: the clock time and a label that trims to non-blank text. */
  lemma {:induction false} ClockWithText(parts: seq<string>, time: string, text: string, id: string)
    requires |parts| == 2 && IsClock(time) && Trim(parts[0]) == time
    requires text != "" && Trim(parts[1]) == text
    ensures AlarmFromParts(parts, id) == Some(Alarm(id, time, text, true, [], SIREN, None))
  {
    assert parts[1..][0] == parts[1];
  }

  /** A bare time of the right shape, whatever its digits, sets an alarm
      with the default label. */
  lemma {:induction false} AlarmDefaultLabel(t: string, id: string)
    requires IsClock(t)
    ensures NewAlarm(t, id) == Some(Alarm(id, t, DEFAULT_ALARM_LABEL, true, [], SIREN, None))
  {
    ClockUnsplit(t);
    ClockTrimmed(t);
    ClockAlone(Split(t, ";;"), t, id);
  }

  /** "time;;label" with a trimmed label free of ';' sets an alarm with that
      time and label. */
  lemma {:induction false} AlarmWithLabel(t: string, text: string, id: string)
    requires IsClock(t) && text != "" && Trim(text) == text && ';' !in text
    ensures NewAlarm(t + ";;" + text, id) == Some(Alarm(id, t, text, true, [], SIREN, None))
  {
    var parts := Split(t + ";;" + text, ";;");
    LabelledSplit(t, text);
    ClockTrimmed(t);
    assert Trim(parts[0]) == t && Trim(parts[1]) == text;
    ClockWithText(parts, t, text, id);
  }

  lemma {:induction false} LabelledSplit(t: string, text: string)
    requires IsClock(t) && ';' !in text
    ensures Split(t + ";;" + text, ";;") == [t, text]
  {
    assert ';' !in t;
    SplitNoLeadPrefix(t, ";;", text);
    SplitNoLead(text, ";;");
  }

  /** "99:99" is accepted: the shape check does not bound the digits. */
  lemma {:induction false} AlarmAcceptsAnyDigits(id: string)
    ensures NewAlarm("99:99", id).Some?
  {
    AlarmDefaultLabel("99:99", id);
  }

  /** The alarm list after the ALARM command. */
  function AlarmCommand(s: AppState, payload: string, now: int): (r: AppState)
    ensures r == s.(alarms := r.alarms)
  {
    match NewAlarm(payload, IntToString(now))
    case None => s
    case Some(a) => s.(alarms := Dashboard.OrderAlarms(s.alarms + [a]))
  }

  /** The ALARM command adds exactly its new alarm and leaves the list in
      time order, or changes nothing. */
  lemma {:induction false} AlarmCommandOrdered(s: AppState, payload: string, now: int)
    ensures var r := AlarmCommand(s, payload, now);
      match NewAlarm(payload, IntToString(now))
      case None => r == s
      case Some(a) => (multiset(r.alarms) == multiset(s.alarms) + multiset{a} &&
        Sorting.SortedBy(r.alarms, Dashboard.AlarmKey) &&
        r == s.(alarms := r.alarms))
  {
    match NewAlarm(payload, IntToString(now)) {
      case None =>
      case Some(a) =>
        Dashboard.AlarmsOrdered(s.alarms + [a]);
    }
  }

  // ---------------------------------------------------------------------------
  // FOCUS

  /** `handleToggleFocus(minutes)`: a truthy minute count starts a session
      now; an absent or zero one stops the current session. */
  function ToggleFocus(f: FocusState, minutes: Option<int>, now: int): (r: FocusState)
    ensures r.isActive <==> minutes.Some? && minutes.value != 0
    ensures r.isActive ==> r == FocusState(true, minutes.value, Some(now), "FOCUS_SESSION")
    ensures !r.isActive ==> r.startTime == None && r.durationMinutes == f.durationMinutes && r.labelText == f.labelText
  {
    if minutes.Some? && minutes.value != 0 then FocusState(true, minutes.value, Some(now), "FOCUS_SESSION")
    else f.(isActive := false, startTime := None)
  }

  function FocusCommand(s: AppState, payload: string, now: int): (r: AppState)
    ensures r == s.(focusMode := r.focusMode)
  {
    if payload == "STOP" then s.(focusMode := ToggleFocus(s.focusMode, None, now))
    else
      match ParseInt(payload)
      case None => s
      case Some(m) => s.(focusMode := ToggleFocus(s.focusMode, Some(m), now))
  }

  /** FOCUS with a payload that parses to a number starts a session of that
      many minutes, except that 0 stops the session. */
  lemma {:induction false} FocusParsed(s: AppState, payload: string, n: int, now: int)
    requires payload != "STOP" && ParseInt(payload) == Some(n)
    ensures FocusCommand(s, payload, now).focusMode.isActive <==> n != 0
    ensures n != 0 ==> FocusCommand(s, payload, now).focusMode.durationMinutes == n
  {
  }

  lemma {:induction false} NumberNotStop(n: int)
    ensures IntToString(n) != "STOP"
  {
    var r := IntToString(n);
    if n >= 0 {
      NatToStringDigits(n, 10);
      assert r == NatToString(n, 10);
      assert IsDigitIn(r[0], 10) && !IsDigitIn('S', 10);
    } else {
      assert r[0] == '-';
    }
    assert "STOP"[0] == 'S';
  }

  /** FOCUS with a number written out starts a session of that many
      minutes, except that 0 stops the session. */
  lemma {:induction false} FocusMinutes(s: AppState, n: int, now: int)
    ensures FocusCommand(s, IntToString(n), now).focusMode.isActive <==> n != 0
    ensures n != 0 ==> FocusCommand(s, IntToString(n), now).focusMode.durationMinutes == n
  {
    ParseIntRoundTrip(n);
    NumberNotStop(n);
    FocusParsed(s, IntToString(n), n, now);
  }

  // ---------------------------------------------------------------------------
  // NAVIGATE, OPEN_URL and the dispatcher

  function Navigate(s: AppState, payload: string): (r: AppState)
    ensures r == s.(view := r.view, messages := r.messages)
  {
    var target := ViewByKey(payload);
    if target == Some(ADMIN_GENESIS) && s.masterProfile.licenseKey != MASTER_KEY then
      s.(messages := s.messages + [Message(System, ACCESS_DENIED, true)])
    else if target.Some? then s.(view := target.value)
    else s
  }

  /** The address OPEN_URL opens: trimmed, with "https://" added unless it
      already starts with "http". */
  function UrlToOpen(payload: string): (r: Option<string>)
    ensures r.Some? <==> payload != ""
    ensures r.Some? ==> StartsWith(r.value, "http")
    ensures r.Some? ==> r.value == Trim(payload) || r.value == "https://" + Trim(payload)
  {
    if payload == "" then None
    else
      var url := Trim(payload);
      if StartsWith(url, "http") then Some(url) else Some("https://" + url)
  }

  /** Opening an address that the command produced opens the same address. */
  lemma {:induction false} UrlToOpenIdempotent(payload: string)
    requires payload != ""
    ensures UrlToOpen(UrlToOpen(payload).value) == UrlToOpen(payload)
  {
    var u := UrlToOpen(payload).value;
    var t := Trim(payload);
    TrimNoOuterSpace(payload);
    assert u != "" && u[0] == 'h';
    assert t != [] ==> !IsSpace(u[|u| - 1]) by {
      if t != [] && u != t {
        assert u[|u| - 1] == t[|t| - 1];
      }
    }
    if t == [] {
      assert u == "https://";
      TrimNoSpaceEnds(u);
    } else {
      TrimNoSpaceEnds(u);
    }
  }

  /** The learning-profile update `handleUpdateProfile({type, value})`. */
  function Counted(p: LearningProfile, kind: LearningService.ActionKind, value: string, now: int): LearningProfile {
    LearningService.ProfileAfter(p, LearningService.ProfileAction(kind, value, []), now)
  }

  /** THEME: the selected theme is applied and counted among the preferred
      themes; without a match nothing changes. */
  function ThemeCommand(s: AppState, payload: string, now: int): (r: AppState)
    ensures r == s.(theme := r.theme, learningProfile := r.learningProfile)
    ensures r.learningProfile.topCommands == s.learningProfile.topCommands
    ensures r.learningProfile.totalInteractions == s.learningProfile.totalInteractions
  {
    match ThemeTarget(payload)
    case None => s
    case Some(t) => s.(theme := t, learningProfile := Counted(s.learningProfile, LearningService.THEME, ThemeKey(t), now))
  }

  /** SOUND: "ON" and "OFF" switch the sound effects; any other payload is
      ignored. */
  function SoundCommand(s: AppState, payload: string): (r: AppState)
    ensures r == s.(soundEffectsOn := r.soundEffectsOn)
    ensures r.soundEffectsOn == (if payload == "ON" then true else if payload == "OFF" then false else s.soundEffectsOn)
  {
    if payload == "ON" then s.(soundEffectsOn := true)
    else if payload == "OFF" then s.(soundEffectsOn := false)
    else s
  }

  /** The relapse record MTRACKER RELAPSE builds: like the tracker screen's
      reset, but the streak is measured from `lastRelapseDate` as stored,
      without the screen's fallback for a zero timestamp. */
  function RelapseRecord(data: NoFapState, now: int): (r: NoFapState)
    ensures r.lastRelapseDate == now && r.currentStreakHours == 0 && r.status == RELAPSED
    ensures |r.history| == |data.history| + 1 && r.history[..|data.history|] == data.history
    ensures r.history[|data.history|].date == now
    ensures r.bestStreakHours >= data.bestStreakHours && r.bestStreakHours >= r.history[|data.history|].streakHours
  {
    var streak := (now - data.lastRelapseDate) / MTracker.MS_PER_HOUR;
    data.(lastRelapseDate := now, currentStreakHours := 0,
          bestStreakHours := if data.bestStreakHours >= streak then data.bestStreakHours else streak,
          history := data.history + [HistoryEntry(now, streak)], status := RELAPSED)
  }

  /** MTRACKER: RELAPSE records a relapse, CHECKIN marks the streak clean. */
  function TrackerCommand(s: AppState, payload: string, now: int): (r: AppState)
    ensures r == s.(noFapData := r.noFapData)
  {
    if payload == "RELAPSE" then s.(noFapData := RelapseRecord(s.noFapData, now))
    else if payload == "CHECKIN" then s.(noFapData := s.noFapData.(status := CLEAN))
    else s
  }

  // ---------------------------------------------------------------------------
  // MUSIC

  /** The system message MUSIC posts when no track of the vault matches. */
  function TrackNotFound(payload: string): string {
    "ERROR: Track '" + payload + "' not found in Sonic Vault."
  }

  /** `allTracks.find(t => t.name.toLowerCase() === payload.toLowerCase())`:
      the first track whose name equals the payload ignoring case. */
  function FindTrack(vault: seq<MusicTrack>, payload: string): (r: Option<MusicTrack>)
    ensures r.None? <==> forall j :: 0 <= j < |vault| ==> Lower(vault[j].name) != Lower(payload)
    ensures r.Some? ==> exists i :: (0 <= i < |vault| && vault[i] == r.value && Lower(vault[i].name) == Lower(payload) &&
      forall j :: 0 <= j < i ==> Lower(vault[j].name) != Lower(payload))
  {
    var i := FirstIndex(vault, (t: MusicTrack) => Lower(t.name) == Lower(payload));
    if i < |vault| then Some(vault[i]) else None
  }

  /** MUSIC: a non-empty payload plays the matching track of the vault
      (`vault` is what `getMusicTracks` reads, `url` the object URL made
      for the track's blob) or, when none matches, posts the not-found
      error; an empty payload does nothing. */
  function MusicCommand(s: AppState, payload: string, vault: seq<MusicTrack>, url: string): (r: AppState)
    ensures r == s.(musicState := r.musicState, messages := r.messages)
    ensures payload == "" ==> r == s
  {
    if payload == "" then s
    else
      match FindTrack(vault, payload)
      case Some(t) => s.(musicState := ActiveMusic(true, t.name, Some(url)))
      case None => s.(messages := s.messages + [Message(System, TrackNotFound(payload), true)])
  }

  /** MUSIC posts the not-found error exactly when the payload is non-empty
      and no vault track has its name ignoring case; otherwise a non-empty
      payload starts a vault track with that name, and nothing else changes. */
  lemma {:induction false} MusicOutcome(s: AppState, payload: string, vault: seq<MusicTrack>, url: string)
    ensures var r := MusicCommand(s, payload, vault, url);
      r.messages == s.messages + [Message(System, TrackNotFound(payload), true)] <==>
        payload != "" && forall j :: 0 <= j < |vault| ==> Lower(vault[j].name) != Lower(payload)
    ensures var r := MusicCommand(s, payload, vault, url);
      r.messages != s.messages + [Message(System, TrackNotFound(payload), true)] ==>
        r.messages == s.messages &&
        (payload != "" ==> (r.musicState.isPlaying && r.musicState.url == Some(url) &&
          exists i :: 0 <= i < |vault| && vault[i].name == r.musicState.trackName && Lower(vault[i].name) == Lower(payload)))
    ensures var r := MusicCommand(s, payload, vault, url);
      payload == "" ==> r == s
  {
    var r := MusicCommand(s, payload, vault, url);
    assert |s.messages + [Message(System, TrackNotFound(payload), true)]| == |s.messages| + 1;
    if payload != "" {
      match FindTrack(vault, payload) {
        case Some(t) =>
          var i :| 0 <= i < |vault| && vault[i] == t && Lower(vault[i].name) == Lower(payload) &&
            forall j :: 0 <= j < i ==> Lower(vault[j].name) != Lower(payload);
          assert vault[i].name == r.musicState.trackName;
        case None =>
      }
    }
  }

  /** The `switch (command)` of `handleAICommand`.  TODO, MEMORY, NOTE and
      EMAIL touch storage or the browser only, and OPEN_URL only opens a
      tab, so they leave this state as it is.  MUSIC reads the vault's
      tracks `vault` and gets `url` for the chosen one's blob. */
  function Handle(s: AppState, command: string, payload: string, now: int, vault: seq<MusicTrack>, url: string): AppState {
    if command == "NAVIGATE" then Navigate(s, payload)
    else if command == "THEME" then ThemeCommand(s, payload, now)
    else if command == "OVERLAY" then s.(activeOverlay := payload)
    else if command == "ALARM" then AlarmCommand(s, payload, now)
    else if command == "FOCUS" then FocusCommand(s, payload, now)
    else if command == "SOUND" then SoundCommand(s, payload)
    else if command == "MTRACKER" then TrackerCommand(s, payload, now)
    else if command == "MUSIC" then MusicCommand(s, payload, vault, url)
    else s
  }

  /** The state after `handleAICommand(command, payload)` at timestamp `now`:
      the command is counted in the learning profile, then its case applies. */
  function Dispatch(s0: AppState, command: string, payload: string, now: int, vault: seq<MusicTrack>, url: string): AppState {
    Handle(s0.(learningProfile := Counted(s0.learningProfile, LearningService.COMMAND, command, now)), command, payload, now, vault, url)
  }

  /** Only NAVIGATE moves the view; no case touches the master profile, the
      command counters or the interaction count. */
  lemma {:induction false} HandleFrame(s: AppState, command: string, payload: string, now: int, vault: seq<MusicTrack>, url: string)
    ensures var r := Handle(s, command, payload, now, vault, url);
      r.masterProfile == s.masterProfile &&
      (command == "NAVIGATE" ==> r == Navigate(s, payload)) &&
      (command != "NAVIGATE" ==> r.view == s.view) &&
      r.learningProfile.topCommands == s.learningProfile.topCommands &&
      r.learningProfile.totalInteractions == s.learningProfile.totalInteractions &&
      (r.learningProfile.lastActive == s.learningProfile.lastActive || r.learningProfile.lastActive == now)
  {
  }

  /** NAVIGATE opens the view its payload names, except that the admin view
      needs the master key; nothing else opens the admin view. */
  lemma {:induction false} NavigateGuard(s: AppState, payload: string)
    requires s.view != ADMIN_GENESIS
    ensures Navigate(s, payload).view == ADMIN_GENESIS <==>
      ViewByKey(payload) == Some(ADMIN_GENESIS) && s.masterProfile.licenseKey == MASTER_KEY
    ensures ViewByKey(payload) == Some(ADMIN_GENESIS) && s.masterProfile.licenseKey != MASTER_KEY ==>
      Navigate(s, payload).messages == s.messages + [Message(System, ACCESS_DENIED, true)]
  {
  }

  /** Every command is counted once under its name and stamps the profile. */
  lemma {:induction false} DispatchCounts(s: AppState, command: string, payload: string, now: int, vault: seq<MusicTrack>, url: string)
    requires command != ""
    ensures var p := Dispatch(s, command, payload, now, vault, url).learningProfile;
      p.lastActive == now && p.totalInteractions == s.learningProfile.totalInteractions &&
      LearningService.CountOf(p.topCommands, command) == LearningService.CountOf(s.learningProfile.topCommands, command) + 1
  {
    var c := s.(learningProfile := Counted(s.learningProfile, LearningService.COMMAND, command, now));
    HandleFrame(c, command, payload, now, vault, url);
  }

  /** The command dispatcher reaches the secret admin view only with the
      master license key: from any other view, NAVIGATE to ADMIN_GENESIS
      succeeds exactly when the profile carries that key, and otherwise
      posts the refusal. */
  lemma {:induction false} AdminNeedsMasterKey(s: AppState, payload: string, now: int, vault: seq<MusicTrack>, url: string)
    requires s.view != ADMIN_GENESIS
    ensures Dispatch(s, "NAVIGATE", payload, now, vault, url).view == ADMIN_GENESIS <==>
      payload == "ADMIN_GENESIS" && s.masterProfile.licenseKey == MASTER_KEY
    ensures payload == "ADMIN_GENESIS" && s.masterProfile.licenseKey != MASTER_KEY ==>
      Dispatch(s, "NAVIGATE", payload, now, vault, url).messages == s.messages + [Message(System, ACCESS_DENIED, true)]
  {
    AdminKeyOnly(payload);
    NavigateDispatched(s, payload, now, vault, url);
  }

  /** Only the exact key "ADMIN_GENESIS" names the admin view. */
  lemma {:induction false} AdminKeyOnly(payload: string)
    ensures ViewByKey(payload) == Some(ADMIN_GENESIS) <==> payload == "ADMIN_GENESIS"
  {
    ViewByOwnKey(ADMIN_GENESIS);
  }

  /** NAVIGATE through the dispatcher behaves as the NAVIGATE case alone. */
  lemma {:induction false} NavigateDispatched(s: AppState, payload: string, now: int, vault: seq<MusicTrack>, url: string)
    requires s.view != ADMIN_GENESIS
    ensures Dispatch(s, "NAVIGATE", payload, now, vault, url).view == ADMIN_GENESIS <==>
      ViewByKey(payload) == Some(ADMIN_GENESIS) && s.masterProfile.licenseKey == MASTER_KEY
    ensures ViewByKey(payload) == Some(ADMIN_GENESIS) && s.masterProfile.licenseKey != MASTER_KEY ==>
      Dispatch(s, "NAVIGATE", payload, now, vault, url).messages == s.messages + [Message(System, ACCESS_DENIED, true)]
  {
    var c := s.(learningProfile := Counted(s.learningProfile, LearningService.COMMAND, "NAVIGATE", now));
    HandleFrame(c, "NAVIGATE", payload, now, vault, url);
    NavigateGuard(c, payload);
  }

  /** NAVIGATE keeps the signed-in role. */
  lemma {:induction false} NavigateKeepsRole(s: AppState, payload: string, now: int, vault: seq<MusicTrack>, url: string)
    ensures Dispatch(s, "NAVIGATE", payload, now, vault, url).userRole == s.userRole
  {
    var c := s.(learningProfile := Counted(s.learningProfile, LearningService.COMMAND, "NAVIGATE", now));
    HandleFrame(c, "NAVIGATE", payload, now, vault, url);
  }

  /** No command other than NAVIGATE with the master key opens the admin
      view. */
  lemma {:induction false} AdminOnlyByNavigate(s: AppState, command: string, payload: string, now: int, vault: seq<MusicTrack>, url: string)
    requires s.view != ADMIN_GENESIS
    requires Dispatch(s, command, payload, now, vault, url).view == ADMIN_GENESIS
    ensures command == "NAVIGATE" && payload == "ADMIN_GENESIS" && s.masterProfile.licenseKey == MASTER_KEY
  {
    var c := s.(learningProfile := Counted(s.learningProfile, LearningService.COMMAND, command, now));
    HandleFrame(c, command, payload, now, vault, url);
    NavigateGuard(c, payload);
  }

  /** Any other view is reached by naming it. */
  lemma {:induction false} NavigateByKey(s: AppState, v: AppView, now: int, vault: seq<MusicTrack>, url: string)
    requires v != ADMIN_GENESIS
    ensures Dispatch(s, "NAVIGATE", AppViewKey(v), now, vault, url).view == v
  {
    var c := s.(learningProfile := Counted(s.learningProfile, LearningService.COMMAND, "NAVIGATE", now));
    HandleFrame(c, "NAVIGATE", AppViewKey(v), now, vault, url);
    ViewByOwnKey(v);
  }

  /** THEME sets the theme it selects and counts it once; without a match
      the theme is unchanged. */
  lemma {:induction false} ThemeCommandSets(s: AppState, payload: string, now: int)
    ensures var r := ThemeCommand(s, payload, now);
      match ThemeTarget(payload)
      case None => r == s
      case Some(t) => (r.theme == t &&
        LearningService.CountOf(r.learningProfile.preferredThemes, ThemeKey(t)) ==
          LearningService.CountOf(s.learningProfile.preferredThemes, ThemeKey(t)) + 1)
  {
    match ThemeTarget(payload) {
      case None =>
      case Some(t) =>
        ThemeKeyNonEmpty(t);
        CountedTheme(s.learningProfile, ThemeKey(t), now);
    }
  }

  lemma {:induction false} CountedTheme(p: LearningProfile, key: string, now: int)
    requires key != ""
    ensures LearningService.CountOf(Counted(p, LearningService.THEME, key, now).preferredThemes, key) ==
      LearningService.CountOf(p.preferredThemes, key) + 1
  {
  }

  /** MTRACKER RELAPSE records the relapse the way the tracker screen's
      reset does whenever a last relapse is stored; for a zero timestamp it
      counts the streak from the epoch, where the screen counts none.
      CHECKIN only marks the streak clean. */
  lemma {:induction false} TrackerCommands(s: AppState, now: int)
    ensures s.noFapData.lastRelapseDate != 0 ==>
      TrackerCommand(s, "RELAPSE", now).noFapData == MTracker.PerformReset(s.noFapData, now)
    ensures s.noFapData.lastRelapseDate == 0 ==>
      TrackerCommand(s, "RELAPSE", now).noFapData.history == s.noFapData.history + [HistoryEntry(now, now / MTracker.MS_PER_HOUR)]
      && MTracker.PerformReset(s.noFapData, now).history == s.noFapData.history + [HistoryEntry(now, 0)]
    ensures TrackerCommand(s, "CHECKIN", now).noFapData == s.noFapData.(status := CLEAN)
  {
    if s.noFapData.lastRelapseDate != 0 {
      assert MTracker.LastRelapseOr(s.noFapData.lastRelapseDate, now) == s.noFapData.lastRelapseDate;
    }
  }

  // ---------------------------------------------------------------------------
  // Avatar carousel

  function NextAvatarIndex(i: int): int {
    (i + 1) % |AvatarKeys|
  }

  function PrevAvatarIndex(i: int): int {
    (i - 1 + |AvatarKeys|) % |AvatarKeys|
  }

  /** The three avatars shown from position `i`. */
  function AvatarPage(i: int): (r: seq<AvatarType>)
    ensures |r| == ITEMS_PER_PAGE
  {
    PageOf(AvatarKeys, i)
  }

  /** The three entries of a circular table shown from position `i`. */
  function PageOf(keys: seq<AvatarType>, i: int): (r: seq<AvatarType>)
    requires |keys| > 0
    ensures |r| == ITEMS_PER_PAGE
  {
    seq(ITEMS_PER_PAGE, k requires 0 <= k < ITEMS_PER_PAGE => keys[(i + k) % |keys|])
  }

  /** Next and previous undo each other, and both stay on the carousel. */
  lemma {:induction false} CarouselInverse(i: int)
    requires 0 <= i < |AvatarKeys|
    ensures 0 <= NextAvatarIndex(i) < |AvatarKeys| && 0 <= PrevAvatarIndex(i) < |AvatarKeys|
    ensures PrevAvatarIndex(NextAvatarIndex(i)) == i && NextAvatarIndex(PrevAvatarIndex(i)) == i
  {
    var n := |AvatarKeys|;
    assert n == 18;
    if i == n - 1 {
      assert NextAvatarIndex(i) == 0 && PrevAvatarIndex(0) == i;
    } else {
      assert NextAvatarIndex(i) == i + 1 && PrevAvatarIndex(i + 1) == i;
    }
    if i == 0 {
      assert PrevAvatarIndex(i) == n - 1 && NextAvatarIndex(n - 1) == i;
    } else {
      assert PrevAvatarIndex(i) == i - 1 && NextAvatarIndex(i - 1) == i;
    }
  }

  /** Moving next shifts the page by one: the last two shown become the
      first two. */
  lemma {:induction false} NextShiftsPage(i: int)
    requires 0 <= i < |AvatarKeys|
    ensures AvatarPage(NextAvatarIndex(i))[..2] == AvatarPage(i)[1..]
  {
    PageShift(AvatarKeys, i);
  }

  /** On any circular table of at least two entries, the page one step on
      starts with the last two entries of the current page. */
  lemma {:induction false} PageShift(keys: seq<AvatarType>, i: int)
    requires 2 <= |keys| && 0 <= i < |keys|
    ensures PageOf(keys, (i + 1) % |keys|)[..2] == PageOf(keys, i)[1..]
  {
    var n := |keys|;
    var j := (i + 1) % n;
    var a, b := PageOf(keys, j), PageOf(keys, i);
    if i == n - 1 {
      ModWrap(i + 1, n);
      ModWrap(i + 2, n);
      ModBelow(0, n);
      ModBelow(1, n);
      assert j == 0 && (j + 1) % n == (i + 2) % n;
    } else {
      ModBelow(i + 1, n);
      assert j == i + 1 && (j + 0) % n == (i + 1) % n;
    }
    assert a[0] == keys[(j + 0) % n] && b[1] == keys[(i + 1) % n];
    assert a[1] == keys[(j + 1) % n] && b[2] == keys[(i + 2) % n];
    ShiftedByOne(a, b);
  }

  lemma {:induction false} ModBelow(x: int, n: int)
    requires 0 <= x < n
    ensures x % n == x
  {
  }

  lemma {:induction false} ModWrap(x: int, n: int)
    requires 0 < n <= x < 2 * n
    ensures x % n == x - n
  {
  }

  lemma {:induction false} ShiftedByOne(a: seq<AvatarType>, b: seq<AvatarType>)
    requires |a| == 3 && |b| == 3 && a[0] == b[1] && a[1] == b[2]
    ensures a[..2] == b[1..]
  {
  }

  lemma {:induction false} AvatarKeysDistinct()
    ensures forall i, j :: 0 <= i < j < |AvatarKeys| ==> AvatarKeys[i] != AvatarKeys[j]
  {
  }

  lemma {:induction false} ModDistinct(i: int, k: int, l: int)
    requires 0 <= i < 18 && 0 <= k < l < 3
    ensures (i + k) % 18 != (i + l) % 18
  {
    if i + l < 18 {
      assert (i + k) % 18 == i + k && (i + l) % 18 == i + l;
    } else if i + k >= 18 {
      assert (i + k) % 18 == i + k - 18 && (i + l) % 18 == i + l - 18;
    } else {
      assert (i + k) % 18 == i + k && (i + l) % 18 == i + l - 18;
    }
  }

  /** A page shows three different avatars. */
  lemma {:induction false} PageDistinct(i: int)
    requires 0 <= i < |AvatarKeys|
    ensures forall k, l :: 0 <= k < l < ITEMS_PER_PAGE ==> AvatarPage(i)[k] != AvatarPage(i)[l]
  {
    forall k, l | 0 <= k < l < ITEMS_PER_PAGE ensures AvatarPage(i)[k] != AvatarPage(i)[l] {
      ModDistinct(i, k, l);
      PageAt(i, k);
      PageAt(i, l);
      KeyAtDistinct((i + k) % 18, (i + l) % 18);
    }
  }

  lemma {:induction false} PageAt(i: int, k: int)
    requires 0 <= k < ITEMS_PER_PAGE
    ensures 0 <= (i + k) % 18 < 18 && AvatarPage(i)[k] == AvatarKeys[(i + k) % 18]
  {
  }

  lemma {:induction false} KeyAtDistinct(x: int, y: int)
    requires 0 <= x < 18 && 0 <= y < 18 && x != y
    ensures AvatarKeys[x] != AvatarKeys[y]
  {
    AvatarKeysDistinct();
    if y < x {
      assert AvatarKeys[y] != AvatarKeys[x];
    }
  }

  // ---------------------------------------------------------------------------
  // License and setup

  /** The profile the master key installs. */
  function CreatorProfile(key: string, now: int): MasterProfile {
    MasterProfile(true, CREATOR_NAME, "PROTOCOL ALPHA", "0000", key, now)
  }

  /** The first message after setup names the new master in capitals. */
  function SetupWelcome(name: string): (r: string)
    ensures StartsWith(r, "**IDENTITY CONFIRMED: ")
    ensures r == "**IDENTITY CONFIRMED: " + Upper(name) + SETUP_WELCOME_TAIL
  {
    "**IDENTITY CONFIRMED: " + Upper(name) + SETUP_WELCOME_TAIL
  }

  // ---------------------------------------------------------------------------
  // The component

  /** The `App` component's state.  Each method's `modifies` clause names the fields its handler
      sets; every other field keeps its value. */
  class AppShell {
    var state: AppState
    var isLicensed: bool
    var isSetupComplete: bool
    var isAuthenticated: bool
    var newCmdTrigger: string
    var newCmdAction: CommandAction
    var newCmdPayload: string
    var avatarIndex: int
    /** `lastCheckedMinuteRef.current`. */
    var lastCheckedMinute: string
    /** The alarm sound playing, if any. */
    var alarmSound: Option<AlarmSound>
    /** The alarm that rang last, while its overlay is open. */
    var ringing: Option<Alarm>
    /** The addresses passed to `window.open`, in order. */
    var openedUrls: seq<string>

    predicate Valid()
      reads this
    {
      0 <= avatarIndex < |AvatarKeys|
    }

    /** The component as first rendered, with state `init` loaded. */
    constructor (init: AppState)
      ensures state == init && Valid() && avatarIndex == 0
      ensures !isLicensed && !isSetupComplete && !isAuthenticated
      ensures newCmdTrigger == "" && newCmdAction == NAVIGATE && newCmdPayload == ""
      ensures lastCheckedMinute == "" && alarmSound == None && ringing == None && openedUrls == []
    {
      state := init;
      isLicensed, isSetupComplete, isAuthenticated := false, false, false;
      newCmdTrigger, newCmdAction, newCmdPayload := "", NAVIGATE, "";
      avatarIndex := 0;
      lastCheckedMinute := "";
      alarmSound := None;
      ringing := None;
      openedUrls := [];
    }

    /** One tick of the alarm interval at minute `minute`, weekday `day` and
        timestamp `now`: nothing happens twice in the same minute; otherwise
        the last due alarm, if any, rings and is updated. */
    method AlarmTick(minute: string, day: int, now: int)
      modifies this`lastCheckedMinute, this`state, this`alarmSound, this`ringing
      ensures lastCheckedMinute == minute
      ensures old(lastCheckedMinute) == minute ==>
        state == old(state) && alarmSound == old(alarmSound) && ringing == old(ringing)
      ensures old(lastCheckedMinute) != minute ==>
        match LastDue(old(state.alarms), minute, day, now)
        case None => state == old(state) && alarmSound == old(alarmSound) && ringing == old(ringing)
        case Some(a) => (state == old(state).(activeOverlay := "ALARM_TRIGGER", alarms := AfterFire(old(state.alarms), a)) &&
          alarmSound == Some(a.sound) && ringing == Some(a))
      ensures avatarIndex == old(avatarIndex) && openedUrls == old(openedUrls)
    {
      if lastCheckedMinute == minute {
        return;
      }
      lastCheckedMinute := minute;
      var found := FindDue(state.alarms, minute, day, now);
      if found.Some? {
        var alarm := found.value;
        state := state.(activeOverlay := "ALARM_TRIGGER");
        alarmSound := Some(alarm.sound);
        ringing := Some(alarm);
        if |alarm.days| == 0 && !Snoozed(alarm) {
          state := state.(alarms := ReplaceId(state.alarms, alarm.id, alarm.(isActive := false)));
        }
        if Snoozed(alarm) {
          state := state.(alarms := ReplaceId(state.alarms, alarm.id, alarm.(snoozedUntil := None)));
        }
      }
    }

    /** `handleAlarmClose(snooze)` at minute `minute` and timestamp `now`:
        the sound stops, the overlay closes and a snooze re-arms the alarms
        `SnoozeHit` picks. */
    method AlarmClose(snooze: bool, minute: string, now: int)
      modifies this`alarmSound, this`ringing, this`state
      ensures alarmSound == None && ringing == None
      ensures state == old(state).(activeOverlay := "NONE",
        alarms := if snooze then Snoozing(old(state.alarms), minute, now) else old(state.alarms))
      ensures lastCheckedMinute == old(lastCheckedMinute) && avatarIndex == old(avatarIndex) && openedUrls == old(openedUrls)
    {
      alarmSound, ringing := None, None;
      state := state.(activeOverlay := "NONE");
      if snooze {
        state := state.(alarms := Snoozing(state.alarms, minute, now));
      }
    }

    /** The corrected close: a snooze also re-arms the alarm that rang, so a
        one-shot alarm rings again five minutes later. */
    method AlarmCloseRung(snooze: bool, minute: string, now: int)
      modifies this`alarmSound, this`ringing, this`state
      ensures alarmSound == None && ringing == None
      ensures state == old(state).(activeOverlay := "NONE",
        alarms := if !snooze then old(state.alarms)
                  else if old(ringing).Some? then SnoozeRung(old(state.alarms), old(ringing).value, minute, now)
                  else Snoozing(old(state.alarms), minute, now))
      ensures lastCheckedMinute == old(lastCheckedMinute) && avatarIndex == old(avatarIndex) && openedUrls == old(openedUrls)
    {
      var rung := ringing;
      alarmSound, ringing := None, None;
      state := state.(activeOverlay := "NONE");
      if snooze {
        if rung.Some? {
          state := state.(alarms := SnoozeRung(state.alarms, rung.value, minute, now));
        } else {
          state := state.(alarms := Snoozing(state.alarms, minute, now));
        }
      }
    }

    /** Typing in the new-command form. */
    method EditCommandForm(trigger: string, action: CommandAction, payload: string)
      modifies this`newCmdTrigger, this`newCmdAction, this`newCmdPayload
      ensures newCmdTrigger == trigger && newCmdAction == action && newCmdPayload == payload
      ensures state == old(state) && avatarIndex == old(avatarIndex)
    {
      newCmdTrigger, newCmdAction, newCmdPayload := trigger, action, payload;
    }

    /** `handleRegisterCommand()` at timestamp `now`: the form's command is
        appended once, and the form cleared, unless it is incomplete or its
        trigger is taken. */
    method RegisterCommand(now: int)
      modifies this`state, this`newCmdTrigger, this`newCmdPayload
      ensures var c := NewCommand(old(state.customCommands), old(newCmdTrigger), old(newCmdAction), old(newCmdPayload), IntToString(now));
        match c
        case None => state == old(state) && newCmdTrigger == old(newCmdTrigger) && newCmdPayload == old(newCmdPayload)
        case Some(cmd) => (state == old(state).(customCommands := old(state.customCommands) + [cmd]) &&
          newCmdTrigger == "" && newCmdPayload == "")
      ensures UniqueTriggers(old(state.customCommands)) ==> UniqueTriggers(state.customCommands)
      ensures avatarIndex == old(avatarIndex) && lastCheckedMinute == old(lastCheckedMinute)
    {
      var c := NewCommand(state.customCommands, newCmdTrigger, newCmdAction, newCmdPayload, IntToString(now));
      if c.Some? {
        if UniqueTriggers(state.customCommands) {
          RegisterKeepsUnique(state.customCommands, newCmdTrigger, newCmdAction, newCmdPayload, IntToString(now));
        }
        state := state.(customCommands := state.customCommands + [c.value]);
        newCmdTrigger, newCmdPayload := "", "";
      }
    }

    /** `handleDeleteCommand(id)`. */
    method DeleteCommand(id: string)
      modifies this`state
      ensures state == old(state).(customCommands := WithoutCommand(old(state.customCommands), id))
      ensures UniqueTriggers(old(state.customCommands)) ==> UniqueTriggers(state.customCommands)
      ensures avatarIndex == old(avatarIndex) && lastCheckedMinute == old(lastCheckedMinute)
    {
      if UniqueTriggers(state.customCommands) {
        DeleteKeepsUnique(state.customCommands, id);
      }
      state := state.(customCommands := WithoutCommand(state.customCommands, id));
    }

    /** `handleAICommand(command, payload)` at timestamp `now`, with the
        vault's tracks `vault` and the object URL `url` a MUSIC command
        plays. */
    method AICommand(command: string, payload: string, now: int, vault: seq<MusicTrack>, url: string)
      modifies this`state, this`openedUrls
      ensures state == Dispatch(old(state), command, payload, now, vault, url)
      ensures openedUrls == old(openedUrls) +
        (if command == "OPEN_URL" && payload != "" then [UrlToOpen(payload).value] else [])
    {
      state := Dispatch(state, command, payload, now, vault, url);
      OpenUrl(command, payload);
    }

    /** The OPEN_URL case opens its normalised address in a new tab. */
    method OpenUrl(command: string, payload: string)
      modifies this`openedUrls
      ensures openedUrls == old(openedUrls) +
        (if command == "OPEN_URL" && payload != "" then [UrlToOpen(payload).value] else [])
    {
      if command == "OPEN_URL" && payload != "" {
        openedUrls := openedUrls + [UrlToOpen(payload).value];
      }
    }

    method NextAvatar()
      requires Valid()
      modifies this`avatarIndex
      ensures Valid() && avatarIndex == NextAvatarIndex(old(avatarIndex))
      ensures state == old(state)
    {
      avatarIndex := (avatarIndex + 1) % |AvatarKeys|;
    }

    method PrevAvatar()
      requires Valid()
      modifies this`avatarIndex
      ensures Valid() && avatarIndex == PrevAvatarIndex(old(avatarIndex))
      ensures state == old(state)
    {
      avatarIndex := (avatarIndex - 1 + |AvatarKeys|) % |AvatarKeys|;
    }

    /** `getVisibleAvatars()`. */
    method VisibleAvatars() returns (visible: seq<AvatarType>)
      ensures visible == AvatarPage(avatarIndex)
    {
      visible := [];
      var i := 0;
      while i < ITEMS_PER_PAGE
        invariant 0 <= i <= ITEMS_PER_PAGE
        invariant visible == AvatarPage(avatarIndex)[..i]
      {
        visible := visible + [AvatarKeys[(avatarIndex + i) % |AvatarKeys|]];
        i := i + 1;
      }
    }

    /** `handleLicenseSuccess(key)` at timestamp `now`: the master key
        installs the creator's profile and opens everything; any other key
        is stored in the profile and the setup wizard follows. */
    method LicenseSuccess(key: string, now: int)
      modifies this`state, this`isLicensed, this`isSetupComplete, this`isAuthenticated
      ensures isLicensed
      ensures key == MASTER_KEY ==>
        state == old(state).(masterProfile := CreatorProfile(key, now), userRole := MASTER,
                             messages := [Message(Model, CREATOR_WELCOME, false)]) &&
        isSetupComplete && isAuthenticated
      ensures key != MASTER_KEY ==>
        state == old(state).(masterProfile := old(state.masterProfile).(licenseKey := key)) &&
        isSetupComplete == old(isSetupComplete) && isAuthenticated == old(isAuthenticated)
      ensures state.masterProfile.licenseKey == key && state.view == old(state).view
      ensures avatarIndex == old(avatarIndex) && lastCheckedMinute == old(lastCheckedMinute) && openedUrls == old(openedUrls)
    {
      if key == MASTER_KEY {
        state := state.(masterProfile := CreatorProfile(key, now), userRole := MASTER,
                        messages := [Message(Model, CREATOR_WELCOME, false)]);
        isLicensed, isSetupComplete, isAuthenticated := true, true, true;
      } else {
        isLicensed := true;
        state := state.(masterProfile := state.masterProfile.(licenseKey := key));
      }
    }

    /** `handleAuthentication(role)`. */
    method Authenticate(role: UserRole)
      modifies this`state, this`isAuthenticated
      ensures state == old(state).(userRole := role) && isAuthenticated
      ensures isLicensed == old(isLicensed) && isSetupComplete == old(isSetupComplete)
    {
      state := state.(userRole := role);
      isAuthenticated := true;
    }

    /** `handleSetupComplete(profile)`: the profile is installed, the chat
        restarts with the welcome and the master is signed in. */
    method SetupComplete(profile: MasterProfile)
      modifies this`state, this`isSetupComplete, this`isAuthenticated
      ensures state == old(state).(masterProfile := profile, userRole := MASTER,
                                   messages := [Message(Model, SetupWelcome(profile.name), false)])
      ensures isSetupComplete && isAuthenticated && isLicensed == old(isLicensed)
    {
      state := state.(masterProfile := profile, messages := [Message(Model, SetupWelcome(profile.name), false)]);
      isSetupComplete := true;
      Authenticate(MASTER);
    }
  }

  /** With the license key `key` stored, NAVIGATE to the admin view opens it
      exactly when `key` is the master key, and keeps the role. */
  lemma {:induction false} LicensedNavigate(s: AppState, key: string, now: int)
    requires s.view != ADMIN_GENESIS && s.masterProfile.licenseKey == key
    ensures Dispatch(s, "NAVIGATE", "ADMIN_GENESIS", now, [], "").view == ADMIN_GENESIS <==> key == MASTER_KEY
    ensures Dispatch(s, "NAVIGATE", "ADMIN_GENESIS", now, [], "").userRole == s.userRole
  {
    AdminNeedsMasterKey(s, "ADMIN_GENESIS", now, [], "");
    NavigateKeepsRole(s, "ADMIN_GENESIS", now, [], "");
  }

  /** Entering the master key and asking for the admin view opens it; with
      any other key, from another view, the request is refused. */
  method AdminAfterLicense(init: AppState, key: string, now: int) returns (app: AppShell)
    requires init.view != ADMIN_GENESIS
    ensures app.state.view == ADMIN_GENESIS <==> key == MASTER_KEY
    ensures key == MASTER_KEY ==> app.isAuthenticated && app.state.userRole == MASTER
  {
    app := new AppShell(init);
    app.LicenseSuccess(key, now);
    LicensedNavigate(app.state, key, now);
    app.AICommand("NAVIGATE", "ADMIN_GENESIS", now, [], "");
  }
}
