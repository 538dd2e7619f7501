/** The smaller pieces of ChatInterface.tsx that are computed from its state:
    the input suggestions, the voice status badge, the countdown widget's clock
    text and the triple tap on the hologram. */
module ChatMisc {

  import opened Strings
  import opened Types
  import opened Sorting
  import LearningService

  // ---------------------------------------------------------------------------
  // Distinct sequences

  predicate Distinct<T(==)>(s: seq<T>) {
    forall i, j :: 0 <= i < j < |s| ==> s[i] != s[j]
  }

  lemma {:induction false} DistinctAtMostOnce<T>(s: seq<T>, x: T)
    requires Distinct(s)
    ensures multiset(s)[x] <= 1
    decreases |s|
  {
    if s != [] {
      assert s == [s[0]] + s[1..];
      assert Distinct(s[1..]);
      DistinctAtMostOnce(s[1..], x);
      if x == s[0] {
        assert x !in s[1..];
      }
    }
  }

  lemma {:induction false} RepeatTwice<T>(s: seq<T>, i: nat, j: nat)
    requires i < j < |s| && s[i] == s[j]
    ensures multiset(s)[s[i]] >= 2
  {
    assert s == s[..j] + [s[j]] + s[j + 1..];
    assert s[i] in s[..j];
  }

  /** A permutation of a sequence without repetitions has none either. */
  lemma {:induction false} PermutationDistinct<T>(a: seq<T>, b: seq<T>)
    requires multiset(a) == multiset(b) && Distinct(a)
    ensures Distinct(b)
  {
    forall i, j | 0 <= i < j < |b| ensures b[i] != b[j] {
      if b[i] == b[j] {
        RepeatTwice(b, i, j);
        DistinctAtMostOnce(a, b[i]);
      }
    }
  }

  /** `Array.from(new Set(s))`: the first occurrence of every element, in order. */
  function Dedupe(s: seq<string>): (r: seq<string>)
    ensures Distinct(r)
    ensures forall x :: x in r <==> x in s
    ensures |r| <= |s|
    decreases |s|
  {
    if s == [] then []
    else
      var d := Dedupe(s[..|s| - 1]);
      var x := s[|s| - 1];
      assert forall y :: y in s <==> y in s[..|s| - 1] || y == x by {
        assert s == s[..|s| - 1] + [x];
      }
      if x in d then d else d + [x]
  }

  /** A sequence without repetitions is its own set. */
  lemma {:induction false} DedupeDistinct(s: seq<string>)
    requires Distinct(s)
    ensures Dedupe(s) == s
    decreases |s|
  {
    if s != [] {
      var p := s[..|s| - 1];
      assert Distinct(p);
      DedupeDistinct(p);
      assert s[|s| - 1] !in p;
      assert p + [s[|s| - 1]] == s;
    }
  }

  // ---------------------------------------------------------------------------
  // Suggestions (the effect on `input`, `messages`, the profile and the custom
  // commands)

  const DEFAULT_COMMANDS: seq<string> := ["/help", "/clear", "/scan", "/time",
    "/hack", "/matrix", "/reboot", "/stealth", "/purge", "/override", "/mtracker"]

  const PREDEFINED: seq<string> := ["Remember to", "What is the", "Generate code for",
    "System Status", "Show Memories", "Create Task", "Help", "Analyze", "Who are you",
    "Switch Theme", "Red Mode", "Go to Settings"]

  function Triggers(cmds: seq<CustomCommand>): (r: seq<string>)
    ensures |r| == |cmds|
    ensures forall i :: 0 <= i < |cmds| ==> r[i] == cmds[i].trigger
  {
    seq(|cmds|, i requires 0 <= i < |cmds| => cmds[i].trigger)
  }

  /** The contents of the user's messages, latest first. */
  function UserHistory(msgs: seq<Message>): (r: seq<string>)
    ensures forall x :: x in r <==> exists i :: 0 <= i < |msgs| && msgs[i].role == User && msgs[i].content == x
    decreases |msgs|
  {
    if msgs == [] then []
    else
      var last := msgs[|msgs| - 1];
      var rest := UserHistory(msgs[..|msgs| - 1]);
      assert forall i :: 0 <= i < |msgs| - 1 ==> msgs[..|msgs| - 1][i] == msgs[i];
      if last.role == User then [last.content] + rest else rest
  }

  /** Every candidate once: the slash commands (built-in defaults, then the
      custom triggers), the fixed phrases, then the user's history. */
  function Candidates(cmds: seq<CustomCommand>, msgs: seq<Message>): (r: seq<string>)
    ensures Distinct(r)
    ensures forall x :: x in r <==>
      x in DEFAULT_COMMANDS || x in Triggers(cmds) || x in PREDEFINED || x in UserHistory(msgs)
  {
    var slash := Dedupe(DEFAULT_COMMANDS + Triggers(cmds));
    Dedupe(slash + PREDEFINED + Dedupe(UserHistory(msgs)))
  }

  /** A candidate is offered when its lower-case form contains the lower-case
      input and is not equal to it. */
  predicate Matches(c: string, term: string) {
    Contains(Lower(c), term) && Lower(c) != term
  }

  function Matching(cands: seq<string>, term: string): (r: seq<string>)
    ensures forall x :: x in r <==> x in cands && Matches(x, term)
    ensures Distinct(cands) ==> Distinct(r)
    decreases |cands|
  {
    if cands == [] then []
    else
      var p := cands[..|cands| - 1];
      var x := cands[|cands| - 1];
      var rest := Matching(p, term);
      assert cands == p + [x];
      assert Distinct(cands) ==> Distinct(p) && x !in p;
      if Matches(x, term) then rest + [x] else rest
  }

  /** The comparator of the suggestions: candidates starting with the input
      first, then by descending use count in the profile's command counters. */
  function SuggestKey(top: seq<Counter>, term: string): string -> seq<int> {
    c => [if StartsWith(Lower(c), term) then 0 else 1, -LearningService.CountOf(top, c)]
  }

  const MAX_SUGGESTIONS := 5

  /** The matches of the lower-cased input among `cands`, in comparator order,
      cut after five. */
  function Ranked(term: string, top: seq<Counter>, cands: seq<string>): (r: seq<string>)
    ensures |r| <= MAX_SUGGESTIONS
  {
    var sorted := SortBy(Matching(cands, term), SuggestKey(top, term));
    if |sorted| <= MAX_SUGGESTIONS then sorted else sorted[..MAX_SUGGESTIONS]
  }

  /** The suggestions shown under the input box. */
  function Suggestions(input: string, top: seq<Counter>, cmds: seq<CustomCommand>, msgs: seq<Message>): (r: seq<string>)
    ensures |r| <= MAX_SUGGESTIONS
  {
    if IsBlank(input) then [] else Ranked(Lower(input), top, Candidates(cmds, msgs))
  }

  /** What one comparison of the suggestion order means. */
  lemma {:induction false} SuggestKeyOrder(top: seq<Counter>, term: string, a: string, b: string)
    requires KeyLe(SuggestKey(top, term)(a), SuggestKey(top, term)(b))
    ensures StartsWith(Lower(b), term) ==> StartsWith(Lower(a), term)
    ensures StartsWith(Lower(a), term) == StartsWith(Lower(b), term) ==>
      LearningService.CountOf(top, a) >= LearningService.CountOf(top, b)
  {
    var ka, kb := SuggestKey(top, term)(a), SuggestKey(top, term)(b);
    assert ka[1..] == [ka[1]] && kb[1..] == [kb[1]];
    assert ka[1..][1..] == [];
  }

  /** Blank input shows nothing. */
  lemma {:induction false} SuggestionsBlank(input: string, top: seq<Counter>, cmds: seq<CustomCommand>, msgs: seq<Message>)
    requires IsBlank(input)
    ensures Suggestions(input, top, cmds, msgs) == []
  {
  }

  /** The ranked matches are a cut of the sorted matches. */
  lemma {:induction false} RankedCut(term: string, top: seq<Counter>, cands: seq<string>)
    ensures var m := Matching(cands, term);
      var n := if |m| <= MAX_SUGGESTIONS then |m| else MAX_SUGGESTIONS;
      Ranked(term, top, cands) == SortBy(m, SuggestKey(top, term))[..n]
  {
    var t := SortBy(Matching(cands, term), SuggestKey(top, term));
    assert t[..|t|] == t;
  }

  /** Without repeated candidates, the suggestions are distinct candidates that
      contain the input without equalling it; when at most five candidates
      match all are shown, otherwise five are. */
  lemma {:induction false} RankedChosen(term: string, top: seq<Counter>, cands: seq<string>)
    requires Distinct(cands)
    ensures var r, m := Ranked(term, top, cands), Matching(cands, term);
      && Distinct(r)
      && (forall x :: x in r ==> x in cands && Matches(x, term))
      && (|m| <= MAX_SUGGESTIONS ==> multiset(r) == multiset(m))
      && (|m| >= MAX_SUGGESTIONS ==> |r| == MAX_SUGGESTIONS)
  {
    var m := Matching(cands, term);
    var t := SortBy(m, SuggestKey(top, term));
    RankedCut(term, top, cands);
    SortByPermutation(m, SuggestKey(top, term));
    PermutationDistinct(m, t);
    CutOf(t, m, Ranked(term, top, cands));
  }

  /** A prefix of a permutation of `m`: its elements come from `m`, it has no
      repetitions when `t` has none, and it is all of `m` when it is all of `t`. */
  lemma {:induction false} CutOf(t: seq<string>, m: seq<string>, r: seq<string>)
    requires multiset(t) == multiset(m) && Distinct(t)
    requires |r| <= |t| && r == t[..|r|]
    ensures Distinct(r)
    ensures forall x :: x in r ==> x in m
    ensures |r| == |t| ==> multiset(r) == multiset(m)
  {
    forall x | x in r ensures x in m {
      assert x in t;
      assert x in multiset(m);
    }
    if |r| == |t| {
      assert r == t;
    }
  }

  /** The suggestions are sorted by the comparator. */
  lemma {:induction false} RankedSorted(term: string, top: seq<Counter>, cands: seq<string>)
    ensures SortedBy(Ranked(term, top, cands), SuggestKey(top, term))
  {
    RankedCut(term, top, cands);
    SortedCut(Matching(cands, term), SuggestKey(top, term), |Ranked(term, top, cands)|);
  }

  /** What a sequence in comparator order means: those starting with the
      input first, and among those alike the more used first. */
  lemma {:induction false} SortedSuggestions(term: string, top: seq<Counter>, r: seq<string>)
    requires SortedBy(r, SuggestKey(top, term))
    ensures forall i, j :: 0 <= i < j < |r| && StartsWith(Lower(r[j]), term) ==> StartsWith(Lower(r[i]), term)
    ensures forall i, j :: 0 <= i < j < |r| && StartsWith(Lower(r[i]), term) == StartsWith(Lower(r[j]), term) ==>
      LearningService.CountOf(top, r[i]) >= LearningService.CountOf(top, r[j])
  {
    forall i, j | 0 <= i < j < |r| ensures
      && (StartsWith(Lower(r[j]), term) ==> StartsWith(Lower(r[i]), term))
      && (StartsWith(Lower(r[i]), term) == StartsWith(Lower(r[j]), term) ==>
            LearningService.CountOf(top, r[i]) >= LearningService.CountOf(top, r[j]))
    {
      SuggestKeyOrder(top, term, r[i], r[j]);
    }
  }

  /** The suggestions are in comparator order. */
  lemma {:induction false} RankedOrdered(term: string, top: seq<Counter>, cands: seq<string>)
    ensures var r := Ranked(term, top, cands);
      && (forall i, j :: 0 <= i < j < |r| && StartsWith(Lower(r[j]), term) ==> StartsWith(Lower(r[i]), term))
      && (forall i, j :: 0 <= i < j < |r| && StartsWith(Lower(r[i]), term) == StartsWith(Lower(r[j]), term) ==>
            LearningService.CountOf(top, r[i]) >= LearningService.CountOf(top, r[j]))
  {
    RankedSorted(term, top, cands);
    SortedSuggestions(term, top, Ranked(term, top, cands));
  }

  /** No match left out has a key below a suggestion's. */
  lemma {:induction false} RankedKeyBest(term: string, top: seq<Counter>, cands: seq<string>)
    ensures var r, key := Ranked(term, top, cands), SuggestKey(top, term);
      forall x, i :: x in Matching(cands, term) && x !in r && 0 <= i < |r| ==> KeyLe(key(r[i]), key(x))
  {
    var m := Matching(cands, term);
    var r := Ranked(term, top, cands);
    RankedCut(term, top, cands);
    SortedCut(m, SuggestKey(top, term), |r|);
    LeftOutBelow(m, r, SuggestKey(top, term));
  }

  lemma {:induction false} LeftOutBelow(m: seq<string>, r: seq<string>, key: string -> seq<int>)
    requires forall e, k :: e in multiset(m) - multiset(r) && 0 <= k < |r| ==> KeyLe(key(r[k]), key(e))
    ensures forall x, i :: x in m && x !in r && 0 <= i < |r| ==> KeyLe(key(r[i]), key(x))
  {
    forall x, i | x in m && x !in r && 0 <= i < |r| ensures KeyLe(key(r[i]), key(x)) {
      assert x in multiset(m);
      assert x !in multiset(r);
      assert x in multiset(m) - multiset(r);
    }
  }

  /** A match that is left out ranks no higher than any suggestion shown. */
  lemma {:induction false} RankedBest(term: string, top: seq<Counter>, cands: seq<string>)
    ensures var r := Ranked(term, top, cands);
      forall x, i :: x in cands && Matches(x, term) && x !in r && 0 <= i < |r| ==>
        && (StartsWith(Lower(x), term) ==> StartsWith(Lower(r[i]), term))
        && (StartsWith(Lower(x), term) == StartsWith(Lower(r[i]), term) ==>
              LearningService.CountOf(top, r[i]) >= LearningService.CountOf(top, x))
  {
    var r := Ranked(term, top, cands);
    RankedKeyBest(term, top, cands);
    forall x, i | x in cands && Matches(x, term) && x !in r && 0 <= i < |r| ensures
      && (StartsWith(Lower(x), term) ==> StartsWith(Lower(r[i]), term))
      && (StartsWith(Lower(x), term) == StartsWith(Lower(r[i]), term) ==>
            LearningService.CountOf(top, r[i]) >= LearningService.CountOf(top, x))
    {
      SuggestKeyOrder(top, term, r[i], x);
    }
  }

  /** For typed input the suggestions are ranked among the candidates, which
      have no repetitions. */
  lemma {:induction false} SuggestionsRanked(input: string, top: seq<Counter>, cmds: seq<CustomCommand>, msgs: seq<Message>)
    requires !IsBlank(input)
    ensures var cands := Candidates(cmds, msgs);
      Distinct(cands) && Suggestions(input, top, cmds, msgs) == Ranked(Lower(input), top, cands)
  {
  }

  // ---------------------------------------------------------------------------
  // Voice status badge

  datatype VoiceStatus = IDLE | STANDBY | LISTENING | PROCESSING | SPEAKING

  /** The status the effect on the voice flags sets. */
  function StatusOf(isLoading: bool, isSpeaking: bool, isListening: bool, isWakeWordStandby: bool, isLiveMode: bool): VoiceStatus {
    if isLoading then PROCESSING
    else if isSpeaking then SPEAKING
    else if isListening && isLiveMode then LISTENING
    else if isWakeWordStandby then STANDBY
    else IDLE
  }

  /** Each status holds exactly when its condition does, by precedence:
      loading, then speaking, then live listening, then wake-word standby. */
  lemma {:induction false} StatusMeaning(isLoading: bool, isSpeaking: bool, isListening: bool, isWakeWordStandby: bool, isLiveMode: bool)
    ensures var st := StatusOf(isLoading, isSpeaking, isListening, isWakeWordStandby, isLiveMode);
      && (st == PROCESSING <==> isLoading)
      && (st == SPEAKING <==> !isLoading && isSpeaking)
      && (st == LISTENING <==> !isLoading && !isSpeaking && isListening && isLiveMode)
      && (st == STANDBY <==> !isLoading && !isSpeaking && !(isListening && isLiveMode) && isWakeWordStandby)
      && (st == IDLE <==> !isLoading && !isSpeaking && !(isListening && isLiveMode) && !isWakeWordStandby)
  {
  }

  // ---------------------------------------------------------------------------
  // Countdown widget clock text

  /** The remainder of JavaScript's `%`: it takes the sign of the dividend. */
  function JsRem(a: int, b: int): (r: int)
    requires b > 0
    ensures a >= 0 ==> 0 <= r < b
    ensures a < 0 ==> -b < r <= 0
  {
    if a >= 0 then a % b else -((-a) % b)
  }

  /** `formatTime(s)`: floored minutes, the remainder of the seconds padded to
      two characters with '0'. */
  function FormatTime(s: int): string {
    IntToString(s / 60) + ":" + PadStart(IntToString(JsRem(s, 60)), 2, '0')
  }

  /** Reads "m:ss" back into seconds. */
  function ReadTime(t: string): Option<int> {
    ReadFields(Split(t, [':']))
  }

  /** The minutes and seconds fields around the colon, read as numbers. */
  function ReadFields(parts: seq<string>): Option<int> {
    if |parts| != 2 || |parts[1]| != 2 then None
    else Seconds(ParseInt(parts[0]), ParseInt(parts[1]))
  }

  /** Minutes and a seconds field below 60, as a number of seconds. */
  function Seconds(m: Option<int>, sec: Option<int>): Option<int> {
    if m.Some? && sec.Some? && 0 <= sec.value < 60 then Some(m.value * 60 + sec.value) else None
  }

  /** The seconds field of a non-negative time: two decimal digits whose value
      is the remainder. */
  lemma {:induction false} SecondsField(sec: nat)
    requires sec < 60
    ensures var d := PadStart(IntToString(sec), 2, '0');
      && |d| == 2 && ':' !in d && ParseInt(d) == Some(sec)
  {
    var t := NatToString(sec, 10);
    var d := PadStart(t, 2, '0');
    NatToStringRoundTrip(sec, 10);
    NatToStringLengthBound(sec, 10, 2);
    DecimalDigits(t);
    if |t| < 2 {
      assert d == ['0'] + t;
      assert d[..|d| - 1] == ['0'];
      assert ['0'][..0] == [];
    } else {
      assert d == t;
    }
    assert forall i :: 0 <= i < |d| ==> IsDigit(d[i]);
    ParseDigits(d);
  }

  /** Reading back minutes and a two-character seconds field. */
  lemma {:induction false} ReadTimeParts(t: string, m: string, d: string, a: int, b: int)
    requires t == m + [':'] + d && ':' !in m && ':' !in d && |d| == 2
    requires ParseInt(m) == Some(a) && ParseInt(d) == Some(b) && 0 <= b < 60
    ensures ReadTime(t) == Some(a * 60 + b)
  {
    SplitAround(m, d);
    ReadSplit(t, m, d, a, b);
  }

  lemma {:induction false} SplitAround(m: string, d: string)
    requires ':' !in m && ':' !in d
    ensures Split(m + [':'] + d, [':']) == [m, d]
  {
    SplitFreePrefix(m, ':', d);
    SplitFree(d, ':');
  }

  lemma {:induction false} ReadSplit(t: string, m: string, d: string, a: int, b: int)
    requires Split(t, [':']) == [m, d] && |d| == 2
    requires ParseInt(m) == Some(a) && ParseInt(d) == Some(b) && 0 <= b < 60
    ensures ReadTime(t) == Some(a * 60 + b)
  {
    ReadPair(m, d, a, b);
  }

  lemma {:induction false} ReadPair(m: string, d: string, a: int, b: int)
    requires |d| == 2 && ParseInt(m) == Some(a) && ParseInt(d) == Some(b) && 0 <= b < 60
    ensures ReadFields([m, d]) == Some(a * 60 + b)
  {
    var pair := [m, d];
    assert pair[0] == m && pair[1] == d;
    assert ReadFields(pair) == Seconds(Some(a), Some(b));
    SecondsOf(a, b);
  }

  lemma {:induction false} SecondsOf(a: int, b: int)
    requires 0 <= b < 60
    ensures Seconds(Some(a), Some(b)) == Some(a * 60 + b)
  {
  }

  /** The text of a time is its two fields around ':'. */
  lemma {:induction false} FormatFields(t: string, q: nat, sec: nat)
    requires sec < 60 && t == IntToString(q) + [':'] + PadStart(IntToString(sec), 2, '0')
    ensures ReadTime(t) == Some(q * 60 + sec)
  {
    SecondsField(sec);
    MinutesField(q);
    ReadTimeParts(t, IntToString(q), PadStart(IntToString(sec), 2, '0'), q, sec);
  }

  /** For a time that is not negative the text reads back as the same number
      of seconds. */
  lemma {:induction false} FormatTimeRoundTrip(s: nat)
    ensures ReadTime(FormatTime(s)) == Some(s)
  {
    var q: nat, sec: nat := s / 60, s % 60;
    FormatTimeReads(s, q, sec);
    SecondsBack(ReadTime(FormatTime(s)), q, sec, s);
  }

  lemma {:induction false} FormatTimeReads(s: nat, q: nat, sec: nat)
    requires q == s / 60 && sec == s % 60
    ensures ReadTime(FormatTime(s)) == Some(q * 60 + sec)
  {
    FormatTimeShape(s, q, sec);
    FormatFields(FormatTime(s), q, sec);
  }

  /** Minutes and seconds put back together. */
  lemma {:induction false} SecondsBack(r: Option<int>, q: nat, sec: nat, s: nat)
    requires r == Some(q * 60 + sec) && q == s / 60 && sec == s % 60
    ensures r == Some(s)
  {
    DivMod(s, 60);
  }

  lemma {:induction false} FormatTimeShape(s: nat, q: nat, sec: nat)
    requires q == s / 60 && sec == s % 60
    ensures FormatTime(s) == IntToString(q) + [':'] + PadStart(IntToString(sec), 2, '0')
  {
  }

  lemma {:induction false} MinutesField(q: nat)
    ensures ':' !in IntToString(q) && ParseInt(IntToString(q)) == Some(q)
  {
    NatToStringRoundTrip(q, 10);
    DecimalDigits(NatToString(q, 10));
    ParseIntRoundTrip(q);
  }

  // ---------------------------------------------------------------------------
  // Triple tap on the hologram

  /** `clickCountRef` and `clickTimeoutRef`: three taps with no gap of 600 ms
      between them ask for a random avatar. */
  class HoloTapper {
    var clicks: nat
    var timerArmed: bool
    var avatarChanges: nat

    predicate Valid()
      reads this
    {
      clicks < 3 && (timerArmed ==> clicks > 0)
    }

    constructor()
      ensures Valid() && clicks == 0 && !timerArmed && avatarChanges == 0
    {
      clicks := 0;
      timerArmed := false;
      avatarChanges := 0;
    }

    /** A tap: the pending reset is cleared; the third tap changes the avatar
        and starts the count over, any other arms a new reset. */
    method Click()
      requires Valid()
      modifies this
      ensures Valid()
      ensures old(clicks) == 2 ==> clicks == 0 && !timerArmed && avatarChanges == old(avatarChanges) + 1
      ensures old(clicks) < 2 ==> clicks == old(clicks) + 1 && timerArmed && avatarChanges == old(avatarChanges)
    {
      clicks := clicks + 1;
      timerArmed := false;
      if clicks == 3 {
        avatarChanges := avatarChanges + 1;
        clicks := 0;
      } else {
        timerArmed := true;
      }
    }

    /** The reset timer fires after 600 ms without a tap. */
    method TimeoutFires()
      requires Valid() && timerArmed
      modifies this
      ensures Valid() && clicks == 0 && !timerArmed && avatarChanges == old(avatarChanges)
    {
      clicks := 0;
      timerArmed := false;
    }

    /** Three taps in a row from rest change the avatar exactly once and leave
        the tapper at rest. */
    method TripleTap()
      requires Valid() && clicks == 0
      modifies this
      ensures Valid() && clicks == 0 && !timerArmed && avatarChanges == old(avatarChanges) + 1
    {
      Click();
      Click();
      Click();
    }
  }
}
