/** The learning profile (services/learningService.ts): topic extraction,
    counter updates and top-interest ranking. */
module LearningService {
  import opened Strings
  import Types
  import Sorting

  type Counter = Types.Counter
  type LearningProfile = Types.LearningProfile

  const TOPIC_KEYWORDS: seq<string> := [
    "react", "javascript", "typescript", "python", "code", "bug", "deploy",
    "hack", "security", "bypass", "override", "matrix", "terminal",
    "weather", "time", "status", "battery", "network",
    "story", "joke", "poem", "philosoph",
    "memory", "remember", "vault", "save",
    "task", "todo", "plan", "schedule"
  ]

  /** The initial profile; `now` is the clock reading at load time. */
  function InitialProfile(now: int): LearningProfile {
    Types.LearningProfile([], [], [], 0, now)
  }

  // ---------------------------------------------------------------------------
  // Topic extraction

  /** The keywords of `ks` that occur in `t`, in the order of `ks`. */
  function KeywordsIn(t: string, ks: seq<string>): (r: seq<string>)
    ensures forall k :: k in r <==> k in ks && Contains(t, k)
    ensures SubsequenceOf(r, ks)
  {
    if ks == [] then []
    else if Contains(t, ks[0]) then [ks[0]] + KeywordsIn(t, ks[1..])
    else KeywordsIn(t, ks[1..])
  }

  /** `extractTopics(text)`: exactly the keywords contained in the lowercased
      text, in keyword-list order. */
  function ExtractTopics(text: string): (r: seq<string>)
    ensures forall k :: k in r <==> k in TOPIC_KEYWORDS && Contains(Lower(text), k)
    ensures SubsequenceOf(r, TOPIC_KEYWORDS)
  {
    KeywordsIn(Lower(text), TOPIC_KEYWORDS)
  }

  // ---------------------------------------------------------------------------
  // Counters

  /** `record[k] || 0`. */
  function CountOf(c: seq<Counter>, k: string): int {
    if c == [] then 0 else if c[0].key == k then c[0].count else CountOf(c[1..], k)
  }

  function Keys(c: seq<Counter>): (r: seq<string>)
    ensures |r| == |c|
    ensures forall i :: 0 <= i < |c| ==> r[i] == c[i].key
  {
    if c == [] then [] else [c[0].key] + Keys(c[1..])
  }

  /** The keys of a JavaScript object are distinct. */
  predicate UniqueKeys(c: seq<Counter>) {
    forall i, j :: 0 <= i < j < |c| ==> c[i].key != c[j].key
  }

  /** `record[k] = (record[k] || 0) + 1`: an existing key keeps its place,
      a new key is added last. */
  function Bump(c: seq<Counter>, k: string): (r: seq<Counter>)
    ensures CountOf(r, k) == CountOf(c, k) + 1
    ensures forall j :: j != k ==> CountOf(r, j) == CountOf(c, j)
    ensures Keys(r) == if k in Keys(c) then Keys(c) else Keys(c) + [k]
  {
    if c == [] then [Types.Counter(k, 1)]
    else if c[0].key == k then [Types.Counter(k, c[0].count + 1)] + c[1..]
    else
      var rest := Bump(c[1..], k);
      assert Keys([c[0]] + rest) == [c[0].key] + Keys(rest);
      [c[0]] + rest
  }

  lemma {:induction false} BumpUnique(c: seq<Counter>, k: string)
    requires UniqueKeys(c)
    ensures UniqueKeys(Bump(c, k))
  {
    var r := Bump(c, k);
    var kc, kr := Keys(c), Keys(r);
    forall i, j | 0 <= i < j < |r| ensures r[i].key != r[j].key {
      assert r[i].key == kr[i] && r[j].key == kr[j];
      if j < |c| {
        assert kr[i] == kc[i] && kr[j] == kc[j];
        assert c[i].key == kc[i] && c[j].key == kc[j];
      } else {
        assert k !in kc && kr[j] == k;
        assert kr[i] == kc[i];
      }
    }
  }

  /** `values.forEach(v => bump(v))`. */
  function BumpAll(c: seq<Counter>, vs: seq<string>): seq<Counter>
    decreases |vs|
  {
    if vs == [] then c else BumpAll(Bump(c, vs[0]), vs[1..])
  }

  function Occurrences(vs: seq<string>, k: string): nat {
    if vs == [] then 0 else (if vs[0] == k then 1 else 0) + Occurrences(vs[1..], k)
  }

  /** Each listed value is counted once per occurrence. */
  lemma {:induction false} BumpAllCount(c: seq<Counter>, vs: seq<string>, k: string)
    ensures CountOf(BumpAll(c, vs), k) == CountOf(c, k) + Occurrences(vs, k)
    decreases |vs|
  {
    if vs != [] {
      BumpAllCount(Bump(c, vs[0]), vs[1..], k);
    }
  }

  lemma {:induction false} BumpAllUnique(c: seq<Counter>, vs: seq<string>)
    requires UniqueKeys(c)
    ensures UniqueKeys(BumpAll(c, vs))
    decreases |vs|
  {
    if vs != [] {
      BumpUnique(c, vs[0]);
      BumpAllUnique(Bump(c, vs[0]), vs[1..]);
    }
  }

  // ---------------------------------------------------------------------------
  // Profile updates

  datatype ActionKind = COMMAND | THEME | TOPIC | INTERACTION

  /** An update action.  An absent `value` is the empty string (both are
      falsy); an absent `values` list is the empty list. */
  datatype ProfileAction = ProfileAction(kind: ActionKind, value: string, values: seq<string>)

  /** How many times the action counts key `k` in the topic record. */
  function TopicHits(a: ProfileAction, k: string): nat {
    if a.kind != TOPIC then 0
    else (if a.value != "" && a.value == k then 1 else 0) + Occurrences(a.values, k)
  }

  /** How many times the action counts key `k` in the record it names by `kind`. */
  function ValueHits(a: ProfileAction, kind: ActionKind, k: string): nat {
    if a.kind == kind && a.value != "" && a.value == k then 1 else 0
  }

  /** The topic record after the TOPIC branch. */
  function TopicsAfter(topics: seq<Counter>, a: ProfileAction): seq<Counter> {
    if a.kind != TOPIC then topics
    else BumpAll(if a.value != "" then Bump(topics, a.value) else topics, a.values)
  }

  /** The profile `updateProfile(p, a)` returns when the clock reads `now`. */
  function ProfileAfter(p: LearningProfile, a: ProfileAction, now: int): LearningProfile {
    Types.LearningProfile(
      if a.kind == COMMAND && a.value != "" then Bump(p.topCommands, a.value) else p.topCommands,
      if a.kind == THEME && a.value != "" then Bump(p.preferredThemes, a.value) else p.preferredThemes,
      TopicsAfter(p.topics, a),
      p.totalInteractions + (if a.kind == INTERACTION then 1 else 0),
      now)
  }

  /** `updateProfile(p, a)`: every update stamps `lastActive`; INTERACTION
      counts one interaction; COMMAND and THEME with a value count that value
      once; TOPIC counts its value and each listed value once per occurrence;
      every other counter keeps its count. */
  method UpdateProfile(p: LearningProfile, a: ProfileAction, now: int) returns (r: LearningProfile)
    ensures r == ProfileAfter(p, a, now)
    ensures r.lastActive == now
    ensures r.totalInteractions == p.totalInteractions + (if a.kind == INTERACTION then 1 else 0)
    ensures forall k :: CountOf(r.topCommands, k) == CountOf(p.topCommands, k) + ValueHits(a, COMMAND, k)
    ensures forall k :: CountOf(r.preferredThemes, k) == CountOf(p.preferredThemes, k) + ValueHits(a, THEME, k)
    ensures forall k :: CountOf(r.topics, k) == CountOf(p.topics, k) + TopicHits(a, k)
  {
    r := p.(lastActive := now);
    if a.kind == INTERACTION {
      r := r.(totalInteractions := r.totalInteractions + 1);
    }
    if a.kind == COMMAND && a.value != "" {
      r := r.(topCommands := Bump(r.topCommands, a.value));
    }
    if a.kind == THEME && a.value != "" {
      r := r.(preferredThemes := Bump(r.preferredThemes, a.value));
    }
    if a.kind == TOPIC {
      var t := r.topics;
      if a.value != "" {
        t := Bump(t, a.value);
      }
      t := BumpEach(t, a.values);
      r := r.(topics := t);
    }
    TopicsAfterCounts(p.topics, a);
  }

  /** `values.forEach(v => bump(v))` on one record. */
  method BumpEach(c: seq<Counter>, vs: seq<string>) returns (r: seq<Counter>)
    ensures r == BumpAll(c, vs)
    ensures forall k :: CountOf(r, k) == CountOf(c, k) + Occurrences(vs, k)
  {
    r := c;
    var i := 0;
    while i < |vs|
      invariant 0 <= i <= |vs|
      invariant BumpAll(r, vs[i..]) == BumpAll(c, vs)
    {
      assert vs[i..][1..] == vs[i + 1..];
      r := Bump(r, vs[i]);
      i := i + 1;
    }
    assert vs[i..] == [];
    forall k ensures CountOf(r, k) == CountOf(c, k) + Occurrences(vs, k) {
      BumpAllCount(c, vs, k);
    }
  }

  /** The topic record after an update counts each key as often as the action
      names it. */
  lemma {:induction false} TopicsAfterCounts(topics: seq<Counter>, a: ProfileAction)
    ensures forall k :: CountOf(TopicsAfter(topics, a), k) == CountOf(topics, k) + TopicHits(a, k)
  {
    forall k ensures CountOf(TopicsAfter(topics, a), k) == CountOf(topics, k) + TopicHits(a, k) {
      if a.kind == TOPIC {
        var t := if a.value != "" then Bump(topics, a.value) else topics;
        BumpAllCount(t, a.values, k);
      }
    }
  }

  // ---------------------------------------------------------------------------
  // Top interests

  /** The comparator `(a, b) => b.count - a.count`: descending count. */
  function ByCountDesc(c: Counter): seq<int> {
    [-c.count]
  }

  function Min(a: int, b: int): int {
    if a <= b then a else b
  }

  /** The first `limit` entries after a stable sort by descending count. */
  function TopEntries(topics: seq<Counter>, limit: nat): (r: seq<Counter>)
    ensures |r| == Min(limit, |topics|)
  {
    Sorting.SortBy(topics, ByCountDesc)[..Min(limit, |topics|)]
  }

  /** `getTopInterests(profile, limit)`. */
  function TopInterests(p: LearningProfile, limit: nat): (r: seq<string>)
    ensures |r| <= limit && |r| <= |p.topics|
  {
    Keys(TopEntries(p.topics, limit))
  }

  lemma {:induction false} DescendingCounts(s: seq<Counter>)
    requires Sorting.SortedBy(s, ByCountDesc)
    ensures forall i, j :: 0 <= i < j < |s| ==> s[i].count >= s[j].count
  {
    forall i, j | 0 <= i < j < |s| ensures s[i].count >= s[j].count {
      assert Sorting.KeyLe(ByCountDesc(s[i]), ByCountDesc(s[j]));
    }
  }

  /** Cutting a descending sequence: nothing after the cut outranks what is kept. */
  lemma {:induction false} CutDescending(s: seq<Counter>, n: nat)
    requires n <= |s|
    requires forall i, j :: 0 <= i < j < |s| ==> s[i].count >= s[j].count
    ensures multiset(s[..n]) <= multiset(s)
    ensures forall e, i :: e in multiset(s) - multiset(s[..n]) && 0 <= i < n ==> e.count <= s[i].count
  {
    assert s == s[..n] + s[n..];
    assert multiset(s) == multiset(s[..n]) + multiset(s[n..]);
    assert multiset(s) - multiset(s[..n]) == multiset(s[n..]);
    forall e, i | e in multiset(s[n..]) && 0 <= i < n ensures e.count <= s[i].count {
      var m :| 0 <= m < |s[n..]| && s[n..][m] == e;
      assert s[n + m] == e;
    }
  }

  /** The ranked entries come from the profile, in descending count order,
      and no entry left out has a higher count than one kept. */
  lemma {:induction false} TopEntriesRanked(topics: seq<Counter>, limit: nat)
    ensures multiset(TopEntries(topics, limit)) <= multiset(topics)
    ensures forall i, j :: 0 <= i < j < |TopEntries(topics, limit)| ==>
      TopEntries(topics, limit)[i].count >= TopEntries(topics, limit)[j].count
    ensures forall e, i :: e in multiset(topics) - multiset(TopEntries(topics, limit)) && 0 <= i < |TopEntries(topics, limit)| ==>
      e.count <= TopEntries(topics, limit)[i].count
  {
    var s := Sorting.SortBy(topics, ByCountDesc);
    var n := Min(limit, |topics|);
    var r := TopEntries(topics, limit);
    assert r == s[..n];
    Sorting.SortByPermutation(topics, ByCountDesc);
    Sorting.SortBySorted(topics, ByCountDesc);
    DescendingCounts(s);
    CutDescending(s, n);
  }

  /** Each top interest is a topic of the profile. */
  lemma {:induction false} TopInterestsAreTopics(p: LearningProfile, limit: nat)
    ensures forall k :: k in TopInterests(p, limit) ==> k in Keys(p.topics)
  {
    var r := TopEntries(p.topics, limit);
    TopEntriesRanked(p.topics, limit);
    forall k | k in TopInterests(p, limit) ensures k in Keys(p.topics) {
      var i :| 0 <= i < |r| && Keys(r)[i] == k;
      assert r[i] in multiset(p.topics);
      var m :| 0 <= m < |p.topics| && p.topics[m] == r[i];
      assert Keys(p.topics)[m] == k;
    }
  }
}
