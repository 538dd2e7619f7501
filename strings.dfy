/** String helpers shared by every module of the model.

    JavaScript strings are sequences of UTF-16 code units; here a `string` is a
    `seq<char>` and the case and whitespace functions act on ASCII only (the
    model's stand-ins for `toLowerCase`, `toUpperCase`, `trim`, `includes`,
    `startsWith`, `split`, `join`, `padStart` and `parseInt`). */
module Strings {

  datatype Option<+T> = None | Some(value: T)

  // ---------------------------------------------------------------------------
  // Characters

  predicate IsUpper(c: char) { 'A' <= c <= 'Z' }
  predicate IsLower(c: char) { 'a' <= c <= 'z' }
  predicate IsDigit(c: char) { '0' <= c <= '9' }

  /** The whitespace that `String.prototype.trim` removes, restricted to ASCII. */
  predicate IsSpace(c: char) {
    c == ' ' || c == '\t' || c == '\n' || c == '\r' || c == 11 as char || c == 12 as char
  }

  /** A regular-expression word character, `\w`. */
  predicate IsWordChar(c: char) {
    IsUpper(c) || IsLower(c) || IsDigit(c) || c == '_'
  }

  function LowerChar(c: char): char {
    if IsUpper(c) then (c as int + 32) as char else c
  }

  function UpperChar(c: char): char {
    if IsLower(c) then (c as int - 32) as char else c
  }

  function Lower(s: string): (r: string)
    ensures |r| == |s|
    ensures forall i :: 0 <= i < |s| ==> r[i] == LowerChar(s[i])
  {
    seq(|s|, i requires 0 <= i < |s| => LowerChar(s[i]))
  }

  function Upper(s: string): (r: string)
    ensures |r| == |s|
    ensures forall i :: 0 <= i < |s| ==> r[i] == UpperChar(s[i])
  {
    seq(|s|, i requires 0 <= i < |s| => UpperChar(s[i]))
  }

  lemma {:induction false} LowerAppend(a: string, b: string)
    ensures Lower(a + b) == Lower(a) + Lower(b)
  {
    var l, r := Lower(a + b), Lower(a) + Lower(b);
    assert |l| == |r|;
    forall i | 0 <= i < |l| ensures l[i] == r[i] {
      if i < |a| {
        assert (a + b)[i] == a[i];
        assert r[i] == Lower(a)[i];
      } else {
        assert (a + b)[i] == b[i - |a|];
        assert r[i] == Lower(b)[i - |a|];
      }
    }
  }

  lemma {:induction false} UpperAppend(a: string, b: string)
    ensures Upper(a + b) == Upper(a) + Upper(b)
  {
    var l, r := Upper(a + b), Upper(a) + Upper(b);
    assert |l| == |r|;
    forall i | 0 <= i < |l| ensures l[i] == r[i] {
      if i < |a| {
        assert (a + b)[i] == a[i];
        assert r[i] == Upper(a)[i];
      } else {
        assert (a + b)[i] == b[i - |a|];
        assert r[i] == Upper(b)[i - |a|];
      }
    }
  }

  lemma {:induction false} LowerIdempotent(s: string)
    ensures Lower(Lower(s)) == Lower(s)
  {
  }

  lemma {:induction false} UpperIdempotent(s: string)
    ensures Upper(Upper(s)) == Upper(s)
  {
  }

  /** A string that has no lower-case ASCII letter. */
  predicate NoLower(s: string) {
    forall i :: 0 <= i < |s| ==> !IsLower(s[i])
  }

  lemma {:induction false} UpperOfNoLower(s: string)
    requires NoLower(s)
    ensures Upper(s) == s
  {
  }

  // ---------------------------------------------------------------------------
  // Prefixes and substrings

  predicate StartsWith(s: string, p: string) {
    |p| <= |s| && s[..|p|] == p
  }

  predicate EndsWith(s: string, p: string) {
    |p| <= |s| && s[|s| - |p|..] == p
  }

  /** `s.includes(t)`. */
  predicate Contains(s: string, t: string)
    decreases |s|
  {
    StartsWith(s, t) || (|s| > 0 && Contains(s[1..], t))
  }

  /** `t` occurs in `s` at position `i`. */
  predicate OccursAt(s: string, t: string, i: int) {
    0 <= i && i + |t| <= |s| && s[i..i + |t|] == t
  }

  /** Where `s.includes(t)` holds, `t` occurs at some position of `s`. */
  lemma {:induction false} ContainsWitness(s: string, t: string) returns (i: int)
    requires Contains(s, t)
    ensures OccursAt(s, t, i)
    decreases |s|
  {
    if StartsWith(s, t) {
      i := 0;
    } else {
      var j := ContainsWitness(s[1..], t);
      assert s[j + 1..j + 1 + |t|] == s[1..][j..j + |t|];
      i := j + 1;
    }
  }

  /** An occurrence at any position makes `s.includes(t)` true. */
  lemma {:induction false} ContainsAt(s: string, t: string, i: int)
    requires OccursAt(s, t, i)
    ensures Contains(s, t)
    decreases i
  {
    if i > 0 {
      assert s[1..][i - 1..i - 1 + |t|] == s[i..i + |t|];
      ContainsAt(s[1..], t, i - 1);
    }
  }

  lemma {:induction false} ContainsIff(s: string, t: string)
    ensures Contains(s, t) <==> exists i :: OccursAt(s, t, i)
  {
    if Contains(s, t) {
      var i := ContainsWitness(s, t);
    }
    forall i | OccursAt(s, t, i) ensures Contains(s, t) {
      ContainsAt(s, t, i);
    }
  }

  lemma {:induction false} ContainsEmpty(s: string)
    ensures Contains(s, "")
  {
    assert StartsWith(s, "");
  }

  lemma {:induction false} ContainsSelf(s: string)
    ensures Contains(s, s)
  {
    assert StartsWith(s, s);
  }

  lemma {:induction false} StartsWithContains(s: string, t: string)
    requires StartsWith(s, t)
    ensures Contains(s, t)
  {
  }

  /** Containment is transitive: if `t` occurs in `u` and `u` occurs in `s`, `t` occurs in `s`. */
  lemma {:induction false} ContainsTrans(s: string, u: string, t: string)
    requires Contains(s, u) && Contains(u, t)
    ensures Contains(s, t)
  {
    var i := ContainsWitness(s, u);
    var j := ContainsWitness(u, t);
    forall k | 0 <= k < |t| ensures s[i + j + k] == t[k] {
      assert s[i + j + k] == s[i..i + |u|][j + k];
    }
    assert s[i + j..i + j + |t|] == t;
    ContainsAt(s, t, i + j);
  }

  /** A string contained in a prefix or suffix of `s` is contained in `s`. */
  lemma {:induction false} ContainsLeft(a: string, b: string, t: string)
    requires Contains(a, t)
    ensures Contains(a + b, t)
  {
    var i := ContainsWitness(a, t);
    assert (a + b)[i..i + |t|] == a[i..i + |t|];
    ContainsAt(a + b, t, i);
  }

  lemma {:induction false} ContainsRight(a: string, b: string, t: string)
    requires Contains(b, t)
    ensures Contains(a + b, t)
  {
    var i := ContainsWitness(b, t);
    assert (a + b)[|a| + i..|a| + i + |t|] == b[i..i + |t|];
    ContainsAt(a + b, t, |a| + i);
  }

  /** Containment is preserved by lower-casing both sides. */
  lemma {:induction false} ContainsLower(s: string, t: string)
    requires Contains(s, t)
    ensures Contains(Lower(s), Lower(t))
  {
    var i := ContainsWitness(s, t);
    assert Lower(s)[i..i + |t|] == Lower(t);
    ContainsAt(Lower(s), Lower(t), i);
  }

  /** A string shorter than `t` cannot contain it. */
  lemma {:induction false} NotContainsShort(s: string, t: string)
    requires |s| < |t|
    ensures !Contains(s, t)
  {
    if Contains(s, t) {
      var i := ContainsWitness(s, t);
    }
  }

  /** `a` is a subsequence of `b`: `b` with some elements removed. */
  predicate SubsequenceOf<T(==)>(a: seq<T>, b: seq<T>)
    decreases |b|
  {
    a == [] || (b != [] && ((a[0] == b[0] && SubsequenceOf(a[1..], b[1..])) || SubsequenceOf(a, b[1..])))
  }

  // ---------------------------------------------------------------------------
  // Trimming

  function TrimStart(s: string): (r: string)
    ensures |r| <= |s|
    ensures r != [] ==> !IsSpace(r[0])
    ensures forall i :: 0 <= i < |s| - |r| ==> IsSpace(s[i])
  {
    if s != [] && IsSpace(s[0]) then TrimStart(s[1..]) else s
  }

  function TrimEnd(s: string): (r: string)
    ensures |r| <= |s|
    ensures r != [] ==> !IsSpace(r[|r| - 1])
    ensures forall i :: |r| <= i < |s| ==> IsSpace(s[i])
  {
    if s != [] && IsSpace(s[|s| - 1]) then TrimEnd(s[..|s| - 1]) else s
  }

  /** What `TrimStart` leaves is a suffix of its input. */
  lemma {:induction false} TrimStartSuffix(s: string)
    ensures TrimStart(s) == s[|s| - |TrimStart(s)|..]
    decreases |s|
  {
    if s != [] && IsSpace(s[0]) {
      TrimStartSuffix(s[1..]);
      assert s[1..][|s[1..]| - |TrimStart(s)|..] == s[|s| - |TrimStart(s)|..];
    }
  }

  /** What `TrimEnd` leaves is a prefix of its input. */
  lemma {:induction false} TrimEndPrefix(s: string)
    ensures TrimEnd(s) == s[..|TrimEnd(s)|]
    decreases |s|
  {
    if s != [] && IsSpace(s[|s| - 1]) {
      TrimEndPrefix(s[..|s| - 1]);
      assert s[..|s| - 1][..|TrimEnd(s)|] == s[..|TrimEnd(s)|];
    }
  }

  /** `s.trim()`. */
  function Trim(s: string): string {
    TrimEnd(TrimStart(s))
  }

  /** `parts.map(t => t.trim())`. */
  function TrimAll(parts: seq<string>): (r: seq<string>)
    ensures |r| == |parts|
    ensures forall i :: 0 <= i < |parts| ==> r[i] == Trim(parts[i])
  {
    seq(|parts|, i requires 0 <= i < |parts| => Trim(parts[i]))
  }

  lemma {:induction false} TrimAllPair(x: string, y: string)
    ensures TrimAll([x, y]) == [Trim(x), Trim(y)]
  {
    var r := TrimAll([x, y]);
    assert r[0] == Trim(x) && r[1] == Trim(y);
  }

  /** A string is among the trimmed parts iff it is the trimmed form of one
      of them. */
  lemma {:induction false} TrimAllMember(parts: seq<string>, t: string)
    ensures t in TrimAll(parts) <==> exists i :: 0 <= i < |parts| && Trim(parts[i]) == t
  {
    var r := TrimAll(parts);
    if t in r {
      var i :| 0 <= i < |r| && r[i] == t;
      assert Trim(parts[i]) == t;
    }
    if exists i :: 0 <= i < |parts| && Trim(parts[i]) == t {
      var i :| 0 <= i < |parts| && Trim(parts[i]) == t;
      assert r[i] == t;
    }
  }

  predicate AllSpace(s: string) {
    forall i :: 0 <= i < |s| ==> IsSpace(s[i])
  }

  /** `!s.trim()`: the blank-input test used throughout the source. */
  predicate IsBlank(s: string) {
    Trim(s) == ""
  }

  lemma {:induction false} BlankAllSpace(s: string)
    requires IsBlank(s)
    ensures AllSpace(s)
  {
  }

  lemma {:induction false} AllSpaceBlank(s: string)
    requires AllSpace(s)
    ensures IsBlank(s)
  {
    TrimStartSuffix(s);
  }

  lemma {:induction false} BlankIff(s: string)
    ensures IsBlank(s) <==> AllSpace(s)
  {
    if IsBlank(s) { BlankAllSpace(s); }
    if AllSpace(s) { AllSpaceBlank(s); }
  }

  lemma {:induction false} TrimNoOuterSpace(s: string)
    ensures Trim(s) != [] ==> !IsSpace(Trim(s)[0]) && !IsSpace(Trim(s)[|Trim(s)| - 1])
  {
    var a := TrimStart(s);
    var r := TrimEnd(a);
    TrimEndPrefix(a);
    if r != [] {
      assert r[0] == a[0];
    }
  }

  lemma {:induction false} TrimIdempotent(s: string)
    ensures Trim(Trim(s)) == Trim(s)
  {
    TrimNoOuterSpace(s);
  }

  /** The trimmed string occurs inside the original. */
  lemma {:induction false} TrimContained(s: string)
    ensures Contains(s, Trim(s))
  {
    var a := TrimStart(s);
    TrimStartSuffix(s);
    TrimEndPrefix(a);
    SliceInside(s, a, TrimEnd(a), |s| - |a|);
  }

  /** A prefix of a suffix occurs in the whole. */
  lemma {:induction false} SliceInside(s: string, a: string, r: string, k: nat)
    requires k <= |s| && a == s[k..] && |r| <= |a| && r == a[..|r|]
    ensures Contains(s, r)
  {
    assert s[k..k + |r|] == r;
    ContainsAt(s, r, k);
  }

  lemma {:induction false} TrimStartSpacePrefix(w: string, s: string)
    requires AllSpace(w)
    ensures TrimStart(w + s) == TrimStart(s)
    decreases |w|
  {
    if w != [] {
      assert (w + s)[1..] == w[1..] + s;
      TrimStartSpacePrefix(w[1..], s);
    } else {
      assert w + s == s;
    }
  }

  lemma {:induction false} TrimEndSpaceSuffix(s: string, w: string)
    requires AllSpace(w)
    ensures TrimEnd(s + w) == TrimEnd(s)
    decreases |w|
  {
    if w != [] {
      assert (s + w)[..|s + w| - 1] == s + w[..|w| - 1];
      TrimEndSpaceSuffix(s, w[..|w| - 1]);
    } else {
      assert s + w == s;
    }
  }

  /** Once the front is trimmed, trailing space stays at the end. */
  lemma {:induction false} TrimStartAppendSpace(s: string, w: string)
    requires AllSpace(w)
    ensures TrimStart(s + w) == TrimStart(s) + w || (TrimStart(s) == "" && TrimStart(s + w) == "")
    decreases |s|
  {
    if s == [] {
      assert s + w == w;
      TrimStartSpacePrefix(w, "");
      assert w + "" == w;
    } else if IsSpace(s[0]) {
      assert (s + w)[1..] == s[1..] + w;
      TrimStartAppendSpace(s[1..], w);
    }
  }

  /** `(w1 + s + w2).trim() == s.trim()` for whitespace `w1`, `w2`. */
  lemma {:induction false} TrimPadded(w1: string, s: string, w2: string)
    requires AllSpace(w1) && AllSpace(w2)
    ensures Trim(w1 + s + w2) == Trim(s)
  {
    PaddedStart(w1, s, w2);
    PaddedEnd(s, w2);
  }

  lemma {:induction false} PaddedStart(w1: string, s: string, w2: string)
    requires AllSpace(w1)
    ensures TrimStart(w1 + s + w2) == TrimStart(s + w2)
  {
    assert w1 + s + w2 == w1 + (s + w2);
    TrimStartSpacePrefix(w1, s + w2);
  }

  lemma {:induction false} PaddedEnd(s: string, w2: string)
    requires AllSpace(w2)
    ensures TrimEnd(TrimStart(s + w2)) == TrimEnd(TrimStart(s))
  {
    TrimStartAppendSpace(s, w2);
    if TrimStart(s + w2) == TrimStart(s) + w2 {
      TrimEndSpaceSuffix(TrimStart(s), w2);
    }
  }

  lemma {:induction false} SpaceLowerChar(c: char)
    ensures IsSpace(LowerChar(c)) <==> IsSpace(c)
  {
  }

  lemma {:induction false} TrimStartLower(s: string)
    ensures TrimStart(Lower(s)) == Lower(TrimStart(s))
    decreases |s|
  {
    if s != [] {
      SpaceLowerChar(s[0]);
      assert Lower(s)[1..] == Lower(s[1..]);
      TrimStartLower(s[1..]);
    }
  }

  lemma {:induction false} LowerPrefix(s: string, n: nat)
    requires n <= |s|
    ensures Lower(s)[..n] == Lower(s[..n])
  {
  }

  lemma {:induction false} TrimEndLower(s: string)
    ensures TrimEnd(Lower(s)) == Lower(TrimEnd(s))
    decreases |s|
  {
    if s != [] {
      var p := s[..|s| - 1];
      SpaceLowerChar(s[|s| - 1]);
      assert Lower(s)[..|s| - 1] == Lower(p) by { LowerPrefix(s, |s| - 1); }
      if IsSpace(s[|s| - 1]) {
        TrimEndLower(p);
      }
    }
  }

  /** Trimming commutes with lower-casing. */
  lemma {:induction false} TrimLower(s: string)
    ensures Trim(Lower(s)) == Lower(Trim(s))
  {
    TrimStartLower(s);
    TrimEndLower(TrimStart(s));
  }

  lemma {:induction false} UpperLower(s: string)
    ensures Upper(Lower(s)) == Upper(s)
  {
  }

  lemma {:induction false} LowerUpper(s: string)
    ensures Lower(Upper(s)) == Lower(s)
  {
  }

  /** `s.includes(c)` for a one-character string. */
  lemma {:induction false} ContainsChar(s: string, c: char)
    ensures Contains(s, [c]) <==> c in s
  {
    if c in s {
      var i :| 0 <= i < |s| && s[i] == c;
      assert s[i..i + 1] == [c];
      ContainsAt(s, [c], i);
    }
    if Contains(s, [c]) {
      var i := ContainsWitness(s, [c]);
      assert s[i] == s[i..i + 1][0];
    }
  }

  // ---------------------------------------------------------------------------
  // Splitting and joining

  /** `s.split(sep)` for a non-empty separator: the pieces between successive
      left-most non-overlapping occurrences of `sep`. */
  function Split(s: string, sep: string): (r: seq<string>)
    requires |sep| > 0
    ensures |r| >= 1
    decreases |s|
  {
    if |s| < |sep| then [s]
    else if s[..|sep|] == sep then [""] + Split(s[|sep|..], sep)
    else
      var rest := Split(s[1..], sep);
      [[s[0]] + rest[0]] + rest[1..]
  }

  /** `parts.join(sep)`. */
  function Join(parts: seq<string>, sep: string): string {
    if parts == [] then ""
    else if |parts| == 1 then parts[0]
    else parts[0] + sep + Join(parts[1..], sep)
  }

  /** `parts.join('')`. */
  function Concat(parts: seq<string>): string {
    if parts == [] then "" else parts[0] + Concat(parts[1..])
  }

  lemma {:induction false} ConcatAppend(a: seq<string>, b: seq<string>)
    ensures Concat(a + b) == Concat(a) + Concat(b)
    decreases |a|
  {
    if a != [] {
      ConcatAppend(a[1..], b);
      assert (a + b)[0] == a[0];
      assert (a + b)[1..] == a[1..] + b;
    } else {
      assert a + b == b;
    }
  }

  /** Extending the first piece extends the joined string at the front. */
  lemma {:induction false} JoinExtendHead(c: string, parts: seq<string>, sep: string)
    requires |parts| >= 1
    ensures Join([c + parts[0]] + parts[1..], sep) == c + Join(parts, sep)
  {
    var q := [c + parts[0]] + parts[1..];
    if |parts| > 1 {
      assert q[1..] == parts[1..];
    }
  }

  /** `s.split(sep).join(sep) == s`. */
  lemma {:induction false} JoinSplit(s: string, sep: string)
    requires |sep| > 0
    ensures Join(Split(s, sep), sep) == s
    decreases |s|
  {
    if |s| < |sep| {
    } else if s[..|sep|] == sep {
      var tail := s[|sep|..];
      JoinSplit(tail, sep);
      JoinEmptyHead(Split(tail, sep), sep, tail);
      assert s == sep + tail;
    } else {
      var rest := Split(s[1..], sep);
      JoinSplit(s[1..], sep);
      JoinExtendHead([s[0]], rest, sep);
      assert s == [s[0]] + s[1..];
    }
  }

  lemma {:induction false} JoinEmptyHead(rest: seq<string>, sep: string, tail: string)
    requires |rest| >= 1 && Join(rest, sep) == tail
    ensures Join([""] + rest, sep) == sep + tail
  {
    assert ([""] + rest)[1..] == rest;
  }

  /** No piece of a split contains the separator. */
  lemma {:induction false} SplitPiecesFree(s: string, sep: string)
    requires |sep| > 0
    ensures forall k :: 0 <= k < |Split(s, sep)| ==> !Contains(Split(s, sep)[k], sep)
    decreases |s|
  {
    var r := Split(s, sep);
    if |s| < |sep| {
      NotContainsShort(s, sep);
    } else if s[..|sep|] == sep {
      SplitPiecesFree(s[|sep|..], sep);
      NotContainsShort("", sep);
    } else {
      SplitPiecesFree(s[1..], sep);
      var rest := Split(s[1..], sep);
      var p := [s[0]] + rest[0];
      PrefixOfSplitHead(s[1..], sep);
      assert p == s[..|p|];
      assert !StartsWith(p, sep) by {
        if |sep| <= |p| {
          assert p[..|sep|] == s[..|sep|];
        }
      }
      assert p[1..] == rest[0];
      assert !Contains(p, sep);
      forall k | 0 <= k < |r| ensures !Contains(r[k], sep) {
        if k > 0 { assert r[k] == rest[k]; }
      }
    }
  }

  lemma {:induction false} PrefixOfSplitHead(s: string, sep: string)
    requires |sep| > 0
    ensures StartsWith(s, Split(s, sep)[0])
    decreases |s|
  {
    if |s| < |sep| {
    } else if s[..|sep|] == sep {
    } else {
      PrefixOfSplitHead(s[1..], sep);
    }
  }

  lemma {:induction false} Join4(a: string, b: string, c: string, d: string, sep: string)
    ensures Join([a, b, c, d], sep) == a + sep + b + sep + c + sep + d
  {
    assert [a, b, c, d][1..] == [b, c, d];
    assert [b, c, d][1..] == [c, d];
    assert [c, d][1..] == [d];
    assert Join([d], sep) == d;
    assert Join([c, d], sep) == c + sep + d;
    assert Join([b, c, d], sep) == b + sep + (c + sep + d);
    assert Join([a, b, c, d], sep) == a + sep + (b + sep + (c + sep + d));
  }

  /** A string free of the separator character splits into itself. */
  lemma {:induction false} SplitFree(s: string, c: char)
    requires c !in s
    ensures Split(s, [c]) == [s]
    decreases |s|
  {
    if |s| >= 1 {
      assert s[0] in s && s[..1] == [s[0]];
      SplitFree(s[1..], c);
      assert [s[0]] + s[1..] == s;
    }
  }

  lemma {:induction false} SplitFreePrefix(p: string, c: char, t: string)
    requires c !in p
    ensures Split(p + [c] + t, [c]) == [p] + Split(t, [c])
    decreases |p|
  {
    var s := p + [c] + t;
    if p == [] {
      assert s[..1] == [c];
      assert s[1..] == t;
    } else {
      assert p[0] in p && s[0] == p[0] && s[..1] == [s[0]];
      assert s[1..] == p[1..] + [c] + t;
      SplitFreePrefix(p[1..], c, t);
      assert [p[0]] + p[1..] == p;
    }
  }

  /** A string that never holds the separator's first character splits into
      itself. */
  lemma {:induction false} SplitNoLead(s: string, sep: string)
    requires |sep| > 0 && sep[0] !in s
    ensures Split(s, sep) == [s]
    decreases |s|
  {
    if |s| >= |sep| {
      assert s[0] in s && s[..|sep|][0] == s[0];
      SplitNoLead(s[1..], sep);
      assert [s[0]] + s[1..] == s;
    }
  }

  /** A piece without the separator's first character, then the separator,
      splits off as the first piece. */
  lemma {:induction false} SplitNoLeadPrefix(p: string, sep: string, t: string)
    requires |sep| > 0 && sep[0] !in p
    ensures Split(p + sep + t, sep) == [p] + Split(t, sep)
    decreases |p|
  {
    var s := p + sep + t;
    if p == [] {
      assert s[..|sep|] == sep;
      assert s[|sep|..] == t;
    } else {
      assert p[0] in p && s[0] == p[0] && s[..|sep|][0] == p[0];
      assert s[1..] == p[1..] + sep + t;
      SplitNoLeadPrefix(p[1..], sep, t);
      assert [p[0]] + p[1..] == p;
    }
  }

  /** Joining pieces free of a one-character separator and splitting again
      gives the pieces back. */
  lemma {:induction false} SplitJoin(parts: seq<string>, c: char)
    requires |parts| >= 1
    requires forall k :: 0 <= k < |parts| ==> c !in parts[k]
    ensures Split(Join(parts, [c]), [c]) == parts
    decreases |parts|
  {
    if |parts| == 1 {
      SplitFree(parts[0], c);
    } else {
      SplitJoin(parts[1..], c);
      SplitFreePrefix(parts[0], c, Join(parts[1..], [c]));
      assert parts == [parts[0]] + parts[1..];
    }
  }

  /** Number of pieces: one more than the number of separators found. */
  function CountChar(s: string, c: char): nat {
    if s == [] then 0 else (if s[0] == c then 1 else 0) + CountChar(s[1..], c)
  }

  lemma {:induction false} CountCharIn(s: string, c: char)
    requires c in s
    ensures CountChar(s, c) >= 1
    decreases |s|
  {
    if s[0] != c {
      assert c in s[1..];
      CountCharIn(s[1..], c);
    }
  }

  lemma {:induction false} SplitCharLength(s: string, c: char)
    ensures |Split(s, [c])| == CountChar(s, c) + 1
    decreases |s|
  {
    if |s| < 1 {
    } else if s[..1] == [c] {
      SplitCharLength(s[1..], c);
    } else {
      SplitCharLength(s[1..], c);
    }
  }

  /** `'x'.padStart(n, '0')`. */
  function PadStart(s: string, n: nat, fill: char): (r: string)
    ensures |r| == if |s| >= n then |s| else n
    ensures EndsWith(r, s)
    ensures forall i :: 0 <= i < |r| - |s| ==> r[i] == fill
  {
    if |s| >= n then s else seq(n - |s|, _ => fill) + s
  }

  // ---------------------------------------------------------------------------
  // Numbers as text

  function DigitChar(d: nat): char
    requires d < 16
  {
    if d < 10 then ('0' as int + d) as char else ('a' as int + d - 10) as char
  }

  /** `n.toString(base)`: digits most significant first, lowercase, no leading zeros. */
  function NatToString(n: nat, base: nat): (r: string)
    requires 2 <= base <= 16
    ensures |r| >= 1
    decreases n
  {
    if n < base then [DigitChar(n)] else NatToString(n / base, base) + [DigitChar(n % base)]
  }

  function DigitValue(c: char): nat {
    if '0' <= c <= '9' then c as int - '0' as int
    else if 'a' <= c <= 'f' then c as int - 'a' as int + 10
    else 0
  }

  predicate IsDigitIn(c: char, base: nat) {
    ('0' <= c <= '9' && c as int - '0' as int < base) || ('a' <= c <= 'f' && c as int - 'a' as int + 10 < base)
  }

  /** Value of a digit string read most significant first. */
  function DigitsValue(s: string, base: nat): nat {
    if s == [] then 0 else DigitsValue(s[..|s| - 1], base) * base + DigitValue(s[|s| - 1])
  }

  lemma {:induction false} DigitRoundTrip(d: nat, base: nat)
    requires d < base <= 16
    ensures DigitValue(DigitChar(d)) == d && IsDigitIn(DigitChar(d), base)
  {
  }

  lemma {:induction false} DivMod(n: nat, base: nat)
    requires base >= 1
    ensures (n / base) * base + n % base == n
  {
  }

  lemma {:induction false} NatToStringValueBase(n: nat, base: nat)
    requires 2 <= base <= 16 && n < base
    ensures DigitsValue(NatToString(n, base), base) == n
  {
    DigitRoundTrip(n, base);
    assert [DigitChar(n)][..0] == [];
  }

  lemma {:induction false} NatToStringValueStep(n: nat, base: nat)
    requires 2 <= base <= 16 && n >= base
    requires DigitsValue(NatToString(n / base, base), base) == n / base
    ensures DigitsValue(NatToString(n, base), base) == n
  {
    var q, m := n / base, n % base;
    DigitRoundTrip(m, base);
    var r := NatToString(q, base);
    var c := DigitChar(m);
    assert NatToString(n, base) == r + [c];
    assert (r + [c])[..|r|] == r;
    assert DigitsValue(r + [c], base) == q * base + m;
    DivMod(n, base);
  }

  lemma {:induction false} NatToStringValue(n: nat, base: nat)
    requires 2 <= base <= 16
    ensures DigitsValue(NatToString(n, base), base) == n
    decreases n
  {
    if n < base {
      NatToStringValueBase(n, base);
    } else {
      NatToStringValue(n / base, base);
      NatToStringValueStep(n, base);
    }
  }

  lemma {:induction false} NatToStringDigits(n: nat, base: nat)
    requires 2 <= base <= 16
    ensures forall i :: 0 <= i < |NatToString(n, base)| ==> IsDigitIn(NatToString(n, base)[i], base)
    decreases n
  {
    if n < base {
      DigitRoundTrip(n, base);
    } else {
      NatToStringDigits(n / base, base);
      DigitRoundTrip(n % base, base);
    }
  }

  lemma {:induction false} NatToStringRoundTrip(n: nat, base: nat)
    requires 2 <= base <= 16
    ensures DigitsValue(NatToString(n, base), base) == n
    ensures forall i :: 0 <= i < |NatToString(n, base)| ==> IsDigitIn(NatToString(n, base)[i], base)
  {
    NatToStringValue(n, base);
    NatToStringDigits(n, base);
  }

  lemma {:induction false} DivBelow(n: nat, b: nat, p: nat)
    requires b >= 1 && n < b * p
    ensures n / b < p
  {
    DivMod(n, b);
  }

  lemma {:induction false} DivAtLeast(n: nat, b: nat, p: nat)
    requires b >= 1 && n >= b * p
    ensures n / b >= p
  {
    DivMod(n, b);
    if n / b < p {
      MulLe(n / b, p - 1, b);
    }
  }

  /** The quotient and remainder are the only ones. */
  lemma {:induction false} ModUnique(x: nat, k: nat, d: nat, r: nat)
    requires d >= 1 && r < d && x == k * d + r
    ensures x / d == k && x % d == r
  {
    assert x >= d * k;
    DivAtLeast(x, d, k);
    assert d * (k + 1) == d * k + d;
    DivBelow(x, d, k + 1);
    DivMod(x, d);
  }

  /** A remainder by a multiple of `d`, taken again by `d`, is the remainder by
      `d`; its quotient by `d` is below the multiplier. */
  lemma {:induction false} ModOfMod(x: nat, d: nat, k: nat)
    requires d >= 1 && k >= 1
    ensures (x % (k * d)) % d == x % d && (x % (k * d)) / d < k
  {
    ModOfModRem(x, d, k, k * d);
    ModOfModQuot(x % (k * d), d, k, k * d);
  }

  lemma {:induction false} ModOfModQuot(r: nat, d: nat, k: nat, b: nat)
    requires d >= 1 && b == k * d && r < b
    ensures r / d < k
  {
    assert b == d * k;
    DivBelow(r, d, k);
  }

  lemma {:induction false} ModOfModRem(x: nat, d: nat, k: nat, b: nat)
    requires d >= 1 && k >= 1 && b == k * d
    ensures (x % b) % d == x % d
  {
    AtLeastFactor(d, k);
    DivMod(x, b);
    DivMod(x % b, d);
    RemThroughMultiple(x, d, k, b, x / b, x % b, (x % b) / d, (x % b) % d);
  }

  lemma {:induction false} RemThroughMultiple(x: nat, d: nat, k: nat, b: nat, q: nat, r: nat, h: nat, t: nat)
    requires d >= 1 && b == k * d && x == q * b + r && r == h * d + t && t < d
    ensures x % d == t
  {
    var p := q * k;
    Regroup(x, b, q, r, k, d, h, t, p);
    ModUnique(x, p + h, d, t);
  }

  lemma {:induction false} Regroup(x: int, b: int, q: int, r: int, k: int, d: int, h: int, t: int, p: int)
    requires b == k * d && x == q * b + r && r == h * d + t && p == q * k
    ensures x == (p + h) * d + t && b == d * k
  {
    assert q * (k * d) == p * d;
    assert (p + h) * d == p * d + h * d;
  }

  lemma {:induction false} MulLe(x: int, y: int, b: nat)
    requires x <= y
    ensures x * b <= y * b
  {
  }

  /** A number below `base^k` needs at most `k` digits. */
  lemma {:induction false} NatToStringLengthBound(n: nat, base: nat, k: nat)
    requires 2 <= base <= 16 && k >= 1
    requires n < Power(base, k)
    ensures |NatToString(n, base)| <= k
    decreases n
  {
    if n >= base {
      if k == 1 {
        PowerOne(base);
      } else {
        assert Power(base, k) == base * Power(base, k - 1);
        DivBelow(n, base, Power(base, k - 1));
        DivLess(n, base);
        NatToStringLengthBound(n / base, base, k - 1);
      }
    }
  }

  /** A number of at least `base^(k-1)` needs at least `k` digits. */
  lemma {:induction false} NatToStringLengthLower(n: nat, base: nat, k: nat)
    requires 2 <= base <= 16 && k >= 1
    requires n >= Power(base, k - 1)
    ensures |NatToString(n, base)| >= k
    decreases n
  {
    if k >= 2 {
      var p := Power(base, k - 2);
      assert Power(base, k - 1) == base * p;
      PowerPositive(base, k - 2);
      AtLeastFactor(base, p);
      DivAtLeast(n, base, p);
      DivLess(n, base);
      NatToStringLengthLower(n / base, base, k - 1);
    }
  }

  lemma {:induction false} PowerOne(b: nat)
    ensures Power(b, 1) == b
  {
  }

  lemma {:induction false} DivLess(n: nat, b: nat)
    requires 2 <= b <= n
    ensures 1 <= n / b < n
  {
  }

  lemma {:induction false} AtLeastFactor(b: nat, p: nat)
    requires p >= 1
    ensures b * p >= b
  {
  }

  lemma {:induction false} PowerPositive(b: nat, k: nat)
    requires b >= 1
    ensures Power(b, k) >= 1
  {
    if k > 0 {
      PowerPositive(b, k - 1);
      AtLeastFactor(b, Power(b, k - 1));
    }
  }

  function Power(b: nat, k: nat): nat {
    if k == 0 then 1 else b * Power(b, k - 1)
  }

  /** Decimal rendering of an integer, with a leading '-' for negatives (`String(n)`). */
  function IntToString(n: int): (r: string)
    ensures |r| >= 1
  {
    if n < 0 then "-" + NatToString(-n, 10) else NatToString(n, 10)
  }

  // ---------------------------------------------------------------------------
  // parseInt

  function LeadingDigits(s: string): (r: string)
    ensures StartsWith(s, r)
    ensures forall i :: 0 <= i < |r| ==> IsDigit(r[i])
    ensures |r| < |s| ==> !IsDigit(s[|r|])
  {
    if s != [] && IsDigit(s[0]) then [s[0]] + LeadingDigits(s[1..]) else []
  }

  /** `parseInt(s)` read in base 10: leading whitespace, an optional sign, then the
      longest run of decimal digits; `None` stands for NaN. */
  function ParseInt(s: string): Option<int> {
    var t := TrimStart(s);
    if t != [] && t[0] == '-' then
      match ParseUnsigned(t[1..])
      case None => None
      case Some(v) => Some(-v)
    else if t != [] && t[0] == '+' then ParseUnsigned(t[1..])
    else ParseUnsigned(t)
  }

  /** The value of the longest leading run of decimal digits, `None` when there is none. */
  function ParseUnsigned(b: string): Option<int> {
    var digits := LeadingDigits(b);
    if digits == [] then None else Some(DigitsValue(digits, 10))
  }

  lemma {:induction false} DecimalDigits(r: string)
    requires forall i :: 0 <= i < |r| ==> IsDigitIn(r[i], 10)
    ensures forall i :: 0 <= i < |r| ==> IsDigit(r[i])
  {
  }

  lemma {:induction false} LeadingDigitsAll(s: string)
    requires forall i :: 0 <= i < |s| ==> IsDigit(s[i])
    ensures LeadingDigits(s) == s
    decreases |s|
  {
    if s != [] {
      LeadingDigitsAll(s[1..]);
    }
  }

  lemma {:induction false} TrimStartNoSpace(s: string)
    requires s != [] && !IsSpace(s[0])
    ensures TrimStart(s) == s
  {
  }

  /** A string that neither begins nor ends with whitespace is its own trim. */
  lemma {:induction false} TrimNoSpaceEnds(s: string)
    requires s != [] && !IsSpace(s[0]) && !IsSpace(s[|s| - 1])
    ensures Trim(s) == s
  {
    TrimStartNoSpace(s);
  }

  /** Reading back a run of decimal digits. */
  lemma {:induction false} ParseDigits(d: string)
    requires d != [] && forall i :: 0 <= i < |d| ==> IsDigit(d[i])
    ensures ParseInt(d) == Some(DigitsValue(d, 10))
  {
    TrimStartNoSpace(d);
    UnsignedDigits(d);
    assert d[0] != '-' && d[0] != '+';
  }

  lemma {:induction false} UnsignedDigits(d: string)
    requires d != [] && forall i :: 0 <= i < |d| ==> IsDigit(d[i])
    ensures ParseUnsigned(d) == Some(DigitsValue(d, 10))
  {
    LeadingDigitsAll(d);
  }

  /** Reading back a minus sign followed by a run of decimal digits. */
  lemma {:induction false} ParseNegDigits(d: string)
    requires d != [] && forall i :: 0 <= i < |d| ==> IsDigit(d[i])
    ensures ParseInt("-" + d) == Some(-(DigitsValue(d, 10) as int))
  {
    var s := "-" + d;
    var v := DigitsValue(d, 10);
    assert TrimStart(s) == s && s[0] == '-' by { TrimStartNoSpace(s); }
    assert ParseUnsigned(s[1..]) == Some(v) by {
      assert s[1..] == d;
      UnsignedDigits(d);
    }
    ParseNegative(s, v);
  }

  lemma {:induction false} ParseNegative(s: string, v: int)
    requires TrimStart(s) == s && s != [] && s[0] == '-'
    requires ParseUnsigned(s[1..]) == Some(v)
    ensures ParseInt(s) == Some(-v)
  {
  }

  /** `parseInt(String(n)) == n`: decimal rendering and parseInt are inverse. */
  lemma {:induction false} ParseIntRoundTrip(n: int)
    ensures ParseInt(IntToString(n)) == Some(n)
  {
    var m: nat := if n < 0 then -n else n;
    var d := NatToString(m, 10);
    NatToStringRoundTrip(m, 10);
    DecimalDigits(d);
    if n < 0 {
      ParseNegDigits(d);
    } else {
      ParseDigits(d);
    }
  }

  lemma {:induction false} ParseIntNaNOnBlank(s: string)
    requires AllSpace(s)
    ensures ParseInt(s) == None
  {
    AllSpaceBlank(s);
  }
}
