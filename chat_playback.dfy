/** Sentence chunking for speech playback (`speak` in ChatInterface.tsx).

    The reply text is cut with `cleanText.match(/[^.!?]+[.!?]+/g) || [cleanText]`:
    the global match scans left to right for a run of characters that are not
    sentence terminators followed by a run of terminators (`.`, `!`, `?`), both
    as long as possible.  When nothing matches, the whole text is one chunk. */
module ChatPlayback {

  import opened Strings

  predicate IsTerminator(c: char) {
    c == '.' || c == '!' || c == '?'
  }

  predicate NoTerminator(s: string) {
    forall i :: 0 <= i < |s| ==> !IsTerminator(s[i])
  }

  /** End of the run that starts at `i` of characters whose terminator-ness is
      `term`. */
  function RunEnd(s: string, i: nat, term: bool): (j: nat)
    requires i <= |s|
    ensures i <= j <= |s|
    ensures forall k :: i <= k < j ==> IsTerminator(s[k]) == term
    ensures j < |s| ==> IsTerminator(s[j]) != term
    decreases |s| - i
  {
    if i < |s| && IsTerminator(s[i]) == term then RunEnd(s, i + 1, term) else i
  }

  /** `c` is non-terminators before `k` and terminators from `k` on, both non-empty. */
  predicate SplitsAt(c: string, k: int) {
    0 < k < |c| && (forall j :: 0 <= j < k ==> !IsTerminator(c[j]))
    && (forall j :: k <= j < |c| ==> IsTerminator(c[j]))
  }

  /** A match of `/[^.!?]+[.!?]+/`: some non-terminators, then some terminators. */
  predicate IsSentence(c: string) {
    exists k :: 0 < k < |c| && SplitsAt(c, k)
  }

  /** The successive matches of the global regular expression from position `i`. */
  function SentencesFrom(s: string, i: nat): (r: seq<string>)
    requires i <= |s|
    decreases |s| - i
  {
    if i == |s| then []
    else if IsTerminator(s[i]) then SentencesFrom(s, i + 1)
    else
      var n := RunEnd(s, i, false);
      if n == |s| then [] else [s[i..RunEnd(s, n, true)]] + SentencesFrom(s, RunEnd(s, n, true))
  }

  /** The text after the last match from position `i`: what the regular
      expression never reaches. */
  function TailFrom(s: string, i: nat): (r: string)
    requires i <= |s|
    decreases |s| - i
  {
    if i == |s| then []
    else if IsTerminator(s[i]) then TailFrom(s, i + 1)
    else
      var n := RunEnd(s, i, false);
      if n == |s| then s[i..] else TailFrom(s, RunEnd(s, n, true))
  }

  function Sentences(s: string): seq<string> {
    SentencesFrom(s, 0)
  }

  function Tail(s: string): string {
    TailFrom(s, 0)
  }

  /** Length of the leading run of terminators. */
  function LeadLen(s: string): nat {
    RunEnd(s, 0, true)
  }

  /** The chunks `speak` plays, as written. */
  function Chunks(s: string): (r: seq<string>)
    ensures |r| >= 1
  {
    var found := Sentences(s);
    if found == [] then [s] else found
  }

  /** The chunks with the unterminated tail kept as a last chunk. */
  function SpokenChunks(s: string): (r: seq<string>)
    ensures |r| >= 1
  {
    var found := Sentences(s);
    if found == [] then [s]
    else found + (if Tail(s) == "" then [] else [Tail(s)])
  }

  // ---------------------------------------------------------------------------
  // What the matches are

  /** Every match is a sentence: non-terminators, then terminators. */
  lemma {:induction false} SentencesShape(s: string, i: nat)
    requires i <= |s|
    ensures forall c :: c in SentencesFrom(s, i) ==> IsSentence(c)
    decreases |s| - i
  {
    if i < |s| {
      if IsTerminator(s[i]) {
        SentencesShape(s, i + 1);
      } else {
        var n := RunEnd(s, i, false);
        if n < |s| {
          var k := RunEnd(s, n, true);
          var c := s[i..k];
          var w := n - i;
          assert 0 < w < |c|;
          assert forall j :: 0 <= j < |c| ==> c[j] == s[i + j];
          assert SplitsAt(c, w);
          SentencesShape(s, k);
        }
      }
    }
  }

  /** The tail contains no terminator. */
  lemma {:induction false} TailNoTerminator(s: string, i: nat)
    requires i <= |s|
    ensures NoTerminator(TailFrom(s, i))
    decreases |s| - i
  {
    if i < |s| {
      if IsTerminator(s[i]) {
        TailNoTerminator(s, i + 1);
      } else {
        var n := RunEnd(s, i, false);
        if n < |s| {
          TailNoTerminator(s, RunEnd(s, n, true));
        } else {
          assert forall j :: 0 <= j < |s[i..]| ==> s[i..][j] == s[i + j];
        }
      }
    }
  }

  lemma {:induction false} ConcatCons(head: string, parts: seq<string>, tail: string, rest: string)
    requires Concat(parts) + tail == rest
    ensures Concat([head] + parts) + tail == head + rest
  {
    assert ([head] + parts)[1..] == parts;
  }

  /** Reassembly from position `i`: the matches followed by the tail give back
      the text after the terminators at `i`. */
  lemma {:induction false} CoverFrom(s: string, i: nat)
    requires i <= |s|
    ensures Concat(SentencesFrom(s, i)) + TailFrom(s, i) == s[RunEnd(s, i, true)..]
    decreases |s| - i
  {
    if i < |s| {
      if IsTerminator(s[i]) {
        CoverFrom(s, i + 1);
      } else {
        var n := RunEnd(s, i, false);
        if n < |s| {
          var k := RunEnd(s, n, true);
          CoverFrom(s, k);
          assert s[i..k] + s[k..] == s[i..];
          ConcatCons(s[i..k], SentencesFrom(s, k), TailFrom(s, k), s[k..]);
        }
      }
    }
  }

  /** Reassembly: the matches followed by the tail give back the text after its
      leading terminators.  Nothing else is skipped, and the matches appear in
      the order of the text. */
  lemma {:induction false} SentencesCover(s: string)
    ensures Concat(Sentences(s)) + Tail(s) == s[LeadLen(s)..]
  {
    CoverFrom(s, 0);
  }

  // ---------------------------------------------------------------------------
  // The as-written chunker loses the tail; the corrected one does not

  /** As written: when the text has at least one sentence, the chunks spoken
      are the text without its leading terminators and without its tail, so a
      non-empty tail is never spoken. */
  lemma {:induction false} ChunksDropTail(s: string)
    requires Sentences(s) != []
    ensures Concat(Chunks(s)) + Tail(s) == s[LeadLen(s)..]
    ensures Tail(s) != "" ==> Concat(Chunks(s)) != s[LeadLen(s)..]
  {
    SentencesCover(s);
  }

  /** A run that covers `[i, j)` and stops at `j` ends at `j`. */
  lemma {:induction false} RunAcross(s: string, i: nat, j: nat, term: bool)
    requires i <= j <= |s|
    requires forall k :: i <= k < j ==> IsTerminator(s[k]) == term
    requires j < |s| ==> IsTerminator(s[j]) != term
    ensures RunEnd(s, i, term) == j
    decreases j - i
  {
    if i < j {
      RunAcross(s, i + 1, j, term);
    }
  }

  /** One sentence ended by a single terminator, then text without any (as in
      "Hello. World"): only the sentence is spoken, and the text after it is
      the tail, which is lost. */
  lemma {:induction false} SentenceThenText(w1: string, p: char, w2: string)
    requires w1 != [] && w2 != []
    requires NoTerminator(w1) && NoTerminator(w2) && IsTerminator(p)
    ensures Chunks(w1 + [p] + w2) == [w1 + [p]]
    ensures Tail(w1 + [p] + w2) == w2
  {
    var s := w1 + [p] + w2;
    var n := |w1|;
    assert forall j :: 0 <= j < n ==> s[j] == w1[j];
    assert s[n] == p;
    assert forall j :: n < j < |s| ==> s[j] == w2[j - n - 1];
    RunAcross(s, 0, n, false);
    RunAcross(s, n, n + 1, true);
    RunAcross(s, n + 1, |s|, false);
    assert SentencesFrom(s, n + 1) == [] && TailFrom(s, n + 1) == s[n + 1..];
    assert s[..n + 1] == w1 + [p] && s[n + 1..] == w2;
  }

  /** Corrected: the chunks spoken are the whole text but its leading
      terminators; when there is no sentence at all the text is one chunk. */
  lemma {:induction false} SpokenChunksKeepText(s: string)
    ensures Sentences(s) != [] ==> Concat(SpokenChunks(s)) == s[LeadLen(s)..]
    ensures Sentences(s) == [] ==> SpokenChunks(s) == [s]
    ensures s != "" ==> forall c :: c in SpokenChunks(s) ==> c != ""
  {
    SentencesCover(s);
    SentencesShape(s, 0);
    var found := Sentences(s);
    if found != [] {
      if Tail(s) != "" {
        ConcatAppend(found, [Tail(s)]);
        assert Concat([Tail(s)]) == Tail(s);
      } else {
        assert found + [] == found;
      }
    }
  }

  /** Every chunk but a kept tail is a sentence, and a kept tail is the last
      chunk and has no terminator. */
  lemma {:induction false} SpokenChunksShape(s: string)
    requires Sentences(s) != []
    ensures forall i :: 0 <= i < |Sentences(s)| ==> IsSentence(SpokenChunks(s)[i])
    ensures |SpokenChunks(s)| > |Sentences(s)| ==>
              SpokenChunks(s)[|Sentences(s)|] == Tail(s) && NoTerminator(Tail(s))
  {
    SentencesShape(s, 0);
    TailNoTerminator(s, 0);
    assert forall i :: 0 <= i < |Sentences(s)| ==> SpokenChunks(s)[i] == Sentences(s)[i];
  }
}
