/** The developer console (components/DevTools.tsx): the crypto tab's four
    encoders, the process monitor's kill action and the small Python-like
    interpreter.

    Characters stand for UTF-16 code units, as `split('')` and `charCodeAt`
    see them. */
module DevTools {
  import opened Strings

  // ---------------------------------------------------------------------------
  // HEX and BINARY

  /** `c.charCodeAt(0).toString(base).padStart(width, '0')`. */
  function Token(c: char, base: nat, width: nat): (r: string)
    requires 2 <= base <= 16
    ensures |r| >= width
  {
    PadStart(NatToString(c as nat, base), width, '0')
  }

  function Tokens(s: string, base: nat, width: nat): (r: seq<string>)
    requires 2 <= base <= 16
    ensures |r| == |s|
    ensures forall i :: 0 <= i < |s| ==> r[i] == Token(s[i], base, width)
  {
    seq(|s|, i requires 0 <= i < |s| => Token(s[i], base, width))
  }

  /** The tokens of all code units, joined by single spaces. */
  function RadixEncode(s: string, base: nat, width: nat): string
    requires 2 <= base <= 16
  {
    Join(Tokens(s, base, width), " ")
  }

  function HexEncode(s: string): string {
    RadixEncode(s, 16, 2)
  }

  function BinaryEncode(s: string): string {
    RadixEncode(s, 2, 8)
  }

  /** Reading one token back: a non-empty run of digits of the base whose
      value is a Latin-1 code unit. */
  function DecodeToken(tok: string, base: nat): (r: Option<char>)
    ensures r.Some? ==> r.value as int < 256
  {
    if tok != [] && (forall i :: 0 <= i < |tok| ==> IsDigitIn(tok[i], base)) && DigitsValue(tok, base) < 256
    then Some(DigitsValue(tok, base) as char)
    else None
  }

  function DecodeTokens(toks: seq<string>, base: nat): (r: Option<string>)
    ensures r.Some? ==> |r.value| == |toks|
  {
    if toks == [] then Some("")
    else
      match DecodeToken(toks[0], base)
      case None => None
      case Some(c) =>
        match DecodeTokens(toks[1..], base)
        case None => None
        case Some(rest) => Some([c] + rest)
  }

  /** The inverse of `RadixEncode` on Latin-1 text. */
  function RadixDecode(t: string, base: nat): Option<string> {
    if t == "" then Some("") else DecodeTokens(Split(t, " "), base)
  }

  predicate IsLatin1(s: string) {
    forall i :: 0 <= i < |s| ==> s[i] as int < 256
  }

  /** Leading zeros do not change a digit string's value. */
  lemma {:induction false} ZeroPadValue(z: string, t: string, base: nat)
    requires forall i :: 0 <= i < |z| ==> z[i] == '0'
    ensures DigitsValue(z + t, base) == DigitsValue(t, base)
    decreases |t|, |z|
  {
    if t == [] {
      assert z + t == z;
      if z != [] {
        ZeroPadValue(z[..|z| - 1], [], base);
        assert z[..|z| - 1] + [] == z[..|z| - 1];
      }
    } else {
      var u := z + t;
      assert u[..|u| - 1] == z + t[..|t| - 1];
      ZeroPadValue(z, t[..|t| - 1], base);
    }
  }

  /** A Latin-1 code unit gives a token of exactly `width` digits that reads
      back as the same code unit. */
  lemma {:induction false} TokenRoundTrip(c: char, base: nat, width: nat)
    requires 2 <= base <= 16 && width >= 1 && 256 <= Power(base, width)
    requires c as int < 256
    ensures |Token(c, base, width)| == width
    ensures ' ' !in Token(c, base, width)
    ensures DecodeToken(Token(c, base, width), base) == Some(c)
  {
    var t := Token(c, base, width);
    TokenDigits(c, base, width);
    DecodeDigits(t, base, c);
    assert ' ' !in t by {
      forall i | 0 <= i < |t| ensures t[i] != ' ' {
        assert IsDigitIn(t[i], base);
      }
    }
  }

  lemma {:induction false} DecodeDigits(t: string, base: nat, c: char)
    requires t != [] && forall i :: 0 <= i < |t| ==> IsDigitIn(t[i], base)
    requires DigitsValue(t, base) == c as int && c as int < 256
    ensures DecodeToken(t, base) == Some(c)
  {
  }

  /** The token is `width` digits of the base whose value is the code unit. */
  lemma {:induction false} TokenDigits(c: char, base: nat, width: nat)
    requires 2 <= base <= 16 && width >= 1 && 256 <= Power(base, width)
    requires c as int < 256
    ensures var t := Token(c, base, width);
      |t| == width && (forall i :: 0 <= i < |t| ==> IsDigitIn(t[i], base)) && DigitsValue(t, base) == c as int
  {
    var d := NatToString(c as nat, base);
    var t := Token(c, base, width);
    NatToStringRoundTrip(c as nat, base);
    NatToStringLengthBound(c as nat, base, width);
    var z := t[..|t| - |d|];
    assert t == z + d;
    assert DigitsValue(t, base) == DigitsValue(d, base) by {
      ZeroPadValue(z, d, base);
    }
    forall i | 0 <= i < |t| ensures IsDigitIn(t[i], base) {
      if i >= |t| - |d| {
        assert t[i] == d[i - (|t| - |d|)];
      }
    }
  }

  lemma {:induction false} DecodeTokensRoundTrip(s: string, base: nat, width: nat)
    requires 2 <= base <= 16 && width >= 1 && 256 <= Power(base, width)
    requires IsLatin1(s)
    ensures DecodeTokens(Tokens(s, base, width), base) == Some(s)
    decreases |s|
  {
    if s != [] {
      var rest := s[1..];
      assert IsLatin1(rest) by {
        forall i | 0 <= i < |rest| ensures rest[i] as int < 256 {
          assert rest[i] == s[i + 1];
        }
      }
      DecodeTokensRoundTrip(rest, base, width);
      TokenRoundTrip(s[0], base, width);
      TokensTail(s, base, width);
      DecodeTokensCons(Tokens(s, base, width), base, s[0], rest);
      assert [s[0]] + rest == s;
    }
  }

  lemma {:induction false} DecodeTokensCons(toks: seq<string>, base: nat, c: char, rest: string)
    requires toks != [] && DecodeToken(toks[0], base) == Some(c)
    requires DecodeTokens(toks[1..], base) == Some(rest)
    ensures DecodeTokens(toks, base) == Some([c] + rest)
  {
  }

  lemma {:induction false} TokensTail(s: string, base: nat, width: nat)
    requires 2 <= base <= 16 && s != []
    ensures Tokens(s, base, width)[0] == Token(s[0], base, width)
    ensures Tokens(s, base, width)[1..] == Tokens(s[1..], base, width)
  {
  }

  /** Round trip: Latin-1 text is recoverable from its HEX or BINARY form, each
      code unit giving exactly `width` digits. */
  lemma {:induction false} RadixRoundTrip(s: string, base: nat, width: nat)
    requires 2 <= base <= 16 && width >= 1 && 256 <= Power(base, width)
    requires IsLatin1(s)
    ensures RadixDecode(RadixEncode(s, base, width), base) == Some(s)
    ensures s != "" ==> Split(RadixEncode(s, base, width), " ") == Tokens(s, base, width)
    ensures forall i :: 0 <= i < |s| ==> |Tokens(s, base, width)[i]| == width
  {
    var toks := Tokens(s, base, width);
    forall i | 0 <= i < |s| ensures |toks[i]| == width && ' ' !in toks[i] {
      TokenRoundTrip(s[i], base, width);
    }
    DecodeTokensRoundTrip(s, base, width);
    if s != "" {
      SplitJoin(toks, ' ');
      assert Split(RadixEncode(s, base, width), " ") == toks;
      TokenRoundTrip(s[0], base, width);
      assert RadixEncode(s, base, width) != "" by {
        if |toks| == 1 {
        } else {
          assert |RadixEncode(s, base, width)| >= |toks[0]|;
        }
      }
    }
  }

  lemma {:induction false} HexRoundTrip(s: string)
    requires IsLatin1(s)
    ensures RadixDecode(HexEncode(s), 16) == Some(s)
    ensures forall i :: 0 <= i < |s| ==> |Tokens(s, 16, 2)[i]| == 2
  {
    assert Power(16, 2) == 256;
    RadixRoundTrip(s, 16, 2);
  }

  lemma {:induction false} BinaryRoundTrip(s: string)
    requires IsLatin1(s)
    ensures RadixDecode(BinaryEncode(s), 2) == Some(s)
    ensures forall i :: 0 <= i < |s| ==> |Tokens(s, 2, 8)[i]| == 8
  {
    assert Power(2, 8) == 256;
    RadixRoundTrip(s, 2, 8);
  }

  // ---------------------------------------------------------------------------
  // MORSE

  /** The Morse table: letters, digits and the word gap. */
  const MORSE: seq<(char, string)> := [
    ('A', ".-"), ('B', "-..."), ('C', "-.-."), ('D', "-.."), ('E', "."), ('F', "..-."),
    ('G', "--."), ('H', "...."), ('I', ".."), ('J', ".---"), ('K', "-.-"), ('L', ".-.."),
    ('M', "--"), ('N', "-."), ('O', "---"), ('P', ".--."), ('Q', "--.-"), ('R', ".-."),
    ('S', "..."), ('T', "-"), ('U', "..-"), ('V', "...-"), ('W', ".--"), ('X', "-..-"),
    ('Y', "-.--"), ('Z', "--.."), ('1', ".----"), ('2', "..---"), ('3', "...--"),
    ('4', "....-"), ('5', "....."), ('6', "-...."), ('7', "--..."), ('8', "---.."),
    ('9', "----."), ('0', "-----"), (' ', "/")]

  predicate IsMorseSymbol(c: char) {
    c == '.' || c == '-' || c == '/'
  }

  /** The code of `c` in the table, if it has one. */
  function MorseCode(c: char, table: seq<(char, string)>): (r: Option<string>)
    ensures r.Some? <==> exists i :: 0 <= i < |table| && table[i].0 == c
    ensures r.Some? ==> exists i :: 0 <= i < |table| && table[i].0 == c && table[i].1 == r.value &&
                                     (forall j :: 0 <= j < i ==> table[j].0 != c)
  {
    if table == [] then None
    else if table[0].0 == c then Some(table[0].1)
    else
      var r := MorseCode(c, table[1..]);
      assert r.Some? ==> exists i :: 1 <= i < |table| && table[i].0 == c && table[i].1 == r.value &&
                                        (forall j :: 0 <= j < i ==> table[j].0 != c) by {
        if r.Some? {
          var i :| 0 <= i < |table| - 1 && table[1..][i].0 == c && table[1..][i].1 == r.value &&
                   (forall j :: 0 <= j < i ==> table[1..][j].0 != c);
          assert table[i + 1].0 == c && forall j :: 0 <= j < i + 1 ==> table[j].0 != c;
        }
      }
      r
  }

  /** `morseCode[c] || c`: the code, or the character itself. */
  function MorseToken(c: char): (r: string)
  {
    TableToken(c, MORSE)
  }

  function TableToken(c: char, table: seq<(char, string)>): string {
    match MorseCode(c, table)
    case Some(code) => code
    case None => [c]
  }

  function MorseTokens(s: string): (r: seq<string>)
    ensures |r| == |s|
    ensures forall i :: 0 <= i < |s| ==> r[i] == MorseToken(s[i])
  {
    seq(|s|, i requires 0 <= i < |s| => MorseToken(s[i]))
  }

  /** MORSE mode: the upper-cased input, one token per character, joined by
      single spaces. */
  function MorseEncode(s: string): string {
    Join(MorseTokens(Upper(s)), " ")
  }

  /** Every code in the table is a non-empty run of dots, dashes or the
      slash. */
  lemma {:induction false} MorseTableShape()
    ensures forall i :: 0 <= i < |MORSE| ==> MORSE[i].1 != "" && forall k :: 0 <= k < |MORSE[i].1| ==> IsMorseSymbol(MORSE[i].1[k])
  {
  }

  /** No token holds a space: the space itself has a code. */
  lemma {:induction false} MorseTokenNoSpace(c: char)
    ensures ' ' !in MorseToken(c)
  {
    MorseTableShape();
    assert MORSE[36].0 == ' ';
    TableTokenNoSpace(c, MORSE);
  }

  lemma {:induction false} TableTokenNoSpace(c: char, table: seq<(char, string)>)
    requires forall i :: 0 <= i < |table| ==> forall k :: 0 <= k < |table[i].1| ==> IsMorseSymbol(table[i].1[k])
    requires exists i :: 0 <= i < |table| && table[i].0 == ' '
    ensures ' ' !in TableToken(c, table)
  {
    MorseCodeSymbols(c, table);
  }

  /** A table of symbol codes only ever yields symbol codes. */
  lemma {:induction false} MorseCodeSymbols(c: char, table: seq<(char, string)>)
    requires forall i :: 0 <= i < |table| ==> forall k :: 0 <= k < |table[i].1| ==> IsMorseSymbol(table[i].1[k])
    ensures MorseCode(c, table).Some? ==>
      forall k :: 0 <= k < |MorseCode(c, table).value| ==> IsMorseSymbol(MorseCode(c, table).value[k])
    decreases |table|
  {
    if table != [] && table[0].0 != c {
      assert forall i :: 0 <= i < |table[1..]| ==> table[1..][i] == table[i + 1];
      MorseCodeSymbols(c, table[1..]);
    }
  }

  /** The Morse text splits back into one token per character of the
      upper-cased input: the character's code, or the character itself. */
  lemma {:induction false} MorseTokenization(s: string)
    requires s != ""
    ensures Split(MorseEncode(s), " ") == MorseTokens(Upper(s))
    ensures |Split(MorseEncode(s), " ")| == |s|
  {
    var toks := MorseTokens(Upper(s));
    forall k | 0 <= k < |toks| ensures ' ' !in toks[k] {
      MorseTokenNoSpace(Upper(s)[k]);
    }
    SplitJoin(toks, ' ');
  }

  // ---------------------------------------------------------------------------
  // BASE64

  /** The Base64 alphabet of section 4 of RFC 4648. */
  function B64Char(i: int): char
    requires 0 <= i < 64
  {
    if i < 26 then ('A' as int + i) as char
    else if i < 52 then ('a' as int + i - 26) as char
    else if i < 62 then ('0' as int + i - 52) as char
    else if i == 62 then '+'
    else '/'
  }

  /** The value of an alphabet character, or -1. */
  function B64Index(c: char): (r: int)
    ensures -1 <= r < 64
  {
    if 'A' <= c <= 'Z' then c as int - 'A' as int
    else if 'a' <= c <= 'z' then c as int - 'a' as int + 26
    else if '0' <= c <= '9' then c as int - '0' as int + 52
    else if c == '+' then 62
    else if c == '/' then 63
    else -1
  }

  lemma {:induction false} B64CharIndex(i: int)
    requires 0 <= i < 64
    ensures B64Index(B64Char(i)) == i && B64Char(i) != '='
  {
  }

  /** `btoa` on Latin-1 text: every three code units become four alphabet
      characters; a final group of one or two is padded with '='. */
  function B64(s: string): (r: string)
    requires IsLatin1(s)
    ensures |r| == 4 * ((|s| + 2) / 3)
    decreases |s|
  {
    if |s| == 0 then ""
    else
      var b0 := s[0] as int;
      if |s| == 1 then [B64Char(b0 / 4), B64Char((b0 % 4) * 16), '=', '=']
      else
        var b1 := s[1] as int;
        if |s| == 2 then [B64Char(b0 / 4), B64Char((b0 % 4) * 16 + b1 / 16), B64Char((b1 % 16) * 4), '=']
        else
          Latin1Rest(s);
          GroupsLength(|s|);
          Group(b0, s[1] as int, s[2] as int) + B64(s[3..])
  }

  /** One more group of three input characters is four more output characters. */
  lemma {:induction false} GroupsLength(n: int)
    requires n >= 3
    ensures 4 + 4 * ((n - 3 + 2) / 3) == 4 * ((n + 2) / 3)
  {
    assert (n + 2) / 3 == (n - 1) / 3 + 1;
  }

  /** Three bytes as four alphabet characters of six bits each. */
  function Group(b0: int, b1: int, b2: int): (r: string)
    requires 0 <= b0 < 256 && 0 <= b1 < 256 && 0 <= b2 < 256
  {
    [B64Char(b0 / 4), B64Char((b0 % 4) * 16 + b1 / 16), B64Char((b1 % 16) * 4 + b2 / 64), B64Char(b2 % 64)]
  }

  lemma {:induction false} Latin1Rest(s: string)
    requires IsLatin1(s) && |s| > 2
    ensures IsLatin1(s[3..])
  {
    var rest := s[3..];
    forall i | 0 <= i < |rest| ensures rest[i] as int < 256 {
      assert rest[i] == s[i + 3];
    }
  }

  /** `btoa(s)`: None where it throws, on a code unit above U+00FF. */
  function Btoa(s: string): (r: Option<string>)
    ensures r.None? <==> !IsLatin1(s)
  {
    if IsLatin1(s) then Some(B64(s)) else None
  }

  /** Decoding Base64 text back to Latin-1 (the partner of `B64`). */
  function Atob(t: string): (r: Option<string>)
    decreases |t|
  {
    if t == "" then Some("")
    else if |t| < 4 then None
    else
      var i0, i1, i2, i3 := B64Index(t[0]), B64Index(t[1]), B64Index(t[2]), B64Index(t[3]);
      if i0 < 0 || i1 < 0 then None
      else if |t| == 4 && t[2] == '=' && t[3] == '=' then Some([(i0 * 4 + i1 / 16) as char])
      else if i2 < 0 then None
      else if |t| == 4 && t[3] == '=' then Some([(i0 * 4 + i1 / 16) as char, ((i1 % 16) * 16 + i2 / 4) as char])
      else if i3 < 0 then None
      else
        match Atob(t[4..])
        case None => None
        case Some(rest) =>
          Some([(i0 * 4 + i1 / 16) as char, ((i1 % 16) * 16 + i2 / 4) as char, ((i2 % 4) * 64 + i3) as char] + rest)
  }

  /** The six-bit groups of three bytes give the bytes back. */
  lemma {:induction false} SixBitGroups(b0: int, b1: int, b2: int)
    requires 0 <= b0 < 256 && 0 <= b1 < 256 && 0 <= b2 < 256
    ensures var i0, i1, i2, i3 := b0 / 4, (b0 % 4) * 16 + b1 / 16, (b1 % 16) * 4 + b2 / 64, b2 % 64;
      0 <= i0 < 64 && 0 <= i1 < 64 && 0 <= i2 < 64 && 0 <= i3 < 64 &&
      i0 * 4 + i1 / 16 == b0 && (i1 % 16) * 16 + i2 / 4 == b1 && (i2 % 4) * 64 + i3 == b2
  {
    var i1 := (b0 % 4) * 16 + b1 / 16;
    var i2 := (b1 % 16) * 4 + b2 / 64;
    assert i1 / 16 == b0 % 4 && i1 % 16 == b1 / 16;
    assert i2 / 4 == b1 % 16 && i2 % 4 == b2 / 64;
  }

  lemma {:induction false} Atob3(t: string, rest: string, b0: int, b1: int, b2: int)
    requires 0 <= b0 < 256 && 0 <= b1 < 256 && 0 <= b2 < 256
    requires |t| >= 4
    requires t[..4] == Group(b0, b1, b2)
    requires Atob(t[4..]) == Some(rest)
    ensures Atob(t) == Some([b0 as char, b1 as char, b2 as char] + rest)
  {
    var i0, i1, i2, i3 := b0 / 4, (b0 % 4) * 16 + b1 / 16, (b1 % 16) * 4 + b2 / 64, b2 % 64;
    SixBitGroups(b0, b1, b2);
    assert B64Index(t[0]) == i0 by { assert t[0] == t[..4][0]; B64CharIndex(i0); }
    assert B64Index(t[1]) == i1 by { assert t[1] == t[..4][1]; B64CharIndex(i1); }
    assert B64Index(t[2]) == i2 by { assert t[2] == t[..4][2]; B64CharIndex(i2); }
    assert B64Index(t[3]) == i3 by { assert t[3] == t[..4][3]; B64CharIndex(i3); }
    AtobGroup(t, rest);
  }

  /** A full group of four alphabet characters decodes to three bytes. */
  lemma {:induction false} AtobGroup(t: string, rest: string)
    requires |t| >= 4 && Atob(t[4..]) == Some(rest)
    requires B64Index(t[0]) >= 0 && B64Index(t[1]) >= 0 && B64Index(t[2]) >= 0 && B64Index(t[3]) >= 0
    ensures var i0, i1, i2, i3 := B64Index(t[0]), B64Index(t[1]), B64Index(t[2]), B64Index(t[3]);
      Atob(t) == Some([(i0 * 4 + i1 / 16) as char, ((i1 % 16) * 16 + i2 / 4) as char, ((i2 % 4) * 64 + i3) as char] + rest)
  {
  }

  lemma {:induction false} Atob2(b0: int, b1: int)
    requires 0 <= b0 < 256 && 0 <= b1 < 256
    ensures Atob([B64Char(b0 / 4), B64Char((b0 % 4) * 16 + b1 / 16), B64Char((b1 % 16) * 4), '='])
         == Some([b0 as char, b1 as char])
  {
    SixBitGroups(b0, b1, 0);
    B64CharIndex(b0 / 4);
    B64CharIndex((b0 % 4) * 16 + b1 / 16);
    B64CharIndex((b1 % 16) * 4);
  }

  lemma {:induction false} Atob1(b0: int)
    requires 0 <= b0 < 256
    ensures Atob([B64Char(b0 / 4), B64Char((b0 % 4) * 16), '=', '=']) == Some([b0 as char])
  {
    SixBitGroups(b0, 0, 0);
    B64CharIndex(b0 / 4);
    B64CharIndex((b0 % 4) * 16);
  }

  /** Round trip: decoding `btoa`'s output gives the Latin-1 text back. */
  lemma {:induction false} B64RoundTrip(s: string)
    requires IsLatin1(s)
    ensures Atob(B64(s)) == Some(s)
    decreases |s|, 1
  {
    if |s| == 1 {
      Atob1(s[0] as int);
      assert [s[0]] == s;
    } else if |s| == 2 {
      Atob2(s[0] as int, s[1] as int);
      assert [s[0], s[1]] == s;
    } else if |s| > 2 {
      B64RoundTripGroup(s);
    }
  }

  lemma {:induction false} B64RoundTripGroup(s: string)
    requires IsLatin1(s) && |s| > 2
    ensures Atob(B64(s)) == Some(s)
    decreases |s|, 0
  {
    var rest := s[3..];
    B64Step(s);
    B64RoundTrip(rest);
    assert Atob(B64(s)) == Some([s[0], s[1], s[2]] + rest) by {
      Atob3(B64(s), rest, s[0] as int, s[1] as int, s[2] as int);
    }
    FirstThree(s);
  }

  lemma {:induction false} FirstThree(s: string)
    requires |s| > 2
    ensures [s[0], s[1], s[2]] + s[3..] == s
  {
    assert s == s[..3] + s[3..];
    assert s[..3] == [s[0], s[1], s[2]];
  }

  /** Three code units become one group of four characters ahead of the rest. */
  lemma {:induction false} B64Step(s: string)
    requires IsLatin1(s) && |s| > 2
    ensures IsLatin1(s[3..])
    ensures |B64(s)| >= 4 && B64(s)[4..] == B64(s[3..]) && B64(s)[..4] == Group(s[0] as int, s[1] as int, s[2] as int)
  {
    Latin1Rest(s);
  }

  /** `btoa`'s output uses the alphabet and '=' only. */
  lemma {:induction false} B64Alphabet(s: string)
    requires IsLatin1(s)
    ensures forall k :: 0 <= k < |B64(s)| ==> B64(s)[k] == '=' || B64Index(B64(s)[k]) >= 0
    decreases |s|
  {
    if |s| > 0 {
      var b0 := s[0] as int;
      B64CharIndex(b0 / 4);
      if |s| == 1 {
        B64CharIndex((b0 % 4) * 16);
      } else {
        var b1 := s[1] as int;
        B64CharIndex((b0 % 4) * 16 + b1 / 16);
        if |s| == 2 {
          B64CharIndex((b1 % 16) * 4);
        } else {
          var b2 := s[2] as int;
          B64CharIndex((b1 % 16) * 4 + b2 / 64);
          B64CharIndex(b2 % 64);
          var rest := s[3..];
          Latin1Rest(s);
          B64Alphabet(rest);
        }
      }
    }
  }

  // ---------------------------------------------------------------------------
  // The crypto tab

  datatype CryptoMode = BASE64 | HEX | BINARY | MORSE_MODE

  const ENCODING_ERROR: string := "ENCODING_ERROR"

  /** The crypto tab's output for an input and a mode. */
  function CryptoOutput(mode: CryptoMode, input: string): (r: string)
    ensures input == "" ==> r == ""
    ensures mode == BASE64 && input != "" ==> (r == ENCODING_ERROR <==> !IsLatin1(input))
  {
    if input == "" then ""
    else
      match mode
      case BASE64 =>
        (match Btoa(input)
         case None => ENCODING_ERROR
         case Some(t) =>
           assert |t| % 4 == 0 && |ENCODING_ERROR| % 4 == 2;
           t)
      case HEX => HexEncode(input)
      case BINARY => BinaryEncode(input)
      case MORSE_MODE => MorseEncode(input)
  }

  /** Every mode's output on Latin-1 text determines the input (up to case
      for MORSE, which needs text free of Morse symbols). */
  lemma {:induction false} CryptoOutputInvertible(mode: CryptoMode, input: string)
    requires IsLatin1(input)
    ensures mode == BASE64 ==> Atob(CryptoOutput(mode, input)) == Some(input)
    ensures mode == HEX ==> RadixDecode(CryptoOutput(mode, input), 16) == Some(input)
    ensures mode == BINARY ==> RadixDecode(CryptoOutput(mode, input), 2) == Some(input)
  {
    if input != "" {
      B64RoundTrip(input);
      HexRoundTrip(input);
      BinaryRoundTrip(input);
    }
  }

  // ---------------------------------------------------------------------------
  // Process monitor

  datatype ProcessStatus = RUNNING | SLEEPING

  /** A simulated process; its CPU and memory figures are random floats and
      are not modelled. */
  datatype Process = Process(pid: int, name: string, status: ProcessStatus, user: string)

  /** `killProcess(pid)`: drops the entries with that pid. */
  function KillProcess(ps: seq<Process>, pid: int): (r: seq<Process>)
    ensures forall p :: p in r <==> p in ps && p.pid != pid
    ensures SubsequenceOf(r, ps)
    ensures |r| == |ps| - CountPid(ps, pid)
  {
    if ps == [] then []
    else if ps[0].pid == pid then KillProcess(ps[1..], pid)
    else [ps[0]] + KillProcess(ps[1..], pid)
  }

  function CountPid(ps: seq<Process>, pid: int): (n: nat)
    ensures n <= |ps|
  {
    if ps == [] then 0 else (if ps[0].pid == pid then 1 else 0) + CountPid(ps[1..], pid)
  }

  /** Killing the same pid twice is the same as killing it once. */
  lemma {:induction false} KillIdempotent(ps: seq<Process>, pid: int)
    ensures KillProcess(KillProcess(ps, pid), pid) == KillProcess(ps, pid)
    decreases |ps|
  {
    if ps != [] {
      KillIdempotent(ps[1..], pid);
      if ps[0].pid != pid {
        assert ([ps[0]] + KillProcess(ps[1..], pid))[1..] == KillProcess(ps[1..], pid);
      }
    }
  }

  // ---------------------------------------------------------------------------
  // Python interpreter

  datatype LogKind = Info | Log | Error | Success

  /** A console line; its clock timestamp is not modelled. */
  datatype LogEntry = LogEntry(kind: LogKind, message: string)

  /** The script's variables in insertion order, each with the text of its
      value (the source converts values to text wherever it reads them). */
  type Vars = seq<(string, string)>

  function Lookup(vars: Vars, name: string): (r: Option<string>)
    ensures r.Some? <==> exists i :: 0 <= i < |vars| && vars[i].0 == name
  {
    if vars == [] then None
    else if vars[0].0 == name then Some(vars[0].1)
    else
      var r := Lookup(vars[1..], name);
      assert r.Some? ==> vars[1 + (var i :| 0 <= i < |vars| - 1 && vars[1..][i].0 == name; i)].0 == name;
      r
  }

  /** `variables[name] = value`: overwrites in place, or adds at the end. */
  function Assign(vars: Vars, name: string, value: string): (r: Vars)
    ensures Lookup(r, name) == Some(value)
    ensures forall n :: n != name ==> Lookup(r, n) == Lookup(vars, n)
    ensures |r| == if Lookup(vars, name).Some? then |vars| else |vars| + 1
  {
    if vars == [] then [(name, value)]
    else if vars[0].0 == name then [(name, value)] + vars[1..]
    else
      var r := [vars[0]] + Assign(vars[1..], name, value);
      assert r[1..] == Assign(vars[1..], name, value);
      r
  }

  // `\b` and the word-boundary replacement `expr.replace(/\b<name>\b/g, value)`

  predicate WordAt(s: string, i: int) {
    0 <= i < |s| && IsWordChar(s[i])
  }

  /** A word boundary at position `i`: a word character on one side only. */
  predicate Boundary(s: string, i: int) {
    WordAt(s, i - 1) != WordAt(s, i)
  }

  predicate WholeWordAt(s: string, v: string, i: int) {
    Boundary(s, i) && OccursAt(s, v, i) && Boundary(s, i + |v|)
  }

  /** The global replacement scanning `s` from position `i`; after an empty
      match the scan copies one character and moves on. */
  function ReplaceWordFrom(s: string, v: string, value: string, i: nat): (r: string)
    requires i <= |s|
    ensures value == v && v != "" ==> r == s[i..]
    decreases |s| - i
  {
    if i == |s| then (if |v| == 0 && Boundary(s, i) then value else "")
    else if WholeWordAt(s, v, i) then
      if |v| == 0 then value + [s[i]] + ReplaceWordFrom(s, v, value, i + 1)
      else value + ReplaceWordFrom(s, v, value, i + |v|)
    else [s[i]] + ReplaceWordFrom(s, v, value, i + 1)
  }

  /** Replacing a name by its own text changes nothing. */
  function ReplaceWord(s: string, v: string, value: string): (r: string)
    ensures value == v && v != "" ==> r == s
  {
    assert s[0..] == s;
    ReplaceWordFrom(s, v, value, 0)
  }

  /** Where the name never stands as a whole word, nothing changes. */
  lemma {:induction false} ReplaceWordAbsent(s: string, v: string, value: string, i: nat)
    requires i <= |s|
    requires forall k :: i <= k <= |s| ==> !WholeWordAt(s, v, k)
    ensures ReplaceWordFrom(s, v, value, i) == s[i..]
    decreases |s| - i
  {
    if i < |s| {
      ReplaceWordAbsent(s, v, value, i + 1);
      assert s[i..] == [s[i]] + s[i + 1..];
    } else {
      assert !WholeWordAt(s, v, i);
      assert |v| == 0 ==> OccursAt(s, v, i);
    }
  }

  /** Each variable's value replaces its name, in insertion order; without
      variables the expression is left as it is. */
  function Substitute(expr: string, vars: Vars): (r: string)
    ensures vars == [] ==> r == expr
    decreases |vars|
  {
    if vars == [] then expr else Substitute(ReplaceWord(expr, vars[0].0, vars[0].1), vars[1..])
  }

  /** Where no variable's name stands as a whole word in the expression,
      substitution leaves it as it is. */
  lemma {:induction false} SubstituteAbsent(expr: string, vars: Vars)
    requires forall j, k :: 0 <= j < |vars| && 0 <= k <= |expr| ==> !WholeWordAt(expr, vars[j].0, k)
    ensures Substitute(expr, vars) == expr
    decreases |vars|
  {
    if vars != [] {
      ReplaceWordAbsent(expr, vars[0].0, vars[0].1, 0);
      assert expr[0..] == expr;
      assert forall j, k :: 0 <= j < |vars[1..]| && 0 <= k <= |expr| ==> !WholeWordAt(expr, vars[1..][j].0, k) by {
        forall j, k | 0 <= j < |vars[1..]| && 0 <= k <= |expr|
          ensures !WholeWordAt(expr, vars[1..][j].0, k)
        {
          assert vars[1..][j] == vars[j + 1];
        }
      }
      SubstituteAbsent(expr, vars[1..]);
    }
  }

  // One line

  /** What one line does: go on with new variables and console lines, or
      throw out of the whole run. */
  datatype Outcome = Continue(vars: Vars, out: seq<LogEntry>) | Raise(message: string)

  const HAS_OWN: string := "hasOwnProperty"
  const HAS_OWN_ERROR: string := "variables.hasOwnProperty is not a function"

  /** `variables.hasOwnProperty(name)`: throws once a script variable named
      `hasOwnProperty` shadows the method. */
  function HasOwn(vars: Vars, name: string): (r: Option<bool>)
    ensures r.None? <==> Lookup(vars, HAS_OWN).Some?
    ensures r.Some? ==> (r.value <==> Lookup(vars, name).Some?)
  {
    if Lookup(vars, HAS_OWN).Some? then None else Some(Lookup(vars, name).Some?)
  }

  /** `s.startsWith(q) && s.endsWith(q)` for a one-character quote. */
  predicate Quoted(s: string, q: char) {
    StartsWith(s, [q]) && EndsWith(s, [q])
  }

  /** `s.slice(1, -1)`. */
  function Inner(s: string): (r: string)
    ensures |s| >= 2 ==> r == s[1..|s| - 1]
  {
    if |s| >= 2 then s[1..|s| - 1] else ""
  }

  /** The single-literal test of `print(...)`.  As written it only looks at
      the first and last characters; the corrected test also requires that
      the quote not occur inside. */
  predicate LiteralTest(content: string, corrected: bool) {
    (Quoted(content, '"') && (!corrected || '"' !in Inner(content))) ||
    (Quoted(content, '\'') && (!corrected || '\'' !in Inner(content)))
  }

  /** The text one part of a `+` chain contributes: the contents of a
      double-quoted part, a variable's value, or the part itself. */
  function PartText(vars: Vars, p: string): (r: Option<string>)
    ensures r.None? <==> !Quoted(p, '"') && Lookup(vars, HAS_OWN).Some?
    ensures Quoted(p, '"') ==> r == Some(Inner(p))
    ensures !Quoted(p, '"') && Lookup(vars, HAS_OWN).None? ==>
      r == if Lookup(vars, p).Some? then Lookup(vars, p) else Some(p)
  {
    if Quoted(p, '"') then Some(Inner(p))
    else
      match HasOwn(vars, p)
      case None => None
      case Some(true) => Lookup(vars, p)
      case Some(false) => Some(p)
  }

  /** The `+` chain's text, or None where a part's lookup throws. */
  function ConcatParts(vars: Vars, parts: seq<string>): (r: Option<string>)
    ensures r.None? <==> exists i :: 0 <= i < |parts| && PartText(vars, parts[i]).None?
  {
    if parts == [] then Some("")
    else
      match PartText(vars, parts[0])
      case None => None
      case Some(t) =>
        match ConcatParts(vars, parts[1..])
        case None =>
          var i :| 0 <= i < |parts| - 1 && PartText(vars, parts[1..][i]).None?;
          assert PartText(vars, parts[i + 1]).None?;
          None
        case Some(rest) => Some(t + rest)
  }

  function NameError(idx: nat, content: string): string {
    "Line " + IntToString(idx + 1) + ": NameError: name '" + content + "' is not defined"
  }

  /** `print(content)` on line `idx` (counted from 0).  It never changes the
      variables and logs exactly one line; it throws only where a variable
      named `hasOwnProperty` hides the method a lookup calls, and an
      expression that does not evaluate logs the NameError. */
  function PrintOutcome(vars: Vars, content: string, idx: nat, eval: string -> Option<string>, corrected: bool): (r: Outcome)
    ensures r.Continue? ==> r.vars == vars && |r.out| == 1
    ensures r.Raise? ==> r.message == HAS_OWN_ERROR && !LiteralTest(content, corrected) && Lookup(vars, HAS_OWN).Some?
    ensures !LiteralTest(content, corrected) && '+' !in content && Lookup(vars, HAS_OWN).Some? ==> r.Raise?
    ensures r.Continue? && r.out[0].kind == Error ==>
      r.out[0].message == NameError(idx, content) && eval(Substitute(content, vars)).None?
    ensures r.Continue? ==> r.out[0].kind == Log || r.out[0].kind == Error
  {
    if LiteralTest(content, corrected) then Continue(vars, [LogEntry(Log, Inner(content))])
    else if '+' in content then
      match ConcatParts(vars, TrimAll(Split(content, "+")))
      case None => Raise(HAS_OWN_ERROR)
      case Some(t) => Continue(vars, [LogEntry(Log, t)])
    else
      match HasOwn(vars, content)
      case None => Raise(HAS_OWN_ERROR)
      case Some(true) => Continue(vars, [LogEntry(Log, Lookup(vars, content).value)])
      case Some(false) =>
        match eval(Substitute(content, vars))
        case Some(v) => Continue(vars, [LogEntry(Log, v)])
        case None => Continue(vars, [LogEntry(Error, NameError(idx, content))])
  }

  /** The value an assignment stores: a quoted literal's contents, the
      evaluated expression, or on failure the substituted text itself. */
  function AssignedValue(vars: Vars, expr: string, eval: string -> Option<string>): (r: string)
    ensures Quoted(expr, '"') || Quoted(expr, '\'') ==> r == Inner(expr)
    ensures !(Quoted(expr, '"') || Quoted(expr, '\'')) ==>
      eval(Substitute(expr, vars)) == Some(r) || (eval(Substitute(expr, vars)).None? && r == Substitute(expr, vars))
  {
    if Quoted(expr, '"') || Quoted(expr, '\'') then Inner(expr)
    else
      var e := Substitute(expr, vars);
      match eval(e)
      case Some(v) => v
      case None => e
  }

  /** One line of the script.  `eval` stands for JavaScript's `eval` followed
      by `String(...)`; None where it throws. */
  function StepLine(vars: Vars, line: string, idx: nat, eval: string -> Option<string>, corrected: bool): (r: Outcome)
    ensures r.Continue? ==> |r.out| <= 1 && forall e :: e in r.out ==> e.kind == Log || e.kind == Error
  {
    TrimmedOutcome(vars, Trim(line), idx, eval, corrected)
  }

  /** The line's outcome, given its trimmed text. */
  function TrimmedOutcome(vars: Vars, l: string, idx: nat, eval: string -> Option<string>, corrected: bool): (r: Outcome)
    ensures r.Continue? ==> |r.out| <= 1 && forall e :: e in r.out ==> e.kind == Log || e.kind == Error
  {
    if l == "" || StartsWith(l, "#") then Continue(vars, [])
    else if StartsWith(l, "print(") && EndsWith(l, ")") then
      PrintCallLength(l);
      PrintOutcome(vars, l[6..|l| - 1], idx, eval, corrected)
    else if '=' in l then AssignOutcome(vars, l, eval)
    else Continue(vars, [])
  }

  /** `name = expr`: the name is the text before the first '=', the
      expression the text between the first and any second '='. */
  function AssignOutcome(vars: Vars, l: string, eval: string -> Option<string>): (r: Outcome)
    requires '=' in l
    ensures r.Continue? && r.out == []
  {
    var parts := Split(l, "=");
    CountCharIn(l, '=');
    SplitCharLength(l, '=');
    Continue(Assign(vars, Trim(parts[0]), AssignedValue(vars, Trim(parts[1]), eval)), [])
  }

  lemma {:induction false} PrintCallLength(l: string)
    requires StartsWith(l, "print(") && EndsWith(l, ")")
    ensures |l| >= 7
  {
    assert l[5] == l[..6][5] == '(';
    assert l[|l| - 1] == l[|l| - 1..][0] == ')';
  }

  // The whole script

  /** The interpretation of one line: variables, line text, line number. */
  type LineStep = (Vars, string, nat) -> Outcome

  /** The interpreter's own line semantics; a line only ever logs output
      and errors. */
  function Interpreter(eval: string -> Option<string>): (r: LineStep)
    ensures QuietSteps(r)
  {
    (v: Vars, l: string, i: nat) => StepLine(v, l, i, eval, true)
  }

  /** Runs the lines from line number `idx` on: the console lines they add,
      and the message of the exception that ends the run early, if any. */
  function RunLines(step: LineStep, vars: Vars, lines: seq<string>, idx: nat): (r: (seq<LogEntry>, Option<string>))
    ensures (forall v, l, i :: step(v, l, i).Continue?) ==> r.1.None?
    decreases |lines|
  {
    if lines == [] then ([], None)
    else
      match step(vars, lines[0], idx)
      case Raise(m) => ([], Some(m))
      case Continue(v, out) =>
        var rest := RunLines(step, v, lines[1..], idx + 1);
        (out + rest.0, rest.1)
  }

  const EXEC_BANNER: string := "> EXEC_PYTHON_SCRIPT"
  const EXIT_OK: string := "> PROCESS_EXIT_CODE_0"

  /** The console lines a run of `code` adds: the banner first, the exit
      line or the exception's message last. */
  function ScriptLogs(step: LineStep, code: string): (r: seq<LogEntry>)
    ensures |r| >= 2 && r[0] == LogEntry(Info, EXEC_BANNER)
    ensures r[|r| - 1] == LogEntry(Success, EXIT_OK) <==> RunLines(step, [], Split(code, "\n"), 0).1.None?
  {
    var run := RunLines(step, [], Split(code, "\n"), 0);
    [LogEntry(Info, EXEC_BANNER)] + run.0 + [Verdict(run.1)]
  }

  /** The closing line: the exit code, or the exception's message. */
  function Verdict(raised: Option<string>): LogEntry {
    match raised
    case None => LogEntry(Success, EXIT_OK)
    case Some(m) => LogEntry(Error, "INTERPRETER_ERROR: " + m)
  }

  /** The console lines `executePython(code)` adds: the banner, then only
      output and errors, and last the exit line or the interpreter error. */
  function PythonLogs(code: string, eval: string -> Option<string>): (r: seq<LogEntry>)
    ensures |r| >= 2 && r[0] == LogEntry(Info, EXEC_BANNER)
    ensures r[|r| - 1].kind == Success || r[|r| - 1].kind == Error
    ensures forall j :: 0 < j < |r| - 1 ==> r[j].kind == Log || r[j].kind == Error
  {
    var run := RunLines(Interpreter(eval), [], Split(code, "\n"), 0);
    RunQuiet(Interpreter(eval), [], Split(code, "\n"), 0);
    ScriptLogs(Interpreter(eval), code)
  }

  /** Lines only ever log ordinary output and errors. */
  ghost predicate QuietSteps(step: LineStep) {
    forall v, l, i, e :: step(v, l, i).Continue? && e in step(v, l, i).out ==> e.kind == Log || e.kind == Error
  }

  lemma {:induction false} InterpreterQuiet(eval: string -> Option<string>)
    ensures QuietSteps(Interpreter(eval))
  {
  }

  lemma {:induction false} RunQuiet(step: LineStep, vars: Vars, lines: seq<string>, idx: nat)
    requires QuietSteps(step)
    ensures forall e :: e in RunLines(step, vars, lines, idx).0 ==> e.kind == Log || e.kind == Error
    decreases |lines|
  {
    if lines != [] {
      match step(vars, lines[0], idx)
      case Raise(m) =>
      case Continue(v, out) =>
        RunQuiet(step, v, lines[1..], idx + 1);
    }
  }

  function CountKind(logs: seq<LogEntry>, kind: LogKind): nat {
    if logs == [] then 0 else (if logs[0].kind == kind then 1 else 0) + CountKind(logs[1..], kind)
  }

  lemma {:induction false} CountKindAppend(a: seq<LogEntry>, b: seq<LogEntry>, kind: LogKind)
    ensures CountKind(a + b, kind) == CountKind(a, kind) + CountKind(b, kind)
    decreases |a|
  {
    if a != [] {
      assert (a + b)[1..] == a[1..] + b;
      CountKindAppend(a[1..], b, kind);
    } else {
      assert a + b == b;
    }
  }

  lemma {:induction false} CountKindAbsent(a: seq<LogEntry>, kind: LogKind)
    requires forall e :: e in a ==> e.kind != kind
    ensures CountKind(a, kind) == 0
    decreases |a|
  {
    if a != [] {
      assert a[0] in a;
      assert forall e :: e in a[1..] ==> e in a;
      CountKindAbsent(a[1..], kind);
    }
  }

  /** A run logs exactly one success line, as its last line, exactly when no
      line throws; otherwise it ends with the interpreter error instead. */
  lemma {:induction false} SuccessIffNoException(code: string, eval: string -> Option<string>)
    ensures var run := RunLines(Interpreter(eval), [], Split(code, "\n"), 0);
      var logs := PythonLogs(code, eval);
      (CountKind(logs, Success) == 1 <==> run.1.None?) &&
      (CountKind(logs, Success) == 0 <==> run.1.Some?) &&
      logs[|logs| - 1] == (if run.1.None? then LogEntry(Success, EXIT_OK) else LogEntry(Error, "INTERPRETER_ERROR: " + run.1.value))
  {
    var run := RunLines(Interpreter(eval), [], Split(code, "\n"), 0);
    InterpreterQuiet(eval);
    RunQuiet(Interpreter(eval), [], Split(code, "\n"), 0);
    var tail := if run.1.None? then [LogEntry(Success, EXIT_OK)] else [LogEntry(Error, "INTERPRETER_ERROR: " + run.1.value)];
    var head := [LogEntry(Info, EXEC_BANNER)];
    CountKindAbsent(run.0, Success);
    CountKindAbsent(head, Success);
    CountKindAppend(head, run.0, Success);
    CountKindAppend(head + run.0, tail, Success);
    assert CountKind(tail, Success) == (if run.1.None? then 1 else 0) by {
      assert tail[1..] == [];
    }
    assert PythonLogs(code, eval) == head + run.0 + tail;
  }

  /** Blank lines and comments do nothing. */
  lemma {:induction false} BlankLineSilent(vars: Vars, line: string, idx: nat, eval: string -> Option<string>, corrected: bool)
    requires IsBlank(line) || StartsWith(Trim(line), "#")
    ensures StepLine(vars, line, idx, eval, corrected) == Continue(vars, [])
  {
  }

  lemma {:induction false} TrimUnpadded(s: string)
    requires s != [] && !IsSpace(s[0]) && !IsSpace(s[|s| - 1])
    ensures Trim(s) == s
  {
    TrimStartNoSpace(s);
  }

  /** `print("lit")` logs the literal without its quotes. */
  lemma {:induction false} PrintLiteral(vars: Vars, lit: string, idx: nat, eval: string -> Option<string>)
    requires '"' !in lit
    ensures StepLine(vars, "print(\"" + lit + "\")", idx, eval, true) == Continue(vars, [LogEntry(Log, lit)])
    ensures StepLine(vars, "print(\"" + lit + "\")", idx, eval, false) == Continue(vars, [LogEntry(Log, lit)])
  {
    var l := "print(\"" + lit + "\")";
    TrimUnpadded(l);
    assert l[..6] == "print(";
    var content := l[6..|l| - 1];
    assert content == "\"" + lit + "\"";
    assert Inner(content) == lit;
  }

  /** `name = "value"` stores the value under the name. */
  lemma {:induction false} AssignLiteral(vars: Vars, name: string, value: string, idx: nat, eval: string -> Option<string>, corrected: bool)
    requires name != [] && forall i :: 0 <= i < |name| ==> IsWordChar(name[i])
    requires '=' !in value
    ensures StepLine(vars, name + " = \"" + value + "\"", idx, eval, corrected) == Continue(Assign(vars, name, value), [])
  {
    var l := name + " = \"" + value + "\"";
    var lhs, rhs := name + " ", " \"" + value + "\"";
    assert StepLine(vars, l, idx, eval, corrected) == AssignOutcome(vars, l, eval) by {
      AssignLineTrim(name, value);
      StepAssign(vars, l, idx, eval, corrected);
    }
    assert AssignOutcome(vars, l, eval) == Continue(Assign(vars, Trim(lhs), AssignedValue(vars, Trim(rhs), eval)), []) by {
      AssignLineSplit(name, value);
      AssignParts(vars, l, lhs, rhs, eval);
    }
    assert Trim(lhs) == name by { TrimmedName(name); }
    assert AssignedValue(vars, Trim(rhs), eval) == value by {
      TrimmedLiteral(value);
      QuotedLiteral(vars, value, eval);
    }
  }

  lemma {:induction false} StepAssign(vars: Vars, l: string, idx: nat, eval: string -> Option<string>, corrected: bool)
    requires Trim(l) == l && l != "" && !StartsWith(l, "#") && !EndsWith(l, ")") && '=' in l
    ensures StepLine(vars, l, idx, eval, corrected) == AssignOutcome(vars, l, eval)
  {
  }

  lemma {:induction false} AssignParts(vars: Vars, l: string, lhs: string, rhs: string, eval: string -> Option<string>)
    requires '=' in l && Split(l, "=") == [lhs, rhs]
    ensures AssignOutcome(vars, l, eval) == Continue(Assign(vars, Trim(lhs), AssignedValue(vars, Trim(rhs), eval)), [])
  {
  }

  lemma {:induction false} QuotedLiteral(vars: Vars, value: string, eval: string -> Option<string>)
    ensures AssignedValue(vars, "\"" + value + "\"", eval) == value
  {
    var q := "\"" + value + "\"";
    assert q[..1] == "\"" && q[|q| - 1..] == "\"";
    assert Quoted(q, '"');
    assert Inner(q) == value;
  }

  lemma {:induction false} TrimmedLiteral(value: string)
    ensures Trim(" \"" + value + "\"") == "\"" + value + "\""
  {
    var q := "\"" + value + "\"";
    assert " \"" + value + "\"" == " " + q;
    assert q[0] == '"' && q[|q| - 1] == '"';
    TrimStartSpacePrefix(" ", q);
    TrimUnpadded(q);
  }

  lemma {:induction false} AssignLineTrim(name: string, value: string)
    requires name != [] && forall i :: 0 <= i < |name| ==> IsWordChar(name[i])
    ensures var l := name + " = \"" + value + "\"";
      Trim(l) == l && !StartsWith(l, "#") && !EndsWith(l, ")") && '=' in l
  {
    var l := name + " = \"" + value + "\"";
    assert l[0] == name[0] && IsWordChar(name[0]);
    assert l[|l| - 1] == '"';
    TrimUnpadded(l);
    assert l[|name| + 1] == '=';
  }

  lemma {:induction false} AssignLineSplit(name: string, value: string)
    requires forall i :: 0 <= i < |name| ==> IsWordChar(name[i])
    requires '=' !in value
    ensures Split(name + " = \"" + value + "\"", "=") == [name + " ", " \"" + value + "\""]
  {
    var rhs := " \"" + value + "\"";
    assert name + " = \"" + value + "\"" == (name + " ") + "=" + rhs;
    NameSpaceFree(name);
    assert '=' !in rhs by {
      forall i | 0 <= i < |rhs| ensures rhs[i] != '=' {
        if 2 <= i < |rhs| - 1 { assert rhs[i] == value[i - 2]; }
      }
    }
    SplitFreePrefix(name + " ", '=', rhs);
    SplitFree(rhs, '=');
  }

  lemma {:induction false} NameSpaceFree(name: string)
    requires forall i :: 0 <= i < |name| ==> IsWordChar(name[i])
    ensures '=' !in name + " "
  {
    forall i | 0 <= i < |name| + 1 ensures (name + " ")[i] != '=' {
      if i < |name| {
        assert (name + " ")[i] == name[i] && IsWordChar(name[i]);
      }
    }
  }

  lemma {:induction false} TrimmedName(name: string)
    requires name != [] && forall i :: 0 <= i < |name| ==> IsWordChar(name[i])
    ensures Trim(name + " ") == name
  {
    var s := name + " ";
    assert s[0] == name[0];
    TrimStartNoSpace(s);
    assert s[..|s| - 1] == name;
    assert TrimEnd(s) == TrimEnd(name);
    assert TrimEnd(name) == name;
  }

  lemma {:induction false} StepPrint(vars: Vars, l: string, idx: nat, eval: string -> Option<string>, corrected: bool)
    requires l != "" && l[0] == 'p' && StartsWith(l, "print(") && EndsWith(l, ")")
    ensures |l| >= 7
    ensures TrimmedOutcome(vars, l, idx, eval, corrected) == PrintOutcome(vars, l[6..|l| - 1], idx, eval, corrected)
  {
    PrintCallLength(l);
  }

  /** A `print(...)` line: its argument is the text between the parentheses. */
  lemma {:induction false} PrintLine(vars: Vars, c: string, idx: nat, eval: string -> Option<string>, corrected: bool)
    ensures StepLine(vars, "print(" + c + ")", idx, eval, corrected) == PrintOutcome(vars, c, idx, eval, corrected)
  {
    var l := "print(" + c + ")";
    assert StepLine(vars, l, idx, eval, corrected) == TrimmedOutcome(vars, l, idx, eval, corrected) by {
      assert l[0] == 'p' && l[|l| - 1] == ')';
      TrimUnpadded(l);
    }
    assert TrimmedOutcome(vars, l, idx, eval, corrected) == PrintOutcome(vars, c, idx, eval, corrected) by {
      PrintCallText(c);
      StepPrint(vars, l, idx, eval, corrected);
    }
  }

  lemma {:induction false} PrintCallText(c: string)
    ensures var l := "print(" + c + ")";
      l != "" && l[0] == 'p' && StartsWith(l, "print(") && EndsWith(l, ")") && l[6..|l| - 1] == c
  {
    var l := "print(" + c + ")";
    assert l[..6] == "print(" && l[|l| - 1..] == ")";
  }

  /** As written, `print("a" + "b")` passes the single-literal test and logs
      the text between the outer quotes, inner quotes and plus sign included. */
  lemma {:induction false} ConcatLiteralsAsWritten(vars: Vars, a: string, b: string, idx: nat, eval: string -> Option<string>)
    ensures StepLine(vars, "print(" + ("\"" + a + "\" + \"" + b + "\"") + ")", idx, eval, false)
         == Continue(vars, [LogEntry(Log, a + "\" + \"" + b)])
  {
    var c := "\"" + a + "\" + \"" + b + "\"";
    PrintLine(vars, c, idx, eval, false);
    AsWrittenLiteral(a, b);
    LiteralPrint(vars, c, idx, eval, false);
  }

  lemma {:induction false} AsWrittenLiteral(a: string, b: string)
    ensures var c := "\"" + a + "\" + \"" + b + "\"";
      LiteralTest(c, false) && Inner(c) == a + "\" + \"" + b
  {
    var c := "\"" + a + "\" + \"" + b + "\"";
    assert c[..1] == "\"" && c[|c| - 1..] == "\"";
  }

  lemma {:induction false} LiteralPrint(vars: Vars, content: string, idx: nat, eval: string -> Option<string>, corrected: bool)
    requires LiteralTest(content, corrected)
    ensures PrintOutcome(vars, content, idx, eval, corrected) == Continue(vars, [LogEntry(Log, Inner(content))])
  {
  }

  /** Corrected, `print("a" + "b")` concatenates the two literals. */
  lemma {:induction false} ConcatLiteralsJoined(vars: Vars, a: string, b: string, idx: nat, eval: string -> Option<string>)
    requires '"' !in a && '"' !in b && '+' !in a && '+' !in b
    ensures StepLine(vars, "print(" + ("\"" + a + "\" + \"" + b + "\"") + ")", idx, eval, true)
         == Continue(vars, [LogEntry(Log, a + b)])
  {
    var c := "\"" + a + "\" + \"" + b + "\"";
    PrintLine(vars, c, idx, eval, true);
    var qa, qb := "\"" + a + "\"", "\"" + b + "\"";
    assert PrintOutcome(vars, c, idx, eval, true) == Continue(vars, [LogEntry(Log, a + b)]) by {
      ConcatContent(a, b);
      ConcatOfLiterals(vars, a, b);
    }
  }

  /** The argument `"a" + "b"` fails the corrected single-literal test and
      splits into the two quoted literals. */
  lemma {:induction false} ConcatContent(a: string, b: string)
    requires '"' !in a && '+' !in a && '+' !in b
    ensures var c := "\"" + a + "\" + \"" + b + "\"";
      !LiteralTest(c, true) && '+' in c &&
      TrimAll(Split(c, "+")) == ["\"" + a + "\"", "\"" + b + "\""]
  {
    var c := "\"" + a + "\" + \"" + b + "\"";
    var qa, qb := "\"" + a + "\"", "\"" + b + "\"";
    var pa, pb := qa + " ", " " + qb;
    assert !LiteralTest(c, true) by { ConcatNotLiteral(a, b); }
    assert Split(c, "+") == [pa, pb] && '+' in c by { ConcatSplit(a, b); }
    assert Trim(pa) == qa by { QuotedSpace(a); }
    assert Trim(pb) == qb by {
      assert pb == " \"" + b + "\"";
      TrimmedLiteral(b);
    }
    TrimAllPair(pa, pb);
  }

  lemma {:induction false} ConcatNotLiteral(a: string, b: string)
    ensures !LiteralTest("\"" + a + "\" + \"" + b + "\"", true)
  {
    var c := "\"" + a + "\" + \"" + b + "\"";
    assert c[0] == '"';
    assert Inner(c) == a + "\" + \"" + b;
    assert Inner(c)[|a|] == '"';
  }

  lemma {:induction false} ConcatSplit(a: string, b: string)
    requires '+' !in a && '+' !in b
    ensures var c := "\"" + a + "\" + \"" + b + "\"";
      '+' in c && Split(c, "+") == ["\"" + a + "\"" + " ", " " + ("\"" + b + "\"")]
  {
    var c := "\"" + a + "\" + \"" + b + "\"";
    var pa, pb := "\"" + a + "\"" + " ", " " + ("\"" + b + "\"");
    assert c == pa + "+" + pb;
    assert c[|pa|] == '+';
    PlusFree(a, b);
    assert pa == "\"" + a + "\" " && pb == " \"" + b + "\"";
    SplitFreePrefix(pa, '+', pb);
    SplitFree(pb, '+');
  }

  lemma {:induction false} QuotedSpace(a: string)
    ensures Trim("\"" + a + "\"" + " ") == "\"" + a + "\""
  {
    var qa := "\"" + a + "\"";
    assert qa[0] == '"' && qa[|qa| - 1] == '"';
    TrimEndSpaceSuffix(qa, " ");
    TrimUnpadded(qa);
    TrimStartNoSpace(qa + " ");
  }

  lemma {:induction false} PlusFree(a: string, b: string)
    requires '+' !in a && '+' !in b
    ensures '+' !in "\"" + a + "\" " && '+' !in " \"" + b + "\""
  {
    var pa, pb := "\"" + a + "\" ", " \"" + b + "\"";
    forall i | 0 <= i < |pa| ensures pa[i] != '+' {
      if 1 <= i < |a| + 1 { assert pa[i] == a[i - 1]; }
    }
    forall i | 0 <= i < |pb| ensures pb[i] != '+' {
      if 2 <= i < |b| + 2 { assert pb[i] == b[i - 2]; }
    }
  }

  /** Two quoted literals joined by `+` print their contents side by side. */
  lemma {:induction false} ConcatOfLiterals(vars: Vars, a: string, b: string)
    ensures ConcatParts(vars, ["\"" + a + "\"", "\"" + b + "\""]) == Some(a + b)
  {
    var qa, qb := "\"" + a + "\"", "\"" + b + "\"";
    assert qa[..1] == "\"" && qa[|qa| - 1..] == "\"" && Inner(qa) == a;
    assert qb[..1] == "\"" && qb[|qb| - 1..] == "\"" && Inner(qb) == b;
    assert [qa, qb][1..] == [qb];
    assert ConcatParts(vars, [qb]) == Some(b) by {
      var rest: seq<string> := [qb][1..];
      assert rest == [];
      assert PartText(vars, qb) == Some(b);
      assert ConcatParts(vars, rest) == Some("");
      assert b + "" == b;
    }
  }

  /** Once a script variable is called `hasOwnProperty`, a `print` of a
      name or of a `+` chain with an unquoted part throws out of the run. */
  lemma {:induction false} ShadowedLookupThrows(vars: Vars, content: string, idx: nat, eval: string -> Option<string>)
    requires Lookup(vars, HAS_OWN).Some?
    requires !LiteralTest(content, true) && '+' !in content
    ensures PrintOutcome(vars, content, idx, eval, true) == Raise(HAS_OWN_ERROR)
  {
  }

  /** Console lines `out` logged before a run's remaining result. */
  function Prepend(out: seq<LogEntry>, r: (seq<LogEntry>, Option<string>)): (seq<LogEntry>, Option<string>) {
    (out + r.0, r.1)
  }

  lemma {:induction false} PrependAppend(a: seq<LogEntry>, b: seq<LogEntry>, r: (seq<LogEntry>, Option<string>))
    ensures Prepend(a, Prepend(b, r)) == Prepend(a + b, r)
  {
    assert a + (b + r.0) == a + b + r.0;
  }

  lemma {:induction false} ScriptLogsOf(step: LineStep, code: string, out: seq<LogEntry>, raised: Option<string>)
    requires RunLines(step, [], Split(code, "\n"), 0) == (out, raised)
    ensures ScriptLogs(step, code) == [LogEntry(Info, EXEC_BANNER)] + out + [Verdict(raised)]
  {
  }

  /** One step of a run, from line `i` on. */
  lemma {:induction false} RunLinesStep(step: LineStep, vars: Vars, lines: seq<string>, i: nat)
    requires i < |lines|
    ensures RunLines(step, vars, lines[i..], i) ==
      match step(vars, lines[i], i)
      case Raise(m) => ([], Some(m))
      case Continue(v, out) => Prepend(out, RunLines(step, v, lines[i + 1..], i + 1))
  {
    assert lines[i..][0] == lines[i] && lines[i..][1..] == lines[i + 1..];
  }

  /** The console of the developer tools. */
  class Console {
    var logs: seq<LogEntry>

    constructor ()
      ensures logs == []
    {
      logs := [];
    }

    /** `addLog(type, message)`. */
    method AddLog(kind: LogKind, message: string)
      modifies this
      ensures logs == old(logs) + [LogEntry(kind, message)]
    {
      logs := logs + [LogEntry(kind, message)];
    }

    /** The line's console output, entry by entry. */
    method AddLogs(entries: seq<LogEntry>)
      modifies this
      ensures logs == old(logs) + entries
    {
      var k := 0;
      while k < |entries|
        invariant 0 <= k <= |entries|
        invariant logs == old(logs) + entries[..k]
      {
        AddLog(entries[k].kind, entries[k].message);
        assert entries[..k + 1] == entries[..k] + [entries[k]];
        k := k + 1;
      }
      assert entries[..k] == entries;
    }

    /** `executePython(code)`. */
    method ExecutePython(code: string, eval: string -> Option<string>)
      modifies this
      ensures logs == old(logs) + PythonLogs(code, eval)
    {
      RunScript(Interpreter(eval), code);
    }

    /** The loop of `executePython`: logs the banner, runs the lines in order
        until one throws, then logs the exit line or the error. */
    method RunScript(step: LineStep, code: string)
      modifies this
      ensures logs == old(logs) + ScriptLogs(step, code)
    {
      AddLog(Info, EXEC_BANNER);
      ghost var start := logs;
      var lines := Split(code, "\n");
      var raised := RunLinesOf(step, lines);
      ghost var out := logs[|start|..];
      assert logs == start + out;
      var last := Verdict(raised);
      AddLog(last.kind, last.message);
      ScriptLogsOf(step, code, out, raised);
    }

    /** Runs the lines one after the other, logging what each prints, until
        one raises. */
    method RunLinesOf(step: LineStep, lines: seq<string>) returns (raised: Option<string>)
      modifies this
      ensures logs == old(logs) + RunLines(step, [], lines, 0).0
      ensures raised == RunLines(step, [], lines, 0).1
    {
      ghost var start := logs;
      var vars: Vars := [];
      raised := None;
      ghost var out: seq<LogEntry> := [];
      var i := 0;
      assert lines[0..] == lines;
      assert [] + RunLines(step, [], lines, 0).0 == RunLines(step, [], lines, 0).0;
      while i < |lines| && raised.None?
        invariant 0 <= i <= |lines|
        invariant logs == start + out
        invariant raised.None? ==> RunLines(step, [], lines, 0) == Prepend(out, RunLines(step, vars, lines[i..], i))
        invariant raised.Some? ==> RunLines(step, [], lines, 0) == (out, raised)
      {
        RunLinesStep(step, vars, lines, i);
        match step(vars, lines[i], i) {
          case Raise(m) =>
            assert out + [] == out;
            raised := Some(m);
          case Continue(v, o) =>
            AddLogs(o);
            PrependAppend(out, o, RunLines(step, v, lines[i + 1..], i + 1));
            out := out + o;
            vars := v;
        }
        i := i + 1;
      }
      if raised.None? {
        assert lines[i..] == [];
        assert out + [] == out;
      }
    }
  }
}
