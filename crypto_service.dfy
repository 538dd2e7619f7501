/** License keys (services/cryptoService.ts).

    A key has the form `MARCO-PRO-<id>-<checksum>`, where the checksum is the
    first four hexadecimal digits, upper-cased, of the SHA-256 digest
    (FIPS 180-4) of `MARCO-PRO-<id>-<SALT>`.  The digest function is a
    parameter `hash`; all the model assumes of it is that it returns 64
    lower-case hexadecimal digits, as the source's hex encoding of the digest
    does. */
module CryptoService {
  import opened Strings
  import Types

  const SALT: string := "MARCO_GENESIS_PROTOCOL_V3_SECRET_SALT_998877"
  const KEY_PREFIX: string := "MARCO-PRO-"

  predicate IsLowerHexDigit(c: char) {
    '0' <= c <= '9' || 'a' <= c <= 'f'
  }

  predicate IsUpperHexDigit(c: char) {
    '0' <= c <= '9' || 'A' <= c <= 'F'
  }

  /** The hex text of a SHA-256 digest: 64 lower-case hexadecimal digits. */
  predicate IsHexDigest(h: string) {
    |h| == 64 && forall i :: 0 <= i < |h| ==> IsLowerHexDigit(h[i])
  }

  ghost predicate IsDigestFunction(hash: string -> string) {
    forall m :: IsHexDigest(hash(m))
  }

  /** `s.substring(a, b)` for `a <= b`: both ends are clamped to the length. */
  function Substring(s: string, a: nat, b: nat): (r: string)
    requires a <= b
    ensures |r| <= b - a
  {
    var lo := if a <= |s| then a else |s|;
    var hi := if b <= |s| then b else |s|;
    s[lo..hi]
  }

  /** The checksum the key for `id` must carry. */
  function Checksum(hash: string -> string, id: string): (r: string)
    requires IsDigestFunction(hash)
    ensures |r| == 4
    ensures forall i :: 0 <= i < |r| ==> IsUpperHexDigit(r[i])
  {
    Upper(Substring(hash(KEY_PREFIX + id + "-" + SALT), 0, 4))
  }

  /** The key for `id`. */
  function KeyFor(hash: string -> string, id: string): string
    requires IsDigestFunction(hash)
  {
    KEY_PREFIX + id + "-" + Checksum(hash, id)
  }

  /** The identifier drawn from `Math.random().toString(16)`: the eight
      characters after "0.", upper-cased. */
  function RandomId(randomText: string): (r: string)
    ensures |r| <= 8
  {
    Upper(Substring(randomText, 2, 10))
  }

  /** `generateLicenseKey()`, given the text `Math.random().toString(16)`. */
  function GenerateLicenseKey(hash: string -> string, randomText: string): string
    requires IsDigestFunction(hash)
  {
    KeyFor(hash, RandomId(randomText))
  }

  /** The key as `validateLicenseKey` compares it: trimmed and upper-cased. */
  function CleanKey(key: string): string {
    Upper(Trim(key))
  }

  /** `validateLicenseKey(key)`. */
  function ValidateLicenseKey(hash: string -> string, key: string): bool
    requires IsDigestFunction(hash)
  {
    var clean := CleanKey(key);
    if clean == Types.MASTER_KEY then true
    else
      var parts := Split(clean, "-");
      if |parts| != 4 then false
      else if parts[0] != "MARCO" || parts[1] != "PRO" then false
      else parts[3] == Checksum(hash, parts[2])
  }

  // ---------------------------------------------------------------------------
  // Properties

  /** The pieces of a key, split at its dashes. */
  lemma {:induction false} KeyParts(hash: string -> string, id: string)
    requires IsDigestFunction(hash)
    requires '-' !in id
    ensures Split(KeyFor(hash, id), "-") == ["MARCO", "PRO", id, Checksum(hash, id)]
  {
    var parts := ["MARCO", "PRO", id, Checksum(hash, id)];
    assert "MARCO" + "-" + "PRO" + "-" == KEY_PREFIX;
    Join4("MARCO", "PRO", id, Checksum(hash, id), "-");
    assert Join(parts, "-") == KeyFor(hash, id);
    SplitJoin(parts, '-');
  }

  /** Generated keys have the form MARCO-PRO-<id>-<4 upper-case hex digits>,
      with an upper-case hexadecimal id of at most eight digits. */
  lemma {:induction false} GeneratedKeyFormat(hash: string -> string, randomText: string)
    requires IsDigestFunction(hash)
    requires forall i :: 2 <= i < |randomText| ==> IsLowerHexDigit(randomText[i])
    ensures var id := RandomId(randomText);
      var parts := Split(GenerateLicenseKey(hash, randomText), "-");
      |parts| == 4 && parts[0] == "MARCO" && parts[1] == "PRO" && parts[2] == id &&
      |id| <= 8 && (forall i :: 0 <= i < |id| ==> IsUpperHexDigit(id[i])) &&
      |parts[3]| == 4 && (forall i :: 0 <= i < 4 ==> IsUpperHexDigit(parts[3][i]))
  {
    var id := RandomId(randomText);
    assert forall i :: 0 <= i < |id| ==> IsUpperHexDigit(id[i]);
    KeyParts(hash, id);
  }

  /** A key is its own clean form: it has no lower-case letter and begins and
      ends with a non-space character. */
  lemma {:induction false} KeyIsClean(hash: string -> string, id: string)
    requires IsDigestFunction(hash)
    requires NoLower(id)
    ensures CleanKey(KeyFor(hash, id)) == KeyFor(hash, id)
  {
    var k := KeyFor(hash, id);
    var c := Checksum(hash, id);
    assert k[0] == 'M';
    assert k[|k| - 1] == c[3];
    assert TrimStart(k) == k;
    assert TrimEnd(k) == k;
    assert NoLower(k);
    UpperOfNoLower(k);
  }

  lemma {:induction false} RandomIdShape(randomText: string)
    requires '-' !in randomText
    ensures '-' !in RandomId(randomText) && NoLower(RandomId(randomText))
  {
    var t := Substring(randomText, 2, 10);
    var id := RandomId(randomText);
    assert forall i :: 0 <= i < |t| ==> t[i] in randomText;
    assert forall i :: 0 <= i < |id| ==> id[i] != '-';
  }

  /** Round trip: every key `generateLicenseKey` returns is valid. */
  lemma {:induction false} GeneratedKeyValidates(hash: string -> string, randomText: string)
    requires IsDigestFunction(hash)
    requires '-' !in randomText
    ensures ValidateLicenseKey(hash, GenerateLicenseKey(hash, randomText))
  {
    RandomIdShape(randomText);
    KeyForValid(hash, RandomId(randomText));
  }

  lemma {:induction false} KeyForValid(hash: string -> string, id: string)
    requires IsDigestFunction(hash)
    requires '-' !in id && NoLower(id)
    ensures ValidateLicenseKey(hash, KeyFor(hash, id))
  {
    var k := KeyFor(hash, id);
    KeyIsClean(hash, id);
    KeyParts(hash, id);
    var parts := Split(CleanKey(k), "-");
    assert parts == ["MARCO", "PRO", id, Checksum(hash, id)];
    assert |parts| == 4 && parts[0] == "MARCO" && parts[1] == "PRO" && parts[3] == Checksum(hash, parts[2]);
  }

  /** The master key is valid, whatever its case and surrounding whitespace. */
  lemma {:induction false} MasterKeyValid(hash: string -> string, key: string)
    requires IsDigestFunction(hash)
    requires CleanKey(key) == Types.MASTER_KEY
    ensures ValidateLicenseKey(hash, key)
  {
  }

  /** Validation ignores letter case and surrounding whitespace. */
  lemma {:induction false} ValidationNormalises(hash: string -> string, w1: string, key: string, w2: string)
    requires IsDigestFunction(hash)
    requires AllSpace(w1) && AllSpace(w2)
    ensures ValidateLicenseKey(hash, w1 + key + w2) == ValidateLicenseKey(hash, key)
    ensures ValidateLicenseKey(hash, Lower(key)) == ValidateLicenseKey(hash, key)
  {
    assert CleanKey(w1 + key + w2) == CleanKey(key) by { TrimPadded(w1, key, w2); }
    SameCleanKey(hash, w1 + key + w2, key);
    assert CleanKey(Lower(key)) == CleanKey(key) by {
      TrimLower(key);
      UpperLower(Trim(key));
    }
    SameCleanKey(hash, Lower(key), key);
  }

  /** Validation sees a key only through its clean form. */
  lemma {:induction false} SameCleanKey(hash: string -> string, a: string, b: string)
    requires IsDigestFunction(hash)
    requires CleanKey(a) == CleanKey(b)
    ensures ValidateLicenseKey(hash, a) == ValidateLicenseKey(hash, b)
  {
  }

  /** A key that is not the master key and does not have exactly three dashes
      is rejected. */
  lemma {:induction false} WrongDashCountRejected(hash: string -> string, key: string)
    requires IsDigestFunction(hash)
    requires CleanKey(key) != Types.MASTER_KEY
    requires CountChar(CleanKey(key), '-') != 3
    ensures !ValidateLicenseKey(hash, key)
  {
    SplitCharLength(CleanKey(key), '-');
  }

  /** Exactly the master key and the keys `KeyFor(id)` of dash-free ids are
      valid, up to case and surrounding whitespace. */
  lemma {:induction false} ValidIff(hash: string -> string, key: string)
    requires IsDigestFunction(hash)
    ensures ValidateLicenseKey(hash, key) <==>
      CleanKey(key) == Types.MASTER_KEY || exists id :: '-' !in id && CleanKey(key) == KeyFor(hash, id)
  {
    if ValidateLicenseKey(hash, key) && CleanKey(key) != Types.MASTER_KEY {
      var id := ValidHasForm(hash, key);
    }
    if exists id :: '-' !in id && CleanKey(key) == KeyFor(hash, id) {
      var id :| '-' !in id && CleanKey(key) == KeyFor(hash, id);
      FormIsValid(hash, key, id);
    }
  }

  /** An accepted key other than the master key is the key of its third piece. */
  lemma {:induction false} ValidHasForm(hash: string -> string, key: string) returns (id: string)
    requires IsDigestFunction(hash)
    requires ValidateLicenseKey(hash, key) && CleanKey(key) != Types.MASTER_KEY
    ensures '-' !in id && CleanKey(key) == KeyFor(hash, id)
  {
    var clean := CleanKey(key);
    var parts := Split(clean, "-");
    AcceptedPartsKey(hash, clean, parts);
    id := parts[2];
  }

  /** The key of a dash-free id is accepted. */
  lemma {:induction false} FormIsValid(hash: string -> string, key: string, id: string)
    requires IsDigestFunction(hash)
    requires '-' !in id && CleanKey(key) == KeyFor(hash, id)
    ensures ValidateLicenseKey(hash, key)
  {
    KeyParts(hash, id);
  }

  /** Four dash-separated pieces accepted by the validator rebuild the key of
      their third piece. */
  lemma {:induction false} AcceptedPartsKey(hash: string -> string, clean: string, parts: seq<string>)
    requires IsDigestFunction(hash)
    requires parts == Split(clean, "-")
    requires |parts| == 4 && parts[0] == "MARCO" && parts[1] == "PRO" && parts[3] == Checksum(hash, parts[2])
    ensures '-' !in parts[2] && clean == KeyFor(hash, parts[2])
  {
    JoinSplit(clean, "-");
    SplitPiecesFree(clean, "-");
    ContainsChar(parts[2], '-');
    assert "MARCO" + "-" + "PRO" + "-" == KEY_PREFIX;
    Join4(parts[0], parts[1], parts[2], parts[3], "-");
    assert parts == [parts[0], parts[1], parts[2], parts[3]];
  }
}
