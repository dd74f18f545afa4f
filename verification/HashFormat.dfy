/** The password-hash text format of atlasquant_access_control.py: a printer
    (`hash_password`) and two readers that split the text differently
    (`verify_password`, `_valid_hash_format`).  The key-derivation function (PBKDF2,
    section 5.2 of RFC 8018) is a parameter. */
module HashFormat {
  import opened Wrappers
  import opened Texts

  const MIN_ITERATIONS := 200_000
  const MAX_ITERATIONS := 2_000_000
  const MIN_PASSWORD := 12
  const MAX_PASSWORD := 1024
  const ALGORITHM := "pbkdf2_sha256"

  type Byte = b: int | 0 <= b < 256

  type Kdf = (string, seq<Byte>, int) -> seq<Byte>

  datatype Fault = BadPasswordLength | BadIterations | SaltTooShort

  // ------------------------------------------------------------------- splitting

  /** Where the first separator is, or the length of the text. */
  function Dollar(s: string): (n: nat)
    ensures n <= |s|
    ensures forall i | 0 <= i < n :: s[i] != '$'
    ensures n < |s| ==> s[n] == '$'
  {
    if s == "" || s[0] == '$' then 0 else 1 + Dollar(s[1..])
  }

  /** `s.split("$")`. */
  function SplitAll(s: string): (parts: seq<string>)
    ensures 1 <= |parts|
    decreases |s|
  {
    var n := Dollar(s);
    if n == |s| then [s] else [s[..n]] + SplitAll(s[n + 1..])
  }

  /** `s.split("$", cuts)`: at most `cuts` cuts, the rest stays in the last part. */
  function SplitAtMost(s: string, cuts: nat): (parts: seq<string>)
    ensures 1 <= |parts| <= cuts + 1
  {
    var n := Dollar(s);
    if cuts == 0 || n == |s| then [s] else [s[..n]] + SplitAtMost(s[n + 1..], cuts - 1)
  }

  lemma {:induction false} SplitNowhere(s: string, cuts: nat)
    requires Dollar(s) == |s|
    ensures SplitAll(s) == SplitAtMost(s, cuts) == [s]
  {
  }

  lemma {:induction false} NoCutsLeft(s: string)
    requires Dollar(s) < |s|
    ensures SplitAtMost(s, 0) == [s] && 1 < |SplitAll(s)| && '$' in s
  {
    assert s[Dollar(s)] == '$';
  }

  /** Either both splits agree or the last part of the bounded one holds a separator. */
  predicate Agree(all: seq<string>, some: seq<string>, cuts: nat) {
    all == some || (|some| == cuts + 1 < |all| && '$' in some[cuts])
  }

  lemma {:induction false} AgreeAfter(s: string, cuts: nat)
    requires Dollar(s) < |s| && cuts > 0
    requires var rest := s[Dollar(s) + 1..]; Agree(SplitAll(rest), SplitAtMost(rest, cuts - 1), cuts - 1)
    ensures Agree(SplitAll(s), SplitAtMost(s, cuts), cuts)
  {
    var n := Dollar(s);
    var all, some := SplitAll(s[n + 1..]), SplitAtMost(s[n + 1..], cuts - 1);
    assert SplitAll(s) == [s[..n]] + all && SplitAtMost(s, cuts) == [s[..n]] + some;
  }

  /** Bounding the cuts only matters when a separator is left in the last part. */
  lemma {:induction false} SplitsAgree(s: string, cuts: nat)
    ensures Agree(SplitAll(s), SplitAtMost(s, cuts), cuts)
    decreases cuts
  {
    if Dollar(s) == |s| {
      SplitNowhere(s, cuts);
    } else if cuts == 0 {
      NoCutsLeft(s);
    } else {
      SplitsAgree(s[Dollar(s) + 1..], cuts - 1);
      AgreeAfter(s, cuts);
    }
  }

  lemma {:induction false} DollarAt(head: string, tail: string)
    requires '$' !in head
    ensures Dollar(head + ("$" + tail)) == |head|
  {
    if head != "" {
      DollarAt(head[1..], tail);
      assert (head + ("$" + tail))[1..] == head[1..] + ("$" + tail);
    }
  }

  lemma {:induction false} SplitJoined(head: string, tail: string)
    requires '$' !in head
    ensures SplitAll(head + ("$" + tail)) == [head] + SplitAll(tail)
  {
    var s := head + ("$" + tail);
    DollarAt(head, tail);
    assert s[..|head|] == head && s[|head| + 1..] == tail;
  }

  // -------------------------------------------------------------------- numbers

  function DigitChar(d: int): char
    requires 0 <= d < 10
  {
    '0' + d as char
  }

  function DigitOf(c: char): nat
    requires IsDigit(c)
  {
    c as nat - '0' as nat
  }

  function PrintInt(n: nat): (s: string)
    ensures s != "" && forall i | 0 <= i < |s| :: IsDigit(s[i])
  {
    if n < 10 then [DigitChar(n)] else PrintInt(n / 10) + [DigitChar(n % 10)]
  }

  /** Digits with single underscores between them, read after the value `acc`. */
  function DigitsValue(s: string, acc: int): Option<int>
    decreases |s|
  {
    if s == "" || !IsDigit(s[0]) then None
    else
      var value := acc * 10 + DigitOf(s[0]);
      if |s| == 1 then Some(value)
      else if s[1] == '_' then DigitsValue(s[2..], value)
      else DigitsValue(s[1..], value)
  }

  /** Python's `int(text)` for decimal digits. */
  function ParseInt(s: string): Option<int> {
    var t := Strip(s);
    if t == "" then None
    else if t[0] == '+' || t[0] == '-' then
      var digits := DigitsValue(t[1..], 0);
      if digits.None? then None else Some(if t[0] == '-' then -digits.value else digits.value)
    else DigitsValue(t, 0)
  }

  lemma {:induction false} DigitsAppend(s: string, c: char, acc: int)
    requires s != "" && IsDigit(c) && forall i | 0 <= i < |s| :: IsDigit(s[i])
    ensures DigitsValue(s, acc).Some?
    ensures DigitsValue(s + [c], acc) == Some(DigitsValue(s, acc).value * 10 + DigitOf(c))
    decreases |s|
  {
    var value := acc * 10 + DigitOf(s[0]);
    assert (s + [c])[1..] == s[1..] + [c];
    if |s| == 1 {
      assert s[1..] + [c] == [c];
      assert DigitsValue([c], value) == Some(value * 10 + DigitOf(c));
    } else {
      DigitsAppend(s[1..], c, value);
    }
  }

  lemma {:induction false} DigitsOfPrint(n: nat)
    ensures DigitsValue(PrintInt(n), 0) == Some(n)
  {
    if n >= 10 {
      DigitsOfPrint(n / 10);
      DigitsAppend(PrintInt(n / 10), DigitChar(n % 10), 0);
    }
  }

  lemma {:induction false} ParsePrinted(n: nat)
    ensures ParseInt(PrintInt(n)) == Some(n)
    ensures '$' !in PrintInt(n)
  {
    DigitsOfPrint(n);
  }

  // ------------------------------------------------------------------------ hex

  predicate IsHex(c: char) { IsDigit(c) || 'a' <= c <= 'f' || 'A' <= c <= 'F' }

  function HexValue(c: char): (v: int)
    requires IsHex(c)
    ensures 0 <= v < 16
  {
    if IsDigit(c) then (c - '0') as int
    else if 'a' <= c then 10 + (c - 'a') as int
    else 10 + (c - 'A') as int
  }

  function HexChar(v: int): (c: char)
    requires 0 <= v < 16
    ensures IsHex(c) && HexValue(c) == v
  {
    if v < 10 then '0' + v as char else 'a' + (v - 10) as char
  }

  /** `raw.hex()`. */
  function ToHex(raw: seq<Byte>): (s: string)
    ensures '$' !in s
  {
    if raw == [] then "" else [HexChar(raw[0] / 16), HexChar(raw[0] % 16)] + ToHex(raw[1..])
  }

  /** `bytes.fromhex(s)`: pairs of hex digits, ASCII whitespace allowed between pairs. */
  function FromHex(s: string): (raw: Option<seq<Byte>>)
    ensures raw.Some? ==> forall i | 0 <= i < |s| :: s[i] != '$'
    decreases |s|
  {
    if s == "" then Some([])
    else if s[0] == ' ' || '\t' <= s[0] <= '\r' then
      assert s == [s[0]] + s[1..];
      FromHex(s[1..])
    else if |s| < 2 || !IsHex(s[0]) || !IsHex(s[1]) then None
    else
      var rest := FromHex(s[2..]);
      if rest.None? then None
      else
        assert s == [s[0], s[1]] + s[2..];
        var first: Byte := HexValue(s[0]) * 16 + HexValue(s[1]);
        Some([first] + rest.value)
  }

  lemma {:induction false} HexRoundTrip(raw: seq<Byte>)
    ensures FromHex(ToHex(raw)) == Some(raw)
  {
    if raw != [] {
      HexRoundTrip(raw[1..]);
      var text := ToHex(raw);
      assert text[2..] == ToHex(raw[1..]);
      assert text[0] == HexChar(raw[0] / 16) && text[1] == HexChar(raw[0] % 16);
      assert HexValue(text[0]) * 16 + HexValue(text[1]) == raw[0];
      assert [raw[0]] + raw[1..] == raw;
    }
  }

  // --------------------------------------------------------------------- format

  datatype Parsed = Parsed(iterations: int, salt: seq<Byte>, digest: seq<Byte>)

  /** The checks both readers make on the four parts. */
  function ParseParts(parts: seq<string>): Option<Parsed> {
    if |parts| != 4 || parts[0] != ALGORITHM then None
    else
      var it := ParseInt(parts[1]);
      var salt := FromHex(parts[2]);
      var digest := FromHex(parts[3]);
      if it.None? || salt.None? || digest.None? then None
      else if !(MIN_ITERATIONS <= it.value <= MAX_ITERATIONS) then None
      else if |salt.value| < 16 || |digest.value| != 32 then None
      else Some(Parsed(it.value, salt.value, digest.value))
  }

  /** `_valid_hash_format`. */
  predicate ValidHashFormat(encoded: string) {
    ParseParts(SplitAll(encoded)).Some?
  }

  /** `verify_password`. */
  predicate VerifyPassword(kdf: Kdf, password: string, encoded: string) {
    |password| <= MAX_PASSWORD &&
    var parsed := ParseParts(SplitAtMost(encoded, 3));
    parsed.Some? && kdf(password, parsed.value.salt, parsed.value.iterations) == parsed.value.digest
  }

  function Printed(iterations: string, salt: string, digest: string): string {
    ALGORITHM + ("$" + (iterations + ("$" + (salt + ("$" + digest)))))
  }

  /** `hash_password` with its salt drawn beforehand. */
  function HashPassword(kdf: Kdf, password: string, salt: seq<Byte>, iterations: int): Result<string, Fault> {
    if |password| < MIN_PASSWORD || |password| > MAX_PASSWORD then Failure(BadPasswordLength)
    else if iterations < MIN_ITERATIONS || iterations > MAX_ITERATIONS then Failure(BadIterations)
    else if |salt| < 16 then Failure(SaltTooShort)
    else Success(
      Printed(PrintInt(iterations), ToHex(salt), ToHex(kdf(password, salt, iterations))))
  }

  /** The bounded and the unbounded split read the same hashes: a fourth part that still
      holds a separator is never hexadecimal. */
  lemma {:induction false} ReadersAgree(encoded: string)
    ensures ParseParts(SplitAtMost(encoded, 3)) == ParseParts(SplitAll(encoded))
  {
    SplitsAgree(encoded, 3);
    var parts := SplitAtMost(encoded, 3);
    if SplitAll(encoded) != parts { assert FromHex(parts[3]).None?; }
  }

  /** Whatever a password verifies against passes the registry's format check. */
  lemma {:induction false} VerifiedIsWellFormed(kdf: Kdf, password: string, encoded: string)
    ensures VerifyPassword(kdf, password, encoded) ==> ValidHashFormat(encoded)
  {
    ReadersAgree(encoded);
  }

  lemma {:induction false} PrintedParts(iterations: string, salt: string, digest: string)
    requires '$' !in iterations && '$' !in salt && '$' !in digest
    ensures SplitAll(Printed(iterations, salt, digest)) == [ALGORITHM] + ([iterations] + ([salt] + [digest]))
  {
    var tail2 := salt + ("$" + digest);
    var tail1 := iterations + ("$" + tail2);
    assert SplitAll(digest) == [digest];
    SplitJoined(salt, digest);
    SplitJoined(iterations, tail2);
    AlgorithmIsPlain();
    SplitJoined(ALGORITHM, tail1);
  }

  lemma {:induction false} AlgorithmIsPlain()
    ensures '$' !in ALGORITHM
  {
  }

  /** A printed hash is well formed, and a password verifies against it exactly when it
      derives the same key; in particular the original password does. */
  lemma {:induction false} HashRoundTrip(kdf: Kdf, password: string, salt: seq<Byte>, iterations: int, attempt: string)
    requires |kdf(password, salt, iterations)| == 32
    requires HashPassword(kdf, password, salt, iterations).Success?
    ensures var encoded := HashPassword(kdf, password, salt, iterations).value;
            && ValidHashFormat(encoded)
            && VerifyPassword(kdf, password, encoded)
            && (VerifyPassword(kdf, attempt, encoded) <==>
                  |attempt| <= MAX_PASSWORD && kdf(attempt, salt, iterations) == kdf(password, salt, iterations))
  {
    var encoded := HashPassword(kdf, password, salt, iterations).value;
    ParsePrinted(iterations);
    PrintedParts(PrintInt(iterations), ToHex(salt), ToHex(kdf(password, salt, iterations)));
    HexRoundTrip(salt);
    HexRoundTrip(kdf(password, salt, iterations));
    ReadersAgree(encoded);
  }
}
