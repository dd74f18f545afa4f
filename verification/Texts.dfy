/** The text normalisation shared by every gate: `_text`, and the strict `_identity`
    guard of the V2 command plan.  Strings are unbounded sequences of characters. */
module Texts {
  /** The characters on which Python's argument-less `str.split` breaks. */
  predicate IsSpace(c: char) {
    || ('\t' <= c <= '\r') || (0x1c as char <= c <= ' ')
    || c == 0x85 as char || c == 0xa0 as char || c == 0x1680 as char
    || (0x2000 as char <= c <= 0x200a as char)
    || c == 0x2028 as char || c == 0x2029 as char || c == 0x202f as char
    || c == 0x205f as char || c == 0x3000 as char
  }

  predicate IsDigit(c: char) { '0' <= c <= '9' }

  const NUL: char := 0 as char

  function DropNul(s: string): (r: string)
    ensures NUL !in r
    ensures NUL !in s ==> r == s
  {
    if s == "" then "" else (if s[0] == NUL then "" else [s[0]]) + DropNul(s[1..])
  }

  /** The length of the run of non-space characters at the front. */
  function WordLength(s: string): (n: nat)
    ensures n <= |s|
    ensures forall i | 0 <= i < n :: !IsSpace(s[i])
    ensures n < |s| ==> IsSpace(s[n])
  {
    if s == "" || IsSpace(s[0]) then 0 else 1 + WordLength(s[1..])
  }

  /** `s.split()`. */
  function Split(s: string): (words: seq<string>)
    decreases |s|
  {
    if s == "" then []
    else if IsSpace(s[0]) then Split(s[1..])
    else var n := WordLength(s); [s[..n]] + Split(s[n..])
  }

  /** `" ".join(words)`. */
  function Join(words: seq<string>): string {
    if words == [] then ""
    else if |words| == 1 then words[0]
    else words[0] + " " + Join(words[1..])
  }

  function Take(s: string, n: nat): string {
    if |s| <= n then s else s[..n]
  }

  /** Single-spaced: no space at either end, only plain spaces inside, never two in a row. */
  predicate Spaced(s: string) {
    && (s != "" ==> !IsSpace(s[0]) && !IsSpace(s[|s| - 1]))
    && (forall i | 0 <= i < |s| :: IsSpace(s[i]) ==> s[i] == ' ')
    && (forall i | 0 <= i < |s| - 1 :: IsSpace(s[i]) ==> !IsSpace(s[i + 1]))
  }

  function Normal(s: string): string {
    Join(Split(s))
  }

  /** `_text(value, limit)` on a string. */
  function Text(s: string, limit: nat): string {
    Take(Normal(DropNul(s)), limit)
  }

  /** `_identity(value, limit)` on a string. */
  function Identity(s: string, limit: nat): string {
    if s == "" || |s| > limit then ""
    else if NUL in s || Normal(s) != s then ""
    else s
  }

  /** Case folding of the ASCII letters; all patterns of the gates are ASCII. */
  function LowerChar(c: char): char {
    if 'A' <= c <= 'Z' then c - 'A' + 'a' else c
  }

  function UpperChar(c: char): char {
    if 'a' <= c <= 'z' then c - 'a' + 'A' else c
  }

  function Lower(s: string): (r: string)
    ensures |r| == |s|
  {
    seq(|s|, i requires 0 <= i < |s| => LowerChar(s[i]))
  }

  function Upper(s: string): (r: string)
    ensures |r| == |s|
  {
    seq(|s|, i requires 0 <= i < |s| => UpperChar(s[i]))
  }

  function StripLeft(s: string): string {
    if s != "" && IsSpace(s[0]) then StripLeft(s[1..]) else s
  }

  function StripRight(s: string): string {
    if s != "" && IsSpace(s[|s| - 1]) then StripRight(s[..|s| - 1]) else s
  }

  /** `s.strip()`. */
  function Strip(s: string): string {
    StripRight(StripLeft(s))
  }

  // --------------------------------------------------------------- normal forms

  /** A space-free word in front of a single-spaced text. */
  lemma {:induction false} WordThenSpaced(word: string, rest: string)
    requires word != "" && forall i | 0 <= i < |word| :: !IsSpace(word[i])
    requires Spaced(rest)
    ensures Spaced(word)
    ensures rest != "" ==> Spaced(word + " " + rest)
  {
    if rest != "" {
      var s := word + " " + rest;
      assert forall i | 0 <= i < |word| :: s[i] == word[i];
      assert forall i | 0 <= i < |rest| :: s[|word| + 1 + i] == rest[i];
      assert forall i | |word| < i < |s| :: s[i] == rest[i - |word| - 1];
    }
  }

  lemma {:induction false} SplitAfterWord(s: string)
    requires s != "" && !IsSpace(s[0])
    ensures var n := WordLength(s); n > 0 && Split(s) == [s[..n]] + Split(s[n..]) && |s[n..]| < |s|
    ensures var n := WordLength(s);
            Normal(s) == if Split(s[n..]) == [] then s[..n] else s[..n] + " " + Normal(s[n..])
  {
    var n := WordLength(s);
    assert Split(s)[1..] == Split(s[n..]);
  }

  lemma {:induction false} NormalIsSpaced(s: string)
    ensures Spaced(Normal(s))
    ensures |Normal(s)| <= |s|
    ensures NUL !in s ==> NUL !in Normal(s)
    ensures Split(s) == [] <==> Normal(s) == ""
    decreases |s|
  {
    if s == "" {
    } else if IsSpace(s[0]) {
      NormalIsSpaced(s[1..]);
    } else {
      SplitAfterWord(s);
      var n := WordLength(s);
      var rest := s[n..];
      NormalIsSpaced(rest);
      WordThenSpaced(s[..n], Normal(rest));
      if Split(rest) != [] {
        assert rest != "" && IsSpace(rest[0]);
        NormalIsSpaced(rest[1..]);
        assert Normal(rest) == Normal(rest[1..]);
      }
    }
  }

  lemma {:induction false} SpacedSuffix(s: string, m: nat)
    requires Spaced(s) && m < |s| && !IsSpace(s[m])
    ensures Spaced(s[m..])
  {
    var tail := s[m..];
    assert forall i | 0 <= i < |tail| :: tail[i] == s[m + i];
  }

  /** What follows the first word of a single-spaced text. */
  lemma {:induction false} SpacedTail(s: string)
    requires Spaced(s) && WordLength(s) < |s|
    ensures var n := WordLength(s); Spaced(s[n + 1..]) && s[n + 1..] != "" && s == s[..n] + " " + s[n + 1..]
  {
    var n := WordLength(s);
    assert s[n] == ' ' && n + 1 < |s|;
    SpacedSuffix(s, n + 1);
    assert s == s[..n] + [s[n]] + s[n + 1..];
  }

  lemma {:induction false} SpacedIsNormal(s: string)
    requires Spaced(s)
    ensures Normal(s) == s
    decreases |s|
  {
    if s != "" {
      var n := WordLength(s);
      SplitAfterWord(s);
      if n == |s| {
        assert s[n..] == "" && s[..n] == s;
      } else {
        SpacedTail(s);
        var tail := s[n + 1..];
        SpacedIsNormal(tail);
        NormalIsSpaced(tail);
        assert s[n..][1..] == tail;
        assert Split(s[n..]) == Split(tail);
      }
    }
  }

  /** Whitespace normalisation is a projection onto the single-spaced strings. */
  lemma {:induction false} NormalFixpoints(s: string)
    ensures Normal(s) == s <==> Spaced(s)
    ensures Normal(Normal(s)) == Normal(s)
  {
    NormalIsSpaced(s);
    SpacedIsNormal(Normal(s));
    if Spaced(s) { SpacedIsNormal(s); }
  }

  /** The V2 guard keeps exactly the non-empty strings that V1's `_text` leaves alone. */
  lemma {:induction false} IdentityIsTextFixpoint(s: string, limit: nat)
    ensures Identity(s, limit) == if s != "" && Text(s, limit) == s then s else ""
  {
    if s != "" && Text(s, limit) == s {
      var normal := Normal(DropNul(s));
      NormalIsSpaced(DropNul(s));
      assert NUL !in s;
      assert DropNul(s) == s;
      assert |normal| <= |s|;
      assert normal == s;
    }
  }

  lemma {:induction false} PrefixOfSpaced(s: string, n: nat)
    requires Spaced(s) && n <= |s|
    ensures Spaced(s[..n]) <==> (n == 0 || !IsSpace(s[n - 1]))
  {
    var p := s[..n];
    assert forall i | 0 <= i < n :: p[i] == s[i];
  }

  /** `_text` is idempotent exactly when its cut does not fall right after a space. */
  lemma {:induction false} TextIdempotent(s: string, limit: nat)
    ensures Text(Text(s, limit), limit) == Text(s, limit) <==>
            var normal := Normal(DropNul(s));
            |normal| <= limit || limit == 0 || !IsSpace(normal[limit - 1])
  {
    var normal := Normal(DropNul(s));
    NormalIsSpaced(DropNul(s));
    var cut := Text(s, limit);
    assert NUL !in cut;
    NormalFixpoints(cut);
    NormalIsSpaced(cut);
    if |normal| > limit { PrefixOfSpaced(normal, limit); }
  }

  /** Text results that survive a second pass keep their identity under both guards. */
  lemma {:induction false} TextKeepsFirst(s: string, limit: nat)
    ensures limit > 0 ==> (Text(s, limit) == "" <==> Normal(DropNul(s)) == "")
    ensures Text(s, limit) != "" ==> !IsSpace(Text(s, limit)[0])
    ensures |Text(s, limit)| <= limit
    ensures NUL !in Text(s, limit)
  {
    NormalIsSpaced(DropNul(s));
  }

  lemma {:induction false} NonBlank(s: string, limit: nat)
    requires s != "" && NUL !in s && !IsSpace(s[0]) && limit > 0
    ensures Text(s, limit) != ""
  {
    NormalIsSpaced(s);
    assert DropNul(s) == s;
    assert WordLength(s) > 0 && Split(s) != [];
  }

  /** A normalised text that is not empty stays so when it is normalised again. */
  lemma {:induction false} TextAgain(raw: string, limit: nat, again: nat)
    requires Text(raw, limit) != "" && again > 0
    ensures Text(Text(raw, limit), again) != ""
  {
    TextKeepsFirst(raw, limit);
    NonBlank(Text(raw, limit), again);
  }

  lemma {:induction false} UpperKeepsFirst(s: string)
    requires s != "" && NUL !in s && !IsSpace(s[0])
    ensures Upper(s) != "" && NUL !in Upper(s) && !IsSpace(Upper(s)[0])
  {
    assert Upper(s)[0] == UpperChar(s[0]);
    forall i | 0 <= i < |s|
      ensures Upper(s)[i] != NUL
    {
      assert Upper(s)[i] == UpperChar(s[i]) && s[i] in s;
    }
  }

  lemma {:induction false} UpperTextAgain(raw: string, limit: nat, again: nat)
    requires Upper(Text(raw, limit)) != "" && again > 0
    ensures Text(Upper(Text(raw, limit)), again) != ""
  {
    TextKeepsFirst(raw, limit);
    UpperKeepsFirst(Text(raw, limit));
    NonBlank(Upper(Text(raw, limit)), again);
  }
}
