/**
 * The PHP string built-ins the request-handling core relies on:
 * `trim` with a character list, `str_starts_with`/`str_ends_with`,
 * `explode` on a one-character delimiter (with `implode` as its inverse),
 * the falsiness of strings and the decimal form of an integer.
 */
module PhpStrings {

  /** The characters PHP's `trim` strips when no character list is given. */
  const WhiteSpace: set<char> := {' ', '\t', '\n', '\r', '\0', '\U{000B}'}

  /** PHP treats exactly "" and "0" as false in a boolean context (`!$s`, `$s ?: $d`). */
  predicate IsFalsy(s: string)
  {
    s == "" || s == "0"
  }

  /** `str_starts_with($s, $prefix)` */
  predicate StartsWith(s: string, prefix: string)
  {
    prefix <= s
  }

  /** `str_ends_with($s, $suffix)` */
  predicate EndsWith(s: string, suffix: string)
  {
    |suffix| <= |s| && s[|s| - |suffix|..] == suffix
  }

  /** `ltrim($s, $chars)`: drops the longest prefix made of characters in `cs`. */
  function TrimLeft(s: string, cs: set<char>): (r: string)
    ensures |r| <= |s| && r == s[|s| - |r|..]
    ensures forall i :: 0 <= i < |s| - |r| ==> s[i] in cs
    ensures |r| > 0 ==> r[0] !in cs
  {
    if |s| > 0 && s[0] in cs then TrimLeft(s[1..], cs) else s
  }

  /** `rtrim($s, $chars)`: drops the longest suffix made of characters in `cs`. */
  function TrimRight(s: string, cs: set<char>): (r: string)
    ensures |r| <= |s| && r == s[..|r|]
    ensures forall i :: |r| <= i < |s| ==> s[i] in cs
    ensures |r| > 0 ==> r[|r| - 1] !in cs
  {
    if |s| > 0 && s[|s| - 1] in cs then TrimRight(s[..|s| - 1], cs) else s
  }

  /** `s` is `r`, starting at index `i`, padded on both sides with characters of `cs` only. */
  predicate Padded(s: string, i: int, r: string, cs: set<char>)
  {
    0 <= i && i + |r| <= |s| && r == s[i..i + |r|] &&
    (forall k :: 0 <= k < i ==> s[k] in cs) &&
    (forall k :: i + |r| <= k < |s| ==> s[k] in cs)
  }

  /**
   * `trim($s, $chars)`: the slice of `s` left once the characters of `cs` are
   * stripped from both ends; the slice has no character of `cs` at either end.
   */
  function Trim(s: string, cs: set<char>): (r: string)
    ensures Padded(s, |s| - |TrimLeft(s, cs)|, r, cs)
    ensures |r| > 0 ==> r[0] !in cs && r[|r| - 1] !in cs
  {
    var l := TrimLeft(s, cs);
    var r := TrimRight(l, cs);
    TrimmedSlice(s, l, r, cs);
    assert |r| > 0 ==> r[0] == l[0];
    r
  }

  /**
   * A prefix `r` of a suffix `l` of `s`, with only listed characters before
   * `l` in `s` and after `r` in `l`, is a padded slice of `s`.
   */
  lemma TrimmedSlice(s: string, l: string, r: string, cs: set<char>)
    requires |l| <= |s| && l == s[|s| - |l|..]
    requires forall k :: 0 <= k < |s| - |l| ==> s[k] in cs
    requires |r| <= |l| && r == l[..|r|]
    requires forall k :: |r| <= k < |l| ==> l[k] in cs
    ensures Padded(s, |s| - |l|, r, cs)
  {
    var i := |s| - |l|;
    assert r == s[i..i + |r|];
    forall k | i + |r| <= k < |s|
      ensures s[k] in cs
    {
      assert s[k] == l[k - i];
    }
  }

  /** Trimming twice strips nothing more. */
  lemma TrimIdempotent(s: string, cs: set<char>)
    ensures Trim(Trim(s, cs), cs) == Trim(s, cs)
  {
    var r := Trim(s, cs);
    if |r| > 0 {
      assert TrimLeft(r, cs) == r;
      assert TrimRight(r, cs) == r;
    }
  }

  /** Trimming strips exactly a padding of listed characters around a core whose two ends are not listed. */
  lemma TrimPadded(lead: string, core: string, trail: string, cs: set<char>)
    requires forall k :: 0 <= k < |lead| ==> lead[k] in cs
    requires forall k :: 0 <= k < |trail| ==> trail[k] in cs
    requires |core| > 0 && core[0] !in cs && core[|core| - 1] !in cs
    ensures Trim(lead + core + trail, cs) == core
  {
    var s := lead + core + trail;
    assert forall k :: 0 <= k < |lead| ==> s[k] == lead[k];
    assert s[|lead|] == core[0];
    var l := TrimLeft(s, cs);
    assert |l| == |core| + |trail|;
    assert l == core + trail;
    assert forall k :: 0 <= k < |trail| ==> l[|core| + k] == trail[k];
    assert l[|core| - 1] == core[|core| - 1];
    var r := TrimRight(l, cs);
    assert |r| == |core|;
    assert r == core;
  }

  /** `implode($c, $parts)` for a one-character glue. */
  function Join(parts: seq<string>, c: char): string
  {
    if |parts| == 0 then ""
    else if |parts| == 1 then parts[0]
    else parts[0] + [c] + Join(parts[1..], c)
  }

  /** `explode($c, $s)` for a one-character delimiter: never an empty list; "" gives [""]. */
  function Split(s: string, c: char): (r: seq<string>)
    ensures |r| >= 1
    ensures forall k :: 0 <= k < |r| ==> c !in r[k]
    decreases |s|
  {
    if c !in s then [s]
    else
      var i := IndexOf(s, c);
      [s[..i]] + Split(s[i + 1..], c)
  }

  /** Joining the pieces of a split gives the string back. */
  lemma {:induction false} JoinSplit(s: string, c: char)
    ensures Join(Split(s, c), c) == s
    decreases |s|
  {
    if c in s {
      var i := IndexOf(s, c);
      var rest := Split(s[i + 1..], c);
      JoinSplit(s[i + 1..], c);
      assert Split(s, c) == [s[..i]] + rest;
      assert ([s[..i]] + rest)[1..] == rest;
      assert Join(Split(s, c), c) == s[..i] + [c] + Join(rest, c);
      assert s == s[..i] + [c] + s[i + 1..];
    }
  }

  /** Position of the first occurrence of `c` in `s`. */
  function IndexOf(s: string, c: char): (i: nat)
    requires c in s
    ensures i < |s| && s[i] == c && c !in s[..i]
  {
    if s[0] == c then 0 else 1 + IndexOf(s[1..], c)
  }

  /** Splitting what was joined gives the pieces back, as long as no piece holds the delimiter. */
  lemma {:induction false} SplitJoin(parts: seq<string>, c: char)
    requires |parts| >= 1
    requires forall k :: 0 <= k < |parts| ==> c !in parts[k]
    ensures Split(Join(parts, c), c) == parts
  {
    if |parts| == 1 {
    } else {
      var s := Join(parts, c);
      var tail := Join(parts[1..], c);
      assert s == parts[0] + [c] + tail;
      assert c in s by { assert s[|parts[0]|] == c; }
      var i := IndexOf(s, c);
      IndexOfAfterPiece(parts[0], tail, c);
      assert i == |parts[0]|;
      assert s[..i] == parts[0];
      assert s[i + 1..] == tail;
      SplitJoin(parts[1..], c);
    }
  }

  /** The first delimiter of `p + [c] + t` sits right after `p` when `p` holds none. */
  lemma {:induction false} IndexOfAfterPiece(p: string, t: string, c: char)
    requires c !in p
    ensures c in p + [c] + t && IndexOf(p + [c] + t, c) == |p|
  {
    var s := p + [c] + t;
    assert s[|p|] == c;
    if |p| > 0 {
      assert s[1..] == p[1..] + [c] + t;
      IndexOfAfterPiece(p[1..], t, c);
    }
  }

  /** The decimal digit for `d`. */
  function DigitChar(d: nat): (ch: char)
    requires d < 10
    ensures '0' <= ch <= '9' && ch as int - '0' as int == d
  {
    ['0', '1', '2', '3', '4', '5', '6', '7', '8', '9'][d]
  }

  /** Decimal digits of a natural number, as `(string)` writes them: no leading zero. */
  function NatToString(n: nat): (r: string)
    ensures |r| >= 1
    ensures forall k :: 0 <= k < |r| ==> '0' <= r[k] <= '9'
    ensures r[0] == '0' ==> n == 0
  {
    if n < 10 then [DigitChar(n)] else NatToString(n / 10) + [DigitChar(n % 10)]
  }

  /** `(string) $i` for an integer. */
  function IntToString(i: int): string
  {
    if i < 0 then "-" + NatToString(-i) else NatToString(i)
  }

  /** Reads a string of decimal digits back as a number. */
  function ParseNat(s: string): nat
    requires forall k :: 0 <= k < |s| ==> '0' <= s[k] <= '9'
  {
    if |s| == 0 then 0 else 10 * ParseNat(s[..|s| - 1]) + (s[|s| - 1] as int - '0' as int)
  }

  /** The decimal form of a natural number reads back as that number. */
  lemma {:induction false} ParseNatToString(n: nat)
    ensures ParseNat(NatToString(n)) == n
  {
    var r := NatToString(n);
    if n >= 10 {
      assert r[..|r| - 1] == NatToString(n / 10);
      ParseNatToString(n / 10);
    }
  }
}
