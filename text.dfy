/**
  String helpers shared by the backend (PHP) and frontend (JavaScript) models:
  prefix and substring tests, trimming, ASCII lower-casing, decimal rendering,
  joining, and the truthiness rules of the two languages for strings.
 */
module Text {
  import opened Wrappers

  predicate StartsWith(s: string, prefix: string) {
    |prefix| <= |s| && s[..|prefix|] == prefix
  }

  /** `sub` occurs in `s` starting at index `i`. */
  predicate OccursAt(s: string, sub: string, i: int) {
    0 <= i && i + |sub| <= |s| && s[i..i + |sub|] == sub
  }

  /** PHP `str_contains` / `strpos(...) !== false`, JavaScript `includes`. */
  predicate Contains(s: string, sub: string)
    decreases |s|
  {
    StartsWith(s, sub) || (s != [] && Contains(s[1..], sub))
  }

  /** An occurrence found by `Contains` has an index. */
  lemma {:induction false} ContainsHasIndex(s: string, sub: string)
    requires Contains(s, sub)
    ensures exists i :: OccursAt(s, sub, i)
    decreases |s|
  {
    if StartsWith(s, sub) {
      assert OccursAt(s, sub, 0);
    } else {
      ContainsHasIndex(s[1..], sub);
      var i :| OccursAt(s[1..], sub, i);
      assert s[1..][i..i + |sub|] == s[i + 1..i + 1 + |sub|];
      assert OccursAt(s, sub, i + 1);
    }
  }

  /** An occurrence at any index makes `Contains` hold. */
  lemma {:induction false} ContainsWhenOccurs(s: string, sub: string, i: int)
    requires OccursAt(s, sub, i)
    ensures Contains(s, sub)
    decreases i
  {
    if i == 0 {
      assert s[..|sub|] == sub;
    } else {
      assert s[1..][i - 1..i - 1 + |sub|] == s[i..i + |sub|];
      ContainsWhenOccurs(s[1..], sub, i - 1);
    }
  }

  /** Contains is preserved when the string is extended on either side. */
  lemma ContainsInConcat(a: string, s: string, b: string, sub: string)
    requires Contains(s, sub)
    ensures Contains(a + s + b, sub)
  {
    ContainsHasIndex(s, sub);
    var i :| OccursAt(s, sub, i);
    assert (a + s + b)[|a| + i..|a| + i + |sub|] == s[i..i + |sub|];
    ContainsWhenOccurs(a + s + b, sub, |a| + i);
  }

  /** A piece is contained in any string built around it. */
  lemma ContainsPiece(a: string, piece: string, b: string)
    ensures Contains(a + piece + b, piece)
  {
    assert (a + piece + b)[|a|..|a| + |piece|] == piece;
    ContainsWhenOccurs(a + piece + b, piece, |a|);
  }

  /** Each of the last four pieces of a five-piece string is contained in it. */
  lemma ContainsFivePieces(a: string, b: string, c: string, d: string, e: string)
    ensures var s := a + b + c + d + e;
      Contains(s, b) && Contains(s, c) && Contains(s, d) && Contains(s, e)
  {
    ContainsPieces(a, b, c, d + e);
    assert a + b + c + d + e == a + b + c + (d + e);
    ContainsPieces(a + b, c, d, e);
    assert a + b + c + d + e == (a + b) + c + d + e;
  }

  /** Each of the last three pieces of a four-piece string is contained in it. */
  lemma ContainsPieces(a: string, b: string, c: string, d: string)
    ensures Contains(a + b + c + d, b) && Contains(a + b + c + d, c) && Contains(a + b + c + d, d)
  {
    assert a + b + c + d == a + b + (c + d);
    ContainsPiece(a, b, c + d);
    ContainsPiece(a + b, c, d);
    assert a + b + c + d == (a + b + c) + d + "";
    ContainsPiece(a + b + c, d, "");
  }

  /** PHP `ltrim($s, c)`: every leading `c` removed. */
  function TrimLeft(s: string, c: char): (r: string)
    ensures |r| <= |s| && r == s[|s| - |r|..]
    ensures r != [] ==> r[0] != c
    ensures forall i :: 0 <= i < |s| - |r| ==> s[i] == c
  {
    if s != [] && s[0] == c then TrimLeft(s[1..], c) else s
  }

  /** PHP `rtrim($s, c)`: every trailing `c` removed. */
  function TrimRight(s: string, c: char): (r: string)
    ensures |r| <= |s| && r == s[..|r|]
    ensures r != [] ==> r[|r| - 1] != c
    ensures forall i :: |r| <= i < |s| ==> s[i] == c
  {
    if s != [] && s[|s| - 1] == c then TrimRight(s[..|s| - 1], c) else s
  }

  predicate IsAsciiUpper(c: char) {
    'A' <= c <= 'Z'
  }

  /** Lower-cases one ASCII letter and leaves every other character as it is. */
  function AsciiLower(c: char): (r: char)
    ensures !IsAsciiUpper(r)
    ensures !IsAsciiUpper(c) ==> r == c
  {
    if IsAsciiUpper(c) then (c as int - 'A' as int + 'a' as int) as char else c
  }

  /** PHP `strtolower` (ASCII only, as in PHP 8.2 and later). */
  function LowerAscii(s: string): (r: string)
    ensures |r| == |s|
    ensures forall i :: 0 <= i < |s| ==> r[i] == AsciiLower(s[i])
  {
    if s == [] then [] else [AsciiLower(s[0])] + LowerAscii(s[1..])
  }

  /** Lower-casing leaves a string without upper-case ASCII letters unchanged. */
  lemma {:induction false} LowerAsciiNoUpper(s: string)
    requires forall i :: 0 <= i < |s| ==> !IsAsciiUpper(s[i])
    ensures LowerAscii(s) == s
  {
    if s != [] {
      LowerAsciiNoUpper(s[1..]);
    }
  }

  /** Replaces every `from` by `to` (PHP `str_replace` with one-character operands). */
  function ReplaceChar(s: string, from: char, to: char): (r: string)
    ensures |r| == |s|
    ensures forall i :: 0 <= i < |s| ==> r[i] == (if s[i] == from then to else s[i])
  {
    if s == [] then [] else [if s[0] == from then to else s[0]] + ReplaceChar(s[1..], from, to)
  }

  function DigitChar(d: int): char
    requires 0 <= d < 10
  {
    "0123456789"[d]
  }

  /** Decimal rendering of a natural number. */
  function NatToString(n: nat): (r: string)
    ensures |r| >= 1
    ensures forall i :: 0 <= i < |r| ==> '0' <= r[i] <= '9'
  {
    if n < 10 then [DigitChar(n)] else NatToString(n / 10) + [DigitChar(n % 10)]
  }

  /** Decimal rendering of an integer, as PHP string interpolation and JavaScript template literals print it. */
  function IntToString(i: int): string {
    if i < 0 then "-" + NatToString(-i) else NatToString(i)
  }

  /** PHP `implode(sep, parts)` and JavaScript `parts.join(sep)`. */
  function Join(parts: seq<string>, sep: string): string {
    if parts == [] then ""
    else if |parts| == 1 then parts[0]
    else parts[0] + sep + Join(parts[1..], sep)
  }

  /** A PHP string is falsy when it is "" or "0" (`if ($s)`, `empty($s)`, `?:`). */
  predicate PhpTruthy(s: string) {
    s != "" && s != "0"
  }

  /** A nullable PHP string is truthy when it is present and truthy. */
  predicate OptTruthy(o: Option<string>) {
    o.Some? && PhpTruthy(o.value)
  }

  /** The characters PCRE's `\s` matches without the `/u` flag. */
  predicate IsPcreSpace(c: char) {
    c == ' ' || c == '\t' || c == '\n' || c == '\U{B}' || c == '\U{C}' || c == '\r'
  }

  /** The characters JavaScript's `\s` and `String.prototype.trim` treat as white space. */
  predicate IsJsSpace(c: char) {
    IsPcreSpace(c) || c == '\U{A0}' || c == '\U{1680}' || ('\U{2000}' <= c <= '\U{200A}')
    || c == '\U{2028}' || c == '\U{2029}' || c == '\U{202F}' || c == '\U{205F}'
    || c == '\U{3000}' || c == '\U{FEFF}'
  }

  /** JavaScript `s.trim() === ''`: the string holds nothing but white space. */
  predicate IsBlank(s: string) {
    forall i :: 0 <= i < |s| ==> IsJsSpace(s[i])
  }

  /** The value a query-parameter list gives a key: that of its first entry with the key. */
  function Lookup<V>(params: seq<(string, V)>, key: string): Option<V> {
    if params == [] then None else if params[0].0 == key then Some(params[0].1) else Lookup(params[1..], key)
  }

  /** Appending parameters never hides a key the front part already gives. */
  lemma {:induction false} LookupAppend<V>(a: seq<(string, V)>, b: seq<(string, V)>, key: string)
    ensures Lookup(a + b, key) == if Lookup(a, key).Some? then Lookup(a, key) else Lookup(b, key)
  {
    if a == [] {
      assert a + b == b;
    } else {
      assert (a + b)[0] == a[0] && (a + b)[1..] == a[1..] + b;
      LookupAppend(a[1..], b, key);
    }
  }
}
