/**
 * The few Python string and list operations the chatbot relies on:
 * `str.lower`/`str.upper` (on ASCII letters), `str.isspace`/`str.strip`,
 * substring containment `needle in haystack`, slicing `s[:n]`, decimal
 * rendering of an integer, and a string grown with `+=` over a list.
 */
module Text {

  // ---------------------------------------------------------------- case

  function LowerChar(c: char): char {
    if 'A' <= c <= 'Z' then (c as int + 32) as char else c
  }

  function UpperChar(c: char): char {
    if 'a' <= c <= 'z' then (c as int - 32) as char else c
  }

  /** `s.lower()`, for the ASCII letters. */
  function Lower(s: string): (r: string)
    ensures |r| == |s|
    ensures forall i :: 0 <= i < |s| ==> r[i] == LowerChar(s[i])
  {
    seq(|s|, i requires 0 <= i < |s| => LowerChar(s[i]))
  }

  /** `s.upper()`, for the ASCII letters. */
  function Upper(s: string): (r: string)
    ensures |r| == |s|
    ensures forall i :: 0 <= i < |s| ==> r[i] == UpperChar(s[i])
  {
    seq(|s|, i requires 0 <= i < |s| => UpperChar(s[i]))
  }

  // ---------------------------------------------------------- whitespace

  /** Python's `str.isspace` for one character. */
  predicate IsSpace(c: char) {
    c == ' ' || ('\t' <= c <= '\r') || ('\U{1C}' <= c <= '\U{1F}')
    || c == '\U{85}' || c == '\U{A0}' || c == '\U{1680}'
    || ('\U{2000}' <= c <= '\U{200A}') || c == '\U{2028}' || c == '\U{2029}'
    || c == '\U{202F}' || c == '\U{205F}' || c == '\U{3000}'
  }

  /** `not s or not s.strip()`: the string is empty or only whitespace. */
  predicate IsBlank(s: string) {
    forall i | 0 <= i < |s| :: IsSpace(s[i])
  }

  // ----------------------------------------------------------- substring

  /** `needle` starts at position `i` of `haystack`. */
  ghost predicate MatchAt(needle: string, haystack: string, i: int) {
    0 <= i <= |haystack| - |needle| && haystack[i..i + |needle|] == needle
  }

  /** Python's `needle in haystack` on strings: a contiguous occurrence. */
  function Occurs(needle: string, haystack: string): bool
    decreases |haystack|
  {
    needle <= haystack || (haystack != [] && Occurs(needle, haystack[1..]))
  }

  /** An occurrence starting at `i` is found by `Occurs`. */
  lemma {:induction false} MatchOccurs(needle: string, haystack: string, i: int)
    requires MatchAt(needle, haystack, i)
    ensures Occurs(needle, haystack)
    decreases i
  {
    if i > 0 {
      assert haystack[1..][i - 1..i - 1 + |needle|] == haystack[i..i + |needle|];
      MatchOccurs(needle, haystack[1..], i - 1);
    }
  }

  /** `Occurs` finds exactly the positions at which `needle` starts. */
  lemma {:induction false} OccursAt(needle: string, haystack: string)
    ensures Occurs(needle, haystack) <==> exists i :: MatchAt(needle, haystack, i)
    decreases |haystack|
  {
    forall i | MatchAt(needle, haystack, i) ensures Occurs(needle, haystack) {
      MatchOccurs(needle, haystack, i);
    }
    if needle <= haystack {
      assert MatchAt(needle, haystack, 0);
    } else if Occurs(needle, haystack) {
      var tail := haystack[1..];
      OccursAt(needle, tail);
      var j :| MatchAt(needle, tail, j);
      assert haystack[j + 1..j + 1 + |needle|] == tail[j..j + |needle|];
      assert MatchAt(needle, haystack, j + 1);
    }
  }

  /** A substring of the lower-cased middle of a text is a substring of the
    * whole lower-cased text. */
  lemma OccursInside(needle: string, pre: string, mid: string, post: string)
    requires Occurs(needle, Lower(mid))
    ensures Occurs(needle, Lower(pre + mid + post))
  {
    var part, whole := Lower(mid), pre + mid + post;
    var low := Lower(whole);
    OccursAt(needle, part);
    var i :| MatchAt(needle, part, i);
    var k := |pre| + i;
    forall j | k <= j < k + |needle| ensures low[j] == part[j - |pre|] {
      assert whole[j] == mid[j - |pre|];
    }
    assert low[k..k + |needle|] == part[i..i + |needle|];
    MatchOccurs(needle, low, k);
  }

  // ------------------------------------------------------------- slicing

  /** Python's slice `s[:n]`: the first `n` elements, or all of them. */
  function Take<T>(s: seq<T>, n: nat): (r: seq<T>)
    ensures |r| == if |s| <= n then |s| else n
    ensures r <= s
  {
    if |s| <= n then s else s[..n]
  }

  // ------------------------------------------------------------- numbers

  function DigitChar(d: nat): (c: char)
    requires d < 10
    ensures '0' <= c <= '9' && c as int - '0' as int == d
  {
    ('0' as int + d) as char
  }

  /** The number a string of decimal digits denotes, most significant first. */
  function DigitsValue(s: string): nat
    requires forall i :: 0 <= i < |s| ==> '0' <= s[i] <= '9'
  {
    if s == [] then 0 else DigitsValue(s[..|s| - 1]) * 10 + (s[|s| - 1] as int - '0' as int)
  }

  /** `str(n)` for a non-negative integer: its decimal digits, denoting `n`,
    * without a leading zero except for `0` itself. */
  function NatToString(n: nat): (r: string)
    ensures r != []
    ensures forall i :: 0 <= i < |r| ==> '0' <= r[i] <= '9'
    ensures DigitsValue(r) == n
    ensures r[0] == '0' <==> n == 0
  {
    if n < 10 then [DigitChar(n)]
    else
      var front, last := NatToString(n / 10), DigitChar(n % 10);
      assert (front + [last])[..|front|] == front;
      front + [last]
  }

  // ------------------------------------------------------- concatenation

  /** `out = ""; for x in xs: out += f(x)`. */
  function Concat<T>(xs: seq<T>, f: T -> string): string {
    if xs == [] then "" else Concat(xs[..|xs| - 1], f) + f(xs[|xs| - 1])
  }

  /** Concatenation seen from the front: the first piece, then the rest. */
  lemma {:induction false} ConcatPrepend<T>(x: T, xs: seq<T>, f: T -> string)
    ensures Concat([x] + xs, f) == f(x) + Concat(xs, f)
    decreases |xs|
  {
    var ys := [x] + xs;
    if xs == [] {
      assert ys[..|ys| - 1] == [];
    } else {
      assert ys[..|ys| - 1] == [x] + xs[..|xs| - 1];
      ConcatPrepend(x, xs[..|xs| - 1], f);
    }
  }
}
