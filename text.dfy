/**
 * The small pieces of JavaScript value and string semantics the page relies on:
 * truthiness of optional strings and `||` fallbacks, `slice(0, n)`, the decimal
 * rendering of integers in template strings, `split`/`join`, and upper-casing the
 * first character of a word.
 */
module Text {
  import opened Wrappers

  // ----- truthiness and `||` fallbacks -----

  /** JavaScript truthiness of a string-valued property: absent and '' are falsy. */
  predicate Truthy(o: Option<string>) {
    o.Some? && o.value != ""
  }

  /** `o || fallback` for a string-valued property. */
  function OrElse(o: Option<string>, fallback: string): (r: string)
    ensures Truthy(o) ==> Some(r) == o
    ensures !Truthy(o) ==> r == fallback
    ensures fallback != "" ==> r != ""
  {
    if o.Some? && o.value != "" then o.value else fallback
  }

  // ----- Array.prototype.slice(0, n) -----

  /** `s.slice(0, n)`: the first `n` elements, or all of them when there are fewer. */
  function Take<T>(s: seq<T>, n: nat): (r: seq<T>)
    ensures |r| == if |s| < n then |s| else n
    ensures forall i :: 0 <= i < |r| ==> r[i] == s[i]
  {
    if |s| <= n then s else s[..n]
  }

  /** `s.slice(0, n).map(f)`: the first `n` elements, or all of them, each mapped through `f`. */
  function TakeMap<T, U>(s: seq<T>, n: nat, f: T -> U): (r: seq<U>)
    ensures |r| == if |s| < n then |s| else n
    ensures forall i :: 0 <= i < |r| ==> r[i] == f(s[i])
  {
    var shown := Take(s, n);
    seq(|shown|, i requires 0 <= i < |shown| => f(shown[i]))
  }

  // ----- decimal rendering of integers -----

  predicate IsDigit(c: char) {
    '0' <= c <= '9'
  }

  predicate AllDigits(s: string) {
    forall i :: 0 <= i < |s| ==> IsDigit(s[i])
  }

  function DigitChar(d: nat): (c: char)
    requires d < 10
    ensures IsDigit(c)
  {
    "0123456789"[d]
  }

  /** How `${n}` renders a non-negative integer. */
  function NatToDecimal(n: nat): (r: string)
    ensures r != [] && AllDigits(r)
    ensures |r| > 1 ==> r[0] != '0'
  {
    if n < 10 then [DigitChar(n)] else NatToDecimal(n / 10) + [DigitChar(n % 10)]
  }

  /** The number a string of decimal digits denotes, reading it the way it was written. */
  function DecimalValue(s: string): (n: nat)
    requires AllDigits(s)
  {
    if s == [] then 0 else 10 * DecimalValue(s[..|s| - 1]) + (s[|s| - 1] as int - '0' as int)
  }

  /** Reading back a rendered natural number gives that number. */
  lemma {:induction false} DecimalRoundTrip(n: nat)
    ensures DecimalValue(NatToDecimal(n)) == n
  {
    var r := NatToDecimal(n);
    if n >= 10 {
      DecimalRoundTrip(n / 10);
      assert r[..|r| - 1] == NatToDecimal(n / 10);
    }
  }

  /**
   * How `${n}` renders an integer of magnitude below 1e21: a minus sign for a negative
   * one, then the digits of its magnitude without leading zeros.
   */
  function IntToDecimal(n: int): (r: string)
    ensures r != []
    ensures n >= 0 <==> IsDigit(r[0])
    ensures n < 0 <==> r[0] == '-'
    ensures n >= 0 ==> AllDigits(r) && DecimalValue(r) == n
    ensures n < 0 ==> AllDigits(r[1..]) && DecimalValue(r[1..]) == -n
    ensures var digits := if n >= 0 then r else r[1..]; |digits| > 1 ==> digits[0] != '0'
  {
    if n >= 0 then
      DecimalRoundTrip(n);
      NatToDecimal(n)
    else
      var digits := NatToDecimal(-n);
      DecimalRoundTrip(-n);
      assert ("-" + digits)[1..] == digits;
      "-" + digits
  }

  // ----- String.prototype.split / Array.prototype.join on one character -----

  /** `s.split(d)` for a one-character separator: always at least one piece. */
  function Split(s: string, d: char): (parts: seq<string>)
    ensures |parts| >= 1
    ensures forall i, j :: 0 <= i < |parts| && 0 <= j < |parts[i]| ==> parts[i][j] != d
  {
    if s == [] then [""]
    else
      var rest := Split(s[1..], d);
      if s[0] == d then [""] + rest else [[s[0]] + rest[0]] + rest[1..]
  }

  /** `parts.join(d)` for a one-character separator. */
  function Join(parts: seq<string>, d: char): string {
    if parts == [] then ""
    else if |parts| == 1 then parts[0]
    else parts[0] + [d] + Join(parts[1..], d)
  }

  /** Every occurrence of `a` in `s` replaced by `b`. */
  function Replace(s: string, a: char, b: char): (r: string)
    ensures |r| == |s|
  {
    if s == [] then "" else [if s[0] == a then b else s[0]] + Replace(s[1..], a, b)
  }

  /** Splitting on `a` and joining on `b` replaces each `a` with `b`. */
  lemma {:induction false} JoinSplit(s: string, a: char, b: char)
    ensures Join(Split(s, a), b) == Replace(s, a, b)
  {
    if s != [] {
      var rest := Split(s[1..], a);
      JoinSplit(s[1..], a, b);
      if s[0] == a {
        assert Split(s, a) == [""] + rest;
        assert ([""] + rest)[1..] == rest;
      } else if |rest| == 1 {
        assert Split(s, a) == [[s[0]] + rest[0]];
      } else {
        var parts := Split(s, a);
        assert parts == [[s[0]] + rest[0]] + rest[1..];
        assert parts[1..] == rest[1..];
        assert Join(rest, b) == rest[0] + [b] + Join(rest[1..], b);
      }
    }
  }

  /** The characters of `s` after replacement never include `a`, unless `b` is `a`. */
  lemma {:induction false} ReplaceRemoves(s: string, a: char, b: char, c: char)
    requires c != b && (c == a || forall i :: 0 <= i < |s| ==> s[i] != c)
    ensures forall i :: 0 <= i < |s| ==> Replace(s, a, b)[i] != c
  {
    if s != [] {
      ReplaceRemoves(s[1..], a, b, c);
      var r := Replace(s, a, b);
      assert r == [if s[0] == a then b else s[0]] + Replace(s[1..], a, b);
      forall i | 1 <= i < |s| ensures r[i] != c {
        assert r[i] == Replace(s[1..], a, b)[i - 1];
      }
    }
  }

  /** The first piece of `s.split(d)` is the longest prefix of `s` free of `d`. */
  lemma {:induction false} SplitFirstIsPrefix(s: string, d: char)
    ensures var first := Split(s, d)[0];
      && |first| <= |s| && first == s[..|first|]
      && (|first| < |s| ==> s[|first|] == d)
  {
    if s != [] {
      SplitFirstIsPrefix(s[1..], d);
    }
  }

  // ----- String.prototype.toUpperCase on one character -----

  predicate IsAsciiLower(c: char) {
    'a' <= c <= 'z'
  }

  /** Upper-cases an ASCII lower-case letter and leaves every other character alone. */
  function AsciiUpper(c: char): (u: char)
    ensures IsAsciiLower(c) ==> 'A' <= u <= 'Z' && u as int == c as int - 32
    ensures !IsAsciiLower(c) ==> u == c
  {
    if IsAsciiLower(c) then (c as int - 32) as char else c
  }

  /** `s.charAt(0).toUpperCase() + s.slice(1)`. */
  function Capitalize(s: string): (r: string)
    ensures |r| == |s|
    ensures s != [] ==> r[0] == AsciiUpper(s[0]) && r[1..] == s[1..]
  {
    if s == [] then "" else [AsciiUpper(s[0])] + s[1..]
  }
}
