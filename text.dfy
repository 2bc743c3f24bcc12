/**
 * The few pieces of Go's standard library the session logic depends on, stated over
 * `string` = `seq<char>` (a sequence of Unicode scalar values):
 *  - `len(s)`, which counts the bytes of the UTF-8 encoding, not characters;
 *  - `fmt.Sprintf("%d", n)` and `fmt.Sprintf("%v", b)` for `int` and `bool`;
 *  - the language `strconv.Atoi` accepts on a 64-bit platform;
 *  - `strings.TrimSpace` (with `unicode.IsSpace`) and `strings.ToLower`.
 */
module Text {
  import opened Base

  // ---------------------------------------------------------------- len(s)

  /** Number of bytes the UTF-8 encoding of `c` takes. */
  function Utf8Width(c: char): nat
  {
    if c as int < 0x80 then 1
    else if c as int < 0x800 then 2
    else if c as int < 0x1_0000 then 3
    else 4
  }

  /** Go's `len(s)` for a string: its length in UTF-8 bytes. */
  function ByteLen(s: string): (n: nat)
    ensures |s| <= n <= 4 * |s|
  {
    if s == [] then 0 else Utf8Width(s[0]) + ByteLen(s[1..])
  }

  predicate IsAscii(s: string)
  {
    forall i :: 0 <= i < |s| ==> s[i] as int < 0x80
  }

  /** For ASCII text the byte length is the character count. */
  lemma {:induction false} ByteLenAscii(s: string)
    requires IsAscii(s)
    ensures ByteLen(s) == |s|
  {
    if s != [] {
      assert IsAscii(s[1..]) by {
        forall i | 0 <= i < |s[1..]| ensures s[1..][i] as int < 0x80 {
          assert s[1..][i] == s[i + 1];
        }
      }
      ByteLenAscii(s[1..]);
    }
  }

  // ---------------------------------------------------------------- decimal numbers

  predicate IsDigit(c: char)
  {
    '0' <= c <= '9'
  }

  predicate AllDigits(s: string)
  {
    forall i :: 0 <= i < |s| ==> IsDigit(s[i])
  }

  function DigitChar(d: nat): (c: char)
    requires d < 10
    ensures IsDigit(c) && c as int - '0' as int == d
  {
    (d + '0' as int) as char
  }

  /** The number a string of decimal digits denotes. */
  function DigitsValue(s: string): nat
    requires AllDigits(s)
  {
    if s == [] then 0 else DigitsValue(s[..|s| - 1]) * 10 + (s[|s| - 1] as int - '0' as int)
  }

  /** The shortest decimal digit string of `n`, as `%d` prints it. */
  function NatDigits(n: nat): (s: string)
    ensures |s| >= 1 && AllDigits(s)
    ensures n >= 10 ==> s[0] != '0'
    decreases n
  {
    if n < 10 then [DigitChar(n)] else NatDigits(n / 10) + [DigitChar(n % 10)]
  }

  /** `fmt.Sprintf("%d", i)`. */
  function Decimal(i: int): (r: string)
    ensures |r| >= 1
    ensures r[0] == '-' <==> i < 0
    ensures i >= 0 ==> AllDigits(r)
    ensures i < 0 ==> |r| >= 2 && AllDigits(r[1..])
    ensures i != 0 ==> r[if i < 0 then 1 else 0] != '0'
  {
    if i < 0 then "-" + NatDigits(-i) else NatDigits(i)
  }

  /** `fmt.Sprintf("%v", b)` for a `bool`. */
  function BoolText(b: bool): (r: string)
    ensures r == "true" <==> b
    ensures r == "false" <==> !b
    ensures Atoi(r).None?
  {
    if b then "true" else "false"
  }

  const MinInt: int := -0x8000_0000_0000_0000
  const MaxInt: int := 0x7FFF_FFFF_FFFF_FFFF

  /**
   * What `strconv.Atoi` returns on a 64-bit platform: an optional `+` or `-`, then at least
   * one decimal digit and nothing else, denoting a value in the range of `int`; `None` is
   * the returned error (a syntax or a range error).
   */
  function Atoi(s: string): (r: Option<int>)
    ensures r.Some? ==> MinInt <= r.value <= MaxInt
    ensures s == [] ==> r.None?
  {
    var signed := |s| > 0 && (s[0] == '+' || s[0] == '-');
    var body := if signed then s[1..] else s;
    if body == [] || !AllDigits(body) then None
    else
      var v: int := if signed && s[0] == '-' then -(DigitsValue(body) as int) else DigitsValue(body);
      if MinInt <= v <= MaxInt then Some(v) else None
  }

  lemma {:induction false} NatDigitsValue(n: nat)
    ensures DigitsValue(NatDigits(n)) == n
    decreases n
  {
    if n >= 10 {
      var s := NatDigits(n);
      assert s[..|s| - 1] == NatDigits(n / 10);
      NatDigitsValue(n / 10);
    }
  }

  /** `%d` and `Atoi` are inverse on the range of `int`: every printed `int` parses back. */
  lemma DecimalRoundTrip(i: int)
    requires MinInt <= i <= MaxInt
    ensures Atoi(Decimal(i)) == Some(i)
  {
    if i < 0 {
      var s := Decimal(i);
      assert s[1..] == NatDigits(-i);
      NatDigitsValue(-i);
    } else {
      NatDigitsValue(i);
    }
  }

  // ---------------------------------------------------------------- TrimSpace, ToLower

  /** `unicode.IsSpace`: the Unicode White_Space characters. */
  predicate IsSpace(c: char): (b: bool)
    ensures c as int < 0x80 ==> (b <==> c == ' ' || '\t' <= c <= '\r')
    ensures b ==> !IsDigit(c) && !('A' <= c <= 'Z') && !('a' <= c <= 'z')
  {
    || c == '\t' || c == '\n' || c == '\U{B}' || c == '\U{C}' || c == '\r' || c == ' '
    || c == '\U{85}' || c == '\U{A0}' || c == '\U{1680}'
    || ('\U{2000}' <= c <= '\U{200A}')
    || c == '\U{2028}' || c == '\U{2029}' || c == '\U{202F}' || c == '\U{205F}' || c == '\U{3000}'
  }

  predicate AllSpace(s: string)
  {
    forall i :: 0 <= i < |s| ==> IsSpace(s[i])
  }

  function TrimLeft(s: string): string
  {
    if |s| > 0 && IsSpace(s[0]) then TrimLeft(s[1..]) else s
  }

  function TrimRight(s: string): string
  {
    if |s| > 0 && IsSpace(s[|s| - 1]) then TrimRight(s[..|s| - 1]) else s
  }

  /** `strings.TrimSpace`: drop the leading and the trailing white space. */
  function TrimSpace(s: string): (r: string)
    ensures r == [] || (!IsSpace(r[0]) && !IsSpace(r[|r| - 1]))
  {
    TrimLeftEdge(s);
    TrimRightEdge(TrimLeft(s));
    TrimRightKeepsFirst(TrimLeft(s));
    TrimRight(TrimLeft(s))
  }

  lemma {:induction false} TrimLeftEdge(s: string)
    ensures TrimLeft(s) == [] || !IsSpace(TrimLeft(s)[0])
  {
    if |s| > 0 && IsSpace(s[0]) { TrimLeftEdge(s[1..]); }
  }

  lemma {:induction false} TrimRightEdge(s: string)
    ensures TrimRight(s) == [] || !IsSpace(TrimRight(s)[|TrimRight(s)| - 1])
  {
    if |s| > 0 && IsSpace(s[|s| - 1]) { TrimRightEdge(s[..|s| - 1]); }
  }

  /** Trimming the right end of a text that starts with non-space keeps that start. */
  lemma {:induction false} TrimRightKeepsFirst(s: string)
    requires s == [] || !IsSpace(s[0])
    ensures TrimRight(s) == [] || TrimRight(s)[0] == s[0]
  {
    if |s| > 0 && IsSpace(s[|s| - 1]) {
      assert |s| > 1;
      TrimRightKeepsFirst(s[..|s| - 1]);
    }
  }

  /** ASCII upper-case letters lowered; every other character kept. */
  function LowerChar(c: char): char
  {
    if 'A' <= c <= 'Z' then (c as int + 32) as char else c
  }

  /** `strings.ToLower`, on the ASCII letters. */
  function ToLower(s: string): (r: string)
    ensures |r| == |s|
    ensures forall i :: 0 <= i < |s| && 'A' <= s[i] <= 'Z' ==> r[i] as int == s[i] as int + 32
    ensures forall i :: 0 <= i < |s| && !('A' <= s[i] <= 'Z') ==> r[i] == s[i]
    ensures forall i :: 0 <= i < |r| ==> !('A' <= r[i] <= 'Z')
  {
    seq(|s|, i requires 0 <= i < |s| => LowerChar(s[i]))
  }

  /** Leading white space is exactly what TrimLeft removes. */
  lemma {:induction false} TrimLeftSplit(s: string)
    ensures exists p :: AllSpace(p) && s == p + TrimLeft(s)
  {
    if |s| > 0 && IsSpace(s[0]) {
      TrimLeftSplit(s[1..]);
      var p :| AllSpace(p) && s[1..] == p + TrimLeft(s[1..]);
      assert AllSpace([s[0]] + p);
      assert s == ([s[0]] + p) + TrimLeft(s);
    } else {
      assert AllSpace([]) && s == [] + TrimLeft(s);
    }
  }

  /** Trailing white space is exactly what TrimRight removes. */
  lemma {:induction false} TrimRightSplit(s: string)
    ensures exists q :: AllSpace(q) && s == TrimRight(s) + q
  {
    if |s| > 0 && IsSpace(s[|s| - 1]) {
      var s' := s[..|s| - 1];
      TrimRightSplit(s');
      var q :| AllSpace(q) && s' == TrimRight(s') + q;
      assert AllSpace(q + [s[|s| - 1]]);
      assert s == TrimRight(s) + (q + [s[|s| - 1]]);
    } else {
      assert AllSpace([]) && s == TrimRight(s) + [];
    }
  }

  /** TrimSpace removes white space around the text and nothing else. */
  lemma TrimSpaceSplit(s: string)
    ensures exists p, q :: AllSpace(p) && AllSpace(q) && s == p + TrimSpace(s) + q
  {
    TrimLeftSplit(s);
    var p :| AllSpace(p) && s == p + TrimLeft(s);
    TrimRightSplit(TrimLeft(s));
    var q :| AllSpace(q) && TrimLeft(s) == TrimRight(TrimLeft(s)) + q;
    assert s == p + TrimSpace(s) + q;
  }

  lemma {:induction false} TrimLeftPadded(p: string, w: string)
    requires AllSpace(p) && w != [] && !IsSpace(w[0])
    ensures TrimLeft(p + w) == w
  {
    if p != [] {
      assert (p + w)[0] == p[0];
      assert (p + w)[1..] == p[1..] + w;
      TrimLeftPadded(p[1..], w);
    } else {
      assert p + w == w;
    }
  }

  lemma {:induction false} TrimRightPadded(w: string, q: string)
    requires AllSpace(q) && w != [] && !IsSpace(w[|w| - 1])
    ensures TrimRight(w + q) == w
  {
    if q != [] {
      var q' := q[..|q| - 1];
      assert (w + q)[|w + q| - 1] == q[|q| - 1];
      assert (w + q)[..|w + q| - 1] == w + q';
      TrimRightPadded(w, q');
    } else {
      assert w + q == w;
    }
  }

  /** A text with no white space at either end is what TrimSpace returns from any padding of it. */
  lemma TrimSpacePadded(p: string, w: string, q: string)
    requires AllSpace(p) && AllSpace(q)
    requires w != [] && !IsSpace(w[0]) && !IsSpace(w[|w| - 1])
    ensures TrimSpace(p + w + q) == w
  {
    assert p + w + q == p + (w + q);
    assert (w + q)[0] == w[0];
    TrimLeftPadded(p, w + q);
    TrimRightPadded(w, q);
  }
}
