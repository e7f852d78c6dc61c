/**
 * The .NET string operations the data endpoint relies on: String.Split on one character and
 * int.Parse with NumberStyles.Integer under the invariant culture.
 */
module Text {
  import opened Wrappers

  const Int32Min: int := -0x8000_0000
  const Int32Max: int := 0x7FFF_FFFF

  /** The index of the first `c` in `s`. */
  function IndexOf(s: string, c: char): (i: nat)
    requires c in s
    ensures i < |s| && s[i] == c && c !in s[..i]
  {
    if s[0] == c then 0
    else
      assert s == [s[0]] + s[1..];
      1 + IndexOf(s[1..], c)
  }

  /** The first separator after a text free of it is right after that text. */
  lemma {:induction false} IndexAfter(x: string, c: char, rest: string)
    requires c !in x
    ensures IndexOf(x + [c] + rest, c) == |x|
  {
    if x != [] {
      IndexAfter(x[1..], c, rest);
      assert (x + [c] + rest)[1..] == x[1..] + [c] + rest;
    }
  }

  /** String.Split(c): the text before the first `c`, then the pieces of the rest; `[s]` without a `c`. */
  function Split(s: string, c: char): (r: seq<string>)
    ensures |r| >= 1
    ensures forall i :: 0 <= i < |r| ==> c !in r[i]
    decreases |s|
  {
    if c in s then
      var i := IndexOf(s, c);
      [s[..i]] + Split(s[i + 1..], c)
    else [s]
  }

  /** String.Join(c, pieces). */
  function Join(pieces: seq<string>, c: char): string
    requires |pieces| >= 1
  {
    if |pieces| == 1 then pieces[0] else pieces[0] + [c] + Join(pieces[1..], c)
  }

  /** Splitting loses nothing: joining the pieces with the separator gives the string back. */
  lemma {:induction false} SplitJoin(s: string, c: char)
    ensures Join(Split(s, c), c) == s
    decreases |s|
  {
    if c in s {
      var i := IndexOf(s, c);
      var rest := s[i + 1..];
      SplitJoin(rest, c);
      var pieces := Split(s, c);
      assert pieces == [s[..i]] + Split(rest, c);
      assert pieces[1..] == Split(rest, c);
      assert Join(pieces, c) == s[..i] + [c] + Join(Split(rest, c), c);
      assert s == s[..i] + [c] + rest;
    }
  }

  /** A separator-free text followed by the separator splits off as the first piece. */
  lemma SplitAfter(x: string, c: char, rest: string)
    requires c !in x
    ensures Split(x + [c] + rest, c) == [x] + Split(rest, c)
  {
    var s := x + [c] + rest;
    assert s[|x|] == c;
    IndexAfter(x, c, rest);
    assert s[..|x|] == x;
    assert s[|x| + 1..] == rest;
  }

  /** Joining pieces free of the separator and splitting again gives the pieces back. */
  lemma {:induction false} JoinSplit(pieces: seq<string>, c: char)
    requires |pieces| >= 1 && forall i :: 0 <= i < |pieces| ==> c !in pieces[i]
    ensures Split(Join(pieces, c), c) == pieces
  {
    if |pieces| > 1 {
      JoinSplit(pieces[1..], c);
      SplitAfter(pieces[0], c, Join(pieces[1..], c));
      assert pieces == [pieces[0]] + pieces[1..];
    }
  }

  /** Char.IsWhiteSpace as number parsing sees it: space and the controls \t to \r. */
  predicate IsWhite(ch: char) {
    ch == ' ' || '\t' <= ch <= '\r'
  }

  predicate IsDigit(ch: char) {
    '0' <= ch <= '9'
  }

  /** The index after the run of `p`-characters that starts at `i`. */
  function Skip(s: string, i: nat, p: char -> bool): (r: nat)
    requires i <= |s|
    ensures i <= r <= |s|
    ensures forall k :: i <= k < r ==> p(s[k])
    ensures r < |s| ==> !p(s[r])
    decreases |s| - i
  {
    if i < |s| && p(s[i]) then Skip(s, i + 1, p) else i
  }

  /** The value of a run of decimal digits. */
  function DigitsValue(ds: string): nat
    requires forall k :: 0 <= k < |ds| ==> IsDigit(ds[k])
  {
    if ds == [] then 0
    else
      assert IsDigit(ds[|ds| - 1]);
      DigitsValue(ds[..|ds| - 1]) * 10 + (ds[|ds| - 1] as int - '0' as int)
  }

  /**
   * int.Parse: leading white space, an optional sign, at least one digit, trailing white space
   * and then only NUL characters; anything else is a FormatException, and a well-formed number
   * outside the 32-bit range an OverflowException.
   */
  function ParseInt32(s: string): (r: Result<int>)
    ensures r.Ok? ==> Int32Min <= r.value <= Int32Max
    ensures r.Err? ==> r.error == Format || r.error == Overflow
  {
    var a := Skip(s, 0, IsWhite);
    var negative := a < |s| && s[a] == '-';
    var b := if a < |s| && (s[a] == '-' || s[a] == '+') then a + 1 else a;
    ParseDigitsFrom(s, b, negative)
  }

  /** The digits from `b` on, then white space and NUL characters to the end. */
  function ParseDigitsFrom(s: string, b: nat, negative: bool): (r: Result<int>)
    requires b <= |s|
    ensures r.Ok? ==> Int32Min <= r.value <= Int32Max
    ensures r.Err? ==> r.error == Format || r.error == Overflow
  {
    var c := Skip(s, b, IsDigit);
    var d := Skip(s, c, IsWhite);
    var e := Skip(s, d, (ch: char) => ch == '\0');
    if c == b || e != |s| then Err(Format) else Signed(DigitsValue(s[b..c]), negative)
  }

  /** The signed value of a magnitude, or an OverflowException outside the 32-bit range. */
  function Signed(magnitude: nat, negative: bool): (r: Result<int>)
    ensures r.Ok? ==> Int32Min <= r.value <= Int32Max
    ensures r.Err? ==> r.error == Overflow
  {
    var v: int := if negative then -(magnitude as int) else magnitude;
    if Int32Min <= v <= Int32Max then Ok(v) else Err(Overflow)
  }

  function DigitChar(d: int): char
    requires 0 <= d <= 9
  {
    ('0' as int + d) as char
  }

  /** The shortest decimal digits of a natural number. */
  function Digits(n: nat): (r: string)
    ensures |r| >= 1 && forall k :: 0 <= k < |r| ==> IsDigit(r[k])
  {
    if n < 10 then [DigitChar(n)] else Digits(n / 10) + [DigitChar(n % 10)]
  }

  /** Int32.ToString(): a minus sign for a negative number, then its digits. */
  function Render(n: int): string {
    if n < 0 then "-" + Digits(-n) else Digits(n)
  }

  lemma {:induction false} DigitsValueOf(n: nat)
    ensures DigitsValue(Digits(n)) == n
  {
    if n >= 10 {
      DigitsValueOf(n / 10);
      var ds := Digits(n);
      assert ds[..|ds| - 1] == Digits(n / 10);
    }
  }

  /** int.Parse on an optional minus sign followed by digits: the signed value of the digits. */
  lemma ParseSignedDigits(sign: string, ds: string)
    requires sign == "" || sign == "-"
    requires |ds| >= 1 && forall k :: 0 <= k < |ds| ==> IsDigit(ds[k])
    ensures ParseInt32(sign + ds) == Signed(DigitsValue(ds), sign == "-")
  {
    var s := sign + ds;
    var b := |sign|;
    assert s[b..] == ds;
    if sign == "-" {
      assert s[0] == '-' && !IsWhite('-');
    } else {
      assert s[0] == ds[0] && IsDigit(ds[0]);
      assert !IsWhite(s[0]) && s[0] != '-' && s[0] != '+';
    }
    assert Skip(s, 0, IsWhite) == 0;
    DigitsToEnd(s, b);
  }

  /** A non-empty run of digits up to the end reads as its value. */
  lemma DigitsToEnd(s: string, b: nat)
    requires b < |s| && forall k :: b <= k < |s| ==> IsDigit(s[k])
    ensures ParseDigitsFrom(s, b, true) == Signed(DigitsValue(s[b..]), true)
    ensures ParseDigitsFrom(s, b, false) == Signed(DigitsValue(s[b..]), false)
  {
    DigitsRun(s, b);
    assert Skip(s, |s|, IsWhite) == |s|;
    assert s[b..|s|] == s[b..];
  }

  /** int.Parse reads back every 32-bit number as rendered. */
  lemma ParseRender(n: int)
    requires Int32Min <= n <= Int32Max
    ensures ParseInt32(Render(n)) == Ok(n)
  {
    var m := if n < 0 then -n else n;
    DigitsValueOf(m);
    ParseSignedDigits(if n < 0 then "-" else "", Digits(m));
    assert Render(n) == (if n < 0 then "-" else "") + Digits(m);
  }

  /** A run of digits to the end of the string is skipped entirely. */
  lemma {:induction false} DigitsRun(s: string, b: nat)
    requires b <= |s| && forall k :: b <= k < |s| ==> IsDigit(s[k])
    ensures Skip(s, b, IsDigit) == |s|
    decreases |s| - b
  {
    if b < |s| {
      DigitsRun(s, b + 1);
    }
  }
}
