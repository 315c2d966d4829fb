/**
 * Python's built-in `int(s)` on a string, and `str(n)` on an integer, its inverse.
 *
 * `int(s)` strips surrounding whitespace (the C-locale set, not `str.isspace`), accepts one optional `+` or `-`, then
 * decimal digits in which single underscores may separate two digits; leading
 * zeros are allowed. Anything else raises ValueError.
 */
module PyInt {
  import opened Wrappers

  /** The two exceptions `int(x)` raises. */
  datatype ConvError = TypeError | ValueError

  /** The whitespace `int()` strips from an ASCII string: tab, line feed, vertical tab, form feed, carriage return and space. */
  predicate IsSpace(c: char) {
    var n := c as int;
    n == 32 || 9 <= n <= 13
  }

  predicate IsDigit(c: char) {
    '0' <= c <= '9'
  }

  /** `s` with its leading whitespace removed. */
  function TrimStart(s: string): (r: string)
    ensures |r| <= |s| && r == s[|s| - |r|..]
    ensures r == [] || !IsSpace(r[0])
    ensures forall i :: 0 <= i < |s| - |r| ==> IsSpace(s[i])
  {
    if s != [] && IsSpace(s[0]) then TrimStart(s[1..]) else s
  }

  /** `s` with its trailing whitespace removed. */
  function TrimEnd(s: string): (r: string)
    ensures |r| <= |s| && r == s[..|r|]
    ensures r == [] || !IsSpace(r[|r| - 1])
    ensures forall i :: |r| <= i < |s| ==> IsSpace(s[i])
  {
    if s != [] && IsSpace(s[|s| - 1]) then TrimEnd(s[..|s| - 1]) else s
  }

  /** Python's `s.strip()` restricted to ASCII whitespace. */
  function Strip(s: string): string {
    TrimEnd(TrimStart(s))
  }

  /**
   * A base-10 digit body as `int` accepts it: non-empty, starting and ending
   * with a digit, and every underscore sitting between two digits.
   */
  predicate WellFormedDigits(d: string) {
    && |d| > 0
    && IsDigit(d[0])
    && forall i :: 0 <= i < |d| ==> DigitOrJoin(d, i)
  }

  /** Position `i` of `d` holds a digit, or an underscore joining two digits. */
  predicate DigitOrJoin(d: string, i: nat)
    requires i < |d|
  {
    IsDigit(d[i]) || (d[i] == '_' && 0 < i < |d| - 1 && IsDigit(d[i + 1]))
  }

  /** The value of a digit body read left to right; underscores carry no value. */
  function DigitsValue(d: string): nat {
    if d == [] then 0
    else if IsDigit(d[|d| - 1]) then DigitsValue(d[..|d| - 1]) * 10 + (d[|d| - 1] as int - '0' as int)
    else DigitsValue(d[..|d| - 1])
  }

  /** `int` on text already stripped of surrounding whitespace: an optional sign, then a digit body. */
  function ParseStripped(t: string): (r: Result<int, ConvError>)
    ensures r.Failure? ==> r.error == ValueError
    ensures r.Success? ==> |t| > 0 && IsDigit(t[|t| - 1])
  {
    var signed := |t| > 0 && (t[0] == '+' || t[0] == '-');
    var body := if signed then t[1..] else t;
    if WellFormedDigits(body) then
      assert DigitOrJoin(body, |body| - 1);
      Success(if signed && t[0] == '-' then -(DigitsValue(body) as int) else DigitsValue(body))
    else
      Failure(ValueError)
  }

  /** Python's `int(s)` for a string `s`. */
  function ParseInt(s: string): (r: Result<int, ConvError>)
    ensures r.Failure? ==> r.error == ValueError
    ensures r.Success? ==> exists i :: 0 <= i < |s| && IsDigit(s[i])
  {
    var t := Strip(s);
    var r := ParseStripped(t);
    if r.Success? then
      assert t == TrimStart(s)[..|t|];
      assert IsDigit(s[|s| - |TrimStart(s)| + |t| - 1]);
      r
    else
      r
  }

  function DigitChar(k: nat): (c: char)
    requires k < 10
    ensures IsDigit(c) && c as int - '0' as int == k
  {
    ('0' as int + k) as char
  }

  /** Python's `str(n)` for a non-negative integer: no sign, no leading zero. */
  function ShowNat(n: nat): (s: string)
    ensures |s| > 0
    ensures forall i :: 0 <= i < |s| ==> IsDigit(s[i])
    ensures |s| > 1 ==> s[0] != '0'
  {
    if n < 10 then [DigitChar(n)] else ShowNat(n / 10) + [DigitChar(n % 10)]
  }

  /** Python's `str(n)` for an integer. */
  function Show(n: int): string {
    if n < 0 then "-" + ShowNat(-n) else ShowNat(n)
  }

  lemma {:induction false} DigitsValueOfShowNat(n: nat)
    ensures DigitsValue(ShowNat(n)) == n
  {
    if n >= 10 {
      var s := ShowNat(n);
      assert s[..|s| - 1] == ShowNat(n / 10);
      DigitsValueOfShowNat(n / 10);
    }
  }

  lemma ShowNatWellFormed(n: nat)
    ensures WellFormedDigits(ShowNat(n))
  {
  }

  /** A string with a non-space character at each end is unchanged by `strip`. */
  lemma StripUnchanged(s: string)
    requires s != [] && !IsSpace(s[0]) && !IsSpace(s[|s| - 1])
    ensures Strip(s) == s
  {
  }

  /** `int(str(n)) == n` for every integer `n`. */
  lemma ParseShow(n: int)
    ensures ParseInt(Show(n)) == Success(n)
  {
    var m := if n < 0 then -n else n;
    ShowNatWellFormed(m);
    DigitsValueOfShowNat(m);
    var s := Show(n);
    StripUnchanged(s);
    if n < 0 {
      assert s[1..] == ShowNat(m);
    }
  }

  /** A character of `s` that is not whitespace is still in `strip(s)`, at the matching offset. */
  lemma StripKeeps(s: string, i: nat)
    requires i < |s| && !IsSpace(s[i])
    ensures var lead := |s| - |TrimStart(s)|;
      lead <= i < lead + |Strip(s)| && Strip(s)[i - lead] == s[i]
  {
  }

  /** Empty and all-whitespace strings raise ValueError. */
  lemma ParseRejectsBlank(s: string)
    requires forall i :: 0 <= i < |s| ==> IsSpace(s[i])
    ensures ParseInt(s) == Failure(ValueError)
  {
  }

  /** A character that is neither a digit, an underscore, a sign nor whitespace makes `int` raise ValueError. */
  lemma ParseRejectsForeign(s: string, i: nat)
    requires i < |s|
    requires !IsDigit(s[i]) && s[i] != '_' && s[i] != '+' && s[i] != '-' && !IsSpace(s[i])
    ensures ParseInt(s) == Failure(ValueError)
  {
    StripKeeps(s, i);
    var t := Strip(s);
    var j := i - (|s| - |TrimStart(s)|);
    var signed := |t| > 0 && (t[0] == '+' || t[0] == '-');
    var body := if signed then t[1..] else t;
    var k := if signed then j - 1 else j;
    assert 0 <= k < |body| && body[k] == s[i];
    assert !DigitOrJoin(body, k);
  }

  /** Whitespace on either side of the digits is ignored: `int(" 42\n") == 42`. */
  lemma ParsePadded(n: int, pre: string, post: string)
    requires forall i :: 0 <= i < |pre| ==> IsSpace(pre[i])
    requires forall i :: 0 <= i < |post| ==> IsSpace(post[i])
    ensures ParseInt(pre + Show(n) + post) == Success(n)
  {
    var shown := Show(n);
    var s := pre + shown + post;
    TrimStartPadded(pre, shown + post);
    assert s == pre + (shown + post);
    TrimEndPadded(shown, post);
    assert Strip(s) == shown;
    ParseShow(n);
    StripUnchanged(shown);
  }

  lemma {:induction false} TrimStartPadded(pre: string, rest: string)
    requires forall i :: 0 <= i < |pre| ==> IsSpace(pre[i])
    requires rest != [] && !IsSpace(rest[0])
    ensures TrimStart(pre + rest) == rest
  {
    if pre != [] {
      assert (pre + rest)[1..] == pre[1..] + rest;
      TrimStartPadded(pre[1..], rest);
    }
  }

  lemma {:induction false} TrimEndPadded(body: string, post: string)
    requires forall i :: 0 <= i < |post| ==> IsSpace(post[i])
    requires body != [] && !IsSpace(body[|body| - 1])
    ensures TrimEnd(body + post) == body
  {
    if post != [] {
      var last := |post| - 1;
      assert (body + post)[..|body + post| - 1] == body + post[..last];
      TrimEndPadded(body, post[..last]);
    } else {
      assert body + post == body;
    }
  }
}
