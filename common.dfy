// Shared vocabulary: optional values, Python exceptions as values,
// Python's character classes, `str.strip`, decimal digit strings and `float()`.

module Common {

  /** A value that may be absent (Python `None`). Usable with `:-`. */
  datatype Option<T> = None | Some(value: T)
  {
    predicate IsFailure() { None? }

    function PropagateFailure<U>(): Option<U>
      requires None?
    {
      None
    }

    function Extract(): T
      requires Some?
    {
      value
    }
  }

  /** The Python exceptions the modelled code can raise. */
  datatype PyError = ValueError | TypeError | IndexError | KeyError | ZeroDivisionError

  /** The result of a Python call: a value, or the exception it raises. Usable with `:-`. */
  datatype Outcome<T> = Ok(value: T) | Raises(error: PyError)
  {
    predicate IsFailure() { Raises? }

    function PropagateFailure<U>(): Outcome<U>
      requires Raises?
    {
      Raises(error)
    }

    function Extract(): T
      requires Ok?
    {
      value
    }
  }

  // ---------------------------------------------------------------------------
  // Characters

  /** ASCII decimal digit (the part of Python's `\d` this model covers). */
  predicate IsDigit(c: char)
  {
    '0' <= c <= '9'
  }

  function DigitValue(c: char): nat
    requires IsDigit(c)
  {
    (c as int - '0' as int) as nat
  }

  /** Python's `str.isspace` characters, the set `str.strip()` removes. */
  predicate IsSpace(c: char)
  {
    c == ' ' || ('\t' <= c <= '\r') || ('\U{1c}' <= c <= '\U{1f}')
    || c == '\U{85}' || c == '\U{a0}' || c == '\U{1680}'
    || ('\U{2000}' <= c <= '\U{200a}') || c == '\U{2028}' || c == '\U{2029}'
    || c == '\U{202f}' || c == '\U{205f}' || c == '\U{3000}'
  }

  predicate AllDigits(s: string)
  {
    forall i :: 0 <= i < |s| ==> IsDigit(s[i])
  }

  predicate StartsWith(s: string, prefix: string)
  {
    |prefix| <= |s| && s[..|prefix|] == prefix
  }

  // ---------------------------------------------------------------------------
  // str.strip()

  /** `s.lstrip()`: the longest suffix of `s` that does not start with whitespace. */
  function StripLeft(s: string): (r: string)
    ensures |r| <= |s| && r == s[|s| - |r|..]
    ensures forall k :: 0 <= k < |s| - |r| ==> IsSpace(s[k])
    ensures r != [] ==> !IsSpace(r[0])
    decreases |s|
  {
    if s != [] && IsSpace(s[0]) then StripLeft(s[1..]) else s
  }

  /** `s.rstrip()`: the longest prefix of `s` that does not end with whitespace. */
  function StripRight(s: string): (r: string)
    ensures |r| <= |s| && r == s[..|r|]
    ensures forall k :: |r| <= k < |s| ==> IsSpace(s[k])
    ensures r != [] ==> !IsSpace(r[|r| - 1])
    decreases |s|
  {
    if s != [] && IsSpace(s[|s| - 1]) then StripRight(s[..|s| - 1]) else s
  }

  /** `s.strip()`: `s` without its leading and trailing whitespace. */
  function Strip(s: string): (r: string)
    ensures |r| <= |s|
    ensures r != [] ==> !IsSpace(r[0]) && !IsSpace(r[|r| - 1])
    ensures (forall k :: 0 <= k < |s| ==> IsSpace(s[k])) <==> r == []
  {
    StripRight(StripLeft(s))
  }

  /** Text without surrounding whitespace is left unchanged by `strip`. */
  lemma StripUnchanged(s: string)
    requires s != [] ==> !IsSpace(s[0]) && !IsSpace(s[|s| - 1])
    ensures Strip(s) == s
  {
    assert StripLeft(s) == s;
  }

  /** Stripping twice is stripping once. */
  lemma StripIdempotent(s: string)
    ensures Strip(Strip(s)) == Strip(s)
  {
    StripUnchanged(Strip(s));
  }

  lemma {:induction false} StripLeftPadded(pre: string, s: string)
    requires forall k :: 0 <= k < |pre| ==> IsSpace(pre[k])
    requires s == [] || !IsSpace(s[0])
    ensures StripLeft(pre + s) == s
    decreases |pre|
  {
    if pre != [] {
      assert (pre + s)[1..] == pre[1..] + s;
      StripLeftPadded(pre[1..], s);
    } else {
      assert pre + s == s;
    }
  }

  lemma {:induction false} StripRightPadded(s: string, post: string)
    requires forall k :: 0 <= k < |post| ==> IsSpace(post[k])
    requires s == [] || !IsSpace(s[|s| - 1])
    ensures StripRight(s + post) == s
    decreases |post|
  {
    if post != [] {
      assert (s + post)[..|s + post| - 1] == s + post[..|post| - 1];
      StripRightPadded(s, post[..|post| - 1]);
    } else {
      assert s + post == s;
    }
  }

  /** Whitespace on either side does not change the stripped text. */
  lemma StripPadded(pre: string, s: string, post: string)
    requires forall k :: 0 <= k < |pre| ==> IsSpace(pre[k])
    requires forall k :: 0 <= k < |post| ==> IsSpace(post[k])
    requires s != [] && !IsSpace(s[0]) && !IsSpace(s[|s| - 1])
    ensures Strip(pre + s + post) == s
  {
    assert pre + s + post == pre + (s + post);
    StripLeftPadded(pre, s + post);
    StripRightPadded(s, post);
  }

  // ---------------------------------------------------------------------------
  // Decimal digit strings, `int()` on them and `str()` of a natural number

  /** The value of a string of decimal digits (Python `int()` on `\d+`). */
  function DigitsValue(s: string): nat
    requires AllDigits(s)
  {
    if s == [] then 0 else DigitsValue(s[..|s| - 1]) * 10 + DigitValue(s[|s| - 1])
  }

  function DigitChar(d: nat): (c: char)
    requires d < 10
    ensures IsDigit(c) && DigitValue(c) == d
  {
    ('0' as int + d) as char
  }

  /** `str(n)`: the decimal digits of `n`, without leading zeros. */
  function NatToString(n: nat): (s: string)
    ensures s != [] && AllDigits(s)
    ensures |s| > 1 ==> s[0] != '0'
    ensures DigitsValue(s) == n
  {
    var last := [DigitChar(n % 10)];
    if n < 10 then last
    else
      var front := NatToString(n / 10);
      var s := front + last;
      assert s[..|s| - 1] == front;
      s
  }

  /** `str(n)` for any integer. */
  function IntToString(n: int): (s: string)
    ensures s != []
    ensures n < 0 <==> s[0] == '-'
  {
    if n < 0 then "-" + NatToString(-n) else NatToString(n)
  }

  function Pow10(k: nat): (p: nat)
    ensures p >= 1
  {
    if k == 0 then 1 else 10 * Pow10(k - 1)
  }

  // ---------------------------------------------------------------------------
  // `float()` on a token of Python's `[\d.]+`

  predicate IsNumChar(c: char)
  {
    IsDigit(c) || c == '.'
  }

  function CountChar(s: string, c: char): (n: nat)
    ensures n <= |s|
    ensures n == 0 <==> forall i :: 0 <= i < |s| ==> s[i] != c
  {
    if s == [] then 0 else CountChar(s[..|s| - 1], c) + (if s[|s| - 1] == c then 1 else 0)
  }

  function IndexOf(s: string, c: char): (i: nat)
    ensures i <= |s|
    ensures forall k :: 0 <= k < i ==> s[k] != c
    ensures i < |s| ==> s[i] == c
  {
    if s == [] then 0 else if s[0] == c then 0 else 1 + IndexOf(s[1..], c)
  }

  predicate HasDigit(s: string)
  {
    exists i :: 0 <= i < |s| && IsDigit(s[i])
  }

  /** The value Python's `float` gives a well-formed token `int.frac`. */
  function DecimalValue(intPart: string, frac: string): real
    requires AllDigits(intPart) && AllDigits(frac)
  {
    DigitsValue(intPart) as real + DigitsValue(frac) as real / Pow10(|frac|) as real
  }

  /**
   * Python `float(s)` for `s` made of digits and dots: it succeeds iff `s`
   * holds at least one digit and at most one dot, and raises ValueError otherwise.
   */
  function PyFloat(s: string): (r: Outcome<real>)
    requires forall i :: 0 <= i < |s| ==> IsNumChar(s[i])
    ensures r.Ok? <==> HasDigit(s) && CountChar(s, '.') <= 1
    ensures r.Raises? ==> r.error == ValueError
    ensures r.Ok? ==> r.value >= 0.0
  {
    if !HasDigit(s) || CountChar(s, '.') > 1 then Raises(ValueError)
    else
      var d := IndexOf(s, '.');
      var intPart := s[..d];
      var frac := if d < |s| then s[d + 1..] else [];
      assert AllDigits(intPart) by {
        forall k | 0 <= k < |intPart| ensures IsDigit(intPart[k]) {
          assert intPart[k] == s[k] != '.' && IsNumChar(s[k]);
        }
      }
      assert AllDigits(frac) by {
        if d < |s| { DotOnlyOnce(s, d); }
      }
      Ok(DecimalValue(intPart, frac))
  }

  lemma DotOnlyOnce(s: string, d: nat)
    requires d < |s| && s[d] == '.' && CountChar(s, '.') <= 1
    requires forall i :: 0 <= i < |s| ==> IsNumChar(s[i])
    ensures forall k :: d < k < |s| ==> IsDigit(s[k])
  {
    forall k | d < k < |s|
      ensures IsDigit(s[k])
    {
      if s[k] == '.' {
        CountTwo(s, d, k);
      }
    }
  }

  lemma {:induction false} CountTwo(s: string, d: nat, k: nat)
    requires d < k < |s| && s[d] == '.' && s[k] == '.'
    ensures CountChar(s, '.') >= 2
    decreases |s|
  {
    var front := s[..|s| - 1];
    if k == |s| - 1 {
      assert front[d] == '.';
      assert CountChar(front, '.') >= 1;
    } else {
      assert front[d] == '.' && front[k] == '.';
      CountTwo(front, d, k);
    }
  }

  /** A digit string converts to its integer value. */
  lemma {:induction false} PyFloatOfDigits(s: string)
    requires s != [] && AllDigits(s)
    ensures PyFloat(s) == Ok(DigitsValue(s) as real)
  {
    assert IsDigit(s[0]);
    assert IndexOf(s, '.') == |s|;
    assert s[..|s|] == s;
  }

  // ---------------------------------------------------------------------------
  // Python numeric helpers

  /** `int(x)` for a float `x`: truncation toward zero. */
  function PyTrunc(x: real): (n: int)
    ensures x >= 0.0 ==> n as real <= x < n as real + 1.0
    ensures x < 0.0 ==> n as real - 1.0 < x <= n as real
  {
    if x >= 0.0 then x.Floor else -((-x).Floor)
  }

  /** `x // m` for a float `x` and a positive `m`: the floor of the quotient. */
  function PyFloorDiv(x: real, m: real): (q: int)
    requires m > 0.0
    ensures q as real * m <= x < (q as real + 1.0) * m
  {
    var y := x / m;
    var q := y.Floor;
    assert q as real <= y < q as real + 1.0;
    assert y * m == x;
    MulBelow(q as real, y, m);
    MulBelow(y, q as real + 1.0, m);
    assert y * m < (q as real + 1.0) * m;
    assert x < (q as real + 1.0) * m;
    q
  }

  lemma MulBelow(a: real, b: real, m: real)
    requires m > 0.0
    ensures a <= b ==> a * m <= b * m
    ensures a < b ==> a * m < b * m
  {
  }

  /** `x % m` for a float `x` and a positive `m`: the remainder takes the sign of `m`. */
  function PyMod(x: real, m: real): (r: real)
    requires m > 0.0
    ensures 0.0 <= r < m && x == PyFloorDiv(x, m) as real * m + r
  {
    x - PyFloorDiv(x, m) as real * m
  }

  /** Python normalises a list index `i` on a list of length `n`: valid iff `-n <= i < n`. */
  function PyIndex(i: int, n: nat): (r: Outcome<nat>)
    ensures r.Ok? <==> -(n as int) <= i < n
    ensures r.Ok? ==> r.value < n && (r.value == i || r.value == i + n)
    ensures r.Raises? ==> r.error == IndexError
  {
    if 0 <= i < n then Ok(i) else if -(n as int) <= i < 0 then Ok(i + n) else Raises(IndexError)
  }

  function SumReals(xs: seq<real>): real
  {
    if xs == [] then 0.0 else SumReals(xs[..|xs| - 1]) + xs[|xs| - 1]
  }

  lemma SumOneTwo(a: real, b: real)
    ensures SumReals([a]) == a && SumReals([a, b]) == a + b
  {
    assert [a][..0] == [] && [a, b][..1] == [a];
  }

  /** A whole number of centimetres is shown without a decimal part. */
  lemma ShowWhole(n: nat)
    ensures Show(n as real) == NatToString(n)
  {
    assert PyTrunc(n as real) == n;
  }

  /** The sum and the joined lengths of four segments. */
  lemma SumJoinFour(a: real, b: real, c: real, d: real)
    ensures SumReals([a, b, c, d]) == a + b + c + d
    ensures ShowJoined([a, b, c, d]) == Show(a) + " + " + Show(b) + " + " + Show(c) + " + " + Show(d)
  {
    SumOneTwo(a, b);
    assert [a, b, c, d][..3] == [a, b, c] && [a, b, c][..2] == [a, b] && [a, b][..1] == [a] && [a][..0] == [];
    assert SumReals([a, b, c]) == a + b + c;
    assert ShowJoined([a, b]) == Show(a) + " + " + Show(b);
    assert ShowJoined([a, b, c]) == Show(a) + " + " + Show(b) + " + " + Show(c);
  }

  function MaxReal(a: real, b: real): real { if a >= b then a else b }
  function MinReal(a: real, b: real): real { if a <= b then a else b }

  function Abs(x: real): (r: real)
    ensures r >= 0.0 && (r == x || r == -x)
  {
    if x >= 0.0 then x else -x
  }

  // ---------------------------------------------------------------------------
  // String building

  /** `str(int(x))`. */
  function Show(x: real): string
  {
    IntToString(PyTrunc(x))
  }

  /** `' + '.join(str(int(s)) for s in segments)`. */
  function ShowJoined(segs: seq<real>): string
  {
    if segs == [] then ""
    else if |segs| == 1 then Show(segs[0])
    else ShowJoined(segs[..|segs| - 1]) + " + " + Show(segs[|segs| - 1])
  }

  /**
   * `str(x)` of a float with at most one decimal place, as every diameter
   * the graphics manager knows has: the integer part, a point and the
   * tenths digit, with a minus sign before a negative value.
   */
  function OneDecimal(x: real): string
  {
    var tenths := (Abs(x) * 10.0).Floor;
    (if x < 0.0 then "-" else "") + NatToString(tenths / 10) + "." + [DigitChar(tenths % 10)]
  }

  /** `c * n`: n copies of `c`, none for n <= 0. */
  function Repeat(c: char, n: int): (r: string)
    ensures |r| == if n > 0 then n else 0
    ensures forall i :: 0 <= i < |r| ==> r[i] == c
    decreases n
  {
    if n <= 0 then [] else [c] + Repeat(c, n - 1)
  }

  /** A slice bound `k` of Python's `s[:k]` / `s[k:]` on a string of length `n`: negative counts from the end, then clamped. */
  function PyBound(k: int, n: nat): (i: nat)
    ensures i <= n
    ensures 0 <= k <= n ==> i == k
    ensures -(n as int) <= k < 0 ==> i == k + n
  {
    if k >= 0 then (if k <= n then k else n) else (if k + n >= 0 then k + n else 0)
  }

  /** `s[:k]`. */
  function PyTake(s: string, k: int): string
  {
    s[..PyBound(k, |s|)]
  }

  /** `s[k:]`. */
  function PyDrop(s: string, k: int): string
  {
    s[PyBound(k, |s|)..]
  }

  /** Concatenation is associative; a step the solver does not always take by itself. */
  lemma Assoc<T>(a: seq<T>, b: seq<T>, c: seq<T>)
    ensures a + (b + c) == a + b + c
  {
  }
}
