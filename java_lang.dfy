/** Java language semantics that the three handlers rely on: nullable
    references, 32-bit `int` arithmetic, and the few `String` and
    `Integer` library calls they make. */
module JavaLang {

  /** A Java reference that may be null: `None` is null. */
  datatype Option<+T> = None | Some(value: T)

  const IntMin: int := -0x8000_0000
  const IntMax: int := 0x7fff_ffff

  /** A value of Java's `int`. */
  type Int32 = x: int | IntMin <= x <= IntMax

  /** Two's-complement truncation of a mathematical integer to `int`,
      as Java's `+` and `-` on `int` do. */
  function Wrap32(x: int): (r: Int32)
    ensures IntMin <= x <= IntMax ==> r == x
    ensures (r - x) % 0x1_0000_0000 == 0
  {
    (x - IntMin) % 0x1_0000_0000 + IntMin
  }

  /** `s.startsWith(p)` */
  predicate StartsWith(s: string, p: string) {
    |p| <= |s| && s[..|p|] == p
  }

  /** `s.contains(t)`: some position of `s` starts an occurrence of `t`. */
  predicate Contains(s: string, t: string)
    decreases |s|
  {
    StartsWith(s, t) || (|s| > 0 && Contains(s[1..], t))
  }

  /** `t` occurs in `s` at position `i`. */
  predicate OccursAt(s: string, t: string, i: int) {
    0 <= i && i + |t| <= |s| && s[i..i + |t|] == t
  }

  /** `Contains` holds exactly when `t` occurs at some position of `s`. */
  lemma {:induction false} ContainsAt(s: string, t: string)
    ensures Contains(s, t) <==> exists i :: OccursAt(s, t, i)
    decreases |s|
  {
    if StartsWith(s, t) {
      assert OccursAt(s, t, 0);
    }
    if OccursAt(s, t, 0) {
      assert StartsWith(s, t);
    }
    if |s| > 0 {
      ContainsAt(s[1..], t);
      if Contains(s[1..], t) {
        var i :| OccursAt(s[1..], t, i);
        assert s[i + 1..i + 1 + |t|] == s[1..][i..i + |t|];
        assert OccursAt(s, t, i + 1);
      }
      if exists i :: OccursAt(s, t, i) {
        var i :| OccursAt(s, t, i);
        if i > 0 {
          assert s[1..][i - 1..i - 1 + |t|] == s[i..i + |t|];
          assert OccursAt(s[1..], t, i - 1);
        }
      }
    }
  }

  predicate IsDigit(c: char) {
    '0' <= c <= '9'
  }

  predicate AllDigits(s: string) {
    forall i :: 0 <= i < |s| ==> IsDigit(s[i])
  }

  function DigitValue(c: char): (d: nat)
    requires IsDigit(c)
    ensures d < 10
  {
    c as int - '0' as int
  }

  function DigitChar(d: nat): (c: char)
    requires d < 10
    ensures IsDigit(c) && DigitValue(c) == d
  {
    ('0' as int + d) as char
  }

  /** The value of a run of decimal digits, most significant first. */
  function DecimalValue(s: string): nat
    requires AllDigits(s)
  {
    if s == [] then 0 else 10 * DecimalValue(s[..|s| - 1]) + DigitValue(s[|s| - 1])
  }

  /** The canonical decimal rendering of `n` (no leading zero). */
  function DecimalString(n: nat): (s: string)
    ensures AllDigits(s) && |s| > 0
  {
    if n < 10 then [DigitChar(n)] else DecimalString(n / 10) + [DigitChar(n % 10)]
  }

  /** Rendering a natural number and reading it back gives the number. */
  lemma {:induction false} DecimalRoundTrip(n: nat)
    ensures DecimalValue(DecimalString(n)) == n
  {
    var s := DecimalString(n);
    if n >= 10 {
      DecimalRoundTrip(n / 10);
      assert s[..|s| - 1] == DecimalString(n / 10);
    }
  }

  /** A prefix of a digit run is worth no more than the whole run. */
  lemma {:induction false} DecimalPrefixBound(s: string, j: nat)
    requires AllDigits(s) && j <= |s|
    ensures AllDigits(s[..j]) && DecimalValue(s[..j]) <= DecimalValue(s)
    decreases |s| - j
  {
    assert AllDigits(s[..j]) by {
      assert forall k :: 0 <= k < j ==> s[..j][k] == s[k];
    }
    if j < |s| {
      var init := s[..|s| - 1];
      assert AllDigits(init) by {
        assert forall k :: 0 <= k < |init| ==> init[k] == s[k];
      }
      DecimalPrefixBound(init, j);
      assert init[..j] == s[..j];
      assert DecimalValue(s) == 10 * DecimalValue(init) + DigitValue(s[|s| - 1]);
    } else {
      assert s[..j] == s;
    }
  }

  /** The value of the first `i + 1` digits extends that of the first `i`. */
  lemma DecimalStep(s: string, i: nat)
    requires AllDigits(s) && i < |s|
    ensures AllDigits(s[..i]) && AllDigits(s[..i + 1])
    ensures DecimalValue(s[..i + 1]) == 10 * DecimalValue(s[..i]) + DigitValue(s[i])
  {
    var t := s[..i + 1];
    assert forall k :: 0 <= k < i ==> s[..i][k] == s[k];
    assert forall k :: 0 <= k <= i ==> t[k] == s[k];
    assert t[..|t| - 1] == s[..i];
  }

  /** The digit-by-digit loop of `Integer.parseInt` from position `i`,
      with `acc` the value of the digits before `i`; it gives up as soon
      as the next step would exceed `IntMax`. */
  function ParseFrom(digits: string, i: nat, acc: Int32): (r: Option<Int32>)
    requires AllDigits(digits) && i <= |digits|
    requires AllDigits(digits[..i]) && acc == DecimalValue(digits[..i])
    ensures r.Some? <==> DecimalValue(digits) <= IntMax
    ensures r.Some? ==> r.value == DecimalValue(digits)
    decreases |digits| - i
  {
    if i == |digits| then
      assert digits[..i] == digits;
      Some(acc)
    else
      var d := DigitValue(digits[i]);
      DecimalStep(digits, i);
      if acc > (IntMax - d) / 10 then
        assert 10 * acc + d > IntMax;
        DecimalPrefixBound(digits, i + 1);
        None
      else
        ParseFrom(digits, i + 1, 10 * acc + d)
  }

  /** `Integer.parseInt` applied to a non-empty run of decimal digits:
      `None` stands for the `NumberFormatException` it throws when the
      value does not fit in an `int`. */
  function ParseInt(digits: string): (r: Option<Int32>)
    requires AllDigits(digits) && |digits| > 0
    ensures r.Some? <==> DecimalValue(digits) <= IntMax
    ensures r.Some? ==> r.value == DecimalValue(digits)
  {
    assert digits[..0] == [];
    ParseFrom(digits, 0, 0)
  }
}
