/**
 * Python's fixed-point float formatting with two decimals, `f"{x:.2f}"`,
 * for a float seen as the exact real it denotes: the magnitude is rounded
 * to hundredths, ties to even, and the sign is kept.
 */
module Fixed {
  import opened Text

  /** The integer nearest to a, ties going to the even neighbour. */
  function RoundHalfEven(a: real): (n: nat)
    requires a >= 0.0
    ensures (n as real) - 0.5 <= a <= (n as real) + 0.5
    ensures (n as real) - 0.5 == a || a == (n as real) + 0.5 ==> n % 2 == 0
  {
    var f := a.Floor;
    var frac := a - f as real;
    if frac > 0.5 || (frac == 0.5 && f % 2 == 1) then f + 1 else f
  }

  /** The magnitude of x in hundredths, rounded as `:.2f` rounds. */
  function Cents(x: real): nat
  {
    RoundHalfEven(if x < 0.0 then -x * 100.0 else x * 100.0)
  }

  /** A decimal with two places: sign, whole units and hundredths. */
  datatype Fixed2 = Fixed2(negative: bool, units: nat, hundredths: nat)

  /** x rounded to hundredths; for non-zero x the sign is kept even when the magnitude rounds to zero. */
  function Round2(x: real): (f: Fixed2)
    ensures f.hundredths < 100
  {
    var c := Cents(x);
    Fixed2(x < 0.0, c / 100, c % 100)
  }

  /** The number a two-place decimal stands for. */
  function Value(f: Fixed2): real
  {
    var magnitude := (f.units * 100 + f.hundredths) as real / 100.0;
    if f.negative then -magnitude else magnitude
  }

  /** `[-]units.dd`. */
  function Render(f: Fixed2): string
    requires f.hundredths < 100
  {
    (if f.negative then "-" else "") + NatToString(f.units) + "." + [DigitChar(f.hundredths / 10), DigitChar(f.hundredths % 10)]
  }

  /** `f"{x:.2f}"`. */
  function Fmt2(x: real): string
  {
    Render(Round2(x))
  }

  /**
   * The rendered value is within half a hundredth of x, and equals x when
   * x is a whole number of hundredths.
   */
  lemma Fmt2Rounds(x: real)
    ensures -0.005 <= Value(Round2(x)) - x <= 0.005
    ensures (x * 100.0).Floor as real == x * 100.0 ==> Value(Round2(x)) == x
  {
    var c := Cents(x);
    var f := Round2(x);
    assert f.units * 100 + f.hundredths == c;
    var a := if x < 0.0 then -x * 100.0 else x * 100.0;
    var n := (x * 100.0).Floor;
    if n as real == x * 100.0 {
      var m := if x < 0.0 then -n else n;
      assert a == m as real;
      FloorOfInteger(m);
      assert c == m;
    }
  }

  lemma FloorOfInteger(m: int)
    ensures (m as real).Floor == m
  {
  }

  /** s without a leading '-'. */
  function Unsigned(s: string): string
  {
    if |s| > 0 && s[0] == '-' then s[1..] else s
  }

  /** Where the parts of a rendering sit. */
  lemma RenderParts(f: Fixed2)
    requires f.hundredths < 100
    ensures var s := Render(f); var b := Unsigned(s);
      && ((|s| > 0 && s[0] == '-') <==> f.negative)
      && |b| >= 4
      && b[..|b| - 3] == NatToString(f.units)
      && b[|b| - 3] == '.'
      && b[|b| - 2] == DigitChar(f.hundredths / 10)
      && b[|b| - 1] == DigitChar(f.hundredths % 10)
  {
    var digits := NatToString(f.units);
    var body := digits + "." + [DigitChar(f.hundredths / 10), DigitChar(f.hundredths % 10)];
    var s := Render(f);
    assert s == (if f.negative then "-" else "") + body;
    assert body[0] == digits[0] && IsDigit(digits[0]);
    assert Unsigned(s) == body;
    assert body[..|body| - 3] == digits;
  }

  /** Distinct two-place decimals render differently: the text loses nothing. */
  lemma RenderInjective(f: Fixed2, g: Fixed2)
    requires f.hundredths < 100 && g.hundredths < 100
    requires Render(f) == Render(g)
    ensures f == g
  {
    RenderParts(f);
    RenderParts(g);
    NatToStringInjective(f.units, g.units);
    assert DigitValue(DigitChar(f.hundredths / 10)) == f.hundredths / 10;
    assert DigitValue(DigitChar(g.hundredths / 10)) == g.hundredths / 10;
    assert DigitValue(DigitChar(f.hundredths % 10)) == f.hundredths % 10;
    assert DigitValue(DigitChar(g.hundredths % 10)) == g.hundredths % 10;
  }

  /** A rendering never breaks a line. */
  lemma Fmt2SingleLine(x: real)
    ensures '\n' !in Fmt2(x)
  {
    var f := Round2(x);
    var digits := NatToString(f.units);
    var tail := "." + [DigitChar(f.hundredths / 10), DigitChar(f.hundredths % 10)];
    assert '\n' !in digits by {
      forall k | 0 <= k < |digits| ensures digits[k] != '\n' { assert IsDigit(digits[k]); }
    }
    AppendAvoids(if f.negative then "-" else "", digits, '\n');
    AppendAvoids((if f.negative then "-" else "") + digits, tail, '\n');
  }

  /** Sample renderings, including the half-even tie and a negative value rounding to zero. */
  lemma Fmt2Samples()
    ensures Fmt2(1.0) == "1.00"
    ensures Fmt2(-0.5) == "-0.50"
    ensures Fmt2(0.125) == "0.12"
    ensures Fmt2(-0.001) == "-0.00"
  {
    assert Cents(1.0) == 100;
    assert NatToString(1) == "1";
    assert Cents(-0.5) == 50;
    assert NatToString(0) == "0";
    assert Cents(0.125) == 12 by {
      assert (12.5).Floor == 12;
    }
    assert Cents(-0.001) == 0 by {
      assert (0.1).Floor == 0;
    }
  }
}
