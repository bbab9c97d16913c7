/**
 * Text helpers shared by the modules: cutting a text at its first newline (to
 * read the pieces of the composed pattern expression back) and the decimal
 * rendering of a number that a JavaScript template literal performs.
 */
module Text {

  /** The index of the first newline in `s`, or `|s|` when there is none. */
  function FirstNewline(s: string): (k: nat)
    ensures k <= |s|
    ensures forall j :: 0 <= j < k ==> s[j] != '\n'
    ensures k < |s| ==> s[k] == '\n'
  {
    if |s| == 0 || s[0] == '\n' then 0 else 1 + FirstNewline(s[1..])
  }

  lemma {:induction false} FirstNewlineShift(x: string, rest: string)
    requires '\n' !in x
    ensures FirstNewline(x + rest) == |x| + FirstNewline(rest)
  {
    if |x| > 0 {
      assert x[0] in x;
      assert (x + rest)[1..] == x[1..] + rest;
      FirstNewlineShift(x[1..], rest);
    } else {
      assert x + rest == rest;
    }
  }

  lemma {:induction false} FirstNewlineWithin(sep: string, s: string)
    requires '\n' in sep
    ensures FirstNewline(sep + s) == FirstNewline(sep)
  {
    if sep[0] != '\n' {
      assert (sep + s)[1..] == sep[1..] + s;
      assert '\n' in sep[1..] by {
        var k :| 0 <= k < |sep| && sep[k] == '\n';
        assert sep[1..][k - 1] == '\n';
      }
      FirstNewlineWithin(sep[1..], s);
    }
  }

  /**
   * A newline-free piece followed by a separator holding a newline is recovered
   * from the text it starts, and so is what follows the separator.
   */
  lemma CutAtSeparator(x: string, y: string, sep: string, s: string, t: string)
    requires '\n' !in x && '\n' !in y && '\n' in sep
    requires x + (sep + s) == y + (sep + t)
    ensures x == y && s == t
  {
    var u := x + (sep + s);
    FirstNewlineShift(x, sep + s);
    FirstNewlineShift(y, sep + t);
    FirstNewlineWithin(sep, s);
    FirstNewlineWithin(sep, t);
    assert |x| == |y|;
    assert x == u[..|x|];
    assert y == u[..|y|];
    assert sep + s == u[|x|..] == sep + t;
    assert s == (sep + s)[|sep|..];
    assert t == (sep + t)[|sep|..];
  }

  /** Joining three single-line texts gives a single line. */
  lemma {:induction false} SingleLineJoin(a: string, b: string, c: string)
    requires '\n' !in a && '\n' !in b && '\n' !in c
    ensures '\n' !in a + b + c
  {
    var s := a + b + c;
    forall i | 0 <= i < |s| ensures s[i] != '\n' {
      if i < |a| {
        assert s[i] == a[i];
      } else if i < |a| + |b| {
        assert s[i] == b[i - |a|];
      } else {
        assert s[i] == c[i - |a| - |b|];
      }
    }
  }

  function DigitChar(d: nat): (c: char)
    requires d < 10
    ensures '0' <= c <= '9'
  {
    (('0' as int) + d) as char
  }

  function DigitValue(c: char): nat
  {
    if '0' <= c <= '9' then (c as int) - ('0' as int) else 0
  }

  /** The decimal digits of `n`, without leading zeros, as `String(n)` produces them. */
  function Decimal(n: nat): (s: string)
    ensures 1 <= |s|
    ensures forall j :: 0 <= j < |s| ==> '0' <= s[j] <= '9'
  {
    if n < 10 then [DigitChar(n)] else Decimal(n / 10) + [DigitChar(n % 10)]
  }

  /** Reads a string of decimal digits back as a number. */
  function ParseDecimal(s: string): nat
  {
    if |s| == 0 then 0 else 10 * ParseDecimal(s[..|s| - 1]) + DigitValue(s[|s| - 1])
  }

  lemma {:induction false} ParseDecimalInverse(n: nat)
    ensures ParseDecimal(Decimal(n)) == n
  {
    var s := Decimal(n);
    if n < 10 {
      assert s[..0] == [];
    } else {
      assert s[..|s| - 1] == Decimal(n / 10);
      ParseDecimalInverse(n / 10);
    }
  }

  lemma DecimalInjective(m: nat, n: nat)
    requires Decimal(m) == Decimal(n)
    ensures m == n
  {
    ParseDecimalInverse(m);
    ParseDecimalInverse(n);
  }
}
