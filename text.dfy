/**
 * The string handling the connector relies on from the Java platform: decimal
 * formatting of integers (`String.valueOf`, `%d`), `Integer.parseInt`, ASCII
 * case mapping (`toUpperCase`/`toLowerCase` with `Locale.ROOT`), infix search
 * (what the tests' `hasMessageContaining` checks) and `Arrays.toString`.
 */
module Text {
  import opened Wrappers

  const INT_MIN: int := -0x8000_0000
  const INT_MAX: int := 0x7fff_ffff

  predicate IsDigit(c: char) {
    '0' <= c <= '9'
  }

  predicate AllDigits(s: string) {
    forall i :: 0 <= i < |s| ==> IsDigit(s[i])
  }

  function DigitChar(d: nat): (c: char)
    requires d < 10
    ensures IsDigit(c) && c as int - '0' as int == d
  {
    ('0' as int + d) as char
  }

  /** Decimal digits of `n`, most significant first, with no leading zero. */
  function NatToString(n: nat): (s: string)
    ensures |s| > 0 && AllDigits(s)
    ensures |s| > 1 ==> s[0] != '0'
  {
    if n < 10 then [DigitChar(n)] else NatToString(n / 10) + [DigitChar(n % 10)]
  }

  /** Java's decimal form of an integer: a minus sign for negative values, then the digits. */
  function IntToString(i: int): (s: string)
    ensures |s| > 0
    ensures i >= 0 ==> AllDigits(s)
    ensures i < 0 ==> s[0] == '-' && AllDigits(s[1..])
  {
    if i < 0 then "-" + NatToString(-i) else NatToString(i)
  }

  /** The number a string of decimal digits denotes. */
  function DigitsValue(s: string): nat
    requires AllDigits(s)
  {
    if s == [] then 0 else DigitsValue(s[..|s| - 1]) * 10 + (s[|s| - 1] as int - '0' as int)
  }

  /**
   * Java's `Integer.parseInt(s)`: an optional sign, at least one digit, and a
   * value within 32 bits; `None` where Java throws `NumberFormatException`.
   */
  function ParseInt(s: string): (r: Option<int>)
    ensures r.Some? ==> INT_MIN <= r.value <= INT_MAX
    ensures r.Some? ==> |s| > 0 && (AllDigits(s) || ((s[0] == '-' || s[0] == '+') && AllDigits(s[1..])))
  {
    if s == [] then None
    else
      var body := if s[0] == '-' || s[0] == '+' then s[1..] else s;
      if body == [] || !AllDigits(body) then None
      else
        var v: int := if s[0] == '-' then -(DigitsValue(body) as int) else DigitsValue(body);
        if INT_MIN <= v <= INT_MAX then Some(v) else None
  }

  lemma {:induction false} NatToStringRoundTrip(n: nat)
    ensures DigitsValue(NatToString(n)) == n
  {
    if n >= 10 {
      NatToStringRoundTrip(n / 10);
      var s := NatToString(n);
      assert s[..|s| - 1] == NatToString(n / 10);
    }
  }

  /** Parsing the decimal form of any 32-bit integer gives that integer back. */
  lemma ParseIntRoundTrip(n: int)
    requires INT_MIN <= n <= INT_MAX
    ensures ParseInt(IntToString(n)) == Some(n)
  {
    var s := IntToString(n);
    if n < 0 {
      NatToStringRoundTrip(-n);
      assert s[1..] == NatToString(-n);
    } else {
      NatToStringRoundTrip(n);
    }
  }

  /**
   * Conversely, an optional sign followed by at least one digit parses to its
   * value whenever that value fits in 32 bits: leading zeros and a plus sign
   * are accepted.
   */
  lemma ParseIntAccepts(sign: string, digits: string)
    requires sign == "" || sign == "+" || sign == "-"
    requires digits != [] && AllDigits(digits)
    requires INT_MIN <= (if sign == "-" then -(DigitsValue(digits) as int) else DigitsValue(digits)) <= INT_MAX
    ensures ParseInt(sign + digits) == Some(if sign == "-" then -(DigitsValue(digits) as int) else DigitsValue(digits))
  {
    var s := sign + digits;
    if sign == "" {
      assert s == digits;
      assert IsDigit(digits[0]);
    } else {
      assert s[0] == sign[0] && s[1..] == digits;
    }
  }

  /** Forms other than the canonical one: a plus sign, leading zeros, a signed zero; no digits is rejected. */
  lemma ParseIntLenient()
    ensures ParseInt("+5") == Some(5)
    ensures ParseInt("007") == Some(7)
    ensures ParseInt("-0") == Some(0)
    ensures ParseInt("") == None && ParseInt("+") == None && ParseInt("-") == None
  {
    assert DigitsValue("5") == 5;
    ParseIntAccepts("+", "5");
    assert "+" + "5" == "+5";
    assert DigitsValue("007") == 7 by {
      assert "007"[..2] == "00" && "00"[..1] == "0" && "0"[..0] == "";
    }
    ParseIntAccepts("", "007");
    assert "" + "007" == "007";
    assert DigitsValue("0") == 0 by { assert "0"[..0] == ""; }
    ParseIntAccepts("-", "0");
    assert "-" + "0" == "-0";
  }

  /** Distinct numbers have distinct decimal forms. */
  lemma IntToStringInjective(i: int, j: int)
    requires IntToString(i) == IntToString(j)
    ensures i == j
  {
    var s := IntToString(i);
    if i < 0 {
      NatToStringRoundTrip(-i);
      NatToStringRoundTrip(-j);
      assert s[1..] == NatToString(-i) == NatToString(-j);
    } else {
      NatToStringRoundTrip(i);
      NatToStringRoundTrip(j);
    }
  }

  /**
   * Splitting at the last occurrence of `sep` is unambiguous: when the parts
   * after the separator do not contain it, both sides agree part by part.
   */
  lemma {:induction false} SplitAtLast(a: string, b: string, c: string, d: string, sep: char)
    requires sep !in b && sep !in d
    requires a + [sep] + b == c + [sep] + d
    ensures a == c && b == d
    decreases |b|
  {
    var s := a + [sep] + b;
    if b == [] {
      if d != [] {
        LastOfAppend(c + [sep], d);
        assert false;
      }
      assert a == s[..|s| - 1] == c;
    } else if d == [] {
      LastOfAppend(a + [sep], b);
      assert false;
    } else {
      var b', d' := b[..|b| - 1], d[..|d| - 1];
      assert a + [sep] + b' == s[..|s| - 1] == c + [sep] + d';
      assert sep !in b' && sep !in d';
      SplitAtLast(a, b', c, d', sep);
      assert b == b' + [s[|s| - 1]] == d;
    }
  }

  lemma LastOfAppend(x: string, y: string)
    requires y != []
    ensures (x + y)[|x| + |y| - 1] == y[|y| - 1]
  {
  }

  /** ASCII upper-casing of one character. */
  function UpperChar(c: char): char {
    if 'a' <= c <= 'z' then (c as int - 32) as char else c
  }

  /** ASCII lower-casing of one character. */
  function LowerChar(c: char): char {
    if 'A' <= c <= 'Z' then (c as int + 32) as char else c
  }

  /** `s.toUpperCase(Locale.ROOT)`, restricted to ASCII letters. */
  function ToUpper(s: string): (r: string)
    ensures |r| == |s|
  {
    seq(|s|, i requires 0 <= i < |s| => UpperChar(s[i]))
  }

  /** `s.toLowerCase(Locale.ROOT)`, restricted to ASCII letters. */
  function ToLower(s: string): (r: string)
    ensures |r| == |s|
  {
    seq(|s|, i requires 0 <= i < |s| => LowerChar(s[i]))
  }

  /** `t` occurs in `s` starting at index `i`. */
  predicate InfixAt(s: string, t: string, i: int) {
    0 <= i && i + |t| <= |s| && s[i..i + |t|] == t
  }

  /** `s.contains(t)`. */
  predicate Contains(s: string, t: string) {
    exists i :: 0 <= i <= |s| && InfixAt(s, t, i)
  }

  lemma ContainsMiddle(a: string, t: string, b: string)
    ensures Contains(a + t + b, t)
  {
    assert (a + t + b)[|a|..|a| + |t|] == t;
    assert InfixAt(a + t + b, t, |a|);
  }

  lemma ContainsWithin(s: string, t: string, a: string, b: string)
    requires Contains(s, t)
    ensures Contains(a + s + b, t)
  {
    var i: int :| 0 <= i <= |s| && InfixAt(s, t, i);
    assert 0 <= i && i + |t| <= |s| && s[i..i + |t|] == t;
    var u := a + s + b;
    assert u[|a| + i..|a| + i + |t|] == s[i..i + |t|];
    assert InfixAt(u, t, |a| + i);
  }

  /** The elements of `items` separated by ", ". */
  function Join(items: seq<string>): string {
    if items == [] then ""
    else if |items| == 1 then items[0]
    else items[0] + ", " + Join(items[1..])
  }

  /** `Arrays.toString` of an array of names: "[A, B, C]". */
  function ListToString(items: seq<string>): string {
    "[" + Join(items) + "]"
  }

  lemma {:induction false} JoinContains(items: seq<string>, k: nat)
    requires k < |items|
    ensures Contains(Join(items), items[k])
  {
    if |items| == 1 {
      ContainsMiddle("", items[0], "");
      assert "" + items[0] + "" == Join(items);
    } else if k == 0 {
      ContainsMiddle("", items[0], ", " + Join(items[1..]));
      assert "" + items[0] + (", " + Join(items[1..])) == Join(items);
    } else {
      JoinContains(items[1..], k - 1);
      ContainsWithin(Join(items[1..]), items[k], items[0] + ", ", "");
      assert items[0] + ", " + Join(items[1..]) + "" == Join(items);
    }
  }

  /** Every element appears in the rendering of the list. */
  lemma ListToStringContains(items: seq<string>, k: nat)
    requires k < |items|
    ensures Contains(ListToString(items), items[k])
  {
    JoinContains(items, k);
    ContainsWithin(Join(items), items[k], "[", "]");
  }
}
