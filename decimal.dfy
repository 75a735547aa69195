/**
 * Decimal digits as the C++ standard library reads and writes them:
 * `ostream << n` for an integer and `std::stoi` on a text prefix.
 */
module Decimal {
  import opened Wrappers

  predicate IsDigit(c: char)
  {
    '0' <= c <= '9'
  }

  predicate AllDigits(s: string)
  {
    forall i :: 0 <= i < |s| ==> IsDigit(s[i])
  }

  /** Non-empty, all digits, and no leading zero unless the text is "0". */
  predicate Canonical(s: string)
  {
    |s| >= 1 && AllDigits(s) && (|s| > 1 ==> s[0] != '0')
  }

  function DigitValue(c: char): (d: nat)
    requires IsDigit(c)
    ensures d < 10
  {
    (c as int) - ('0' as int)
  }

  function DigitChar(d: nat): (c: char)
    requires d < 10
    ensures IsDigit(c) && DigitValue(c) == d
  {
    (('0' as int) + d) as char
  }

  function Pow10(n: nat): nat
  {
    if n == 0 then 1 else 10 * Pow10(n - 1)
  }

  /** The number a string of digits denotes, most significant digit first. */
  function Value(s: string): nat
    requires AllDigits(s)
  {
    if s == [] then 0 else 10 * Value(s[..|s| - 1]) + DigitValue(s[|s| - 1])
  }

  /** An n-digit string denotes less than 10^n, and at least 10^(n-1) when
      its first digit is not zero. */
  lemma {:induction false} ValueBounds(s: string)
    requires AllDigits(s)
    ensures Value(s) < Pow10(|s|)
    ensures |s| > 0 && s[0] != '0' ==> Pow10(|s| - 1) <= Value(s)
  {
    if s != [] {
      var p := s[..|s| - 1];
      ValueBounds(p);
      if |s| > 1 && s[0] != '0' {
        assert p[0] == s[0];
      } else if |s| == 1 && s[0] != '0' {
        assert Value(s) == DigitValue(s[0]);
      }
    }
  }

  /** `ostream << n` for a non-negative integer. */
  function Render(n: nat): (s: string)
    ensures Canonical(s)
    ensures n < 10 <==> |s| == 1
  {
    if n < 10 then [DigitChar(n)] else Render(n / 10) + [DigitChar(n % 10)]
  }

  /** Rendering then reading gives the number back. */
  lemma {:induction false} ValueOfRender(n: nat)
    ensures Value(Render(n)) == n
  {
    if n >= 10 {
      ValueOfRender(n / 10);
      var s := Render(n);
      assert s[..|s| - 1] == Render(n / 10);
    }
  }

  /** Reading then rendering gives the text back exactly when it is canonical. */
  lemma {:induction false} RenderOfValue(s: string)
    requires Canonical(s)
    ensures Render(Value(s)) == s
  {
    if |s| > 1 {
      var p := s[..|s| - 1];
      assert p[0] == s[0];
      RenderOfValue(p);
      ValueBounds(p);
      assert Value(p) >= 1;
      assert Value(s) / 10 == Value(p);
      assert Value(s) % 10 == DigitValue(s[|s| - 1]);
      assert s == p + [s[|s| - 1]];
    } else {
      assert Value(s) == DigitValue(s[0]);
    }
  }

  /** `ostream << i` for a signed integer: a minus sign, then the digits. */
  function RenderInt(i: int): (s: string)
    ensures |s| >= 1
    ensures i >= 0 ==> s == Render(i)
    ensures i < 0 <==> s[0] == '-'
  {
    if i < 0 then "-" + Render(-i) else Render(i)
  }

  /** The white space `std::stoi` skips before a number. */
  predicate IsSpace(c: char)
  {
    c == ' ' || c == '\t' || c == '\n' || c == '\r' || c as int == 12 || c as int == 11
  }

  /** `s` without its leading white space. */
  function TrimSpace(s: string): (t: string)
    ensures |t| <= |s| && t == s[|s| - |t|..]
    ensures forall i :: 0 <= i < |s| - |t| ==> IsSpace(s[i])
    ensures t != [] ==> !IsSpace(t[0])
  {
    if s != [] && IsSpace(s[0]) then TrimSpace(s[1..]) else s
  }

  /** Length of the run of digits at the start of `s`. */
  function DigitRun(s: string): (n: nat)
    ensures n <= |s| && AllDigits(s[..n])
    ensures n < |s| ==> !IsDigit(s[n])
  {
    if s != [] && IsDigit(s[0]) then
      var n := 1 + DigitRun(s[1..]);
      assert s[..n] == [s[0]] + s[1..][..n - 1];
      n
    else 0
  }

  /** The integer `std::stoi` reads from the front of `s`: white space, an
      optional sign and at least one digit; None where `stoi` would throw
      for want of digits. */
  function LeadingInt(s: string): (r: Option<int>)
    ensures r.Some? <==> DigitRun(SignSkipped(TrimSpace(s))) > 0
  {
    ReadSigned(TrimSpace(s))
  }

  /** The number at the front of text that starts after the white space. */
  function ReadSigned(t: string): Option<int>
  {
    var u := SignSkipped(t);
    var n := DigitRun(u);
    if n == 0 then None
    else
      var magnitude: int := Value(u[..n]);
      if t[0] == '-' then Some(-magnitude) else Some(magnitude)
  }

  function SignSkipped(t: string): string
  {
    if t != [] && (t[0] == '-' || t[0] == '+') then t[1..] else t
  }

  /** The shape `std::stoi` accepts: white space, an optional sign, a
      non-empty run of digits, and text that does not continue the run. */
  predicate StoiShape(ws: string, sign: string, ds: string, rest: string)
  {
    && (forall i :: 0 <= i < |ws| ==> IsSpace(ws[i]))
    && (sign == "" || sign == "+" || sign == "-")
    && |ds| > 0 && AllDigits(ds)
    && (rest == [] || !IsDigit(rest[0]))
  }

  /** The value `std::stoi` gives for text of that shape: the digits'
      value, negated after a minus sign; leading zeros do not count. */
  function StoiValue(sign: string, ds: string): int
    requires AllDigits(ds)
  {
    var magnitude: int := Value(ds);
    if sign == "-" then -magnitude else magnitude
  }

  /** Skipping white space stops at the first other character. */
  lemma {:induction false} TrimSpaceOf(ws: string, x: string)
    requires forall i :: 0 <= i < |ws| ==> IsSpace(ws[i])
    requires x == [] || !IsSpace(x[0])
    ensures TrimSpace(ws + x) == x
  {
    if ws != [] {
      assert (ws + x)[1..] == ws[1..] + x;
      TrimSpaceOf(ws[1..], x);
    } else {
      assert ws + x == x;
    }
  }

  /** A sign, digits and a non-digit tail are read as the signed value. */
  lemma ReadSignedOf(sign: string, ds: string, rest: string)
    requires sign == "" || sign == "+" || sign == "-"
    requires |ds| > 0 && AllDigits(ds)
    requires rest == [] || !IsDigit(rest[0])
    ensures ReadSigned(sign + ds + rest) == Some(StoiValue(sign, ds))
  {
    var t := sign + ds + rest;
    var u := ds + rest;
    assert t == sign + u;
    assert SignSkipped(t) == u by {
      if sign == "" {
        assert t == u;
        assert !(u[0] == '-' || u[0] == '+');
      } else {
        assert t[1..] == u;
      }
    }
    DigitRunOfDigits(ds, rest);
    assert u[..|ds|] == ds;
    assert t[0] == '-' <==> sign == "-" by {
      if sign == "" {
        assert t[0] == ds[0];
      }
    }
  }

  /** Text of the accepted shape is read as its value. */
  lemma LeadingIntDecomposed(ws: string, sign: string, ds: string, rest: string)
    requires StoiShape(ws, sign, ds, rest)
    ensures LeadingInt(ws + sign + ds + rest) == Some(StoiValue(sign, ds))
  {
    var t := sign + ds + rest;
    assert ws + sign + ds + rest == ws + t;
    assert t[0] == (if sign == "" then ds[0] else sign[0]);
    TrimSpaceOf(ws, t);
    ReadSignedOf(sign, ds, rest);
  }

  /** The white space `TrimSpace` removes. */
  lemma SpacePrefix(s: string) returns (ws: string)
    ensures s == ws + TrimSpace(s)
    ensures forall i :: 0 <= i < |ws| ==> IsSpace(ws[i])
  {
    ws := s[..|s| - |TrimSpace(s)|];
    forall i | 0 <= i < |ws| ensures IsSpace(ws[i]) {
      assert ws[i] == s[i];
    }
  }

  /** The sign `SignSkipped` removes. */
  lemma SignPrefix(t: string) returns (sign: string)
    ensures t == sign + SignSkipped(t)
    ensures sign == "" || sign == "+" || sign == "-"
    ensures sign == "-" <==> t != [] && t[0] == '-'
  {
    if t != [] && (t[0] == '-' || t[0] == '+') {
      sign := [t[0]];
      assert t == [t[0]] + t[1..];
    } else {
      sign := "";
    }
  }

  /** The pieces of text `std::stoi` reads a number from. */
  lemma SplitForStoi(s: string) returns (ws: string, sign: string, ds: string, rest: string)
    requires LeadingInt(s).Some?
    ensures StoiShape(ws, sign, ds, rest)
    ensures s == ws + (sign + (ds + rest))
  {
    ws := SpacePrefix(s);
    sign := SignPrefix(TrimSpace(s));
    ds, rest := DigitPrefix(SignSkipped(TrimSpace(s)));
  }

  /** The digit run `DigitRun` measures, and the text after it. */
  lemma DigitPrefix(u: string) returns (ds: string, rest: string)
    ensures u == ds + rest && |ds| == DigitRun(u) && AllDigits(ds)
    ensures rest == [] || !IsDigit(rest[0])
  {
    var n := DigitRun(u);
    ds := u[..n];
    rest := u[n..];
    assert u == ds + rest;
    assert rest != [] ==> rest[0] == u[n];
  }

  /** Conversely, whatever `std::stoi` reads comes from text of that shape. */
  lemma LeadingIntSplits(s: string)
    requires LeadingInt(s).Some?
    ensures exists ws, sign, ds, rest ::
      && StoiShape(ws, sign, ds, rest)
      && s == ws + sign + ds + rest
      && LeadingInt(s) == Some(StoiValue(sign, ds))
  {
    var ws, sign, ds, rest := SplitForStoi(s);
    Regroup(ws, sign, ds, rest);
    LeadingIntDecomposed(ws, sign, ds, rest);
    assert StoiShape(ws, sign, ds, rest) && s == ws + sign + ds + rest
           && LeadingInt(s) == Some(StoiValue(sign, ds));
  }

  lemma Regroup(a: string, b: string, c: string, d: string)
    ensures a + (b + (c + d)) == a + b + c + d
  {
  }

  /** What `std::stoi` returns for a rendered non-negative number followed by
      text that does not start with a digit. */
  lemma LeadingIntOfRender(n: nat, rest: string)
    requires rest == [] || !IsDigit(rest[0])
    ensures LeadingInt(Render(n) + rest) == Some(n)
  {
    LeadingIntOfDigits(Render(n), rest);
    ValueOfRender(n);
  }

  /** Unsigned digits at the very front are read as their value. */
  lemma LeadingIntOfDigits(ds: string, rest: string)
    requires |ds| > 0 && AllDigits(ds)
    requires rest == [] || !IsDigit(rest[0])
    ensures LeadingInt(ds + rest) == Some(Value(ds))
  {
    NoPrefix(ds, rest);
    assert StoiShape("", "", ds, rest);
    LeadingIntDecomposed("", "", ds, rest);
  }

  /** `stoi` reads back every integer `ostream <<` writes, negative ones
      included. */
  lemma LeadingIntOfRenderInt(i: int)
    ensures LeadingInt(RenderInt(i)) == Some(i)
  {
    var ds := Render(if i < 0 then -i else i);
    ValueOfRender(if i < 0 then -i else i);
    if i >= 0 {
      LeadingIntOfUnsigned(ds);
    } else {
      LeadingIntOfNegated(ds);
    }
  }

  /** Digits alone are read as their value. */
  lemma LeadingIntOfUnsigned(ds: string)
    requires |ds| > 0 && AllDigits(ds)
    ensures LeadingInt(ds) == Some(Value(ds))
  {
    assert IsDigit(ds[0]);
    assert TrimSpace(ds) == ds;
    assert SignSkipped(ds) == ds;
    ReadSignedDigits(ds, ds);
  }

  /** A minus sign and digits, alone, are read as the negated value. */
  lemma LeadingIntOfNegated(ds: string)
    requires |ds| > 0 && AllDigits(ds)
    ensures LeadingInt("-" + ds) == Some(-(Value(ds) as int))
  {
    var t := "-" + ds;
    MinusKept(ds);
    ReadSignedDigits(t, ds);
  }

  lemma MinusKept(ds: string)
    ensures TrimSpace("-" + ds) == "-" + ds
    ensures SignSkipped("-" + ds) == ds
  {
    assert ("-" + ds)[1..] == ds;
  }

  /** After the sign, a run of digits to the end is read whole. */
  lemma ReadSignedDigits(t: string, ds: string)
    requires |ds| > 0 && AllDigits(ds) && SignSkipped(t) == ds
    ensures ReadSigned(t) == Some(if t[0] == '-' then -(Value(ds) as int) else Value(ds))
  {
    DigitRunAll(ds);
    assert ds[..|ds|] == ds;
  }

  lemma {:induction false} DigitRunAll(ds: string)
    requires AllDigits(ds)
    ensures DigitRun(ds) == |ds|
  {
    if ds != [] {
      DigitRunAll(ds[1..]);
    }
  }

  lemma NoPrefix(ds: string, rest: string)
    ensures "" + "" + ds + rest == ds + rest
  {
  }

  lemma {:induction false} DigitRunOfDigits(d: string, rest: string)
    requires AllDigits(d)
    requires rest == [] || !IsDigit(rest[0])
    ensures DigitRun(d + rest) == |d|
  {
    if d != [] {
      assert (d + rest)[1..] == d[1..] + rest;
      DigitRunOfDigits(d[1..], rest);
    } else {
      assert d + rest == rest;
    }
  }
}
