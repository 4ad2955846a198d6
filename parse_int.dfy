// What `parseInt` reads from a text: whitespace, an optional sign, the
// digit run, and nothing after it.

module ParseIntFacts {
  import opened Wrappers
  import opened Text

  /**
   * `parseInt` in general: after leading whitespace and one optional sign,
   * the value of the longest digit run, whatever follows it.
   */
  lemma ParseIntReads(ws: string, sign: string, digits: string, rest: string)
    requires AllSpace(ws) && (sign == "" || sign == "+" || sign == "-")
    requires digits != [] && forall i :: 0 <= i < |digits| ==> IsDigit(digits[i])
    requires rest == [] || !IsDigit(rest[0])
    ensures ParseInt(ws + sign + digits + rest)
      == Some(if sign == "-" then -(DecimalValue(digits) as int) else DecimalValue(digits))
  {
    if sign == "" {
      ReadsUnsigned(ws, digits, rest);
    } else if sign == "-" {
      ReadsMinus(ws, digits, rest);
    } else {
      ReadsPlus(ws, digits, rest);
    }
  }

  /** The unsigned case of `ParseIntReads`. */
  lemma ReadsUnsigned(ws: string, digits: string, rest: string)
    requires AllSpace(ws)
    requires digits != [] && forall i :: 0 <= i < |digits| ==> IsDigit(digits[i])
    requires rest == [] || !IsDigit(rest[0])
    ensures ParseInt(ws + "" + digits + rest) == Some(DecimalValue(digits))
  {
    AppendAssoc(ws + "", digits, rest);
    assert ws + "" == ws;
    DigitIsPlain(digits[0]);
    ParseIntAfterSpaces(ws, digits + rest);
    ParseIntDigits(digits, rest);
  }

  /** The `-` case of `ParseIntReads`. */
  lemma ReadsMinus(ws: string, digits: string, rest: string)
    requires AllSpace(ws)
    requires digits != [] && forall i :: 0 <= i < |digits| ==> IsDigit(digits[i])
    requires rest == [] || !IsDigit(rest[0])
    ensures ParseInt(ws + "-" + digits + rest) == Some(-(DecimalValue(digits) as int))
  {
    AppendAssoc(ws + "-", digits, rest);
    AppendAssoc(ws, "-", digits + rest);
    ParseIntAfterSpaces(ws, "-" + (digits + rest));
    ParseIntMinus(digits, rest);
  }

  /** The `+` case of `ParseIntReads`. */
  lemma ReadsPlus(ws: string, digits: string, rest: string)
    requires AllSpace(ws)
    requires digits != [] && forall i :: 0 <= i < |digits| ==> IsDigit(digits[i])
    requires rest == [] || !IsDigit(rest[0])
    ensures ParseInt(ws + "+" + digits + rest) == Some(DecimalValue(digits))
  {
    AppendAssoc(ws + "+", digits, rest);
    AppendAssoc(ws, "+", digits + rest);
    ParseIntAfterSpaces(ws, "+" + (digits + rest));
    ParseIntPlusSign(digits, rest);
  }

  /** Concatenation regrouped, stated once so the cases above do not re-derive it. */
  lemma AppendAssoc(a: string, b: string, c: string)
    ensures a + b + c == a + (b + c)
  { }

  /** Leading whitespace does not change what `parseInt` reads. */
  lemma ParseIntAfterSpaces(ws: string, u: string)
    requires AllSpace(ws) && u != [] && !IsSpace(u[0])
    ensures ParseInt(ws + u) == ParseInt(u)
  {
    LeadingSpacesAppend(ws, u);
    assert (ws + u)[|ws|..] == u;
    assert LeadingSpaces(u) == 0;
    assert u[0..] == u;
  }

  /** A digit is neither whitespace nor a sign. */
  lemma DigitIsPlain(c: char)
    requires IsDigit(c)
    ensures !IsSpace(c) && c != '-' && c != '+'
  { }

  /** Digits, then anything that does not start with a digit. */
  lemma ParseIntDigits(digits: string, rest: string)
    requires digits != [] && forall i :: 0 <= i < |digits| ==> IsDigit(digits[i])
    requires rest == [] || !IsDigit(rest[0])
    ensures ParseInt(digits + rest) == Some(DecimalValue(digits))
  {
    var u := digits + rest;
    assert u[0] == digits[0];
    DigitIsPlain(u[0]);
    assert LeadingSpaces(u) == 0;
    assert u[0..] == u;
    assert Unsigned(u) == u;
    DigitsThenStop(digits, rest);
  }

  /** A minus sign, digits, then anything that does not start with a digit. */
  lemma ParseIntMinus(digits: string, rest: string)
    requires digits != [] && forall i :: 0 <= i < |digits| ==> IsDigit(digits[i])
    requires rest == [] || !IsDigit(rest[0])
    ensures ParseInt("-" + (digits + rest)) == Some(-(DecimalValue(digits) as int))
  {
    DigitsThenStop(digits, rest);
    ReadNegative(digits + rest, digits);
  }

  /** After a `-`, the value of the digit run is negated. */
  lemma ReadNegative(v: string, digits: string)
    requires DigitPrefix(v) == digits && digits != []
    ensures ParseInt("-" + v) == Some(-(DecimalValue(digits) as int))
  {
    SignThenText('-', v);
  }

  /** A plus sign, digits, then anything that does not start with a digit. */
  lemma ParseIntPlusSign(digits: string, rest: string)
    requires digits != [] && forall i :: 0 <= i < |digits| ==> IsDigit(digits[i])
    requires rest == [] || !IsDigit(rest[0])
    ensures ParseInt("+" + (digits + rest)) == Some(DecimalValue(digits))
  {
    SignThenText('+', digits + rest);
    DigitsThenStop(digits, rest);
  }

  /** A sign is neither whitespace nor part of the digit run. */
  lemma SignThenText(c: char, v: string)
    requires c == '+' || c == '-'
    ensures var u := [c] + v; LeadingSpaces(u) == 0 && u[0] == c && u[0..] == u && Unsigned(u) == v
    ensures [c] + v == (if c == '-' then "-" else "+") + v
  {
    var u := [c] + v;
    assert u[1..] == v;
  }

  /** Whitespace followed by a text that does not start with whitespace: exactly the whitespace is leading. */
  lemma {:induction false} LeadingSpacesAppend(ws: string, u: string)
    requires AllSpace(ws) && u != [] && !IsSpace(u[0])
    ensures LeadingSpaces(ws + u) == |ws|
  {
    if ws == [] {
      assert ws + u == u;
    } else {
      assert (ws + u)[1..] == ws[1..] + u;
      LeadingSpacesAppend(ws[1..], u);
    }
  }

  /** A leading zero does not change the value of a digit string. */
  lemma {:induction false} LeadingZero(s: string)
    requires forall i :: 0 <= i < |s| ==> IsDigit(s[i])
    ensures DecimalValue("0" + s) == DecimalValue(s)
  {
    if s != [] {
      var z := "0" + s;
      assert z[..|z| - 1] == "0" + s[..|s| - 1];
      LeadingZero(s[..|s| - 1]);
    }
  }

  /** A leading `+` is read past. */
  lemma ParseIntPlus()
    ensures ParseInt("+5") == Some(5)
  {
    ParseIntPlusSign("5", "");
    assert "+" + ("5" + "") == "+5";
  }

  /** Leading zeros are read past. */
  lemma ParseIntLeadingZeros()
    ensures ParseInt("007") == Some(7)
  {
    ZerosThenSeven();
    ParseIntDigits("007", "");
    assert "007" + "" == "007";
  }

  /** The value of `"007"`, one leading zero at a time. */
  lemma ZerosThenSeven()
    ensures DecimalValue("007") == 7
  {
    LeadingZero("7");
    assert "0" + "7" == "07";
    LeadingZero("07");
    assert "0" + "07" == "007";
  }

  /** Whatever follows the digits is ignored. */
  lemma ParseIntStopsAtLetter()
    ensures ParseInt("12abc") == Some(12)
  {
    ParseIntDigits("12", "abc");
    assert "12" + "abc" == "12abc";
  }

  /** A fraction is not read: `parseInt` truncates toward zero. */
  lemma ParseIntStopsAtPoint()
    ensures ParseInt("-3.9") == Some(-3)
  {
    ParseIntMinus("3", ".9");
    assert "-" + ("3" + ".9") == "-3.9";
  }
}
