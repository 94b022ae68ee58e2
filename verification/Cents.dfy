/**
 Printing of amounts and odds by the services' formatCents and formatOdds, against a parser and a grouping of
 thousands.
 */
module Cents {
  import opened Money

  // ---- decimal numerals -------------------------------------------------------------------------

  predicate IsDigit(c: char)
  {
    '0' <= c <= '9'
  }

  ghost predicate AllDigits(s: string)
  {
    forall i :: 0 <= i < |s| ==> IsDigit(s[i])
  }

  function DigitChar(d: nat): char
    requires d < 10
  {
    "0123456789"[d]
  }

  /** The decimal numeral of n, without leading zeros. */
  function Digits(n: nat): (s: string)
    ensures |s| > 0
  {
    (if n < 10 then "" else Digits(n / 10)) + [DigitChar(n % 10)]
  }

  /** Reading decimal digits from the left; other characters have no value. */
  function Value(s: string): nat
  {
    if s == "" then 0
    else 10 * Value(s[..|s| - 1]) + (if IsDigit(s[|s| - 1]) then s[|s| - 1] as int - '0' as int else 0)
  }

  // ---- the printer ------------------------------------------------------------------------------

  /** The numeral of n, padded to three digits. */
  function Padded(n: nat): string
  {
    if n < 10 then "00" + Digits(n) else if n < 100 then "0" + Digits(n) else Digits(n)
  }

  /** The string toFixed(2) returns for n hundredths: at least one digit, a point and two digits. */
  function Fixed2(n: nat): string
  {
    var m := Padded(n);
    AtLeastThree(n);
    m[..|m| - 2] + "." + m[|m| - 2..]
  }

  lemma AtLeastThree(n: nat)
    ensures n >= 10 ==> |Digits(n)| >= 2
    ensures n >= 100 ==> |Digits(n)| >= 3
  {
  }

  /** A \w character; only digits and the point occur here. */
  predicate IsWord(c: char)
  {
    IsDigit(c) || 'a' <= c <= 'z' || 'A' <= c <= 'Z' || c == '_'
  }

  /** \B at position i: the characters on both sides are word characters, or neither is. */
  predicate NonBoundary(s: string, i: nat)
    requires i <= |s|
  {
    (0 < i && IsWord(s[i - 1])) == (i < |s| && IsWord(s[i]))
  }

  /** (?=(\d{3})+(?!\d)) at position i: some positive number of digit triples, then no digit. */
  predicate TriplesAhead(s: string, i: nat)
    requires i <= |s|
    decreases |s| - i
  {
    && i + 3 <= |s|
    && IsDigit(s[i]) && IsDigit(s[i + 1]) && IsDigit(s[i + 2])
    && (i + 3 == |s| || !IsDigit(s[i + 3]) || TriplesAhead(s, i + 3))
  }

  predicate CommaAt(s: string, i: nat)
    requires i <= |s|
  {
    NonBoundary(s, i) && TriplesAhead(s, i)
  }

  /** The first i characters of s after the global replacement, each match being empty and replaced by a comma. */
  function Replaced(s: string, i: nat): string
    requires i <= |s|
  {
    if i == 0 then ""
    else Replaced(s, i - 1) + (if CommaAt(s, i - 1) then "," else "") + [s[i - 1]]
  }

  function FormatCents(cents: nat): string
    requires cents <= PRINTABLE
  {
    DisplayIsExact(cents);
    var s := Fixed2(DisplayedCents(cents));
    "$" + Replaced(s, |s|) + (if CommaAt(s, |s|) then "," else "")
  }

  function FormatOdds(odds: nat): string
    requires odds <= PRINTABLE
  {
    DisplayIsExact(odds);
    Fixed2(DisplayedCents(odds))
  }

  // ---- the reference: thousands grouped from the right ------------------------------------------

  /** A comma before each trailing group of three, and nowhere else. */
  function Grouped(digits: string): string
  {
    if |digits| <= 3 then digits else Grouped(digits[..|digits| - 3]) + "," + digits[|digits| - 3..]
  }

  /** The digits that toFixed(2) writes before its point and after it. */
  ghost predicate Decimal(s: string, whole: string, cents: string)
  {
    s == whole + "." + cents && |whole| > 0 && |cents| == 2 && AllDigits(whole) && AllDigits(cents)
  }

  lemma {:induction false} DigitsAreDigits(n: nat)
    ensures AllDigits(Digits(n))
  {
    if n >= 10 {
      DigitsAreDigits(n / 10);
    }
  }

  lemma DigitsStep(n: nat)
    ensures n < 10 ==> Digits(n) == [DigitChar(n)]
    ensures n >= 10 ==> Digits(n) == Digits(n / 10) + [DigitChar(n % 10)]
  {
  }

  lemma Hundreds(n: nat)
    ensures n / 10 / 10 == n / 100 && n % 100 == 10 * (n / 10 % 10) + n % 10
  {
  }

  /** The digits before and after the point. */
  lemma LastTwoDigits(n: nat)
    ensures Padded(n) == Digits(n / 100) + [DigitChar(n / 10 % 10)] + [DigitChar(n % 10)]
  {
    hide Digits, DigitChar;
    Hundreds(n);
    DigitsStep(n);
    var q := n / 10;
    DigitsStep(q);
    if n < 100 {
      DigitsStep(0);
      ZeroPads(n);
    }
  }

  lemma ZeroPads(n: nat)
    requires n < 100
    ensures n / 100 == 0 && "0" == [DigitChar(0)]
    ensures n < 10 ==> n / 10 % 10 == 0 && n % 10 == n && "00" + Digits(n) == "0" + "0" + Digits(n)
    ensures n >= 10 ==> n / 10 % 10 == n / 10 && n / 10 < 10
  {
    hide Digits;
  }

  lemma TwoDigitValue(a: nat, b: nat)
    requires a < 10 && b < 10
    ensures Value([DigitChar(a)] + [DigitChar(b)]) == 10 * a + b
    ensures IsDigit(DigitChar(a)) && IsDigit(DigitChar(b))
  {
    var s := [DigitChar(a)] + [DigitChar(b)];
    assert s[..1] == [DigitChar(a)] && [DigitChar(a)][..0] == [];
    assert Value([DigitChar(a)]) == a;
  }

  /** A numeral has no leading zero, unless it is "0". */
  lemma {:induction false} NoLeadingZero(n: nat)
    ensures n > 0 ==> Digits(n)[0] != '0'
  {
    hide Digits;
    DigitsStep(n);
    if n >= 10 {
      NoLeadingZero(n / 10);
      assert n / 10 > 0;
    }
  }

  lemma Fixed2IsDecimal(n: nat) returns (whole: string, cents: string)
    ensures Decimal(Fixed2(n), whole, cents)
    ensures whole == Digits(n / 100) && Value(cents) == n % 100
    ensures Value(whole + cents) == n
  {
    hide Digits, DigitChar, Value, Padded;
    LastTwoDigits(n);
    TwoDigitValue(n / 10 % 10, n % 10);
    Hundreds(n);
    DigitsAreDigits(n / 100);
    whole, cents := Digits(n / 100), [DigitChar(n / 10 % 10)] + [DigitChar(n % 10)];
    var m := Padded(n);
    assert m == whole + cents;
    assert m[..|m| - 2] == whole && m[|m| - 2..] == cents;
    PaddedValue(n);
  }

  lemma PaddedValue(n: nat)
    ensures Value(Padded(n)) == n
  {
    hide Digits, Value;
    ReadBack(n);
    LeadingZero(Digits(n));
    LeadingZero("0" + Digits(n));
    assert "00" + Digits(n) == "0" + ("0" + Digits(n));
  }

  lemma {:induction false} ReadBack(n: nat)
    ensures Value(Digits(n)) == n
  {
    var s := Digits(n);
    assert s[|s| - 1] as int == '0' as int + n % 10;
    if n >= 10 {
      ReadBack(n / 10);
      assert s[..|s| - 1] == Digits(n / 10);
    }
  }

  lemma {:induction false} LeadingZero(s: string)
    ensures Value("0" + s) == Value(s)
  {
    var t := "0" + s;
    if s == "" {
      assert t[..0] == "";
    } else {
      assert t[..|t| - 1] == "0" + s[..|s| - 1];
      LeadingZero(s[..|s| - 1]);
    }
  }

  /** Where the expression matches: inside the whole part, a multiple of three digits before the point. */
  lemma {:induction false} TriplesBeforePoint(s: string, whole: string, cents: string, i: nat)
    requires Decimal(s, whole, cents) && i <= |s|
    ensures TriplesAhead(s, i) <==> i < |whole| && (|whole| - i) % 3 == 0
    decreases |s| - i
  {
    var n := |whole|;
    assert s[n] == '.';
    assert forall j :: 0 <= j < n ==> s[j] == whole[j];
    assert forall j :: n < j < |s| ==> s[j] == cents[j - n - 1];
    if i + 3 <= n {
      TriplesBeforePoint(s, whole, cents, i + 3);
    }
  }

  lemma CommaPlaces(s: string, whole: string, cents: string, i: nat)
    requires Decimal(s, whole, cents) && i <= |s|
    ensures CommaAt(s, i) <==> 0 < i < |whole| && (|whole| - i) % 3 == 0
  {
    hide TriplesAhead;
    TriplesBeforePoint(s, whole, cents, i);
    assert forall j :: 0 <= j < |whole| ==> s[j] == whole[j];
  }

  lemma {:induction false} Unchanged(s: string, i: nat)
    requires i <= |s| && forall j: nat :: j < i ==> !CommaAt(s, j)
    ensures Replaced(s, i) == s[..i]
  {
    if i > 0 {
      Unchanged(s, i - 1);
      assert s[..i] == s[..i - 1] + [s[i - 1]];
    }
  }

  /** One more character copied, with the comma before it when the expression matches there. */
  lemma ReplacedStep(s: string, i: nat)
    requires i < |s|
    ensures Replaced(s, i + 1) == Replaced(s, i) + (if CommaAt(s, i) then "," else "") + [s[i]]
  {
  }

  /** Three characters from the start of a group: a comma before the first only. */
  lemma GroupCopied(s: string, i: nat)
    requires i + 3 <= |s| && CommaAt(s, i) && !CommaAt(s, i + 1) && !CommaAt(s, i + 2)
    ensures Replaced(s, i + 3) == Replaced(s, i) + "," + s[i..i + 3]
  {
    hide Replaced, CommaAt;
    ReplacedStep(s, i);
    ReplacedStep(s, i + 1);
    ReplacedStep(s, i + 2);
    var r := Replaced(s, i) + ",";
    assert r + [s[i]] + [s[i + 1]] + [s[i + 2]] == r + s[i..i + 3];
  }

  lemma GroupedStep(digits: string)
    requires |digits| > 3
    ensures Grouped(digits) == Grouped(digits[..|digits| - 3]) + "," + digits[|digits| - 3..]
  {
  }

  lemma WholeIsPrefix(s: string, whole: string, cents: string, i: nat)
    requires Decimal(s, whole, cents) && 3 < i <= |whole|
    ensures i <= |s| && s[i - 3..i] == whole[..i][i - 3..] && whole[..i][..i - 3] == whole[..i - 3]
  {
  }

  lemma {:induction false} ReplacedIsGrouped(s: string, whole: string, cents: string, i: nat)
    requires Decimal(s, whole, cents) && 0 < i <= |whole| && (|whole| - i) % 3 == 0
    ensures Replaced(s, i) == Grouped(whole[..i])
  {
    hide CommaAt, Replaced, Grouped;
    if i > 3 {
      CommaPlaces(s, whole, cents, i - 3);
      CommaPlaces(s, whole, cents, i - 2);
      CommaPlaces(s, whole, cents, i - 1);
      ReplacedIsGrouped(s, whole, cents, i - 3);
      GroupCopied(s, i - 3);
      GroupedStep(whole[..i]);
      WholeIsPrefix(s, whole, cents, i);
    } else {
      FirstGroup(s, whole, cents, i);
    }
  }

  lemma FirstGroup(s: string, whole: string, cents: string, i: nat)
    requires Decimal(s, whole, cents) && 0 < i <= |whole| && i <= 3 && (|whole| - i) % 3 == 0
    ensures Replaced(s, i) == Grouped(whole[..i])
  {
    hide CommaAt, Replaced;
    forall j: nat | j < i ensures !CommaAt(s, j) {
      CommaPlaces(s, whole, cents, j);
    }
    Unchanged(s, i);
    assert s[..i] == whole[..i];
  }

  /**
   The regular expression groups thousands: the printed amount is "$", the grouped whole part, a point, two
   decimals.
   */
  lemma GroupsThousands(cents: nat) returns (whole: string, rest: string)
    requires cents <= PRINTABLE
    ensures FormatCents(cents) == "$" + Grouped(whole) + "." + rest
    ensures whole == Digits(cents / 100) && |rest| == 2 && AllDigits(rest) && Value(rest) == cents % 100
    ensures Decimal(Fixed2(cents), whole, rest) && Value(whole + rest) == cents
  {
    hide CommaAt, Fixed2, DisplayedCents, Value, Grouped;
    DisplayIsExact(cents);
    whole, rest := Fixed2IsDecimal(cents);
    var s, n := Fixed2(cents), |whole|;
    CommaPlaces(s, whole, rest, n);
    CommaPlaces(s, whole, rest, n + 1);
    CommaPlaces(s, whole, rest, n + 2);
    CommaPlaces(s, whole, rest, n + 3);
    ReplacedIsGrouped(s, whole, rest, n);
    assert whole[..n] == whole;
    assert s[n] == '.' && s[n + 1] == rest[0] && s[n + 2] == rest[1];
    assert Replaced(s, n + 1) == Replaced(s, n) + ".";
    assert Replaced(s, n + 2) == Replaced(s, n + 1) + [rest[0]];
    assert Replaced(s, n + 3) == Replaced(s, n + 2) + [rest[1]];
    assert rest == [rest[0]] + [rest[1]];
  }

  // ---- the parser -------------------------------------------------------------------------------

  /** The text without "$", "," and ".". */
  function Strip(s: string): string
  {
    if s == "" then "" else (if s[0] in "$,." then "" else [s[0]]) + Strip(s[1..])
  }

  function Parse(s: string): nat
  {
    Value(Strip(s))
  }

  lemma {:induction false} StripConcat(s: string, t: string)
    ensures Strip(s + t) == Strip(s) + Strip(t)
  {
    if s == "" {
      assert s + t == t;
    } else {
      assert (s + t)[1..] == s[1..] + t;
      StripConcat(s[1..], t);
    }
  }

  lemma {:induction false} StripDigits(s: string)
    requires AllDigits(s)
    ensures Strip(s) == s
  {
    if s != "" {
      assert IsDigit(s[0]);
      assert AllDigits(s[1..]) by {
        forall i | 0 <= i < |s[1..]| ensures IsDigit(s[1..][i]) { assert IsDigit(s[i + 1]); }
      }
      StripDigits(s[1..]);
    }
  }

  lemma {:induction false} StripGrouped(s: string)
    requires AllDigits(s)
    ensures Strip(Grouped(s)) == s
  {
    if |s| <= 3 {
      StripDigits(s);
    } else {
      var front, back := s[..|s| - 3], s[|s| - 3..];
      StripGrouped(front);
      StripDigits(back);
      StripConcat(Grouped(front) + ",", back);
      StripConcat(Grouped(front), ",");
      assert Strip(",") == "";
      assert s == front + back;
    }
  }

  /** Reading a printed amount gives the amount back. */
  lemma RoundTrip(cents: nat)
    requires cents <= PRINTABLE
    ensures Parse(FormatCents(cents)) == cents
  {
    hide Value, Grouped, FormatCents, Fixed2;
    var whole, rest := GroupsThousands(cents);
    StripGrouped(whole);
    StripDigits(rest);
    StripConcat("$" + Grouped(whole) + ".", rest);
    StripConcat("$" + Grouped(whole), ".");
    StripConcat("$", Grouped(whole));
    assert Strip("$") == "" && Strip(".") == "";
    assert Strip(FormatCents(cents)) == whole + rest;
  }

  /** No two amounts print alike. */
  lemma PrintingIsInjective(a: nat, b: nat)
    requires a <= PRINTABLE && b <= PRINTABLE && FormatCents(a) == FormatCents(b)
    ensures a == b
  {
    hide FormatCents, Parse;
    RoundTrip(a);
    RoundTrip(b);
  }

  /** Printed odds are the whole part, without leading zeros, a point and two decimals. */
  lemma OddsPrint(odds: nat) returns (rest: string)
    requires odds <= PRINTABLE
    ensures FormatOdds(odds) == Digits(odds / 100) + "." + rest
    ensures |rest| == 2 && AllDigits(rest) && Value(rest) == odds % 100
  {
    hide Value, Fixed2, DisplayedCents, Digits;
    DisplayIsExact(odds);
    var whole;
    whole, rest := Fixed2IsDecimal(odds);
  }

  /** Reading printed odds gives the odds back. */
  lemma OddsRoundTrip(odds: nat)
    requires odds <= PRINTABLE
    ensures Parse(FormatOdds(odds)) == odds
  {
    hide Value, Fixed2, DisplayedCents;
    DisplayIsExact(odds);
    var whole, rest := Fixed2IsDecimal(odds);
    StripDigits(whole);
    StripDigits(rest);
    StripConcat(whole + ".", rest);
    StripConcat(whole, ".");
    assert Strip(".") == "";
    assert Strip(FormatOdds(odds)) == whole + rest;
  }
}
