/**
 * Decimal rendering and parsing of whole numbers: `String(n)`, `Number(digits)` and
 * `n.toLocaleString("ru-RU")` (digits grouped by three from the right, groups separated
 * by a no-break space).
 */
module Numbers {

  /** The group separator `toLocaleString("ru-RU")` places between digit groups. */
  const GroupSeparator: char := '\U{A0}'

  predicate IsDigit(c: char) {
    '0' <= c <= '9'
  }

  predicate AllDigits(s: string) {
    forall k :: 0 <= k < |s| ==> IsDigit(s[k])
  }

  function DigitChar(d: nat): (c: char)
    requires d < 10
    ensures IsDigit(c) && c as int - '0' as int == d
  {
    (48 + d) as char
  }

  function DigitValue(c: char): (d: nat)
    requires IsDigit(c)
    ensures d < 10 && DigitChar(d) == c
  {
    c as int - '0' as int
  }

  /** `String(n)` for a whole number `n`: its decimal digits, most significant first, no leading zero. */
  function Decimal(n: nat): (s: string)
    ensures |s| >= 1 && AllDigits(s)
    ensures |s| > 1 ==> s[0] != '0'
  {
    if n < 10 then [DigitChar(n)] else Decimal(n / 10) + [DigitChar(n % 10)]
  }

  /** `String(n)` for a whole number of either sign. */
  function IntString(n: int): (s: string)
    ensures n >= 0 ==> s == Decimal(n)
    ensures n < 0 ==> s == "-" + Decimal(-n)
  {
    if n < 0 then "-" + Decimal(-n) else Decimal(n)
  }

  /** `Number(s)` for a string of ASCII digits. */
  function ParseDigits(s: string): nat
    requires AllDigits(s)
  {
    if s == [] then 0 else ParseDigits(s[..|s| - 1]) * 10 + DigitValue(s[|s| - 1])
  }

  /** Parsing the decimal rendering of a number gives the number back. */
  lemma {:induction false} ParseDecimal(n: nat)
    ensures ParseDigits(Decimal(n)) == n
  {
    if n >= 10 {
      var s := Decimal(n);
      assert s[..|s| - 1] == Decimal(n / 10);
      ParseDecimal(n / 10);
    }
  }

  /** Rendering is injective: different numbers never print alike. */
  lemma DecimalInjective(m: nat, n: nat)
    requires Decimal(m) == Decimal(n)
    ensures m == n
  {
    ParseDecimal(m);
    ParseDecimal(n);
  }

  /** The ASCII digits of `s`, in order: `s.replace(/[^\d]/g, "")`. */
  function DigitsOnly(s: string): (r: string)
    ensures AllDigits(r) && |r| <= |s|
  {
    if s == [] then [] else (if IsDigit(s[0]) then [s[0]] else []) + DigitsOnly(s[1..])
  }

  /** Dropping non-digits leaves a digit string alone. */
  lemma {:induction false} DigitsOnlyOfDigits(s: string)
    requires AllDigits(s)
    ensures DigitsOnly(s) == s
  {
    if s != [] {
      DigitsOnlyOfDigits(s[1..]);
    }
  }

  lemma {:induction false} DigitsOnlyConcat(a: string, b: string)
    ensures DigitsOnly(a + b) == DigitsOnly(a) + DigitsOnly(b)
  {
    if a != [] {
      assert (a + b)[1..] == a[1..] + b;
      DigitsOnlyConcat(a[1..], b);
    } else {
      assert a + b == b;
    }
  }

  /** Inserts the group separator between groups of three digits, counted from the right. */
  function GroupThousands(d: string): (r: string)
    ensures |d| <= |r|
    ensures forall k :: 0 <= k < |r| ==> r[k] == GroupSeparator || r[k] in d
    ensures d != [] ==> r[0] == d[0] && r[|r| - 1] == d[|d| - 1]
  {
    if |d| <= 3 then d
    else
      var head := GroupThousands(d[..|d| - 3]);
      var r := head + [GroupSeparator] + d[|d| - 3..];
      assert forall k :: 0 <= k < |head| ==> r[k] == head[k];
      assert forall k :: |head| < k < |r| ==> r[k] == d[|d| - 3 + (k - |head| - 1)];
      r
  }

  /** Removing the separators from a grouped digit string restores the digits. */
  lemma {:induction false} DigitsOnlyOfGrouped(d: string)
    requires AllDigits(d)
    ensures DigitsOnly(GroupThousands(d)) == d
  {
    if |d| <= 3 {
      DigitsOnlyOfDigits(d);
    } else {
      var front, tail := d[..|d| - 3], d[|d| - 3..];
      var head := GroupThousands(front);
      assert GroupThousands(d) == head + [GroupSeparator] + tail;
      DigitsOnlyOfGrouped(front);
      DigitsOnlyConcat(head, [GroupSeparator]);
      DigitsOnlyConcat(head + [GroupSeparator], tail);
      DigitsOnlyOfDigits(tail);
      assert DigitsOnly([GroupSeparator]) == [];
      assert DigitsOnly(head + [GroupSeparator]) == front;
      assert front + tail == d;
    }
  }

  /**
   * The layout of a grouped number: counted from the right, every fourth character is the
   * separator and every other one a digit, so the groups after the first hold exactly three digits
   * and the first holds one to three.
   */
  predicate RuGrouped(r: string) {
    && |r| % 4 != 0
    && (forall k :: 0 <= k < |r| ==> (r[k] == GroupSeparator <==> (|r| - k) % 4 == 0))
    && (forall k :: 0 <= k < |r| && r[k] != GroupSeparator ==> IsDigit(r[k]))
  }

  /** Grouping a non-empty digit string puts a separator before every third digit from the right, and nowhere else. */
  lemma {:induction false} GroupThousandsLayout(d: string)
    requires d != [] && AllDigits(d)
    ensures RuGrouped(GroupThousands(d))
    ensures |GroupThousands(d)| == |d| + (|d| - 1) / 3
  {
    if |d| <= 3 {
      ShortGroup(d);
    } else {
      var front, tail := d[..|d| - 3], d[|d| - 3..];
      GroupThousandsLayout(front);
      assert AllDigits(tail) by {
        assert forall k :: 0 <= k < |tail| ==> tail[k] == d[|d| - 3 + k];
      }
      NextGroup(GroupThousands(front), tail);
    }
  }

  /** Up to three digits form a single group. */
  lemma ShortGroup(d: string)
    requires 1 <= |d| <= 3 && AllDigits(d)
    ensures RuGrouped(d)
  {
    forall k | 0 <= k < |d| ensures d[k] != GroupSeparator && (|d| - k) % 4 != 0 {
    }
  }

  /** A separator and three more digits after a grouped text keep it grouped. */
  lemma NextGroup(head: string, tail: string)
    requires RuGrouped(head) && |tail| == 3 && AllDigits(tail)
    ensures RuGrouped(head + [GroupSeparator] + tail)
  {
    var r := head + [GroupSeparator] + tail;
    forall k | 0 <= k < |r|
      ensures r[k] == GroupSeparator <==> (|r| - k) % 4 == 0
      ensures r[k] != GroupSeparator ==> IsDigit(r[k])
    {
      if k < |head| {
        assert r[k] == head[k];
        assert |r| - k == (|head| - k) + 4;
      } else if k > |head| {
        assert r[k] == tail[k - |head| - 1];
      }
    }
  }

  /** `n.toLocaleString("ru-RU")` for a whole number. */
  function FormatRu(n: int): (s: string)
    ensures |s| >= 1
    ensures forall k :: 0 <= k < |s| ==> IsDigit(s[k]) || s[k] == GroupSeparator || s[k] == '-'
    ensures (IsDigit(s[0]) || s[0] == '-') && IsDigit(s[|s| - 1])
  {
    if n < 0 then "-" + GroupThousands(Decimal(-n)) else GroupThousands(Decimal(n))
  }

  /** A formatted amount is its decimal digits laid out in groups of three from the right, after a minus sign when negative. */
  lemma FormatRuGrouped(n: int)
    ensures n >= 0 ==> RuGrouped(FormatRu(n))
    ensures n < 0 ==> FormatRu(n)[0] == '-' && RuGrouped(FormatRu(n)[1..])
  {
    if n >= 0 {
      GroupThousandsLayout(Decimal(n));
    } else {
      GroupThousandsLayout(Decimal(-n));
      assert FormatRu(n)[1..] == GroupThousands(Decimal(-n));
    }
  }

  /** The digits of a formatted non-negative amount are its decimal rendering. */
  lemma FormatRuDigits(n: nat)
    ensures DigitsOnly(FormatRu(n)) == Decimal(n)
  {
    DigitsOnlyOfGrouped(Decimal(n));
  }

  /** A formatted amount never contains an angle bracket, so the link sanitiser leaves it intact. */
  lemma FormatRuNoAngles(n: int)
    ensures '<' !in FormatRu(n) && '>' !in FormatRu(n)
  {
  }
}
