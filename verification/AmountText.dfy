/** Amounts as they are printed: Indian digit grouping (backend/app/render/numbers.py). */
module AmountText {
  import opened Text

  predicate IsDigit(c: char) { '0' <= c <= '9' }

  predicate AllDigits(s: string) { forall i :: 0 <= i < |s| ==> IsDigit(s[i]) }

  function DigitChar(d: nat): (c: char)
    requires d < 10
    ensures IsDigit(c) && DigitValue(c) == d
  {
    (48 + d) as char
  }

  function DigitValue(c: char): (d: nat)
    requires IsDigit(c)
    ensures d < 10
  {
    c as int - 48
  }

  /** The decimal digits of a number, most significant first. */
  function Decimal(n: nat): (s: string)
    ensures s != "" && AllDigits(s)
  {
    if n < 10 then [DigitChar(n)] else Decimal(n / 10) + [DigitChar(n % 10)]
  }

  /** The number that decimal digits stand for; none stand for zero. */
  function Value(s: string): nat
    requires AllDigits(s)
  {
    if s == "" then 0 else Value(s[..|s| - 1]) * 10 + DigitValue(s[|s| - 1])
  }

  lemma ValueAppend(s: string, c: char)
    requires AllDigits(s) && IsDigit(c)
    ensures AllDigits(s + [c]) && Value(s + [c]) == Value(s) * 10 + DigitValue(c)
  {
    assert (s + [c])[..|s|] == s;
  }

  lemma {:induction false} DecimalHasValue(n: nat)
    ensures Value(Decimal(n)) == n
  {
    if n < 10 {
      ValueAppend("", DigitChar(n));
      assert "" + [DigitChar(n)] == Decimal(n);
    } else {
      DecimalHasValue(n / 10);
      ValueAppend(Decimal(n / 10), DigitChar(n % 10));
    }
  }

  // ------------------------------------------------------------------------------- grouping

  /** Pairs from the right, with commas between. */
  function Pairs(head: string): (s: string)
    ensures head != "" ==> s != ""
  {
    if |head| <= 2 then head else Pairs(head[..|head| - 2]) + "," + head[|head| - 2..]
  }

  /** Digits as they are grouped in India: three at the end, and pairs before them. */
  function Grouped(digits: string): string {
    if |digits| <= 3 then digits else Pairs(digits[..|digits| - 3]) + "," + digits[|digits| - 3..]
  }

  function Abs(n: int): nat { if n < 0 then -n else n }

  function Sign(n: int): string { if n < 0 then "-" else "" }

  lemma JoinInFront(part: string, parts: seq<string>)
    requires parts != []
    ensures Join(",", [part] + parts) == part + "," + Join(",", parts)
  {
    assert ([part] + parts)[1..] == parts;
  }

  lemma {:induction false} JoinBehind(parts: seq<string>, part: string)
    requires parts != []
    ensures Join(",", parts + [part]) == Join(",", parts) + "," + part
    decreases |parts|
  {
    if |parts| == 1 {
      assert parts + [part] == [parts[0], part];
      JoinInFront(parts[0], [part]);
    } else {
      assert parts + [part] == [parts[0]] + (parts[1..] + [part]);
      JoinInFront(parts[0], parts[1..] + [part]);
      JoinBehind(parts[1..], part);
      assert [parts[0]] + parts[1..] == parts;
      JoinInFront(parts[0], parts[1..]);
    }
  }

  /** What the head and the pairs already taken off it come to. */
  function SoFar(head: string, groups: seq<string>): string {
    if groups == [] then Pairs(head) else Pairs(head) + "," + Join(",", groups)
  }

  lemma TakePair(head: string, groups: seq<string>)
    requires |head| > 2
    ensures SoFar(head, groups) == SoFar(head[..|head| - 2], [head[|head| - 2..]] + groups)
  {
    var front, pair := head[..|head| - 2], head[|head| - 2..];
    if groups == [] {
      assert [pair] + groups == [pair];
    } else {
      JoinInFront(pair, groups);
      assert Pairs(front) + "," + pair + "," + Join(",", groups) == Pairs(front) + "," +
          (pair + "," + Join(",", groups));
    }
  }

  lemma LastPair(head: string, groups: seq<string>)
    requires 0 < |head| <= 2
    ensures SoFar(head, groups) == Join(",", [head] + groups)
  {
    if groups != [] { JoinInFront(head, groups); }
  }

  /** Takes pairs off the end of the head until at most two digits are left. */
  method GroupIndian(n: int) returns (s: string)
    ensures s == Sign(n) + Grouped(Decimal(Abs(n)))
  {
    var digits := Decimal(Abs(n));
    if |digits| <= 3 {
      return Sign(n) + digits;
    }
    var head, tail := digits[..|digits| - 3], digits[|digits| - 3..];
    var groups: seq<string> := [];
    while |head| > 2
      invariant head != ""
      invariant SoFar(head, groups) == Pairs(digits[..|digits| - 3])
    {
      TakePair(head, groups);
      groups := [head[|head| - 2..]] + groups;
      head := head[..|head| - 2];
    }
    LastPair(head, groups);
    if head != "" {
      groups := [head] + groups;
    }
    JoinBehind(groups, tail);
    s := Sign(n) + Join(",", groups + [tail]);
  }

  /** Two decimal places. */
  function TwoPlaces(n: nat): string
    requires n < 100
  {
    [DigitChar(n / 10), DigitChar(n % 10)]
  }

  function Fraction(remainder: nat): string
    requires remainder < 100
  {
    if remainder != 0 then "." + TwoPlaces(remainder) else ""
  }

  /** An amount without its sign and currency. */
  function Body(paise: nat): string { Grouped(Decimal(paise / 100)) + Fraction(paise % 100) }

  function Format(paise: int): string { Sign(paise) + "₹" + Body(Abs(paise)) }

  method FormatInr(paise: int) returns (s: string)
    ensures s == Format(paise)
  {
    var rupees, remainder := Abs(paise) / 100, Abs(paise) % 100;
    var body := GroupIndian(rupees);
    s := Sign(paise) + "₹" + body + Fraction(remainder);
  }

  // ------------------------------------------------------------------- what grouping looks like

  /** `text.replace(",", "")`. */
  function WithoutCommas(s: string): string {
    if s == "" then ""
    else WithoutCommas(s[..|s| - 1]) + (if s[|s| - 1] == ',' then "" else [s[|s| - 1]])
  }

  lemma {:induction false} WithoutCommasBoth(s: string, t: string)
    ensures WithoutCommas(s + t) == WithoutCommas(s) + WithoutCommas(t)
    decreases |t|
  {
    if t == "" {
      assert s + t == s;
    } else {
      assert (s + t)[..|s + t| - 1] == s + t[..|t| - 1];
      WithoutCommasBoth(s, t[..|t| - 1]);
    }
  }

  lemma {:induction false} WithoutCommasKeepsDigits(s: string)
    requires ',' !in s
    ensures WithoutCommas(s) == s
  {
    if s != "" {
      WithoutCommasKeepsDigits(s[..|s| - 1]);
      assert s[..|s| - 1] + [s[|s| - 1]] == s;
    }
  }

  lemma DigitsHaveNoComma(s: string)
    requires AllDigits(s)
    ensures ',' !in s && '.' !in s
  {
  }

  lemma OneComma()
    ensures WithoutCommas(",") == ""
  {
    assert ","[..0] == "";
  }

  lemma CommaVanishes(a: string, b: string)
    requires AllDigits(b)
    ensures WithoutCommas(a + "," + b) == WithoutCommas(a) + b
  {
    WithoutCommasKeepsDigits(b);
    OneComma();
    WithoutCommasBoth(a, ",");
    WithoutCommasBoth(a + ",", b);
  }

  lemma {:induction false} PairsKeepDigits(head: string)
    requires AllDigits(head)
    ensures WithoutCommas(Pairs(head)) == head
  {
    if |head| <= 2 {
      DigitsHaveNoComma(head);
      WithoutCommasKeepsDigits(head);
    } else {
      PairsKeepDigits(head[..|head| - 2]);
      CommaVanishes(Pairs(head[..|head| - 2]), head[|head| - 2..]);
      assert head[..|head| - 2] + head[|head| - 2..] == head;
    }
  }

  /** Grouping adds commas and changes nothing else. */
  lemma GroupingKeepsDigits(digits: string)
    requires AllDigits(digits)
    ensures WithoutCommas(Grouped(digits)) == digits
  {
    if |digits| <= 3 {
      DigitsHaveNoComma(digits);
      WithoutCommasKeepsDigits(digits);
    } else {
      var head, tail := digits[..|digits| - 3], digits[|digits| - 3..];
      PairsKeepDigits(head);
      CommaVanishes(Pairs(head), tail);
      assert head + tail == digits;
    }
  }

  /** The character `k` places from the right. */
  function FromRight(s: string, k: nat): char
    requires k < |s|
  {
    s[|s| - 1 - k]
  }

  lemma FromRightOf(a: string, b: string, k: nat)
    requires k < |a + b|
    ensures FromRight(a + b, k) == if k < |b| then FromRight(b, k) else FromRight(a, k - |b|)
  {
  }

  lemma {:induction false} PairsCommas(head: string, k: nat)
    requires AllDigits(head) && k < |Pairs(head)|
    ensures if k % 3 == 2 then FromRight(Pairs(head), k) == ',' else IsDigit(FromRight(Pairs(head), k))
    decreases |head|
  {
    if |head| > 2 {
      var front := Pairs(head[..|head| - 2]);
      FromRightOf(front + ",", head[|head| - 2..], k);
      if k >= 3 {
        PairsCommas(head[..|head| - 2], k - 3);
        FromRightOf(front, ",", k - 2);
      }
    }
  }

  lemma HeadAndTailCommas(head: string, tail: string, k: nat)
    requires AllDigits(head) && AllDigits(tail) && |tail| == 3 && k < |Pairs(head) + "," + tail|
    ensures var s := Pairs(head) + "," + tail;
            if k > 0 && k % 3 == 0 then FromRight(s, k) == ',' else IsDigit(FromRight(s, k))
  {
    FromRightOf(Pairs(head) + ",", tail, k);
    if k == 3 {
      FromRightOf(Pairs(head), ",", 0);
    } else if k > 3 {
      FromRightOf(Pairs(head), ",", k - 3);
      PairsCommas(head, k - 4);
      FourBack(k);
    }
  }

  lemma FourBack(k: nat)
    requires k >= 4
    ensures (k - 4) % 3 == 2 <==> k % 3 == 0
  {
  }

  /** Counting from the right, every third character is a comma and all the others are digits. */
  lemma CommasEveryThird(digits: string, k: nat)
    requires AllDigits(digits) && k < |Grouped(digits)|
    ensures if k > 0 && k % 3 == 0 then FromRight(Grouped(digits), k) == ',' else IsDigit(FromRight(Grouped(digits), k))
  {
    if |digits| > 3 { HeadAndTailCommas(digits[..|digits| - 3], digits[|digits| - 3..], k); }
  }
}
