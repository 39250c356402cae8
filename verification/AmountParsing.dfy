/**
 * Reading what people type for an amount (backend/app/ingestion/normalise.py), on ASCII text and the rupee
 * sign: read to the paisa, or refused.
 */
module AmountParsing {
  import opened AmountText
  import opened Text

  /** A cell as it arrives. */
  datatype Raw = Missing | Whole(rupees: int) | Cell(text: string)

  /** `Scaled` is a multiple of lakh or crore that the code computes in floating point. */
  datatype Parsed = Paise(paise: int) | Scaled(negative: bool, mantissa: string, unit: nat) | Refused

  // ---------------------------------------------------------------------- pieces of patterns

  predicate IsSpace(c: char) { 9 <= c as int <= 13 || 28 <= c as int <= 32 }

  function StripLeft(s: string): string {
    if s != "" && IsSpace(s[0]) then StripLeft(s[1..]) else s
  }

  function StripRight(s: string): string {
    if s != "" && IsSpace(s[|s| - 1]) then StripRight(s[..|s| - 1]) else s
  }

  function Strip(s: string): string { StripRight(StripLeft(s)) }

  function Lower(c: char): char {
    if 'A' <= c <= 'Z' then (c as int + 32) as char else c
  }

  predicate IsWordChar(c: char) { IsDigit(c) || 'a' <= Lower(c) <= 'z' || c == '_' }

  /** The letters of `w`, in either case, stand at `i`. */
  predicate StandsAt(s: string, i: nat, w: string) {
    i + |w| <= |s| && forall k :: 0 <= k < |w| ==> Lower(s[i + k]) == w[k]
  }

  /** ... and stand there as a whole word. */
  predicate WordAt(s: string, i: nat, w: string) {
    && StandsAt(s, i, w)
    && (i == 0 || !IsWordChar(s[i - 1]))
    && (i + |w| == |s| || !IsWordChar(s[i + |w|]))
  }

  predicate Mentions(s: string, w: string) { exists i :: 0 <= i <= |s| && WordAt(s, i, w) }

  predicate EndsInWord(s: string, w: string) { |w| <= |s| && WordAt(s, |s| - |w|, w) }

  predicate Is(s: string, w: string) { |s| == |w| && StandsAt(s, 0, w) }

  /** The longest run of digits and points at the front. */
  function Mantissa(s: string): (m: string)
    ensures m <= s
  {
    if s != "" && (IsDigit(s[0]) || s[0] == '.') then [s[0]] + Mantissa(s[1..]) else ""
  }

  function AfterMantissa(s: string): string { StripLeft(s[|Mantissa(s)|..]) }

  predicate InLakh(s: string) {
    var unit := AfterMantissa(s);
    Mantissa(s) != "" && (Is(unit, "lakh") || Is(unit, "lakhs") || Is(unit, "lac") || Is(unit, "lacs"))
  }

  predicate InCrore(s: string) {
    var unit := AfterMantissa(s);
    Mantissa(s) != "" && (Is(unit, "crore") || Is(unit, "crores") || Is(unit, "cr"))
  }

  /** One or two digits, then any number of a comma and two digits. */
  predicate PairGroups(s: string) {
    if |s| <= 2 then s != "" && AllDigits(s)
    else |s| > 3 && s[|s| - 3] == ',' && AllDigits(s[|s| - 2..]) && PairGroups(s[..|s| - 3])
  }

  /** Indian grouping: at least one pair, then three digits. */
  predicate IndianGroups(s: string) {
    |s| >= 8 && s[|s| - 4] == ',' && AllDigits(s[|s| - 3..]) && PairGroups(s[..|s| - 4])
  }

  /** One to three digits, then any number of a comma and three digits. */
  predicate TripleGroups(s: string) {
    if |s| <= 3 then s != "" && AllDigits(s)
    else |s| > 4 && s[|s| - 4] == ',' && AllDigits(s[|s| - 3..]) && TripleGroups(s[..|s| - 4])
  }

  /** Western grouping: the same, with at least one comma. */
  predicate WesternGroups(s: string) { |s| > 3 && TripleGroups(s) }

  // ---------------------------------------------------------------------------- the pipeline

  function WithoutCurrency(s: string): string {
    if StandsAt(s, 0, "rs") then Strip(if |s| > 2 && s[2] == '.' then s[3..] else s[2..])
    else if StandsAt(s, 0, "inr") then Strip(s[3..])
    else if s != "" && s[0] == '₹' then Strip(s[1..])
    else Strip(s)
  }

  function DropTrailer(s: string): string {
    if s != "" && (s[|s| - 1] == '/' || s[|s| - 1] == '-') then DropTrailer(s[..|s| - 1]) else s
  }

  /** Without a debit or credit side at the end. */
  function WithoutSide(s: string): string {
    if EndsInWord(s, "dr") || EndsInWord(s, "cr") then Strip(s[..|s| - 2])
    else if EndsInWord(s, "debit") then Strip(s[..|s| - 5])
    else if EndsInWord(s, "credit") then Strip(s[..|s| - 6])
    else Strip(s)
  }

  predicate OnCreditSide(s: string) { (Mentions(s, "cr") || Mentions(s, "credit")) && !InCrore(s) }

  function BeforePoint(s: string): (r: string)
    ensures |r| <= |s|
  {
    if s == "" || s[0] == '.' then "" else [s[0]] + BeforePoint(s[1..])
  }

  function AfterPoint(s: string): string {
    var n := |BeforePoint(s)|;
    if n < |s| then s[n + 1..] else ""
  }

  function Filled(decimals: string): string {
    if decimals == "" then "00" else if |decimals| == 1 then decimals + "0" else decimals
  }

  /** Rupees and paise, from their digits. */
  function Amount(negative: bool, digits: string, decimals: string): Parsed
    requires AllDigits(digits) && AllDigits(Filled(decimals))
  {
    Paise(Signed(negative, Value(digits) * 100 + Value(Filled(decimals))))
  }

  /** An integer part, with or without grouping, and the decimals after the point. */
  function ReadParts(negative: bool, integer: string, decimals: string): Parsed {
    if ',' in integer && !IndianGroups(integer) && !WesternGroups(integer) then Refused
    else
      var digits := if ',' in integer then WithoutCommas(integer) else integer;
      if digits == "" || !AllDigits(digits) then Refused
      else if !AllDigits(decimals) || |decimals| > 2 then Refused
      else Amount(negative, digits, decimals)
  }

  /** The last step: a plain number. */
  function ReadNumber(negative: bool, s: string): Parsed {
    ReadParts(negative, Strip(BeforePoint(s)), AfterPoint(s))
  }

  function ReadScaled(negative: bool, s: string): Parsed {
    if InLakh(s) then Scaled(negative, Mantissa(s), LAKH)
    else if InCrore(s) then Scaled(negative, Mantissa(s), CRORE)
    else ReadNumber(negative, s)
  }

  function ReadSide(negative: bool, s: string): Parsed {
    ReadScaled(negative || OnCreditSide(s), WithoutSide(s))
  }

  function ReadSign(negative: bool, s: string): Parsed {
    if s != "" && s[0] == '-' then ReadSide(!negative, Strip(s[1..]))
    else if s != "" && s[0] == '+' then ReadSide(negative, Strip(s[1..]))
    else ReadSide(negative, s)
  }

  function ReadCurrency(negative: bool, s: string): Parsed {
    ReadSign(negative, Strip(DropTrailer(WithoutCurrency(s))))
  }

  predicate Bracketed(s: string) { |s| >= 2 && s[0] == '(' && s[|s| - 1] == ')' }

  function ReadText(raw: string): Parsed {
    var s := Strip(raw);
    if s == "" then Refused
    else if Bracketed(s) then ReadCurrency(true, Strip(s[1..|s| - 1]))
    else ReadCurrency(false, s)
  }

  function Read(raw: Raw): Parsed {
    match raw
    case Missing => Refused
    case Whole(rupees) => Paise(rupees * 100)
    case Cell(text) => ReadText(text)
  }

  /** The same, rewriting the text and the sign step by step. */
  method NormaliseAmount(raw: Raw) returns (r: Parsed)
    ensures r == Read(raw)
  {
    if raw.Missing? { return Refused; }
    if raw.Whole? { return Paise(raw.rupees * 100); }
    var text := Strip(raw.text);
    if text == "" { return Refused; }
    var negative := false;
    if text[0] == '(' && text[|text| - 1] == ')' {
      negative := true;
      text := Strip(text[1..|text| - 1]);
    }
    text := WithoutCurrency(text);
    text := Strip(DropTrailer(text));
    assert Read(raw) == ReadSign(negative, text);
    if text != "" && text[0] == '-' {
      negative := !negative;
      text := Strip(text[1..]);
    } else if text != "" && text[0] == '+' {
      text := Strip(text[1..]);
    }
    assert Read(raw) == ReadSide(negative, text);
    if OnCreditSide(text) { negative := true; }
    text := WithoutSide(text);
    assert Read(raw) == ReadScaled(negative, text);
    if InLakh(text) { return Scaled(negative, Mantissa(text), LAKH); }
    if InCrore(text) { return Scaled(negative, Mantissa(text), CRORE); }
    r := ReadNumber(negative, text);
  }

  // --------------------------------------------------------- the grouping the parser accepts

  lemma PairsAppend(head: string, pair: string)
    requires head != "" && |pair| == 2
    ensures Pairs(head + pair) == Pairs(head) + "," + pair
  {
    var digits := head + pair;
    assert digits[..|digits| - 2] == head && digits[|digits| - 2..] == pair;
  }

  lemma PairGroupsStep(front: string, pair: string)
    requires AllDigits(WithoutCommas(front)) && front == Pairs(WithoutCommas(front)) && front != ""
    requires AllDigits(pair) && |pair| == 2
    ensures AllDigits(WithoutCommas(front + "," + pair))
    ensures front + "," + pair == Pairs(WithoutCommas(front + "," + pair))
  {
    var digits := WithoutCommas(front);
    assert digits == "" ==> Pairs(digits) == "";
    PairsAppend(digits, pair);
    CommaVanishes(front, pair);
  }

  lemma ShortIsOneGroup(s: string)
    requires 1 <= |s| <= 2 && AllDigits(s)
    ensures WithoutCommas(s) == s == Pairs(s)
  {
    WithoutCommasKeepsDigits(s);
  }

  lemma {:induction false} PairGroupsArePairs(s: string)
    requires PairGroups(s)
    ensures AllDigits(WithoutCommas(s)) && s == Pairs(WithoutCommas(s)) && s != ""
  {
    if |s| <= 2 {
      ShortIsOneGroup(s);
    } else {
      var front, pair := s[..|s| - 3], s[|s| - 2..];
      assert s == front + "," + pair;
      PairGroupsArePairs(front);
      PairGroupsStep(front, pair);
    }
  }

  lemma {:induction false} PairsAreGroups(digits: string)
    requires AllDigits(digits) && digits != ""
    ensures PairGroups(Pairs(digits))
  {
    if |digits| > 2 {
      var front, pair := digits[..|digits| - 2], digits[|digits| - 2..];
      PairsAreGroups(front);
      var s := Pairs(front) + "," + pair;
      assert s[..|s| - 3] == Pairs(front);
      assert s[|s| - 2..] == pair;
    }
  }

  lemma IndianIsGrouped(front: string, tail: string)
    requires PairGroups(front) && |front| >= 4 && AllDigits(tail) && |tail| == 3
    ensures AllDigits(WithoutCommas(front + "," + tail)) && |WithoutCommas(front + "," + tail)| >= 6
    ensures front + "," + tail == Grouped(WithoutCommas(front + "," + tail))
  {
    PairGroupsArePairs(front);
    CommaVanishes(front, tail);
    var head := WithoutCommas(front);
    var digits := head + tail;
    assert digits[..|digits| - 3] == head && digits[|digits| - 3..] == tail;
  }

  /** The Indian pattern accepts exactly what is printed for six digits or more. */
  lemma IndianGroupsExactly(s: string)
    ensures IndianGroups(s) <==>
            AllDigits(WithoutCommas(s)) && |WithoutCommas(s)| >= 6 && s == Grouped(WithoutCommas(s))
  {
    if IndianGroups(s) {
      var front, tail := s[..|s| - 4], s[|s| - 3..];
      assert s == front + "," + tail;
      IndianIsGrouped(front, tail);
    } else if AllDigits(WithoutCommas(s)) && |WithoutCommas(s)| >= 6 {
      GroupedIsIndian(WithoutCommas(s));
    }
  }

  lemma GroupedIsIndian(digits: string)
    requires AllDigits(digits) && |digits| >= 6
    ensures IndianGroups(Grouped(digits)) && ',' in Grouped(digits)
  {
    var head, tail := digits[..|digits| - 3], digits[|digits| - 3..];
    var s := Grouped(digits);
    PairsAreGroups(head);
    assert s == Pairs(head) + "," + tail;
    assert s[..|s| - 4] == Pairs(head) && s[|s| - 3..] == tail && s[|s| - 4] == ',';
  }

  lemma GroupedIsWestern(digits: string)
    requires AllDigits(digits) && 4 <= |digits| <= 5
    ensures WesternGroups(Grouped(digits)) && ',' in Grouped(digits)
  {
    var head, tail := digits[..|digits| - 3], digits[|digits| - 3..];
    var s := Grouped(digits);
    assert s == head + "," + tail;
    assert s[..|s| - 4] == head && s[|s| - 3..] == tail && s[|s| - 4] == ',';
  }

  /** From the right, every fourth character is a comma and all the others are digits. */
  ghost predicate Thirds(s: string) {
    forall k :: 0 <= k < |s| ==> if k % 4 == 3 then FromRight(s, k) == ',' else IsDigit(FromRight(s, k))
  }

  lemma ThirdsStep(s: string)
    requires |s| > 3
    ensures Thirds(s) <==> s[|s| - 4] == ',' && AllDigits(s[|s| - 3..]) && Thirds(s[..|s| - 4])
  {
    var front, last := s[..|s| - 4], s[|s| - 3..];
    assert forall k :: 0 <= k < |front| ==> FromRight(front, k) == FromRight(s, k + 4);
    if Thirds(s) {
      assert FromRight(s, 3) == s[|s| - 4];
      assert FromRight(s, 0) == last[2] && FromRight(s, 1) == last[1] && FromRight(s, 2) == last[0];
    } else if s[|s| - 4] == ',' && AllDigits(last) && Thirds(front) {
      forall k | 0 <= k < |s| ensures if k % 4 == 3 then FromRight(s, k) == ',' else IsDigit(FromRight(s, k)) {
        if k < 3 { assert FromRight(s, k) == last[2 - k]; }
        if k > 3 { assert FromRight(s, k) == FromRight(front, k - 4); }
      }
    }
  }

  lemma {:induction false} TriplesExactly(s: string)
    ensures TripleGroups(s) <==> |s| % 4 != 0 && Thirds(s)
  {
    if |s| <= 3 {
      assert forall k :: 0 <= k < |s| ==> FromRight(s, k) == s[|s| - 1 - k];
      assert forall i :: 0 <= i < |s| ==> s[i] == FromRight(s, |s| - 1 - i);
    } else {
      ThirdsStep(s);
      TriplesExactly(s[..|s| - 4]);
    }
  }

  /** The Western pattern accepts exactly a comma before every third digit from the right, with at least one. */
  lemma WesternGroupsExactly(s: string)
    ensures WesternGroups(s) <==> |s| > 3 && |s| % 4 != 0 && Thirds(s)
  {
    TriplesExactly(s);
  }

  // -------------------------------------------------------------- what is accepted, and refused

  /** An amount is refused exactly when its integer part is neither digits alone nor grouped in one of the two ways, or
      when what follows the point is not digits or is more than two. One digit after the point is tens of paise. */
  lemma PartsReadExactly(negative: bool, integer: string, decimals: string)
    ensures ReadParts(negative, integer, decimals) == Refused <==>
            || !((integer != "" && AllDigits(integer)) || IndianGroups(integer) || WesternGroups(integer))
            || !AllDigits(decimals) || |decimals| > 2
    ensures ReadParts(negative, integer, decimals) != Refused ==>
              var digits := WithoutCommas(integer);
              && AllDigits(digits)
              && (decimals == "" ==>
                    ReadParts(negative, integer, decimals) == Paise(Signed(negative, Value(digits) * 100)))
              && (|decimals| == 1 ==>
                    IsDigit(decimals[0]) &&
                    ReadParts(negative, integer, decimals) ==
                    Paise(Signed(negative, Value(digits) * 100 + DigitValue(decimals[0]) * 10)))
  {
    PartsRefusedExactly(negative, integer, decimals);
    if ReadParts(negative, integer, decimals) != Refused {
      PartsAreDigits(negative, integer, decimals);
      AmountSays(negative, WithoutCommas(integer), decimals);
    }
  }

  lemma PartsRefusedExactly(negative: bool, integer: string, decimals: string)
    ensures ReadParts(negative, integer, decimals) == Refused <==>
            || !((integer != "" && AllDigits(integer)) || IndianGroups(integer) || WesternGroups(integer))
            || !AllDigits(decimals) || |decimals| > 2
  {
    GroupsHaveDigits(integer);
  }

  lemma PartsAreDigits(negative: bool, integer: string, decimals: string)
    requires ReadParts(negative, integer, decimals) != Refused
    ensures AllDigits(WithoutCommas(integer)) && AllDigits(decimals) && AllDigits(Filled(decimals))
    ensures ReadParts(negative, integer, decimals) == Amount(negative, WithoutCommas(integer), decimals)
  {
    PartsRefusedExactly(negative, integer, decimals);
    FilledIsDigits(decimals);
    if AllDigits(integer) {
      WithoutCommasKeepsDigits(integer);
    } else {
      GroupsHaveDigits(integer);
    }
  }

  lemma FilledIsDigits(decimals: string)
    ensures AllDigits(decimals) ==> AllDigits(Filled(decimals))
  {
  }

  lemma AmountSays(negative: bool, digits: string, decimals: string)
    requires AllDigits(digits) && AllDigits(decimals) && AllDigits(Filled(decimals))
    ensures decimals == "" ==> Amount(negative, digits, decimals) == Paise(Signed(negative, Value(digits) * 100))
    ensures |decimals| == 1 ==>
              Amount(negative, digits, decimals) ==
              Paise(Signed(negative, Value(digits) * 100 + DigitValue(decimals[0]) * 10))
  {
    NothingHasNoValue();
    if |decimals| == 1 { TensHaveValue(decimals); }
  }

  lemma NothingHasNoValue()
    ensures AllDigits("00") && Value("00") == 0
  {
    ValueAppend("", '0');
    assert "" + "0" == "0" && "0" + "0" == "00";
    ValueAppend("0", '0');
  }

  lemma TensHaveValue(decimals: string)
    requires |decimals| == 1 && IsDigit(decimals[0])
    ensures AllDigits(Filled(decimals)) && Value(Filled(decimals)) == DigitValue(decimals[0]) * 10
  {
    ValueAppend("", decimals[0]);
    assert "" + [decimals[0]] == decimals;
    ValueAppend(decimals, '0');
  }

  /** Either grouping has digits under its commas. */
  lemma GroupsHaveDigits(s: string)
    ensures IndianGroups(s) || WesternGroups(s) ==>
              ',' in s && WithoutCommas(s) != "" && AllDigits(WithoutCommas(s))
    ensures AllDigits(s) ==> ',' !in s
  {
    IndianGroupsExactly(s);
    WesternGroupsExactly(s);
    if IndianGroups(s) { assert s[|s| - 4] == ','; }
    if WesternGroups(s) {
      assert s[|s| - 4] == ',';
      OnlyDigitsLeft(s);
    }
  }

  lemma {:induction false} OnlyDigitsLeft(s: string)
    requires TripleGroups(s)
    ensures WithoutCommas(s) != "" && AllDigits(WithoutCommas(s))
  {
    if |s| <= 3 {
      WithoutCommasKeepsDigits(s);
    } else {
      var front, last := s[..|s| - 4], s[|s| - 3..];
      assert s == front + "," + last;
      OnlyDigitsLeft(front);
      CommaVanishes(front, last);
    }
  }

  /** Lakh and crore under all their names: what stands before, and how many rupees they are. */
  lemma UnitsAreRead(negative: bool, b: string)
    requires Numeral(b) && ',' !in b
    ensures forall w :: w in {"lakh", "lakhs", "lac", "lacs"} ==>
              ReadScaled(negative, b + w) == ReadScaled(negative, b + " " + w) == Scaled(negative, b, 100_000)
    ensures forall w :: w in {"crore", "crores", "cr"} ==>
              ReadScaled(negative, b + w) == ReadScaled(negative, b + " " + w) == Scaled(negative, b, 10_000_000)
  {
    forall w | w in {"lakh", "lakhs", "lac", "lacs", "crore", "crores", "cr"}
      ensures Mantissa(b + w) == Mantissa(b + " " + w) == b && AfterMantissa(b + w) == AfterMantissa(b + " " + w) == w
    {
      UnitFollows(b, w);
    }
    LakhNames();
    CroreNames();
  }

  /** Without a number before it a unit is none. */
  lemma NoNumberNoUnit(negative: bool, s: string)
    requires s == "" || (!IsDigit(s[0]) && s[0] != '.')
    ensures ReadScaled(negative, s) == ReadNumber(negative, s)
  {
  }

  lemma UnitFollows(b: string, w: string)
    requires Numeral(b) && ',' !in b && w != "" && 'a' <= w[0] <= 'z'
    ensures Mantissa(b + w) == Mantissa(b + " " + w) == b && AfterMantissa(b + w) == AfterMantissa(b + " " + w) == w
  {
    MantissaOf(b, w);
    MantissaOf(b, " " + w);
    assert b + " " + w == b + (" " + w);
    assert (b + w)[|b|..] == w && (b + (" " + w))[|b|..] == " " + w;
    assert (" " + w)[1..] == w;
    assert StripLeft(w) == w;
  }

  lemma LakhNames()
    ensures Is("lakh", "lakh") && Is("lakhs", "lakhs") && Is("lac", "lac") && Is("lacs", "lacs")
  {
  }

  lemma CroreNames()
    ensures Is("crore", "crore") && Is("crores", "crores") && Is("cr", "cr")
    ensures forall w :: w in {"crore", "crores", "cr"} ==>
              !Is(w, "lakh") && !Is(w, "lakhs") && !Is(w, "lac") && !Is(w, "lacs")
  {
    assert "crore"[0] == 'c' && "lakh"[0] == 'l' && "lakhs"[0] == 'l' && "lac"[0] == 'l' && "lacs"[0] == 'l';
  }

  /** The characters of a pattern: blanks, the letters in either case, and what a word is made of. */
  lemma CharactersSay(c: char)
    ensures IsSpace(c) <==> c as int in {9, 10, 11, 12, 13, 28, 29, 30, 31, 32}
    ensures 'A' <= c <= 'Z' ==> 'a' <= Lower(c) <= 'z' && Lower(c) as int - 'a' as int == c as int - 'A' as int
    ensures !('A' <= c <= 'Z') ==> Lower(c) == c
    ensures IsWordChar(c) <==> '0' <= c <= '9' || 'a' <= c <= 'z' || 'A' <= c <= 'Z' || c == '_'
  {
  }

  // ------------------------------------------------------------------- text without letters

  predicate IsNumeral(c: char) { IsDigit(c) || c == ',' || c == '.' }

  /** Digits, commas and points only. */
  predicate Numeral(s: string) { s != "" && forall i :: 0 <= i < |s| ==> IsNumeral(s[i]) }

  lemma StripKeeps(s: string)
    requires s != "" && !IsSpace(s[0]) && !IsSpace(s[|s| - 1])
    ensures Strip(s) == s
  {
  }

  /** No letter, no word. */
  lemma NoLetterNoSide(s: string)
    requires forall i :: 0 <= i < |s| ==> !('a' <= Lower(s[i]) <= 'z')
    requires s != "" && !IsSpace(s[0]) && !IsSpace(s[|s| - 1])
    ensures !OnCreditSide(s) && WithoutSide(s) == s
  {
    StripKeeps(s);
    forall i | 0 <= i <= |s| ensures !StandsAt(s, i, "cr") && !StandsAt(s, i, "credit") {
      assert i < |s| ==> Lower(s[i]) != "cr"[0] && Lower(s[i]) != "credit"[0];
    }
    NoLetterAtEnd(s);
  }

  lemma NoLetterAtEnd(s: string)
    requires forall i :: 0 <= i < |s| ==> !('a' <= Lower(s[i]) <= 'z')
    ensures !EndsInWord(s, "dr") && !EndsInWord(s, "cr") && !EndsInWord(s, "debit") && !EndsInWord(s, "credit")
  {
    assert |s| >= 2 ==> Lower(s[|s| - 2 + 0]) != "dr"[0] && Lower(s[|s| - 2 + 0]) != "cr"[0];
    assert |s| >= 5 ==> Lower(s[|s| - 5 + 0]) != "debit"[0];
    assert |s| >= 6 ==> Lower(s[|s| - 6 + 0]) != "credit"[0];
  }

  lemma NoLetterNoScale(s: string)
    requires forall i :: 0 <= i < |s| ==> !('a' <= Lower(s[i]) <= 'z') && !IsSpace(s[i])
    ensures !InLakh(s) && !InCrore(s)
  {
    var unit := s[|Mantissa(s)|..];
    assert StripLeft(unit) == unit;
    assert unit != "" ==> !('a' <= Lower(unit[0 + 0]) <= 'z');
    assert "lakh"[0] == 'l' && "lakhs"[0] == 'l' && "lac"[0] == 'l' && "lacs"[0] == 'l';
    assert "crore"[0] == 'c' && "crores"[0] == 'c' && "cr"[0] == 'c';
  }

  lemma NumeralSide(negative: bool, b: string)
    requires Numeral(b)
    ensures ReadSide(negative, b) == ReadNumber(negative, b) == ReadScaled(negative, b)
  {
    NoLetterNoSide(b);
    NoLetterNoScale(b);
  }

  lemma NoCurrency(s: string)
    requires s != "" && Lower(s[0]) != 'r' && Lower(s[0]) != 'i' && s[0] != '₹'
    requires !IsSpace(s[0]) && !IsSpace(s[|s| - 1])
    ensures WithoutCurrency(s) == s
  {
    StripKeeps(s);
    assert s[0 + 0] == s[0];
    assert "rs"[0] == 'r' && "inr"[0] == 'i';
  }

  lemma NumeralSign(negative: bool, b: string)
    requires Numeral(b)
    ensures ReadSign(negative, b) == ReadNumber(negative, b)
  {
    NumeralSide(negative, b);
    assert b[0] != '-' && b[0] != '+';
  }

  lemma MinusSign(negative: bool, b: string)
    requires Numeral(b)
    ensures ReadSign(negative, "-" + b) == ReadNumber(!negative, b)
  {
    StripKeeps(b);
    NumeralSide(!negative, b);
    assert ("-" + b)[1..] == b;
  }

  lemma NoTrailer(s: string)
    requires s != "" && !IsSpace(s[0]) && IsNumeral(s[|s| - 1])
    ensures Strip(DropTrailer(s)) == s
  {
    StripKeeps(s);
  }

  lemma CurrencyThenSign(negative: bool, s: string, t: string)
    requires Strip(DropTrailer(WithoutCurrency(s))) == t
    ensures ReadCurrency(negative, s) == ReadSign(negative, t)
  {
  }

  lemma TextThenCurrency(s: string)
    requires s != "" && s[0] != '(' && !IsSpace(s[0]) && !IsSpace(s[|s| - 1])
    ensures ReadText(s) == ReadCurrency(false, s)
  {
    StripKeeps(s);
  }

  lemma NumeralCurrency(negative: bool, b: string)
    requires Numeral(b)
    ensures ReadCurrency(negative, b) == ReadNumber(negative, b)
  {
    NoCurrency(b);
    NoTrailer(b);
    CurrencyThenSign(negative, b, b);
    NumeralSign(negative, b);
  }

  // -------------------------------------------------------- every decoration, one by one

  /** A numeral is read as it stands. */
  lemma NumeralIsRead(b: string)
    requires Numeral(b)
    ensures ReadText(b) == ReadNumber(false, b)
  {
    TextThenCurrency(b);
    NumeralCurrency(false, b);
  }

  lemma RupeeSignIsDropped(b: string)
    requires Numeral(b) || (b != "" && !IsSpace(b[0]) && !IsSpace(b[|b| - 1]))
    ensures WithoutCurrency("₹" + b) == b
  {
    var s := "₹" + b;
    StripKeeps(b);
    assert s[0 + 0] == '₹' && s[1..] == b;
    assert "rs"[0] == 'r' && "inr"[0] == 'i';
  }

  /** The rupee sign in front changes nothing. */
  lemma RupeeSignIsRead(b: string)
    requires Numeral(b)
    ensures ReadText("₹" + b) == ReadNumber(false, b)
  {
    var s := "₹" + b;
    TextThenCurrency(s);
    RupeeSignIsDropped(b);
    NoTrailer(b);
    CurrencyThenSign(false, s, b);
    NumeralSign(false, b);
  }

  /** A minus in front makes the amount negative. */
  lemma MinusIsRead(b: string)
    requires Numeral(b)
    ensures ReadText("-" + b) == ReadNumber(true, b)
  {
    var s := "-" + b;
    TextThenCurrency(s);
    NoCurrency(s);
    NoTrailer(s);
    CurrencyThenSign(false, s, s);
    MinusSign(false, b);
  }

  /** So do brackets around it. */
  lemma BracketsAreRead(b: string)
    requires Numeral(b)
    ensures ReadText("(" + b + ")") == ReadNumber(true, b)
  {
    var s := "(" + b + ")";
    StripKeeps(s);
    StripKeeps(b);
    assert s[1..|s| - 1] == b;
    NumeralCurrency(true, b);
  }

  lemma TrailerIsDropped(b: string)
    requires Numeral(b)
    ensures DropTrailer(b + "/-") == b
  {
    var u, t := b + "/", b + "/-";
    assert DropTrailer(b) == b;
    assert u[|u| - 1] == '/' && u[..|u| - 1] == b;
    assert DropTrailer(u) == DropTrailer(b);
    assert t[|t| - 1] == '-' && t[..|t| - 1] == u;
    assert DropTrailer(t) == DropTrailer(u);
  }

  lemma RsIsDropped(t: string)
    requires t != "" && !IsSpace(t[0]) && !IsSpace(t[|t| - 1])
    ensures WithoutCurrency("Rs. " + t) == t
  {
    var s := "Rs. " + t;
    assert StandsAt(s, 0, "rs");
    assert s[3..] == " " + t && (" " + t)[1..] == t;
    StripKeeps(t);
  }

  /** The usual prose form, `Rs. 4,50,000/-`. */
  lemma RsIsRead(b: string)
    requires Numeral(b)
    ensures ReadText("Rs. " + (b + "/-")) == ReadNumber(false, b)
  {
    var s := "Rs. " + (b + "/-");
    TextThenCurrency(s);
    RsIsDropped(b + "/-");
    TrailerIsDropped(b);
    StripKeeps(b);
    CurrencyThenSign(false, s, b);
    NumeralSign(false, b);
  }

  // ----------------------------------------------------------------- a side after the amount

  lemma {:induction false} MantissaOf(b: string, rest: string)
    requires Numeral(b) && ',' !in b && rest != "" && !IsDigit(rest[0]) && rest[0] != '.'
    ensures Mantissa(b + rest) == b
  {
    var s := b + rest;
    if |b| == 1 {
      assert s[1..] == rest;
      assert Mantissa(rest) == "";
    } else {
      assert s[1..] == b[1..] + rest;
      MantissaOf(b[1..], rest);
    }
    assert [b[0]] + b[1..] == b;
  }

  lemma {:induction false} MantissaEndsAtComma(b: string, rest: string)
    requires Numeral(b) && ',' in b
    ensures AfterMantissa(b + rest) != "" && AfterMantissa(b + rest)[0] == ','
  {
    var s := b + rest;
    if b[0] == ',' {
      assert s[|Mantissa(s)|..] == s;
    } else {
      assert s[1..] == b[1..] + rest;
      MantissaEndsAtComma(b[1..], rest);
      var t := s[1..];
      assert Mantissa(s) == [s[0]] + Mantissa(t);
      assert s[|Mantissa(s)|..] == t[|Mantissa(t)|..];
    }
  }

  /** "5 cr" is a crore amount by the pattern, "1,000 cr" is not: a comma is no part of a mantissa. */
  lemma CreditOrCrore(b: string)
    requires Numeral(b)
    ensures OnCreditSide(b + " cr") == (',' in b)
    ensures InCrore(b + " cr") == (',' !in b)
  {
    var s := b + " cr";
    assert WordAt(s, |b| + 1, "cr");
    if ',' in b {
      MantissaEndsAtComma(b, " cr");
      assert "crore"[0] == 'c' && "crores"[0] == 'c' && "cr"[0] == 'c';
      assert AfterMantissa(s)[0 + 0] == ',';
    } else {
      MantissaOf(b, " cr");
      assert s[|b|..] == " cr" && " cr"[1..] == "cr";
      assert AfterMantissa(s) == "cr";
    }
  }

  lemma SideIsDropped(b: string, side: string)
    requires Numeral(b) && (side == "cr" || side == "dr")
    ensures WithoutSide(b + " " + side) == b
  {
    var s := b + " " + side;
    EndsInItsWord(b, side);
    assert s[..|s| - 2] == b + " ";
    SpaceIsStripped(b);
  }

  lemma EndsInItsWord(b: string, w: string)
    requires StandsAt(w, 0, w)
    ensures EndsInWord(b + " " + w, w)
  {
    var s := b + " " + w;
    assert s[|b|] == ' ' && !IsWordChar(' ');
  }

  lemma SpaceIsStripped(b: string)
    requires b != "" && !IsSpace(b[0]) && !IsSpace(b[|b| - 1])
    ensures Strip(b + " ") == b
  {
    var t := b + " ";
    assert t[0] == b[0] && t[..|t| - 1] == b;
    StripKeeps(b);
  }

  lemma SideTextReachesSide(b: string, side: string)
    requires Numeral(b) && (side == "cr" || side == "dr")
    ensures ReadText(b + " " + side) == ReadSide(false, b + " " + side)
  {
    var s := b + " " + side;
    TextThenCurrency(s);
    NoCurrency(s);
    StripKeeps(s);
    assert DropTrailer(s) == s;
    CurrencyThenSign(false, s, s);
    assert s[0] == b[0];
  }

  /**
   * A credit suffix turns the amount negative exactly when the amount is written with commas. Without one it is
   * taken for a crore amount, and then the suffix is removed before it is multiplied: "5 cr" is read as five
   * rupees, which is neither five crore nor a credit of five.
   */
  lemma CreditSuffixExactly(b: string)
    requires Numeral(b)
    ensures ReadText(b + " " + "cr") == ReadNumber(',' in b, b)
  {
    var s := b + " " + "cr";
    assert s == b + " cr";
    CreditOrCrore(b);
    SideIsDropped(b, "cr");
    SideTextReachesSide(b, "cr");
    NumeralSide(',' in b, b);
  }

  /** A crore amount written in plain digits is read as that many rupees. */
  lemma PlainCroreIsReadAsRupees(digits: string)
    requires AllDigits(digits) && digits != ""
    ensures ReadText(digits + " " + "cr") == Paise(Value(digits) * 100)
  {
    DigitsHaveNoComma(digits);
    CreditSuffixExactly(digits);
    WholeIsRead(',' in digits, digits);
  }

  lemma WholeIsRead(negative: bool, digits: string)
    requires AllDigits(digits) && digits != "" && !negative
    ensures ReadNumber(negative, digits) == Paise(Value(digits) * 100)
  {
    WholeParts(digits);
    WithoutCommasKeepsDigits(digits);
    PartsReadExactly(negative, digits, "");
  }

  lemma WholeParts(digits: string)
    requires AllDigits(digits) && digits != ""
    ensures Strip(BeforePoint(digits)) == digits && AfterPoint(digits) == ""
  {
    PointFound(digits, "");
    assert digits + "" == digits;
    StripKeeps(digits);
  }

  /** The shortest example of it. */
  lemma FiveCroreIsReadAsFiveRupees()
    ensures ReadText("5 cr") == Paise(500)
  {
    PlainCroreIsReadAsRupees("5");
    assert "5 cr" == "5" + " " + "cr";
    FiveHasValue();
  }

  lemma FiveHasValue()
    ensures Value("5") == 5
  {
    ValueAppend("", '5');
    assert "" + ['5'] == "5";
  }

  lemma NoWordAfterDigit(b: string)
    requires b != "" && IsDigit(b[|b| - 1]) && !IsSpace(b[0])
    ensures WithoutSide(b + "cr") == b + "cr"
  {
    var s := b + "cr";
    var n := |b|;
    assert s[n - 1] == b[n - 1] && s[n] == 'c' && s[n + 1] == 'r';
    StripKeeps(s);
    assert Lower(s[|s| - 2 + 0]) != "dr"[0];
    assert IsWordChar(s[|s| - 2 - 1]);
    assert n >= 3 ==> Lower(s[|s| - 5 + 3]) != "debit"[3];
    assert n >= 4 ==> Lower(s[|s| - 6 + 4]) != "credit"[4];
  }

  lemma CroreIsTheUnit(b: string)
    requires Numeral(b) && ',' !in b
    ensures InCrore(b + "cr") && !InLakh(b + "cr") && Mantissa(b + "cr") == b
  {
    MantissaOf(b, "cr");
    assert (b + "cr")[|b|..] == "cr";
    assert AfterMantissa(b + "cr") == "cr";
    assert "cr"[0 + 0] == 'c' && "lakh"[0] == 'l' && "lakhs"[0] == 'l' && "lac"[0] == 'l' && "lacs"[0] == 'l';
  }

  /** Without the space the same letters do mean crore. */
  lemma CroreWithoutSpaceIsRead(b: string)
    requires Numeral(b) && ',' !in b && IsDigit(b[|b| - 1])
    ensures ReadText(b + "cr") == Scaled(false, b, CRORE)
  {
    var s := b + "cr";
    TextThenCurrency(s);
    NoCurrency(s);
    StripKeeps(s);
    assert DropTrailer(s) == s;
    CurrencyThenSign(false, s, s);
    assert s[0] == b[0];
    NoWordAfterDigit(b);
    CroreIsTheUnit(b);
  }

  /** A debit suffix changes nothing. */
  lemma DebitSuffixIsRead(b: string)
    requires Numeral(b)
    ensures ReadText(b + " " + "dr") == ReadNumber(false, b)
  {
    var s := b + " " + "dr";
    SideIsDropped(b, "dr");
    SideTextReachesSide(b, "dr");
    NoCreditInDebit(b);
    NumeralSide(false, b);
  }

  lemma NoCreditInDebit(b: string)
    requires Numeral(b)
    ensures !OnCreditSide(b + " " + "dr")
  {
    var s := b + " " + "dr";
    assert s[|b|] == ' ' && s[|b| + 1] == 'd' && s[|b| + 2] == 'r';
    forall i | 0 <= i <= |s| ensures !StandsAt(s, i, "cr") && !StandsAt(s, i, "credit") {
      assert i < |s| ==> Lower(s[i + 0]) != 'c';
      assert "cr"[0] == 'c' && "credit"[0] == 'c';
    }
  }

  // ------------------------------------------------------------------------- print, then read

  lemma {:induction false} PointFound(g: string, rest: string)
    requires '.' !in g && (rest == "" || rest[0] == '.')
    ensures BeforePoint(g + rest) == g
  {
    var s := g + rest;
    if g == "" {
      assert s == rest;
    } else {
      assert s[1..] == g[1..] + rest;
      PointFound(g[1..], rest);
      assert [g[0]] + g[1..] == g;
    }
  }

  lemma GroupedIsNumeral(digits: string)
    requires AllDigits(digits) && digits != ""
    ensures Numeral(Grouped(digits)) && '.' !in Grouped(digits)
    ensures IsDigit(Grouped(digits)[|Grouped(digits)| - 1])
  {
    var g := Grouped(digits);
    assert g != "";
    forall i | 0 <= i < |g| ensures IsNumeral(g[i]) && g[i] != '.' {
      CommasEveryThird(digits, |g| - 1 - i);
      assert g[i] == FromRight(g, |g| - 1 - i);
    }
    CommasEveryThird(digits, 0);
  }

  /** Grouped digits are accepted as they are, and their commas removed again. */
  lemma GroupedIsAccepted(digits: string)
    requires AllDigits(digits) && digits != ""
    ensures ',' in Grouped(digits) ==> IndianGroups(Grouped(digits)) || WesternGroups(Grouped(digits))
    ensures ',' !in Grouped(digits) ==> Grouped(digits) == digits
  {
    if |digits| >= 6 {
      GroupedIsIndian(digits);
    } else if |digits| >= 4 {
      GroupedIsWestern(digits);
    }
  }

  lemma TwoPlacesHaveValue(n: nat)
    requires n < 100
    ensures AllDigits(TwoPlaces(n)) && Value(TwoPlaces(n)) == n
  {
    var tens, ones := [DigitChar(n / 10)], DigitChar(n % 10);
    ValueAppend("", DigitChar(n / 10));
    assert "" + tens == tens;
    ValueAppend(tens, ones);
    assert TwoPlaces(n) == tens + [ones];
  }

  function Decimals(remainder: nat): string
    requires remainder < 100
  {
    if remainder == 0 then "" else TwoPlaces(remainder)
  }

  lemma FractionIsFound(g: string, remainder: nat)
    requires '.' !in g && remainder < 100
    ensures BeforePoint(g + Fraction(remainder)) == g && AfterPoint(g + Fraction(remainder)) == Decimals(remainder)
  {
    PointFound(g, Fraction(remainder));
    assert remainder != 0 ==> (g + Fraction(remainder))[|g| + 1..] == TwoPlaces(remainder);
  }

  lemma DecimalsHaveValue(remainder: nat)
    requires remainder < 100
    ensures AllDigits(Decimals(remainder)) && |Decimals(remainder)| <= 2
    ensures Value(Filled(Decimals(remainder))) == remainder
  {
    TwoPlacesHaveValue(remainder);
    assert remainder == 0 ==> TwoPlaces(0) == "00";
  }

  lemma PartsAreFound(negative: bool, g: string, remainder: nat)
    requires Numeral(g) && '.' !in g && remainder < 100
    ensures ReadNumber(negative, g + Fraction(remainder)) == ReadParts(negative, g, Decimals(remainder))
  {
    FractionIsFound(g, remainder);
    StripKeeps(g);
  }

  /** The digits of an integer part that the parser accepts. */
  predicate Accepted(g: string, digits: string) {
    && Numeral(g) && '.' !in g
    && (',' in g ==> IndianGroups(g) || WesternGroups(g))
    && digits == (if ',' in g then WithoutCommas(g) else g)
    && AllDigits(digits) && digits != ""
  }

  lemma PartsAreRead(negative: bool, g: string, digits: string, remainder: nat)
    requires Accepted(g, digits) && remainder < 100
    ensures ReadParts(negative, g, Decimals(remainder)) == Paise(Signed(negative, Value(digits) * 100 + remainder))
  {
    DecimalsHaveValue(remainder);
  }

  /** Any integer part that is accepted, with any fraction behind it, is read digit for digit. */
  lemma NumberIsRead(negative: bool, g: string, digits: string, remainder: nat)
    requires Accepted(g, digits) && remainder < 100
    ensures ReadNumber(negative, g + Fraction(remainder)) == Paise(Signed(negative, Value(digits) * 100 + remainder))
  {
    PartsAreFound(negative, g, remainder);
    PartsAreRead(negative, g, digits, remainder);
  }

  lemma GroupedIsRead(negative: bool, digits: string, remainder: nat)
    requires AllDigits(digits) && digits != "" && remainder < 100
    ensures ReadNumber(negative, Grouped(digits) + Fraction(remainder))
            == Paise(Signed(negative, Value(digits) * 100 + remainder))
  {
    GroupedIsNumeral(digits);
    GroupedIsAccepted(digits);
    GroupingKeepsDigits(digits);
    NumberIsRead(negative, Grouped(digits), digits, remainder);
  }

  /** The body of a printed amount is read back to the paisa. */
  lemma BodyIsRead(negative: bool, paise: nat)
    ensures ReadNumber(negative, Body(paise)) == Paise(Signed(negative, paise))
  {
    DecimalHasValue(paise / 100);
    GroupedIsRead(negative, Decimal(paise / 100), paise % 100);
  }

  lemma BodyIsNumeral(paise: nat)
    ensures Numeral(Body(paise)) && IsDigit(Body(paise)[|Body(paise)| - 1])
  {
    GroupedIsNumeral(Decimal(paise / 100));
    TwoPlacesHaveValue(paise % 100);
  }

  lemma RupeeSignIsNoDigit(negative: bool, b: string)
    requires Numeral(b)
    ensures ReadNumber(negative, "₹" + b) == Refused
  {
    var s := "₹" + b;
    assert BeforePoint(s) == ["₹"[0]] + BeforePoint(s[1..]);
    var integer := BeforePoint(s);
    FirstSurvives(integer);
  }

  lemma {:induction false} FirstSurvives(s: string)
    requires s != "" && s[0] == '₹'
    ensures Strip(s) != "" && Strip(s)[0] == '₹'
    ensures WithoutCommas(Strip(s)) != "" && WithoutCommas(Strip(s))[0] == '₹'
  {
    StripRightKeepsFirst(s);
    WithoutCommasKeepsFirst(Strip(s));
  }

  lemma {:induction false} StripRightKeepsFirst(s: string)
    requires s != "" && s[0] == '₹'
    ensures StripRight(s) != "" && StripRight(s)[0] == '₹'
  {
    if IsSpace(s[|s| - 1]) { StripRightKeepsFirst(s[..|s| - 1]); }
  }

  lemma {:induction false} WithoutCommasKeepsFirst(s: string)
    requires s != "" && s[0] == '₹'
    ensures WithoutCommas(s) != "" && WithoutCommas(s)[0] == '₹'
  {
    if |s| > 1 { WithoutCommasKeepsFirst(s[..|s| - 1]); }
  }

  lemma SignThenRupeeSign(t: string)
    requires t != "" && t[0] == '₹' && IsNumeral(t[|t| - 1])
    ensures ReadText("-" + t) == ReadSide(true, t)
  {
    var s := "-" + t;
    TextThenCurrency(s);
    NoCurrency(s);
    NoTrailer(s);
    CurrencyThenSign(false, s, s);
    assert s[1..] == t;
    StripKeeps(t);
  }

  /** A negative amount is printed with its sign in front of the rupee sign, where the parser does not look. */
  lemma NegativePrintIsRefused(b: string)
    requires Numeral(b)
    ensures ReadText("-" + ("₹" + b)) == Refused
  {
    SignThenRupeeSign("₹" + b);
    RupeeSignSide(b);
    RupeeSignIsNoDigit(true, b);
  }

  lemma RupeeSignSide(b: string)
    requires Numeral(b)
    ensures ReadSide(true, "₹" + b) == ReadNumber(true, "₹" + b)
  {
    var t := "₹" + b;
    assert forall i :: 0 < i < |t| ==> t[i] == b[i - 1];
    NoLetterNoSide(t);
    NoLetterNoScale(t);
  }

  lemma PositivePrintIsRead(b: string, paise: int)
    requires Numeral(b) && ReadNumber(false, b) == Paise(paise)
    ensures ReadText("₹" + b) == Paise(paise)
  {
    RupeeSignIsRead(b);
  }

  lemma FormatParts(paise: int)
    ensures Format(paise) == if paise < 0 then "-" + ("₹" + Body(-paise)) else "₹" + Body(paise)
  {
  }

  /** What is printed is read back unchanged, exactly when it is not negative; otherwise it is refused. */
  lemma PrintThenReadExactly(paise: int)
    ensures ReadText(Format(paise)) == if paise >= 0 then Paise(paise) else Refused
  {
    FormatParts(paise);
    var b := Body(Abs(paise));
    BodyIsNumeral(Abs(paise));
    BodyIsRead(false, Abs(paise));
    if paise < 0 { NegativePrintIsRefused(b); } else { PositivePrintIsRead(b, paise); }
  }
}
