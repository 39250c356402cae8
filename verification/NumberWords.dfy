/**
 * Amounts as they are spoken (backend/app/render/numbers.py), and a listener who hears the words from left
 * to right. The two are inverse, so no two amounts are ever spoken alike.
 */
module NumberWords {
  import opened Text

  // ------------------------------------------------------------------------------ speaking

  /** The table of units; a function, so that an index out of bounds would not verify. */
  function Unit(n: nat): string
    requires n < 20
  {
    if n < 10 then Digit(n) else Teen(n)
  }

  function Digit(n: nat): string
    requires n < 10
  {
    match n
    case 0 => "zero" case 1 => "one" case 2 => "two" case 3 => "three" case 4 => "four"
    case 5 => "five" case 6 => "six" case 7 => "seven" case 8 => "eight" case _ => "nine"
  }

  function Teen(n: nat): string
    requires 10 <= n < 20
  {
    match n
    case 10 => "ten" case 11 => "eleven" case 12 => "twelve" case 13 => "thirteen" case 14 => "fourteen"
    case 15 => "fifteen" case 16 => "sixteen" case 17 => "seventeen" case 18 => "eighteen" case _ => "nineteen"
  }

  function Ten(n: nat): string
    requires 2 <= n < 10
  {
    match n
    case 2 => "twenty" case 3 => "thirty" case 4 => "forty" case 5 => "fifty"
    case 6 => "sixty" case 7 => "seventy" case 8 => "eighty" case _ => "ninety"
  }

  function TwoDigits(n: nat): string
    requires n < 100
  {
    if n < 20 then Unit(n)
    else if n % 10 == 0 then Ten(n / 10)
    else Ten(n / 10) + "-" + Unit(n % 10)
  }

  function HundredsAndRest(n: nat): seq<string>
    requires n < 1000
  {
    (if n / 100 != 0 then [Unit(n / 100) + " hundred"] else []) +
    (if n % 100 != 0 then [TwoDigits(n % 100)] else [])
  }

  function ThreeDigits(n: nat): string
    requires n < 1000
  {
    Join(" ", HundredsAndRest(n))
  }

  function LakhPart(lakh: nat): seq<string>
    requires lakh < 100
  {
    if lakh != 0 then [TwoDigits(lakh) + " lakh"] else []
  }

  function ThousandPart(thousand: nat): seq<string>
    requires thousand < 100
  {
    if thousand != 0 then [TwoDigits(thousand) + " thousand"] else []
  }

  function HundredPart(rest: nat): seq<string>
    requires rest < 1000
  {
    if rest != 0 then [ThreeDigits(rest)] else []
  }

  /** The parts said after the crores. */
  function BelowCrore(rest: nat): seq<string>
    requires rest < CRORE
  {
    LakhPart(rest / LAKH) + ThousandPart(rest % LAKH / 1000) + HundredPart(rest % LAKH % 1000)
  }

  function CrorePart(crore: nat): seq<string>
    decreases crore, 1
  {
    if crore != 0 then [CountInWords(crore) + " crore"] else []
  }

  function CountInWords(rupees: nat): string
    decreases rupees, 0
  {
    if rupees == 0 then "zero" else Join(" ", CrorePart(rupees / CRORE) + BelowCrore(rupees % CRORE))
  }

  function RupeesToWords(rupees: int): string {
    if rupees < 0 then "minus " + CountInWords(-rupees) else CountInWords(rupees)
  }

  function RupeePart(rupees: nat): seq<string> {
    if rupees != 0 then [RupeesToWords(rupees) + " " + (if rupees == 1 then "rupee" else "rupees")] else []
  }

  function PaisePart(remainder: nat): seq<string>
    requires remainder < 100
  {
    if remainder != 0 then [TwoDigits(remainder) + " " + (if remainder == 1 then "paisa" else "paise")] else []
  }

  function AmountInWords(paise: nat): string {
    if paise == 0 then "zero rupees" else Join(" and ", RupeePart(paise / 100) + PaisePart(paise % 100))
  }

  function PaiseToWords(paise: int): string {
    if paise < 0 then "minus " + AmountInWords(-paise) else AmountInWords(paise)
  }

  // --------------------------------------------------------------------------- the listener

  datatype Sense = Number(value: nat) | Hundred | Thousand | Lakh | Crore | Rupees | And | Paise | Minus | Unknown

  /** What a single word means, looked up by its length. */
  function Plain(w: string): Sense {
    match |w|
    case 3 => Three(w)
    case 4 => Four(w)
    case 5 => if w == "three" || w == "seven" || w == "eight" then FiveUnit(w) else Five(w)
    case 6 => Six(w)
    case 7 => Seven(w)
    case 8 => Eight(w)
    case 9 => if w == "seventeen" then Number(17) else Unknown
    case _ => Unknown
  }

  function Three(w: string): Sense {
    if w == "one" then Number(1) else if w == "two" then Number(2) else if w == "six" then Number(6)
    else if w == "ten" then Number(10) else if w == "and" then And else Unknown
  }

  function Four(w: string): Sense {
    if w == "zero" then Number(0) else if w == "four" then Number(4) else if w == "five" then Number(5)
    else if w == "nine" then Number(9) else if w == "lakh" then Lakh else Unknown
  }

  function FiveUnit(w: string): Sense {
    if w == "three" then Number(3) else if w == "seven" then Number(7) else Number(8)
  }

  function Five(w: string): Sense {
    if w == "forty" then Number(40) else if w == "fifty" then Number(50) else if w == "sixty" then Number(60)
    else if w == "crore" then Crore else if w == "rupee" then Rupees
    else if w == "paisa" || w == "paise" then Paise else if w == "minus" then Minus else Unknown
  }

  function Six(w: string): Sense {
    if w == "eleven" then Number(11) else if w == "twelve" then Number(12) else if w == "twenty" then Number(20)
    else if w == "thirty" then Number(30) else if w == "eighty" then Number(80) else if w == "ninety" then Number(90)
    else if w == "rupees" then Rupees else Unknown
  }

  function Seven(w: string): Sense {
    if w == "fifteen" then Number(15) else if w == "sixteen" then Number(16) else if w == "seventy" then Number(70)
    else if w == "hundred" then Hundred else Unknown
  }

  function Eight(w: string): Sense {
    if w == "thirteen" then Number(13) else if w == "fourteen" then Number(14) else if w == "eighteen" then Number(18)
    else if w == "nineteen" then Number(19) else if w == "thousand" then Thousand else Unknown
  }

  function BeforeHyphen(w: string): (head: string)
    ensures |head| <= |w|
  {
    if w == [] || w[0] == '-' then [] else [w[0]] + BeforeHyphen(w[1..])
  }

  /** A word that is not in the vocabulary is a ten and a unit with a hyphen between. */
  function Meaning(w: string): Sense {
    var plain := Plain(w);
    if plain != Unknown then plain
    else
      var head := BeforeHyphen(w);
      if |head| == |w| then Unknown
      else
        var ten, unit := Plain(head), Plain(w[|head| + 1..]);
        if ten.Number? && unit.Number? then Number(ten.value + unit.value) else Unknown
  }

  /** What has been understood so far: `done` is complete thousands and above, `pending` what follows them. */
  datatype Ear = Ear(negative: bool, rupees: int, paise: int, done: int, pending: int) {
    function Count(): int { done + pending }
  }

  function Hear(e: Ear, w: string): Ear {
    match Meaning(w)
    case Number(n) => e.(pending := e.pending + n)
    case Hundred => e.(pending := e.pending * 100)
    case Thousand => e.(done := e.done + e.pending * 1000, pending := 0)
    case Lakh => e.(done := e.done + e.pending * LAKH, pending := 0)
    case Crore => e.(done := e.Count() * CRORE, pending := 0)
    case Rupees => e.(rupees := e.Count(), done := 0, pending := 0)
    case Paise => e.(paise := e.Count(), done := 0, pending := 0)
    case Minus => e.(negative := true)
    case _ => e
  }

  function HearAll(e: Ear, words: seq<string>): Ear
    decreases |words|
  {
    if words == [] then e else HearAll(Hear(e, words[0]), words[1..])
  }

  /** A character in front of words: a space starts a new word, any other lengthens the first. */
  function Before(c: char, words: seq<string>): (r: seq<string>)
    requires words != []
    ensures r != []
  {
    if c == ' ' then [[]] + words else [[c] + words[0]] + words[1..]
  }

  /** The words a text is made of, as the spaces separate them. */
  function Split(s: string): (r: seq<string>)
    ensures r != []
  {
    if s == [] then [[]] else Before(s[0], Split(s[1..]))
  }

  /** A listener who has heard nothing. */
  const SILENCE := Ear(false, 0, 0, 0, 0)

  function Listen(e: Ear, s: string): Ear { HearAll(e, Split(s)) }

  /** The number of rupees a bare count says. */
  function HeardRupees(s: string): int {
    var e := Listen(SILENCE, s);
    Signed(e.negative, e.Count())
  }

  /** The amount in paise that rupees and paise together say. */
  function HeardPaise(s: string): int {
    var e := Listen(SILENCE, s);
    Signed(e.negative, e.rupees * 100 + e.paise)
  }

  // ------------------------------------------------------------------- listening, text by text

  lemma {:induction false} SplitWord(w: string)
    requires ' ' !in w
    ensures Split(w) == [w]
  {
    if w != [] {
      SplitWord(w[1..]);
      assert [w[0]] + w[1..] == w;
    }
  }

  lemma SplitStep(c: char, s: string)
    ensures Split([c] + s) == Before(c, Split(s))
  {
    assert ([c] + s)[1..] == s;
  }

  lemma BeforeBoth(c: char, r: seq<string>, t: seq<string>)
    requires r != []
    ensures Before(c, r + t) == Before(c, r) + t
  {
  }

  lemma {:induction false} SplitAtSpace(a: string, b: string)
    ensures Split(a + (" " + b)) == Split(a) + Split(b)
  {
    if a == [] {
      SplitStep(' ', b);
      assert a + (" " + b) == " " + b;
    } else {
      var rest := a[1..] + (" " + b);
      SplitAtSpace(a[1..], b);
      SplitStep(a[0], rest);
      BeforeBoth(a[0], Split(a[1..]), Split(b));
      assert [a[0]] + rest == a + (" " + b);
    }
  }

  lemma {:induction false} HearInTurn(e: Ear, a: seq<string>, b: seq<string>)
    ensures HearAll(e, a + b) == HearAll(HearAll(e, a), b)
    decreases |a|
  {
    if a == [] {
      assert a + b == b;
    } else {
      assert (a + b)[1..] == a[1..] + b;
      HearInTurn(Hear(e, a[0]), a[1..], b);
    }
  }

  lemma HearOne(e: Ear, w: string)
    ensures HearAll(e, [w]) == Hear(e, w)
  {
    var words := [w];
    assert HearAll(e, words) == HearAll(Hear(e, words[0]), words[1..]);
    assert words[1..] == [];
  }

  lemma ListenWord(e: Ear, w: string)
    requires ' ' !in w
    ensures Listen(e, w) == Hear(e, w)
  {
    SplitWord(w);
    HearOne(e, w);
  }

  lemma ListenInTurn(e: Ear, a: string, b: string)
    ensures Listen(e, a + " " + b) == Listen(Listen(e, a), b)
  {
    assert a + " " + b == a + (" " + b);
    SplitAtSpace(a, b);
    HearInTurn(e, Split(a), Split(b));
  }

  lemma ListenThenWord(e: Ear, a: string, w: string)
    requires ' ' !in w
    ensures Listen(e, a + " " + w) == Hear(Listen(e, a), w)
  {
    ListenInTurn(e, a, w);
    ListenWord(Listen(e, a), w);
  }

  /** Listening to parts one after another. */
  function ListenEach(e: Ear, parts: seq<string>): Ear
    decreases |parts|
  {
    if parts == [] then e else ListenEach(Listen(e, parts[0]), parts[1..])
  }

  lemma {:induction false} ListenEachInTurn(e: Ear, a: seq<string>, b: seq<string>)
    ensures ListenEach(e, a + b) == ListenEach(ListenEach(e, a), b)
    decreases |a|
  {
    if a == [] {
      assert a + b == b;
    } else {
      assert (a + b)[1..] == a[1..] + b;
      ListenEachInTurn(Listen(e, a[0]), a[1..], b);
    }
  }

  lemma {:induction false} ListenJoined(e: Ear, parts: seq<string>)
    requires parts != []
    ensures Listen(e, Join(" ", parts)) == ListenEach(e, parts)
    decreases |parts|
  {
    if |parts| == 1 {
      assert ListenEach(Listen(e, parts[0]), []) == Listen(e, parts[0]);
    } else {
      ListenInTurn(e, parts[0], Join(" ", parts[1..]));
      ListenJoined(Listen(e, parts[0]), parts[1..]);
    }
  }

  lemma ListenOne(e: Ear, part: string)
    ensures ListenEach(e, [part]) == Listen(e, part)
  {
    assert [part][1..] == [];
  }

  // -------------------------------------------------------------------- what each word means

  lemma DigitMeans(n: nat)
    requires n < 10
    ensures Plain(Digit(n)) == Number(n) && ' ' !in Digit(n)
  {
  }

  lemma LowTeenMeans(n: nat)
    requires 10 <= n < 15
    ensures Plain(Teen(n)) == Number(n) && ' ' !in Teen(n)
  {
  }

  lemma HighTeenMeans(n: nat)
    requires 15 <= n < 20
    ensures Plain(Teen(n)) == Number(n) && ' ' !in Teen(n)
  {
  }

  lemma TenMeans(n: nat)
    requires 2 <= n < 10
    ensures Plain(Ten(n)) == Number(10 * n) && ' ' !in Ten(n) && '-' !in Ten(n) && 5 <= |Ten(n)| <= 7
  {
  }

  lemma LowScalesMean()
    ensures Meaning("hundred") == Hundred && Meaning("thousand") == Thousand
    ensures ' ' !in "hundred" && ' ' !in "thousand"
  {
  }

  lemma HighScalesMean()
    ensures Meaning("lakh") == Lakh && Meaning("crore") == Crore
    ensures ' ' !in "lakh" && ' ' !in "crore"
  {
  }

  lemma RupeeWordsMean()
    ensures Meaning("rupee") == Rupees && Meaning("rupees") == Rupees
    ensures ' ' !in "rupee" && ' ' !in "rupees"
  {
  }

  lemma PaisaWordsMean()
    ensures Meaning("paisa") == Paise && Meaning("paise") == Paise
    ensures ' ' !in "paisa" && ' ' !in "paise"
  {
  }

  lemma AndMinusMean()
    ensures Meaning("and") == And && Meaning("minus") == Minus
    ensures ' ' !in "and" && ' ' !in "minus"
  {
  }

  lemma {:induction false} HyphenFound(head: string, rest: string)
    requires '-' !in head
    ensures BeforeHyphen(head + "-" + rest) == head
  {
    var w := head + "-" + rest;
    if head == [] {
      assert w[0] == '-';
    } else {
      assert w[1..] == head[1..] + "-" + rest;
      HyphenFound(head[1..], rest);
      assert [head[0]] + head[1..] == head;
    }
  }

  lemma UnitMeans(n: nat)
    requires n < 20
    ensures Plain(Unit(n)) == Number(n) && Meaning(Unit(n)) == Number(n) && ' ' !in Unit(n)
  {
    if n < 10 { DigitMeans(n); } else if n < 15 { LowTeenMeans(n); } else { HighTeenMeans(n); }
  }

  /** A hyphened word is none of the plain ones: only "seventeen" is as long, and it has no hyphen there. */
  lemma HyphenIsNotPlain(head: string, unit: string)
    requires 5 <= |head| <= 7 && |unit| >= 3
    ensures Plain(head + "-" + unit) == Unknown
  {
    var w := head + "-" + unit;
    assert w[|head|] == '-';
    assert forall i :: 5 <= i < 8 ==> "seventeen"[i] != '-';
  }

  lemma UnitLength(n: nat)
    requires n < 20
    ensures 3 <= |Unit(n)|
  {
  }

  lemma CompoundMeans(ten: nat, unit: nat)
    requires 2 <= ten < 10 && unit < 10
    ensures Meaning(Ten(ten) + "-" + Unit(unit)) == Number(10 * ten + unit)
    ensures ' ' !in Ten(ten) + "-" + Unit(unit)
  {
    var w := Ten(ten) + "-" + Unit(unit);
    TenMeans(ten);
    UnitMeans(unit);
    UnitLength(unit);
    HyphenIsNotPlain(Ten(ten), Unit(unit));
    HyphenFound(Ten(ten), Unit(unit));
    assert w[|Ten(ten)| + 1..] == Unit(unit);
  }

  // -------------------------------------------------------------------- what each count says

  /** Two digits are heard as their number. */
  lemma TwoDigitsHeard(e: Ear, n: nat)
    requires n < 100
    ensures Listen(e, TwoDigits(n)) == e.(pending := e.pending + n)
  {
    if n < 20 {
      UnitMeans(n);
    } else {
      TenMeans(n / 10);
      CompoundMeans(n / 10, n % 10);
    }
    ListenWord(e, TwoDigits(n));
  }

  /** Two digits, then a word for the scale. */
  lemma ScaledHeard(e: Ear, n: nat, scale: string)
    requires n < 100 && ' ' !in scale
    ensures Listen(e, TwoDigits(n) + " " + scale) == Hear(e.(pending := e.pending + n), scale)
  {
    TwoDigitsHeard(e, n);
    ListenThenWord(e, TwoDigits(n), scale);
  }

  lemma HundredsHeard(e: Ear, hundreds: nat)
    requires 0 < hundreds < 10 && e.pending == 0
    ensures Listen(e, Unit(hundreds) + " hundred") == e.(pending := 100 * hundreds)
  {
    LowScalesMean();
    ScaledHeard(e, hundreds, "hundred");
    assert Unit(hundreds) + " hundred" == TwoDigits(hundreds) + " " + "hundred";
  }

  lemma ThreeDigitsHeard(e: Ear, n: nat)
    requires 0 < n < 1000 && e.pending == 0
    ensures Listen(e, ThreeDigits(n)) == e.(pending := n)
  {
    var first := if n / 100 != 0 then [Unit(n / 100) + " hundred"] else [];
    var second := if n % 100 != 0 then [TwoDigits(n % 100)] else [];
    ListenJoined(e, HundredsAndRest(n));
    ListenEachInTurn(e, first, second);
    if n / 100 != 0 {
      HundredsHeard(e, n / 100);
      ListenOne(e, Unit(n / 100) + " hundred");
    }
    var e' := e.(pending := n / 100 * 100);
    if n % 100 != 0 {
      TwoDigitsHeard(e', n % 100);
      ListenOne(e', TwoDigits(n % 100));
    }
  }

  lemma LakhHeard(e: Ear, lakh: nat)
    requires lakh < 100 && e.pending == 0
    ensures ListenEach(e, LakhPart(lakh)) == e.(done := e.done + lakh * LAKH)
  {
    if lakh != 0 {
      HighScalesMean();
      ScaledHeard(e, lakh, "lakh");
      assert TwoDigits(lakh) + " lakh" == TwoDigits(lakh) + " " + "lakh";
      ListenOne(e, TwoDigits(lakh) + " lakh");
    }
  }

  lemma ThousandHeard(e: Ear, thousand: nat)
    requires thousand < 100 && e.pending == 0
    ensures ListenEach(e, ThousandPart(thousand)) == e.(done := e.done + thousand * 1000)
  {
    if thousand != 0 {
      LowScalesMean();
      ScaledHeard(e, thousand, "thousand");
      assert TwoDigits(thousand) + " thousand" == TwoDigits(thousand) + " " + "thousand";
      ListenOne(e, TwoDigits(thousand) + " thousand");
    }
  }

  lemma HundredHeard(e: Ear, rest: nat)
    requires rest < 1000 && e.pending == 0
    ensures ListenEach(e, HundredPart(rest)) == e.(pending := rest)
  {
    if rest != 0 {
      ThreeDigitsHeard(e, rest);
      ListenOne(e, ThreeDigits(rest));
    }
  }

  /** What was heard adds up to `n`, and nothing else about the listener has changed. */
  predicate Adds(before: Ear, after: Ear, n: int) {
    && after == before.(done := after.done, pending := after.pending)
    && after.Count() == n
  }

  lemma BelowCroreHeard(e: Ear, rest: nat)
    requires rest < CRORE && e.pending == 0
    ensures Adds(e, ListenEach(e, BelowCrore(rest)), e.done + rest)
  {
    var lakh, thousand, hundred := rest / LAKH, rest % LAKH / 1000, rest % LAKH % 1000;
    assert rest == lakh * LAKH + thousand * 1000 + hundred;
    ListenEachInTurn(e, LakhPart(lakh) + ThousandPart(thousand), HundredPart(hundred));
    ListenEachInTurn(e, LakhPart(lakh), ThousandPart(thousand));
    LakhHeard(e, lakh);
    var e1 := e.(done := e.done + lakh * LAKH);
    ThousandHeard(e1, thousand);
    HundredHeard(e1.(done := e1.done + thousand * 1000), hundred);
  }

  lemma SomethingIsSaid(rest: nat)
    requires 0 < rest < CRORE
    ensures BelowCrore(rest) != []
  {
    assert rest / LAKH != 0 || rest % LAKH / 1000 != 0 || rest % LAKH % 1000 != 0;
  }

  lemma {:induction false} CroreHeard(e: Ear, crore: nat)
    requires e.done == 0 && e.pending == 0
    ensures ListenEach(e, CrorePart(crore)) == e.(done := crore * CRORE)
    decreases crore, 1
  {
    if crore != 0 {
      CountHeard(e, crore);
      CroreCloses(e, CountInWords(crore));
      ListenOne(e, CountInWords(crore) + " crore");
    }
  }

  lemma CroreCloses(e: Ear, words: string)
    ensures Listen(e, words + " crore") == Listen(e, words).(done := Listen(e, words).Count() * CRORE, pending := 0)
  {
    HighScalesMean();
    ListenThenWord(e, words, "crore");
    assert words + " crore" == words + " " + "crore";
  }

  /** Counting in crores of crores as often as it takes, the count heard is the count said. */
  lemma {:induction false} CountHeard(e: Ear, rupees: nat)
    requires e.done == 0 && e.pending == 0
    ensures Adds(e, Listen(e, CountInWords(rupees)), rupees)
    decreases rupees, 0
  {
    if rupees == 0 {
      TwoDigitsHeard(e, 0);
    } else {
      var crore, rest := rupees / CRORE, rupees % CRORE;
      if crore == 0 { SomethingIsSaid(rest); }
      ListenJoined(e, CrorePart(crore) + BelowCrore(rest));
      ListenEachInTurn(e, CrorePart(crore), BelowCrore(rest));
      CroreHeard(e, crore);
      BelowCroreHeard(e.(done := crore * CRORE), rest);
    }
  }

  lemma MinusHeard(e: Ear, words: string)
    ensures Listen(e, "minus " + words) == Listen(e.(negative := true), words)
  {
    AndMinusMean();
    ListenWord(e, "minus");
    ListenInTurn(e, "minus", words);
    assert "minus " + words == "minus" + " " + words;
  }

  /** The words of a count, and what is heard of them. */
  lemma CountSaid(e: Ear, rupees: nat) returns (words: string)
    requires e.done == 0 && e.pending == 0
    ensures words == CountInWords(rupees) && Listen(e, words).Count() == rupees
    ensures Listen(e, words).negative == e.negative
  {
    CountHeard(e, rupees);
    words := CountInWords(rupees);
  }

  lemma RupeesConcluded(words: string, rupees: nat)
    requires Listen(SILENCE, words).Count() == rupees && !Listen(SILENCE, words).negative
    ensures HeardRupees(words) == rupees
  {
  }

  lemma MinusRupeesConcluded(words: string, count: string, rupees: nat)
    requires words == "minus " + count
    requires var e := Listen(SILENCE.(negative := true), count); e.negative && e.Count() == rupees
    ensures -HeardRupees(words) == rupees
  {
    MinusHeard(SILENCE, count);
  }

  lemma NegativeCountWords(rupees: int, debit: nat)
    requires rupees + debit == 0 && debit > 0
    ensures RupeesToWords(rupees) == "minus " + CountInWords(debit)
  {
  }

  lemma NegativeCountSaid(rupees: int, debit: nat) returns (count: string)
    requires rupees + debit == 0 && debit > 0
    ensures RupeesToWords(rupees) == "minus " + count
    ensures var e := Listen(SILENCE.(negative := true), count); e.negative && e.Count() == debit
  {
    count := CountSaid(SILENCE.(negative := true), debit);
    NegativeCountWords(rupees, debit);
  }

  lemma PositiveCountSaid(rupees: nat)
    ensures Listen(SILENCE, RupeesToWords(rupees)).Count() == rupees && !Listen(SILENCE, RupeesToWords(rupees)).negative
  {
    var count := CountSaid(SILENCE, rupees);
  }

  /** Every count of rupees, however large and of either sign, is recovered from the words for it. */
  lemma RupeesHeardAreSaid(rupees: int)
    ensures HeardRupees(RupeesToWords(rupees)) == rupees
  {
    if rupees < 0 {
      var count := NegativeCountSaid(rupees, -rupees);
      MinusRupeesConcluded(RupeesToWords(rupees), count, -rupees);
    } else {
      PositiveCountSaid(rupees);
      RupeesConcluded(RupeesToWords(rupees), rupees);
    }
  }

  // --------------------------------------------------------------------- rupees and paise

  lemma RupeePartHeard(e: Ear, rupees: nat)
    requires e.done == 0 && e.pending == 0 && rupees != 0
    ensures Listen(e, RupeePart(rupees)[0]) == e.(rupees := rupees)
  {
    RupeeWordsMean();
    CountHeard(e, rupees);
    ListenThenWord(e, CountInWords(rupees), if rupees == 1 then "rupee" else "rupees");
  }

  lemma PaisePartHeard(e: Ear, remainder: nat)
    requires e.done == 0 && e.pending == 0 && 0 < remainder < 100
    ensures Listen(e, PaisePart(remainder)[0]) == e.(paise := remainder)
  {
    PaisaWordsMean();
    ScaledHeard(e, remainder, if remainder == 1 then "paisa" else "paise");
  }

  lemma JoinedByAnd(e: Ear, a: string, b: string)
    ensures Listen(e, Join(" and ", [a, b])) == Listen(Listen(e, a), b)
  {
    AndMinusMean();
    assert [a, b][1..] == [b];
    assert Join(" and ", [a, b]) == a + " " + ("and" + " " + b);
    ListenInTurn(e, a, "and" + " " + b);
    ListenInTurn(Listen(e, a), "and", b);
    ListenWord(Listen(e, a), "and");
  }

  lemma NothingHeard(e: Ear)
    requires e.done == 0 && e.pending == 0
    ensures Listen(e, AmountInWords(0)) == e.(rupees := 0)
  {
    RupeeWordsMean();
    ScaledHeard(e, 0, "rupees");
    assert AmountInWords(0) == TwoDigits(0) + " " + "rupees";
  }

  predicate Fresh(e: Ear) { e.rupees == 0 && e.paise == 0 && e.done == 0 && e.pending == 0 }

  lemma OnePartHeard(e: Ear, rupees: nat, remainder: nat)
    requires Fresh(e) && remainder < 100 && (rupees == 0) != (remainder == 0)
    ensures Listen(e, Join(" and ", RupeePart(rupees) + PaisePart(remainder))) ==
            e.(rupees := rupees, paise := remainder)
  {
    if remainder == 0 {
      RupeePartHeard(e, rupees);
      assert RupeePart(rupees) + PaisePart(remainder) == RupeePart(rupees);
    } else {
      PaisePartHeard(e, remainder);
      assert RupeePart(rupees) + PaisePart(remainder) == PaisePart(remainder);
    }
  }

  lemma BothPartsHeard(e: Ear, rupees: nat, remainder: nat)
    requires Fresh(e) && 0 < remainder < 100 && 0 < rupees
    ensures Listen(e, Join(" and ", RupeePart(rupees) + PaisePart(remainder))) ==
            e.(rupees := rupees, paise := remainder)
  {
    RupeePartHeard(e, rupees);
    PaisePartHeard(e.(rupees := rupees), remainder);
    var r, p := RupeePart(rupees)[0], PaisePart(remainder)[0];
    assert RupeePart(rupees) + PaisePart(remainder) == [r, p];
    JoinedByAnd(e, r, p);
  }

  lemma AmountHeard(e: Ear, paise: nat)
    requires Fresh(e)
    ensures Listen(e, AmountInWords(paise)) == e.(rupees := paise / 100, paise := paise % 100)
  {
    if paise == 0 {
      NothingHeard(e);
    } else if paise / 100 == 0 || paise % 100 == 0 {
      OnePartHeard(e, paise / 100, paise % 100);
    } else {
      BothPartsHeard(e, paise / 100, paise % 100);
    }
  }

  /** The words of an amount, and what is heard of them. */
  lemma AmountSaid(e: Ear, paise: nat) returns (amount: string)
    requires Fresh(e)
    ensures amount == AmountInWords(paise)
    ensures Listen(e, amount) == e.(rupees := paise / 100, paise := paise % 100)
  {
    AmountHeard(e, paise);
    amount := AmountInWords(paise);
  }

  lemma AmountConcluded(words: string, paise: nat)
    requires Listen(SILENCE, words) == SILENCE.(rupees := paise / 100, paise := paise % 100)
    ensures HeardPaise(words) == paise
  {
  }

  lemma MinusConcluded(words: string, amount: string, paise: nat)
    requires words == "minus " + amount
    requires Listen(SILENCE.(negative := true), amount) ==
            SILENCE.(negative := true, rupees := paise / 100, paise := paise % 100)
    ensures -HeardPaise(words) == paise
  {
    MinusHeard(SILENCE, amount);
  }

  lemma NegativeWords(paise: int, debit: nat)
    requires paise + debit == 0 && debit > 0
    ensures PaiseToWords(paise) == "minus " + AmountInWords(debit)
  {
  }

  lemma NegativeSaid(paise: int, debit: nat) returns (amount: string)
    requires paise + debit == 0 && debit > 0
    ensures PaiseToWords(paise) == "minus " + amount
    ensures Listen(SILENCE.(negative := true), amount)
         == SILENCE.(negative := true, rupees := debit / 100, paise := debit % 100)
  {
    amount := AmountSaid(SILENCE.(negative := true), debit);
    NegativeWords(paise, debit);
  }

  lemma PositiveSaid(paise: nat)
    ensures Listen(SILENCE, PaiseToWords(paise)) == SILENCE.(rupees := paise / 100, paise := paise % 100)
  {
    var amount := AmountSaid(SILENCE, paise);
  }

  /** Every amount, of either sign, is recovered to the paisa from the words for it. */
  lemma PaiseHeardAreSaid(paise: int)
    ensures HeardPaise(PaiseToWords(paise)) == paise
  {
    if paise < 0 {
      var amount := NegativeSaid(paise, -paise);
      MinusConcluded(PaiseToWords(paise), amount, -paise);
    } else {
      PositiveSaid(paise);
      AmountConcluded(PaiseToWords(paise), paise);
    }
  }

  /** So no two amounts are ever spoken alike. */
  lemma SpokenAmountsDiffer(a: int, b: int)
    ensures RupeesToWords(a) == RupeesToWords(b) <==> a == b
    ensures PaiseToWords(a) == PaiseToWords(b) <==> a == b
  {
    RupeesHeardAreSaid(a);
    RupeesHeardAreSaid(b);
    PaiseHeardAreSaid(a);
    PaiseHeardAreSaid(b);
  }
}
