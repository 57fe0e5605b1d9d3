/** Amounts in words: `apps/api/src/payments/inr-words.ts`, and the reader that undoes it. */
module InrWords {
  import opened Common

  const ONES: seq<string> := [
    "", "One", "Two", "Three", "Four", "Five", "Six", "Seven", "Eight", "Nine", "Ten", "Eleven", "Twelve",
    "Thirteen", "Fourteen", "Fifteen", "Sixteen", "Seventeen", "Eighteen", "Nineteen" ]

  const TENS: seq<string> := [
    "", "", "Twenty", "Thirty", "Forty", "Fifty", "Sixty", "Seventy", "Eighty", "Ninety" ]

  const CRORE := 10000000
  const LAKH := 100000
  const THOUSAND := 1000

  // ---- Writing ----

  function TwoDigits(n: nat): string
    requires n < 100
  {
    if n < 20 then ONES[n]
    else if n % 10 == 0 then TENS[n / 10]
    else TENS[n / 10] + " " + ONES[n % 10]
  }

  /** The template shows a missing entry of the table as "undefined". */
  function HundredsWord(h: nat): string {
    if h < 20 then ONES[h] else "undefined"
  }

  function ThreeDigits(n: nat): string {
    if n == 0 then ""
    else if n < 100 then TwoDigits(n)
    else if n % 100 == 0 then HundredsWord(n / 100) + " " + "Hundred"
    else HundredsWord(n / 100) + " " + "Hundred" + " " + TwoDigits(n % 100)
  }

  function Join(parts: seq<string>): string {
    if parts == [] then ""
    else if |parts| == 1 then parts[0]
    else Join(parts[..|parts| - 1]) + " " + parts[|parts| - 1]
  }

  /** A group with its unit, or nothing when the group is 0. */
  function Group(n: nat, unit: string): seq<string> {
    if n > 0 then [ThreeDigits(n) + " " + unit] else []
  }

  function Parts(n: nat): seq<string> {
    Group(n / CRORE, "Crore") + Group(n % CRORE / LAKH, "Lakh") + Group(n % LAKH / THOUSAND, "Thousand")
    + (if n % THOUSAND > 0 then [ThreeDigits(n % THOUSAND)] else [])
  }

  function Words(n: nat): string {
    if n == 0 then "Zero" else Join(Parts(n))
  }

  method IntegerToIndianWords(n: nat) returns (words: string)
    ensures words == Words(n)
  {
    if n == 0 {
      return "Zero";
    }
    var crore := n / CRORE;
    var lakh := n % CRORE / LAKH;
    var thousand := n % LAKH / THOUSAND;
    var hundred := n % THOUSAND;
    var parts := [];
    if crore > 0 {
      parts := parts + [ThreeDigits(crore) + " " + "Crore"];
    }
    assert parts == Group(crore, "Crore");
    if lakh > 0 {
      parts := parts + [ThreeDigits(lakh) + " " + "Lakh"];
    }
    assert parts == Group(crore, "Crore") + Group(lakh, "Lakh");
    if thousand > 0 {
      parts := parts + [ThreeDigits(thousand) + " " + "Thousand"];
    }
    assert parts == Group(crore, "Crore") + Group(lakh, "Lakh") + Group(thousand, "Thousand");
    if hundred > 0 {
      parts := parts + [ThreeDigits(hundred)];
    }
    assert parts == Parts(n);
    words := Join(parts);
  }

  /** The amount is given in paise. */
  function AmountInWords(paise: nat): string {
    var rupees, rest := paise / 100, paise % 100;
    if rupees == 0 && rest == 0 then "Rupees" + " " + "Zero" + " " + "Only"
    else if rest == 0 then "Rupees" + " " + Words(rupees) + " " + "Only"
    else if rupees == 0 then "Rupees" + " " + "Zero" + " " + "and" + " " + "Paise" + " " + Words(rest) + " " + "Only"
    else "Rupees" + " " + Words(rupees) + " " + "and" + " " + "Paise" + " " + Words(rest) + " " + "Only"
  }

  // ---- Reading ----

  /** The number words one to nineteen and the tens. */
  function WordValue(w: string): nat {
    if w == "One" then 1
    else if w == "Two" then 2
    else if w == "Three" then 3
    else if w == "Four" then 4
    else if w == "Five" then 5
    else if w == "Six" then 6
    else if w == "Seven" then 7
    else if w == "Eight" then 8
    else if w == "Nine" then 9
    else if w == "Ten" then 10
    else if w == "Eleven" then 11
    else if w == "Twelve" then 12
    else if w == "Thirteen" then 13
    else if w == "Fourteen" then 14
    else if w == "Fifteen" then 15
    else if w == "Sixteen" then 16
    else if w == "Seventeen" then 17
    else if w == "Eighteen" then 18
    else if w == "Nineteen" then 19
    else if w == "Twenty" then 20
    else if w == "Thirty" then 30
    else if w == "Forty" then 40
    else if w == "Fifty" then 50
    else if w == "Sixty" then 60
    else if w == "Seventy" then 70
    else if w == "Eighty" then 80
    else if w == "Ninety" then 90
    else 0
  }

  /** Finished groups, the group being read, and the rupees once "Paise" was seen. */
  datatype Reader = Reader(total: nat, current: nat, rupees: Option<nat>)

  function Read(r: Reader, w: string): Reader {
    if w == "Hundred" then r.(current := r.current * 100)
    else if w == "Thousand" then Close(r, THOUSAND)
    else if w == "Lakh" then Close(r, LAKH)
    else if w == "Crore" then Close(r, CRORE)
    else if w == "Paise" then Reader(0, 0, Some(r.total + r.current))
    else r.(current := r.current + WordValue(w))
  }

  function Close(r: Reader, value: nat): Reader {
    r.(total := r.total + r.current * value, current := 0)
  }

  /** Left to right: a space or the end completes the word spelled so far. */
  function Scan(r: Reader, spelled: string, rest: string): Reader
    decreases |rest|
  {
    if rest == "" then Read(r, spelled)
    else if rest[0] == ' ' then Scan(Read(r, spelled), "", rest[1..])
    else Scan(r, spelled + [rest[0]], rest[1..])
  }

  function ReadText(r: Reader, text: string): Reader {
    Scan(r, "", text)
  }

  const Start := Reader(0, 0, None)

  function Evaluate(text: string): nat {
    var r := ReadText(Start, text);
    r.total + r.current
  }

  function EvaluateAmount(text: string): nat {
    var r := ReadText(Start, text);
    if r.rupees.Some? then r.rupees.value * 100 + r.total + r.current else (r.total + r.current) * 100
  }

  // ---- Reading concatenations ----

  predicate Word(s: string) {
    ' ' !in s
  }

  lemma {:induction false} ScanConcat(r: Reader, spelled: string, a: string, b: string)
    ensures Scan(r, spelled, a + " " + b) == Scan(Scan(r, spelled, a), "", b)
    decreases |a|
  {
    var text := a + " " + b;
    if a == "" {
      assert text[0] == ' ' && text[1..] == b;
    } else {
      assert text[0] == a[0] && text[1..] == a[1..] + " " + b;
      if a[0] == ' ' {
        ScanConcat(Read(r, spelled), "", a[1..], b);
      } else {
        ScanConcat(r, spelled + [a[0]], a[1..], b);
      }
    }
  }

  lemma {:induction false} ScanWord(r: Reader, spelled: string, w: string)
    requires Word(w)
    ensures Scan(r, spelled, w) == Read(r, spelled + w)
    decreases |w|
  {
    if w == "" {
      assert spelled + w == spelled;
    } else {
      assert (spelled + [w[0]]) + w[1..] == spelled + w;
      ScanWord(r, spelled + [w[0]], w[1..]);
    }
  }

  lemma ReadTwo(r: Reader, a: string, b: string)
    ensures ReadText(r, a + " " + b) == ReadText(ReadText(r, a), b)
  {
    ScanConcat(r, "", a, b);
  }

  lemma ReadWord(r: Reader, w: string)
    requires Word(w)
    ensures ReadText(r, w) == Read(r, w)
  {
    ScanWord(r, "", w);
    assert "" + w == w;
  }

  // ---- The vocabulary ----

  predicate IsUnit(w: string) {
    w == "Hundred" || w == "Thousand" || w == "Lakh" || w == "Crore" || w == "Paise"
  }

  lemma UnitsValue(n: nat)
    requires 1 <= n < 10
    ensures Word(ONES[n]) && WordValue(ONES[n]) == n && !IsUnit(ONES[n])
  {
  }

  lemma TeensValue(n: nat)
    requires 10 <= n < 20
    ensures Word(ONES[n]) && WordValue(ONES[n]) == n && !IsUnit(ONES[n])
  {
  }

  lemma OnesValue(n: nat)
    requires 1 <= n < 20
    ensures Word(ONES[n]) && WordValue(ONES[n]) == n && !IsUnit(ONES[n])
  {
    if n < 10 { UnitsValue(n); } else { TeensValue(n); }
  }

  lemma TensValue(n: nat)
    requires 2 <= n < 10
    ensures Word(TENS[n]) && WordValue(TENS[n]) == 10 * n && !IsUnit(TENS[n])
  {
  }

  lemma NumberRead(r: Reader, w: string)
    requires Word(w) && !IsUnit(w)
    ensures ReadText(r, w) == r.(current := r.current + WordValue(w))
  {
    ReadWord(r, w);
  }

  lemma TwoDigitsRead(r: Reader, n: nat)
    requires 1 <= n < 100
    ensures ReadText(r, TwoDigits(n)) == r.(current := r.current + n)
  {
    if n < 20 {
      OnesValue(n);
      NumberRead(r, ONES[n]);
    } else {
      TensValue(n / 10);
      NumberRead(r, TENS[n / 10]);
      if n % 10 != 0 {
        OnesValue(n % 10);
        ReadTwo(r, TENS[n / 10], ONES[n % 10]);
        NumberRead(ReadText(r, TENS[n / 10]), ONES[n % 10]);
      }
    }
  }

  /** What a reader makes of a group: its hundreds are lost from twenty hundreds on. */
  function Legible(n: nat): nat {
    if n < 2000 then n else n % 100
  }

  lemma HundredsRead(r: Reader, h: nat)
    requires r.current == 0 && h >= 1
    ensures ReadText(r, HundredsWord(h) + " " + "Hundred") == r.(current := if h < 20 then h * 100 else 0)
  {
    var w := HundredsWord(h);
    ReadTwo(r, w, "Hundred");
    if h < 20 {
      OnesValue(h);
    }
    NumberRead(r, w);
    ReadWord(ReadText(r, w), "Hundred");
  }

  lemma ThreeDigitsRead(r: Reader, n: nat)
    requires r.current == 0 && n >= 1
    ensures ReadText(r, ThreeDigits(n)) == r.(current := Legible(n))
  {
    if n < 100 {
      TwoDigitsRead(r, n);
    } else {
      var hundreds := HundredsWord(n / 100) + " " + "Hundred";
      HundredsRead(r, n / 100);
      if n % 100 != 0 {
        ReadTwo(r, hundreds, TwoDigits(n % 100));
        TwoDigitsRead(ReadText(r, hundreds), n % 100);
      }
    }
  }

  function GroupValue(n: nat, value: nat): nat {
    Legible(n) * value
  }

  /** A word that closes a group with the given value. */
  ghost predicate Closes(unit: string, value: nat) {
    forall r: Reader {:trigger ReadText(r, unit)} :: ReadText(r, unit) == Close(r, value)
  }

  lemma UnitsClose()
    ensures Closes("Crore", CRORE) && Closes("Lakh", LAKH) && Closes("Thousand", THOUSAND)
  {
    forall r: Reader, unit: string | unit in {"Crore", "Lakh", "Thousand"}
      ensures ReadText(r, unit) == Read(r, unit)
    {
      ReadWord(r, unit);
    }
  }

  lemma GroupRead(r: Reader, n: nat, unit: string, value: nat)
    requires r.current == 0 && n >= 1 && Closes(unit, value)
    ensures ReadText(r, ThreeDigits(n) + " " + unit) == r.(total := r.total + GroupValue(n, value))
  {
    ReadTwo(r, ThreeDigits(n), unit);
    ThreeDigitsRead(r, n);
  }

  // ---- Joined groups ----

  /** Reading the parts one after another. */
  function ReadParts(r: Reader, parts: seq<string>): Reader {
    if parts == [] then r else ReadText(ReadParts(r, parts[..|parts| - 1]), parts[|parts| - 1])
  }

  lemma {:induction false} JoinRead(r: Reader, parts: seq<string>)
    requires parts != []
    ensures ReadText(r, Join(parts)) == ReadParts(r, parts)
  {
    var n := |parts| - 1;
    if n == 0 {
      assert parts[..n] == [];
    } else {
      JoinRead(r, parts[..n]);
      ReadTwo(r, Join(parts[..n]), parts[n]);
    }
  }

  lemma OnePart(r: Reader, parts: seq<string>, part: string)
    ensures ReadParts(r, parts + [part]) == ReadText(ReadParts(r, parts), part)
  {
    assert (parts + [part])[..|parts|] == parts;
  }

  lemma AddGroup(r: Reader, parts: seq<string>, n: nat, unit: string, value: nat)
    requires Closes(unit, value) && ReadParts(r, parts).current == 0
    ensures ReadParts(r, parts + Group(n, unit))
         == ReadParts(r, parts).(total := ReadParts(r, parts).total + GroupValue(n, value))
  {
    if n > 0 {
      OnePart(r, parts, ThreeDigits(n) + " " + unit);
      GroupRead(ReadParts(r, parts), n, unit, value);
    } else {
      assert parts + Group(n, unit) == parts;
    }
  }

  /** The last group stands without a unit. */
  lemma AddRest(r: Reader, parts: seq<string>, n: nat)
    requires ReadParts(r, parts).current == 0 && n < 2000
    ensures ReadParts(r, parts + (if n > 0 then [ThreeDigits(n)] else [])) == ReadParts(r, parts).(current := n)
  {
    if n > 0 {
      OnePart(r, parts, ThreeDigits(n));
      ThreeDigitsRead(ReadParts(r, parts), n);
    } else {
      assert parts + [] == parts;
    }
  }

  /** The rupees a reader gets back. */
  function LegiblePart(n: nat): nat {
    Legible(n / CRORE) * CRORE + n % CRORE
  }

  lemma Groups(n: nat)
    ensures n % CRORE == n % CRORE / LAKH * LAKH + n % LAKH
    ensures n % LAKH == n % LAKH / THOUSAND * THOUSAND + n % THOUSAND
    ensures n % CRORE / LAKH < 100 && n % LAKH / THOUSAND < 100
  {
  }

  lemma PartsRead(r: Reader, n: nat)
    requires r.total == 0 && r.current == 0
    ensures var read := ReadParts(r, Parts(n));
            read.total + read.current == LegiblePart(n) && read.rupees == r.rupees
  {
    var crore, lakh, thousand := n / CRORE, n % CRORE / LAKH, n % LAKH / THOUSAND;
    Groups(n);
    UnitsClose();
    var high := Group(crore, "Crore");
    AddGroup(r, [], crore, "Crore", CRORE);
    assert [] + high == high;
    AddGroup(r, high, lakh, "Lakh", LAKH);
    AddGroup(r, high + Group(lakh, "Lakh"), thousand, "Thousand", THOUSAND);
    AddRest(r, high + Group(lakh, "Lakh") + Group(thousand, "Thousand"), n % THOUSAND);
  }

  /** Text that a reader between groups takes for `n`. */
  ghost predicate Says(text: string, n: nat) {
    forall r: Reader {:trigger ReadText(r, text)} :: r.total == 0 && r.current == 0 ==>
      var read := ReadText(r, text);
      read.total + read.current == n && read.rupees == r.rupees
  }

  lemma WordsRead(r: Reader, n: nat)
    requires r.total == 0 && r.current == 0
    ensures var read := ReadText(r, Words(n));
            read.total + read.current == LegiblePart(n) && read.rupees == r.rupees
  {
    if n == 0 {
      NumberRead(r, "Zero");
    } else {
      PartsRead(r, n);
      assert Parts(n) != [] by { Groups(n); }
      JoinRead(r, Parts(n));
    }
  }

  lemma WordsSay(n: nat)
    ensures Says(Words(n), LegiblePart(n))
  {
    var words := Words(n);
    forall r: Reader | r.total == 0 && r.current == 0
      ensures var read := ReadText(r, words);
              read.total + read.current == LegiblePart(n) && read.rupees == r.rupees
    {
      WordsRead(r, n);
    }
  }

  // ---- Amounts in words mean what they say ----

  /** The words say the number exactly when it is below two thousand crore. */
  lemma WordsSayTheNumberIff(n: nat)
    ensures Evaluate(Words(n)) == n <==> n < 2000 * CRORE
  {
    WordsRead(Start, n);
  }

  lemma WordsAreInjective(m: nat, n: nat)
    requires m < 2000 * CRORE && n < 2000 * CRORE
    ensures Words(m) == Words(n) ==> m == n
  {
    WordsSayTheNumberIff(m);
    WordsSayTheNumberIff(n);
  }

  lemma ThreeDigitsClash(n: nat)
    requires n >= 2000
    ensures ThreeDigits(n) == ThreeDigits(n + 100)
  {
    assert HundredsWord(n / 100) == "undefined" && HundredsWord((n + 100) / 100) == "undefined";
  }

  lemma PartsClash(n: nat)
    requires n >= 2000 * CRORE
    ensures Parts(n) == Parts(n + 100 * CRORE)
  {
    HundredCroreMore(n);
    ThreeDigitsClash(n / CRORE);
  }

  /** Beyond the bound two numbers share their words. */
  lemma WordsClashFromTwoThousandCrore(n: nat)
    requires n >= 2000 * CRORE
    ensures Words(n) == Words(n + 100 * CRORE)
  {
    PartsClash(n);
  }

  lemma HundredCroreMore(n: nat)
    ensures var m := n + 100 * CRORE;
            m / CRORE == n / CRORE + 100
            && m % CRORE == n % CRORE && m % LAKH == n % LAKH && m % THOUSAND == n % THOUSAND
  {
  }

  ghost predicate Skipped(w: string) {
    forall r: Reader {:trigger ReadText(r, w)} :: ReadText(r, w) == r
  }

  lemma FillersSkipped()
    ensures Skipped("Rupees") && Skipped("and") && Skipped("Only")
  {
    RupeesSkipped();
    AndSkipped();
    OnlySkipped();
  }

  lemma RupeesSkipped()
    ensures Skipped("Rupees")
  {
    FillerSkipped("Rupees");
  }

  lemma AndSkipped()
    ensures Skipped("and")
  {
    FillerSkipped("and");
  }

  lemma OnlySkipped()
    ensures Skipped("Only")
  {
    FillerSkipped("Only");
  }

  lemma FillerSkipped(w: string)
    requires Word(w) && !IsUnit(w) && WordValue(w) == 0
    ensures Skipped(w)
  {
    forall r: Reader ensures ReadText(r, w) == r {
      NumberRead(r, w);
    }
  }

  ghost predicate MarksPaise(w: string) {
    forall r: Reader {:trigger ReadText(r, w)} :: ReadText(r, w) == Reader(0, 0, Some(r.total + r.current))
  }

  lemma MarkSpelled(w: string)
    requires w == "Paise"
    ensures MarksPaise(w)
  {
    assert Word(w);
    forall r: Reader ensures ReadText(r, w) == Reader(0, 0, Some(r.total + r.current)) {
      ReadWord(r, w);
    }
  }

  lemma PaiseMarksPaise()
    ensures MarksPaise("Paise")
  {
    MarkSpelled("Paise");
  }

  lemma SkippedRead(r: Reader, text: string, w: string)
    requires Skipped(w)
    ensures ReadText(r, text + " " + w) == ReadText(r, text)
  {
    ReadTwo(r, text, w);
  }

  lemma RupeesRead(opening: string, words: string, n: nat)
    requires Skipped(opening) && Says(words, n)
    ensures var read := ReadText(Start, opening + " " + words);
            read.total + read.current == n && read.rupees == None
  {
    ReadTwo(Start, opening, words);
  }

  lemma MarkRead(r: Reader, text: string, mark: string)
    requires MarksPaise(mark)
    ensures var before := ReadText(r, text);
            ReadText(r, text + " " + mark) == Reader(0, 0, Some(before.total + before.current))
  {
    ReadTwo(r, text, mark);
  }

  lemma SaidRead(r: Reader, text: string, words: string, n: nat)
    requires ReadText(r, text).total == 0 && ReadText(r, text).current == 0 && Says(words, n)
    ensures var read := ReadText(r, text + " " + words);
            read.total + read.current == n && read.rupees == ReadText(r, text).rupees
  {
    ReadTwo(r, text, words);
  }

  lemma AmountRead(paise: nat)
    ensures EvaluateAmount(AmountInWords(paise)) == LegiblePart(paise / 100) * 100 + paise % 100
  {
    var rupees, rest := paise / 100, paise % 100;
    var said := "Rupees" + " " + Words(rupees);
    FillersSkipped();
    WordsSay(rupees);
    RupeesRead("Rupees", Words(rupees), LegiblePart(rupees));
    if rest == 0 {
      SkippedRead(Start, said, "Only");
    } else {
      PaiseMarksPaise();
      WordsSay(rest);
      SkippedRead(Start, said, "and");
      MarkRead(Start, said + " " + "and", "Paise");
      SaidRead(Start, said + " " + "and" + " " + "Paise", Words(rest), rest);
      SkippedRead(Start, said + " " + "and" + " " + "Paise" + " " + Words(rest), "Only");
    }
  }

  /** An amount in words says the amount exactly when it is below two thousand crore rupees. */
  lemma AmountWordsSayTheAmountIff(paise: nat)
    ensures EvaluateAmount(AmountInWords(paise)) == paise <==> paise / 100 < 2000 * CRORE
  {
    AmountRead(paise);
  }

  lemma AmountWordsAreInjective(p: nat, q: nat)
    requires p / 100 < 2000 * CRORE && q / 100 < 2000 * CRORE
    ensures AmountInWords(p) == AmountInWords(q) ==> p == q
  {
    AmountWordsSayTheAmountIff(p);
    AmountWordsSayTheAmountIff(q);
  }
}
