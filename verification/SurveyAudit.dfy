/**
 * How the audit compares a stored column with the one an import proposes
 * (`normalizeAuditValue` and `valuesEqual` of `apps/api/src/surveys/survey-audit.util.ts`).
 */
module SurveyAudit {
  import opened Decimals
  import opened SurveyIds
  import opened Text

  /** The values that meet in a snapshot; a decimal is the database client's object, in ten-thousandths. */
  datatype Value = Null | Str(text: string) | Bool(flag: bool) | Num(number: real) | Dec(units: int)

  // ---- The text of a decimal ----

  /** Up to four decimals without the trailing zeros. */
  function Fraction(rest: nat, width: nat): string
    requires rest > 0
    decreases rest
  {
    if rest % 10 == 0 && width > 0 then Fraction(rest / 10, width - 1) else PadStart(Decimal(rest), width)
  }

  function NatDecimalText(units: nat): string {
    if units % 10000 == 0 then Decimal(units / 10000)
    else Decimal(units / 10000) + "." + Fraction(units % 10000, 4)
  }

  /** `toString` of a decimal column. */
  function DecimalText(units: int): string {
    if units < 0 then "-" + NatDecimalText(-units) else NatDecimalText(units)
  }

  /** The pattern `^\d+(\.\d+)?$`. */
  predicate PlainNumber(s: string) {
    Digits(s) || exists i :: 0 < i < |s| - 1 && DottedAt(s, i)
  }

  predicate DottedAt(s: string, i: nat) {
    i < |s| && s[i] == '.' && Digits(s[..i]) && Digits(s[i + 1..])
  }

  // ---- The comparison ----

  function Normalize(v: Value): Value {
    if v.Dec? && PlainNumber(DecimalText(v.units)) then Str(DecimalText(v.units)) else v
  }

  /** What `JSON.stringify` writes; two texts are equal exactly when these are. A decimal serializes as a string. */
  datatype Json = JsonNull | JsonString(text: string) | JsonBool(flag: bool) | JsonNumber(number: real)

  function Stringify(v: Value): Json {
    match v
    case Null => JsonNull
    case Str(text) => JsonString(text)
    case Bool(flag) => JsonBool(flag)
    case Num(number) => JsonNumber(number)
    case Dec(units) => JsonString(DecimalText(units))
  }

  /** `===`; two decimals are different objects. */
  predicate Identical(a: Value, b: Value) {
    a == b && !a.Dec?
  }

  predicate ValuesEqual(a: Value, b: Value) {
    var left, right := Normalize(a), Normalize(b);
    Identical(left, right) || (left.Null? && right.Null?) || Stringify(left) == Stringify(right)
  }

  // ---- When two values compare equal ----

  lemma FractionIsDigits(rest: nat, width: nat)
    requires rest > 0
    ensures Digits(Fraction(rest, width))
  {
  }

  /** A decimal is normalized to its text exactly when it is not negative. */
  lemma PlainIff(units: int)
    ensures PlainNumber(DecimalText(units)) <==> units >= 0
  {
    var text := DecimalText(units);
    if units < 0 {
      assert text[0] == '-';
      forall i | 0 < i < |text| - 1 ensures !DottedAt(text, i) {
        assert text[..i][0] == '-';
      }
    } else if units % 10000 != 0 {
      var whole, fraction := Decimal(units / 10000), Fraction(units % 10000, 4);
      FractionIsDigits(units % 10000, 4);
      assert text[|whole|] == '.' && text[..|whole|] == whole && text[|whole| + 1..] == fraction;
      assert DottedAt(text, |whole|);
    }
  }

  /** Normalization changes no JSON text, so the comparison is that of the JSON texts. */
  lemma EqualIffSameJson(a: Value, b: Value)
    ensures ValuesEqual(a, b) <==> Stringify(a) == Stringify(b)
  {
  }

  /** A stored decimal never compares equal to a number, whatever the two are, nor to null. */
  lemma DecimalEqualsIff(units: int, b: Value)
    ensures ValuesEqual(Dec(units), b)
       <==> (b.Dec? && DecimalText(b.units) == DecimalText(units)) || b == Str(DecimalText(units))
  {
    EqualIffSameJson(Dec(units), b);
  }

  /** Values of one other kind compare equal exactly when they are the same. */
  lemma PlainEqualsIff(a: Value, b: Value)
    requires !a.Dec? && !b.Dec?
    ensures ValuesEqual(a, b) <==> a == b
  {
    EqualIffSameJson(a, b);
  }
}
