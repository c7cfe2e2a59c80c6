/**
  The per-field risk classifiers and the score combiner. Each classifier maps
  one raw field of a patient record to a risk level or to `BadData`.
 */
module RiskRules {

  import opened Wrappers
  import opened Numerals
  import opened JsParseInt
  import opened Strings

  /** A risk level, or the `"bad_data"` marker. */
  datatype Risk = Level(n: nat) | BadData

  /** A field typed `number` that may arrive as anything JSON can carry in its place. */
  datatype NumInput = Nullish | Bool(b: bool) | NaN | Num(r: real)

  /** The blood-pressure field: null or undefined, some non-string value, or a string. */
  datatype BpInput = NoReading | NotText | Reading(text: string)

  // Blood-pressure levels (the `BloodPressureRisk` enum).
  const Normal: nat := 0
  const Elevated: nat := 1
  const StageOne: nat := 2
  const StageTwo: nat := 3

  // Fever levels (the `FeverRisk` enum).
  const NoFever: nat := 0
  const LowFever: nat := 1
  const HighFever: nat := 2

  // Age levels (the `AgeRisk` enum).
  const UnderForty: nat := 0
  const FortyToSixtyFive: nat := 1
  const OverSixtyFive: nat := 2

  function Max(a: nat, b: nat): nat {
    if a >= b then a else b
  }

  /**
    The systolic score. The source's default branch is reached only by NaN,
    which never gets here, so on integers the four bands cover everything.
   */
  function SystolicRisk(systolic: int): (r: nat)
    ensures r == Normal <==> systolic < 120
    ensures r == Elevated <==> 120 <= systolic < 130
    ensures r == StageOne <==> 130 <= systolic < 140
    ensures r == StageTwo <==> 140 <= systolic
  {
    if systolic < 120 then Normal
    else if systolic >= 120 && systolic < 130 then Elevated
    else if systolic >= 130 && systolic < 140 then StageOne
    else StageTwo
  }

  /**
    The diastolic score. It skips `Elevated`: 80 to 89 is already `StageOne`
    and 90 upwards is `StageTwo`.
   */
  function DiastolicRisk(diastolic: int): (r: nat)
    ensures r != Elevated
    ensures r == Normal <==> diastolic < 80
    ensures r == StageOne <==> 80 <= diastolic < 90
    ensures r == StageTwo <==> 90 <= diastolic
  {
    if diastolic < 80 then Normal
    else if diastolic >= 80 && diastolic < 90 then StageOne
    else StageTwo
  }

  /**
    `assessBloodPressure`: the reading is split on `/`; the first two pieces
    must be non-empty and each must start with an integer as `parseInt` reads
    it. Further pieces and text after the integers are ignored.
   */
  function AssessBloodPressure(bp: BpInput): (r: Risk)
    ensures !bp.Reading? ==> r == BadData
    ensures r.Level? ==> r.n <= StageTwo
    ensures r.Level? ==> bp.Reading? && '/' in bp.text
    ensures bp.Reading? ==>
      var pieces := Split(bp.text, '/');
      (r == BadData <==>
        || |pieces| < 2 || pieces[0] == "" || pieces[1] == ""
        || !HasIntegerPrefix(pieces[0]) || !HasIntegerPrefix(pieces[1]))
  {
    match bp
    case NoReading => BadData
    case NotText => BadData
    case Reading(s) =>
      var pieces := Split(s, '/');
      if |pieces| < 2 || pieces[0] == "" || pieces[1] == "" then BadData
      else
        match (ParseInt(pieces[0]), ParseInt(pieces[1]))
        case (Some(systolic), Some(diastolic)) =>
          Level(Max(SystolicRisk(systolic), DiastolicRisk(diastolic)))
        case _ => BadData
  }

  /**
    A reading made of two integers around a slash scores the larger of the
    systolic and diastolic scores, whatever text trails either integer (so
    long as it does not continue its digits and the text after the systolic
    value holds no slash).
   */
  lemma BloodPressureOfReading(systolic: int, diastolic: int, tail1: string, tail2: string)
    requires '/' !in tail1
    requires |tail1| == 0 || !IsDigit(tail1[0])
    requires |tail2| == 0 || !IsDigit(tail2[0])
    ensures AssessBloodPressure(Reading(IntToDecimal(systolic) + tail1 + "/" + IntToDecimal(diastolic) + tail2))
         == Level(Max(SystolicRisk(systolic), DiastolicRisk(diastolic)))
  {
    var first := IntToDecimal(systolic) + tail1;
    var second := IntToDecimal(diastolic);
    var s := IntToDecimal(systolic) + tail1 + "/" + IntToDecimal(diastolic) + tail2;
    assert '/' !in first by {
      assert forall i :: 0 <= i < |IntToDecimal(systolic)| ==> first[i] == IntToDecimal(systolic)[i];
    }
    assert '/' !in second;
    assert s == first + ['/'] + (second + tail2);
    SplitAtFirstSeparator(first, '/', second + tail2);
    SplitExtendsFirstPiece(second, '/', tail2);
    var rest := Split(tail2, '/')[0];
    assert |rest| == 0 || rest[0] == tail2[0];
    ParseIntRoundTrip(systolic, tail1);
    ParseIntRoundTrip(diastolic, rest);
    PiecesRisk(s, systolic, diastolic);
  }

  /** The risk of a reading whose first two pieces parse to the given integers. */
  lemma PiecesRisk(s: string, systolic: int, diastolic: int)
    requires |Split(s, '/')| >= 2
    requires Split(s, '/')[0] != "" && Split(s, '/')[1] != ""
    requires ParseInt(Split(s, '/')[0]) == Some(systolic)
    requires ParseInt(Split(s, '/')[1]) == Some(diastolic)
    ensures AssessBloodPressure(Reading(s)) == Level(Max(SystolicRisk(systolic), DiastolicRisk(diastolic)))
  {
  }

  /** A reading with no slash is bad data. */
  lemma BloodPressureWithoutSlash(s: string)
    requires '/' !in s
    ensures AssessBloodPressure(Reading(s)) == BadData
  {
    SplitWithoutSeparator(s, '/');
  }

  /** A reading that starts with a slash has no systolic value and is bad data. */
  lemma BloodPressureWithoutSystolic(s: string)
    ensures AssessBloodPressure(Reading("/" + s)) == BadData
  {
    SplitAtFirstSeparator("", '/', s);
    assert "" + ['/'] + s == "/" + s;
  }

  /** A reading with no digit before its first slash is bad data. */
  lemma BloodPressureWithoutDigits(s: string)
    requires forall i :: 0 <= i < |Split(s, '/')[0]| ==> !IsDigit(s[i])
    ensures AssessBloodPressure(Reading(s)) == BadData
  {
    var first := Split(s, '/')[0];
    assert forall i :: 0 <= i < |first| ==> first[i] == s[i];
  }

  /** A reading that ends at its first slash has an empty diastolic piece and is bad data. */
  lemma BloodPressureWithoutDiastolic(s: string)
    requires '/' !in s
    ensures AssessBloodPressure(Reading(s + "/")) == BadData
  {
    SplitAtFirstSeparator(s, '/', "");
    assert s + ['/'] + "" == s + "/";
  }

  /** A diastolic piece that starts with neither a digit, white space nor a sign is bad data. */
  lemma BloodPressureWithoutDiastolicDigits(a: string, b: string)
    requires '/' !in a
    requires |b| > 0 && !IsDigit(b[0]) && !IsStrWhiteSpace(b[0]) && b[0] != '+' && b[0] != '-'
    ensures AssessBloodPressure(Reading(a + "/" + b)) == BadData
  {
    SplitAtFirstSeparator(a, '/', b);
    assert a + ['/'] + b == a + "/" + b;
    var second := Split(b, '/')[0];
    assert |second| > 0 ==> second[0] == b[0];
  }

  /** Two slash-free pieces that both parse score the larger of their two levels. */
  lemma BloodPressureOfPieces(first: string, second: string, systolic: int, diastolic: int)
    requires '/' !in first && '/' !in second
    requires ParseInt(first) == Some(systolic) && ParseInt(second) == Some(diastolic)
    ensures AssessBloodPressure(Reading(first + "/" + second))
         == Level(Max(SystolicRisk(systolic), DiastolicRisk(diastolic)))
  {
    SplitAtFirstSeparator(first, '/', second);
    SplitWithoutSeparator(second, '/');
    assert first + ['/'] + second == first + "/" + second;
    PiecesRisk(first + "/" + second, systolic, diastolic);
  }

  /** What `parseInt` skips or ignores in front of a numeral: white space, then an optional plus sign, then zeros. */
  predicate IsPadding(ws: string, sign: string, zeros: string) {
    && (forall i :: 0 <= i < |ws| ==> IsStrWhiteSpace(ws[i]))
    && (sign == "" || sign == "+")
    && (forall i :: 0 <= i < |zeros| ==> zeros[i] == '0')
  }

  /**
    White space, a plus sign and leading zeros in front of either numeral
    change nothing: " 120/80", "+120/80" and "0120/080" all score as "120/80".
   */
  lemma BloodPressureOfLooseNumerals(ws1: string, sign1: string, zeros1: string, systolic: nat,
                                     ws2: string, sign2: string, zeros2: string, diastolic: nat)
    requires IsPadding(ws1, sign1, zeros1) && IsPadding(ws2, sign2, zeros2)
    ensures AssessBloodPressure(Reading((ws1 + sign1 + zeros1 + NatToDecimal(systolic)) + "/" + (ws2 + sign2 + zeros2 + NatToDecimal(diastolic))))
         == Level(Max(SystolicRisk(systolic), DiastolicRisk(diastolic)))
  {
    var first := ws1 + sign1 + zeros1 + NatToDecimal(systolic);
    var second := ws2 + sign2 + zeros2 + NatToDecimal(diastolic);
    LooseNumeral(ws1, sign1, zeros1, systolic);
    LooseNumeral(ws2, sign2, zeros2, diastolic);
    BloodPressureOfPieces(first, second, systolic, diastolic);
  }

  /** `parseInt` reads `n` from its numeral behind padding, and the padded numeral holds no slash. */
  lemma LooseNumeral(ws: string, sign: string, zeros: string, n: nat)
    requires IsPadding(ws, sign, zeros)
    ensures ParseInt(ws + sign + zeros + NatToDecimal(n)) == Some(n)
    ensures '/' !in ws + sign + zeros + NatToDecimal(n)
  {
    var numeral := zeros + NatToDecimal(n);
    LeadingZeros(zeros, NatToDecimal(n));
    ParseIntOfPaddedDigits(ws, sign, numeral);
    assert ws + sign + zeros + NatToDecimal(n) == ws + sign + numeral;
    PaddingHasNoSlash(ws, sign, zeros, n);
  }

  lemma PaddingHasNoSlash(ws: string, sign: string, zeros: string, n: nat)
    requires IsPadding(ws, sign, zeros)
    ensures '/' !in ws + sign + zeros + NatToDecimal(n)
  {
    assert !IsStrWhiteSpace('/');
    assert '/' !in ws && '/' !in sign && '/' !in zeros && '/' !in NatToDecimal(n);
  }

  /**
    `assessFever`: null, undefined, NaN and booleans are bad data; otherwise
    at most 99.5 is normal, 99.6 to 100.9 is a low fever, and everything else
    is a high fever, including the gap strictly between 99.5 and 99.6.
   */
  function AssessFever(temperature: NumInput): (r: Risk)
    ensures r == BadData <==> !temperature.Num?
    ensures temperature.Num? ==> r.Level? && r.n <= HighFever
    ensures temperature.Num? ==>
      var t := temperature.r;
      && (r.n == NoFever <==> t <= 99.5)
      && (r.n == LowFever <==> 99.6 <= t <= 100.9)
      && (r.n == HighFever <==> (99.5 < t < 99.6 || 100.9 < t))
  {
    match temperature
    case Nullish => BadData
    case NaN => BadData
    case Bool(_) => BadData
    case Num(t) =>
      if t <= 99.5 then Level(NoFever)
      else if t >= 99.6 && t <= 100.9 then Level(LowFever)
      else Level(HighFever)
  }

  /** The fever scale is not monotone: the gap above 99.5 scores higher than 99.6. */
  lemma FeverGap()
    ensures AssessFever(Num(99.5)) == Level(NoFever)
    ensures AssessFever(Num(99.55)) == Level(HighFever)
    ensures AssessFever(Num(99.6)) == Level(LowFever)
    ensures AssessFever(Num(100.9)) == Level(LowFever)
    ensures AssessFever(Num(101.0)) == Level(HighFever)
  {
  }

  /**
    `assessAgeRisk`: null, undefined, NaN and booleans are bad data; otherwise
    under 40 scores 0, 40 to 65 inclusive scores 1, and anything above 65
    (65.5 included) scores 2.
   */
  function AssessAgeRisk(age: NumInput): (r: Risk)
    ensures r == BadData <==> !age.Num?
    ensures age.Num? ==> r.Level? && r.n <= OverSixtyFive
    ensures age.Num? ==>
      var a := age.r;
      && (r.n == UnderForty <==> a < 40.0)
      && (r.n == FortyToSixtyFive <==> 40.0 <= a <= 65.0)
      && (r.n == OverSixtyFive <==> 65.0 < a)
  {
    match age
    case Nullish => BadData
    case NaN => BadData
    case Bool(_) => BadData
    case Num(a) =>
      if a < 40.0 then Level(UnderForty)
      else if a >= 40.0 && a <= 65.0 then Level(FortyToSixtyFive)
      else Level(OverSixtyFive)
  }

  /** The age score never decreases as the age grows. */
  lemma AgeRiskMonotone(a: real, b: real)
    requires a <= b
    ensures AssessAgeRisk(Num(a)).n <= AssessAgeRisk(Num(b)).n
  {
  }

  /** What one risk adds to the sum: its level, or nothing for bad data. */
  function Contribution(r: Risk): nat {
    if r.Level? then r.n else 0
  }

  /**
    `combineRisks`: a left-to-right reduce that adds the numeric risks only.
    No single level exceeds the sum, and a list of bad data sums to 0.
   */
  function CombineRisks(risks: seq<Risk>): (sum: nat)
    ensures forall i :: 0 <= i < |risks| ==> Contribution(risks[i]) <= sum
    ensures (forall i :: 0 <= i < |risks| ==> risks[i] == BadData) ==> sum == 0
  {
    if |risks| == 0 then 0
    else CombineRisks(risks[..|risks| - 1]) + Contribution(risks[|risks| - 1])
  }

  /** The sum over a concatenation is the sum of the sums. */
  lemma {:induction false} CombineAppend(a: seq<Risk>, b: seq<Risk>)
    ensures CombineRisks(a + b) == CombineRisks(a) + CombineRisks(b)
    decreases |b|
  {
    if |b| == 0 {
      assert a + b == a;
    } else {
      var c := a + b;
      assert c[..|c| - 1] == a + b[..|b| - 1];
      CombineAppend(a, b[..|b| - 1]);
    }
  }

  /** A bad-data entry adds nothing, wherever it stands. */
  lemma CombineIgnoresBadData(a: seq<Risk>, b: seq<Risk>)
    ensures CombineRisks(a + [BadData] + b) == CombineRisks(a + b)
  {
    CombineAppend(a, [BadData]);
    CombineAppend(a + [BadData], b);
    CombineAppend(a, b);
  }

  /** The order of the risks does not matter. */
  lemma CombineCommutes(a: seq<Risk>, b: seq<Risk>)
    ensures CombineRisks(a + b) == CombineRisks(b + a)
  {
    CombineAppend(a, b);
    CombineAppend(b, a);
  }

  /**
    The combined score of the three assessments is the sum of their levels,
    bad data counting 0, and lies between 0 and 7.
   */
  lemma CombineThree(bp: BpInput, temperature: NumInput, age: NumInput)
    ensures var risks := [AssessBloodPressure(bp), AssessFever(temperature), AssessAgeRisk(age)];
      && CombineRisks(risks) == Contribution(risks[0]) + Contribution(risks[1]) + Contribution(risks[2])
      && CombineRisks(risks) <= StageTwo + HighFever + OverSixtyFive
  {
    var risks := [AssessBloodPressure(bp), AssessFever(temperature), AssessAgeRisk(age)];
    assert risks[..2] == [risks[0], risks[1]];
    assert [risks[0], risks[1]][..1] == [risks[0]];
    assert [risks[0]][..0] == [];
    assert CombineRisks([risks[0]]) == Contribution(risks[0]);
    assert CombineRisks([risks[0], risks[1]]) == Contribution(risks[0]) + Contribution(risks[1]);
  }
}
