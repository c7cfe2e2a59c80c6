/**
  Worked blood-pressure readings. Each reading is written as the
  concatenation of its parts, so `"120abc" + "/" + "80"` is the reading
  `120abc/80`.
 */
module BloodPressureExamples {

  import opened Numerals
  import opened RiskRules

  /** Worked readings, including two that a strict `\d+/\d+` pattern would refuse. */
  lemma WorkedReadings()
    ensures AssessBloodPressure(Reading("119" + "/" + "79")) == Level(Normal)
    ensures AssessBloodPressure(Reading("125" + "/" + "79")) == Level(Elevated)
    ensures AssessBloodPressure(Reading("121" + "/" + "81")) == Level(StageOne)
    ensures AssessBloodPressure(Reading("135" + "/" + "95")) == Level(StageTwo)
    ensures AssessBloodPressure(Reading("145" + "/" + "95")) == Level(StageTwo)
    ensures AssessBloodPressure(Reading("120abc" + "/" + "80")) == Level(StageOne)
    ensures AssessBloodPressure(Reading("120" + "/" + "80/70")) == Level(StageOne)
  {
    Reading119Over79();
    Reading125Over79();
    Reading121Over81();
    Reading135Over95();
    Reading145Over95();
    ReadingWithTrailingText();
    ReadingWithThirdPiece();
  }

  lemma Reading119Over79()
    ensures AssessBloodPressure(Reading("119" + "/" + "79")) == Level(Normal)
  {
    Numeral119();
    Numeral79();
    BloodPressureOfText("119", "79", 119, 79, "", "");
  }

  lemma Reading125Over79()
    ensures AssessBloodPressure(Reading("125" + "/" + "79")) == Level(Elevated)
  {
    Numeral125();
    Numeral79();
    BloodPressureOfText("125", "79", 125, 79, "", "");
  }

  lemma Reading121Over81()
    ensures AssessBloodPressure(Reading("121" + "/" + "81")) == Level(StageOne)
  {
    Numeral121();
    Numeral81();
    BloodPressureOfText("121", "81", 121, 81, "", "");
  }

  lemma Reading135Over95()
    ensures AssessBloodPressure(Reading("135" + "/" + "95")) == Level(StageTwo)
  {
    Numeral135();
    Numeral95();
    BloodPressureOfText("135", "95", 135, 95, "", "");
  }

  lemma Reading145Over95()
    ensures AssessBloodPressure(Reading("145" + "/" + "95")) == Level(StageTwo)
  {
    Numeral145();
    Numeral95();
    BloodPressureOfText("145", "95", 145, 95, "", "");
  }

  lemma ReadingWithTrailingText()
    ensures AssessBloodPressure(Reading("120abc" + "/" + "80")) == Level(StageOne)
  {
    Numeral120();
    Numeral80();
    BloodPressureOfText("120abc", "80", 120, 80, "abc", "");
  }

  lemma ReadingWithThirdPiece()
    ensures AssessBloodPressure(Reading("120" + "/" + "80/70")) == Level(StageOne)
  {
    Numeral120();
    Numeral80();
    BloodPressureOfText("120", "80/70", 120, 80, "", "/70");
  }

  /** `BloodPressureOfReading` for a reading given as its text before and after the first slash. */
  lemma BloodPressureOfText(sysText: string, diaText: string, systolic: nat, diastolic: nat, tail1: string, tail2: string)
    requires sysText == NatToDecimal(systolic) + tail1 && diaText == NatToDecimal(diastolic) + tail2
    requires '/' !in tail1
    requires |tail1| == 0 || !IsDigit(tail1[0])
    requires |tail2| == 0 || !IsDigit(tail2[0])
    ensures AssessBloodPressure(Reading(sysText + "/" + diaText))
         == Level(Max(SystolicRisk(systolic), DiastolicRisk(diastolic)))
  {
    assert sysText + "/" + diaText == IntToDecimal(systolic) + tail1 + "/" + IntToDecimal(diastolic) + tail2 by {
      assert IntToDecimal(systolic) == NatToDecimal(systolic);
      assert IntToDecimal(diastolic) == NatToDecimal(diastolic);
    }
    BloodPressureOfReading(systolic, diastolic, tail1, tail2);
  }

  lemma Numeral79()
    ensures NatToDecimal(79) == "79"
  {
  }

  lemma Numeral80()
    ensures NatToDecimal(80) == "80"
  {
  }

  lemma Numeral81()
    ensures NatToDecimal(81) == "81"
  {
  }

  lemma Numeral95()
    ensures NatToDecimal(95) == "95"
  {
  }

  lemma Numeral119()
    ensures NatToDecimal(119) == "119"
  {
  }

  lemma Numeral120()
    ensures NatToDecimal(120) == "120"
  {
  }

  lemma Numeral121()
    ensures NatToDecimal(121) == "121"
  {
  }

  lemma Numeral125()
    ensures NatToDecimal(125) == "125"
  {
  }

  lemma Numeral135()
    ensures NatToDecimal(135) == "135"
  {
  }

  lemma Numeral145()
    ensures NatToDecimal(145) == "145"
  {
  }
}
