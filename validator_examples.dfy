/** Concrete documents run through the validators: well-known valid CPF,
    CNPJ and RENAVAM numbers, leap-day and thirty-day-month dates, the
    two plate layouts, a CEP and phone numbers. They show the rules are neither empty nor
    all-accepting. Each fact about a literal is its own small lemma. */
module ValidatorExamples {
  import opened Text
  import opened Patterns
  import opened BrazilianValidators

  // ---------------------------------------------------------------------
  // CPF 529.982.247-25
  // ---------------------------------------------------------------------

  lemma CpfExampleDigits()
    ensures DigitsOnly("529.982.247-25") == "52998224725"
  {
    CpfTemplateShape("52998224725");
    assert CpfTemplate("52998224725") == "529.982.247-25";
  }

  lemma CpfExampleFirstSum()
    ensures Dot("52998224725"[..9], Countdown(10, 9)) == 295
  {
    assert "52998224725"[..9] == "529982247";
    assert Countdown(10, 9) == [10, 9, 8, 7, 6, 5, 4, 3, 2];
  }

  lemma CpfExampleSecondSum()
    ensures Dot("52998224725"[..10], Countdown(11, 10)) == 347
  {
    assert "52998224725"[..10] == "5299822472";
    assert Countdown(11, 10) == [11, 10, 9, 8, 7, 6, 5, 4, 3, 2];
  }

  lemma CpfExampleNotAllSame()
    ensures !AllSame("52998224725")
  {
    assert "52998224725"[1] != "52998224725"[0];
  }

  /** 295 leaves remainder 9 (check digit 2), 347 leaves 6 (check digit 5). */
  lemma CpfExample()
    ensures IsValidCPF("529.982.247-25")
  {
    CpfExampleDigits();
    CpfExampleFirstSum();
    CpfExampleSecondSum();
    CpfExampleNotAllSame();
    assert DigitValue("52998224725"[9]) == 2 && DigitValue("52998224725"[10]) == 5;
  }

  // ---------------------------------------------------------------------
  // CNPJ 11.222.333/0001-81
  // ---------------------------------------------------------------------

  lemma CnpjExampleDigits()
    ensures DigitsOnly("11222333000181") == "11222333000181"
  {
    var s := "11222333000181";
    assert IsDigit(s[0]) && IsDigit(s[1]) && IsDigit(s[2]) && IsDigit(s[3]) && IsDigit(s[4]) && IsDigit(s[5]) && IsDigit(s[6]);
    assert IsDigit(s[7]) && IsDigit(s[8]) && IsDigit(s[9]) && IsDigit(s[10]) && IsDigit(s[11]) && IsDigit(s[12]) && IsDigit(s[13]);
    DigitsOnlyOfDigits(s);
  }

  lemma CnpjExampleFirstSum()
    ensures Dot("11222333000181"[..12], CnpjWeights(5, 12)) == 102
  {
    assert "11222333000181"[..12] == "112223330001";
    CnpjWeightTables();
  }

  lemma CnpjExampleSecondSum()
    ensures Dot("11222333000181"[..13], CnpjWeights(6, 13)) == 120
  {
    assert "11222333000181"[..13] == "1122233300018";
    CnpjWeightTables();
  }

  lemma CnpjExampleNotAllSame()
    ensures !AllSame("11222333000181")
  {
    assert "11222333000181"[2] != "11222333000181"[0];
  }

  /** 102 leaves remainder 3 (check digit 8), 120 leaves 10 (check digit 1). */
  lemma CnpjExample()
    ensures IsValidCNPJ("11222333000181")
  {
    CnpjExampleDigits();
    CnpjExampleFirstSum();
    CnpjExampleSecondSum();
    CnpjExampleNotAllSame();
    assert DigitValue("11222333000181"[12]) == 8 && DigitValue("11222333000181"[13]) == 1;
  }

  // ---------------------------------------------------------------------
  // RENAVAM 12345678900
  // ---------------------------------------------------------------------

  lemma RenavamExampleDigits()
    ensures DigitsOnly("12345678900") == "12345678900"
  {
    var s := "12345678900";
    assert IsDigit(s[0]) && IsDigit(s[1]) && IsDigit(s[2]) && IsDigit(s[3]) && IsDigit(s[4]) && IsDigit(s[5]);
    assert IsDigit(s[6]) && IsDigit(s[7]) && IsDigit(s[8]) && IsDigit(s[9]) && IsDigit(s[10]);
    DigitsOnlyOfDigits(s);
  }

  lemma RenavamExampleSum()
    ensures Dot("12345678900"[..10], RenavamWeights()) == 231
  {
    assert "12345678900"[..10] == "1234567890";
    assert RenavamWeights() == [3, 2, 9, 8, 7, 6, 5, 4, 3, 2];
  }

  lemma RenavamExampleNotAllSame()
    ensures !AllSame("12345678900")
  {
    assert "12345678900"[1] != "12345678900"[0];
  }

  /** Weighted sum 231 leaves remainder 0, so the check digit is 0. */
  lemma RenavamExample()
    ensures IsValidRenavam("12345678900")
  {
    RenavamExampleDigits();
    RenavamExampleSum();
    RenavamExampleNotAllSame();
    assert DigitValue("12345678900"[10]) == 0;
  }

  // ---------------------------------------------------------------------
  // Dates: `DateString(29, 2, 2024)` is "29/02/2024", and so on
  // ---------------------------------------------------------------------

  lemma LeapYearExample()
    ensures IsValidDate(DateString(29, 2, 2024))
  {
    LeapDay(2024);
  }

  lemma CommonYearExample()
    ensures !IsValidDate(DateString(29, 2, 2023))
  {
    LeapDay(2023);
  }

  lemma ThirtyDayMonthExample()
    ensures !IsValidDate(DateString(31, 4, 2024))
  {
    DateStringValid(31, 4, 2024);
  }

  // ---------------------------------------------------------------------
  // Plates
  // ---------------------------------------------------------------------

  lemma LegacyPlateShapeExample()
    ensures IsPlateShape("ABC1234")
  {
    var s := "ABC1234";
    assert IsShape(s, LegacyPlateShape);
  }

  lemma LegacyPlateExample()
    ensures IsValidPlaca("ABC1234")
  {
    var s := "ABC1234";
    assert IsUpperOrDigit(s[0]) && IsUpperOrDigit(s[1]) && IsUpperOrDigit(s[2]) && IsUpperOrDigit(s[3]);
    assert IsUpperOrDigit(s[4]) && IsUpperOrDigit(s[5]) && IsUpperOrDigit(s[6]);
    CleanPlacaOfClean(s);
    LegacyPlateShapeExample();
  }

  lemma DashedPlateLetters()
    ensures Filter("ABC-", IsUpperOrDigit) == "ABC"
  {
    var s := "ABC";
    assert IsUpperOrDigit(s[0]) && IsUpperOrDigit(s[1]) && IsUpperOrDigit(s[2]);
    FilterKeepsAll(s, IsUpperOrDigit);
    assert "-"[1..] == "";
    FilterConcat("ABC", "-", IsUpperOrDigit);
    assert "ABC" + "-" == "ABC-";
  }

  lemma DashedPlateDigits()
    ensures Filter("1234", IsUpperOrDigit) == "1234"
  {
    var s := "1234";
    assert IsUpperOrDigit(s[0]) && IsUpperOrDigit(s[1]) && IsUpperOrDigit(s[2]) && IsUpperOrDigit(s[3]);
    FilterKeepsAll(s, IsUpperOrDigit);
  }

  /** Cleaning drops the dash. */
  lemma DashedPlateCleans()
    ensures CleanPlaca("ABC-1234") == "ABC1234"
  {
    DashedPlateLetters();
    DashedPlateDigits();
    FilterConcat("ABC-", "1234", IsUpperOrDigit);
    assert "ABC-" + "1234" == "ABC-1234";
    assert "ABC" + "1234" == "ABC1234";
  }

  lemma DashedPlateExample()
    ensures IsValidPlaca("ABC-1234")
  {
    DashedPlateCleans();
    LegacyPlateShapeExample();
  }

  lemma MercosulPlateShapeExample()
    ensures IsPlateShape("ABC1D23")
  {
    var s := "ABC1D23";
    assert IsShape(s, MercosulPlateShape);
  }

  lemma MercosulPlateExample()
    ensures IsValidPlaca("ABC1D23")
  {
    var s := "ABC1D23";
    assert IsUpperOrDigit(s[0]) && IsUpperOrDigit(s[1]) && IsUpperOrDigit(s[2]) && IsUpperOrDigit(s[3]);
    assert IsUpperOrDigit(s[4]) && IsUpperOrDigit(s[5]) && IsUpperOrDigit(s[6]);
    CleanPlacaOfClean(s);
    MercosulPlateShapeExample();
  }

  lemma ShortPrefixPlateExample()
    ensures !IsValidPlaca("AB12345")
  {
    var s := "AB12345";
    assert IsUpperOrDigit(s[0]) && IsUpperOrDigit(s[1]) && IsUpperOrDigit(s[2]) && IsUpperOrDigit(s[3]);
    assert IsUpperOrDigit(s[4]) && IsUpperOrDigit(s[5]) && IsUpperOrDigit(s[6]);
    CleanPlacaOfClean(s);
    assert CleanPlaca(s)[2] == '1';
    assert !ClsMatch(LegacyPlateShape[2], '1') && !ClsMatch(MercosulPlateShape[2], '1');
  }

  // ---------------------------------------------------------------------
  // CEP 01310-100 and phone numbers
  // ---------------------------------------------------------------------

  lemma CepPartsDigits()
    ensures DigitsOnly("01310") == "01310" && DigitsOnly("100") == "100"
  {
    var a, b := "01310", "100";
    assert IsDigit(a[0]) && IsDigit(a[1]) && IsDigit(a[2]) && IsDigit(a[3]) && IsDigit(a[4]);
    assert IsDigit(b[0]) && IsDigit(b[1]) && IsDigit(b[2]);
    DigitsOnlyOfDigits(a);
    DigitsOnlyOfDigits(b);
  }

  lemma CepExampleDigits()
    ensures DigitsOnly("01310-100") == "01310100"
  {
    var a, b := "01310", "100";
    CepPartsDigits();
    DigitsOnlyOfNonDigits("-");
    DigitsOnlyConcat(a, "-");
    DigitsOnlyConcat(a + "-", b);
    calc {
      DigitsOnly("01310-100");
      { assert "01310-100" == (a + "-") + b; }
      DigitsOnly(a + "-") + DigitsOnly(b);
      a + b;
      { assert a + b == "01310100"; }
      "01310100";
    }
  }

  /** The hyphen is stripped and eight digits remain. */
  lemma CepExample()
    ensures IsValidCEP("01310-100")
  {
    CepExampleDigits();
  }

  /** Seven digits are not a CEP. */
  lemma ShortCepExample()
    ensures !IsValidCEP("0131010")
  {
    var s := "0131010";
    assert IsDigit(s[0]) && IsDigit(s[1]) && IsDigit(s[2]) && IsDigit(s[3]) && IsDigit(s[4]) && IsDigit(s[5]) && IsDigit(s[6]);
    DigitsOnlyOfDigits(s);
  }

  /** An eleven-digit mobile number is a phone number. */
  lemma MobileExample()
    ensures IsValidTelefone("11987654321")
  {
    var s := "11987654321";
    assert IsDigit(s[0]) && IsDigit(s[1]) && IsDigit(s[2]) && IsDigit(s[3]) && IsDigit(s[4]) && IsDigit(s[5]);
    assert IsDigit(s[6]) && IsDigit(s[7]) && IsDigit(s[8]) && IsDigit(s[9]) && IsDigit(s[10]);
    DigitsOnlyOfDigits(s);
  }

  /** Nine digits are not a phone number. */
  lemma ShortPhoneExample()
    ensures !IsValidTelefone("987654321")
  {
    var s := "987654321";
    assert IsDigit(s[0]) && IsDigit(s[1]) && IsDigit(s[2]) && IsDigit(s[3]) && IsDigit(s[4]);
    assert IsDigit(s[5]) && IsDigit(s[6]) && IsDigit(s[7]) && IsDigit(s[8]);
    DigitsOnlyOfDigits(s);
  }
}
