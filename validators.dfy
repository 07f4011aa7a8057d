/** Validators and formatters for Brazilian documents: CPF and CNPJ check
    digits (modulo 11), RENAVAM check digit, DD/MM/YYYY dates, licence plates
    (legacy and Mercosul), CEP and telephone digit counts, and the
    `validateAndClean` dispatcher. The checksum validators are loops over the
    cleaned digits, each proved equal to a predicate stating the rule. */
module BrazilianValidators {
  import opened Text
  import opened Patterns

  // ---------------------------------------------------------------------
  // Weighted digit sums
  // ---------------------------------------------------------------------

  /** Sum of `digit * weight` over the positions from `i` on. */
  function SumFrom(ds: string, ws: seq<int>, i: nat): int
    requires AllDigits(ds) && |ds| == |ws| && i <= |ds|
    decreases |ds| - i
  {
    if i == |ds| then 0 else DigitValue(ds[i]) * ws[i] + SumFrom(ds, ws, i + 1)
  }

  /** The weighted digit sum every check digit here is computed from. */
  function Dot(ds: string, ws: seq<int>): int
    requires AllDigits(ds) && |ds| == |ws|
  {
    SumFrom(ds, ws, 0)
  }

  /** The weights `start, start - 1, ...` (`n` of them). */
  function Countdown(start: int, n: nat): (ws: seq<int>)
    ensures |ws| == n && forall i :: 0 <= i < n ==> ws[i] == start - i
  {
    seq(n, i => start - i)
  }

  /** The regex `/^(\d)\1{n}$/` on a digit string: every digit is the first. */
  predicate AllSame(c: string) {
    forall i :: 0 <= i < |c| ==> c[i] == c[0]
  }

  // ---------------------------------------------------------------------
  // CPF
  // ---------------------------------------------------------------------

  /** `11 - sum % 11`, with 10 and 11 becoming 0. */
  function CpfCheck(sum: int): (d: nat)
    ensures d <= 9
    ensures d == 0 <==> sum % 11 <= 1
  {
    var r := 11 - sum % 11;
    if r > 9 then 0 else r
  }

  /** A CPF is valid when its digits are eleven, not all equal, and the last two
      are the modulo-11 check digits of the nine (weights 10..2) and ten
      (weights 11..2) digits before them. */
  predicate IsValidCPF(s: string) {
    var c := DigitsOnly(s);
    |c| == 11 && !AllSame(c)
    && DigitValue(c[9]) == CpfCheck(Dot(c[..9], Countdown(10, 9)))
    && DigitValue(c[10]) == CpfCheck(Dot(c[..10], Countdown(11, 10)))
  }

  method ValidateCPF(cpf: string) returns (ok: bool)
    ensures ok == IsValidCPF(cpf)
  {
    if cpf == "" {
      return false;
    }
    var clean := DigitsOnly(cpf);
    if |clean| != 11 {
      return false;
    }
    if AllSame(clean) {
      return false;
    }
    ghost var w1 := Countdown(10, 9);
    ghost var d9 := clean[..9];
    var sum := 0;
    for i := 0 to 9
      invariant sum + SumFrom(d9, w1, i) == Dot(d9, w1)
    {
      sum := sum + DigitValue(clean[i]) * (10 - i);
    }
    var digit1 := 11 - sum % 11;
    if digit1 > 9 {
      digit1 := 0;
    }
    ghost var w2 := Countdown(11, 10);
    ghost var d10 := clean[..10];
    sum := 0;
    for i := 0 to 10
      invariant sum + SumFrom(d10, w2, i) == Dot(d10, w2)
    {
      sum := sum + DigitValue(clean[i]) * (11 - i);
    }
    var digit2 := 11 - sum % 11;
    if digit2 > 9 {
      digit2 := 0;
    }
    return DigitValue(clean[9]) == digit1 && DigitValue(clean[10]) == digit2;
  }

  /** Completes nine digits with their two CPF check digits. */
  function MakeCPF(base: string): (c: string)
    requires |base| == 9 && AllDigits(base)
    ensures |c| == 11 && AllDigits(c) && c[..9] == base
  {
    var b10 := base + [DigitChar(CpfCheck(Dot(base, Countdown(10, 9))))];
    b10 + [DigitChar(CpfCheck(Dot(b10, Countdown(11, 10))))]
  }

  /** A CPF is valid exactly when its digits are the completion of their first
      nine and are not all equal. */
  lemma CpfCharacterization(s: string)
    ensures IsValidCPF(s) <==>
      (var c := DigitsOnly(s); |c| == 11 && c == MakeCPF(c[..9]) && !AllSame(c))
  {
    var c := DigitsOnly(s);
    if |c| == 11 {
      var m := MakeCPF(c[..9]);
      assert m[..10] == m[..9] + [m[9]];
      assert c[..10] == c[..9] + [c[9]];
      if IsValidCPF(s) {
        assert c[9] == DigitChar(DigitValue(c[9]));
        assert c[10] == DigitChar(DigitValue(c[10]));
        assert c[..10] == m[..10];
        assert c == m[..10] + [c[10]];
      } else if c == m && !AllSame(c) {
        assert c[..10] == m[..10];
      }
    }
  }

  /** Every nine digits have exactly one valid completion (unless it repeats one digit). */
  lemma MakeCPFValid(base: string)
    requires |base| == 9 && AllDigits(base)
    ensures IsValidCPF(MakeCPF(base)) <==> !AllSame(MakeCPF(base))
  {
    var c := MakeCPF(base);
    DigitsOnlyOfDigits(c);
    CpfCharacterization(c);
  }

  /** Changing either check digit of a valid CPF makes it invalid. */
  lemma CpfCheckDigitMutation(c: string, i: nat, x: char)
    requires IsValidCPF(c) && AllDigits(c)
    requires i == 9 || i == 10
    requires IsDigit(x) && x != c[i]
    ensures !IsValidCPF(c[i := x])
  {
    DigitsOnlyOfDigits(c);
    var c' := c[i := x];
    DigitsOnlyOfDigits(c');
    CpfCharacterization(c);
    CpfCharacterization(c');
    assert c'[..9] == c[..9];
  }

  // ---------------------------------------------------------------------
  // CNPJ
  // ---------------------------------------------------------------------

  /** `pos--; if (pos < 2) pos = 9;` */
  function NextPos(pos: int): int {
    if pos - 1 < 2 then 9 else pos - 1
  }

  /** The weight `pos` holds after `k` steps from `start`. */
  function PosAfter(start: int, k: nat): int {
    if k == 0 then start else NextPos(PosAfter(start, k - 1))
  }

  /** The `n` weights the CNPJ loop uses when `pos` starts at `start`. */
  function CnpjWeights(start: int, n: nat): (ws: seq<int>)
    ensures |ws| == n && forall k :: 0 <= k < n ==> ws[k] == PosAfter(start, k)
  {
    seq(n, (k: nat) => PosAfter(start, k))
  }

  /** The weight tables of the CNPJ rule: 5,4,3,2,9..2 and 6,5,4,3,2,9..2. */
  lemma CnpjWeightTables()
    ensures CnpjWeights(5, 12) == [5, 4, 3, 2, 9, 8, 7, 6, 5, 4, 3, 2]
    ensures CnpjWeights(6, 13) == [6, 5, 4, 3, 2, 9, 8, 7, 6, 5, 4, 3, 2]
  {
    assert PosAfter(5, 0) == 5 && PosAfter(5, 1) == 4 && PosAfter(5, 2) == 3 && PosAfter(5, 3) == 2 && PosAfter(5, 4) == 9 && PosAfter(5, 5) == 8;
    assert PosAfter(5, 6) == 7 && PosAfter(5, 7) == 6 && PosAfter(5, 8) == 5 && PosAfter(5, 9) == 4 && PosAfter(5, 10) == 3 && PosAfter(5, 11) == 2;
    assert PosAfter(6, 0) == 6 && PosAfter(6, 1) == 5 && PosAfter(6, 2) == 4 && PosAfter(6, 3) == 3 && PosAfter(6, 4) == 2 && PosAfter(6, 5) == 9 && PosAfter(6, 6) == 8;
    assert PosAfter(6, 7) == 7 && PosAfter(6, 8) == 6 && PosAfter(6, 9) == 5 && PosAfter(6, 10) == 4 && PosAfter(6, 11) == 3 && PosAfter(6, 12) == 2;
  }

  /** `sum % 11 < 2 ? 0 : 11 - sum % 11` */
  function CnpjCheck(sum: int): (d: nat)
    ensures d <= 9
    ensures d == 0 <==> sum % 11 < 2
  {
    if sum % 11 < 2 then 0 else 11 - sum % 11
  }

  /** A CNPJ is valid when its digits are fourteen, not all equal, and the last
      two are the check digits of the twelve and thirteen digits before them. */
  predicate IsValidCNPJ(s: string) {
    var c := DigitsOnly(s);
    |c| == 14 && !AllSame(c)
    && CnpjCheck(Dot(c[..12], CnpjWeights(5, 12))) == DigitValue(c[12])
    && CnpjCheck(Dot(c[..13], CnpjWeights(6, 13))) == DigitValue(c[13])
  }

  method ValidateCNPJ(cnpj: string) returns (ok: bool)
    ensures ok == IsValidCNPJ(cnpj)
  {
    if cnpj == "" {
      return false;
    }
    var clean := DigitsOnly(cnpj);
    if |clean| != 14 {
      return false;
    }
    if AllSame(clean) {
      return false;
    }
    var length := |clean| - 2;
    var numbers := clean[..length];
    var digits := clean[length..];
    var sum := 0;
    var pos := length - 7;
    ghost var w := CnpjWeights(5, 12);
    var i := length;
    while i >= 1
      invariant 0 <= i <= length
      invariant pos == PosAfter(5, length - i)
      invariant sum + SumFrom(numbers, w, length - i) == Dot(numbers, w)
    {
      sum := sum + DigitValue(numbers[length - i]) * pos;
      pos := pos - 1;
      if pos < 2 {
        pos := 9;
      }
      i := i - 1;
    }
    var result := if sum % 11 < 2 then 0 else 11 - sum % 11;
    if result != DigitValue(digits[0]) {
      return false;
    }
    length := length + 1;
    numbers := clean[..length];
    sum := 0;
    pos := length - 7;
    w := CnpjWeights(6, 13);
    i := length;
    while i >= 1
      invariant 0 <= i <= length
      invariant pos == PosAfter(6, length - i)
      invariant sum + SumFrom(numbers, w, length - i) == Dot(numbers, w)
    {
      sum := sum + DigitValue(numbers[length - i]) * pos;
      pos := pos - 1;
      if pos < 2 {
        pos := 9;
      }
      i := i - 1;
    }
    result := if sum % 11 < 2 then 0 else 11 - sum % 11;
    return result == DigitValue(digits[1]);
  }

  // ---------------------------------------------------------------------
  // RENAVAM
  // ---------------------------------------------------------------------

  /** The weight string of the (simplified) RENAVAM rule. */
  const RenavamSequence: string := "3298765432"

  /** The weights as numbers, read digit by digit from `RenavamSequence`. */
  function RenavamWeights(): (ws: seq<int>)
    ensures |ws| == 10
    ensures forall i :: 0 <= i < 10 ==> ws[i] == DigitValue(RenavamSequence[i])
  {
    seq(10, i requires 0 <= i < 10 => DigitValue(RenavamSequence[i]))
  }

  /** Remainder 0 or 1 gives check digit 0, otherwise `11 - remainder`. */
  function RenavamCheck(sum: int): (d: nat)
    ensures d <= 9
  {
    var r := sum % 11;
    if r == 0 || r == 1 then 0 else 11 - r
  }

  predicate IsValidRenavam(s: string) {
    var c := DigitsOnly(s);
    |c| == 11 && !AllSame(c) && DigitValue(c[10]) == RenavamCheck(Dot(c[..10], RenavamWeights()))
  }

  method ValidateRenavam(renavam: string) returns (ok: bool)
    ensures ok == IsValidRenavam(renavam)
  {
    if renavam == "" {
      return false;
    }
    var clean := DigitsOnly(renavam);
    if |clean| != 11 {
      return false;
    }
    if AllSame(clean) {
      return false;
    }
    var sequencia := RenavamSequence;
    ghost var w := RenavamWeights();
    ghost var d10 := clean[..10];
    var soma := 0;
    for i := 0 to 10
      invariant soma + SumFrom(d10, w, i) == Dot(d10, w)
    {
      soma := soma + DigitValue(clean[i]) * DigitValue(sequencia[i]);
    }
    var digito := soma % 11;
    var digitoVerificador := if digito == 0 || digito == 1 then 0 else 11 - digito;
    return DigitValue(clean[10]) == digitoVerificador;
  }

  /** Ten digits have exactly one RENAVAM check digit. */
  lemma RenavamCheckDigitUnique(c: string, x: char)
    requires IsValidRenavam(c) && AllDigits(c)
    requires IsDigit(x) && x != c[10]
    ensures !IsValidRenavam(c[10 := x])
  {
    DigitsOnlyOfDigits(c);
    DigitsOnlyOfDigits(c[10 := x]);
    assert c[10 := x][..10] == c[..10];
  }

  // ---------------------------------------------------------------------
  // Dates DD/MM/YYYY
  // ---------------------------------------------------------------------

  predicate IsLeap(y: int) {
    (y % 4 == 0 && y % 100 != 0) || y % 400 == 0
  }

  /** Days of month `m` (1..12) of year `y` in the Gregorian calendar. */
  function DaysInMonth(m: int, y: int): (n: int)
    requires 1 <= m <= 12
    ensures 28 <= n <= 31
  {
    if m == 2 then (if IsLeap(y) then 29 else 28)
    else if m == 4 || m == 6 || m == 9 || m == 11 then 30
    else 31
  }

  lemma DateShapeDigits(s: string)
    requires IsShape(s, DateShape)
    ensures AllDigits(s[..2]) && AllDigits(s[3..5]) && AllDigits(s[6..])
  {
    assert ClsMatch(DateShape[0], s[0]) && ClsMatch(DateShape[1], s[1]);
    assert ClsMatch(DateShape[3], s[3]) && ClsMatch(DateShape[4], s[4]);
    assert ClsMatch(DateShape[6], s[6]) && ClsMatch(DateShape[7], s[7]);
    assert ClsMatch(DateShape[8], s[8]) && ClsMatch(DateShape[9], s[9]);
  }

  /** Day, month and year of a string in the `DD/MM/YYYY` shape. */
  function DateFields(s: string): (r: (int, int, int))
    requires IsShape(s, DateShape)
    ensures 0 <= r.0 <= 99 && 0 <= r.1 <= 99 && 0 <= r.2 <= 9999
  {
    DateShapeDigits(s);
    DecimalBound(s[..2]);
    DecimalBound(s[3..5]);
    DecimalBound(s[6..]);
    (Decimal(s[..2]), Decimal(s[3..5]), Decimal(s[6..]))
  }

  /** `DD/MM/YYYY` with a month 1..12, a year 1900..2100 and a day that exists in
      that month of that year. */
  predicate IsValidDate(s: string) {
    IsShape(s, DateShape)
    && var (d, m, y) := DateFields(s);
    1 <= m <= 12 && 1 <= d <= 31 && 1900 <= y <= 2100 && d <= DaysInMonth(m, y)
  }

  method ValidateData(data: string) returns (ok: bool)
    ensures ok == IsValidDate(data)
  {
    if data == "" {
      return false;
    }
    if !IsShape(data, DateShape) {
      return false;
    }
    var (dia, mes, ano) := DateFields(data);
    if mes < 1 || mes > 12 {
      return false;
    }
    if dia < 1 || dia > 31 {
      return false;
    }
    if ano < 1900 || ano > 2100 {
      return false;
    }
    var diasPorMes := new int[] [31, 28, 31, 30, 31, 30, 31, 31, 30, 31, 30, 31];
    if (ano % 4 == 0 && ano % 100 != 0) || ano % 400 == 0 {
      diasPorMes[1] := 29;
    }
    return dia <= diasPorMes[mes - 1];
  }

  /** `n` written with exactly `k` digits, zero padded on the left. */
  function Pad(n: nat, k: nat): (r: string)
    ensures |r| == k && AllDigits(r)
  {
    if k == 0 then "" else Pad(n / 10, k - 1) + [DigitChar(n % 10)]
  }

  function Power10(k: nat): (p: nat)
    ensures p >= 1
  {
    if k == 0 then 1 else 10 * Power10(k - 1)
  }

  lemma {:induction false} DecimalBound(s: string)
    requires AllDigits(s)
    ensures Decimal(s) < Power10(|s|)
    decreases |s|
  {
    if s != [] {
      DecimalBound(s[..|s| - 1]);
    }
  }

  /** Reading back a padded number gives the number. */
  lemma {:induction false} DecimalPad(n: nat, k: nat)
    requires n < Power10(k)
    ensures Decimal(Pad(n, k)) == n
  {
    if k > 0 {
      assert n / 10 < Power10(k - 1);
      DecimalPad(n / 10, k - 1);
      var r := Pad(n, k);
      assert r[..|r| - 1] == Pad(n / 10, k - 1);
    }
  }

  /** The date string of a day, month and year. */
  function DateString(d: nat, m: nat, y: nat): (s: string)
    requires d <= 99 && m <= 99 && y <= 9999
    ensures IsShape(s, DateShape)
  {
    var s := Pad(d, 2) + "/" + Pad(m, 2) + "/" + Pad(y, 4);
    assert forall k :: 0 <= k < 10 ==> ClsMatch(DateShape[k], s[k]);
    s
  }

  /** `validateData` accepts the string of a day, month and year exactly when
      that date exists (within the years 1900..2100). */
  lemma DateStringValid(d: nat, m: nat, y: nat)
    requires d <= 99 && m <= 99 && y <= 9999
    ensures IsValidDate(DateString(d, m, y)) <==>
      (1 <= m <= 12 && 1900 <= y <= 2100 && 1 <= d <= DaysInMonth(m, y))
  {
    var s := DateString(d, m, y);
    assert s[..2] == Pad(d, 2);
    assert s[3..5] == Pad(m, 2);
    assert s[6..] == Pad(y, 4);
    DecimalPad(d, 2);
    DecimalPad(m, 2);
    DecimalPad(y, 4);
    assert DateFields(s) == (d, m, y);
  }

  /** The 29th of February is valid exactly in leap years. */
  lemma LeapDay(y: nat)
    requires 1900 <= y <= 2100
    ensures IsValidDate(DateString(29, 2, y)) <==> IsLeap(y)
  {
    DateStringValid(29, 2, y);
  }

  // ---------------------------------------------------------------------
  // Plates, CEP, telephone
  // ---------------------------------------------------------------------

  /** `replace(/[^A-Z0-9]/g, '').toUpperCase()`: lower-case letters are dropped
      before the upper-casing, which has nothing left to change. */
  function CleanPlaca(s: string): (r: string)
    ensures r == Filter(s, IsUpperOrDigit)
    ensures forall i :: 0 <= i < |r| ==> IsUpperOrDigit(r[i])
  {
    var f := Filter(s, IsUpperOrDigit);
    assert Upper(f) == f;
    Upper(f)
  }

  predicate IsValidPlaca(s: string) {
    IsPlateShape(CleanPlaca(s))
  }

  predicate IsValidCEP(s: string) {
    var c := DigitsOnly(s);
    |c| == 8 && AllDigits(c)
  }

  predicate IsValidTelefone(s: string) {
    var c := DigitsOnly(s);
    |c| == 10 || |c| == 11
  }

  /** A string that already has one of the two plate shapes is a valid plate. */
  lemma PlateShapeIsValid(c: string)
    requires IsPlateShape(c)
    ensures IsValidPlaca(c)
  {
    forall i | 0 <= i < |c|
      ensures IsUpperOrDigit(c[i])
    {
      if IsShape(c, LegacyPlateShape) {
        assert ClsMatch(LegacyPlateShape[i], c[i]);
      } else {
        assert ClsMatch(MercosulPlateShape[i], c[i]);
      }
    }
    CleanPlacaOfClean(c);
  }

  /** Lower-case letters are removed before upper-casing, so a plate typed in
      lower case (`abc1234`) is rejected. */
  lemma LowerCasePlateRejected(letters: string, digits: string)
    requires forall i :: 0 <= i < |letters| ==> 'a' <= letters[i] <= 'z'
    requires AllDigits(digits) && |digits| < 7
    ensures !IsValidPlaca(letters + digits)
  {
    FilterConcat(letters, digits, IsUpperOrDigit);
    FilterDropsAll(letters, IsUpperOrDigit);
    FilterKeepsAll(digits, IsUpperOrDigit);
  }

  // ---------------------------------------------------------------------
  // Formatting
  // ---------------------------------------------------------------------

  /** `formatCPF`: eleven digits become `xxx.xxx.xxx-xx`; anything else is returned as given. */
  function FormatCPF(cpf: string): (r: string)
  {
    var clean := DigitsOnly(cpf);
    if |clean| != 11 then cpf else CpfTemplate(clean)
  }

  /** Formatting keeps the digits, so it never changes whether a CPF is valid. */
  lemma FormatCPFDigits(cpf: string)
    ensures DigitsOnly(FormatCPF(cpf)) == DigitsOnly(cpf)
    ensures IsValidCPF(FormatCPF(cpf)) == IsValidCPF(cpf)
    ensures |DigitsOnly(cpf)| == 11 ==> IsShape(FormatCPF(cpf), DottedCpfShape)
  {
    var clean := DigitsOnly(cpf);
    if |clean| == 11 {
      CpfTemplateShape(clean);
    }
  }

  lemma FormatCPFIdempotent(cpf: string)
    ensures FormatCPF(FormatCPF(cpf)) == FormatCPF(cpf)
  {
    FormatCPFDigits(cpf);
  }

  /** `formatPlaca`: a seven-character plate starting with three letters gets a
      dash after them; the cleaned text is returned when it is seven characters
      without three leading letters; anything else is returned as given. */
  function FormatPlaca(placa: string): (r: string)
  {
    var clean := CleanPlaca(placa);
    if |clean| == 7 then
      if IsUpper(clean[0]) && IsUpper(clean[1]) && IsUpper(clean[2]) then clean[..3] + "-" + clean[3..]
      else clean
    else placa
  }

  lemma CleanPlacaOfClean(s: string)
    requires forall i :: 0 <= i < |s| ==> IsUpperOrDigit(s[i])
    ensures CleanPlaca(s) == s
  {
    FilterKeepsAll(s, IsUpperOrDigit);
  }

  /** The dash is dropped again by cleaning. */
  lemma CleanPlacaDashed(c: string)
    requires |c| == 7 && forall i :: 0 <= i < |c| ==> IsUpperOrDigit(c[i])
    ensures CleanPlaca(c[..3] + "-" + c[3..]) == c
  {
    FilterConcat(c[..3] + "-", c[3..], IsUpperOrDigit);
    FilterConcat(c[..3], "-", IsUpperOrDigit);
    FilterKeepsAll(c[..3], IsUpperOrDigit);
    FilterKeepsAll(c[3..], IsUpperOrDigit);
    assert Filter("-", IsUpperOrDigit) == "";
    assert c[..3] + c[3..] == c;
    CleanPlacaOfClean(c);
  }

  lemma PlateStartsWithLetters(c: string)
    requires IsPlateShape(c)
    ensures |c| == 7 && IsUpper(c[0]) && IsUpper(c[1]) && IsUpper(c[2])
  {
    if IsShape(c, LegacyPlateShape) {
      assert ClsMatch(LegacyPlateShape[0], c[0]) && ClsMatch(LegacyPlateShape[1], c[1]);
      assert ClsMatch(LegacyPlateShape[2], c[2]);
    } else {
      assert ClsMatch(MercosulPlateShape[0], c[0]) && ClsMatch(MercosulPlateShape[1], c[1]);
      assert ClsMatch(MercosulPlateShape[2], c[2]);
    }
  }

  /** A valid plate is formatted as `ABC-1234` / `ABC-1D23`, which is still valid. */
  lemma FormatPlacaValid(placa: string)
    requires IsValidPlaca(placa)
    ensures var c := CleanPlaca(placa); FormatPlaca(placa) == c[..3] + "-" + c[3..]
    ensures IsValidPlaca(FormatPlaca(placa))
  {
    var c := CleanPlaca(placa);
    PlateStartsWithLetters(c);
    CleanPlacaDashed(c);
  }

  lemma FormatPlacaIdempotent(placa: string)
    ensures FormatPlaca(FormatPlaca(placa)) == FormatPlaca(placa)
  {
    var c := CleanPlaca(placa);
    if |c| == 7 {
      if IsUpper(c[0]) && IsUpper(c[1]) && IsUpper(c[2]) {
        CleanPlacaDashed(c);
      } else {
        CleanPlacaOfClean(c);
      }
    }
  }

  // ---------------------------------------------------------------------
  // validateAndClean
  // ---------------------------------------------------------------------

  datatype Kind = Cpf | Placa | Renavam | Data | Cep | Telefone

  /** The `validators` table lookup by type name. */
  function KindOf(t: string): Option<Kind> {
    if t == "cpf" then Some(Cpf)
    else if t == "placa" then Some(Placa)
    else if t == "renavam" then Some(Renavam)
    else if t == "data" then Some(Data)
    else if t == "cep" then Some(Cep)
    else if t == "telefone" then Some(Telefone)
    else None
  }

  predicate IsValid(k: Kind, s: string) {
    match k
    case Cpf => IsValidCPF(s)
    case Placa => IsValidPlaca(s)
    case Renavam => IsValidRenavam(s)
    case Data => IsValidDate(s)
    case Cep => IsValidCEP(s)
    case Telefone => IsValidTelefone(s)
  }

  function Format(k: Kind, s: string): string {
    match k
    case Cpf => FormatCPF(s)
    case Placa => FormatPlaca(s)
    case _ => s
  }

  datatype Cleaned = Cleaned(isValid: bool, cleaned: string, formatted: string)

  function ValidateAndClean(value: string, t: string): (r: Cleaned)
    ensures value == "" ==> r == Cleaned(false, "", "")
    ensures value != "" && KindOf(t).None? ==> r == Cleaned(false, value, value)
    ensures value != "" && KindOf(t).Some? ==>
      r.cleaned == NormalizeSpaces(value) && r.isValid == IsValid(KindOf(t).value, r.cleaned)
    ensures value != "" && KindOf(t).Some? ==>
      r.formatted == (if r.isValid then Format(KindOf(t).value, r.cleaned) else r.cleaned)
  {
    if value == "" then Cleaned(false, "", "")
    else match KindOf(t)
      case None => Cleaned(false, value, value)
      case Some(k) =>
        var cleaned := NormalizeSpaces(value);
        var isValid := IsValid(k, cleaned);
        Cleaned(isValid, cleaned, if isValid then Format(k, cleaned) else cleaned)
  }

  /** Formatting a valid value keeps it valid, of whatever kind. */
  lemma ValidateAndCleanFormattedValid(value: string, t: string)
    requires ValidateAndClean(value, t).isValid
    ensures IsValid(KindOf(t).value, ValidateAndClean(value, t).formatted)
  {
    var r := ValidateAndClean(value, t);
    match KindOf(t).value
    case Cpf => FormatCPFDigits(r.cleaned);
    case Placa => FormatPlacaValid(r.cleaned);
    case _ =>
  }

  /** A valid CPF comes back as `xxx.xxx.xxx-xx`. */
  lemma ValidateAndCleanCpfShape(value: string)
    requires ValidateAndClean(value, "cpf").isValid
    ensures IsShape(ValidateAndClean(value, "cpf").formatted, DottedCpfShape)
  {
    FormatCPFDigits(ValidateAndClean(value, "cpf").cleaned);
  }
}
