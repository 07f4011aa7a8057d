/** The validation layer wrapped around an extractor (validationWrapper.js):
    every update of the wrapped extractor is forwarded unchanged, and for an
    OCR result the CPF, plate, RENAVAM and birth-date fields are then checked
    against the validators and, where needed, replaced by the values of the
    universal pattern pass. */
module ValidationWrapper {
  import opened Text
  import opened Patterns
  import opened OcrModel
  import opened BrazilianValidators
  import opened AdvancedExtraction
  import DataExtraction

  // ---------------------------------------------------------------------
  // The record kept by the wrapped updateField
  // ---------------------------------------------------------------------

  /** `extractedData` once the wrapped `updateField` has seen the calls `u`. */
  function Recorded(u: seq<Update>): (d: map<string, Value>)
    ensures forall f :: f in d ==> exists k :: 0 <= k < |u| && u[k].field == f
  {
    if u == [] then map[]
    else Recorded(u[..|u| - 1])[u[|u| - 1].field := u[|u| - 1].value]
  }

  /** Each field of the record holds the value of its last update. */
  lemma {:induction false} RecordedIsLast(u: seq<Update>, f: string)
    ensures f in Recorded(u) <==> LastValue(u, f).Some?
    ensures f in Recorded(u) ==> Recorded(u)[f] == LastValue(u, f).value
  {
    if u != [] {
      RecordedIsLast(u[..|u| - 1], f);
    }
  }

  /** The string under `f`; a missing field reads as the falsy `""`. A
      checkbox value is read as absent too (no extractor writes one under the
      keys read here). */
  function TextOf(d: map<string, Value>, f: string): string {
    if f in d && d[f].Str? then d[f].s else ""
  }

  // ---------------------------------------------------------------------
  // enhanceExtractedData
  // ---------------------------------------------------------------------

  /** The calls the CPF block makes. */
  function CpfStep(cpf: string, u: map<Key, Extraction>): seq<Update> {
    if cpf != "" then
      if !IsValidCPF(cpf) then
        if CpfKey in u && IsValidCPF(u[CpfKey].value) then [Update("cpf", Str(FormatCPF(u[CpfKey].value)))] else []
      else if '.' !in cpf then [Update("cpf", Str(FormatCPF(cpf)))]
      else []
    else if CpfKey in u then [Update("cpf", Str(FormatCPF(u[CpfKey].value)))]
    else []
  }

  /** The calls the plate block makes: a valid plate is always re-emitted formatted. */
  function PlacaStep(placa: string, u: map<Key, Extraction>): seq<Update> {
    if placa != "" then
      if !IsValidPlaca(placa) then
        if PlacaKey in u && IsValidPlaca(u[PlacaKey].value) then [Update("placa", Str(FormatPlaca(u[PlacaKey].value)))] else []
      else [Update("placa", Str(FormatPlaca(placa)))]
    else if PlacaKey in u then [Update("placa", Str(FormatPlaca(u[PlacaKey].value)))]
    else []
  }

  /** The calls the RENAVAM block makes; values are emitted as found. */
  function RenavamStep(renavam: string, u: map<Key, Extraction>): seq<Update> {
    if renavam != "" then
      if !IsValidRenavam(renavam) then
        if RenavamKey in u && IsValidRenavam(u[RenavamKey].value) then [Update("renavam", Str(u[RenavamKey].value))] else []
      else []
    else if RenavamKey in u then [Update("renavam", Str(u[RenavamKey].value))]
    else []
  }

  /** The calls the birth-date block makes; values are emitted as found. */
  function DataStep(data: string, u: map<Key, Extraction>): seq<Update> {
    if data != "" then
      if !IsValidDate(data) then
        if DataKey in u && IsValidDate(u[DataKey].value) then [Update("dataNascimento", Str(u[DataKey].value))] else []
      else []
    else if DataKey in u then [Update("dataNascimento", Str(u[DataKey].value))]
    else []
  }

  /** The updates `enhanceExtractedData` makes, block after block. */
  function Enhance(r: OcrResult, d: map<string, Value>): seq<Update> {
    var u := UniversalPatterns(r);
    CpfStep(TextOf(d, "cpf"), u) + PlacaStep(TextOf(d, "placa"), u)
      + RenavamStep(TextOf(d, "renavam"), u) + DataStep(TextOf(d, "dataNascimento"), u)
  }

  /** Every CPF the enhancement writes is valid and dotted; a valid extracted
      CPF keeps its digits, and a valid dotted one is left alone; without an
      extracted CPF, the universal one is written exactly when there is one. */
  lemma CpfStepWrites(cpf: string, r: OcrResult)
    ensures forall k :: 0 <= k < |CpfStep(cpf, UniversalPatterns(r))| ==>
      CpfUpdateOk(CpfStep(cpf, UniversalPatterns(r))[k])
    ensures |CpfStep(cpf, UniversalPatterns(r))| <= 1
    ensures IsValidCPF(cpf) ==> forall k :: 0 <= k < |CpfStep(cpf, UniversalPatterns(r))| ==>
      DigitsOnly(CpfStep(cpf, UniversalPatterns(r))[k].value.s) == DigitsOnly(cpf)
    ensures IsValidCPF(cpf) && '.' in cpf ==> CpfStep(cpf, UniversalPatterns(r)) == []
    ensures cpf == "" ==> (CpfStep(cpf, UniversalPatterns(r)) != [] <==> CpfKey in UniversalPatterns(r))
  {
    if CpfKey in UniversalPatterns(r) {
      UniversalCpfDotted(r);
    }
    CpfStepOver(cpf, UniversalPatterns(r));
  }

  /** `CpfStepWrites` for any candidate map whose CPF entry is valid and dotted. */
  lemma CpfStepOver(cpf: string, u: map<Key, Extraction>)
    requires CpfKey in u ==> IsValidCPF(u[CpfKey].value) && IsShape(u[CpfKey].value, DottedCpfShape)
    ensures forall k :: 0 <= k < |CpfStep(cpf, u)| ==> CpfUpdateOk(CpfStep(cpf, u)[k])
    ensures |CpfStep(cpf, u)| <= 1
    ensures IsValidCPF(cpf) ==> forall k :: 0 <= k < |CpfStep(cpf, u)| ==>
      DigitsOnly(CpfStep(cpf, u)[k].value.s) == DigitsOnly(cpf)
    ensures IsValidCPF(cpf) && '.' in cpf ==> CpfStep(cpf, u) == []
    ensures cpf == "" ==> (CpfStep(cpf, u) != [] <==> CpfKey in u)
  {
    if CpfKey in u {
      FormatCPFDigits(u[CpfKey].value);
    }
    if cpf != "" {
      FormatCPFDigits(cpf);
    }
  }

  /** An update of `cpf` with a valid CPF in `xxx.xxx.xxx-xx` form. */
  predicate CpfUpdateOk(x: Update) {
    x.field == "cpf" && x.value.Str? && IsValidCPF(x.value.s) && IsShape(x.value.s, DottedCpfShape)
  }

  /** Every plate the enhancement writes is valid; a valid extracted plate is
      always re-emitted in formatted form. */
  lemma PlacaStepWrites(placa: string, r: OcrResult)
    ensures forall k :: 0 <= k < |PlacaStep(placa, UniversalPatterns(r))| ==>
      PlacaUpdateOk(PlacaStep(placa, UniversalPatterns(r))[k])
    ensures |PlacaStep(placa, UniversalPatterns(r))| <= 1
    ensures IsValidPlaca(placa) ==> PlacaStep(placa, UniversalPatterns(r)) == [Update("placa", Str(FormatPlaca(placa)))]
  {
    var u := UniversalPatterns(r);
    if PlacaKey in u {
      UniversalValuePasses(r, PlacaKey);
      FormatPlacaValid(u[PlacaKey].value);
    }
    if IsValidPlaca(placa) {
      FormatPlacaValid(placa);
    }
  }

  predicate PlacaUpdateOk(x: Update) {
    x.field == "placa" && x.value.Str? && IsValidPlaca(x.value.s)
  }

  /** Every RENAVAM the enhancement writes is valid, and a valid extracted one is never replaced. */
  lemma RenavamStepWrites(renavam: string, r: OcrResult)
    ensures forall k :: 0 <= k < |RenavamStep(renavam, UniversalPatterns(r))| ==>
      RenavamUpdateOk(RenavamStep(renavam, UniversalPatterns(r))[k])
    ensures |RenavamStep(renavam, UniversalPatterns(r))| <= 1
    ensures IsValidRenavam(renavam) ==> RenavamStep(renavam, UniversalPatterns(r)) == []
  {
    if RenavamKey in UniversalPatterns(r) {
      UniversalValuePasses(r, RenavamKey);
    }
  }

  predicate RenavamUpdateOk(x: Update) {
    x.field == "renavam" && x.value.Str? && IsValidRenavam(x.value.s)
  }

  /** Every birth date the enhancement writes is a valid calendar date, and a valid extracted one is never replaced. */
  lemma DataStepWrites(data: string, r: OcrResult)
    ensures forall k :: 0 <= k < |DataStep(data, UniversalPatterns(r))| ==>
      DataUpdateOk(DataStep(data, UniversalPatterns(r))[k])
    ensures |DataStep(data, UniversalPatterns(r))| <= 1
    ensures IsValidDate(data) ==> DataStep(data, UniversalPatterns(r)) == []
  {
    if DataKey in UniversalPatterns(r) {
      UniversalValuePasses(r, DataKey);
    }
  }

  predicate DataUpdateOk(x: Update) {
    x.field == "dataNascimento" && x.value.Str? && IsValidDate(x.value.s)
  }

  // ---------------------------------------------------------------------
  // withValidation
  // ---------------------------------------------------------------------

  /** What the wrapped extractor does: the calls it makes on the real
      `updateField`, and whether it then throws. */
  datatype Outcome = Outcome(calls: seq<Update>, threw: bool)

  /** The wrapped extractor: the original extractor's calls `orig`, unchanged
      and in order, then, for an object with `ParsedResults`, the enhancement
      over the recorded values. `typeof null` is `'object'`, so for `null` the
      test reads `null.ParsedResults` and throws a `TypeError` after the
      original calls went out. */
  function WithValidation(input: Input, orig: seq<Update>): (r: Outcome)
    ensures |orig| <= |r.calls| && r.calls[..|orig|] == orig
    ensures r.threw <==> input.Null?
    ensures !input.Ocr? ==> r.calls == orig
    ensures input.Ocr? ==> r.calls[|orig|..] == Enhance(input.result, Recorded(orig))
  {
    Outcome(orig + (if input.Ocr? then Enhance(input.result, Recorded(orig)) else []), input.Null?)
  }

  /** The calls of a run of dataExtraction.js: nothing, or the six data
      fields in order, the CPF as text, then the two vehicle flags. */
  predicate RunFields(u: seq<Update>) {
    u == [] || (|u| == 8 && u[0].field == "abordado" && u[1].field == "naturalidade"
      && u[2].field == "genitora" && u[3].field == "cpf" && u[3].value.Str? && u[4].field == "dn"
      && u[5].field == "veiculoPlaca" && u[6].field == "veiculoCheck" && u[7].field == "naoAplicaVeiculo")
  }

  /** dataExtraction.js writes its calls in that shape. */
  lemma FillFieldsRunFields(input: Input)
    ensures RunFields(DataExtraction.FillFields(input))
  {
    DataExtraction.FillFieldsShape(input);
    RunShapeFields(DataExtraction.FillFields(input));
  }

  lemma RunShapeFields(u: seq<Update>)
    requires u == [] || (|u| == 8 && (forall k :: 0 <= k < 6 ==> u[k].field == DataFields[k] && u[k].value.Str?)
      && u[6].field == "veiculoCheck" && u[7].field == "naoAplicaVeiculo")
    ensures RunFields(u)
  {
    if u != [] {
      assert u[0].field == DataFields[0] && u[1].field == DataFields[1] && u[2].field == DataFields[2];
      assert u[3].field == DataFields[3] && u[3].value.Str? && u[4].field == DataFields[4] && u[5].field == DataFields[5];
    }
  }

  /** Over calls shaped like a run of dataExtraction.js, which writes
      `veiculoPlaca` and `dn` and never `placa`, `renavam` or
      `dataNascimento`, those three read as absent and `cpf` reads as the
      extracted CPF. */
  lemma OnlyUniversalFallback(u: seq<Update>)
    requires RunFields(u)
    ensures TextOf(Recorded(u), "placa") == "" && TextOf(Recorded(u), "renavam") == ""
    ensures TextOf(Recorded(u), "dataNascimento") == ""
    ensures u != [] ==> TextOf(Recorded(u), "cpf") == u[3].value.s
  {
    if u != [] {
      forall k | 0 <= k < |u|
        ensures u[k].field != "placa" && u[k].field != "renavam" && u[k].field != "dataNascimento"
        ensures k != 3 ==> u[k].field != "cpf"
      {
      }
      RecordedIsLast(u, "cpf");
    }
  }

  /** The enhancement over the calls of dataExtraction.js: only the
      "universal fallback" branches of the plate, RENAVAM and date blocks can
      fire, so each writes the universal value exactly when the universal
      pass found one. */
  lemma EnhanceAfterDataExtraction(input: Input)
    requires input.Ocr?
    ensures var u := UniversalPatterns(input.result);
      var d := Recorded(DataExtraction.FillFields(input));
      Enhance(input.result, d)
        == CpfStep(TextOf(d, "cpf"), u)
        + (if PlacaKey in u then [Update("placa", Str(FormatPlaca(u[PlacaKey].value)))] else [])
        + (if RenavamKey in u then [Update("renavam", Str(u[RenavamKey].value))] else [])
        + (if DataKey in u then [Update("dataNascimento", Str(u[DataKey].value))] else [])
  {
    FillFieldsRunFields(input);
    OnlyUniversalFallback(DataExtraction.FillFields(input));
  }

  // ---------------------------------------------------------------------
  // The imperative wrapper
  // ---------------------------------------------------------------------

  /** The wrapped `updateField` over the original extractor's calls: record
      each value and forward the call. */
  method RecordAndForward(orig: seq<Update>) returns (extractedData: map<string, Value>, calls: seq<Update>)
    ensures extractedData == Recorded(orig)
    ensures calls == orig
  {
    extractedData := map[];
    calls := [];
    for i := 0 to |orig|
      invariant extractedData == Recorded(orig[..i])
      invariant calls == orig[..i]
    {
      assert orig[..i + 1][..i] == orig[..i];
      extractedData := extractedData[orig[i].field := orig[i].value];
      calls := calls + [orig[i]];
    }
    assert orig[..|orig|] == orig;
  }

  method EnhanceCpf(cpf: string, u: map<Key, Extraction>) returns (calls: seq<Update>)
    ensures calls == CpfStep(cpf, u)
  {
    calls := [];
    if cpf != "" {
      var cpfValidation := ValidateCPF(cpf);
      if !cpfValidation {
        if CpfKey in u {
          var universalOk := ValidateCPF(u[CpfKey].value);
          if universalOk {
            calls := [Update("cpf", Str(FormatCPF(u[CpfKey].value)))];
          }
        }
      } else if '.' !in cpf {
        calls := [Update("cpf", Str(FormatCPF(cpf)))];
      }
    } else if CpfKey in u {
      calls := [Update("cpf", Str(FormatCPF(u[CpfKey].value)))];
    }
  }

  method EnhancePlaca(placa: string, u: map<Key, Extraction>) returns (calls: seq<Update>)
    ensures calls == PlacaStep(placa, u)
  {
    calls := [];
    if placa != "" {
      if !IsValidPlaca(placa) {
        if PlacaKey in u && IsValidPlaca(u[PlacaKey].value) {
          calls := [Update("placa", Str(FormatPlaca(u[PlacaKey].value)))];
        }
      } else {
        calls := [Update("placa", Str(FormatPlaca(placa)))];
      }
    } else if PlacaKey in u {
      calls := [Update("placa", Str(FormatPlaca(u[PlacaKey].value)))];
    }
  }

  method EnhanceRenavam(renavam: string, u: map<Key, Extraction>) returns (calls: seq<Update>)
    ensures calls == RenavamStep(renavam, u)
  {
    calls := [];
    if renavam != "" {
      var renavamValidation := ValidateRenavam(renavam);
      if !renavamValidation && RenavamKey in u {
        var universalOk := ValidateRenavam(u[RenavamKey].value);
        if universalOk {
          calls := [Update("renavam", Str(u[RenavamKey].value))];
        }
      }
    } else if RenavamKey in u {
      calls := [Update("renavam", Str(u[RenavamKey].value))];
    }
  }

  method EnhanceData(data: string, u: map<Key, Extraction>) returns (calls: seq<Update>)
    ensures calls == DataStep(data, u)
  {
    calls := [];
    if data != "" {
      var dataValidation := ValidateData(data);
      if !dataValidation && DataKey in u {
        var universalOk := ValidateData(u[DataKey].value);
        if universalOk {
          calls := [Update("dataNascimento", Str(u[DataKey].value))];
        }
      }
    } else if DataKey in u {
      calls := [Update("dataNascimento", Str(u[DataKey].value))];
    }
  }

  /** `enhanceExtractedData`: the four blocks in order. */
  method EnhanceExtractedData(ocrResult: OcrResult, extractedData: map<string, Value>) returns (calls: seq<Update>)
    ensures calls == Enhance(ocrResult, extractedData)
  {
    var universalData := ExtractUniversalPatterns(ocrResult);
    var cpfCalls := EnhanceCpf(TextOf(extractedData, "cpf"), universalData);
    var placaCalls := EnhancePlaca(TextOf(extractedData, "placa"), universalData);
    var renavamCalls := EnhanceRenavam(TextOf(extractedData, "renavam"), universalData);
    var dataCalls := EnhanceData(TextOf(extractedData, "dataNascimento"), universalData);
    calls := cpfCalls + placaCalls + renavamCalls + dataCalls;
  }

  /** The function `withValidation` returns, applied to an input whose
      original extraction made the calls `orig`. */
  method RunWithValidation(input: Input, orig: seq<Update>) returns (calls: seq<Update>, threw: bool)
    ensures Outcome(calls, threw) == WithValidation(input, orig)
  {
    var extractedData;
    extractedData, calls := RecordAndForward(orig);
    threw := false;
    if input.Null? {
      threw := true;
      return;
    }
    if input.Ocr? {
      var more := EnhanceExtractedData(input.result, extractedData);
      calls := calls + more;
    }
  }

  // ---------------------------------------------------------------------
  // validateExtractedFields
  // ---------------------------------------------------------------------

  /** One entry of `results`: `{valid, formatted}` or `{valid, value}`. */
  datatype FieldCheck = Formatted(valid: bool, formatted: string) | Kept(valid: bool, value: string)

  const CheckedFields: seq<string> := ["cpf", "placa", "renavam", "dataNascimento"]

  /** The object `validateExtractedFields` returns: the four blocks in order. */
  function FieldChecks(fields: map<string, Value>): (results: map<string, FieldCheck>)
  {
    var r1 := CheckCpf(map[], TextOf(fields, "cpf"));
    var r2 := CheckPlaca(r1, TextOf(fields, "placa"));
    var r3 := CheckRenavam(r2, TextOf(fields, "renavam"));
    CheckData(r3, TextOf(fields, "dataNascimento"))
  }

  function CheckCpf(results: map<string, FieldCheck>, cpf: string): map<string, FieldCheck> {
    if cpf != "" then results["cpf" := Formatted(IsValidCPF(cpf), FormatCPF(cpf))] else results
  }

  function CheckPlaca(results: map<string, FieldCheck>, placa: string): map<string, FieldCheck> {
    if placa != "" then results["placa" := Formatted(IsValidPlaca(placa), FormatPlaca(placa))] else results
  }

  function CheckRenavam(results: map<string, FieldCheck>, renavam: string): map<string, FieldCheck> {
    if renavam != "" then results["renavam" := Kept(IsValidRenavam(renavam), renavam)] else results
  }

  function CheckData(results: map<string, FieldCheck>, data: string): map<string, FieldCheck> {
    if data != "" then results["dataNascimento" := Kept(IsValidDate(data), data)] else results
  }

  /** `results` has a key exactly for each of the four fields that is present and non-empty. */
  lemma FieldChecksKeys(fields: map<string, Value>)
    ensures forall f :: f in FieldChecks(fields) <==> f in CheckedFields && TextOf(fields, f) != ""
  {
  }

  /** A CPF entry marked valid carries its dotted form, which is still valid. */
  lemma FieldChecksCpf(fields: map<string, Value>)
    ensures "cpf" in FieldChecks(fields) && FieldChecks(fields)["cpf"].valid ==>
      IsValidCPF(FieldChecks(fields)["cpf"].formatted) && IsShape(FieldChecks(fields)["cpf"].formatted, DottedCpfShape)
  {
    var cpf := TextOf(fields, "cpf");
    assert "cpf" in FieldChecks(fields) ==> FieldChecks(fields)["cpf"] == Formatted(IsValidCPF(cpf), FormatCPF(cpf));
    FormatCPFDigits(cpf);
  }

  /** A plate entry marked valid carries a formatted plate that is still valid. */
  lemma FieldChecksPlaca(fields: map<string, Value>)
    ensures "placa" in FieldChecks(fields) && FieldChecks(fields)["placa"].valid ==> IsValidPlaca(FieldChecks(fields)["placa"].formatted)
  {
    var placa := TextOf(fields, "placa");
    assert "placa" in FieldChecks(fields) ==> FieldChecks(fields)["placa"] == Formatted(IsValidPlaca(placa), FormatPlaca(placa));
    if IsValidPlaca(placa) {
      FormatPlacaValid(placa);
    }
  }

  /** The RENAVAM and date entries carry the input unchanged with its verdict. */
  lemma FieldChecksKept(fields: map<string, Value>)
    ensures "renavam" in FieldChecks(fields) ==> FieldChecks(fields)["renavam"] == Kept(IsValidRenavam(TextOf(fields, "renavam")), TextOf(fields, "renavam"))
    ensures "dataNascimento" in FieldChecks(fields) ==> FieldChecks(fields)["dataNascimento"] == Kept(IsValidDate(TextOf(fields, "dataNascimento")), TextOf(fields, "dataNascimento"))
  {
  }

  /** `validateExtractedFields`: `results` is filled key by key. */
  method ValidateExtractedFields(fields: map<string, Value>) returns (results: map<string, FieldCheck>)
    ensures results == FieldChecks(fields)
  {
    results := map[];
    results := AddCpfCheck(results, TextOf(fields, "cpf"));
    results := AddPlacaCheck(results, TextOf(fields, "placa"));
    results := AddRenavamCheck(results, TextOf(fields, "renavam"));
    results := AddDataCheck(results, TextOf(fields, "dataNascimento"));
  }

  method AddCpfCheck(results: map<string, FieldCheck>, cpf: string) returns (results': map<string, FieldCheck>)
    ensures results' == CheckCpf(results, cpf)
  {
    results' := results;
    if cpf != "" {
      var valid := ValidateCPF(cpf);
      results' := results["cpf" := Formatted(valid, FormatCPF(cpf))];
    }
  }

  method AddPlacaCheck(results: map<string, FieldCheck>, placa: string) returns (results': map<string, FieldCheck>)
    ensures results' == CheckPlaca(results, placa)
  {
    results' := results;
    if placa != "" {
      results' := results["placa" := Formatted(IsValidPlaca(placa), FormatPlaca(placa))];
    }
  }

  method AddRenavamCheck(results: map<string, FieldCheck>, renavam: string) returns (results': map<string, FieldCheck>)
    ensures results' == CheckRenavam(results, renavam)
  {
    results' := results;
    if renavam != "" {
      var valid := ValidateRenavam(renavam);
      results' := results["renavam" := Kept(valid, renavam)];
    }
  }

  method AddDataCheck(results: map<string, FieldCheck>, data: string) returns (results': map<string, FieldCheck>)
    ensures results' == CheckData(results, data)
  {
    results' := results;
    if data != "" {
      var valid := ValidateData(data);
      results' := results["dataNascimento" := Kept(valid, data)];
    }
  }
}
