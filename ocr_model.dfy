/** The OCR.space result shape the extractors read, and the updateField calls
    they make. An extractor's effect on the form is the sequence of
    `(field, value)` pairs it hands to `updateField`, in order. */
module OcrModel {
  import opened Text

  /** One recognised word with its box (only the synthetic converter fills these). */
  datatype Word = Word(wordText: string, left: int, top: int, height: int, width: int)

  /** One `TextOverlay.Lines` entry: its text, words, height and top coordinate. */
  datatype Line = Line(lineText: string, words: seq<Word>, maxHeight: int, minTop: int)

  /** `ParsedResults[k]`: the overlay lines (empty when there is no overlay) and
      the plain `ParsedText` (empty when absent). */
  datatype ParsedResult = ParsedResult(lines: seq<Line>, parsedText: string)

  /** An object carrying a `ParsedResults` array. */
  datatype OcrResult = OcrResult(parsedResults: seq<ParsedResult>)

  /** What the extractors accept: `undefined`, `null`, pasted text, or an OCR
      result object. */
  datatype Input = Undefined | Null | Pasted(text: string) | Ocr(result: OcrResult)

  /** A form value: text or a checkbox. */
  datatype Value = Str(s: string) | Flag(b: bool)

  /** One `updateField(field, value)` call. */
  datatype Update = Update(field: string, value: Value)

  /** The six data fields every complete extraction run writes, in order. */
  const DataFields: seq<string> := ["abordado", "naturalidade", "genitora", "cpf", "dn", "veiculoPlaca"]

  /** The six text updates of a run, in the order both extractors issue them. */
  function FieldUpdates(nome: string, naturalidade: string, genitora: string, cpf: string, dn: string, placa: string): (u: seq<Update>)
    ensures |u| == 6
    ensures forall k :: 0 <= k < 6 ==> u[k].field == DataFields[k] && u[k].value.Str?
  {
    [Update("abordado", Str(nome)), Update("naturalidade", Str(naturalidade)),
     Update("genitora", Str(genitora)), Update("cpf", Str(cpf)), Update("dn", Str(dn)),
     Update("veiculoPlaca", Str(placa))]
  }

  /** The two vehicle checkboxes, always complementary. */
  function VehicleFlags(hasPlate: bool): (u: seq<Update>)
    ensures |u| == 2 && u[0].field == "veiculoCheck" && u[1].field == "naoAplicaVeiculo"
    ensures u[0].value == Flag(hasPlate) && u[1].value == Flag(!hasPlate)
  {
    [Update("veiculoCheck", Flag(hasPlate)), Update("naoAplicaVeiculo", Flag(!hasPlate))]
  }

  /** The value of the last update of `field` in `u`, if there is one. */
  function LastValue(u: seq<Update>, field: string): (r: Option<Value>)
    ensures r.None? <==> forall k :: 0 <= k < |u| ==> u[k].field != field
    ensures r.Some? ==>
      exists k :: 0 <= k < |u| && u[k].field == field && u[k].value == r.value &&
        forall j :: k < j < |u| ==> u[j].field != field
  {
    if u == [] then None
    else if u[|u| - 1].field == field then Some(u[|u| - 1].value)
    else LastValue(u[..|u| - 1], field)
  }
}
