/** The report of ActionsSection.jsx: the approach record rendered as the
    text that is copied to the clipboard or shared, one labelled line per
    field, an observations block for the ankle monitor and the vehicle, and
    the whole trimmed. */
module ActionsReport {
  import opened Text
  import opened OcrModel
  import opened FormState

  const Banner: string := "\U{1F6A8} *ABORDAGEM POLICIAL* \U{1F6A8}"
  const NotInformed: string := "N\U{00E3}o informado"
  const NotApplicable: string := "N\U{00E3}o se aplica"

  /** A value as a template literal prints it. */
  function Render(v: Value): string {
    match v
    case Str(s) => s
    case Flag(b) => if b then "true" else "false"
  }

  /** `data.field || "Não informado"`. */
  function Display(d: map<string, Value>, field: string): (r: string)
    ensures Truthy(d, field) ==> r == Render(d[field])
    ensures !Truthy(d, field) ==> r == NotInformed
  {
    if Truthy(d, field) then Render(d[field]) else NotInformed
  }

  /** `apelidoFinal`: "Não se aplica" when the not-applicable box is set,
      else the nickname, else "Não informado". */
  function ApelidoFinal(d: map<string, Value>): (r: string)
    ensures Truthy(d, "naoAplicaApelido") ==> r == NotApplicable
    ensures !Truthy(d, "naoAplicaApelido") ==> r == Display(d, "apelido")
  {
    if Truthy(d, "naoAplicaApelido") then NotApplicable else Display(d, "apelido")
  }

  /** The lines of the report, as the template literals write them. */
  function ReportLines(d: map<string, Value>): seq<string> {
    [Banner, ""] + FieldLines(d) + ["*OBSERVA\U{00C7}\U{00D5}ES:*", TornozeleiraLine(d)] + VehicleLines(d)
  }

  /** The ten labelled lines between the banner and the observations. */
  function FieldLines(d: map<string, Value>): seq<string> {
    [ "*Abordado:* " + Display(d, "abordado"),
      "*Naturalidade:* " + Display(d, "naturalidade"),
      "*Genitora:* " + Display(d, "genitora"),
      "*Apelido:* " + ApelidoFinal(d),
      "*CPF:* " + Display(d, "cpf"),
      "*Data Nasc.:* " + Display(d, "dn"),
      "*Endere\U{00E7}o:* " + Display(d, "endereco"),
      "*Antecedentes:* " + Display(d, "antecedentes"),
      "*Local da Abordagem:* " + Display(d, "local"),
      "*Equipe:* " + Display(d, "equipe") ]
  }

  function TornozeleiraLine(d: map<string, Value>): string {
    if Truthy(d, "tornozeleiraCheck")
    then "- Tornozeleira: Sim. *N\U{00FA}mero:* " + Display(d, "tornozeleiraNumero")
    else "- Tornozeleira: N\U{00E3}o se aplica."
  }

  function VehicleLines(d: map<string, Value>): seq<string> {
    if Truthy(d, "veiculoCheck")
    then [ "- Ve\U{00ED}culo: Sim.",
           "  *Placa:* " + Display(d, "veiculoPlaca"),
           "  *Cor:* " + Display(d, "veiculoCor"),
           "  *Modelo:* " + Display(d, "veiculoModelo") ]
    else [ "- Ve\U{00ED}culo: N\U{00E3}o se aplica." ]
  }

  /** Every line followed by its `\n`. */
  function Terminated(ls: seq<string>): string {
    if ls == [] then "" else ls[0] + "\n" + Terminated(ls[1..])
  }

  /** The report before `trim`. */
  function Raw(d: map<string, Value>): string {
    Terminated(ReportLines(d))
  }

  /** `generateText`. */
  function GenerateText(d: map<string, Value>): (r: string)
    ensures IsTrimmed(r)
  {
    TrimmedOf(Raw(d))
  }

  function TrimmedOf(s: string): (r: string)
    ensures r == Trim(s) && IsTrimmed(r)
  {
    Trim(s)
  }

  // ---------------------------------------------------------------------
  // The report read back
  // ---------------------------------------------------------------------

  /** The ten labelled fields, in the order the report lists them. */
  const FieldLabels: seq<string> := [
    "*Abordado:* ", "*Naturalidade:* ", "*Genitora:* ", "*Apelido:* ", "*CPF:* ",
    "*Data Nasc.:* ", "*Endere\U{00E7}o:* ", "*Antecedentes:* ", "*Local da Abordagem:* ", "*Equipe:* "
  ]
  const FieldKeys: seq<string> := [
    "abordado", "naturalidade", "genitora", "apelido", "cpf", "dn", "endereco", "antecedentes", "local", "equipe"
  ]

  /** What the report shows for the i-th labelled field. */
  function Shown(d: map<string, Value>, i: nat): string
    requires i < |FieldKeys|
  {
    if i == 3 then ApelidoFinal(d) else Display(d, FieldKeys[i])
  }

  /** The i-th labelled line is the i-th label followed by the field's value
      (or "Não informado"), for every field in the fixed order. */
  lemma FieldLinesInOrder(d: map<string, Value>)
    ensures |FieldLines(d)| == |FieldKeys|
    ensures forall i :: 0 <= i < |FieldKeys| ==> ReportLines(d)[2 + i] == FieldLines(d)[i]
    ensures forall i :: 0 <= i < |FieldKeys| ==> FieldLines(d)[i] == FieldLabels[i] + Shown(d, i)
  {
    FirstFieldLines(d);
    LastFieldLines(d);
  }

  lemma FirstFieldLines(d: map<string, Value>)
    ensures forall i :: 0 <= i < 5 ==> FieldLines(d)[i] == FieldLabels[i] + Shown(d, i)
  {
  }

  lemma LastFieldLines(d: map<string, Value>)
    ensures forall i :: 5 <= i < 10 ==> FieldLines(d)[i] == FieldLabels[i] + Shown(d, i)
  {
  }

  /** No value in the record holds a line break. */
  predicate NoLineBreaks(d: map<string, Value>) {
    forall f :: f in d ==> '\n' !in Render(d[f])
  }

  lemma DisplayNoBreak(d: map<string, Value>, field: string)
    requires NoLineBreaks(d)
    ensures '\n' !in Display(d, field)
  {
  }

  lemma LabelsNoBreak()
    ensures forall i :: 0 <= i < |FieldLabels| ==> '\n' !in FieldLabels[i]
  {
    FirstLabelsNoBreak();
    LastLabelsNoBreak();
  }

  lemma FirstLabelsNoBreak()
    ensures forall i :: 0 <= i < 5 ==> '\n' !in FieldLabels[i]
  {
  }

  lemma LastLabelsNoBreak()
    ensures forall i :: 5 <= i < |FieldLabels| ==> '\n' !in FieldLabels[i]
  {
  }

  lemma FixedLinesNoBreak()
    ensures '\n' !in Banner && '\n' !in "*OBSERVA\U{00C7}\U{00D5}ES:*"
  {
  }

  lemma TornozeleiraNoBreak(d: map<string, Value>)
    requires NoLineBreaks(d)
    ensures '\n' !in TornozeleiraLine(d)
  {
    DisplayNoBreak(d, "tornozeleiraNumero");
  }

  lemma VehicleNoBreak(d: map<string, Value>)
    requires NoLineBreaks(d)
    ensures forall i :: 0 <= i < |VehicleLines(d)| ==> '\n' !in VehicleLines(d)[i]
  {
    if Truthy(d, "veiculoCheck") {
      VehicleLabelsNoBreak();
      DisplayNoBreak(d, "veiculoPlaca");
      DisplayNoBreak(d, "veiculoCor");
      DisplayNoBreak(d, "veiculoModelo");
    } else {
      assert '\n' !in "- Ve\U{00ED}culo: N\U{00E3}o se aplica.";
    }
  }

  lemma VehicleLabelsNoBreak()
    ensures '\n' !in "- Ve\U{00ED}culo: Sim." && '\n' !in "  *Placa:* "
    ensures '\n' !in "  *Cor:* " && '\n' !in "  *Modelo:* "
  {
  }

  /** Every line of `ls` is free of line breaks. */
  predicate LinesFree(ls: seq<string>) {
    forall i :: 0 <= i < |ls| ==> '\n' !in ls[i]
  }

  lemma LinesFreeConcat(a: seq<string>, b: seq<string>)
    requires LinesFree(a) && LinesFree(b)
    ensures LinesFree(a + b)
  {
    forall i | 0 <= i < |a + b|
      ensures '\n' !in (a + b)[i]
    {
      if i >= |a| {
        assert (a + b)[i] == b[i - |a|];
      }
    }
  }

  lemma FieldLinesNoBreak(d: map<string, Value>)
    requires NoLineBreaks(d)
    ensures LinesFree(FieldLines(d))
  {
    FieldLinesInOrder(d);
    LabelsNoBreak();
    forall i | 0 <= i < |FieldKeys|
      ensures '\n' !in FieldLines(d)[i]
    {
      ShownNoBreak(d, i);
      NoBreakConcat(FieldLabels[i], Shown(d, i));
    }
  }

  lemma ShownNoBreak(d: map<string, Value>, i: nat)
    requires NoLineBreaks(d) && i < |FieldKeys|
    ensures '\n' !in Shown(d, i)
  {
    DisplayNoBreak(d, FieldKeys[i]);
    DisplayNoBreak(d, "apelido");
  }

  lemma NoBreakConcat(a: string, b: string)
    requires '\n' !in a && '\n' !in b
    ensures '\n' !in a + b
  {
  }

  lemma LinesNoBreaks(d: map<string, Value>)
    requires NoLineBreaks(d)
    ensures LinesFree(ReportLines(d))
  {
    FixedLinesNoBreak();
    FieldLinesNoBreak(d);
    TornozeleiraNoBreak(d);
    VehicleNoBreak(d);
    var obs := ["*OBSERVA\U{00C7}\U{00D5}ES:*", TornozeleiraLine(d)];
    LinesFreeConcat([Banner, ""], FieldLines(d));
    LinesFreeConcat([Banner, ""] + FieldLines(d), obs);
    LinesFreeConcat([Banner, ""] + FieldLines(d) + obs, VehicleLines(d));
  }

  /** `s.indexOf(c)` on a text whose first `c` follows `a`. */
  lemma IndexOfCharAfter(a: string, c: char, b: string)
    requires c !in a
    ensures IndexOfChar(a + [c] + b, c) == |a|
  {
    var s := a + [c] + b;
    assert s[|a|] == c;
  }

  /** Splitting terminated lines on the line break gives the lines back,
      and one empty piece after the last break. */
  lemma {:induction false} SplitTerminated(ls: seq<string>)
    requires LinesFree(ls)
    ensures SplitOn(Terminated(ls), '\n') == ls + [""]
  {
    if ls == [] {
      SplitEmpty();
    } else {
      LinesFreeTail(ls);
      TerminatedPrefix(ls);
      SplitAfterLine(ls[0], Terminated(ls[1..]));
      SplitTerminated(ls[1..]);
      ConsTail(ls, "");
    }
  }

  lemma SplitEmpty()
    ensures SplitOn("", '\n') == [""]
  {
    assert IndexOfChar("", '\n') == -1;
  }

  lemma LinesFreeTail(ls: seq<string>)
    requires ls != [] && LinesFree(ls)
    ensures '\n' !in ls[0] && LinesFree(ls[1..])
  {
    var rest := ls[1..];
    forall i | 0 <= i < |rest|
      ensures '\n' !in rest[i]
    {
      assert rest[i] == ls[i + 1];
    }
  }

  lemma ConsTail(ls: seq<string>, x: string)
    requires ls != []
    ensures [ls[0]] + (ls[1..] + [x]) == ls + [x]
  {
  }

  /** A first line without breaks is the first piece of the split. */
  lemma SplitAfterLine(a: string, t: string)
    requires '\n' !in a
    ensures SplitOn(a + "\n" + t, '\n') == [a] + SplitOn(t, '\n')
  {
    IndexOfCharAfter(a, '\n', t);
    var s := a + "\n" + t;
    assert s[..|a|] == a;
    assert s[|a| + 1..] == t;
  }

  /** Cut at its line breaks, the untrimmed report is exactly the report's
      lines: every value verbatim, on its own labelled line, in order. */
  lemma RawSplitsIntoLines(d: map<string, Value>)
    requires NoLineBreaks(d)
    ensures SplitOn(Raw(d), '\n') == ReportLines(d) + [""]
  {
    LinesNoBreaks(d);
    SplitTerminated(ReportLines(d));
  }

  // ---------------------------------------------------------------------
  // Trimming
  // ---------------------------------------------------------------------

  lemma {:induction false} TerminatedSnoc(ls: seq<string>, l: string)
    ensures Terminated(ls + [l]) == Terminated(ls) + l + "\n"
  {
    if ls == [] {
      assert [l][1..] == [];
    } else {
      assert (ls + [l])[1..] == ls[1..] + [l];
      TerminatedSnoc(ls[1..], l);
    }
  }

  lemma TerminatedPrefix(ls: seq<string>)
    requires ls != []
    ensures Terminated(ls) == ls[0] + "\n" + Terminated(ls[1..])
  {
  }

  /** Whitespace trimmed from the end of `s` lies after any non-space character. */
  lemma TrimEndStopsAt(s: string, k: nat)
    requires k < |s| && !IsSpace(s[k])
    ensures k < |s| - TrailingSpaces(s)
  {
  }

  /** A non-space character of the last line: the dash of "- Veículo" or the
      first star of "  *Modelo:*". */
  function LastMark(d: map<string, Value>): nat {
    if Truthy(d, "veiculoCheck") then 2 else 0
  }

  lemma LastLineMarked(d: map<string, Value>)
    ensures var ls := ReportLines(d);
      LastMark(d) < |ls[|ls| - 1]| && !IsSpace(ls[|ls| - 1][LastMark(d)])
  {
  }

  /** Trimming keeps everything up to any non-space character. */
  lemma TrimKeepsUpTo(s: string, k: nat)
    requires k < |s| && !IsSpace(s[k]) && !IsSpace(s[0])
    ensures k < |Trim(s)| && Trim(s) == s[..|Trim(s)|]
  {
    TrimEndStopsAt(s, k);
  }

  /** Trimming terminated lines whose first line starts, and whose last line
      holds, a non-space character keeps the first line and every line but
      the last. */
  lemma TrimTerminated(ls: seq<string>, j: nat)
    requires |ls| >= 2 && ls[0] != [] && !IsSpace(ls[0][0])
    requires j < |ls[|ls| - 1]| && !IsSpace(ls[|ls| - 1][j])
    ensures var head := Terminated(ls[..|ls| - 1]);
      |head| <= |Trim(Terminated(ls))| && Trim(Terminated(ls))[..|head|] == head
    ensures |ls[0]| <= |Trim(Terminated(ls))| && Trim(Terminated(ls))[..|ls[0]|] == ls[0]
  {
    var init, last := ls[..|ls| - 1], ls[|ls| - 1];
    var head := Terminated(init);
    assert ls == init + [last];
    TerminatedSnoc(init, last);
    var raw := Terminated(ls);
    assert raw == head + last + "\n";
    assert raw[|head| + j] == last[j];
    TerminatedPrefix(ls);
    assert raw[0] == ls[0][0];
    TrimKeepsUpTo(raw, |head| + j);
    TerminatedPrefix(init);
    assert head[..|ls[0]|] == ls[0];
  }

  /** The report starts with the banner, and trimming it only ever shortens
      the last line: every earlier line and its line break are kept. */
  lemma ReportKeepsHead(d: map<string, Value>)
    ensures var ls := ReportLines(d);
      var head := Terminated(ls[..|ls| - 1]);
      |head| <= |GenerateText(d)| && GenerateText(d)[..|head|] == head
    ensures |Banner| <= |GenerateText(d)| && GenerateText(d)[..|Banner|] == Banner
    ensures IsTrimmed(GenerateText(d))
  {
    LastLineMarked(d);
    assert ReportLines(d)[0] == Banner;
    TrimTerminated(ReportLines(d), LastMark(d));
  }

  /** The observations hold the ankle monitor's number only when its box is
      set. */
  lemma TornozeleiraObservation(d: map<string, Value>)
    ensures Truthy(d, "tornozeleiraCheck") ==>
      ReportLines(d)[13] == "- Tornozeleira: Sim. *N\U{00FA}mero:* " + Display(d, "tornozeleiraNumero")
    ensures !Truthy(d, "tornozeleiraCheck") ==> ReportLines(d)[13] == "- Tornozeleira: N\U{00E3}o se aplica."
  {
    FieldLinesInOrder(d);
  }

  /** The vehicle's plate, colour and model are listed exactly when the
      vehicle box is set. */
  lemma VehicleObservation(d: map<string, Value>)
    ensures |ReportLines(d)| == (if Truthy(d, "veiculoCheck") then 18 else 15)
    ensures Truthy(d, "veiculoCheck") ==>
      ReportLines(d)[14..] == [ "- Ve\U{00ED}culo: Sim.",
                                "  *Placa:* " + Display(d, "veiculoPlaca"),
                                "  *Cor:* " + Display(d, "veiculoCor"),
                                "  *Modelo:* " + Display(d, "veiculoModelo") ]
    ensures !Truthy(d, "veiculoCheck") ==> ReportLines(d)[14..] == ["- Ve\U{00ED}culo: N\U{00E3}o se aplica."]
  {
    FieldLinesInOrder(d);
    var ls := ReportLines(d);
    assert ls[14..] == VehicleLines(d);
  }
}
