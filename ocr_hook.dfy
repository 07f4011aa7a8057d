/** The field heuristic the OCR hook runs on recognised text
    (`extractAndFillFields` inside `useOcr.js`), the extractor the application
    wires to its form. It diverges from `DataExtraction`'s text path: other
    stop and keep rules for the mother's name, an inline CPF scan, a second
    naturalidade rule, regex fallbacks over the whole text, properly encoded
    literals, and vehicle flags that are only ever switched on. */
module OcrHook {
  import opened Text
  import opened Patterns
  import opened OcrModel
  import DataExtraction

  // ---------------------------------------------------------------------
  // The regular expressions that backtrack
  // ---------------------------------------------------------------------

  /** The hook's regular expressions whose repetitions overlap the text that
      follows them (lazy `[\s\S]*?`, `[^\n]*` before a class that also takes
      the next characters), so that their match depends on backtracking:
      the inline naturalidade pattern (useOcr.js line 190), the two
      `abordado` patterns (318-319), the naturalidade block (322), the
      mother block (334) and the mother pattern (387). */
  datatype Regex = NaturalidadeInline | AbordadoLabel | AbordadoNumbered | NaturalidadeBlock | MaeBloco | MaeRegex

  /** A regular-expression engine: the first capture group of the leftmost
      match of a pattern in a text, `None` when the pattern does not match.
      Every property below holds for every engine. */
  type Engine = (Regex, string) -> Option<string>

  // ---------------------------------------------------------------------
  // Constants and character classes
  // ---------------------------------------------------------------------

  /** "Vá em Corrigir" */
  const Placeholder: string := "V\U{00E1} em Corrigir"
  /** "Vá em Corrigir ou digite" */
  const NaturalidadePlaceholder: string := "V\U{00E1} em Corrigir ou digite"

  const StopWordsMae: seq<string> := [
    "PERMISS\U{00C3}O", "ACC", "REGISTRO", "VALIDADE", "CATEGORIA", "RENAVAM", "PLACA",
    "HABILITA\U{00C7}\U{00C3}O", "NACIONAL", "EXERC\U{00CD}CIO", "ASSINATURA", "DETRAN", "MARCA", "MODELO",
    "VERS\U{00C3}O", "CHASSI", "COMBUST\U{00CD}VEL", "COR", "C\U{00D3}DIGO", "ESP\U{00C9}CIE", "TIPO", "LOCAL"]

  /** `À-Ü` */
  predicate AccentedCapitalToUUml(c: char) { '\U{00C0}' <= c <= '\U{00DC}' }

  /** `À-Ú` */
  predicate AccentedCapitalToUAcute(c: char) { '\U{00C0}' <= c <= '\U{00DA}' }

  /** `[A-ZÀ-Ü\s./-]` */
  predicate CapsChar(c: char) {
    IsUpper(c) || AccentedCapitalToUUml(c) || IsSpace(c) || c == '.' || c == '/' || c == '-'
  }

  /** `isAllCaps`: `^[A-ZÀ-Ü\s./-]+$` */
  predicate IsAllCaps(s: string) {
    |s| > 0 && forall k :: 0 <= k < |s| ==> CapsChar(s[k])
  }

  // ---------------------------------------------------------------------
  // The line-by-line pass: what one line contributes to each field
  // ---------------------------------------------------------------------

  const HabilitacaoTerm: string := "HABILITA\U{00C7}\U{00C3}O"

  /** A name candidate: non-empty, two or more pieces split on " ", no
      HABILITAÇÃO and no digit. */
  predicate IsNameCandidate(c: string) {
    c != "" && |SplitOn(c, ' ')| >= 2 && !Contains(c, HabilitacaoTerm) && !HasDigit(c)
  }

  predicate IsNameLabel(linha: string) {
    Contains(linha, "NOME") || Contains(linha, "NAME")
  }

  /** On a NOME/NAME line: the first of the next two lines that is a name candidate. */
  function NomeAttempt(linhas: seq<string>, i: nat): string
    requires i < |linhas|
  {
    if !IsNameLabel(linhas[i]) then ""
    else
      var candidatos := linhas[i + 1..Min(i + 3, |linhas|)];
      match FirstFrom(candidatos, IsNameCandidate, 0)
      case None => ""
      case Some(k) => NormalizeSpaces(candidatos[k])
  }

  /** The name is the normalised first qualifying line among lines `i+1` and
      `i+2` after a NOME/NAME line, and nothing otherwise. */
  lemma NomeAttemptSpec(linhas: seq<string>, i: nat)
    requires i < |linhas|
    ensures NomeAttempt(linhas, i) ==
      if !IsNameLabel(linhas[i]) then ""
      else if i + 1 < |linhas| && IsNameCandidate(linhas[i + 1]) then NormalizeSpaces(linhas[i + 1])
      else if i + 2 < |linhas| && IsNameCandidate(linhas[i + 2]) then NormalizeSpaces(linhas[i + 2])
      else ""
  {
    if IsNameLabel(linhas[i]) {
      var candidatos := linhas[i + 1..Min(i + 3, |linhas|)];
      var r := FirstFrom(candidatos, IsNameCandidate, 0);
      if i + 1 < |linhas| {
        assert candidatos[0] == linhas[i + 1];
      }
      if i + 2 < |linhas| {
        assert candidatos[1] == linhas[i + 2];
      }
      if r.Some? {
        assert r.value == 0 || r.value == 1;
      }
    }
  }

  const NaturalidadeTerms: seq<string> := ["NATURALIDADE", "NATURAL DE", "LOCAL DE NASCIMENTO"]

  /** On a NATURALIDADE line: the next line when it is longer than two
      characters without a digit, else the inline pattern's capture. */
  function NaturalidadeLabelAttempt(engine: Engine, linhas: seq<string>, i: nat): string
    requires i < |linhas|
  {
    if !ContainsAny(linhas[i], NaturalidadeTerms) then ""
    else if i + 1 < |linhas| && |linhas[i + 1]| > 2 && !HasDigit(linhas[i + 1]) then NormalizeSpaces(linhas[i + 1])
    else
      match engine(NaturalidadeInline, linhas[i])
      case None => ""
      case Some(g) => if g == "" then "" else NormalizeSpaces(g)
  }

  predicate IsDateLocalLine(linha: string) {
    Contains(linha, "DATA") && Contains(linha, "LOCAL") && Contains(linha, "UF") && Contains(linha, "NASC")
  }

  /** `[A-ZÀ-Ú\s]` under the `i` flag: whitespace, or a character whose upper
      case is in the class. */
  predicate CityCharNoCase(c: char) {
    IsSpace(c) || IsUpper(UpperChar(c)) || AccentedCapitalToUAcute(UpperChar(c))
  }

  /** `(\d{2}\/\d{2}\/\d{4}),\s*([A-ZÀ-Ú\s]+),\s*([A-Z]{2})` (flag `i`) at `p`:
      groups 2 and 3. The city group also takes whitespace, so the `\s*`
      before it keeps all the leading whitespace except, on a city of
      whitespace only, its last character. */
  function DateCityUfAt(s: string, p: nat): (r: Option<(string, string)>)
    ensures r.Some? ==> r.value.0 != "" && |r.value.1| == 2 && IsLetter(r.value.1[0]) && IsLetter(r.value.1[1])
    ensures r.Some? ==> forall k :: 0 <= k < |r.value.0| ==> CityCharNoCase(r.value.0[k])
  {
    if !ShapeAt(s, p, DateShape) || p + 10 >= |s| || s[p + 10] != ',' then None
    else
      var e := SkipWhile(s, p + 11, CityCharNoCase);
      if e == p + 11 || e >= |s| || s[e] != ',' then None
      else
        var w := SkipWhile(s, p + 11, IsSpace);
        var g := if w < e then w else e - 1;
        var d := SkipWhile(s, e + 1, IsSpace);
        if d + 2 > |s| || !IsLetter(s[d]) || !IsLetter(s[d + 1]) then None
        else
          assert p + 11 <= g < e;
          assert forall k :: 0 <= k < e - g ==> s[g..e][k] == s[g + k];
          Some((s[g..e], s[d..d + 2]))
  }

  /** On a line with DATA, LOCAL, UF and NASC: "city, UF" from the next line. */
  function DateLocalAttempt(linhas: seq<string>, i: nat): Option<string>
    requires i < |linhas|
  {
    if !IsDateLocalLine(linhas[i]) || i + 1 >= |linhas| then None
    else
      match Leftmost(linhas[i + 1], DateCityUfAt, 0)
      case None => None
      case Some(m) => Some(NormalizeSpaces(m.0 + ", " + m.1))
  }

  /** Both naturalidade rules run on the same line; the second overrides the first. */
  function NaturalidadeAttempt(engine: Engine, linhas: seq<string>, i: nat): string
    requires i < |linhas|
  {
    match DateLocalAttempt(linhas, i)
    case Some(v) => v
    case None => NaturalidadeLabelAttempt(engine, linhas, i)
  }

  /** `isFiliationLine`. Every prefix of that pattern may match the empty
      string and every alternative of FILIAÇÃO starts with FIL (`FIL[IAÇÃ]*`
      accepts FIL alone), so the test holds exactly when the line contains,
      ignoring case, one of these words. */
  const FiliationTerms: seq<string> := ["FIL", "GENITORA", "MOTHER", "MAE", "M\U{00C3}E"]

  predicate IsFiliationLine(linha: string) {
    ContainsAnyNoCase(linha, FiliationTerms)
  }

  predicate HasStarOrUnderscore(c: string) {
    exists k :: 0 <= k < |c| && (c[k] == '*' || c[k] == '_')
  }

  /** The line that ends the collection of the parents' names. */
  predicate MaeStop(c: string) {
    |c| <= 2 || HasStarOrUnderscore(c) || DataExtraction.HasDigitRun(c) || ContainsAny(c, StopWordsMae)
  }

  const FiliacaoTerm: string := "FILIA\U{00C7}\U{00C3}O"

  /** A line collected as a parent's name. */
  predicate MaeKeep(c: string) {
    IsAllCaps(c) && !Contains(c, FiliacaoTerm) && |c| > 3 && |SplitSpaces(c)| >= 2
  }

  /** The lines the collection reads: lines `i+1 .. i+10`, trimmed. */
  function MaeWindow(linhas: seq<string>, i: nat): (w: seq<string>)
    requires i < |linhas|
    ensures |w| <= 10 && i + 1 + |w| <= |linhas|
    ensures forall k :: 0 <= k < |w| ==> w[k] == Trim(linhas[i + 1 + k])
  {
    var ts := DataExtraction.TrimAll(linhas);
    ts[i + 1..Min(i + 11, |ts|)]
  }

  /** `possibleNames`: the kept lines of the window, normalised, up to the
      first stop line. */
  function PossibleNames(linhas: seq<string>, i: nat): seq<string>
    requires i < |linhas|
  {
    CollectUntil(MaeWindow(linhas, i), MaeStop, MaeKeep, NormalizeSpaces)
  }

  /** At most ten candidates; the `m`-th is the normalised form of a window
      line that is kept and comes before any stop line. */
  lemma PossibleNamesSpec(linhas: seq<string>, i: nat, m: nat)
    requires i < |linhas|
    ensures |PossibleNames(linhas, i)| <= 10
    ensures m < |PossibleNames(linhas, i)| ==>
      exists j :: 0 <= j < |MaeWindow(linhas, i)| && MaeKeep(MaeWindow(linhas, i)[j])
        && !MaeStop(MaeWindow(linhas, i)[j]) && PossibleNames(linhas, i)[m] == NormalizeSpaces(MaeWindow(linhas, i)[j])
  {
    if m < |PossibleNames(linhas, i)| {
      var j := CollectUntilSource(MaeWindow(linhas, i), MaeStop, MaeKeep, NormalizeSpaces, m);
    }
  }

  function MaeAttempt(linhas: seq<string>, i: nat): string
    requires i < |linhas|
  {
    if !IsFiliationLine(linhas[i]) then "" else DataExtraction.ChooseMae(PossibleNames(linhas, i))
  }

  /** The mother is set only from a filiation line with two or more
      candidates: the second, or the second and third joined when the
      first words of the first and third differ. */
  lemma MaeAttemptSpec(linhas: seq<string>, i: nat)
    requires i < |linhas|
    ensures !IsFiliationLine(linhas[i]) ==> MaeAttempt(linhas, i) == ""
    ensures var names := PossibleNames(linhas, i);
      IsFiliationLine(linhas[i]) && |names| >= 2 ==> MaeAttempt(linhas, i) == DataExtraction.ChooseMae(names)
    ensures var names := PossibleNames(linhas, i);
      IsFiliationLine(linhas[i]) && |names| >= 2 && !(|names| > 2 && FirstField(names[0]) != FirstField(names[2])) ==>
        MaeAttempt(linhas, i) == names[1]
    ensures var r := MaeAttempt(linhas, i); var names := PossibleNames(linhas, i);
      r != "" ==>
        IsFiliationLine(linhas[i]) && |names| >= 2
        && (r == names[1] || (|names| > 2 && r == NormalizeSpaces(names[1] + " " + names[2])))
    ensures var names := PossibleNames(linhas, i);
      IsFiliationLine(linhas[i]) && |names| > 2 && FirstField(names[0]) != FirstField(names[2]) ==>
        MaeAttempt(linhas, i) == NormalizeSpaces(names[1] + " " + names[2])
  {
  }

  /** `\b\d{3}[.\s]?\d{3}[.\s]?\d{3}[-\s]?\d{2}\b` on the line itself. */
  function CpfTokenAttempt(linha: string): string {
    match FirstCpfToken(linha)
    case None => ""
    case Some(m) =>
      var d := DigitsOnly(m);
      if |d| == 11 then CpfTemplate(d) else ""
  }

  /** The CPF label rule first (the digits of the next line), then the token rule. */
  function CpfAttempt(linhas: seq<string>, i: nat): string
    requires i < |linhas|
  {
    OrElse(DataExtraction.CpfAttempt(linhas, i), CpfTokenAttempt(linhas[i]))
  }

  lemma CpfAttemptShape(linhas: seq<string>, i: nat)
    requires i < |linhas|
    ensures var r := CpfAttempt(linhas, i); r != "" ==> IsShape(r, DottedCpfShape) && |DigitsOnly(r)| == 11
  {
    DataExtraction.CpfAttemptShape(linhas, i);
    var m := FirstCpfToken(linhas[i]);
    if m.Some? && |DigitsOnly(m.value)| == 11 {
      CpfTemplateShape(DigitsOnly(m.value));
    }
  }

  // ---------------------------------------------------------------------
  // The pass over the lines: a field is written by the first line whose
  // rule gives it a value (`Text.WriteOnce`); below, per field, what the
  // loop body at line `i` would set it to ("" past the last line). The
  // date of birth and the plate follow the same rules as on
  // `DataExtraction`'s text path, and reuse its attempts.
  // ---------------------------------------------------------------------

  function NomeAttempts(linhas: seq<string>): nat -> string {
    (i: nat) => if i < |linhas| then NomeAttempt(linhas, i) else ""
  }

  function NaturalidadeAttempts(engine: Engine, linhas: seq<string>): nat -> string {
    (i: nat) => if i < |linhas| then NaturalidadeAttempt(engine, linhas, i) else ""
  }

  function MaeAttempts(linhas: seq<string>): nat -> string {
    (i: nat) => if i < |linhas| then MaeAttempt(linhas, i) else ""
  }

  function CpfAttempts(linhas: seq<string>): nat -> string {
    (i: nat) => if i < |linhas| then CpfAttempt(linhas, i) else ""
  }

  // ---------------------------------------------------------------------
  // Fallbacks over the whole text
  // ---------------------------------------------------------------------

  predicate NonEmptyCapture(c: Option<string>) { c.Some? && c.value != "" }

  /** `findValue`: the first pattern whose first group is non-empty gives
      that group, normalised; "" when there is none. */
  function FindValueOf(captures: seq<Option<string>>): string {
    match FirstFrom(captures, NonEmptyCapture, 0)
    case None => ""
    case Some(k) => NormalizeSpaces(captures[k].value)
  }

  /** `LABEL` (ignoring case) at `p`, then `\s*[:\n-]*\s*`: where what follows
      starts. The three runs are taken greedily, which is the regex's match
      because what follows them starts with a letter or a digit. */
  function LabelEnd(s: string, p: nat, word: string): (r: Option<nat>)
    ensures r.Some? ==> p + |word| <= r.value <= |s|
  {
    if p + |word| > |s| || Upper(s[p..p + |word|]) != word then None
    else
      var a := SkipWhile(s, p + |word|, IsSpace);
      var b := SkipWhile(s, a, ColonNewlineOrDash);
      Some(SkipWhile(s, b, IsSpace))
  }

  /** `[:\n-]` */
  predicate ColonNewlineOrDash(c: char) { c == ':' || c == '\n' || c == '-' }

  /** `[\s:.-]` */
  predicate DateLabelSep(c: char) { IsSpace(c) || c == ':' || c == '.' || c == '-' }

  /** `(?:DATA\s+NASC(?:IMENTO)?)[\s:.-]*([0-9]{2}\/[0-9]{2}\/[0-9]{4})` (flag `i`) at `p`. */
  function DataNascAt(s: string, p: nat): (r: Option<string>)
    ensures r.Some? ==> IsShape(r.value, DateShape)
  {
    match LabelEnd(s, p, "DATA")
    case None => None
    case Some(_) =>
      var a := SkipWhile(s, p + 4, IsSpace);
      if a == p + 4 || a + 4 > |s| || Upper(s[a..a + 4]) != "NASC" then None
      else
        var b := if a + 10 <= |s| && Upper(s[a + 4..a + 10]) == "IMENTO" then a + 10 else a + 4;
        var c := SkipWhile(s, b, DateLabelSep);
        if ShapeAt(s, c, DateShape) then Some(s[c..c + 10]) else None
  }

  /** `CPF\s*[:\n-]*\s*(\d{3}[.\s]?\d{3}[.\s]?\d{3}[-\s]?\d{2})` (flag `i`) at `p`. */
  function CpfLabelAt(s: string, p: nat): (r: Option<string>) {
    match LabelEnd(s, p, "CPF")
    case None => None
    case Some(q) =>
      match LooseCpfEnd(s, q)
      case None => None
      case Some(e) => Some(s[q..e])
  }

  /** `PLACA\s*[:\n-]*\s*([A-Z]{3}[- ]?\d{4})` (flag `i`) at `p`. */
  function PlacaLabelAt(s: string, p: nat): (r: Option<string>) {
    match LabelEnd(s, p, "PLACA")
    case None => None
    case Some(q) =>
      if !ShapeAt(Upper(s), q, [UpperLetter, UpperLetter, UpperLetter]) then None
      else
        var d := if q + 3 < |s| && (s[q + 3] == '-' || s[q + 3] == ' ') then q + 4 else q + 3;
        if DigitsAt(s, d, 4) then Some(s[q..d + 4]) else None
  }

  /** `\b([A-Z]{3}\d[A-Z]\d{2})\b` (flag `i`) at `p`; a letter of either case
      is one whose upper case is in `A-Z`. */
  function MercosulAt(s: string, p: nat): (r: Option<string>) {
    if ShapeAt(Upper(s), p, MercosulPlateShape) && Boundary(s, p) && Boundary(s, p + 7) then Some(s[p..p + 7]) else None
  }

  /** The `abordado` fallback: upper-cased, when it has two or more pieces split on " ". */
  function NomeFallback(engine: Engine, text: string): string {
    var rx := FindValueOf([engine(AbordadoLabel, text), engine(AbordadoNumbered, text)]);
    if rx != "" && |SplitOn(rx, ' ')| >= 2 then Upper(rx) else ""
  }

  function NaturalidadeFallback(engine: Engine, text: string): string {
    Upper(FindValueOf([engine(NaturalidadeBlock, text)]))
  }

  /** The DATA NASC fallback, kept when it is exactly `DD/MM/YYYY`. */
  function DnFallback(text: string): (r: string)
    ensures r == "" || IsShape(r, DateShape)
  {
    var rx := FindValueOf([Leftmost(text, DataNascAt, 0)]);
    if IsShape(rx, DateShape) then rx else ""
  }

  function CpfFallback(text: string): (r: string) {
    var d := DigitsOnly(FindValueOf([Leftmost(text, CpfLabelAt, 0), FirstCpfToken(text)]));
    if |d| == 11 then CpfTemplate(d) else ""
  }

  /** The block after a filiation word: every non-empty line, up to one with
      a stop word or one that is not all capitals without digits and of
      length three or more. */
  predicate BlocoKeep(l: string) { !HasDigit(l) && IsAllCaps(l) && |l| >= 3 }

  predicate BlocoStop(l: string) { l != "" && (ContainsAny(l, StopWordsMae) || !BlocoKeep(l)) }

  predicate NonEmptyLine(l: string) { l != "" }

  function BlocoNames(bloco: string): seq<string> {
    CollectUntil(ToLines(Upper(bloco)), BlocoStop, NonEmptyLine, NormalizeSpaces)
  }

  /** The `m`-th name taken from the block is a normalised block line that
      is all capitals, has no digit and no stop word, and is three or more
      long. */
  lemma BlocoNamesSpec(bloco: string, m: nat)
    requires m < |BlocoNames(bloco)|
    ensures exists j :: 0 <= j < |ToLines(Upper(bloco))| && BlocoKeep(ToLines(Upper(bloco))[j])
                        && !ContainsAny(ToLines(Upper(bloco))[j], StopWordsMae)
                        && BlocoNames(bloco)[m] == NormalizeSpaces(ToLines(Upper(bloco))[j])
  {
    var j := CollectUntilSource(ToLines(Upper(bloco)), BlocoStop, NonEmptyLine, NormalizeSpaces, m);
  }

  /** Three or more block names give the third onward, two give the second. */
  function ChooseFromBloco(valid: seq<string>): string {
    if |valid| >= 3 then NormalizeSpaces(Join(valid[2..], " "))
    else if |valid| >= 2 then NormalizeSpaces(valid[1])
    else ""
  }

  function MaeBlocoFallback(engine: Engine, text: string): string {
    var bloco := FindValueOf([engine(MaeBloco, text)]);
    if bloco == "" then "" else ChooseFromBloco(BlocoNames(bloco))
  }

  /** The block fallback never yields a name: `findValue` collapses every
      whitespace run of the capture, so the block is one line, which gives
      at most one block name where two are needed. */
  lemma MaeBlocoFallbackEmpty(engine: Engine, text: string)
    ensures MaeBlocoFallback(engine, text) == ""
  {
    var captures := [engine(MaeBloco, text)];
    var bloco := FindValueOf(captures);
    if bloco != "" {
      var k := FirstFrom(captures, NonEmptyCapture, 0).value;
      NormalizeSpacesOneLine(captures[k].value);
      UpperOneLine(bloco);
      ToLinesOneLine(Upper(bloco));
    }
  }

  /** The last mother fallback: the trimmed capture, when it has two or more
      words and is not all digits. */
  function MaeRegexFallback(engine: Engine, text: string): string {
    match engine(MaeRegex, text)
    case None => ""
    case Some(g) =>
      if g == "" then ""
      else
        var p := Trim(g);
        if |SplitSpaces(p)| >= 2 && !(p != "" && AllDigits(p)) then NormalizeSpaces(Upper(p)) else ""
  }

  /** `s.replace(" ", "")`: only the first space goes. */
  function RemoveFirstSpace(s: string): (r: string)
    ensures forall k :: 0 <= k < |r| ==> r[k] in s
  {
    var k := IndexOfChar(s, ' ');
    if k == -1 then s else s[..k] + s[k + 1..]
  }

  function PlacaFallback(text: string): string {
    RemoveFirstSpace(Upper(FindValueOf([Leftmost(text, PlacaLabelAt, 0), Leftmost(text, MercosulAt, 0)])))
  }

  // ---------------------------------------------------------------------
  // The whole run
  // ---------------------------------------------------------------------

  /** Placeholders, the six updates and, when a plate was resolved, the two
      vehicle flags. */
  function Finish(nome: string, naturalidade: string, mae: string, cpf: string, dn: string, placa: string): seq<Update> {
    var p := OrElse(placa, Placeholder);
    FieldUpdates(OrElse(nome, Placeholder), OrElse(naturalidade, NaturalidadePlaceholder), OrElse(mae, Placeholder),
                 OrElse(cpf, Placeholder), OrElse(dn, Placeholder), p)
    + (if p != "" && p != Placeholder then VehicleFlags(true) else [])
  }

  // A field's final value before placeholders: the pass over the lines,
  // and when that left it empty, its fallbacks in order.

  function ResolvedNome(engine: Engine, text: string): string {
    var linhas := DataExtraction.Linhas(text);
    OrElse(WriteOnce(NomeAttempts(linhas), |linhas|), NomeFallback(engine, text))
  }

  function ResolvedNaturalidade(engine: Engine, text: string): string {
    var linhas := DataExtraction.Linhas(text);
    OrElse(WriteOnce(NaturalidadeAttempts(engine, linhas), |linhas|), NaturalidadeFallback(engine, text))
  }

  function ResolvedMae(engine: Engine, text: string): string {
    var linhas := DataExtraction.Linhas(text);
    OrElse(OrElse(WriteOnce(MaeAttempts(linhas), |linhas|), MaeBlocoFallback(engine, text)), MaeRegexFallback(engine, text))
  }

  function ResolvedCpf(text: string): string {
    var linhas := DataExtraction.Linhas(text);
    OrElse(WriteOnce(CpfAttempts(linhas), |linhas|), CpfFallback(text))
  }

  function ResolvedDn(text: string): string {
    var linhas := DataExtraction.Linhas(text);
    OrElse(WriteOnce(DataExtraction.DnAttempts(linhas), |linhas|), DnFallback(text))
  }

  function ResolvedPlaca(text: string): string {
    var linhas := DataExtraction.Linhas(text);
    OrElse(WriteOnce(DataExtraction.PlacaAttempts(linhas), |linhas|), PlacaFallback(text))
  }

  /** The updates of one call of the hook's `extractAndFillFields`. */
  function Run(engine: Engine, text: string): seq<Update> {
    if text == "" then []
    else
      Finish(ResolvedNome(engine, text), ResolvedNaturalidade(engine, text), ResolvedMae(engine, text),
             ResolvedCpf(text), ResolvedDn(text), ResolvedPlaca(text))
  }

  // ---------------------------------------------------------------------
  // What every run promises
  // ---------------------------------------------------------------------

  /** Only `x` itself carries the acute `á` of the placeholders; no upper-cased
      character is `á`. */
  lemma UpperCharNotSmallAAcute(c: char)
    ensures UpperChar(c) != '\U{00E1}'
  {
  }

  /** An upper-cased string, with or without its first space, never holds the
      `á` of the placeholder. */
  lemma UpperNotPlaceholder(v: string)
    ensures RemoveFirstSpace(Upper(v)) != Placeholder
  {
    var up := Upper(v);
    var r := RemoveFirstSpace(up);
    if r == Placeholder {
      assert r[1] == '\U{00E1}';
      assert r[1] in up;
      var k :| 0 <= k < |up| && up[k] == r[1];
      UpperCharNotSmallAAcute(v[k]);
      assert false;
    }
  }

  lemma PlacaFallbackNotPlaceholder(text: string)
    ensures PlacaFallback(text) != Placeholder
  {
    UpperNotPlaceholder(FindValueOf([Leftmost(text, PlacaLabelAt, 0), Leftmost(text, MercosulAt, 0)]));
  }

  /** A resolved plate is never the placeholder: the line pass yields seven
      characters, and the fallback is upper-cased, so it has no `á`. */
  lemma ResolvedPlacaNotPlaceholder(text: string)
    ensures ResolvedPlaca(text) != Placeholder
  {
    DataExtraction.PlacaScanShape(DataExtraction.Linhas(text));
    PlacaFallbackNotPlaceholder(text);
    assert |Placeholder| == 14;
  }

  /** A CPF the run resolves is always `xxx.xxx.xxx-xx` built from eleven digits. */
  lemma ResolvedCpfShape(text: string)
    ensures var c := ResolvedCpf(text); c != "" ==> IsShape(c, DottedCpfShape) && |DigitsOnly(c)| == 11
  {
    var linhas := DataExtraction.Linhas(text);
    var found := WriteOnce(CpfAttempts(linhas), |linhas|);
    WriteOnceFirstHit(CpfAttempts(linhas), |linhas|);
    if found != "" {
      var i :| 0 <= i < |linhas| && found == CpfAttempts(linhas)(i);
      CpfAttemptShape(linhas, i);
    } else {
      var d := DigitsOnly(FindValueOf([Leftmost(text, CpfLabelAt, 0), FirstCpfToken(text)]));
      if |d| == 11 {
        CpfTemplateShape(d);
      }
    }
  }

  /** A date of birth the run resolves always has the `DD/MM/YYYY` shape
      (with no calendar check). */
  lemma ResolvedDnShape(text: string)
    ensures var d := ResolvedDn(text); d != "" ==> IsShape(d, DateShape)
  {
    DataExtraction.DnScanShape(DataExtraction.Linhas(text));
  }

  /** A date-shaped string has no whitespace, so normalising leaves it alone. */
  lemma DateShapeNormalized(v: string)
    requires IsShape(v, DateShape)
    ensures NormalizeSpaces(v) == v
  {
    forall k | 0 <= k < |v|
      ensures !IsSpace(v[k])
    {
      assert ClsMatch(DateShape[k], v[k]);
    }
    NormalizeSpacesNoSpace(v);
  }

  /** `findValue` over one pattern: its group normalised, or "". */
  lemma FindValueOfOne(c: Option<string>)
    ensures NonEmptyCapture(c) ==> FindValueOf([c]) == NormalizeSpaces(c.value)
    ensures !NonEmptyCapture(c) ==> FindValueOf([c]) == ""
  {
    assert [c][0] == c;
  }

  /** The `^\d{2}\/\d{2}\/\d{4}$` test on the DATA NASC fallback never rejects:
      a match always gives its date. */
  lemma DnFallbackTakesMatch(text: string)
    ensures Leftmost(text, DataNascAt, 0).Some? ==> DnFallback(text) == Leftmost(text, DataNascAt, 0).value
    ensures Leftmost(text, DataNascAt, 0).None? ==> DnFallback(text) == ""
  {
    var m := Leftmost(text, DataNascAt, 0);
    FindValueOfOne(m);
    if m.Some? {
      DateShapeNormalized(m.value);
    }
  }

  /** The six updates, in order and never empty, and the two vehicle flags
      exactly when a plate other than the placeholder was found. */
  lemma FinishShape(nome: string, naturalidade: string, mae: string, cpf: string, dn: string, placa: string)
    requires placa != Placeholder
    ensures var u := Finish(nome, naturalidade, mae, cpf, dn, placa);
      (|u| == 6 || |u| == 8)
      && (forall k :: 0 <= k < 6 ==> u[k].field == DataFields[k] && u[k].value.Str? && u[k].value.s != "")
      && u[1].value == Str(OrElse(naturalidade, NaturalidadePlaceholder))
      && u[5].value == Str(OrElse(placa, Placeholder))
      && (|u| == 8 <==> placa != "")
      && (|u| == 8 ==> u[6] == Update("veiculoCheck", Flag(true)) && u[7] == Update("naoAplicaVeiculo", Flag(false)))
  {
  }

  /** Every run on non-empty text writes the six data fields in order, none
      of them empty (placeholders fill the gaps, naturalidade has its own),
      and adds `veiculoCheck = true`, `naoAplicaVeiculo = false` exactly when
      a plate was resolved; empty text writes nothing. */
  lemma RunShape(engine: Engine, text: string)
    ensures text == "" ==> Run(engine, text) == []
    ensures text != "" ==>
      var u := Run(engine, text);
      (|u| == 6 || |u| == 8)
      && (forall k :: 0 <= k < 6 ==> u[k].field == DataFields[k] && u[k].value.Str? && u[k].value.s != "")
      && u[1].value == Str(OrElse(ResolvedNaturalidade(engine, text), NaturalidadePlaceholder))
      && u[5].value == Str(OrElse(ResolvedPlaca(text), Placeholder))
      && (|u| == 8 <==> ResolvedPlaca(text) != "")
      && (|u| == 8 ==> u[6] == Update("veiculoCheck", Flag(true)) && u[7] == Update("naoAplicaVeiculo", Flag(false)))
  {
    if text != "" {
      ResolvedPlacaNotPlaceholder(text);
      FinishShape(ResolvedNome(engine, text), ResolvedNaturalidade(engine, text), ResolvedMae(engine, text),
                  ResolvedCpf(text), ResolvedDn(text), ResolvedPlaca(text));
    }
  }

  // ---------------------------------------------------------------------
  // The hook, step by step
  // ---------------------------------------------------------------------

  method TryNome(linhas: seq<string>, i: nat) returns (nome: string)
    requires i < |linhas|
    ensures nome == NomeAttempt(linhas, i)
  {
    nome := "";
    if IsNameLabel(linhas[i]) {
      var candidatos := linhas[i + 1..Min(i + 3, |linhas|)];
      var k := FindFirstFrom(candidatos, IsNameCandidate, 0);
      if k.Some? {
        nome := NormalizeSpaces(candidatos[k.value]);
      }
    }
  }

  method TryNaturalidade(engine: Engine, linhas: seq<string>, i: nat) returns (naturalidade: string)
    requires i < |linhas|
    ensures naturalidade == NaturalidadeAttempt(engine, linhas, i)
  {
    naturalidade := "";
    var linha := linhas[i];
    if ContainsAny(linha, NaturalidadeTerms) {
      if i + 1 < |linhas| && |linhas[i + 1]| > 2 && !HasDigit(linhas[i + 1]) {
        naturalidade := NormalizeSpaces(linhas[i + 1]);
      } else {
        var m := engine(NaturalidadeInline, linha);
        if m.Some? && m.value != "" {
          naturalidade := NormalizeSpaces(m.value);
        }
      }
    }
    if IsDateLocalLine(linha) && i + 1 < |linhas| {
      var m := Leftmost(linhas[i + 1], DateCityUfAt, 0);
      if m.Some? {
        naturalidade := NormalizeSpaces(m.value.0 + ", " + m.value.1);
      }
    }
  }

  method TryMae(linhas: seq<string>, i: nat) returns (mae: string)
    requires i < |linhas|
    ensures mae == MaeAttempt(linhas, i)
  {
    mae := "";
    if IsFiliationLine(linhas[i]) {
      var possibleNames := CollectWhile(DataExtraction.TrimAll(linhas), i + 1, 10, MaeStop, MaeKeep, NormalizeSpaces);
      assert possibleNames == PossibleNames(linhas, i);
      if |possibleNames| >= 2 {
        mae := possibleNames[1];
        if |possibleNames| > 2 {
          var paiParts := SplitSpaces(possibleNames[0]);
          var potencialMaeParts := SplitSpaces(possibleNames[2]);
          if paiParts[0] != potencialMaeParts[0] {
            mae := NormalizeSpaces(possibleNames[1] + " " + possibleNames[2]);
          }
        }
      }
    }
  }

  method TryCpf(linhas: seq<string>, i: nat) returns (cpf: string)
    requires i < |linhas|
    ensures cpf == CpfAttempt(linhas, i)
  {
    cpf := DataExtraction.TryCpf(linhas, i);
    if cpf == "" {
      var matchCpf := FirstCpfToken(linhas[i]);
      if matchCpf.Some? {
        var digits := DigitsOnly(matchCpf.value);
        if |digits| == 11 {
          cpf := CpfTemplate(digits);
        }
      }
    }
  }

  // One loop iteration for one field: the field is only computed while it
  // is still empty.

  method StepNome(linhas: seq<string>, i: nat, cur: string) returns (next: string)
    requires i < |linhas| && cur == WriteOnce(NomeAttempts(linhas), i)
    ensures next == WriteOnce(NomeAttempts(linhas), i + 1)
  {
    next := cur;
    if cur == "" {
      next := TryNome(linhas, i);
    }
  }

  method StepNaturalidade(engine: Engine, linhas: seq<string>, i: nat, cur: string) returns (next: string)
    requires i < |linhas| && cur == WriteOnce(NaturalidadeAttempts(engine, linhas), i)
    ensures next == WriteOnce(NaturalidadeAttempts(engine, linhas), i + 1)
  {
    next := cur;
    if cur == "" {
      next := TryNaturalidade(engine, linhas, i);
    }
  }

  method StepMae(linhas: seq<string>, i: nat, cur: string) returns (next: string)
    requires i < |linhas| && cur == WriteOnce(MaeAttempts(linhas), i)
    ensures next == WriteOnce(MaeAttempts(linhas), i + 1)
  {
    next := cur;
    if cur == "" {
      next := TryMae(linhas, i);
    }
  }

  method StepCpf(linhas: seq<string>, i: nat, cur: string) returns (next: string)
    requires i < |linhas| && cur == WriteOnce(CpfAttempts(linhas), i)
    ensures next == WriteOnce(CpfAttempts(linhas), i + 1)
  {
    next := cur;
    if cur == "" {
      next := TryCpf(linhas, i);
    }
  }

  /** `findValue`: the patterns in order, the first non-empty group wins. */
  method FindValue(captures: seq<Option<string>>) returns (r: string)
    ensures r == FindValueOf(captures)
  {
    var k := FindFirstFrom(captures, NonEmptyCapture, 0);
    r := "";
    if k.Some? {
      r := NormalizeSpaces(captures[k.value].value);
    }
  }

  /** The lines of the block kept as names, up to the first stop line. */
  method CollectBlocoNames(bloco: string) returns (valid: seq<string>)
    ensures valid == BlocoNames(bloco)
  {
    var lines := ToLines(Upper(bloco));
    valid := CollectWhile(lines, 0, |lines|, BlocoStop, NonEmptyLine, NormalizeSpaces);
    assert lines[0..Min(|lines|, |lines|)] == lines;
  }

  method ChooseMaeFromBloco(valid: seq<string>) returns (mae: string)
    ensures mae == ChooseFromBloco(valid)
  {
    mae := "";
    if |valid| >= 3 {
      mae := NormalizeSpaces(Join(valid[2..], " "));
    } else if |valid| >= 2 {
      mae := NormalizeSpaces(valid[1]);
    }
  }

  method CompleteMaeFromBloco(engine: Engine, text: string) returns (mae: string)
    ensures mae == MaeBlocoFallback(engine, text)
  {
    mae := "";
    var bloco := FindValue([engine(MaeBloco, text)]);
    if bloco != "" {
      var valid := CollectBlocoNames(bloco);
      mae := ChooseMaeFromBloco(valid);
    }
  }

  method CompleteMaeFromRegex(engine: Engine, text: string) returns (mae: string)
    ensures mae == MaeRegexFallback(engine, text)
  {
    mae := "";
    var m := engine(MaeRegex, text);
    if m.Some? && m.value != "" {
      var potencialMae := Trim(m.value);
      if |SplitSpaces(potencialMae)| >= 2 && !(potencialMae != "" && AllDigits(potencialMae)) {
        mae := NormalizeSpaces(Upper(potencialMae));
      }
    }
  }

  // After the pass, a field still empty is completed from its fallbacks.

  method CompleteNome(engine: Engine, text: string, found: string) returns (v: string)
    ensures v == OrElse(found, NomeFallback(engine, text))
  {
    v := found;
    if v == "" {
      var nomeRx := FindValue([engine(AbordadoLabel, text), engine(AbordadoNumbered, text)]);
      if nomeRx != "" && |SplitOn(nomeRx, ' ')| >= 2 {
        v := Upper(nomeRx);
      }
    }
  }

  method CompleteNaturalidade(engine: Engine, text: string, found: string) returns (v: string)
    ensures v == OrElse(found, NaturalidadeFallback(engine, text))
  {
    v := found;
    if v == "" {
      var naturalidadeRx := FindValue([engine(NaturalidadeBlock, text)]);
      v := Upper(naturalidadeRx);
    }
  }

  method CompleteDn(text: string, found: string) returns (v: string)
    ensures v == OrElse(found, DnFallback(text))
  {
    v := found;
    if v == "" {
      var dnRx := FindValue([Leftmost(text, DataNascAt, 0)]);
      if IsShape(dnRx, DateShape) {
        v := dnRx;
      }
    }
  }

  method CompleteCpf(text: string, found: string) returns (v: string)
    ensures v == OrElse(found, CpfFallback(text))
  {
    v := found;
    if v == "" {
      var rx := FindValue([Leftmost(text, CpfLabelAt, 0), FirstCpfToken(text)]);
      var cpfRx := DigitsOnly(rx);
      if |cpfRx| == 11 {
        v := CpfTemplate(cpfRx);
      }
    }
  }

  method CompleteMae(engine: Engine, text: string, found: string) returns (v: string)
    ensures v == OrElse(OrElse(found, MaeBlocoFallback(engine, text)), MaeRegexFallback(engine, text))
  {
    v := found;
    if v == "" {
      v := CompleteMaeFromBloco(engine, text);
    }
    if v == "" {
      v := CompleteMaeFromRegex(engine, text);
    }
  }

  method CompletePlaca(text: string, found: string) returns (v: string)
    ensures v == OrElse(found, PlacaFallback(text))
  {
    v := found;
    if v == "" {
      var placaRx := FindValue([Leftmost(text, PlacaLabelAt, 0), Leftmost(text, MercosulAt, 0)]);
      v := RemoveFirstSpace(Upper(placaRx));
    }
  }

  /** The hook's `extractAndFillFields(text)`: the pass over the lines, then
      the fallbacks of the fields still empty, then the updates. */
  method ExtractAndFillFields(engine: Engine, text: string) returns (u: seq<Update>)
    ensures u == Run(engine, text)
  {
    if text == "" {
      return [];
    }
    var linhas := DataExtraction.Linhas(text);
    var nome, naturalidade, mae, cpf, dn, placa := "", "", "", "", "", "";
    for i := 0 to |linhas|
      invariant nome == WriteOnce(NomeAttempts(linhas), i)
      invariant naturalidade == WriteOnce(NaturalidadeAttempts(engine, linhas), i)
      invariant mae == WriteOnce(MaeAttempts(linhas), i)
      invariant cpf == WriteOnce(CpfAttempts(linhas), i)
      invariant dn == WriteOnce(DataExtraction.DnAttempts(linhas), i)
      invariant placa == WriteOnce(DataExtraction.PlacaAttempts(linhas), i)
    {
      nome := StepNome(linhas, i, nome);
      naturalidade := StepNaturalidade(engine, linhas, i, naturalidade);
      mae := StepMae(linhas, i, mae);
      cpf := StepCpf(linhas, i, cpf);
      dn := DataExtraction.StepDn(linhas, i, dn);
      placa := DataExtraction.StepPlaca(linhas, i, placa);
    }
    nome := CompleteNome(engine, text, nome);
    naturalidade := CompleteNaturalidade(engine, text, naturalidade);
    dn := CompleteDn(text, dn);
    cpf := CompleteCpf(text, cpf);
    mae := CompleteMae(engine, text, mae);
    placa := CompletePlaca(text, placa);
    u := Finish(nome, naturalidade, mae, cpf, dn, placa);
  }
}
