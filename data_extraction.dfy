/** The line-based field extractor for pasted text and OCR.space results:
    keyword lines, fixed look-ahead windows, regex fallbacks and placeholders.
    The accented literals of this extractor are mis-encoded in the program
    (UTF-8 read as Mac Roman, e.g. "√°" for "á"); they are kept here code
    point for code point, since that is what the comparisons see. */
module DataExtraction {
  import opened Text
  import opened Patterns
  import opened OcrModel
  import BrazilianValidators

  /** "Vá em Corrigir" as mis-encoded in this extractor. */
  const Placeholder: string := "V\U{221A}\U{00B0} em Corrigir"
  const NaturalidadePlaceholder: string := "Corrija ou Digite"

  // ---------------------------------------------------------------------
  // convertTextToOcrJson
  // ---------------------------------------------------------------------

  function SyntheticWords(ws: seq<string>, top: int): (r: seq<Word>)
    ensures |r| == |ws|
  {
    seq(|ws|, k requires 0 <= k < |ws| => Word(ws[k], k * 50, top, 20, |ws[k]| * 10))
  }

  /** The synthetic overlay line number `index` for the text `l`. */
  function SyntheticLine(l: string, index: nat): (r: Line)
  {
    Line(Trim(l), SyntheticWords(SplitSpaces(Trim(l)), index * 20), 20, index * 20)
  }

  /** Plain text as an OCR result: one parsed result whose overlay lines are the
      non-blank lines of the text, trimmed, 20 units apart. */
  function ConvertTextToOcrJson(text: string): (r: OcrResult)
    ensures |r.parsedResults| == 1 && r.parsedResults[0].parsedText == text
    ensures |r.parsedResults[0].lines| == |ToLines(text)|
    ensures forall k :: 0 <= k < |ToLines(text)| ==>
      r.parsedResults[0].lines[k].lineText == ToLines(text)[k] && r.parsedResults[0].lines[k].minTop == 20 * k
  {
    var nb := NonBlankLines(SplitOn(text, '\n'));
    var lines := seq(|nb|, k requires 0 <= k < |nb| => SyntheticLine(nb[k], k));
    OcrResult([ParsedResult(lines, text)])
  }

  /** The synthetic lines are the text's lines in order: when no line is blank
      or padded, joining the line texts with newlines gives the text back. */
  lemma ConvertRoundTrip(text: string)
    requires forall k :: 0 <= k < |SplitOn(text, '\n')| ==>
      SplitOn(text, '\n')[k] != "" && IsTrimmed(SplitOn(text, '\n')[k])
    ensures var lines := ConvertTextToOcrJson(text).parsedResults[0].lines;
      Join(seq(|lines|, k requires 0 <= k < |lines| => lines[k].lineText), "\n") == text
  {
    var parts := SplitOn(text, '\n');
    forall k | 0 <= k < |parts|
      ensures Trim(parts[k]) != ""
    {
      TrimOfTrimmed(parts[k]);
    }
    NonBlankLinesKeepsAll(parts);
    var lines := ConvertTextToOcrJson(text).parsedResults[0].lines;
    var texts := seq(|lines|, k requires 0 <= k < |lines| => lines[k].lineText);
    forall k | 0 <= k < |parts|
      ensures texts[k] == parts[k]
    {
      TrimOfTrimmed(parts[k]);
    }
    assert texts == parts;
    JoinSplitOn(text, '\n');
  }

  // ---------------------------------------------------------------------
  // Searching the overlay lines
  // ---------------------------------------------------------------------

  /** Index of the first line at or after `i` whose text passes `ok` (every
      `for ... break` over lines in the extractor). */
  function FirstLineFrom(ls: seq<Line>, ok: string -> bool, i: nat): (r: Option<nat>)
    requires i <= |ls|
    decreases |ls| - i
    ensures r.Some? ==> i <= r.value < |ls| && ok(ls[r.value].lineText)
    ensures r.Some? ==> forall k :: i <= k < r.value ==> !ok(ls[k].lineText)
    ensures r.None? <==> forall k :: i <= k < |ls| ==> !ok(ls[k].lineText)
  {
    if i == |ls| then None
    else if ok(ls[i].lineText) then Some(i)
    else FirstLineFrom(ls, ok, i + 1)
  }

  function FirstLine(ls: seq<Line>, ok: string -> bool): (r: Option<nat>)
    ensures r.Some? ==> r.value < |ls| && ok(ls[r.value].lineText)
    ensures r.Some? ==> forall k :: 0 <= k < r.value ==> !ok(ls[k].lineText)
    ensures r.None? <==> forall k :: 0 <= k < |ls| ==> !ok(ls[k].lineText)
  {
    FirstLineFrom(ls, ok, 0)
  }

  /** The three facts of `FirstLine` determine it. */
  lemma FirstLineIs(ls: seq<Line>, ok: string -> bool, r: Option<nat>)
    requires r.Some? ==> r.value < |ls| && ok(ls[r.value].lineText)
    requires r.Some? ==> forall k :: 0 <= k < r.value ==> !ok(ls[k].lineText)
    requires r.None? ==> forall k :: 0 <= k < |ls| ==> !ok(ls[k].lineText)
    ensures FirstLine(ls, ok) == r
  {
  }

  method FindFirstLine(ls: seq<Line>, ok: string -> bool) returns (r: Option<nat>)
    ensures r == FirstLine(ls, ok)
  {
    for k := 0 to |ls|
      invariant forall j :: 0 <= j < k ==> !ok(ls[j].lineText)
    {
      if ok(ls[k].lineText) {
        return Some(k);
      }
    }
    return None;
  }

  /** `s.toUpperCase().replace(/[-\s]/g, "")` */
  function KeyNorm(s: string): string {
    Filter(Upper(s), c => !DashOrSpace(c))
  }

  predicate HasKeyword(lineText: string, keywords: seq<string>) {
    exists k :: 0 <= k < |keywords| && Contains(KeyNorm(lineText), KeyNorm(keywords[k]))
  }

  /** Index of the first line containing one of the keywords, compared without
      case, dashes or whitespace. */
  function KeywordLine(lines: seq<Line>, keywords: seq<string>): Option<nat> {
    FirstLine(lines, (t: string) => HasKeyword(t, keywords))
  }

  /** The inner `keywords.some(...)` loop of `findLineByKeyword`. */
  method LineHasKeyword(lineText: string, keywords: seq<string>) returns (found: bool)
    ensures found == HasKeyword(lineText, keywords)
  {
    var normalized := KeyNorm(lineText);
    found := false;
    for k := 0 to |keywords|
      invariant found <==> exists m :: 0 <= m < k && Contains(normalized, KeyNorm(keywords[m]))
    {
      if Contains(normalized, KeyNorm(keywords[k])) {
        found := true;
      }
    }
  }

  /** `findLineByKeyword`: a line loop around a `keywords.some(...)` loop. */
  method FindLineByKeyword(lines: seq<Line>, keywords: seq<string>) returns (r: Option<nat>)
    ensures r == KeywordLine(lines, keywords)
  {
    for i := 0 to |lines|
      invariant forall j :: 0 <= j < i ==> !HasKeyword(lines[j].lineText, keywords)
    {
      var found := LineHasKeyword(lines[i].lineText, keywords);
      if found {
        FirstLineIs(lines, (t: string) => HasKeyword(t, keywords), Some(i));
        return Some(i);
      }
    }
    FirstLineIs(lines, (t: string) => HasKeyword(t, keywords), None);
    return None;
  }

  /** `lines.slice(from + 1, from + 1 + count)` */
  function NextLines(lines: seq<Line>, from: nat, count: nat): (r: seq<Line>)
    ensures |r| <= count
    ensures forall k :: 0 <= k < |r| ==> from + 1 + k < |lines| && r[k] == lines[from + 1 + k]
    ensures from + 1 + count <= |lines| ==> |r| == count
  {
    var lo := if from + 1 < |lines| then from + 1 else |lines|;
    var hi := if from + 1 + count < |lines| then from + 1 + count else |lines|;
    lines[lo..hi]
  }

  /** `lines.slice(0, n)` */
  function Head(lines: seq<Line>, n: nat): (r: seq<Line>)
    ensures |r| <= n && |r| <= |lines| && r == lines[..|r|]
    ensures |r| == n || |r| == |lines|
  {
    if n <= |lines| then lines[..n] else lines
  }

  /** The trimmed text of the first line of `ls` passing `ok`, or "". */
  function FirstTrimmed(ls: seq<Line>, ok: string -> bool): string {
    match FirstLine(ls, ok)
    case None => ""
    case Some(k) => Trim(ls[k].lineText)
  }

  /** A `for ... break` loop that keeps the first passing line, trimmed. */
  method FindFirstTrimmed(ls: seq<Line>, ok: string -> bool) returns (text: string)
    ensures text == FirstTrimmed(ls, ok)
  {
    var k := FindFirstLine(ls, ok);
    text := if k.Some? then Trim(ls[k.value].lineText) else "";
  }

  /** When every passing line is non-blank, nothing is found exactly when no
      line passes, and what is found is the trimmed text of a passing line. */
  lemma FirstTrimmedSpec(ls: seq<Line>, ok: string -> bool)
    requires forall t :: ok(t) ==> Trim(t) != ""
    ensures FirstTrimmed(ls, ok) == "" <==> forall k :: 0 <= k < |ls| ==> !ok(ls[k].lineText)
    ensures FirstTrimmed(ls, ok) != "" ==>
      exists k :: 0 <= k < |ls| && ok(ls[k].lineText) && FirstTrimmed(ls, ok) == Trim(ls[k].lineText)
  {
    match FirstLine(ls, ok)
    case None =>
    case Some(k) =>
      assert ok(ls[k].lineText);
  }

  /** What a window of `NextLines` yields is also found in the whole list. */
  lemma FirstTrimmedWindow(lines: seq<Line>, from: nat, count: nat, ok: string -> bool)
    requires forall t :: ok(t) ==> Trim(t) != ""
    ensures FirstTrimmed(NextLines(lines, from, count), ok) != "" ==>
      exists k :: from < k < |lines| && k <= from + count && ok(lines[k].lineText)
        && FirstTrimmed(NextLines(lines, from, count), ok) == Trim(lines[k].lineText)
  {
    var nl := NextLines(lines, from, count);
    FirstTrimmedSpec(nl, ok);
    if FirstTrimmed(nl, ok) != "" {
      var k :| 0 <= k < |nl| && ok(nl[k].lineText) && FirstTrimmed(nl, ok) == Trim(nl[k].lineText);
      assert nl[k] == lines[from + 1 + k];
    }
  }

  // ---------------------------------------------------------------------
  // Name (abordado)
  // ---------------------------------------------------------------------

  /** The letters of the mis-encoded classes `[A-Z√Ä-√ö]` and `[A-Z√Ä-√ú]`: A-Z,
      U+221A, the range U+00C4..U+221A and U+00F6 or U+00FA, all of which lie
      in that range. */
  predicate MangledLetter(c: char) {
    IsUpper(c) || ('\U{00C4}' <= c <= '\U{221A}')
  }

  /** `[A-Z√Ä-√ú\s]` */
  predicate NameClassChar(c: char) {
    MangledLetter(c) || IsSpace(c)
  }

  predicate AllNameClass(s: string) {
    |s| > 0 && forall i :: 0 <= i < |s| ==> NameClassChar(s[i])
  }

  /** The header terms that disqualify a name line. */
  const RejectTerms: seq<string> := [
    "REP\U{221A}\U{00F6}BLICA", "FEDERATIVA", "BRASIL",
    "MINIST\U{221A}\U{00E2}RIO", "INFRAESTRUTURA", "DEPARTAMENTO",
    "SECRETARIA", "NACIONAL", "TRANSITO",
    "CARTEIRA", "HABILITA\U{221A}\U{00E1}\U{221A}\U{00C9}O", "HABILITACAO",
    "DETRAN", "POLICIA", "SSP", "SESP",
    "REGISTRO", "DOCUMENTO", "IDENTIDADE",
    "VALIDADE", "EMISS\U{221A}\U{00C9}O", "EMISSAO",
    "NASCIMENTO", "FILIA\U{221A}\U{00E1}\U{221A}\U{00C9}O", "FILIACAO",
    "PERMISS\U{221A}\U{00C9}O", "PERMISSAO", "CATEGORIA",
    "CERTIFICADO", "LICENCIAMENTO", "VE\U{221A}\U{00E7}CULO", "VEICULO",
    "CODIGO", "RENAVAM", "PLACA", "EXERCICIO",
    "FABRICA\U{221A}\U{00E1}\U{221A}\U{00C9}O", "FABRICACAO", "MODELO",
    "NUMERO", "CRV"]

  /** A name line: trimmed and upper-cased it is letters and spaces only, has
      at least two words and six characters, and no header term. */
  predicate IsValidNameLine(lineText: string) {
    var text := Upper(Trim(lineText));
    AllNameClass(text) && |Words(text)| >= 2 && |text| >= 6 && !ContainsAny(text, RejectTerms)
  }

  lemma NameLineNotBlank()
    ensures forall t :: IsValidNameLine(t) ==> Trim(t) != ""
  {
    forall t | IsValidNameLine(t)
      ensures Trim(t) != ""
    {
      assert |Upper(Trim(t))| >= 6;
    }
  }

  const NameKeywords: seq<string> := ["NOME", "NAME"]

  function NameAfterKeyword(lines: seq<Line>): string {
    match KeywordLine(lines, NameKeywords)
    case None => ""
    case Some(i) => FirstTrimmed(NextLines(lines, i, 3), IsValidNameLine)
  }

  /** The name: from the three lines after NOME/NAME, else from the first ten lines. */
  function NameOf(lines: seq<Line>): string {
    OrElse(NameAfterKeyword(lines), FirstTrimmed(Head(lines, 10), IsValidNameLine))
  }

  /** The name is always the trimmed text of a name line of the input, and it
      is missing only when none of the first ten lines is a name line. */
  lemma NameOfIsNameLine(lines: seq<Line>)
    ensures NameOf(lines) != "" ==>
      exists k :: 0 <= k < |lines| && IsValidNameLine(lines[k].lineText) && NameOf(lines) == Trim(lines[k].lineText)
    ensures NameOf(lines) == "" ==> forall k :: 0 <= k < |lines| && k < 10 ==> !IsValidNameLine(lines[k].lineText)
  {
    KeywordNameLine(lines);
    HeadNameLine(lines);
  }

  /** The name found after NOME/NAME is a trimmed valid name line. */
  lemma KeywordNameLine(lines: seq<Line>)
    ensures var r := NameAfterKeyword(lines);
      r != "" ==> exists k :: 0 <= k < |lines| && IsValidNameLine(lines[k].lineText) && r == Trim(lines[k].lineText)
  {
    NameLineNotBlank();
    var kw := KeywordLine(lines, NameKeywords);
    if kw.Some? {
      FirstTrimmedWindow(lines, kw.value, 3, IsValidNameLine);
    }
  }

  /** The fallback over the first ten lines. */
  lemma HeadNameLine(lines: seq<Line>)
    ensures var r := FirstTrimmed(Head(lines, 10), IsValidNameLine);
      (r != "" ==> exists k :: 0 <= k < |lines| && IsValidNameLine(lines[k].lineText) && r == Trim(lines[k].lineText))
      && (r == "" ==> forall k :: 0 <= k < |lines| && k < 10 ==> !IsValidNameLine(lines[k].lineText))
  {
    NameLineNotBlank();
    var h := Head(lines, 10);
    FirstTrimmedSpec(h, IsValidNameLine);
    var r := FirstTrimmed(h, IsValidNameLine);
    if r != "" {
      var k :| 0 <= k < |h| && IsValidNameLine(h[k].lineText) && r == Trim(h[k].lineText);
      assert h[k] == lines[k];
    } else {
      forall k | 0 <= k < |lines| && k < 10
        ensures !IsValidNameLine(lines[k].lineText)
      {
        assert h[k] == lines[k];
      }
    }
  }

  method ExtractName(lines: seq<Line>) returns (nome: string)
    ensures nome == NameOf(lines)
  {
    nome := "";
    var nomeResult := FindLineByKeyword(lines, NameKeywords);
    if nomeResult.Some? {
      nome := FindFirstTrimmed(NextLines(lines, nomeResult.value, 3), IsValidNameLine);
    }
    if nome == "" {
      nome := FindFirstTrimmed(Head(lines, 10), IsValidNameLine);
    }
  }

  // ---------------------------------------------------------------------
  // Naturalidade
  // ---------------------------------------------------------------------

  const NaturalidadeKeywords: seq<string> := ["NATURALIDADE", "NATURAL DE", "LOCAL DE NASCIMENTO"]
  const DataLocalKeywords: seq<string> := ["DATA, LOCAL E UF"]

  /** Step 1 accepts a trimmed line longer than two characters without a date in it. */
  predicate IsPlaceLine(lineText: string) {
    var text := Trim(lineText);
    |text| > 2 && !HasDateShape(text)
  }

  function PlaceAfterKeyword(lines: seq<Line>): string {
    match KeywordLine(lines, NaturalidadeKeywords)
    case None => ""
    case Some(i) => FirstTrimmed(NextLines(lines, i, 2), IsPlaceLine)
  }

  /** `[A-Z√Ä-√ö]` under the `i` flag. The range U+00C4..U+221A holds some
      Unicode spaces (U+1680, U+2000..U+200A, U+2028, U+2029, U+202F, U+205F),
      so the class matches those too. */
  predicate CityLetterNoCase(c: char) {
    MangledLetter(c) || MangledLetter(UpperChar(c)) || MangledLetter(LowerChar(c))
  }

  predicate IsSlashOrDash(c: char) { c == '/' || c == '-' }

  /** `\d{2}\/\d{2}\/\d{4}\s+([A-Z√Ä-√ö]+)[\/-]([A-Z]{2})` (flag `i`) at `p`:
      the city and the state, when it matches there. The greedy `\s+` stops at
      `b`. Neither `/` nor `-` is a city letter, so the city can only end at
      the end `c` of the city-letter run. When no city letter follows the
      spaces (`c == b`), `\s+` gives back its last space, which the city
      group takes if it is one of the class's spaces; giving back more
      spaces cannot help, as the run from any earlier start ends at `c` too. */
  function DateCityAt(s: string, p: nat): (r: Option<(string, string)>)
    ensures r.Some? ==> r.value.0 != [] && |r.value.1| == 2
  {
    if !ShapeAt(s, p, DateShape) then None
    else
      var b := SkipWhile(s, p + 10, IsSpace);
      if b == p + 10 then None
      else
        var c := SkipWhile(s, b, CityLetterNoCase);
        var q := if c == b && b - 1 > p + 10 && CityLetterNoCase(s[b - 1]) then b - 1 else b;
        if c == q || c + 3 > |s| || !IsSlashOrDash(s[c]) || !IsLetter(s[c + 1]) || !IsLetter(s[c + 2]) then None
        else Some((s[q..c], s[c + 1..c + 3]))
  }

  /** `s.match(...)` for that pattern: the leftmost match. */
  function FirstDateCity(s: string): (r: Option<(string, string)>)
    ensures r.Some? ==> |r.value.1| == 2
  {
    match FirstIndex(0, |s| + 1, (p: nat) => DateCityAt(s, p).Some?)
    case None => None
    case Some(p) => DateCityAt(s, p)
  }

  predicate HasDateCity(lineText: string) { FirstDateCity(lineText).Some? }

  /** The city of a match consists of city letters. */
  lemma DateCityLetters(s: string, p: nat)
    requires DateCityAt(s, p).Some?
    ensures forall i :: 0 <= i < |DateCityAt(s, p).value.0| ==> CityLetterNoCase(DateCityAt(s, p).value.0[i])
  {
    var b := SkipWhile(s, p + 10, IsSpace);
    var c := SkipWhile(s, b, CityLetterNoCase);
    var q := if c == b && b - 1 > p + 10 && CityLetterNoCase(s[b - 1]) then b - 1 else b;
    assert DateCityAt(s, p).value.0 == s[q..c];
    forall i | q <= i < c
      ensures CityLetterNoCase(s[i])
    {
      if i < b {
        assert i == b - 1;
      }
    }
  }

  lemma DateShapeStart(s: string)
    requires |s| >= 10 && s[..10] == "01/01/2000"
    ensures ShapeAt(s, 0, DateShape)
  {
    assert forall k :: 0 <= k < 10 ==> s[k] == "01/01/2000"[k];
  }

  /** With a U+2000 space between the date and the slash, the city group is
      that space (the one-step giving back of `\s+`). */
  lemma DateCityBacktrack()
    ensures DateCityAt("01/01/2000 \U{2000}/SP", 0) == Some(("\U{2000}", "SP"))
  {
    var s := "01/01/2000 \U{2000}/SP";
    DateShapeStart(s);
    assert SkipWhile(s, 12, IsSpace) == 12;
    assert SkipWhile(s, 10, IsSpace) == 12;
    assert SkipWhile(s, 12, CityLetterNoCase) == 12;
    assert CityLetterNoCase(s[11]);
    assert |s| == 15 && IsSlashOrDash(s[12]) && IsLetter(s[13]) && IsLetter(s[14]);
    assert s[11..12] == "\U{2000}" && s[13..15] == "SP";
  }

  /** A city letter followed by a class space is taken with it. */
  lemma DateCityTrailingSpace()
    ensures DateCityAt("01/01/2000 X\U{2000}/SP", 0) == Some(("X\U{2000}", "SP"))
  {
    var s := "01/01/2000 X\U{2000}/SP";
    DateShapeStart(s);
    assert SkipWhile(s, 11, IsSpace) == 11;
    assert SkipWhile(s, 13, CityLetterNoCase) == 13;
    assert SkipWhile(s, 11, CityLetterNoCase) == 13;
    assert |s| == 16 && IsSlashOrDash(s[13]) && IsLetter(s[14]) && IsLetter(s[15]);
    assert s[11..13] == "X\U{2000}" && s[14..16] == "SP";
  }

  /** Stage 2 of `naturalidade`: a DATA, LOCAL E UF keyword, then the first
      of the next two lines with a date-and-city match decides. */
  lemma PlaceFromDateLineSpec(lines: seq<Line>)
    ensures KeywordLine(lines, DataLocalKeywords).None? ==> PlaceFromDateLine(lines) == ""
    ensures KeywordLine(lines, DataLocalKeywords).Some? ==>
      var nl := NextLines(lines, KeywordLine(lines, DataLocalKeywords).value, 2);
      (PlaceFromDateLine(lines) != "" <==> exists k :: 0 <= k < |nl| && HasDateCity(nl[k].lineText))
  {
    if KeywordLine(lines, DataLocalKeywords).Some? {
      var nl := NextLines(lines, KeywordLine(lines, DataLocalKeywords).value, 2);
      FirstLineNonEmpty(nl);
    }
  }

  /** The stage-2 value over the window `nl`: non-empty exactly when some
      line of the window has a date-and-city match. */
  lemma FirstLineNonEmpty(nl: seq<Line>)
    ensures (match FirstLine(nl, HasDateCity)
      case None => ""
      case Some(k) => var m := FirstDateCity(nl[k].lineText).value; Upper(m.0 + "/" + m.1)) != ""
      <==> exists k :: 0 <= k < |nl| && HasDateCity(nl[k].lineText)
  {
    match FirstLine(nl, HasDateCity)
    case None =>
    case Some(k) =>
      var m := FirstDateCity(nl[k].lineText).value;
      assert |Upper(m.0 + "/" + m.1)| > 0;
  }

  /** A stage-2 result is an upper-cased non-empty run of city letters, a
      slash or dash turned into `/`, and the state. */
  lemma PlaceFromDateLineCity(lines: seq<Line>)
    requires PlaceFromDateLine(lines) != ""
    ensures exists c, u ::
      c != [] && (forall i :: 0 <= i < |c| ==> CityLetterNoCase(c[i])) &&
      |u| == 2 && PlaceFromDateLine(lines) == Upper(c + "/" + u)
  {
    var i := KeywordLine(lines, DataLocalKeywords).value;
    var nl := NextLines(lines, i, 2);
    var k := FirstLine(nl, HasDateCity).value;
    var m := FirstDateCity(nl[k].lineText).value;
    FirstDateCityLetters(nl[k].lineText);
    assert PlaceFromDateLine(lines) == Upper(m.0 + "/" + m.1);
  }

  lemma FirstDateCityLetters(s: string)
    requires FirstDateCity(s).Some?
    ensures forall i :: 0 <= i < |FirstDateCity(s).value.0| ==> CityLetterNoCase(FirstDateCity(s).value.0[i])
  {
    match FirstIndex(0, |s| + 1, (p: nat) => DateCityAt(s, p).Some?)
    case Some(p) => DateCityLetters(s, p);
  }

  function PlaceFromDateLine(lines: seq<Line>): (r: string)
    ensures r != "" ==> exists c, u :: |u| == 2 && r == Upper(c + "/" + u)
  {
    match KeywordLine(lines, DataLocalKeywords)
    case None => ""
    case Some(i) =>
      var nl := NextLines(lines, i, 2);
      match FirstLine(nl, HasDateCity)
      case None => ""
      case Some(k) =>
        var m := FirstDateCity(nl[k].lineText).value;
        Upper(m.0 + "/" + m.1)
  }

  /** A match of `\b([A-Z√Ä-√ö\s]+)[\/-]\s*([A-Z]{2})\b`: the two groups and where it ends. */
  datatype CityHit = CityHit(city: string, uf: string, end: nat)

  predicate CityRunChar(c: char) { MangledLetter(c) || IsSpace(c) }

  function CityHitAt(s: string, p: nat): (r: Option<CityHit>)
    ensures r.Some? ==> p < r.value.end <= |s| && |r.value.uf| == 2
  {
    if !(p < |s| && CityRunChar(s[p]) && Boundary(s, p)) then None
    else
      var e := SkipWhile(s, p, CityRunChar);
      if e >= |s| || !IsSlashOrDash(s[e]) then None
      else
        var f := SkipWhile(s, e + 1, IsSpace);
        if f + 2 <= |s| && IsUpper(s[f]) && IsUpper(s[f + 1]) && Boundary(s, f + 2) then
          Some(CityHit(s[p..e], s[f..f + 2], f + 2))
        else None
  }

  /** `s.matchAll(...)` from `from`: each search resumes where the last match ended. */
  function CityHits(s: string, from: nat): (r: seq<CityHit>)
    requires from <= |s|
    decreases |s| - from
    ensures forall k :: 0 <= k < |r| ==> |r[k].uf| == 2
  {
    match FirstIndex(from, |s| + 1, (p: nat) => CityHitAt(s, p).Some?)
    case None => []
    case Some(p) =>
      var h := CityHitAt(s, p).value;
      [h] + CityHits(s, h.end)
  }

  const ForbiddenPlaceTerms: seq<string> := [
    "SENATRAN", "DETRAN", "DENATRAN", "DEPARTAMENTO", "SECRETARIA",
    "MINISTERIO", "MINIST\U{221A}\U{00E2}RIO", "INFRAESTRUTURA", "TRANSPORTES",
    "TRANSITO", "TR\U{221A}\U{00C7}NSITO", "NACIONAL", "FEDERAL", "ESTADUAL",
    "REPUBLICA", "REP\U{221A}\U{00F6}BLICA", "CARTEIRA", "HABILITA\U{221A}\U{00E1}\U{221A}\U{00C9}O", "HABILITACAO"]

  predicate AcceptableCity(h: CityHit) {
    var cityPart := Trim(h.city);
    !ContainsAny(Upper(cityPart), ForbiddenPlaceTerms) && 2 < |cityPart| < 30
  }

  function PlaceFromText(plainText: string): (r: string)
    ensures r != "" ==> exists c, u :: 2 < |c| < 30 && |u| == 2 && r == Upper(c + "/" + u)
  {
    var hits := CityHits(plainText, 0);
    match FirstFrom(hits, AcceptableCity, 0)
    case None => ""
    case Some(k) => Upper(Trim(hits[k].city) + "/" + hits[k].uf)
  }

  /** The three steps, each tried only when the previous one found nothing. */
  function NaturalidadeOf(lines: seq<Line>, plainText: string): string {
    OrElse(PlaceAfterKeyword(lines), OrElse(PlaceFromDateLine(lines), PlaceFromText(plainText)))
  }

  /** Any naturalidade found is the trimmed keyword-window line, or a
      `CITY/UF` string upper-cased, with a two-letter state. */
  lemma NaturalidadeShape(lines: seq<Line>, plainText: string)
    ensures var r := NaturalidadeOf(lines, plainText);
      r == "" || r == PlaceAfterKeyword(lines) || exists c, u :: |u| == 2 && r == Upper(c + "/" + u)
    ensures var r := NaturalidadeOf(lines, plainText);
      r == PlaceAfterKeyword(lines) && r != "" ==>
        exists k :: 0 <= k < |lines| && IsPlaceLine(lines[k].lineText) && r == Trim(lines[k].lineText)
  {
    match KeywordLine(lines, NaturalidadeKeywords)
    case None =>
    case Some(i) =>
      forall t | IsPlaceLine(t)
        ensures Trim(t) != ""
      {
      }
      FirstTrimmedWindow(lines, i, 2, IsPlaceLine);
  }

  method PlaceFromKeyword(lines: seq<Line>) returns (naturalidade: string)
    ensures naturalidade == PlaceAfterKeyword(lines)
  {
    naturalidade := "";
    var natResult := FindLineByKeyword(lines, NaturalidadeKeywords);
    if natResult.Some? {
      naturalidade := FindFirstTrimmed(NextLines(lines, natResult.value, 2), IsPlaceLine);
    }
  }

  method PlaceFromDataLocal(lines: seq<Line>) returns (naturalidade: string)
    ensures naturalidade == PlaceFromDateLine(lines)
  {
    naturalidade := "";
    var dataLocalResult := FindLineByKeyword(lines, DataLocalKeywords);
    if dataLocalResult.Some? {
      var nextLines := NextLines(lines, dataLocalResult.value, 2);
      var k := FindFirstLine(nextLines, HasDateCity);
      if k.Some? {
        var m := FirstDateCity(nextLines[k.value].lineText).value;
        naturalidade := Upper(m.0 + "/" + m.1);
      }
    }
  }

  method PlaceFromMatches(plainText: string) returns (naturalidade: string)
    ensures naturalidade == PlaceFromText(plainText)
  {
    naturalidade := "";
    var matches := CityHits(plainText, 0);
    var k := FindFirstFrom(matches, AcceptableCity, 0);
    if k.Some? {
      naturalidade := Upper(Trim(matches[k.value].city) + "/" + matches[k.value].uf);
    }
  }

  method ExtractNaturalidade(lines: seq<Line>, plainText: string) returns (naturalidade: string)
    ensures naturalidade == NaturalidadeOf(lines, plainText)
  {
    naturalidade := PlaceFromKeyword(lines);
    if naturalidade == "" {
      naturalidade := PlaceFromDataLocal(lines);
    }
    if naturalidade == "" {
      naturalidade := PlaceFromMatches(plainText);
    }
  }

  // ---------------------------------------------------------------------
  // Genitora (mother)
  // ---------------------------------------------------------------------

  const FiliacaoKeywords: seq<string> := ["FILIA\U{221A}\U{00E1}\U{221A}\U{00C9}O", "FILIACAO", "GENITORA", "M\U{221A}\U{00C9}E", "MAE"]

  /** The terms (matched without case) at which collection stops. */
  const MotherStopTerms: seq<string> := [
    "PERMISS\U{221A}\U{00C9}O", "PERMISSAO", "REGISTRO", "VALIDADE", "CATEGORIA", "RENAVAM",
    "ASSINATURA", "OBSERVA\U{221A}\U{00E1}\U{221A}\U{00C9}O", "LOCAL", "CPF", "ACC"]

  predicate IsMotherStop(text: string) { ContainsAnyNoCase(text, MotherStopTerms) }

  /** A collected line: longer than two characters, letters and spaces only. */
  predicate IsMotherLine(text: string) { |text| > 2 && AllNameClass(text) }

  /** The trimmed texts of the lines. */
  function TrimmedTexts(ls: seq<Line>): (r: seq<string>)
    ensures |r| == |ls| && forall k :: 0 <= k < |ls| ==> r[k] == Trim(ls[k].lineText)
  {
    seq(|ls|, k requires 0 <= k < |ls| => Trim(ls[k].lineText))
  }

  function Same(t: string): string { t }

  /** `validLines`: the trimmed name lines of `ls` before its first stop line. */
  function CollectMother(ls: seq<Line>): (v: seq<string>)
  {
    CollectUntil(TrimmedTexts(ls), IsMotherStop, IsMotherLine, Same)
  }

  /** Every collected line is a trimmed name line of `ls` that comes before
      any stop line, and nothing from a stop line on is collected. */
  lemma CollectMotherLines(ls: seq<Line>)
    ensures forall m :: 0 <= m < |CollectMother(ls)| ==>
      IsMotherLine(CollectMother(ls)[m]) && IsTrimmed(CollectMother(ls)[m])
    ensures forall k :: 0 <= k < |ls| && IsMotherStop(Trim(ls[k].lineText)) ==>
      CollectMother(ls) == CollectUntil(TrimmedTexts(ls)[..k], IsMotherStop, IsMotherLine, Same)
  {
    var ts := TrimmedTexts(ls);
    CollectUntilKept(ts, IsMotherStop, IsMotherLine, Same);
    forall k | 0 <= k < |ls| && IsMotherStop(Trim(ls[k].lineText))
      ensures CollectMother(ls) == CollectUntil(ts[..k], IsMotherStop, IsMotherLine, Same)
    {
      CollectUntilStops(ts, IsMotherStop, IsMotherLine, Same, k);
    }
  }

  method CollectValidLines(ls: seq<Line>) returns (validLines: seq<string>)
    ensures validLines == CollectMother(ls)
  {
    var texts := TrimmedTexts(ls);
    validLines := CollectWhile(texts, 0, |texts|, IsMotherStop, IsMotherLine, Same);
    assert texts[0..Min(|texts|, |texts|)] == texts;
  }

  predicate MultiWord(line: string) { |SplitSpaces(line)| >= 2 }

  /** Where the mother's lines begin among three or more collected lines. */
  function MotherStart(v: seq<string>): (i: nat)
    requires |v| >= 3
    ensures 1 <= i < |v|
  {
    var start := if MultiWord(v[0]) then FirstFrom(v, MultiWord, 1) else None;
    match start
    case Some(i) => i
    case None => |v| / 2
  }

  /** The mother's name picked from the collected lines. */
  function ChooseMother(v: seq<string>): string {
    if |v| == 0 then ""
    else if |v| == 1 then v[0]
    else if |v| == 2 then v[1]
    else Trim(Join(v[MotherStart(v)..], " "))
  }

  /** One line is taken as the mother's; from two lines on, the first (the
      father's) never is: the result joins a suffix starting at line 1 or later. */
  lemma ChooseMotherSuffix(v: seq<string>)
    requires forall k :: 0 <= k < |v| ==> IsTrimmed(v[k])
    ensures |v| == 0 ==> ChooseMother(v) == ""
    ensures |v| == 1 ==> ChooseMother(v) == v[0]
    ensures |v| >= 2 ==> exists i :: 1 <= i < |v| && ChooseMother(v) == Trim(Join(v[i..], " "))
  {
    if |v| == 2 {
      assert v[1..] == [v[1]];
      assert Join(v[1..], " ") == v[1];
      TrimOfTrimmed(v[1]);
    } else if |v| >= 3 {
      var i := MotherStart(v);
      assert ChooseMother(v) == Trim(Join(v[i..], " "));
    }
  }

  method ChooseMotherLine(validLines: seq<string>) returns (genitora: string)
    ensures genitora == ChooseMother(validLines)
  {
    if |validLines| == 0 {
      genitora := "";
    } else if |validLines| == 1 {
      genitora := validLines[0];
    } else if |validLines| == 2 {
      genitora := validLines[1];
    } else {
      var motherStartIndex := -1;
      if MultiWord(validLines[0]) {
        var start := FindFirstFrom(validLines, MultiWord, 1);
        if start.Some? {
          motherStartIndex := start.value;
        }
      }
      if motherStartIndex == -1 {
        genitora := Trim(Join(validLines[|validLines| / 2..], " "));
      } else {
        genitora := Trim(Join(validLines[motherStartIndex..], " "));
      }
    }
  }

  function MotherOf(lines: seq<Line>): string {
    match KeywordLine(lines, FiliacaoKeywords)
    case None => ""
    case Some(i) => ChooseMother(CollectMother(NextLines(lines, i, 12)))
  }

  method ExtractMother(lines: seq<Line>) returns (genitora: string)
    ensures genitora == MotherOf(lines)
  {
    genitora := "";
    var filiacaoResult := FindLineByKeyword(lines, FiliacaoKeywords);
    if filiacaoResult.Some? {
      var validLines := CollectValidLines(NextLines(lines, filiacaoResult.value, 12));
      genitora := ChooseMotherLine(validLines);
    }
  }

  predicate NameChars(s: string) {
    forall i :: 0 <= i < |s| ==> NameClassChar(s[i])
  }

  lemma {:induction false} JoinNameChars(v: seq<string>)
    requires forall k :: 0 <= k < |v| ==> NameChars(v[k])
    ensures NameChars(Join(v, " "))
  {
    if |v| > 1 {
      JoinNameChars(v[1..]);
      var rest := Join(v[1..], " ");
      assert Join(v, " ") == v[0] + " " + rest;
      forall i | 0 <= i < |Join(v, " ")|
        ensures NameClassChar(Join(v, " ")[i])
      {
        if i < |v[0]| {
          assert Join(v, " ")[i] == v[0][i];
        } else if i > |v[0]| {
          assert Join(v, " ")[i] == rest[i - |v[0]| - 1];
        }
      }
    }
  }

  /** A choice among name-class lines is made of name-class characters. */
  lemma ChooseMotherNameChars(v: seq<string>)
    requires forall k :: 0 <= k < |v| ==> NameChars(v[k])
    ensures NameChars(ChooseMother(v))
  {
    if |v| >= 3 {
      var tail := v[MotherStart(v)..];
      forall k | 0 <= k < |tail|
        ensures NameChars(tail[k])
      {
        assert tail[k] == v[MotherStart(v) + k];
      }
      JoinNameChars(tail);
      var j := Join(tail, " ");
      assert Trim(j) == j[LeadingSpaces(j)..LeadingSpaces(j) + |Trim(j)|];
    }
  }

  /** The mother's name is made of the letters and spaces of `[A-Z√Ä-√ú\s]` only. */
  lemma MotherOfNameChars(lines: seq<Line>)
    ensures NameChars(MotherOf(lines))
  {
    match KeywordLine(lines, FiliacaoKeywords)
    case None =>
    case Some(i) =>
      var nl := NextLines(lines, i, 12);
      CollectMotherLines(nl);
      var v := CollectMother(nl);
      forall k | 0 <= k < |v|
        ensures NameChars(v[k])
      {
        assert IsMotherLine(v[k]);
      }
      ChooseMotherNameChars(v);
  }

  // ---------------------------------------------------------------------
  // CPF
  // ---------------------------------------------------------------------

  const CpfKeywords: seq<string> := ["CPF", "TAX ID"]

  predicate HasElevenDigits(lineText: string) { |DigitsOnly(lineText)| == 11 }

  function CpfFromKeyword(lines: seq<Line>): string {
    match KeywordLine(lines, CpfKeywords)
    case None => ""
    case Some(i) =>
      var nl := NextLines(lines, i, 2);
      match FirstLine(nl, HasElevenDigits)
      case None => ""
      case Some(k) => CpfTemplate(DigitsOnly(nl[k].lineText))
  }

  /** The whole-text fallback: the first loosely written CPF, reformatted. */
  function CpfFromText(plainText: string): string {
    match FirstCpfToken(plainText)
    case None => ""
    case Some(t) => if |DigitsOnly(t)| == 11 then CpfTemplate(DigitsOnly(t)) else ""
  }

  function CpfOf(lines: seq<Line>, plainText: string): string {
    OrElse(CpfFromKeyword(lines), CpfFromText(plainText))
  }

  lemma CpfFromKeywordShape(lines: seq<Line>)
    ensures var r := CpfFromKeyword(lines);
      r != "" ==> IsShape(r, DottedCpfShape) && |DigitsOnly(r)| == 11
  {
    match KeywordLine(lines, CpfKeywords)
    case None =>
    case Some(i) =>
      var nl := NextLines(lines, i, 2);
      match FirstLine(nl, HasElevenDigits)
      case None =>
      case Some(k) =>
        CpfTemplateShape(DigitsOnly(nl[k].lineText));
  }

  lemma CpfFromTextShape(plainText: string)
    ensures var r := CpfFromText(plainText);
      r != "" ==> IsShape(r, DottedCpfShape) && |DigitsOnly(r)| == 11
  {
    match FirstCpfToken(plainText)
    case None =>
    case Some(t) =>
      if |DigitsOnly(t)| == 11 {
        CpfTemplateShape(DigitsOnly(t));
      }
  }

  /** A resolved CPF is always `xxx.xxx.xxx-xx`, built from eleven digits. */
  lemma CpfOfShape(lines: seq<Line>, plainText: string)
    ensures var r := CpfOf(lines, plainText);
      r != "" ==> IsShape(r, DottedCpfShape) && |DigitsOnly(r)| == 11
  {
    CpfFromKeywordShape(lines);
    CpfFromTextShape(plainText);
  }

  /** The digit-count test of the fallback never fails: every token the loose
      pattern matches has eleven digits. */
  lemma CpfFromTextFindsToken(plainText: string)
    ensures CpfFromText(plainText) != "" <==> FirstCpfToken(plainText).Some?
  {
    if FirstCpfToken(plainText).Some? {
      FirstCpfTokenDigits(plainText);
    }
  }

  method ExtractCpf(lines: seq<Line>, plainText: string) returns (cpf: string)
    ensures cpf == CpfOf(lines, plainText)
  {
    cpf := "";
    var cpfResult := FindLineByKeyword(lines, CpfKeywords);
    if cpfResult.Some? {
      var nextLines := NextLines(lines, cpfResult.value, 2);
      var k := FindFirstLine(nextLines, HasElevenDigits);
      if k.Some? {
        cpf := CpfTemplate(DigitsOnly(nextLines[k.value].lineText));
      }
    }
    if cpf == "" {
      var cpfMatch := FirstCpfToken(plainText);
      if cpfMatch.Some? {
        var digits := DigitsOnly(cpfMatch.value);
        if |digits| == 11 {
          cpf := CpfTemplate(digits);
        }
      }
    }
  }

  // ---------------------------------------------------------------------
  // Date of birth (dn)
  // ---------------------------------------------------------------------

  const NascKeywords: seq<string> := ["NASC", "NASCIMENTO", "DATA NASCIMENTO"]

  predicate HasDateToken(lineText: string) { FirstDateToken(lineText).Some? }

  function DnFromKeyword(lines: seq<Line>): string {
    match KeywordLine(lines, NascKeywords)
    case None => ""
    case Some(i) =>
      var nl := NextLines(lines, i, 3);
      match FirstLine(nl, HasDateToken)
      case None => ""
      case Some(k) => FirstDateToken(nl[k].lineText).value
  }

  function DateTokenOrEmpty(s: string): string {
    match FirstDateToken(s)
    case None => ""
    case Some(d) => d
  }

  function DnOf(lines: seq<Line>, plainText: string): string {
    OrElse(DnFromKeyword(lines), DateTokenOrEmpty(plainText))
  }

  /** A resolved date of birth always has the `DD/MM/YYYY` shape. */
  lemma DnOfShape(lines: seq<Line>, plainText: string)
    ensures var r := DnOf(lines, plainText); r != "" ==> IsShape(r, DateShape)
  {
  }

  /** No calendar check: without a NASC line, a text that is just a
      date-shaped token yields it, whether or not it is a real date. */
  lemma DnTakesAnyDateShape(lines: seq<Line>, d: string)
    requires KeywordLine(lines, NascKeywords).None?
    requires IsShape(d, DateShape)
    ensures DnOf(lines, d) == d
  {
    assert ClsMatch(DateShape[0], d[0]) && ClsMatch(DateShape[9], d[9]);
    assert DateTokenAt(d, 0);
    assert d[0..10] == d;
  }

  /** So `DateString(31, 4, 2024)`, "31/04/2024", which `validateData`
      rejects, is accepted as a birth date. */
  lemma DnAcceptsInvalidDate(lines: seq<Line>)
    requires KeywordLine(lines, NascKeywords).None?
    ensures var d := BrazilianValidators.DateString(31, 4, 2024);
      DnOf(lines, d) == d && !BrazilianValidators.IsValidDate(d)
  {
    DnTakesAnyDateShape(lines, BrazilianValidators.DateString(31, 4, 2024));
    BrazilianValidators.DateStringValid(31, 4, 2024);
  }

  method ExtractDn(lines: seq<Line>, plainText: string) returns (dn: string)
    ensures dn == DnOf(lines, plainText)
  {
    dn := "";
    var nascResult := FindLineByKeyword(lines, NascKeywords);
    if nascResult.Some? {
      var nextLines := NextLines(lines, nascResult.value, 3);
      var k := FindFirstLine(nextLines, HasDateToken);
      if k.Some? {
        dn := FirstDateToken(nextLines[k.value].lineText).value;
      }
    }
    if dn == "" {
      var dateMatch := FirstDateToken(plainText);
      if dateMatch.Some? {
        dn := dateMatch.value;
      }
    }
  }

  // ---------------------------------------------------------------------
  // Plate (placa)
  // ---------------------------------------------------------------------

  const PlacaKeywords: seq<string> := ["PLACA"]

  /** The first plate token of a line with its whitespace removed. */
  predicate HasPlateToken(lineText: string) { FirstPlateToken(StripSpaces(lineText)).Some? }

  function PlateIn(ls: seq<Line>): string {
    match FirstLine(ls, HasPlateToken)
    case None => ""
    case Some(k) => FirstPlateToken(StripSpaces(ls[k].lineText)).value
  }

  function PlacaOf(lines: seq<Line>): string {
    var fromKeyword :=
      match KeywordLine(lines, PlacaKeywords)
      case None => ""
      case Some(i) => PlateIn(NextLines(lines, i, 2));
    OrElse(fromKeyword, PlateIn(lines))
  }

  /** A resolved plate is LLLDDDD or LLLDLDD, and therefore passes `validatePlaca`. */
  lemma PlacaOfValid(lines: seq<Line>)
    ensures var r := PlacaOf(lines);
      r != "" ==> IsPlateShape(r) && BrazilianValidators.IsValidPlaca(r)
  {
    if PlacaOf(lines) != "" {
      BrazilianValidators.PlateShapeIsValid(PlacaOf(lines));
    }
  }

  /** No plate comes out of some lines exactly when none holds a plate token. */
  lemma PlateInEmpty(ls: seq<Line>)
    ensures PlateIn(ls) == "" <==> forall k :: 0 <= k < |ls| ==> !HasPlateToken(ls[k].lineText)
  {
    var k := FirstLine(ls, HasPlateToken);
    if k.Some? {
      PlateTokenTrimmed(FirstPlateToken(StripSpaces(ls[k.value].lineText)).value);
    }
  }

  /** A plate is missing only when no line holds a plate token. */
  lemma PlacaOfMissing(lines: seq<Line>)
    ensures PlacaOf(lines) == "" <==> forall k :: 0 <= k < |lines| ==> !HasPlateToken(lines[k].lineText)
  {
    PlateInEmpty(lines);
    var i := KeywordLine(lines, PlacaKeywords);
    if i.Some? {
      var nl := NextLines(lines, i.value, 2);
      PlateInEmpty(nl);
      if PlateIn(nl) != "" {
        var k :| 0 <= k < |nl| && HasPlateToken(nl[k].lineText);
        assert nl[k] == lines[i.value + 1 + k];
      }
    }
  }

  method FindPlate(ls: seq<Line>) returns (placa: string)
    ensures placa == PlateIn(ls)
  {
    placa := "";
    var k := FindFirstLine(ls, HasPlateToken);
    if k.Some? {
      placa := FirstPlateToken(StripSpaces(ls[k.value].lineText)).value;
    }
  }

  method ExtractPlaca(lines: seq<Line>) returns (placa: string)
    ensures placa == PlacaOf(lines)
  {
    placa := "";
    var placaResult := FindLineByKeyword(lines, PlacaKeywords);
    if placaResult.Some? {
      placa := FindPlate(NextLines(lines, placaResult.value, 2));
    }
    if placa == "" {
      placa := FindPlate(lines);
    }
  }

  // ---------------------------------------------------------------------
  // Defaults and the updateField calls
  // ---------------------------------------------------------------------

  /** The vehicle test: a plate other than blank or the placeholder. */
  predicate PlateResolved(placa: string) {
    placa != "" && placa != Placeholder && Trim(placa) != ""
  }

  /** Defaults for unresolved fields, the six field updates, then the two flags. */
  function FinishRun(nome: string, naturalidade: string, genitora: string, cpf: string, dn: string, placa: string): seq<Update> {
    var p := OrElse(placa, Placeholder);
    FieldUpdates(OrElse(nome, Placeholder), OrElse(naturalidade, NaturalidadePlaceholder), OrElse(genitora, Placeholder),
                 OrElse(cpf, Placeholder), OrElse(dn, Placeholder), p)
    + VehicleFlags(PlateResolved(p))
  }

  /** A completed run writes the six data fields in order, each unresolved one
      as its placeholder, then two complementary flags that are true/false
      exactly when the plate is resolved. */
  lemma FinishRunShape(nome: string, naturalidade: string, genitora: string, cpf: string, dn: string, placa: string)
    requires placa == "" || (|placa| == 7 && IsTrimmed(placa))
    ensures var u := FinishRun(nome, naturalidade, genitora, cpf, dn, placa);
      |u| == 8 && (forall k :: 0 <= k < 6 ==> u[k].field == DataFields[k])
      && u[6].field == "veiculoCheck" && u[7].field == "naoAplicaVeiculo"
      && u[6].value == Flag(placa != "") && u[7].value == Flag(placa == "")
    ensures var u := FinishRun(nome, naturalidade, genitora, cpf, dn, placa);
      u[0].value == Str(OrElse(nome, Placeholder)) && u[1].value == Str(OrElse(naturalidade, NaturalidadePlaceholder))
      && u[2].value == Str(OrElse(genitora, Placeholder)) && u[3].value == Str(OrElse(cpf, Placeholder))
      && u[4].value == Str(OrElse(dn, Placeholder)) && u[5].value == Str(OrElse(placa, Placeholder))
  {
    if placa != "" {
      assert |Placeholder| == 15;
      TrimOfTrimmed(placa);
    }
  }

  lemma PlateTokenTrimmed(t: string)
    requires IsPlateShape(t)
    ensures |t| == 7 && IsTrimmed(t)
  {
    BrazilianValidators.PlateStartsWithLetters(t);
    if IsShape(t, LegacyPlateShape) {
      assert ClsMatch(LegacyPlateShape[6], t[6]);
    } else {
      assert ClsMatch(MercosulPlateShape[6], t[6]);
    }
  }

  /** The JSON path's fields, from the overlay lines and the plain text. */
  function JsonRun(lines: seq<Line>, plainText: string): seq<Update> {
    FinishRun(NameOf(lines), NaturalidadeOf(lines, plainText), MotherOf(lines), CpfOf(lines, plainText),
              DnOf(lines, plainText), PlacaOf(lines))
  }

  /** On the JSON path `veiculoCheck` is true, and `naoAplicaVeiculo` false,
      exactly when some line carries a plate. */
  lemma JsonRunFlags(lines: seq<Line>, plainText: string)
    ensures var u := JsonRun(lines, plainText);
      |u| == 8 && u[6] == Update("veiculoCheck", Flag(PlacaOf(lines) != ""))
      && u[7] == Update("naoAplicaVeiculo", Flag(PlacaOf(lines) == ""))
    ensures PlacaOf(lines) != "" <==> exists k :: 0 <= k < |lines| && HasPlateToken(lines[k].lineText)
  {
    PlacaOfValid(lines);
    PlacaOfMissing(lines);
    if PlacaOf(lines) != "" {
      PlateTokenTrimmed(PlacaOf(lines));
    }
    FinishRunShape(NameOf(lines), NaturalidadeOf(lines, plainText), MotherOf(lines), CpfOf(lines, plainText),
                   DnOf(lines, plainText), PlacaOf(lines));
  }

  // ---------------------------------------------------------------------
  // extractFromText: one pass over the upper-cased lines
  // ---------------------------------------------------------------------

  /** `toLines(text).map(UPPER)` */
  function Linhas(text: string): (r: seq<string>)
    ensures |r| == |ToLines(text)|
    ensures forall k :: 0 <= k < |r| ==> r[k] == Upper(ToLines(text)[k]) && r[k] != ""
  {
    var ls := ToLines(text);
    seq(|ls|, k requires 0 <= k < |ls| => Upper(ls[k]))
  }

  const HabilitacaoTerm: string := "HABILITA\U{221A}\U{00E1}\U{221A}\U{00C9}O"

  /** A name candidate: two or more pieces split on " ", no HABILITAÇÃO, no digit. */
  predicate IsNameCandidate(c: string) {
    |SplitOn(c, ' ')| >= 2 && !Contains(c, HabilitacaoTerm) && !HasDigit(c)
  }

  function NomeAttempt(linhas: seq<string>, i: nat): string
    requires i < |linhas|
  {
    var linha := linhas[i];
    if !(Contains(linha, "NOME") || Contains(linha, "NAME")) then ""
    else
      var candidatos := linhas[i + 1..Min(i + 3, |linhas|)];
      match FirstFrom(candidatos, IsNameCandidate, 0)
      case None => ""
      case Some(k) => NormalizeSpaces(candidatos[k])
  }

  const NaturalidadeTerms: seq<string> := ["NATURALIDADE", "NATURAL DE", "LOCAL DE NASCIMENTO"]

  function NaturalidadeAttempt(linhas: seq<string>, i: nat): string
    requires i < |linhas|
  {
    if ContainsAny(linhas[i], NaturalidadeTerms) && i + 1 < |linhas|
       && |linhas[i + 1]| > 2 && !HasDigit(linhas[i + 1])
    then NormalizeSpaces(linhas[i + 1])
    else ""
  }

  /** `/FILIA√á√ÉO|GENITORA|MAE|M√ÉE/` */
  const MaeTerms: seq<string> := ["FILIA\U{221A}\U{00E1}\U{221A}\U{00C9}O", "GENITORA", "MAE", "M\U{221A}\U{00C9}E"]

  const StopWordsMae: seq<string> := [
    "PERMISS\U{221A}\U{00C9}O", "ACC", "REGISTRO", "VALIDADE", "CATEGORIA", "RENAVAM", "PLACA",
    "HABILITA\U{221A}\U{00E1}\U{221A}\U{00C9}O", "NACIONAL", "EXERC\U{221A}\U{00E7}CIO", "ASSINATURA", "DETRAN", "MARCA",
    "MODELO", "VERS\U{221A}\U{00C9}O", "CHASSI", "COMBUST\U{221A}\U{00E7}VEL", "COR", "C\U{221A}\U{00EC}DIGO",
    "ESP\U{221A}\U{00E2}CIE", "TIPO", "LOCAL"]

  /** `/\d{2,}/`: two consecutive digits. */
  predicate HasDigitRun(c: string) {
    exists k :: 0 <= k < |c| - 1 && IsDigit(c[k]) && IsDigit(c[k + 1])
  }

  predicate MaeStop(c: string) {
    |c| <= 2 || HasDigitRun(c) || ContainsAny(c, StopWordsMae)
  }

  /** `isAllCaps`: `^[A-Z√Ä-√ú\s./-]+$` */
  predicate IsAllCaps(c: string) {
    |c| > 0 && forall k :: 0 <= k < |c| ==> NameClassChar(c[k]) || c[k] == '.' || c[k] == '/' || c[k] == '-'
  }

  predicate MaeKeep(c: string) {
    IsAllCaps(c) && |c| > 3 && |SplitSpaces(c)| >= 2
  }

  /** `linhas.map(l => l.trim())` (the loop trims each line it reads). */
  function TrimAll(ls: seq<string>): (r: seq<string>)
    ensures |r| == |ls| && forall k :: 0 <= k < |ls| ==> r[k] == Trim(ls[k])
  {
    seq(|ls|, k requires 0 <= k < |ls| => Trim(ls[k]))
  }

  /** `possibleNames`: up to ten lines after `i`, stopping at a stop line. */
  function PossibleNames(linhas: seq<string>, i: nat): seq<string>
    requires i < |linhas|
  {
    var ts := TrimAll(linhas);
    CollectUntil(ts[i + 1..Min(i + 1 + 10, |ts|)], MaeStop, MaeKeep, NormalizeSpaces)
  }

  /** With two or more candidates the mother is the second, extended by the
      third when the first words of the first and third differ. */
  function ChooseMae(names: seq<string>): (r: string)
    ensures |names| < 2 ==> r == ""
    ensures |names| >= 2 ==> r == names[1] || (|names| > 2 && r == NormalizeSpaces(names[1] + " " + names[2]))
    ensures |names| > 2 && FirstField(names[0]) != FirstField(names[2]) ==> r == NormalizeSpaces(names[1] + " " + names[2])
    ensures |names| >= 2 && !(|names| > 2 && FirstField(names[0]) != FirstField(names[2])) ==> r == names[1]
  {
    if |names| < 2 then ""
    else if |names| > 2 && FirstField(names[0]) != FirstField(names[2]) then NormalizeSpaces(names[1] + " " + names[2])
    else names[1]
  }

  function MaeAttempt(linhas: seq<string>, i: nat): string
    requires i < |linhas|
  {
    if !ContainsAny(linhas[i], MaeTerms) then "" else ChooseMae(PossibleNames(linhas, i))
  }

  function CpfAttempt(linhas: seq<string>, i: nat): string
    requires i < |linhas|
  {
    var linha := linhas[i];
    if !(Contains(linha, "CPF") || Contains(linha, "TAX ID")) || i + 1 >= |linhas| then ""
    else
      var candidato := DigitsOnly(linhas[i + 1]);
      if |candidato| == 11 then CpfTemplate(candidato) else ""
  }

  function DnAttempt(linhas: seq<string>, i: nat): string
    requires i < |linhas|
  {
    if !Contains(linhas[i], "NASC") then ""
    else DateTokenOrEmpty(Join(linhas[i..Min(i + 4, |linhas|)], " "))
  }

  function PlacaAttempt(linhas: seq<string>, i: nat): string
    requires i < |linhas|
  {
    match FirstPlateToken(StripSpaces(linhas[i]))
    case None => ""
    case Some(m) => m
  }

  // The pass over the lines: per field, what the loop body at line `i`
  // would set it to ("" past the last line). A field is written by the
  // first line whose rule gives it a value, and kept (`Text.WriteOnce`).

  function NomeAttempts(linhas: seq<string>): nat -> string {
    (i: nat) => if i < |linhas| then NomeAttempt(linhas, i) else ""
  }

  function NaturalidadeAttempts(linhas: seq<string>): nat -> string {
    (i: nat) => if i < |linhas| then NaturalidadeAttempt(linhas, i) else ""
  }

  function MaeAttempts(linhas: seq<string>): nat -> string {
    (i: nat) => if i < |linhas| then MaeAttempt(linhas, i) else ""
  }

  function CpfAttempts(linhas: seq<string>): nat -> string {
    (i: nat) => if i < |linhas| then CpfAttempt(linhas, i) else ""
  }

  function DnAttempts(linhas: seq<string>): nat -> string {
    (i: nat) => if i < |linhas| then DnAttempt(linhas, i) else ""
  }

  function PlacaAttempts(linhas: seq<string>): nat -> string {
    (i: nat) => if i < |linhas| then PlacaAttempt(linhas, i) else ""
  }

  lemma CpfAttemptShape(linhas: seq<string>, i: nat)
    requires i < |linhas|
    ensures var r := CpfAttempt(linhas, i); r != "" ==> IsShape(r, DottedCpfShape) && |DigitsOnly(r)| == 11
  {
    if CpfAttempt(linhas, i) != "" {
      CpfTemplateShape(DigitsOnly(linhas[i + 1]));
    }
  }

  /** On the text path too, a resolved CPF is `xxx.xxx.xxx-xx` from eleven digits. */
  lemma CpfScanShape(linhas: seq<string>)
    ensures var r := WriteOnce(CpfAttempts(linhas), |linhas|); r != "" ==> IsShape(r, DottedCpfShape) && |DigitsOnly(r)| == 11
  {
    var r := WriteOnce(CpfAttempts(linhas), |linhas|);
    WriteOnceFirstHit(CpfAttempts(linhas), |linhas|);
    if r != "" {
      var i :| 0 <= i < |linhas| && r == CpfAttempts(linhas)(i);
      CpfAttemptShape(linhas, i);
    }
  }

  /** A date of birth found on the text path has the date shape. */
  lemma DnScanShape(linhas: seq<string>)
    ensures var r := WriteOnce(DnAttempts(linhas), |linhas|); r != "" ==> IsShape(r, DateShape)
  {
    var r := WriteOnce(DnAttempts(linhas), |linhas|);
    WriteOnceFirstHit(DnAttempts(linhas), |linhas|);
    if r != "" {
      var i :| 0 <= i < |linhas| && r == DnAttempts(linhas)(i);
      assert r == DnAttempt(linhas, i);
    }
  }

  /** A plate found on the text path is seven trimmed characters in one of
      the two layouts, and passes `validatePlaca`. */
  lemma PlacaScanShape(linhas: seq<string>)
    ensures var r := WriteOnce(PlacaAttempts(linhas), |linhas|);
      r != "" ==> IsPlateShape(r) && |r| == 7 && IsTrimmed(r) && BrazilianValidators.IsValidPlaca(r)
  {
    var r := WriteOnce(PlacaAttempts(linhas), |linhas|);
    WriteOnceFirstHit(PlacaAttempts(linhas), |linhas|);
    if r != "" {
      var i :| 0 <= i < |linhas| && r == PlacaAttempts(linhas)(i);
      assert r == PlacaAttempt(linhas, i);
      PlateTokenTrimmed(r);
      BrazilianValidators.PlateShapeIsValid(r);
    }
  }

  function TextRun(text: string): seq<Update> {
    var linhas := Linhas(text);
    var n := |linhas|;
    FinishRun(WriteOnce(NomeAttempts(linhas), n), WriteOnce(NaturalidadeAttempts(linhas), n), WriteOnce(MaeAttempts(linhas), n),
              WriteOnce(CpfAttempts(linhas), n), WriteOnce(DnAttempts(linhas), n), WriteOnce(PlacaAttempts(linhas), n))
  }

  /** The text path also ends with the six fields and two flags that follow
      whether a plate was found. */
  lemma TextRunFlags(text: string)
    ensures var linhas := Linhas(text); var u := TextRun(text);
      |u| == 8 && (forall k :: 0 <= k < 6 ==> u[k].field == DataFields[k])
      && u[6] == Update("veiculoCheck", Flag(WriteOnce(PlacaAttempts(linhas), |linhas|) != ""))
      && u[7] == Update("naoAplicaVeiculo", Flag(WriteOnce(PlacaAttempts(linhas), |linhas|) == ""))
  {
    var linhas := Linhas(text);
    var n := |linhas|;
    PlacaScanShape(linhas);
    FinishRunShape(WriteOnce(NomeAttempts(linhas), n), WriteOnce(NaturalidadeAttempts(linhas), n), WriteOnce(MaeAttempts(linhas), n),
                   WriteOnce(CpfAttempts(linhas), n), WriteOnce(DnAttempts(linhas), n), WriteOnce(PlacaAttempts(linhas), n));
  }

  method TryNome(linhas: seq<string>, i: nat) returns (nome: string)
    requires i < |linhas|
    ensures nome == NomeAttempt(linhas, i)
  {
    nome := "";
    var linha := linhas[i];
    if Contains(linha, "NOME") || Contains(linha, "NAME") {
      var candidatos := linhas[i + 1..Min(i + 3, |linhas|)];
      var k := FindFirstFrom(candidatos, IsNameCandidate, 0);
      if k.Some? {
        nome := NormalizeSpaces(candidatos[k.value]);
      }
    }
  }

  method TryMae(linhas: seq<string>, i: nat) returns (mae: string)
    requires i < |linhas|
    ensures mae == MaeAttempt(linhas, i)
  {
    mae := "";
    if ContainsAny(linhas[i], MaeTerms) {
      var possibleNames := CollectWhile(TrimAll(linhas), i + 1, 10, MaeStop, MaeKeep, NormalizeSpaces);
      if |possibleNames| >= 2 {
        mae := possibleNames[1];
        if |possibleNames| > 2 {
          var paiParts := SplitSpaces(possibleNames[0]);
          var potencialMaeParts := SplitSpaces(possibleNames[2]);
          if paiParts[0] != potencialMaeParts[0] {
            mae := NormalizeSpaces(possibleNames[1] + " " + possibleNames[2]);
          }
        }
      }
    }
  }

  method TryNaturalidade(linhas: seq<string>, i: nat) returns (naturalidade: string)
    requires i < |linhas|
    ensures naturalidade == NaturalidadeAttempt(linhas, i)
  {
    naturalidade := "";
    if ContainsAny(linhas[i], NaturalidadeTerms) && i + 1 < |linhas| {
      var prox := linhas[i + 1];
      if |prox| > 2 && !HasDigit(prox) {
        naturalidade := NormalizeSpaces(prox);
      }
    }
  }

  method TryCpf(linhas: seq<string>, i: nat) returns (cpf: string)
    requires i < |linhas|
    ensures cpf == CpfAttempt(linhas, i)
  {
    cpf := "";
    var linha := linhas[i];
    if (Contains(linha, "CPF") || Contains(linha, "TAX ID")) && i + 1 < |linhas| {
      var candidato := DigitsOnly(linhas[i + 1]);
      if |candidato| == 11 {
        cpf := CpfTemplate(candidato);
      }
    }
  }

  method TryDn(linhas: seq<string>, i: nat) returns (dn: string)
    requires i < |linhas|
    ensures dn == DnAttempt(linhas, i)
  {
    dn := "";
    if Contains(linhas[i], "NASC") {
      var janela := Join(linhas[i..Min(i + 4, |linhas|)], " ");
      var m := FirstDateToken(janela);
      if m.Some? {
        dn := m.value;
      }
    }
  }

  method TryPlaca(linhas: seq<string>, i: nat) returns (placa: string)
    requires i < |linhas|
    ensures placa == PlacaAttempt(linhas, i)
  {
    placa := "";
    var m := FirstPlateToken(StripSpaces(linhas[i]));
    if m.Some? {
      placa := m.value;
    }
  }

  // One loop iteration for one field: the field is only computed while it
  // is still empty (`if (!cpf && ...)` and so on).

  method StepNome(linhas: seq<string>, i: nat, cur: string) returns (next: string)
    requires i < |linhas| && cur == WriteOnce(NomeAttempts(linhas), i)
    ensures next == WriteOnce(NomeAttempts(linhas), i + 1)
  {
    next := cur;
    if cur == "" {
      next := TryNome(linhas, i);
    }
  }

  method StepNaturalidade(linhas: seq<string>, i: nat, cur: string) returns (next: string)
    requires i < |linhas| && cur == WriteOnce(NaturalidadeAttempts(linhas), i)
    ensures next == WriteOnce(NaturalidadeAttempts(linhas), i + 1)
  {
    next := cur;
    if cur == "" {
      next := TryNaturalidade(linhas, i);
    }
  }

  method StepMae(linhas: seq<string>, i: nat, cur: string) returns (next: string)
    requires i < |linhas| && cur == WriteOnce(MaeAttempts(linhas), i)
    ensures next == WriteOnce(MaeAttempts(linhas), i + 1)
  {
    next := cur;
    if cur == "" {
      next := TryMae(linhas, i);
    }
  }

  method StepCpf(linhas: seq<string>, i: nat, cur: string) returns (next: string)
    requires i < |linhas| && cur == WriteOnce(CpfAttempts(linhas), i)
    ensures next == WriteOnce(CpfAttempts(linhas), i + 1)
  {
    next := cur;
    if cur == "" {
      next := TryCpf(linhas, i);
    }
  }

  method StepDn(linhas: seq<string>, i: nat, cur: string) returns (next: string)
    requires i < |linhas| && cur == WriteOnce(DnAttempts(linhas), i)
    ensures next == WriteOnce(DnAttempts(linhas), i + 1)
  {
    next := cur;
    if cur == "" {
      next := TryDn(linhas, i);
    }
  }

  method StepPlaca(linhas: seq<string>, i: nat, cur: string) returns (next: string)
    requires i < |linhas| && cur == WriteOnce(PlacaAttempts(linhas), i)
    ensures next == WriteOnce(PlacaAttempts(linhas), i + 1)
  {
    next := cur;
    if cur == "" {
      next := TryPlaca(linhas, i);
    }
  }

  method ExtractFromText(text: string) returns (u: seq<Update>)
    ensures u == TextRun(text)
  {
    var linhas := Linhas(text);
    var nome, naturalidade, mae, cpf, dn, placa := "", "", "", "", "", "";
    for i := 0 to |linhas|
      invariant nome == WriteOnce(NomeAttempts(linhas), i)
      invariant naturalidade == WriteOnce(NaturalidadeAttempts(linhas), i)
      invariant mae == WriteOnce(MaeAttempts(linhas), i)
      invariant cpf == WriteOnce(CpfAttempts(linhas), i)
      invariant dn == WriteOnce(DnAttempts(linhas), i)
      invariant placa == WriteOnce(PlacaAttempts(linhas), i)
    {
      nome := StepNome(linhas, i, nome);
      naturalidade := StepNaturalidade(linhas, i, naturalidade);
      mae := StepMae(linhas, i, mae);
      cpf := StepCpf(linhas, i, cpf);
      dn := StepDn(linhas, i, dn);
      placa := StepPlaca(linhas, i, placa);
    }
    u := FinishRun(nome, naturalidade, mae, cpf, dn, placa);
  }

  // ---------------------------------------------------------------------
  // extractFromJson, extractAndFillFields
  // ---------------------------------------------------------------------

  /** The updates of `extractFromJson`: none without a first parsed result,
      the text path when it has no overlay lines, otherwise the line path. */
  function FromJson(r: OcrResult): seq<Update> {
    if |r.parsedResults| == 0 then []
    else
      var pr := r.parsedResults[0];
      if |pr.lines| == 0 then TextRun(pr.parsedText) else JsonRun(pr.lines, pr.parsedText)
  }

  method ExtractFromJson(r: OcrResult) returns (u: seq<Update>)
    ensures u == FromJson(r)
  {
    if |r.parsedResults| == 0 {
      return [];
    }
    var parsedResult := r.parsedResults[0];
    var lines := parsedResult.lines;
    var plainText := parsedResult.parsedText;
    if |lines| == 0 {
      u := ExtractFromText(plainText);
      return;
    }
    var nome := ExtractName(lines);
    var naturalidade := ExtractNaturalidade(lines, plainText);
    var genitora := ExtractMother(lines);
    var cpf := ExtractCpf(lines, plainText);
    var dn := ExtractDn(lines, plainText);
    var placa := ExtractPlaca(lines);
    u := FinishRun(nome, naturalidade, genitora, cpf, dn, placa);
  }

  /** The updates of `extractAndFillFields`: nothing for a falsy input, the
      JSON path for an OCR result, the synthetic JSON for pasted text. */
  function FillFields(input: Input): seq<Update> {
    match input
    case Undefined | Null => []
    case Pasted(t) => if t == "" then [] else FromJson(ConvertTextToOcrJson(t))
    case Ocr(r) => FromJson(r)
  }

  method ExtractAndFillFields(input: Input) returns (u: seq<Update>)
    ensures u == FillFields(input)
  {
    if input.Undefined? || input.Null? || input == Pasted("") {
      return [];
    }
    if input.Ocr? {
      u := ExtractFromJson(input.result);
    } else {
      var syntheticJson := ConvertTextToOcrJson(input.text);
      u := ExtractFromJson(syntheticJson);
    }
  }

  /** `extractFromJson` writes nothing without a parsed result, and otherwise
      the six fields in order followed by two complementary flags. */
  lemma FromJsonShape(r: OcrResult)
    ensures var u := FromJson(r);
      u == [] || (|u| == 8 && (forall k :: 0 <= k < 6 ==> u[k].field == DataFields[k] && u[k].value.Str?)
        && u[6].field == "veiculoCheck" && u[7].field == "naoAplicaVeiculo"
        && u[6].value.Flag? && u[7].value == Flag(!u[6].value.b))
    ensures |r.parsedResults| > 0 ==> |FromJson(r)| == 8
  {
    if |r.parsedResults| > 0 {
      var pr := r.parsedResults[0];
      if |pr.lines| == 0 {
        TextRunFlags(pr.parsedText);
      } else {
        JsonRunFlags(pr.lines, pr.parsedText);
      }
    }
  }

  /** Every run writes either nothing (falsy input or no parsed result) or
      exactly the six data fields in order followed by the two vehicle flags,
      which are always each other's negation. */
  lemma FillFieldsShape(input: Input)
    ensures var u := FillFields(input);
      u == [] || (|u| == 8 && (forall k :: 0 <= k < 6 ==> u[k].field == DataFields[k] && u[k].value.Str?)
        && u[6].field == "veiculoCheck" && u[7].field == "naoAplicaVeiculo"
        && u[6].value.Flag? && u[7].value == Flag(!u[6].value.b))
    ensures input.Undefined? || input.Null? || input == Pasted("") ==> FillFields(input) == []
    ensures input.Pasted? && input.text != "" ==> |FillFields(input)| == 8
  {
    match input
    case Undefined | Null =>
    case Pasted(t) =>
      if t != "" {
        FromJsonShape(ConvertTextToOcrJson(t));
      }
    case Ocr(r) =>
      FromJsonShape(r);
  }
}
