/** The universal pattern pass, positional helpers and arbitration of
    `advancedExtraction.js`. Confidences are integer hundredths (0.95 is 95);
    document-type scores are integer sixtieths (every keyword list has 3, 4 or
    5 entries, so `matches / total` is exactly `matches * (60 / total)` sixtieths). */
module AdvancedExtraction {
  import opened Text
  import opened Patterns
  import opened OcrModel
  import opened BrazilianValidators

  // ---------------------------------------------------------------------
  // extractUniversalPatterns
  // ---------------------------------------------------------------------

  /** The keys of the universal pattern table. */
  datatype Key = CpfKey | CpfSimplesKey | PlacaKey | RenavamKey | DataKey | CnpjKey | CepKey | TelefoneKey

  const Keys: seq<Key> := [CpfKey, CpfSimplesKey, PlacaKey, RenavamKey, DataKey, CnpjKey, CepKey, TelefoneKey]

  /** The property name each key has in the returned object. */
  function KeyName(k: Key): string {
    match k
    case CpfKey => "cpf"
    case CpfSimplesKey => "cpfSimples"
    case PlacaKey => "placa"
    case RenavamKey => "renavam"
    case DataKey => "data"
    case CnpjKey => "cnpj"
    case CepKey => "cep"
    case TelefoneKey => "telefone"
  }

  /** Every key but `telefone` carries a validator. */
  predicate HasValidator(k: Key) { k != TelefoneKey }

  /** The key's validator (no validator accepts everything). */
  predicate Passes(k: Key, v: string) {
    match k
    case CpfKey => IsValidCPF(v)
    case CpfSimplesKey => IsValidCPF(v)
    case PlacaKey => IsValidPlaca(v)
    case RenavamKey => IsValidRenavam(v)
    case DataKey => IsValidDate(v)
    case CnpjKey => IsValidCNPJ(v)
    case CepKey => IsValidCEP(v)
    case TelefoneKey => true
  }

  /** `[A-Z]{3}[0-9][A-Z0-9][0-9]{2}` */
  const UniversalPlateShape: seq<Cls> := [UpperLetter, UpperLetter, UpperLetter, Digit, UpperOrDigit, Digit, Digit]
  /** `\d{2}\.\d{3}\.\d{3}\/\d{4}-\d{2}` */
  const CnpjShape: seq<Cls> :=
    [Digit, Digit, Lit('.'), Digit, Digit, Digit, Lit('.'), Digit, Digit, Digit, Lit('/'),
     Digit, Digit, Digit, Digit, Lit('-'), Digit, Digit]
  /** `\d{5}-\d{3}` */
  const CepShape: seq<Cls> := [Digit, Digit, Digit, Digit, Digit, Lit('-'), Digit, Digit, Digit]
  /** `\(\d{2}\)` */
  const AreaCodeShape: seq<Cls> := [Lit('('), Digit, Digit, Lit(')')]

  /** A fixed-length pattern without boundaries at `q`. */
  function FixedEnd(s: string, q: nat, shape: seq<Cls>): (r: Option<nat>)
    requires |shape| > 0
    ensures r.Some? ==> q < r.value <= |s| && r.value == q + |shape|
  {
    if ShapeAt(s, q, shape) then Some(q + |shape|) else None
  }

  /** `\b\d{11}\b` at `q`. */
  function ElevenDigitsEnd(s: string, q: nat): (r: Option<nat>)
    ensures r.Some? ==> q < r.value <= |s| && r.value == q + 11
  {
    if Boundary(s, q) && DigitsAt(s, q, 11) && Boundary(s, q + 11) then Some(q + 11) else None
  }

  /** `\b[A-Z]{3}[0-9][A-Z0-9][0-9]{2}\b` at `q`. */
  function UniversalPlateEnd(s: string, q: nat): (r: Option<nat>)
    ensures r.Some? ==> q < r.value <= |s| && r.value == q + 7
  {
    if ShapeAt(s, q, UniversalPlateShape) && Boundary(s, q) && Boundary(s, q + 7) then Some(q + 7) else None
  }

  /** `\(\d{2}\)\s?\d{4,5}-\d{4}` at `q`. The optional space and the digit run
      cannot give back what they took: a space is no digit, and a fifth digit
      is no dash. */
  function TelefoneEnd(s: string, q: nat): (r: Option<nat>)
    ensures r.Some? ==> q < r.value <= |s|
  {
    if !ShapeAt(s, q, AreaCodeShape) then None
    else
      var a := OptSep(s, q + 4, IsSpace);
      var n := if DigitsAt(s, a, 5) then 5 else 4;
      if DigitsAt(s, a, n) && a + n < |s| && s[a + n] == '-' && DigitsAt(s, a + n + 1, 4) then Some(a + n + 5)
      else None
  }

  /** End of the key's pattern matched at `q`, if it matches there. */
  function MatchEnd(k: Key, s: string, q: nat): (r: Option<nat>)
    ensures r.Some? ==> q < r.value <= |s|
  {
    match k
    case CpfKey => FixedEnd(s, q, DottedCpfShape)
    case CpfSimplesKey => ElevenDigitsEnd(s, q)
    case PlacaKey => UniversalPlateEnd(s, q)
    case RenavamKey => ElevenDigitsEnd(s, q)
    case DataKey => FixedEnd(s, q, DateShape)
    case CnpjKey => FixedEnd(s, q, CnpjShape)
    case CepKey => FixedEnd(s, q, CepShape)
    case TelefoneKey => TelefoneEnd(s, q)
  }

  /** `[...s.matchAll(re)].map(m => m[0])` from position `p`: every match is
      non-empty, so the scan resumes where the last match ended. */
  function MatchesFrom(k: Key, s: string, p: nat): (ms: seq<string>)
    decreases |s| - p
  {
    if p >= |s| then []
    else match MatchEnd(k, s, p)
      case Some(e) => [s[p..e]] + MatchesFrom(k, s, e)
      case None => MatchesFrom(k, s, p + 1)
  }

  function Matches(k: Key, s: string): seq<string> {
    MatchesFrom(k, s, 0)
  }

  /** Every match of the dotted CPF pattern has its shape. */
  lemma {:induction false} CpfMatchesDotted(s: string, p: nat)
    decreases |s| - p
    ensures forall m :: m in MatchesFrom(CpfKey, s, p) ==> IsShape(m, DottedCpfShape)
  {
    if p < |s| {
      match MatchEnd(CpfKey, s, p)
      case Some(e) =>
        CpfMatchesDotted(s, e);
        var m := s[p..e];
        assert forall i :: 0 <= i < |m| ==> m[i] == s[p + i];
      case None =>
        CpfMatchesDotted(s, p + 1);
    }
  }

  /** Index of the first of `ms[i..]` that passes the key's validator. */
  function FirstPassing(k: Key, ms: seq<string>, i: nat): (r: Option<nat>)
    requires i <= |ms|
    decreases |ms| - i
    ensures r.Some? ==> i <= r.value < |ms|
  {
    if i == |ms| then None
    else if Passes(k, ms[i]) then Some(i)
    else FirstPassing(k, ms, i + 1)
  }

  /** The index found is the first passing one from `i` on; none is found iff none passes. */
  lemma {:induction false} FirstPassingFirst(k: Key, ms: seq<string>, i: nat)
    requires i <= |ms|
    decreases |ms| - i
    ensures FirstPassing(k, ms, i).Some? ==> Passes(k, ms[FirstPassing(k, ms, i).value])
    ensures FirstPassing(k, ms, i).Some? ==> forall j :: i <= j < FirstPassing(k, ms, i).value ==> !Passes(k, ms[j])
    ensures FirstPassing(k, ms, i).None? <==> forall j :: i <= j < |ms| ==> !Passes(k, ms[j])
  {
    if i < |ms| && !Passes(k, ms[i]) {
      FirstPassingFirst(k, ms, i + 1);
    }
  }

  /** The first match that passes the key's validator (any match without one). */
  function FirstValid(k: Key, s: string): (r: Option<string>)
    ensures r.Some? ==> r.value in Matches(k, s)
  {
    var ms := Matches(k, s);
    match FirstPassing(k, ms, 0)
    case None => None
    case Some(i) => Some(ms[i])
  }

  /** What `FirstValid` finds passes its validator, and it finds nothing only
      when no match passes. */
  lemma FirstValidPasses(k: Key, s: string)
    ensures FirstValid(k, s).Some? ==> Passes(k, FirstValid(k, s).value)
    ensures FirstValid(k, s).None? <==> forall m :: m in Matches(k, s) ==> !Passes(k, m)
  {
    FirstPassingFirst(k, Matches(k, s), 0);
  }

  /** One entry of the returned object. */
  datatype Extraction = Extraction(value: string, confidence: nat, validated: bool)

  /** 0.95 with a validator, 0.7 without. */
  function KeyConfidence(k: Key): (c: nat)
    ensures c == 95 || c == 70
    ensures HasValidator(k) <==> c == 95
  {
    if HasValidator(k) then 95 else 70
  }

  /** `ParsedResults?.[0]?.ParsedText || ''`. */
  function FullText(r: OcrResult): string {
    if |r.parsedResults| > 0 then r.parsedResults[0].parsedText else ""
  }

  /** The entry a key contributes, if any. */
  function EntryFor(k: Key, s: string): Option<Extraction> {
    match FirstValid(k, s)
    case None => None
    case Some(v) => Some(Extraction(v, KeyConfidence(k), HasValidator(k)))
  }

  /** The object after the `forEach` has visited the keys `ks`. */
  function PatternsOver(s: string, ks: seq<Key>): (m: map<Key, Extraction>)
    ensures forall k :: k in m <==> k in ks && FirstValid(k, s).Some?
    ensures forall k :: k in m ==> m[k] == Extraction(FirstValid(k, s).value, KeyConfidence(k), HasValidator(k))
  {
    if ks == [] then map[]
    else
      var m := PatternsOver(s, ks[..|ks| - 1]);
      var k := ks[|ks| - 1];
      assert forall x :: x in ks <==> x in ks[..|ks| - 1] || x == k;
      match EntryFor(k, s)
      case None => m
      case Some(e) => m[k := e]
  }

  /** One more key visited adds its entry, if it has one. */
  lemma PatternsOverStep(s: string, ks: seq<Key>)
    requires ks != []
    ensures var k := ks[|ks| - 1];
      PatternsOver(s, ks) == if FirstValid(k, s).Some? then PatternsOver(s, ks[..|ks| - 1])[k := Extraction(FirstValid(k, s).value, KeyConfidence(k), HasValidator(k))] else PatternsOver(s, ks[..|ks| - 1])
  {
  }

  /** The object `extractUniversalPatterns` returns: a key is present exactly
      when some match passes its validator, and then holds the first such match. */
  function UniversalPatterns(r: OcrResult): (m: map<Key, Extraction>)
    ensures forall k :: k in m <==> FirstValid(k, FullText(r)).Some?
    ensures forall k :: k in m ==> m[k] == Extraction(FirstValid(k, FullText(r)).value, KeyConfidence(k), HasValidator(k))
  {
    AllKeys();
    PatternsOver(FullText(r), Keys)
  }

  lemma AllKeys()
    ensures forall k: Key :: k in Keys
  {
    forall k: Key
      ensures k in Keys
    {
      match k
      case CpfKey => assert Keys[0] == k;
      case CpfSimplesKey => assert Keys[1] == k;
      case PlacaKey => assert Keys[2] == k;
      case RenavamKey => assert Keys[3] == k;
      case DataKey => assert Keys[4] == k;
      case CnpjKey => assert Keys[5] == k;
      case CepKey => assert Keys[6] == k;
      case TelefoneKey => assert Keys[7] == k;
    }
  }

  /** Runs the key's validator. */
  method RunValidator(k: Key, v: string) returns (ok: bool)
    ensures ok == Passes(k, v)
  {
    match k
    case CpfKey => ok := ValidateCPF(v);
    case CpfSimplesKey => ok := ValidateCPF(v);
    case PlacaKey => ok := IsValidPlaca(v);
    case RenavamKey => ok := ValidateRenavam(v);
    case DataKey => ok := ValidateData(v);
    case CnpjKey => ok := ValidateCNPJ(v);
    case CepKey => ok := IsValidCEP(v);
    case TelefoneKey => ok := true;
  }

  /** `matches.map(..).filter(validator)[0]`. */
  method FirstValidMatch(k: Key, s: string) returns (r: Option<string>)
    ensures r == FirstValid(k, s)
  {
    var ms := Matches(k, s);
    var i := 0;
    while i < |ms|
      invariant i <= |ms|
      invariant FirstPassing(k, ms, i) == FirstPassing(k, ms, 0)
    {
      var ok := RunValidator(k, ms[i]);
      if ok {
        return Some(ms[i]);
      }
      i := i + 1;
    }
    return None;
  }

  /** `extractUniversalPatterns`: the `forEach` over the keys fills `extracted`. */
  method ExtractUniversalPatterns(r: OcrResult) returns (extracted: map<Key, Extraction>)
    ensures extracted == UniversalPatterns(r)
  {
    var text := FullText(r);
    extracted := map[];
    for i := 0 to |Keys|
      invariant extracted == PatternsOver(text, Keys[..i])
    {
      var k := Keys[i];
      PatternsOverStep(text, Keys[..i + 1]);
      assert Keys[..i + 1][..i] == Keys[..i];
      var v := FirstValidMatch(k, text);
      if v.Some? {
        extracted := extracted[k := Extraction(v.value, KeyConfidence(k), HasValidator(k))];
      }
    }
    assert Keys[..|Keys|] == Keys;
  }

  /** Every value of the universal pass passes its key's validator. */
  lemma UniversalValuePasses(r: OcrResult, k: Key)
    requires k in UniversalPatterns(r)
    ensures Passes(k, UniversalPatterns(r)[k].value)
  {
    FirstValidPasses(k, FullText(r));
  }

  /** The universal CPF is always in dotted form. */
  lemma UniversalCpfDotted(r: OcrResult)
    requires CpfKey in UniversalPatterns(r)
    ensures IsShape(UniversalPatterns(r)[CpfKey].value, DottedCpfShape)
    ensures IsValidCPF(UniversalPatterns(r)[CpfKey].value)
  {
    CpfMatchesDotted(FullText(r), 0);
    FirstValidPasses(CpfKey, FullText(r));
  }

  // ---------------------------------------------------------------------
  // validateExtractedValue
  // ---------------------------------------------------------------------

  /** The validator table of `validateExtractedValue`. */
  function FieldValidator(fieldType: string): Option<Key> {
    if fieldType == "cpf" then Some(CpfKey)
    else if fieldType == "placa" then Some(PlacaKey)
    else if fieldType == "renavam" then Some(RenavamKey)
    else if fieldType == "data" then Some(DataKey)
    else if fieldType == "cnpj" then Some(CnpjKey)
    else if fieldType == "cep" then Some(CepKey)
    else None
  }

  datatype ValueCheck = ValueCheck(isValid: bool, confidence: nat, message: string)

  const NoValidatorMessage: string := "Sem validador espec\U{00ED}fico"
  const ValidMessage: string := "\U{2713} V\U{00E1}lido"
  const InvalidMessage: string := "\U{2717} Inv\U{00E1}lido"

  function ValidateExtractedValue(value: string, fieldType: string): (r: ValueCheck)
    ensures FieldValidator(fieldType).None? ==> r == ValueCheck(true, 60, NoValidatorMessage)
    ensures FieldValidator(fieldType).Some? ==> r.isValid == Passes(FieldValidator(fieldType).value, value)
    ensures FieldValidator(fieldType).Some? ==> r.confidence == (if r.isValid then 95 else 30)
    ensures FieldValidator(fieldType).Some? ==> r.message == (if r.isValid then ValidMessage else InvalidMessage)
  {
    match FieldValidator(fieldType)
    case None => ValueCheck(true, 60, NoValidatorMessage)
    case Some(k) =>
      var ok := Passes(k, value);
      ValueCheck(ok, if ok then 95 else 30, if ok then ValidMessage else InvalidMessage)
  }

  /** Every value of the universal pass validates again under its own key name;
      where both tables carry the validator the two confidences agree. */
  lemma UniversalValuesRevalidate(r: OcrResult, k: Key)
    requires k in UniversalPatterns(r)
    ensures var e := UniversalPatterns(r)[k];
      ValidateExtractedValue(e.value, KeyName(k)).isValid
      && (k != CpfSimplesKey && k != TelefoneKey ==> ValidateExtractedValue(e.value, KeyName(k)).confidence == e.confidence)
  {
    FirstValidPasses(k, FullText(r));
    PassingRevalidates(k, UniversalPatterns(r)[k].value);
  }

  /** A value passing a key's validator passes `validateExtractedValue` under the key's name. */
  lemma PassingRevalidates(k: Key, v: string)
    requires Passes(k, v)
    ensures ValidateExtractedValue(v, KeyName(k)).isValid
    ensures k != CpfSimplesKey && k != TelefoneKey ==> ValidateExtractedValue(v, KeyName(k)).confidence == KeyConfidence(k)
  {
    match k
    case CpfKey => assert FieldValidator(KeyName(k)) == Some(CpfKey);
    case CpfSimplesKey => assert FieldValidator(KeyName(k)) == None;
    case PlacaKey => assert FieldValidator(KeyName(k)) == Some(PlacaKey);
    case RenavamKey => assert FieldValidator(KeyName(k)) == Some(RenavamKey);
    case DataKey => assert FieldValidator(KeyName(k)) == Some(DataKey);
    case CnpjKey => assert FieldValidator(KeyName(k)) == Some(CnpjKey);
    case CepKey => assert FieldValidator(KeyName(k)) == Some(CepKey);
    case TelefoneKey => assert FieldValidator(KeyName(k)) == None;
  }

  // ---------------------------------------------------------------------
  // analyzeLayout
  // ---------------------------------------------------------------------

  /** The five vertical bands: top, upper, middle, lower, bottom. */
  datatype Regions = Regions(top: seq<Line>, upper: seq<Line>, middle: seq<Line>, lower: seq<Line>, bottom: seq<Line>)

  /** Band of a `MinTop`, cut at 300, 600, 900 and 1200. */
  function RegionIndex(y: int): (b: nat)
    ensures b < 5
    ensures b == 0 <==> y < 300
    ensures b == 4 <==> y >= 1200
    ensures 0 < b < 4 ==> 300 * b <= y < 300 * (b + 1)
  {
    if y < 300 then 0 else if y < 600 then 1 else if y < 900 then 2 else if y < 1200 then 3 else 4
  }

  function Region(r: Regions, b: nat): seq<Line>
    requires b < 5
  {
    if b == 0 then r.top else if b == 1 then r.upper else if b == 2 then r.middle
    else if b == 3 then r.lower else r.bottom
  }

  /** The lines of band `b`, in input order. */
  function InRegion(ls: seq<Line>, b: nat): (r: seq<Line>)
    ensures |r| <= |ls|
  {
    if ls == [] then []
    else
      var last := ls[|ls| - 1];
      InRegion(ls[..|ls| - 1], b) + (if RegionIndex(last.minTop) == b then [last] else [])
  }

  /** A band holds exactly the input lines whose `MinTop` falls in it. */
  lemma {:induction false} InRegionMembers(ls: seq<Line>, b: nat)
    ensures forall l :: l in InRegion(ls, b) <==> l in ls && RegionIndex(l.minTop) == b
  {
    if ls != [] {
      var init := ls[..|ls| - 1];
      InRegionMembers(init, b);
      assert ls == init + [ls[|ls| - 1]];
    }
  }

  lemma InRegionSnoc(ls: seq<Line>, x: Line, b: nat)
    ensures InRegion(ls + [x], b) == InRegion(ls, b) + (if RegionIndex(x.minTop) == b then [x] else [])
  {
    assert (ls + [x])[..|ls|] == ls;
  }

  /** The five bands, counted together with multiplicity. */
  function Bands(ls: seq<Line>): multiset<Line> {
    multiset(InRegion(ls, 0)) + multiset(InRegion(ls, 1)) + multiset(InRegion(ls, 2))
      + multiset(InRegion(ls, 3)) + multiset(InRegion(ls, 4))
  }

  lemma BandSnoc(ls: seq<Line>, x: Line, b: nat)
    ensures RegionIndex(x.minTop) == b ==> multiset(InRegion(ls + [x], b)) == multiset(InRegion(ls, b)) + multiset{x}
    ensures RegionIndex(x.minTop) != b ==> InRegion(ls + [x], b) == InRegion(ls, b)
  {
    InRegionSnoc(ls, x, b);
  }

  lemma BandsSnoc(ls: seq<Line>, x: Line)
    ensures Bands(ls + [x]) == Bands(ls) + multiset{x}
  {
    BandSnoc(ls, x, 0);
    BandSnoc(ls, x, 1);
    BandSnoc(ls, x, 2);
    BandSnoc(ls, x, 3);
    BandSnoc(ls, x, 4);
  }

  /** Every line lands in exactly one band: the bands together are the input, counted with multiplicity. */
  lemma {:induction false} RegionsPartition(ls: seq<Line>)
    ensures Bands(ls) == multiset(ls)
  {
    if ls != [] {
      var init := ls[..|ls| - 1];
      RegionsPartition(init);
      assert ls == init + [ls[|ls| - 1]];
      BandsSnoc(init, ls[|ls| - 1]);
    }
  }

  /** Band `b` of `rs` with `x` pushed when `x` belongs there. */
  predicate PushedRegions(rs: Regions, x: Line, rs': Regions) {
    forall b :: 0 <= b < 5 ==> Region(rs', b) == Region(rs, b) + (if RegionIndex(x.minTop) == b then [x] else [])
  }

  /** The body of the `forEach`: push the line into its band. */
  method Push(rs: Regions, line: Line) returns (rs': Regions)
    ensures PushedRegions(rs, line, rs')
  {
    var y := line.minTop;
    if y < 300 {
      rs' := rs.(top := rs.top + [line]);
    } else if y < 600 {
      rs' := rs.(upper := rs.upper + [line]);
    } else if y < 900 {
      rs' := rs.(middle := rs.middle + [line]);
    } else if y < 1200 {
      rs' := rs.(lower := rs.lower + [line]);
    } else {
      rs' := rs.(bottom := rs.bottom + [line]);
    }
  }

  /** `analyzeLayout`: `None` is the empty object `{}`. */
  method AnalyzeLayout(lines: seq<Line>) returns (r: Option<Regions>)
    ensures r.None? <==> |lines| == 0
    ensures r.Some? ==> forall b :: 0 <= b < 5 ==> Region(r.value, b) == InRegion(lines, b)
  {
    if |lines| == 0 {
      return None;
    }
    var regions := Regions([], [], [], [], []);
    for i := 0 to |lines|
      invariant forall b :: 0 <= b < 5 ==> Region(regions, b) == InRegion(lines[..i], b)
    {
      var line := lines[i];
      assert lines[..i + 1] == lines[..i] + [line];
      forall b | 0 <= b < 5
        ensures InRegion(lines[..i + 1], b) == InRegion(lines[..i], b) + (if RegionIndex(line.minTop) == b then [line] else [])
      {
        InRegionSnoc(lines[..i], line, b);
      }
      regions := Push(regions, line);
    }
    assert lines[..|lines|] == lines;
    return Some(regions);
  }

  // ---------------------------------------------------------------------
  // findLineNearY / findLinesAfterKeyword
  // ---------------------------------------------------------------------

  const DefaultTolerance: nat := 20
  const DefaultMaxDistance: int := 50

  function Abs(x: int): nat { if x < 0 then -x else x }

  predicate NearY(l: Line, targetY: int, tolerance: int) {
    Abs(l.minTop - targetY) <= tolerance
  }

  /** Line `i` is the first near `targetY`. */
  predicate FirstNearAt(lines: seq<Line>, targetY: int, tolerance: int, i: int) {
    0 <= i < |lines| && NearY(lines[i], targetY, tolerance) && forall j :: 0 <= j < i ==> !NearY(lines[j], targetY, tolerance)
  }

  /** `lines.find(...)` for lines near `targetY`. */
  function FindLineNearY(lines: seq<Line>, targetY: int, tolerance: int): (r: Option<Line>)
    ensures r.None? <==> forall i :: 0 <= i < |lines| ==> !NearY(lines[i], targetY, tolerance)
    ensures r.Some? ==> exists i :: FirstNearAt(lines, targetY, tolerance, i) && lines[i] == r.value
  {
    match FirstFrom(lines, (l: Line) => NearY(l, targetY, tolerance), 0)
    case None => None
    case Some(i) => Some(lines[i])
  }

  /** Case-insensitive `includes` of the keyword in the line text. */
  predicate MentionsNoCase(l: Line, keyword: string) {
    Contains(Upper(l.lineText), Upper(keyword))
  }

  /** The lines strictly between `lo` and `hi`, in input order. */
  function LinesBetween(ls: seq<Line>, lo: int, hi: int): (r: seq<Line>)
    ensures |r| <= |ls|
  {
    if ls == [] then []
    else (if lo < ls[0].minTop < hi then [ls[0]] else []) + LinesBetween(ls[1..], lo, hi)
  }

  /** The window keeps exactly the lines strictly inside it. */
  lemma {:induction false} LinesBetweenMembers(ls: seq<Line>, lo: int, hi: int)
    ensures forall l :: l in LinesBetween(ls, lo, hi) <==> l in ls && lo < l.minTop < hi
  {
    if ls != [] {
      LinesBetweenMembers(ls[1..], lo, hi);
      assert ls == [ls[0]] + ls[1..];
    }
  }

  /** `lines.find(...)` for the keyword line, from `i` on. */
  function MentionNoCaseFrom(lines: seq<Line>, keyword: string, i: nat): (r: Option<nat>)
    requires i <= |lines|
    decreases |lines| - i
    ensures r.Some? ==> i <= r.value < |lines|
  {
    if i == |lines| then None
    else if MentionsNoCase(lines[i], keyword) then Some(i)
    else MentionNoCaseFrom(lines, keyword, i + 1)
  }

  /** The index found is the first keyword line at or after `i`; none is found iff there is none. */
  lemma {:induction false} MentionNoCaseFromFirst(lines: seq<Line>, keyword: string, i: nat)
    requires i <= |lines|
    decreases |lines| - i
    ensures MentionNoCaseFrom(lines, keyword, i).Some? ==> MentionsNoCase(lines[MentionNoCaseFrom(lines, keyword, i).value], keyword)
    ensures MentionNoCaseFrom(lines, keyword, i).Some? ==> forall k :: i <= k < MentionNoCaseFrom(lines, keyword, i).value ==> !MentionsNoCase(lines[k], keyword)
    ensures MentionNoCaseFrom(lines, keyword, i).None? <==> forall k :: i <= k < |lines| ==> !MentionsNoCase(lines[k], keyword)
  {
    if i < |lines| && !MentionsNoCase(lines[i], keyword) {
      MentionNoCaseFromFirst(lines, keyword, i + 1);
    }
  }

  /** `findLinesAfterKeyword`: the lines below the first keyword line, within `maxDistance`. */
  function FindLinesAfterKeyword(lines: seq<Line>, keyword: string, maxDistance: int): (r: seq<Line>)
    ensures r != [] ==> MentionNoCaseFrom(lines, keyword, 0).Some?
  {
    match MentionNoCaseFrom(lines, keyword, 0)
    case None => []
    case Some(i) => LinesBetween(lines, lines[i].minTop, lines[i].minTop + maxDistance)
  }

  /** Without a keyword line there is nothing to return. */
  lemma FindLinesAfterKeywordAbsent(lines: seq<Line>, keyword: string, maxDistance: int)
    requires forall i :: 0 <= i < |lines| ==> !MentionsNoCase(lines[i], keyword)
    ensures FindLinesAfterKeyword(lines, keyword, maxDistance) == []
  {
    MentionNoCaseFromFirst(lines, keyword, 0);
  }

  /** Once the first keyword line is found, the result is the window below it. */
  lemma FindLinesAfterKeywordWindow(lines: seq<Line>, keyword: string, maxDistance: int, i: nat)
    requires MentionNoCaseFrom(lines, keyword, 0) == Some(i)
    ensures i < |lines|
    ensures FindLinesAfterKeyword(lines, keyword, maxDistance) == LinesBetween(lines, lines[i].minTop, lines[i].minTop + maxDistance)
    ensures forall l :: l in FindLinesAfterKeyword(lines, keyword, maxDistance) <==> l in lines && lines[i].minTop < l.minTop < lines[i].minTop + maxDistance
  {
    var w := LinesBetween(lines, lines[i].minTop, lines[i].minTop + maxDistance);
    assert FindLinesAfterKeyword(lines, keyword, maxDistance) == w;
    LinesBetweenMembers(lines, lines[i].minTop, lines[i].minTop + maxDistance);
  }

  // ---------------------------------------------------------------------
  // detectDocumentType
  // ---------------------------------------------------------------------

  const DocTypes: seq<string> := ["cnh", "crlv", "cpf", "rg", "boleto", "contrato"]

  const DocKeywords: seq<seq<string>> := [
    ["HABILITA\U{00C7}\U{00C3}O", "DETRAN", "CARTEIRA NACIONAL", "CNH"],
    ["LICENCIAMENTO", "VEICULO", "PLACA", "RENAVAM", "CRLV"],
    ["CADASTRO PESSOA FISICA", "RECEITA FEDERAL", "CPF"],
    ["IDENTIDADE", "SECRETARIA SEGURANCA", "RG"],
    ["BOLETO", "BANCO", "VENCIMENTO", "VALOR"],
    ["CONTRATO", "PARTES", "CLAUSULA"]
  ]

  function LineTexts(lines: seq<Line>): (r: seq<string>)
    ensures |r| == |lines| && forall i :: 0 <= i < |lines| ==> r[i] == lines[i].lineText
  {
    if lines == [] then [] else [lines[0].lineText] + LineTexts(lines[1..])
  }

  /** `lines.map(l => l.LineText).join(' ').toUpperCase()`. */
  function DocumentText(lines: seq<Line>): string {
    Upper(Join(LineTexts(lines), " "))
  }

  /** How many of the keywords the text contains. */
  function MatchCount(text: string, kws: seq<string>): (n: nat)
    ensures n <= |kws|
  {
    if kws == [] then 0 else (if Contains(text, kws[0]) then 1 else 0) + MatchCount(text, kws[1..])
  }

  /** `matches / keywords[type].length`, in sixtieths. */
  function Score(text: string, t: nat): (s: nat)
    requires t < |DocTypes|
    ensures s <= 60
    ensures s == 0 <==> MatchCount(text, DocKeywords[t]) == 0
    ensures s == 60 <==> MatchCount(text, DocKeywords[t]) == |DocKeywords[t]|
  {
    DocKeywordsDivideSixty(t);
    ScaleBy(MatchCount(text, DocKeywords[t]), |DocKeywords[t]|, 60 / |DocKeywords[t]|);
    MatchCount(text, DocKeywords[t]) * (60 / |DocKeywords[t]|)
  }

  /** Every keyword list's length divides 60. */
  lemma DocKeywordsDivideSixty(t: nat)
    requires t < |DocTypes|
    ensures |DocKeywords[t]| * (60 / |DocKeywords[t]|) == 60
  {
    assert |DocKeywords[0]| == 4 && |DocKeywords[1]| == 5 && |DocKeywords[2]| == 3;
    assert |DocKeywords[3]| == 3 && |DocKeywords[4]| == 4 && |DocKeywords[5]| == 3;
  }

  /** `n` of `len` matches, scaled so that all of them make 60. */
  lemma ScaleBy(n: nat, len: nat, per: nat)
    requires n <= len && len * per == 60
    ensures n * per <= 60
    ensures n * per == 0 <==> n == 0
    ensures n * per == 60 <==> n == len
  {
    assert per > 0;
    assert (len - n) * per == len * per - n * per;
    if n < len {
      assert (len - n) * per >= per;
    }
  }

  function Scores(text: string): (r: seq<nat>)
    ensures |r| == |DocTypes| && forall t :: 0 <= t < |DocTypes| ==> r[t] == Score(text, t)
  {
    [Score(text, 0), Score(text, 1), Score(text, 2), Score(text, 3), Score(text, 4), Score(text, 5)]
  }

  /** `keys.reduce((a, b) => scores[a] > scores[b] ? a : b)` over the first `n`
      scores: a maximal score, and the last one among equals. */
  function BestOf(scores: seq<nat>, n: nat): (b: nat)
    requires 0 < n <= |scores|
    ensures b < n
    ensures forall j :: 0 <= j < n ==> scores[j] <= scores[b]
    ensures forall j :: b < j < n ==> scores[j] < scores[b]
  {
    if n == 1 then 0
    else
      var a := BestOf(scores, n - 1);
      if scores[a] > scores[n - 1] then a else n - 1
  }

  /** `{type, confidence, allScores}`. */
  datatype DocumentType = DocumentType(docType: string, confidence: nat, allScores: seq<nat>)

  function DetectedType(lines: seq<Line>): DocumentType {
    var scores := Scores(DocumentText(lines));
    var b := BestOf(scores, |scores|);
    DocumentType(DocTypes[b], scores[b], scores)
  }

  /** The detected type has the highest score, and no later type ties it; so a
      text with no keyword at all is a "contrato". */
  lemma DetectedTypeIsBest(lines: seq<Line>)
    ensures var d := DetectedType(lines);
      exists b :: 0 <= b < |DocTypes| && d.docType == DocTypes[b] && d.confidence == d.allScores[b]
        && (forall j :: 0 <= j < |DocTypes| ==> d.allScores[j] <= d.confidence)
        && (forall j :: b < j < |DocTypes| ==> d.allScores[j] < d.confidence)
    ensures (forall t :: 0 <= t < |DocTypes| ==> MatchCount(DocumentText(lines), DocKeywords[t]) == 0)
      ==> DetectedType(lines) == DocumentType("contrato", 0, [0, 0, 0, 0, 0, 0])
  {
    var scores := Scores(DocumentText(lines));
    var b := BestOf(scores, |scores|);
    assert DetectedType(lines).docType == DocTypes[b];
    if forall t :: 0 <= t < |DocTypes| ==> MatchCount(DocumentText(lines), DocKeywords[t]) == 0 {
      assert forall t :: 0 <= t < |DocTypes| ==> scores[t] == 0;
      assert scores == [0, 0, 0, 0, 0, 0];
      assert b == 5;
    }
  }

  /** `keywords[type].filter(kw => fullText.includes(kw)).length`. */
  method CountMatches(text: string, kws: seq<string>) returns (n: nat)
    ensures n == MatchCount(text, kws)
  {
    n := 0;
    var i := |kws|;
    while i > 0
      invariant 0 <= i <= |kws|
      invariant n == MatchCount(text, kws[i..])
    {
      i := i - 1;
      var hit := IndexOfFrom(text, kws[i], 0) >= 0;
      assert kws[i..][1..] == kws[i + 1..];
      if hit {
        n := n + 1;
      }
    }
  }

  /** `detectDocumentType`: fills `scores`, then reduces over the keys. */
  method DetectDocumentType(lines: seq<Line>) returns (d: DocumentType)
    ensures d == DetectedType(lines)
  {
    var text := DocumentText(lines);
    var scores := ComputeScores(text);
    var best := ReduceBest(scores);
    d := DocumentType(DocTypes[best], scores[best], scores);
  }

  /** The `forEach` filling `scores`. */
  method ComputeScores(text: string) returns (scores: seq<nat>)
    ensures scores == Scores(text)
  {
    scores := [];
    for t := 0 to |DocTypes|
      invariant |scores| == t && forall j :: 0 <= j < t ==> scores[j] == Score(text, j)
    {
      var m := CountMatches(text, DocKeywords[t]);
      scores := scores + [m * (60 / |DocKeywords[t]|)];
    }
  }

  /** The `reduce` over the keys. */
  method ReduceBest(scores: seq<nat>) returns (best: nat)
    requires |scores| > 0
    ensures best == BestOf(scores, |scores|)
  {
    best := 0;
    for b := 1 to |scores|
      invariant best == BestOf(scores, b)
    {
      if !(scores[best] > scores[b]) {
        best := b;
      }
    }
  }

  // ---------------------------------------------------------------------
  // extractWithContext
  // ---------------------------------------------------------------------

  /** The keyword table of `extractWithContext`, keyed by the lower-cased field name. */
  const ContextTable: seq<(string, seq<string>)> := [
    ("nome", ["NOME", "TITULAR", "PESSOA"]),
    ("cpf", ["CPF", "CADASTRO"]),
    ("placa", ["PLACA", "VEICULO"]),
    ("renavam", ["RENAVAM", "REGISTRO"]),
    ("data_nascimento", ["DATA NASCIMENTO", "NASCIMENTO", "NASC"]),
    ("naturalidade", ["NATURALIDADE", "NATURAL", "LOCAL NASCIMENTO"]),
    ("genitora", ["FILIA\U{00C7}\U{00C3}O", "M\U{00C3}E", "GENITORA"]),
    ("genitor", ["FILIA\U{00C7}\U{00C3}O", "PAI", "GENITOR"])
  ]

  /** `table[key] || []`. */
  function Lookup(table: seq<(string, seq<string>)>, key: string): (r: seq<string>)
    ensures r == [] || exists i :: 0 <= i < |table| && table[i].0 == key && table[i].1 == r
    ensures (forall i :: 0 <= i < |table| ==> table[i].0 != key) ==> r == []
  {
    if table == [] then []
    else if table[0].0 == key then table[0].1
    else
      var r := Lookup(table[1..], key);
      assert forall i :: 1 <= i < |table| ==> table[i] == table[1..][i - 1];
      r
  }

  function ContextKeywords(fieldName: string): seq<string> {
    Lookup(ContextTable, Lower(fieldName))
  }

  datatype ContextHit = ContextHit(value: string, context: string, confidence: nat, y: int)

  /** The keyword itself is not upper-cased: the table already is. */
  predicate Mentions(l: Line, keyword: string) {
    Contains(Upper(l.lineText), keyword)
  }

  /** A line with data within 50 pixels below `top`. */
  predicate IsDataLine(l: Line, top: int) {
    top < l.minTop < top + 50 && |Trim(l.lineText)| > 2
  }

  /** Index of the first line mentioning the keyword, from `i` on. */
  function MentionFrom(lines: seq<Line>, keyword: string, i: nat): (r: Option<nat>)
    requires i <= |lines|
    decreases |lines| - i
    ensures r.Some? ==> i <= r.value < |lines| && Mentions(lines[r.value], keyword)
    ensures r.Some? ==> forall k :: i <= k < r.value ==> !Mentions(lines[k], keyword)
    ensures r.None? <==> forall k :: i <= k < |lines| ==> !Mentions(lines[k], keyword)
  {
    if i == |lines| then None
    else if Mentions(lines[i], keyword) then Some(i)
    else MentionFrom(lines, keyword, i + 1)
  }

  /** Index of the first data line below `top`, from `i` on. */
  function DataLineFrom(lines: seq<Line>, top: int, i: nat): (r: Option<nat>)
    requires i <= |lines|
    decreases |lines| - i
    ensures r.Some? ==> i <= r.value < |lines| && IsDataLine(lines[r.value], top)
    ensures r.Some? ==> forall k :: i <= k < r.value ==> !IsDataLine(lines[k], top)
    ensures r.None? <==> forall k :: i <= k < |lines| ==> !IsDataLine(lines[k], top)
  {
    if i == |lines| then None
    else if IsDataLine(lines[i], top) then Some(i)
    else DataLineFrom(lines, top, i + 1)
  }

  /** The hit for one keyword: the first data line below the first line mentioning it. */
  function ContextFor(lines: seq<Line>, keyword: string): (r: Option<ContextHit>)
    ensures r.Some? ==> (r.value.context == keyword && r.value.confidence == 85
      && |r.value.value| > 2 && IsTrimmed(r.value.value))
    ensures r.Some? <==> (MentionFrom(lines, keyword, 0).Some?
      && DataLineFrom(lines, lines[MentionFrom(lines, keyword, 0).value].minTop, 0).Some?)
  {
    match MentionFrom(lines, keyword, 0)
    case None => None
    case Some(i) =>
      match DataLineFrom(lines, lines[i].minTop, 0)
      case None => None
      case Some(j) =>
        TrimIdempotent(lines[j].lineText);
        Some(ContextHit(Trim(lines[j].lineText), keyword, 85, lines[j].minTop))
  }

  /** A hit is the trimmed text and the top of the first line within 50 pixels
      below the first line that mentions the keyword. */
  lemma ContextForLines(lines: seq<Line>, keyword: string, i: nat, j: nat)
    requires 0 <= i < |lines| && Mentions(lines[i], keyword)
    requires forall k :: 0 <= k < i ==> !Mentions(lines[k], keyword)
    requires 0 <= j < |lines| && IsDataLine(lines[j], lines[i].minTop)
    requires forall k :: 0 <= k < j ==> !IsDataLine(lines[k], lines[i].minTop)
    ensures ContextFor(lines, keyword) == Some(ContextHit(Trim(lines[j].lineText), keyword, 85, lines[j].minTop))
  {
    MentionFromIs(lines, keyword, 0, i);
    DataLineFromIs(lines, lines[i].minTop, 0, j);
  }

  lemma {:induction false} MentionFromIs(lines: seq<Line>, keyword: string, from: nat, i: nat)
    requires from <= i < |lines| && Mentions(lines[i], keyword)
    requires forall k :: from <= k < i ==> !Mentions(lines[k], keyword)
    decreases i - from
    ensures MentionFrom(lines, keyword, from) == Some(i)
  {
    if from < i {
      MentionFromIs(lines, keyword, from + 1, i);
    }
  }

  lemma {:induction false} DataLineFromIs(lines: seq<Line>, top: int, from: nat, j: nat)
    requires from <= j < |lines| && IsDataLine(lines[j], top)
    requires forall k :: from <= k < j ==> !IsDataLine(lines[k], top)
    decreases j - from
    ensures DataLineFrom(lines, top, from) == Some(j)
  {
    if from < j {
      DataLineFromIs(lines, top, from + 1, j);
    }
  }

  /** The keyword at `m` is the first of `kws` with a hit. */
  predicate FirstHitAt(lines: seq<Line>, kws: seq<string>, m: nat) {
    m < |kws| && ContextFor(lines, kws[m]).Some?
    && forall m' :: 0 <= m' < m ==> ContextFor(lines, kws[m']).None?
  }

  /** The `for ... of keywords` loop: the first keyword with a hit wins. */
  function FirstContext(lines: seq<Line>, kws: seq<string>): (r: Option<ContextHit>)
    ensures r.None? <==> forall m :: 0 <= m < |kws| ==> ContextFor(lines, kws[m]).None?
    ensures r.Some? ==> (r.value.context in kws && r.value.confidence == 85
      && |r.value.value| > 2 && IsTrimmed(r.value.value))
  {
    if kws == [] then None
    else
      var h := ContextFor(lines, kws[0]);
      if h.Some? then h
      else
        var rest := FirstContext(lines, kws[1..]);
        assert forall m :: 1 <= m < |kws| ==> kws[m] == kws[1..][m - 1];
        assert rest.Some? ==> rest.value.context in kws[1..];
        rest
  }

  /** Keywords are tried in table order, and the first one with a hit decides. */
  lemma {:induction false} FirstContextIsFirstHit(lines: seq<Line>, kws: seq<string>, m: nat)
    requires FirstHitAt(lines, kws, m)
    ensures FirstContext(lines, kws) == ContextFor(lines, kws[m])
  {
    if m > 0 {
      assert ContextFor(lines, kws[0]).None?;
      var rest := kws[1..];
      assert rest[m - 1] == kws[m];
      forall m' | 0 <= m' < m - 1
        ensures ContextFor(lines, rest[m']).None?
      {
        assert rest[m'] == kws[m' + 1];
      }
      FirstContextIsFirstHit(lines, rest, m - 1);
    }
  }

  function ExtractWithContext(lines: seq<Line>, fieldName: string): (r: Option<ContextHit>)
    ensures ContextKeywords(fieldName) == [] ==> r.None?
    ensures r.Some? ==> (r.value.context in ContextKeywords(fieldName) && r.value.confidence == 85
      && |r.value.value| > 2 && IsTrimmed(r.value.value))
  {
    FirstContext(lines, ContextKeywords(fieldName))
  }

  // ---------------------------------------------------------------------
  // calculateConfidence / chooseBestExtraction
  // ---------------------------------------------------------------------

  /** `typeBonus[type] || 0`. */
  function TypeBonus(t: string, validated: bool): (b: nat)
    ensures b <= 20
    ensures !validated ==> b == 0
  {
    if !validated then 0
    else if t == "cpf" then 20
    else if t == "placa" || t == "renavam" then 15
    else if t == "data" then 10
    else 0
  }

  /** The score `calculateConfidence` returns, in hundredths. */
  function Confidence(value: string, t: string, hasKeyword: bool, validated: bool): (c: nat)
    ensures 50 <= c <= 100
  {
    var raw := 50 + (if validated then 30 else 0) + (if hasKeyword then 15 else 0)
      + (if |value| > 2 then 5 else 0) + TypeBonus(t, validated);
    if raw < 100 then raw else 100
  }

  /** Validation and a keyword never lower the score. */
  lemma ConfidenceMonotone(value: string, t: string, hasKeyword: bool, validated: bool)
    ensures Confidence(value, t, hasKeyword, false) <= Confidence(value, t, hasKeyword, true)
    ensures Confidence(value, t, false, validated) <= Confidence(value, t, true, validated)
  {
  }

  /** `calculateConfidence`: `score` is accumulated bonus by bonus. */
  method CalculateConfidence(value: string, t: string, hasKeyword: bool, validated: bool) returns (score: nat)
    ensures score == Confidence(value, t, hasKeyword, validated)
    ensures 50 <= score <= 100
  {
    score := 50;
    if validated {
      score := score + 30;
    }
    if hasKeyword {
      score := score + 15;
    }
    if |value| > 2 {
      score := score + 5;
    }
    score := score + TypeBonus(t, validated);
    if score > 100 {
      score := 100;
    }
  }

  /** `extractions.reduce(...)` over the first `n`: the first of the highest confidence. */
  function BestExtraction(xs: seq<Extraction>, n: nat): (b: nat)
    requires 0 < n <= |xs|
    ensures b < n
    ensures forall j :: 0 <= j < n ==> xs[j].confidence <= xs[b].confidence
    ensures forall j :: 0 <= j < b ==> xs[j].confidence < xs[b].confidence
  {
    if n == 1 then 0
    else
      var best := BestExtraction(xs, n - 1);
      if xs[n - 1].confidence > xs[best].confidence then n - 1 else best
  }

  /** `xs[b]` has the highest confidence, and nothing before it ties. */
  predicate IsBestAt(xs: seq<Extraction>, b: int) {
    0 <= b < |xs| && (forall j :: 0 <= j < |xs| ==> xs[j].confidence <= xs[b].confidence)
    && forall j :: 0 <= j < b ==> xs[j].confidence < xs[b].confidence
  }

  function ChooseBestExtraction(xs: seq<Extraction>): (r: Option<Extraction>)
    ensures r.None? <==> xs == []
    ensures r.Some? ==> exists b :: IsBestAt(xs, b) && r.value == xs[b]
  {
    if xs == [] then None else Some(xs[BestExtraction(xs, |xs|)])
  }
}
