/** The approach-data section (ApproachData.jsx): the three "Sim / Não se
    aplica" checkbox pairs, which stay mutually exclusive, and the vehicle
    plate read from the OCR text. */
module Approach {
  import opened Text
  import opened Patterns
  import opened OcrModel
  import opened BrazilianValidators
  import opened FormState

  // ---------------------------------------------------------------------
  // The checkbox pairs
  // ---------------------------------------------------------------------

  /** One "Sim / Não se aplica" pair and the fields cleared when "Não se aplica" is ticked. */
  datatype Pair = Pair(yes: string, no: string, clears: seq<string>)

  const ApelidoPair: Pair := Pair("inserirApelido", "naoAplicaApelido", ["apelido"])
  const TornozeleiraPair: Pair := Pair("tornozeleiraCheck", "naoAplicaTornozeleira", ["tornozeleiraNumero"])
  const VeiculoPair: Pair := Pair("veiculoCheck", "naoAplicaVeiculo", ["veiculoPlaca", "veiculoCor", "veiculoModelo"])

  /** Each of `fs` set to `""`. */
  function Cleared(d: map<string, Value>, fs: seq<string>): (r: map<string, Value>)
    decreases |fs|
    ensures forall f :: f in r <==> f in d || f in fs
    ensures forall f :: f in fs ==> r[f] == Str("")
    ensures forall f :: f in d && f !in fs ==> r[f] == d[f]
  {
    if fs == [] then d else Cleared(d[fs[0] := Str("")], fs[1..])
  }

  /** The record after a pair's handler sees `(field, value)`: ticking "Sim"
      sets the pair to (true, false); ticking "Não se aplica" sets it to
      (false, true) and clears the pair's fields; anything else (an unticked
      box) changes nothing. */
  function Changed(d: map<string, Value>, p: Pair, field: string, value: bool): map<string, Value> {
    if field == p.yes && value then d[p.yes := Flag(true)][p.no := Flag(false)]
    else if field == p.no && value then Cleared(d[p.no := Flag(true)][p.yes := Flag(false)], p.clears)
    else d
  }

  /** The pair holds two opposite checkbox values. */
  predicate Exclusive(d: map<string, Value>, p: Pair) {
    p.yes in d && p.no in d && d[p.yes].Flag? && d[p.no] == Flag(!d[p.yes].b)
  }

  /** A pair whose fields are two distinct checkboxes outside the cleared ones. */
  predicate WellFormed(p: Pair) {
    p.yes != p.no && p.yes !in p.clears && p.no !in p.clears
  }

  lemma PairsWellFormed()
    ensures WellFormed(ApelidoPair) && WellFormed(TornozeleiraPair) && WellFormed(VeiculoPair)
  {
  }

  /** Ticking "Sim" selects it; ticking "Não se aplica" selects that and
      clears the pair's fields; every other field keeps its value. */
  lemma ChangedSelects(d: map<string, Value>, p: Pair, field: string, value: bool)
    requires WellFormed(p)
    ensures field == p.yes && value ==> Changed(d, p, field, value)[p.yes] == Flag(true) && Changed(d, p, field, value)[p.no] == Flag(false)
    ensures field == p.no && value ==> Changed(d, p, field, value)[p.yes] == Flag(false) && Changed(d, p, field, value)[p.no] == Flag(true)
    ensures field == p.no && value ==> forall f :: f in p.clears ==> Changed(d, p, field, value)[f] == Str("")
    ensures forall f :: f in d && f != p.yes && f != p.no && f !in p.clears ==> f in Changed(d, p, field, value) && Changed(d, p, field, value)[f] == d[f]
    ensures !value ==> Changed(d, p, field, value) == d
  {
  }

  /** Once the pair is exclusive, no handler call can break that. */
  lemma ChangedKeepsExclusive(d: map<string, Value>, p: Pair, field: string, value: bool)
    requires WellFormed(p) && Exclusive(d, p)
    ensures Exclusive(Changed(d, p, field, value), p)
  {
  }

  /** The initial record has all three pairs exclusive, on "Não se aplica". */
  lemma InitialExclusive()
    ensures Exclusive(InitialFormData, ApelidoPair) && InitialFormData[ApelidoPair.no] == Flag(true)
    ensures Exclusive(InitialFormData, TornozeleiraPair) && InitialFormData[TornozeleiraPair.no] == Flag(true)
    ensures Exclusive(InitialFormData, VeiculoPair) && InitialFormData[VeiculoPair.no] == Flag(true)
  {
  }

  // ---------------------------------------------------------------------
  // extractPlateFromOCR
  // ---------------------------------------------------------------------

  /** End of `[A-Z]{3}[-\s]?\d{4}` matched at `p`: the optional separator is
      taken when present, since neither `-` nor whitespace is a digit. */
  function LegacyLooseEnd(s: string, p: nat): (r: Option<nat>)
    ensures r.Some? ==> p + 7 <= r.value <= |s|
  {
    if p + 3 <= |s| && IsUpper(s[p]) && IsUpper(s[p + 1]) && IsUpper(s[p + 2]) then
      var q := OptSep(s, p + 3, DashOrSpace);
      if DigitsAt(s, q, 4) then Some(q + 4) else None
    else None
  }

  /** `ocrText.match(/[A-Z]{3}[-\s]?\d{4}/)`: the leftmost match. */
  function LegacyLooseMatch(s: string): (r: Option<string>)
  {
    match FirstIndex(0, |s|, (p: nat) => LegacyLooseEnd(s, p).Some?)
    case None => None
    case Some(p) => Some(s[p..LegacyLooseEnd(s, p).value])
  }

  /** `ocrText.match(/[A-Z]{3}\d[A-Z]\d{2}/)`: the leftmost match. */
  function MercosulMatch(s: string): (r: Option<string>)
    ensures r.Some? ==> IsShape(r.value, MercosulPlateShape)
  {
    match FirstIndex(0, |s|, (p: nat) => ShapeAt(s, p, MercosulPlateShape))
    case None => None
    case Some(p) => Some(s[p..p + 7])
  }

  /** `.replace(/([A-Z]{3})(\d{4})/, "$1-$2")`: a dash after the letters of
      the leftmost `LLLDDDD`, if there is one. */
  function HyphenateLegacy(t: string): (r: string)
  {
    match FirstIndex(0, |t|, (p: nat) => ShapeAt(t, p, LegacyPlateShape))
    case None => t
    case Some(p) => t[..p + 3] + "-" + t[p + 3..]
  }

  /** A match cleaned as the source does: upper-cased (the match is already
      upper case), whitespace removed, then hyphenated. */
  function NormalizePlate(m: string): string {
    HyphenateLegacy(StripSpaces(Upper(m)))
  }

  /** The plate `extractPlateFromOCR` writes: the first pattern that matches anywhere, cleaned. */
  function PlateFromText(s: string): Option<string> {
    match LegacyLooseMatch(s)
    case Some(m) => Some(NormalizePlate(m))
    case None =>
      match MercosulMatch(s)
      case Some(m) => Some(NormalizePlate(m))
      case None => None
  }

  /** The record after `extractPlateFromOCR`: nothing for an empty text; the
      plate and "Sim" when a pattern matches; "Não se aplica" otherwise. */
  function PlateExtracted(d: map<string, Value>, ocrText: string): map<string, Value> {
    if ocrText == "" then d
    else match PlateFromText(ocrText)
      case Some(plate) => Changed(d["veiculoPlaca" := Str(plate)], VeiculoPair, "veiculoCheck", true)
      case None => Changed(d, VeiculoPair, "naoAplicaVeiculo", true)
  }

  /** The auto-trigger: some OCR text and no plate yet. */
  predicate ShouldAutoExtract(d: map<string, Value>, ocrText: string) {
    ocrText != "" && !Truthy(d, "veiculoPlaca")
  }

  /** A legacy match is three letters, an optional dash or whitespace, four digits. */
  lemma LegacyMatchShape(s: string)
    requires LegacyLooseMatch(s).Some?
    ensures var m := LegacyLooseMatch(s).value;
      (|m| == 7 && IsShape(m, LegacyPlateShape))
      || (|m| == 8 && DashOrSpace(m[3]) && IsShape(m[..3] + m[4..], LegacyPlateShape))
  {
    var p := FirstIndex(0, |s|, (p: nat) => LegacyLooseEnd(s, p).Some?).value;
    var e := LegacyLooseEnd(s, p).value;
    var m := s[p..e];
    assert forall i :: 0 <= i < |m| ==> m[i] == s[p + i];
    if e == p + 8 {
      var t := m[..3] + m[4..];
      assert forall i :: 0 <= i < 3 ==> t[i] == s[p + i];
      assert forall i :: 3 <= i < 7 ==> t[i] == s[p + i + 1];
    }
  }

  /** Every plate the extraction writes is `LLL-DDDD` (legacy, with or without
      separator in the text) or `LLLDLDD` (Mercosul), and so a valid plate. */
  lemma PlateFromTextValid(s: string)
    requires PlateFromText(s).Some?
    ensures IsValidPlaca(PlateFromText(s).value)
  {
    match LegacyLooseMatch(s)
    case Some(m) =>
      LegacyMatchShape(s);
      LegacyNormalized(m);
    case None =>
      var m := MercosulMatch(s).value;
      MercosulNormalized(m);
  }

  /** A legacy match normalises to `LLL-DDDD`. */
  lemma LegacyNormalized(m: string)
    requires (|m| == 7 && IsShape(m, LegacyPlateShape))
      || (|m| == 8 && DashOrSpace(m[3]) && IsShape(m[..3] + m[4..], LegacyPlateShape))
    ensures NormalizePlate(m) == Dashed(m[..3] + m[|m| - 4..])
    ensures IsValidPlaca(NormalizePlate(m))
  {
    var c := m[..3] + m[|m| - 4..];
    if |m| == 7 {
      assert m == c;
      NormalizeUnseparated(c);
    } else {
      assert c == m[..3] + m[4..];
      assert m == c[..3] + [m[3]] + c[3..];
      if m[3] == '-' {
        NormalizeDashed(c);
      } else {
        NormalizeSpaced(c, m[3]);
      }
    }
    DashedValid(c);
  }

  /** `LLL-DDDD` from `LLLDDDD`. */
  function Dashed(c: string): string
    requires |c| >= 3
  {
    c[..3] + "-" + c[3..]
  }

  lemma LegacyUpperOrDigit(c: string)
    requires IsShape(c, LegacyPlateShape)
    ensures forall i :: 0 <= i < |c| ==> IsUpperOrDigit(c[i])
  {
    forall i | 0 <= i < 7
      ensures IsUpperOrDigit(c[i])
    {
      assert ClsMatch(LegacyPlateShape[i], c[i]);
    }
  }

  lemma DashedValid(c: string)
    requires IsShape(c, LegacyPlateShape)
    ensures IsValidPlaca(Dashed(c))
  {
    LegacyUpperOrDigit(c);
    CleanPlacaDashed(c);
  }

  lemma NormalizeUnseparated(c: string)
    requires IsShape(c, LegacyPlateShape)
    ensures NormalizePlate(c) == Dashed(c)
  {
    LegacyUpperOrDigit(c);
    UpperKeeps(c);
    FilterKeepsAll(c, NotSpace);
    HyphenateOfLegacy(c);
  }

  lemma NormalizeDashed(c: string)
    requires IsShape(c, LegacyPlateShape)
    ensures NormalizePlate(Dashed(c)) == Dashed(c)
  {
    var t := Dashed(c);
    LegacyUpperOrDigit(c);
    assert forall i :: 0 <= i < |t| ==> IsUpperOrDigit(t[i]) || t[i] == '-';
    UpperKeeps(t);
    FilterKeepsAll(t, NotSpace);
    HyphenateOfDashed(c);
  }

  lemma NormalizeSpaced(c: string, x: char)
    requires IsShape(c, LegacyPlateShape) && IsSpace(x)
    ensures NormalizePlate(c[..3] + [x] + c[3..]) == Dashed(c)
  {
    UpperSpaced(c, x);
    LegacyUpperOrDigit(c);
    var a, b := c[..3], c[3..];
    assert forall i :: 0 <= i < |a| ==> NotSpace(a[i]) by {
      forall i | 0 <= i < |a| ensures NotSpace(a[i]) {
        assert a[i] == c[i];
      }
    }
    assert forall i :: 0 <= i < |b| ==> NotSpace(b[i]) by {
      forall i | 0 <= i < |b| ensures NotSpace(b[i]) {
        assert b[i] == c[i + 3];
      }
    }
    StripAroundSpace(a, x, b);
    assert a + b == c;
    HyphenateOfLegacy(c);
  }

  lemma UpperSpaced(c: string, x: char)
    requires IsShape(c, LegacyPlateShape) && IsSpace(x)
    ensures Upper(c[..3] + [x] + c[3..]) == c[..3] + [x] + c[3..]
  {
    var t := c[..3] + [x] + c[3..];
    LegacyUpperOrDigit(c);
    assert UpperChar(x) == x;
    forall i | 0 <= i < |t|
      ensures UpperChar(t[i]) == t[i]
    {
      if i != 3 {
        assert IsUpperOrDigit(t[i]);
      }
    }
  }

  /** Removing whitespace drops one space between two runs of non-space characters. */
  lemma StripAroundSpace(a: string, x: char, b: string)
    requires forall i :: 0 <= i < |a| ==> NotSpace(a[i])
    requires forall i :: 0 <= i < |b| ==> NotSpace(b[i])
    requires IsSpace(x)
    ensures StripSpaces(a + [x] + b) == a + b
  {
    FilterConcat(a + [x], b, NotSpace);
    FilterConcat(a, [x], NotSpace);
    FilterKeepsAll(a, NotSpace);
    FilterKeepsAll(b, NotSpace);
    FilterDropsAll([x], NotSpace);
  }

  /** Upper-casing leaves letters, digits, dashes and whitespace as they are. */
  lemma UpperKeeps(m: string)
    requires forall i :: 0 <= i < |m| ==> IsUpperOrDigit(m[i]) || DashOrSpace(m[i])
    ensures Upper(m) == m
  {
  }

  lemma HyphenateOfLegacy(c: string)
    requires IsShape(c, LegacyPlateShape)
    ensures HyphenateLegacy(c) == Dashed(c)
  {
  }

  /** `LLL-DDDD` holds no `LLLDDDD`, so it is left as it is. */
  lemma HyphenateOfDashed(c: string)
    requires IsShape(c, LegacyPlateShape)
    ensures HyphenateLegacy(Dashed(c)) == Dashed(c)
  {
    var t := Dashed(c);
    forall p | 0 <= p < |t|
      ensures !ShapeAt(t, p, LegacyPlateShape)
    {
      if p == 0 {
        assert !ClsMatch(LegacyPlateShape[3], t[3]);
      } else if p == 1 {
        assert !ClsMatch(LegacyPlateShape[2], t[3]);
      }
    }
  }

  /** A Mercosul match is kept as it is. */
  lemma MercosulNormalized(m: string)
    requires IsShape(m, MercosulPlateShape)
    ensures NormalizePlate(m) == m
    ensures IsValidPlaca(NormalizePlate(m))
  {
    forall i | 0 <= i < 7
      ensures IsUpperOrDigit(m[i])
    {
      assert ClsMatch(MercosulPlateShape[i], m[i]);
    }
    UpperKeeps(m);
    FilterKeepsAll(m, NotSpace);
    forall p | 0 <= p < |m|
      ensures !ShapeAt(m, p, LegacyPlateShape)
    {
      if p == 0 {
        assert ClsMatch(MercosulPlateShape[4], m[4]);
        assert !ClsMatch(LegacyPlateShape[4], m[4]);
      }
    }
    PlateShapeIsValid(m);
  }

  /** With a plate found, the plate is written and "Sim" is ticked; without
      one, "Não se aplica" is ticked and the vehicle fields are cleared; an
      empty text changes nothing. */
  lemma PlateExtractedState(d: map<string, Value>, ocrText: string)
    ensures ocrText == "" ==> PlateExtracted(d, ocrText) == d
    ensures ocrText != "" && PlateFromText(ocrText).Some? ==>
      var d' := PlateExtracted(d, ocrText);
      d'["veiculoPlaca"] == Str(PlateFromText(ocrText).value) && IsValidPlaca(d'["veiculoPlaca"].s)
      && d'["veiculoCheck"] == Flag(true) && d'["naoAplicaVeiculo"] == Flag(false)
    ensures ocrText != "" && PlateFromText(ocrText).None? ==>
      var d' := PlateExtracted(d, ocrText);
      d'["veiculoCheck"] == Flag(false) && d'["naoAplicaVeiculo"] == Flag(true)
      && d'["veiculoPlaca"] == Str("") && d'["veiculoCor"] == Str("") && d'["veiculoModelo"] == Str("")
  {
    if ocrText != "" && PlateFromText(ocrText).Some? {
      PlateFromTextValid(ocrText);
    }
  }

  /** The auto-trigger never overwrites a plate already typed. */
  lemma AutoExtractKeepsTypedPlate(d: map<string, Value>, ocrText: string, plate: string)
    requires "veiculoPlaca" in d && d["veiculoPlaca"] == Str(plate) && plate != ""
    ensures !ShouldAutoExtract(d, ocrText)
  {
  }

  // ---------------------------------------------------------------------
  // The component
  // ---------------------------------------------------------------------

  /** The component: the shared form record and the three visibility flags. */
  class ApproachData {
    const form: FormData
    var showVehicleFields: bool
    var showAnkleBraceletField: bool
    var showNicknameField: bool

    /** The flags start from the record's opt-in boxes. */
    constructor (form: FormData)
      ensures this.form == form
      ensures showVehicleFields == Truthy(form.data, "veiculoCheck")
      ensures showAnkleBraceletField == Truthy(form.data, "tornozeleiraCheck")
      ensures showNicknameField == Truthy(form.data, "inserirApelido")
    {
      this.form := form;
      showVehicleFields := Truthy(form.data, "veiculoCheck");
      showAnkleBraceletField := Truthy(form.data, "tornozeleiraCheck");
      showNicknameField := Truthy(form.data, "inserirApelido");
    }

    /** Ticks `p.yes`, then clears `p.no`. */
    method Select(p: Pair)
      modifies form
      ensures form.data == old(form.data)[p.yes := Flag(true)][p.no := Flag(false)]
    {
      form.UpdateField(p.yes, Flag(true));
      form.UpdateField(p.no, Flag(false));
    }

    /** Ticks `p.no`, clears `p.yes`, then blanks the pair's fields in order. */
    method Deselect(p: Pair)
      modifies form
      ensures form.data == Cleared(old(form.data)[p.no := Flag(true)][p.yes := Flag(false)], p.clears)
    {
      form.UpdateField(p.no, Flag(true));
      form.UpdateField(p.yes, Flag(false));
      var i := 0;
      while i < |p.clears|
        invariant i <= |p.clears|
        invariant Cleared(form.data, p.clears[i..]) == Cleared(old(form.data)[p.no := Flag(true)][p.yes := Flag(false)], p.clears)
      {
        assert p.clears[i..][1..] == p.clears[i + 1..];
        form.UpdateField(p.clears[i], Str(""));
        i := i + 1;
      }
    }

    /** `handleApelidoChange`. */
    method HandleApelidoChange(field: string, value: bool)
      modifies this, form
      ensures form.data == Changed(old(form.data), ApelidoPair, field, value)
      ensures showNicknameField == (if field == ApelidoPair.yes && value then true
        else if field == ApelidoPair.no && value then false else old(showNicknameField))
      ensures showVehicleFields == old(showVehicleFields) && showAnkleBraceletField == old(showAnkleBraceletField)
    {
      if field == "inserirApelido" && value {
        Select(ApelidoPair);
        showNicknameField := true;
      } else if field == "naoAplicaApelido" && value {
        Deselect(ApelidoPair);
        showNicknameField := false;
      }
    }

    /** `handleTornozeleiraChange`. */
    method HandleTornozeleiraChange(field: string, value: bool)
      modifies this, form
      ensures form.data == Changed(old(form.data), TornozeleiraPair, field, value)
      ensures showAnkleBraceletField == (if field == TornozeleiraPair.yes && value then true
        else if field == TornozeleiraPair.no && value then false else old(showAnkleBraceletField))
      ensures showVehicleFields == old(showVehicleFields) && showNicknameField == old(showNicknameField)
    {
      if field == "tornozeleiraCheck" && value {
        Select(TornozeleiraPair);
        showAnkleBraceletField := true;
      } else if field == "naoAplicaTornozeleira" && value {
        Deselect(TornozeleiraPair);
        showAnkleBraceletField := false;
      }
    }

    /** `handleVeiculoChange`. */
    method HandleVeiculoChange(field: string, value: bool)
      modifies this, form
      ensures form.data == Changed(old(form.data), VeiculoPair, field, value)
      ensures showVehicleFields == (if field == VeiculoPair.yes && value then true
        else if field == VeiculoPair.no && value then false else old(showVehicleFields))
      ensures showAnkleBraceletField == old(showAnkleBraceletField) && showNicknameField == old(showNicknameField)
    {
      if field == "veiculoCheck" && value {
        Select(VeiculoPair);
        showVehicleFields := true;
      } else if field == "naoAplicaVeiculo" && value {
        Deselect(VeiculoPair);
        showVehicleFields := false;
      }
    }

    /** `extractPlateFromOCR`: the two patterns in order, stopping at the first that matches. */
    method ExtractPlateFromOCR(ocrText: string)
      modifies this, form
      ensures form.data == PlateExtracted(old(form.data), ocrText)
      ensures ocrText != "" ==> showVehicleFields == PlateFromText(ocrText).Some?
      ensures ocrText == "" ==> showVehicleFields == old(showVehicleFields)
      ensures showAnkleBraceletField == old(showAnkleBraceletField) && showNicknameField == old(showNicknameField)
    {
      if ocrText == "" {
        return;
      }
      var plateFound := false;
      var i := 0;
      while i < 2
        invariant i <= 2 && !plateFound
        invariant form.data == old(form.data)
        invariant showVehicleFields == old(showVehicleFields)
        invariant showAnkleBraceletField == old(showAnkleBraceletField) && showNicknameField == old(showNicknameField)
        invariant i >= 1 ==> LegacyLooseMatch(ocrText).None?
        invariant i == 2 ==> MercosulMatch(ocrText).None?
      {
        var m := if i == 0 then LegacyLooseMatch(ocrText) else MercosulMatch(ocrText);
        if m.Some? {
          var plate := NormalizePlate(m.value);
          form.UpdateField("veiculoPlaca", Str(plate));
          HandleVeiculoChange("veiculoCheck", true);
          plateFound := true;
          break;
        }
        i := i + 1;
      }
      if !plateFound {
        HandleVeiculoChange("naoAplicaVeiculo", true);
      }
    }

    /** The effect on an OCR-text change: extract unless a plate is already there. */
    method OnOcrTextChange(ocrText: string)
      modifies this, form
      ensures form.data == (if ShouldAutoExtract(old(form.data), ocrText) then PlateExtracted(old(form.data), ocrText) else old(form.data))
      ensures showVehicleFields == (if ShouldAutoExtract(old(form.data), ocrText) then PlateFromText(ocrText).Some? else old(showVehicleFields))
      ensures showAnkleBraceletField == old(showAnkleBraceletField) && showNicknameField == old(showNicknameField)
    {
      if ocrText != "" && !Truthy(form.data, "veiculoPlaca") {
        ExtractPlateFromOCR(ocrText);
      }
    }

    /** The effect on a record change: the flags follow the opt-in boxes. */
    method SyncVisibility()
      modifies this
      ensures showNicknameField == Truthy(form.data, "inserirApelido")
      ensures showAnkleBraceletField == Truthy(form.data, "tornozeleiraCheck")
      ensures showVehicleFields == Truthy(form.data, "veiculoCheck")
    {
      showNicknameField := Truthy(form.data, "inserirApelido");
      showAnkleBraceletField := Truthy(form.data, "tornozeleiraCheck");
      showVehicleFields := Truthy(form.data, "veiculoCheck");
    }
  }
}
