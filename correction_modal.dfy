/** The correction dialog of CorrectionModal.jsx: a case-insensitive "text
    between two expressions" extraction over the raw OCR text, and the
    choice between the extracted and the typed value when a correction is
    applied. */
module CorrectionModal {
  import opened Text

  /** What the dialog shows when the start expression does not occur. */
  const NotFoundMsg: string := "\U{274C} Express\U{00E3}o inicial n\U{00E3}o encontrada"

  /** Where the start expression first occurs in the text, ignoring case. */
  function StartIndex(text: string, start: string): (r: int)
    ensures r == -1 || (0 <= r && r + |Trim(start)| <= |text|)
  {
    IndexOfFrom(Lower(text), Lower(Trim(start)), 0)
  }

  /** Where the slice stops: just past the first occurrence of the end
      expression that begins after the start expression, or the end of the
      text when there is no end expression or it does not occur there. */
  function EndIndex(text: string, start: string, end: string, si: nat): (r: nat)
    requires si + |Trim(start)| <= |text|
    ensures si + |Trim(start)| <= r <= |text|
  {
    var e := Trim(end);
    if e == "" then |text|
    else
      var ei := IndexOfFrom(Lower(text), Lower(e), si + |Trim(start)|);
      if ei != -1 then ei + |e| else |text|
  }

  /** `extractTextBetweenExpressions`, as the value it leaves in
      `extractedValue`. */
  function ExtractBetween(text: string, start: string, end: string): (r: string)
    ensures text == "" || Trim(start) == "" ==> r == ""
    ensures r == NotFoundMsg || IsTrimmed(r)
  {
    if text == "" || Trim(start) == "" then ""
    else
      var si := StartIndex(text, start);
      if si == -1 then NotFoundMsg
      else Trim(text[si..EndIndex(text, start, end, si)])
  }

  /** Trimming a slice leaves a slice. */
  lemma TrimIsSlice(s: string, a: nat, b: nat)
    requires a <= b <= |s|
    ensures exists x, y :: 0 <= x <= y <= |s| && Trim(s[a..b]) == s[x..y]
  {
    var w := s[a..b];
    var lo := a + LeadingSpaces(w);
    assert Trim(w) == s[lo..lo + |Trim(w)|];
  }

  /** The extraction is cleared, the "not found" message, or a trimmed piece
      of the text. */
  lemma ExtractBetweenShape(text: string, start: string, end: string)
    ensures var r := ExtractBetween(text, start, end);
      r == "" || r == NotFoundMsg
      || (IsTrimmed(r) && exists a, b :: 0 <= a <= b <= |text| && r == text[a..b])
  {
    if text != "" && Trim(start) != "" {
      var si := StartIndex(text, start);
      if si != -1 {
        TrimIsSlice(text, si, EndIndex(text, start, end, si));
      }
    }
  }

  /** An empty text or a blank start expression clears the extraction. */
  lemma ExtractBlank(text: string, start: string, end: string)
    requires text == "" || Trim(start) == ""
    ensures ExtractBetween(text, start, end) == ""
  {
  }

  /** A start expression that does not occur, in any case, gives the
      "not found" message. */
  lemma ExtractStartMissing(text: string, start: string, end: string)
    requires text != "" && Trim(start) != ""
    requires forall k :: 0 <= k ==> !OccursAt(Lower(text), Lower(Trim(start)), k)
    ensures ExtractBetween(text, start, end) == NotFoundMsg
  {
    assert StartIndex(text, start) == -1;
  }

  /** The first case-insensitive occurrence of the start expression is where
      the slice begins. */
  lemma StartAtFirst(text: string, start: string, k: nat)
    requires OccursAt(Lower(text), Lower(Trim(start)), k)
    requires forall j :: 0 <= j < k ==> !OccursAt(Lower(text), Lower(Trim(start)), j)
    ensures StartIndex(text, start) == k
    ensures k + |Trim(start)| <= |text|
  {
    FirstOccurrence(Lower(text), Lower(Trim(start)), 0, k);
  }

  /** `indexOf` from `from` finds the first occurrence at or after `from`. */
  lemma FirstOccurrence(s: string, t: string, from: nat, e: nat)
    requires from <= e && OccursAt(s, t, e)
    requires forall j :: from <= j < e ==> !OccursAt(s, t, j)
    ensures IndexOfFrom(s, t, from) == e
  {
  }

  /** Without an end expression the slice runs from the first occurrence of
      the start expression to the end of the text. */
  lemma ExtractToTextEnd(text: string, start: string, end: string, k: nat)
    requires text != "" && Trim(start) != "" && Trim(end) == ""
    requires OccursAt(Lower(text), Lower(Trim(start)), k)
    requires forall j :: 0 <= j < k ==> !OccursAt(Lower(text), Lower(Trim(start)), j)
    ensures ExtractBetween(text, start, end) == Trim(text[k..])
  {
    StartAtFirst(text, start, k);
    assert EndIndex(text, start, end, k) == |text|;
    assert text[k..|text|] == text[k..];
  }

  /** An end expression that does not occur after the start expression also
      lets the slice run to the end of the text: the warning the source sets
      first is overwritten by the slice. */
  lemma ExtractEndMissing(text: string, start: string, end: string, k: nat)
    requires text != "" && Trim(start) != "" && Trim(end) != ""
    requires OccursAt(Lower(text), Lower(Trim(start)), k)
    requires forall j :: 0 <= j < k ==> !OccursAt(Lower(text), Lower(Trim(start)), j)
    requires forall j :: k + |Trim(start)| <= j ==> !OccursAt(Lower(text), Lower(Trim(end)), j)
    ensures ExtractBetween(text, start, end) == Trim(text[k..])
  {
    StartAtFirst(text, start, k);
    var ei := IndexOfFrom(Lower(text), Lower(Trim(end)), k + |Trim(start)|);
    assert ei == -1;
    assert EndIndex(text, start, end, k) == |text|;
    assert text[k..|text|] == text[k..];
  }

  /** With an end expression found after the start expression, the slice
      stops just past its first such occurrence, so the end expression is
      part of the result. */
  lemma ExtractToEndMatch(text: string, start: string, end: string, k: nat, e: nat)
    requires text != "" && Trim(start) != "" && Trim(end) != ""
    requires OccursAt(Lower(text), Lower(Trim(start)), k)
    requires forall j :: 0 <= j < k ==> !OccursAt(Lower(text), Lower(Trim(start)), j)
    requires k + |Trim(start)| <= e && OccursAt(Lower(text), Lower(Trim(end)), e)
    requires forall j :: k + |Trim(start)| <= j < e ==> !OccursAt(Lower(text), Lower(Trim(end)), j)
    ensures e + |Trim(end)| <= |text|
    ensures ExtractBetween(text, start, end) == Trim(text[k..e + |Trim(end)|])
  {
    assert StartIndex(text, start) == k && k + |Trim(start)| <= |text| by {
      StartAtFirst(text, start, k);
    }
    assert EndIndex(text, start, end, k) == e + |Trim(end)| by {
      EndAtMatch(text, start, end, k, e);
    }
    ExtractFoundAt(text, start, end, k, e + |Trim(end)|);
  }

  /** The same, with the end index named. */
  lemma ExtractFoundAt(text: string, start: string, end: string, si: nat, ei: nat)
    requires text != "" && Trim(start) != ""
    requires StartIndex(text, start) == si
    requires si + |Trim(start)| <= |text| && EndIndex(text, start, end, si) == ei
    ensures ei <= |text|
    ensures ExtractBetween(text, start, end) == Trim(text[si..ei])
  {
    ExtractFound(text, start, end, si);
  }

  /** Once the start expression is found at `si`, the result is the trimmed
      slice from `si` to the end index. */
  lemma ExtractFound(text: string, start: string, end: string, si: nat)
    requires text != "" && Trim(start) != ""
    requires StartIndex(text, start) == si
    ensures si + |Trim(start)| <= |text|
    ensures ExtractBetween(text, start, end) == Trim(text[si..EndIndex(text, start, end, si)])
  {
  }

  /** The end index lies just past the first occurrence of the end
      expression after the start expression. */
  lemma EndAtMatch(text: string, start: string, end: string, si: nat, e: nat)
    requires Trim(end) != ""
    requires si + |Trim(start)| <= e && OccursAt(Lower(text), Lower(Trim(end)), e)
    requires forall j :: si + |Trim(start)| <= j < e ==> !OccursAt(Lower(text), Lower(Trim(end)), j)
    ensures si + |Trim(start)| <= |text|
    ensures EndIndex(text, start, end, si) == e + |Trim(end)|
  {
    FirstOccurrence(Lower(text), Lower(Trim(end)), si + |Trim(start)|, e);
  }

  /** `extractedValue && extractedValue !== "❌ Expressão inicial não encontrada"`. */
  predicate Usable(extracted: string) {
    extracted != "" && extracted != NotFoundMsg
  }

  /** The value `handleApply` starts from: the extraction when usable,
      otherwise the typed value. */
  function Chosen(extracted: string, manual: string): (r: string)
    ensures Usable(extracted) ==> r == extracted
    ensures !Usable(extracted) ==> r == manual
  {
    if Usable(extracted) then extracted else manual
  }

  /** A usable extraction is applied as it is: it is already a trimmed piece
      of the OCR text. */
  lemma AppliedExtractionIsText(text: string, start: string, end: string)
    requires Usable(ExtractBetween(text, start, end))
    ensures Trim(ExtractBetween(text, start, end)) == ExtractBetween(text, start, end)
    ensures exists a, b :: 0 <= a <= b <= |text| && ExtractBetween(text, start, end) == text[a..b]
  {
    ExtractBetweenShape(text, start, end);
    TrimOfTrimmed(ExtractBetween(text, start, end));
  }

  /** The dialog's state. `ocrText` is a prop, fixed while the dialog is open. */
  class Dialog {
    const ocrText: string
    var manualValue: string
    var startExpression: string
    var endExpression: string
    var extractedValue: string

    /** The effect that re-runs the extraction keeps `extractedValue` in step
        with the two expressions. */
    predicate Valid()
      reads this
    {
      extractedValue == ExtractBetween(ocrText, startExpression, endExpression)
    }

    /** The initial state; `currentValue || ""` arrives as `current`. */
    constructor (text: string, current: string)
      ensures ocrText == text && manualValue == current
      ensures startExpression == "" && endExpression == "" && extractedValue == ""
      ensures Valid()
    {
      ocrText := text;
      manualValue := current;
      startExpression := "";
      endExpression := "";
      extractedValue := "";
    }

    /** Typing a start expression; the effect re-runs the extraction. */
    method SetStartExpression(s: string)
      modifies this
      ensures startExpression == s && endExpression == old(endExpression)
      ensures manualValue == old(manualValue)
      ensures extractedValue == ExtractBetween(ocrText, s, endExpression)
      ensures Valid()
    {
      startExpression := s;
      extractedValue := ExtractBetween(ocrText, startExpression, endExpression);
    }

    /** Typing an end expression; the effect re-runs the extraction. */
    method SetEndExpression(s: string)
      modifies this
      ensures endExpression == s && startExpression == old(startExpression)
      ensures manualValue == old(manualValue)
      ensures extractedValue == ExtractBetween(ocrText, startExpression, s)
      ensures Valid()
    {
      endExpression := s;
      extractedValue := ExtractBetween(ocrText, startExpression, endExpression);
    }

    /** Typing in the manual field, or a new `currentValue` arriving. */
    method SetManualValue(s: string)
      modifies this
      ensures manualValue == s
      ensures startExpression == old(startExpression) && endExpression == old(endExpression)
      ensures extractedValue == old(extractedValue)
    {
      manualValue := s;
    }

    /** `handleApply`: the value passed to `onApply`, if it is called at all.
        It is called exactly when the chosen value is not blank, with that
        value trimmed. */
    method HandleApply() returns (applied: Option<string>)
      ensures applied.Some? <==> Trim(Chosen(extractedValue, manualValue)) != ""
      ensures applied.Some? ==> applied.value == Trim(Chosen(extractedValue, manualValue))
      ensures applied.Some? ==> IsTrimmed(applied.value) && applied.value != ""
    {
      var finalValue := if Usable(extractedValue) then extractedValue else manualValue;
      if Trim(finalValue) != "" {
        applied := Some(Trim(finalValue));
      } else {
        applied := None;
      }
    }

    /** `handleUseExtracted`: a usable extraction replaces the typed value;
        otherwise nothing changes. */
    method HandleUseExtracted()
      modifies this
      ensures manualValue == (if Usable(old(extractedValue)) then old(extractedValue) else old(manualValue))
      ensures extractedValue == old(extractedValue)
      ensures startExpression == old(startExpression) && endExpression == old(endExpression)
    {
      if Usable(extractedValue) {
        manualValue := extractedValue;
      }
    }

    /** The apply button is enabled only while the typed value is not blank. */
    predicate ApplyEnabled()
      reads this
    {
      Trim(manualValue) != ""
    }
  }

  /** While the apply button is enabled (`!manualValue.trim()` is false),
      applying passes a value on: either the typed value, or a usable
      extraction, which is trimmed and non-empty. */
  lemma EnabledApplies(ocrText: string, start: string, end: string, manual: string)
    requires Trim(manual) != ""
    ensures Trim(Chosen(ExtractBetween(ocrText, start, end), manual)) != ""
  {
    var e := ExtractBetween(ocrText, start, end);
    if Usable(e) {
      TrimOfTrimmed(e);
    }
  }

  /** The converse fails: with a usable extraction and a blank typed value
      the button is disabled, although applying would pass the extraction on. */
  lemma DisabledButApplicable(ocrText: string, start: string, end: string, manual: string)
    requires Usable(ExtractBetween(ocrText, start, end)) && Trim(manual) == ""
    ensures Trim(Chosen(ExtractBetween(ocrText, start, end), manual)) == ExtractBetween(ocrText, start, end) != ""
  {
    TrimOfTrimmed(ExtractBetween(ocrText, start, end));
  }

  /** Copying the extraction into the manual field never changes what
      applying would pass on. */
  lemma UseExtractedKeepsApply(extracted: string, manual: string)
    ensures Chosen(extracted, Chosen(extracted, manual)) == Chosen(extracted, manual)
  {
  }
}
