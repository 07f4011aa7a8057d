/** Hand-written scanners for the regular expressions the extractors share.
    Each pattern here is deterministic: its optional parts and repetitions are
    followed by characters they cannot consume, so the leftmost match of the
    JavaScript regex is the leftmost position where the scanner succeeds. */
module Patterns {
  import opened Text

  // ---------------------------------------------------------------------
  // Fixed-length shapes: a sequence of one-character classes
  // ---------------------------------------------------------------------

  datatype Cls = Digit | UpperLetter | UpperOrDigit | Lit(c: char)

  predicate ClsMatch(k: Cls, c: char) {
    match k
    case Digit => IsDigit(c)
    case UpperLetter => IsUpper(c)
    case UpperOrDigit => IsUpperOrDigit(c)
    case Lit(x) => c == x
  }

  /** The shape matches `s` starting at `p`. */
  predicate ShapeAt(s: string, p: nat, shape: seq<Cls>) {
    p + |shape| <= |s| && forall k :: 0 <= k < |shape| ==> ClsMatch(shape[k], s[p + k])
  }

  /** The whole of `s` is the shape (a regex anchored with `^...$`). */
  predicate IsShape(s: string, shape: seq<Cls>) {
    |s| == |shape| && ShapeAt(s, 0, shape)
  }

  /** `\d{2}\/\d{2}\/\d{4}` */
  const DateShape: seq<Cls> := [Digit, Digit, Lit('/'), Digit, Digit, Lit('/'), Digit, Digit, Digit, Digit]
  /** `\d{3}\.\d{3}\.\d{3}-\d{2}` */
  const DottedCpfShape: seq<Cls> :=
    [Digit, Digit, Digit, Lit('.'), Digit, Digit, Digit, Lit('.'), Digit, Digit, Digit, Lit('-'), Digit, Digit]
  /** `[A-Z]{3}[0-9]{4}` */
  const LegacyPlateShape: seq<Cls> := [UpperLetter, UpperLetter, UpperLetter, Digit, Digit, Digit, Digit]
  /** `[A-Z]{3}[0-9][A-Z][0-9]{2}` */
  const MercosulPlateShape: seq<Cls> := [UpperLetter, UpperLetter, UpperLetter, Digit, UpperLetter, Digit, Digit]

  // ---------------------------------------------------------------------
  // `\b`
  // ---------------------------------------------------------------------

  predicate WordAt(s: string, i: int) {
    0 <= i < |s| && IsWordChar(s[i])
  }

  /** `\b` at position `p`: exactly one of the neighbours is a word character. */
  predicate Boundary(s: string, p: int) {
    WordAt(s, p - 1) != WordAt(s, p)
  }

  // ---------------------------------------------------------------------
  // `s.match(re)`: the leftmost position where a scanner succeeds
  // ---------------------------------------------------------------------

  /** The result of scanner `at` at the leftmost position `q >= p` where it
      succeeds (a match may also start at `|s|`, for patterns that can match
      the empty string there). */
  function Leftmost<T>(s: string, at: (string, nat) -> Option<T>, p: nat): (r: Option<T>)
    requires p <= |s| + 1
    decreases |s| + 1 - p
    ensures r.None? <==> forall q :: p <= q <= |s| ==> at(s, q).None?
    ensures r.Some? ==> exists q :: p <= q <= |s| && at(s, q) == r && forall q' :: p <= q' < q ==> at(s, q').None?
  {
    if p > |s| then None
    else if at(s, p).Some? then at(s, p)
    else Leftmost(s, at, p + 1)
  }

  // ---------------------------------------------------------------------
  // Dates: `\b\d{2}\/\d{2}\/\d{4}\b`
  // ---------------------------------------------------------------------

  predicate DateTokenAt(s: string, p: nat) {
    ShapeAt(s, p, DateShape) && Boundary(s, p) && Boundary(s, p + 10)
  }

  /** The first `\b\d{2}\/\d{2}\/\d{4}\b` token of `s`. */
  function FirstDateToken(s: string): (r: Option<string>)
    ensures r.Some? ==> IsShape(r.value, DateShape)
  {
    match FirstIndex(0, |s| + 1, (p: nat) => DateTokenAt(s, p))
    case None => None
    case Some(p) => Some(s[p..p + 10])
  }

  /** `/\d{2}\/\d{2}\/\d{4}/.test(s)` (no boundaries). */
  predicate HasDateShape(s: string) {
    exists p :: 0 <= p <= |s| && ShapeAt(s, p, DateShape)
  }

  // ---------------------------------------------------------------------
  // Plates: `\b[A-Z]{3}\d{4}\b|\b[A-Z]{3}\d[A-Z]\d{2}\b`
  // ---------------------------------------------------------------------

  predicate PlateTokenAt(s: string, p: nat) {
    (ShapeAt(s, p, LegacyPlateShape) || ShapeAt(s, p, MercosulPlateShape))
    && Boundary(s, p) && Boundary(s, p + 7)
  }

  predicate IsPlateShape(s: string) {
    IsShape(s, LegacyPlateShape) || IsShape(s, MercosulPlateShape)
  }

  function FirstPlateToken(s: string): (r: Option<string>)
    ensures r.Some? ==> IsPlateShape(r.value)
  {
    match FirstIndex(0, |s| + 1, (p: nat) => PlateTokenAt(s, p))
    case None => None
    case Some(p) => Some(s[p..p + 7])
  }

  // ---------------------------------------------------------------------
  // Loose CPF: `\d{3}[.\s]?\d{3}[.\s]?\d{3}[-\s]?\d{2}`
  // ---------------------------------------------------------------------

  predicate DigitsAt(s: string, q: nat, n: nat) {
    q + n <= |s| && forall i :: q <= i < q + n ==> IsDigit(s[i])
  }

  predicate DotOrSpace(c: char) { c == '.' || IsSpace(c) }

  predicate DashOrSpace(c: char) { c == '-' || IsSpace(c) }

  /** An optional one-character separator at `q`: skipped when present. */
  function OptSep(s: string, q: nat, sep: char -> bool): (r: nat)
    ensures r == q || (r == q + 1 && q < |s| && sep(s[q]))
  {
    if q < |s| && sep(s[q]) then q + 1 else q
  }

  /** End of the loose CPF pattern matched at `p`, if it matches there. */
  function LooseCpfEnd(s: string, p: nat): (r: Option<nat>)
    ensures r.Some? ==> p + 11 <= r.value <= |s| && r.value <= p + 14
  {
    if !DigitsAt(s, p, 3) then None
    else
      var q1 := OptSep(s, p + 3, DotOrSpace);
      if !DigitsAt(s, q1, 3) then None
      else
        var q2 := OptSep(s, q1 + 3, DotOrSpace);
        if !DigitsAt(s, q2, 3) then None
        else
          var q3 := OptSep(s, q2 + 3, DashOrSpace);
          if !DigitsAt(s, q3, 2) then None
          else Some(q3 + 2)
  }

  /** `\b\d{3}[.\s]?\d{3}[.\s]?\d{3}[-\s]?\d{2}\b` at `p`. */
  predicate CpfTokenAt(s: string, p: nat) {
    Boundary(s, p) && LooseCpfEnd(s, p).Some? && Boundary(s, LooseCpfEnd(s, p).value)
  }

  /** The first bounded CPF-shaped token of `s`. */
  function FirstCpfToken(s: string): (r: Option<string>)
  {
    match FirstIndex(0, |s| + 1, (p: nat) => CpfTokenAt(s, p))
    case None => None
    case Some(p) => Some(s[p..LooseCpfEnd(s, p).value])
  }

  lemma DigitsOnlyOfDigitRun(s: string, q: nat, n: nat)
    requires DigitsAt(s, q, n)
    ensures DigitsOnly(s[q..q + n]) == s[q..q + n]
  {
    DigitsOnlyOfDigits(s[q..q + n]);
  }

  lemma DigitsOnlyOfSep(s: string, q: nat, sep: char -> bool)
    requires forall c :: sep(c) ==> !IsDigit(c)
    requires q <= |s|
    ensures DigitsOnly(s[q..OptSep(s, q, sep)]) == []
  {
    DigitsOnlyOfNonDigits(s[q..OptSep(s, q, sep)]);
  }

  lemma SliceSplit(s: string, a: nat, b: nat, c: nat)
    requires a <= b <= c <= |s|
    ensures s[a..c] == s[a..b] + s[b..c]
  {
  }

  /** Digits of `s[a..c]` are those of `s[a..b]` followed by those of `s[b..c]`. */
  lemma DigitsOnlySplit(s: string, a: nat, b: nat, c: nat)
    requires a <= b <= c <= |s|
    ensures |DigitsOnly(s[a..c])| == |DigitsOnly(s[a..b])| + |DigitsOnly(s[b..c])|
  {
    SliceSplit(s, a, b, c);
    DigitsOnlyConcat(s[a..b], s[b..c]);
  }

  /** One optional separator followed by a run of `n` digits adds exactly `n` digits. */
  lemma SepThenDigits(s: string, a: nat, q: nat, sep: char -> bool, n: nat)
    requires forall c :: sep(c) ==> !IsDigit(c)
    requires a <= q <= |s|
    requires DigitsAt(s, OptSep(s, q, sep), n)
    ensures |DigitsOnly(s[a..OptSep(s, q, sep) + n])| == |DigitsOnly(s[a..q])| + n
  {
    var q' := OptSep(s, q, sep);
    DigitsOnlyOfSep(s, q, sep);
    DigitsOnlyOfDigitRun(s, q', n);
    DigitsOnlySplit(s, a, q, q');
    DigitsOnlySplit(s, a, q', q' + n);
  }

  /** Whatever separators the loose CPF pattern skipped, it covers exactly 11 digits. */
  lemma LooseCpfDigits(s: string, p: nat)
    requires LooseCpfEnd(s, p).Some?
    ensures |DigitsOnly(s[p..LooseCpfEnd(s, p).value])| == 11
  {
    var q1 := OptSep(s, p + 3, DotOrSpace);
    var q2 := OptSep(s, q1 + 3, DotOrSpace);
    var q3 := OptSep(s, q2 + 3, DashOrSpace);
    LooseCpfRuns(s, p, q1, q2, q3);
  }

  /** The digit count of the loose CPF match, accumulated group by group. */
  lemma LooseCpfRuns(s: string, p: nat, q1: nat, q2: nat, q3: nat)
    requires q1 == OptSep(s, p + 3, DotOrSpace) && q2 == OptSep(s, q1 + 3, DotOrSpace)
    requires q3 == OptSep(s, q2 + 3, DashOrSpace)
    requires DigitsAt(s, p, 3) && DigitsAt(s, q1, 3) && DigitsAt(s, q2, 3) && DigitsAt(s, q3, 2)
    ensures |DigitsOnly(s[p..q3 + 2])| == 11
  {
    DotOrSpaceNotDigit();
    DashOrSpaceNotDigit();
    DigitsOnlyOfDigitRun(s, p, 3);
    assert |DigitsOnly(s[p..p + 3])| == 3;
    SepThenDigits(s, p, p + 3, DotOrSpace, 3);
    assert |DigitsOnly(s[p..q1 + 3])| == 6;
    SepThenDigits(s, p, q1 + 3, DotOrSpace, 3);
    assert |DigitsOnly(s[p..q2 + 3])| == 9;
    SepThenDigits(s, p, q2 + 3, DashOrSpace, 2);
  }


  lemma DotOrSpaceNotDigit()
    ensures forall c :: DotOrSpace(c) ==> !IsDigit(c)
  {
  }

  lemma DashOrSpaceNotDigit()
    ensures forall c :: DashOrSpace(c) ==> !IsDigit(c)
  {
  }


  lemma FirstCpfTokenDigits(s: string)
    requires FirstCpfToken(s).Some?
    ensures |DigitsOnly(FirstCpfToken(s).value)| == 11
  {
    var p := FirstIndex(0, |s| + 1, (p: nat) => CpfTokenAt(s, p)).value;
    LooseCpfDigits(s, p);
  }

  // ---------------------------------------------------------------------
  // The CPF template `${d.slice(0,3)}.${d.slice(3,6)}.${d.slice(6,9)}-${d.slice(9)}`
  // ---------------------------------------------------------------------

  function CpfTemplate(d: string): (r: string)
    requires |d| == 11
  {
    d[..3] + "." + d[3..6] + "." + d[6..9] + "-" + d[9..]
  }

  /** The template of eleven digits is `xxx.xxx.xxx-xx` and gives its digits back. */
  lemma CpfTemplateShape(d: string)
    requires |d| == 11 && AllDigits(d)
    ensures IsShape(CpfTemplate(d), DottedCpfShape)
    ensures DigitsOnly(CpfTemplate(d)) == d
  {
    var r := CpfTemplate(d);
    assert r == d[..3] + "." + d[3..6] + "." + d[6..9] + "-" + d[9..];
    DigitsOnlyOfDigits(d[..3]);
    DigitsOnlyOfDigits(d[3..6]);
    DigitsOnlyOfDigits(d[6..9]);
    DigitsOnlyOfDigits(d[9..]);
    DigitsOnlyOfNonDigits(".");
    DigitsOnlyOfNonDigits("-");
    DigitsOnlyConcat(d[..3] + "." + d[3..6] + "." + d[6..9] + "-", d[9..]);
    DigitsOnlyConcat(d[..3] + "." + d[3..6] + "." + d[6..9], "-");
    DigitsOnlyConcat(d[..3] + "." + d[3..6] + ".", d[6..9]);
    DigitsOnlyConcat(d[..3] + "." + d[3..6], ".");
    DigitsOnlyConcat(d[..3] + ".", d[3..6]);
    DigitsOnlyConcat(d[..3], ".");
    assert d == d[..3] + d[3..6] + d[6..9] + d[9..];
  }

  /** A string in the dotted CPF shape is the template of its digits. */
  lemma DottedCpfIsTemplate(s: string)
    requires IsShape(s, DottedCpfShape)
    ensures |DigitsOnly(s)| == 11 && CpfTemplate(DigitsOnly(s)) == s
  {
    var d := s[..3] + s[4..7] + s[8..11] + s[12..];
    forall i | 0 <= i < 11
      ensures IsDigit(d[i])
    {
      var j := if i < 3 then i else if i < 6 then i + 1 else if i < 9 then i + 2 else i + 3;
      if i < 3 {
        assert d[i] == s[..3][i];
      } else if i < 6 {
        assert d[i] == s[4..7][i - 3];
      } else if i < 9 {
        assert d[i] == s[8..11][i - 6];
      } else {
        assert d[i] == s[12..][i - 9];
      }
      assert ClsMatch(DottedCpfShape[j], s[j]);
    }
    CpfTemplateShape(d);
    assert ClsMatch(DottedCpfShape[3], s[3]) && ClsMatch(DottedCpfShape[7], s[7]) && ClsMatch(DottedCpfShape[11], s[11]);
    assert d[..3] == s[..3] && d[3..6] == s[4..7] && d[6..9] == s[8..11] && d[9..] == s[12..];
    assert s == s[..3] + [s[3]] + s[4..7] + [s[7]] + s[8..11] + [s[11]] + s[12..];
  }
}
