/** String helpers shared by every module: the JavaScript whitespace set used
    by `\s` and `trim`, the length-preserving case maps, `replace(/x/g, '')`
    filters, `split`, `join`, `indexOf` and the "first index satisfying" search
    that every `find`/`for ... break` loop of the source is specified by. */
module Text {

  datatype Option<T> = None | Some(value: T)

  // ---------------------------------------------------------------------
  // Character classes
  // ---------------------------------------------------------------------

  /** JavaScript's `\s` (and the set `trim` removes). */
  predicate IsSpace(c: char) {
    c == ' ' || c == '\t' || c == '\n' || c == '\r' || c == '\U{000B}' || c == '\U{000C}'
    || c == '\U{00A0}' || c == '\U{1680}' || ('\U{2000}' <= c <= '\U{200A}')
    || c == '\U{2028}' || c == '\U{2029}' || c == '\U{202F}' || c == '\U{205F}'
    || c == '\U{3000}' || c == '\U{FEFF}'
  }

  predicate NotSpace(c: char) { !IsSpace(c) }

  /** `\d` (ASCII digits only, as in a regex without the `u` flag). */
  predicate IsDigit(c: char) { '0' <= c <= '9' }

  predicate IsUpper(c: char) { 'A' <= c <= 'Z' }

  predicate IsLetter(c: char) { 'A' <= c <= 'Z' || 'a' <= c <= 'z' }

  /** `\w`, which decides where `\b` is. */
  predicate IsWordChar(c: char) { IsLetter(c) || IsDigit(c) || c == '_' }

  predicate IsUpperOrDigit(c: char) { IsUpper(c) || IsDigit(c) }

  predicate HasDigit(s: string) { exists i :: 0 <= i < |s| && IsDigit(s[i]) }

  predicate AllDigits(s: string) { forall i :: 0 <= i < |s| ==> IsDigit(s[i]) }

  /** `parseInt` of one digit. */
  function DigitValue(c: char): (d: nat)
    requires IsDigit(c)
    ensures d <= 9
  {
    c as int - '0' as int
  }

  function DigitChar(d: nat): (c: char)
    requires d <= 9
    ensures IsDigit(c) && DigitValue(c) == d
  {
    ('0' as int + d) as char
  }

  /** `parseInt` of a run of decimal digits. */
  function Decimal(s: string): nat
    requires AllDigits(s)
  {
    if s == [] then 0 else Decimal(s[..|s| - 1]) * 10 + DigitValue(s[|s| - 1])
  }

  // ---------------------------------------------------------------------
  // Case maps (length preserving: ASCII and Latin-1 letters)
  // ---------------------------------------------------------------------

  function UpperChar(c: char): char {
    if 'a' <= c <= 'z' then (c as int - 32) as char
    else if '\U{00E0}' <= c <= '\U{00FE}' && c != '\U{00F7}' then (c as int - 32) as char
    else if c == '\U{00FF}' then '\U{0178}'
    else if c == '\U{00B5}' then '\U{039C}'
    else c
  }

  function LowerChar(c: char): char {
    if 'A' <= c <= 'Z' then (c as int + 32) as char
    else if '\U{00C0}' <= c <= '\U{00DE}' && c != '\U{00D7}' then (c as int + 32) as char
    else if c == '\U{0178}' then '\U{00FF}'
    else c
  }

  /** `toUpperCase()`. */
  function Upper(s: string): (r: string)
    ensures |r| == |s|
    ensures forall i :: 0 <= i < |s| ==> r[i] == UpperChar(s[i])
  {
    seq(|s|, i requires 0 <= i < |s| => UpperChar(s[i]))
  }

  /** `toLowerCase()`. */
  function Lower(s: string): (r: string)
    ensures |r| == |s|
    ensures forall i :: 0 <= i < |s| ==> r[i] == LowerChar(s[i])
  {
    seq(|s|, i requires 0 <= i < |s| => LowerChar(s[i]))
  }

  lemma UpperSlice(s: string, i: nat, j: nat)
    requires i <= j <= |s|
    ensures Upper(s[i..j]) == Upper(s)[i..j]
  {
  }

  // ---------------------------------------------------------------------
  // Filters: `s.replace(/[^x]/g, '')`
  // ---------------------------------------------------------------------

  function Filter(s: string, p: char -> bool): (r: string)
    ensures |r| <= |s|
    ensures forall i :: 0 <= i < |r| ==> p(r[i])
  {
    if s == [] then [] else (if p(s[0]) then [s[0]] else []) + Filter(s[1..], p)
  }

  lemma {:induction false} FilterConcat(a: string, b: string, p: char -> bool)
    ensures Filter(a + b, p) == Filter(a, p) + Filter(b, p)
  {
    if a == [] {
      assert a + b == b;
    } else {
      assert (a + b)[1..] == a[1..] + b;
      FilterConcat(a[1..], b, p);
    }
  }

  lemma {:induction false} FilterKeepsAll(s: string, p: char -> bool)
    requires forall i :: 0 <= i < |s| ==> p(s[i])
    ensures Filter(s, p) == s
  {
    if s != [] {
      FilterKeepsAll(s[1..], p);
    }
  }

  lemma {:induction false} FilterDropsAll(s: string, p: char -> bool)
    requires forall i :: 0 <= i < |s| ==> !p(s[i])
    ensures Filter(s, p) == []
  {
    if s != [] {
      FilterDropsAll(s[1..], p);
    }
  }

  /** `s.replace(/\D/g, '')`. */
  function DigitsOnly(s: string): (r: string)
    ensures AllDigits(r)
  {
    Filter(s, IsDigit)
  }

  /** `s.replace(/\s+/g, '')`. */
  function StripSpaces(s: string): string {
    Filter(s, NotSpace)
  }

  lemma DigitsOnlyOfDigits(s: string)
    requires AllDigits(s)
    ensures DigitsOnly(s) == s
  {
    FilterKeepsAll(s, IsDigit);
  }

  lemma DigitsOnlyConcat(a: string, b: string)
    ensures DigitsOnly(a + b) == DigitsOnly(a) + DigitsOnly(b)
  {
    FilterConcat(a, b, IsDigit);
  }

  lemma DigitsOnlyOfNonDigits(s: string)
    requires forall i :: 0 <= i < |s| ==> !IsDigit(s[i])
    ensures DigitsOnly(s) == []
  {
    FilterDropsAll(s, IsDigit);
  }

  // ---------------------------------------------------------------------
  // trim
  // ---------------------------------------------------------------------

  function LeadingSpaces(s: string): (n: nat)
    ensures n <= |s|
    ensures forall i :: 0 <= i < n ==> IsSpace(s[i])
    ensures n < |s| ==> !IsSpace(s[n])
  {
    if |s| > 0 && IsSpace(s[0]) then 1 + LeadingSpaces(s[1..]) else 0
  }

  function TrailingSpaces(s: string): (n: nat)
    ensures n <= |s|
    ensures forall i :: |s| - n <= i < |s| ==> IsSpace(s[i])
    ensures n < |s| ==> !IsSpace(s[|s| - n - 1])
  {
    if |s| > 0 && IsSpace(s[|s| - 1]) then 1 + TrailingSpaces(s[..|s| - 1]) else 0
  }

  /** `s.trim()`: the slice of `s` between its leading and trailing whitespace. */
  function Trim(s: string): (r: string)
    ensures LeadingSpaces(s) + |r| <= |s|
    ensures r == s[LeadingSpaces(s)..LeadingSpaces(s) + |r|]
    ensures r != [] ==> !IsSpace(r[0]) && !IsSpace(r[|r| - 1])
  {
    var rest := s[LeadingSpaces(s)..];
    rest[..|rest| - TrailingSpaces(rest)]
  }

  predicate IsTrimmed(s: string) {
    s == [] || (!IsSpace(s[0]) && !IsSpace(s[|s| - 1]))
  }

  lemma TrimOfTrimmed(s: string)
    requires IsTrimmed(s)
    ensures Trim(s) == s
  {
  }

  lemma TrimIdempotent(s: string)
    ensures Trim(Trim(s)) == Trim(s)
  {
    TrimOfTrimmed(Trim(s));
  }

  lemma TrimAllSpaces(s: string)
    requires forall i :: 0 <= i < |s| ==> IsSpace(s[i])
    ensures Trim(s) == []
  {
  }

  // ---------------------------------------------------------------------
  // indexOf / includes
  // ---------------------------------------------------------------------

  predicate OccursAt(s: string, t: string, k: int) {
    0 <= k && k + |t| <= |s| && s[k..k + |t|] == t
  }

  /** `s.indexOf(t, from)` for `from <= |s|`. */
  function IndexOfFrom(s: string, t: string, from: nat): (r: int)
    requires from <= |s|
    decreases |s| - from
    ensures r == -1 || (from <= r && OccursAt(s, t, r))
    ensures r == -1 ==> forall k :: from <= k ==> !OccursAt(s, t, k)
    ensures r >= 0 ==> forall k :: from <= k < r ==> !OccursAt(s, t, k)
  {
    if |s| - from < |t| then -1
    else if s[from..from + |t|] == t then from
    else IndexOfFrom(s, t, from + 1)
  }

  /** `s.includes(t)`. */
  predicate Contains(s: string, t: string) {
    IndexOfFrom(s, t, 0) >= 0
  }

  lemma ContainsWitness(s: string, t: string, k: int)
    requires OccursAt(s, t, k)
    ensures Contains(s, t)
  {
  }

  /** `ts.some(t => s.includes(t))`. */
  predicate ContainsAny(s: string, ts: seq<string>) {
    exists i :: 0 <= i < |ts| && Contains(s, ts[i])
  }

  /** Case-insensitive `includes`, as a regex literal with the `i` flag tests it. */
  predicate ContainsNoCase(s: string, t: string) {
    Contains(Upper(s), Upper(t))
  }

  predicate ContainsAnyNoCase(s: string, ts: seq<string>) {
    exists i :: 0 <= i < |ts| && ContainsNoCase(s, ts[i])
  }

  // ---------------------------------------------------------------------
  // split / join
  // ---------------------------------------------------------------------

  function IndexOfChar(s: string, c: char): (r: int)
    ensures r == -1 || (0 <= r < |s| && s[r] == c)
    ensures r == -1 ==> forall k :: 0 <= k < |s| ==> s[k] != c
    ensures r >= 0 ==> forall k :: 0 <= k < r ==> s[k] != c
  {
    if s == [] then -1
    else if s[0] == c then 0
    else var r := IndexOfChar(s[1..], c); if r == -1 then -1 else r + 1
  }

  /** `s.split(c)` for a one-character separator. */
  function SplitOn(s: string, c: char): (parts: seq<string>)
    decreases |s|
    ensures |parts| >= 1
    ensures forall i :: 0 <= i < |parts| ==> c !in parts[i]
  {
    var k := IndexOfChar(s, c);
    if k == -1 then [s] else [s[..k]] + SplitOn(s[k + 1..], c)
  }

  /** `parts.join(sep)`. */
  function Join(parts: seq<string>, sep: string): string {
    if parts == [] then ""
    else if |parts| == 1 then parts[0]
    else parts[0] + sep + Join(parts[1..], sep)
  }

  /** Joining what `split` cut returns the original text. */
  lemma {:induction false} JoinSplitOn(s: string, c: char)
    ensures Join(SplitOn(s, c), [c]) == s
    decreases |s|
  {
    var k := IndexOfChar(s, c);
    if k != -1 {
      var tail := SplitOn(s[k + 1..], c);
      JoinSplitOn(s[k + 1..], c);
      assert SplitOn(s, c) == [s[..k]] + tail;
      assert Join([s[..k]] + tail, [c]) == s[..k] + [c] + Join(tail, [c]);
      assert s == s[..k] + [c] + s[k + 1..];
    }
  }

  /** Index of the first whitespace character, or -1. */
  function FirstSpace(s: string): (r: int)
    ensures r == -1 || (0 <= r < |s| && IsSpace(s[r]))
    ensures r == -1 ==> forall k :: 0 <= k < |s| ==> !IsSpace(s[k])
    ensures r >= 0 ==> forall k :: 0 <= k < r ==> !IsSpace(s[k])
  {
    if s == [] then -1
    else if IsSpace(s[0]) then 0
    else var r := FirstSpace(s[1..]); if r == -1 then -1 else r + 1
  }

  /** `s.split(/\s+/)`: pieces between maximal whitespace runs (empty pieces kept). */
  function SplitSpaces(s: string): (parts: seq<string>)
    decreases |s|
    ensures |parts| >= 1
  {
    var k := FirstSpace(s);
    if k == -1 then [s]
    else
      var rest := s[k..];
      [s[..k]] + SplitSpaces(rest[LeadingSpaces(rest)..])
  }

  /** `s.split(/\s+/).filter(Boolean)`: the words of `s`. */
  function Words(s: string): seq<string> {
    NonEmpty(SplitSpaces(s))
  }

  function NonEmpty(parts: seq<string>): (r: seq<string>)
    ensures |r| <= |parts|
    ensures forall i :: 0 <= i < |r| ==> r[i] != ""
  {
    if parts == [] then []
    else (if parts[0] == "" then [] else [parts[0]]) + NonEmpty(parts[1..])
  }

  /** `s.split(/\s+/)[0]`: the text before the first whitespace. */
  function FirstField(s: string): string {
    SplitSpaces(s)[0]
  }

  /** `s.replace(/\s+/g, " ").trim()`, the source's `normalizeSpaces`. */
  function NormalizeSpaces(s: string): string {
    Trim(Join(SplitSpaces(s), " "))
  }

  /** The pieces `split(/\s+/)` cuts hold no line break. */
  lemma {:induction false} SplitSpacesOneLine(s: string)
    decreases |s|
    ensures forall i :: 0 <= i < |SplitSpaces(s)| ==> '\n' !in SplitSpaces(s)[i]
  {
    var k := FirstSpace(s);
    if k != -1 {
      var rest := s[k..];
      SplitSpacesOneLine(rest[LeadingSpaces(rest)..]);
      assert '\n' !in s[..k];
    }
  }

  lemma {:induction false} JoinOneLine(parts: seq<string>)
    requires forall i :: 0 <= i < |parts| ==> '\n' !in parts[i]
    ensures '\n' !in Join(parts, " ")
  {
    if |parts| > 1 {
      JoinOneLine(parts[1..]);
    }
  }

  /** `normalizeSpaces` leaves no line break. */
  lemma NormalizeSpacesOneLine(s: string)
    ensures '\n' !in NormalizeSpaces(s)
  {
    SplitSpacesOneLine(s);
    JoinOneLine(SplitSpaces(s));
  }

  /** Upper-casing makes no line break. */
  lemma UpperOneLine(s: string)
    requires '\n' !in s
    ensures '\n' !in Upper(s)
  {
    assert forall i :: 0 <= i < |s| ==> Upper(s)[i] == UpperChar(s[i]) && s[i] != '\n';
  }

  /** A text without a line break is at most one line. */
  lemma ToLinesOneLine(t: string)
    requires '\n' !in t
    ensures |ToLines(t)| <= 1
  {
    assert SplitOn(t, '\n') == [t];
  }

  /** A string without whitespace is left alone by `normalizeSpaces`. */
  lemma NormalizeSpacesNoSpace(s: string)
    requires forall k :: 0 <= k < |s| ==> !IsSpace(s[k])
    ensures NormalizeSpaces(s) == s
  {
    assert FirstSpace(s) == -1;
    assert SplitSpaces(s) == [s];
    assert Join([s], " ") == s;
    TrimOfTrimmed(s);
  }

  /** `ls.filter(l => l.trim().length > 0)` */
  function NonBlankLines(ls: seq<string>): (r: seq<string>)
    ensures |r| <= |ls|
    ensures forall k :: 0 <= k < |r| ==> Trim(r[k]) != ""
  {
    if ls == [] then []
    else (if Trim(ls[0]) != "" then [ls[0]] else []) + NonBlankLines(ls[1..])
  }

  /** Blank lines are the only ones dropped. */
  lemma {:induction false} NonBlankLinesKeepsAll(ls: seq<string>)
    requires forall k :: 0 <= k < |ls| ==> Trim(ls[k]) != ""
    ensures NonBlankLines(ls) == ls
  {
    if ls != [] {
      NonBlankLinesKeepsAll(ls[1..]);
    }
  }

  /** `t.split("\n").map(l => l.trim()).filter(l => l.length > 0)` */
  function ToLines(t: string): (r: seq<string>)
    ensures forall k :: 0 <= k < |r| ==> r[k] != "" && IsTrimmed(r[k])
  {
    var nb := NonBlankLines(SplitOn(t, '\n'));
    seq(|nb|, k requires 0 <= k < |nb| => Trim(nb[k]))
  }

  /** First index at or after `i` whose character fails `p` (or `|s|`). */
  function SkipWhile(s: string, i: nat, p: char -> bool): (r: nat)
    requires i <= |s|
    decreases |s| - i
    ensures i <= r <= |s|
    ensures forall k :: i <= k < r ==> p(s[k])
    ensures r < |s| ==> !p(s[r])
  {
    if i < |s| && p(s[i]) then SkipWhile(s, i + 1, p) else i
  }

  /** A string counts as `truthy` in JavaScript exactly when it is non-empty. */
  function OrElse(s: string, fallback: string): (r: string)
    ensures r == s || (s == "" && r == fallback)
  {
    if s != "" then s else fallback
  }

  // ---------------------------------------------------------------------
  // First index satisfying a predicate (every `find` / `for .. break`)
  // ---------------------------------------------------------------------

  function FirstIndex(lo: nat, hi: nat, p: nat -> bool): (r: Option<nat>)
    decreases hi - lo
    ensures r.Some? ==> lo <= r.value < hi && p(r.value)
    ensures r.Some? ==> forall k :: lo <= k < r.value ==> !p(k)
    ensures r.None? ==> forall k :: lo <= k < hi ==> !p(k)
  {
    if lo >= hi then None
    else if p(lo) then Some(lo)
    else FirstIndex(lo + 1, hi, p)
  }

  /** The three facts above determine `FirstIndex` completely. */
  lemma FirstIndexUnique(lo: nat, hi: nat, p: nat -> bool, r: Option<nat>)
    requires r.Some? ==> lo <= r.value < hi && p(r.value)
    requires r.Some? ==> forall k :: lo <= k < r.value ==> !p(k)
    requires r.None? ==> forall k :: lo <= k < hi ==> !p(k)
    ensures FirstIndex(lo, hi, p) == r
  {
  }

  /** Index of the first element at or after `i` satisfying `p`. */
  function FirstFrom<T>(xs: seq<T>, p: T -> bool, i: nat): (r: Option<nat>)
    requires i <= |xs|
    decreases |xs| - i
    ensures r.Some? ==> i <= r.value < |xs| && p(xs[r.value])
    ensures r.Some? ==> forall k :: i <= k < r.value ==> !p(xs[k])
    ensures r.None? <==> forall k :: i <= k < |xs| ==> !p(xs[k])
  {
    if i == |xs| then None
    else if p(xs[i]) then Some(i)
    else FirstFrom(xs, p, i + 1)
  }

  /** A `for ... break` search from `i`. */
  method FindFirstFrom<T>(xs: seq<T>, p: T -> bool, i: nat) returns (r: Option<nat>)
    requires i <= |xs|
    ensures r == FirstFrom(xs, p, i)
  {
    for k := i to |xs|
      invariant forall j :: i <= j < k ==> !p(xs[j])
    {
      if p(xs[k]) {
        return Some(k);
      }
    }
    return None;
  }

  // ---------------------------------------------------------------------
  // Collecting lines up to a stop line
  // ---------------------------------------------------------------------

  /** The images under `f` of the elements of `ts` that pass `keep`, taken up
      to (not including) the first element that passes `stop`. */
  function CollectUntil(ts: seq<string>, stop: string -> bool, keep: string -> bool, f: string -> string): (r: seq<string>)
    ensures |r| <= |ts|
  {
    if ts == [] || stop(ts[0]) then []
    else (if keep(ts[0]) then [f(ts[0])] else []) + CollectUntil(ts[1..], stop, keep, f)
  }

  /** Everything from a stop element on is ignored. */
  lemma {:induction false} CollectUntilStops(ts: seq<string>, stop: string -> bool, keep: string -> bool, f: string -> string, k: nat)
    requires k < |ts| && stop(ts[k])
    ensures CollectUntil(ts, stop, keep, f) == CollectUntil(ts[..k], stop, keep, f)
  {
    if k > 0 && !stop(ts[0]) {
      assert ts[1..][k - 1] == ts[k];
      CollectUntilStops(ts[1..], stop, keep, f, k - 1);
      assert ts[1..][..k - 1] == ts[..k][1..];
    }
  }

  /** Every collected value is the image of a kept element before any stop element. */
  lemma {:induction false} CollectUntilKept(ts: seq<string>, stop: string -> bool, keep: string -> bool, f: string -> string)
    ensures forall m :: 0 <= m < |CollectUntil(ts, stop, keep, f)| ==>
      exists j :: 0 <= j < |ts| && keep(ts[j]) && !stop(ts[j]) && CollectUntil(ts, stop, keep, f)[m] == f(ts[j])
  {
    if ts != [] && !stop(ts[0]) {
      CollectUntilKept(ts[1..], stop, keep, f);
      var r := CollectUntil(ts, stop, keep, f);
      var head := if keep(ts[0]) then [f(ts[0])] else [];
      var tail := CollectUntil(ts[1..], stop, keep, f);
      assert r == head + tail;
      forall m | 0 <= m < |r|
        ensures exists j :: 0 <= j < |ts| && keep(ts[j]) && !stop(ts[j]) && r[m] == f(ts[j])
      {
        if m < |head| {
          assert r[m] == f(ts[0]);
        } else {
          var j :| 0 <= j < |ts[1..]| && keep(ts[1..][j]) && !stop(ts[1..][j]) && tail[m - |head|] == f(ts[1..][j]);
          assert ts[j + 1] == ts[1..][j];
        }
      }
    } else {
      assert CollectUntil(ts, stop, keep, f) == [];
    }
  }

  /** The element the `m`-th collected value comes from. */
  lemma CollectUntilSource(ts: seq<string>, stop: string -> bool, keep: string -> bool, f: string -> string, m: nat)
    returns (j: nat)
    requires m < |CollectUntil(ts, stop, keep, f)|
    ensures j < |ts| && keep(ts[j]) && !stop(ts[j]) && CollectUntil(ts, stop, keep, f)[m] == f(ts[j])
  {
    var head := if keep(ts[0]) then [f(ts[0])] else [];
    assert CollectUntil(ts, stop, keep, f) == head + CollectUntil(ts[1..], stop, keep, f);
    if m < |head| {
      j := 0;
    } else {
      var j' := CollectUntilSource(ts[1..], stop, keep, f, m - |head|);
      j := j' + 1;
      assert ts[1..][j'] == ts[j];
    }
  }

  /** Without a stop element, every kept element is collected, in order. */
  lemma {:induction false} CollectUntilAll(ts: seq<string>, stop: string -> bool, keep: string -> bool, f: string -> string)
    requires forall k :: 0 <= k < |ts| ==> !stop(ts[k]) && keep(ts[k])
    ensures CollectUntil(ts, stop, keep, f) == seq(|ts|, k requires 0 <= k < |ts| => f(ts[k]))
  {
    if ts != [] {
      CollectUntilAll(ts[1..], stop, keep, f);
    }
  }

  // ---------------------------------------------------------------------
  // A variable written only while it is still empty
  // ---------------------------------------------------------------------

  /** The value of a variable that starts as "" and on rounds `0 .. n-1` runs
      `if (!x) x = attempt(i)`. */
  function WriteOnce(attempt: nat -> string, n: nat): string {
    if n == 0 then ""
    else
      var prev := WriteOnce(attempt, n - 1);
      if prev != "" then prev else attempt(n - 1)
  }

  /** The first non-empty attempt wins and is never overwritten. */
  lemma {:induction false} WriteOnceFirstHit(attempt: nat -> string, n: nat)
    ensures WriteOnce(attempt, n) == "" <==> forall i :: 0 <= i < n ==> attempt(i) == ""
    ensures WriteOnce(attempt, n) != "" ==>
      exists i :: 0 <= i < n && WriteOnce(attempt, n) == attempt(i) && forall j :: 0 <= j < i ==> attempt(j) == ""
  {
    if n > 0 {
      WriteOnceFirstHit(attempt, n - 1);
    }
  }

  /** Once written, the value stays for the rest of the pass. */
  lemma {:induction false} WriteOnceStable(attempt: nat -> string, m: nat, n: nat)
    requires m <= n && WriteOnce(attempt, m) != ""
    ensures WriteOnce(attempt, n) == WriteOnce(attempt, m)
    decreases n - m
  {
    if m < n {
      WriteOnceStable(attempt, m, n - 1);
    }
  }

  function Min(a: nat, b: nat): nat { if a <= b then a else b }

  /** A `while (j < ts.length && maxLines > 0)` loop from `from`, pushing
      `f(ts[j])` for kept lines and breaking at a stop line. */
  method CollectWhile(ts: seq<string>, from: nat, maxLines: nat, stop: string -> bool, keep: string -> bool, f: string -> string)
    returns (r: seq<string>)
    requires from <= |ts|
    ensures r == CollectUntil(ts[from..Min(from + maxLines, |ts|)], stop, keep, f)
  {
    var hi := Min(from + maxLines, |ts|);
    r := [];
    var j := from;
    var budget := maxLines;
    while j < |ts| && budget > 0
      invariant from <= j <= hi && j + budget == from + maxLines
      invariant r + CollectUntil(ts[j..hi], stop, keep, f) == CollectUntil(ts[from..hi], stop, keep, f)
      decreases budget
    {
      assert ts[j..hi][1..] == ts[j + 1..hi];
      if stop(ts[j]) {
        return;
      }
      if keep(ts[j]) {
        r := r + [f(ts[j])];
      }
      j := j + 1;
      budget := budget - 1;
    }
    assert ts[j..hi] == [];
  }
}
