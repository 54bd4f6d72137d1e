/** The few Python string built-ins the core relies on, written over `seq<char>`. */
module Text {
  import opened Wrappers

  /** Python's `str.isspace` for one character. */
  predicate IsSpace(c: char) {
    ('\U{9}' <= c <= '\U{D}') || ('\U{1C}' <= c <= '\U{20}') || c == '\U{85}' || c == '\U{A0}'
    || c == '\U{1680}' || ('\U{2000}' <= c <= '\U{200A}') || c == '\U{2028}' || c == '\U{2029}'
    || c == '\U{202F}' || c == '\U{205F}' || c == '\U{3000}'
  }

  predicate AllSpace(s: string) {
    forall i :: 0 <= i < |s| ==> IsSpace(s[i])
  }

  /** Number of whitespace characters at the start of `s`. */
  function LeadingSpaces(s: string): (n: nat)
    ensures n <= |s| && AllSpace(s[..n]) && (n == |s| || !IsSpace(s[n]))
  {
    if s != [] && IsSpace(s[0]) then
      var n := LeadingSpaces(s[1..]);
      assert s[..n + 1] == [s[0]] + s[1..][..n];
      n + 1
    else 0
  }

  /** Length of `s` once its trailing whitespace is cut off. */
  function KeptLength(s: string): (n: nat)
    ensures n <= |s| && AllSpace(s[n..]) && (n == 0 || !IsSpace(s[n - 1]))
  {
    if s != [] && IsSpace(s[|s| - 1]) then
      var n := KeptLength(s[..|s| - 1]);
      assert s[n..] == s[..|s| - 1][n..] + [s[|s| - 1]];
      n
    else |s|
  }

  /** Where the text that `Strip` keeps ends. */
  function StripEnd(s: string): (j: nat)
    ensures LeadingSpaces(s) <= j <= |s|
  {
    LeadingSpaces(s) + KeptLength(s[LeadingSpaces(s)..])
  }

  /** Python's `str.strip()` with no argument. */
  function Strip(s: string): string {
    s[LeadingSpaces(s)..StripEnd(s)]
  }

  lemma AllSpaceShift(s: string, i: nat, n: nat)
    requires i + n <= |s| && AllSpace(s[i..][n..])
    ensures AllSpace(s[i + n..])
  {
    assert s[i + n..] == s[i..][n..];
  }

  /** `Strip` cuts a run of whitespace from each end and keeps a middle that neither starts nor ends with whitespace. */
  lemma StripShape(s: string)
    ensures AllSpace(s[..LeadingSpaces(s)]) && AllSpace(s[StripEnd(s)..])
    ensures Strip(s) == [] || (!IsSpace(Strip(s)[0]) && !IsSpace(Strip(s)[|Strip(s)| - 1]))
  {
    var i := LeadingSpaces(s);
    var n := KeptLength(s[i..]);
    AllSpaceShift(s, i, n);
    if n > 0 {
      assert s[i..][n - 1] == s[i + n - 1];
      assert s[i..][0] == s[i];
    }
  }

  lemma StripIdempotent(s: string)
    ensures Strip(Strip(s)) == Strip(s)
  {
    StripShape(s);
    var r := Strip(s);
    if r != [] {
      assert LeadingSpaces(r) == 0;
      assert KeptLength(r) == |r|;
    }
  }

  /** Python's `sep.join(parts)`. */
  function Join(parts: seq<string>, sep: string): string {
    if |parts| == 0 then ""
    else if |parts| == 1 then parts[0]
    else Join(parts[..|parts| - 1], sep) + sep + parts[|parts| - 1]
  }

  lemma JoinSnoc(parts: seq<string>, p: string, sep: string)
    ensures Join(parts + [p], sep) == if parts == [] then p else Join(parts, sep) + sep + p
  {
    assert (parts + [p])[..|parts|] == parts;
  }

  lemma JoinNonEmpty(parts: seq<string>, sep: string)
    requires parts != [] && parts[|parts| - 1] != ""
    ensures Join(parts, sep) != ""
  {
  }

  predicate OccursAt(s: string, pat: string, i: nat) {
    i + |pat| <= |s| && s[i..i + |pat|] == pat
  }

  /** Index of the first occurrence of `pat` in `s` (Python's `str.find`, with None for -1). */
  function IndexOf(s: string, pat: string): (r: Option<nat>)
    ensures r.Some? ==> r.value + |pat| <= |s|
    decreases |s|
  {
    if |s| < |pat| then None
    else if s[..|pat|] == pat then Some(0)
    else
      match IndexOf(s[1..], pat)
      case None => None
      case Some(i) => Some(i + 1)
  }

  /** `IndexOf` finds an occurrence, and no earlier one exists; None means there is none at all. */
  lemma IndexOfFirst(s: string, pat: string)
    ensures IndexOf(s, pat).Some? ==> OccursAt(s, pat, IndexOf(s, pat).value)
    ensures IndexOf(s, pat).Some? ==> forall k :: 0 <= k < IndexOf(s, pat).value ==> !OccursAt(s, pat, k)
    ensures IndexOf(s, pat).None? ==> forall k :: 0 <= k <= |s| ==> !OccursAt(s, pat, k)
  {
    IndexOfOccurs(s, pat);
    forall k | 0 <= k <= |s| && (IndexOf(s, pat).None? || k < IndexOf(s, pat).value) ensures !OccursAt(s, pat, k) {
      IndexOfEarliest(s, pat, k);
    }
  }

  /** An occurrence one character further into `s` is an occurrence in `s[1..]`. */
  lemma OccursShift(s: string, pat: string, k: nat)
    requires 1 <= k <= |s|
    ensures OccursAt(s, pat, k) <==> OccursAt(s[1..], pat, k - 1)
  {
    if k + |pat| <= |s| {
      var a, b := s[k..k + |pat|], s[1..][k - 1..k - 1 + |pat|];
      assert |a| == |b| && forall j :: 0 <= j < |a| ==> a[j] == s[k + j] == b[j];
      assert a == b;
    }
  }

  /** The position `IndexOf` returns is an occurrence. */
  lemma {:induction false} IndexOfOccurs(s: string, pat: string)
    ensures IndexOf(s, pat).Some? ==> OccursAt(s, pat, IndexOf(s, pat).value)
    decreases |s|
  {
    if |s| >= |pat| && s[..|pat|] != pat {
      IndexOfOccurs(s[1..], pat);
      if IndexOf(s[1..], pat).Some? {
        OccursShift(s, pat, IndexOf(s[1..], pat).value + 1);
      }
    }
  }

  /** No occurrence lies before the position `IndexOf` returns, and there is none when it returns None. */
  lemma {:induction false} IndexOfEarliest(s: string, pat: string, k: nat)
    requires k <= |s| && (IndexOf(s, pat).None? || k < IndexOf(s, pat).value)
    ensures !OccursAt(s, pat, k)
    decreases |s|
  {
    if |s| >= |pat| && s[..|pat|] != pat && k > 0 {
      IndexOfEarliest(s[1..], pat, k - 1);
      OccursShift(s, pat, k);
    }
  }

  /** Python's `pat in s`. */
  predicate Contains(s: string, pat: string) {
    IndexOf(s, pat).Some?
  }

  /** Python's `s.split(sep)`: left to right, non-overlapping. */
  function Split(s: string, sep: string): (parts: seq<string>)
    requires sep != ""
    ensures |parts| >= 1
    ensures |parts| == 1 <==> !Contains(s, sep)
    decreases |s|
  {
    match IndexOf(s, sep)
    case None => [s]
    case Some(i) => [s[..i]] + Split(s[i + |sep|..], sep)
  }

  /** The text before the first occurrence of `pat` does not contain `pat`. */
  lemma HeadFree(s: string, pat: string, i: nat)
    requires pat != "" && IndexOf(s, pat) == Some(i)
    ensures !Contains(s[..i], pat)
  {
    var head := s[..i];
    IndexOfFirst(s, pat);
    IndexOfFirst(head, pat);
    if IndexOf(head, pat).Some? {
      var k := IndexOf(head, pat).value;
      assert k + |pat| <= |head| == i;
      assert OccursAt(head, pat, k);
      assert s[k..k + |pat|] == head[k..k + |pat|];
      assert OccursAt(s, pat, k);
    }
  }

  /** No piece that `Split` returns contains the separator. */
  lemma {:induction false} SplitPartsFree(s: string, sep: string)
    requires sep != ""
    ensures forall k :: 0 <= k < |Split(s, sep)| ==> !Contains(Split(s, sep)[k], sep)
    decreases |s|
  {
    match IndexOf(s, sep)
    case None =>
    case Some(i) =>
      HeadFree(s, sep, i);
      SplitPartsFree(s[i + |sep|..], sep);
  }

  /** Splitting and re-joining with the same separator gives back the text. */
  lemma {:induction false} SplitJoin(s: string, sep: string)
    requires sep != ""
    ensures Join(Split(s, sep), sep) == s
    decreases |s|
  {
    var found := IndexOf(s, sep);
    if found.Some? {
      var i := found.value;
      var rest := s[i + |sep|..];
      IndexOfOccurs(s, sep);
      assert Split(s, sep) == [s[..i]] + Split(rest, sep);
      SplitJoin(rest, sep);
      JoinCons(s[..i], Split(rest, sep), sep);
      assert s[i..i + |sep|] == sep;
      assert s == s[..i] + s[i..i + |sep|] + rest;
    }
  }

  lemma {:induction false} JoinCons(p: string, parts: seq<string>, sep: string)
    requires parts != []
    ensures Join([p] + parts, sep) == p + sep + Join(parts, sep)
    decreases |parts|
  {
    if |parts| == 1 {
      assert [p] + parts == [p, parts[0]];
    } else {
      var init := parts[..|parts| - 1];
      JoinCons(p, init, sep);
      assert ([p] + parts)[..|parts|] == [p] + init;
    }
  }

  /** Python's `s.replace(target, replacement)`: every non-overlapping occurrence, left to right, in one pass. */
  function Replace(s: string, target: string, replacement: string): string
    requires target != ""
  {
    Join(Split(s, target), replacement)
  }

  /** Replacing text that does not occur changes nothing. */
  lemma ReplaceAbsent(s: string, target: string, replacement: string)
    requires target != "" && !Contains(s, target)
    ensures Replace(s, target, replacement) == s
  {
  }

  /** A string made of decimal digits only. */
  predicate AllDigits(s: string) {
    forall i :: 0 <= i < |s| ==> '0' <= s[i] <= '9'
  }

  /** The number a run of decimal digits spells, read left to right. */
  function DigitsValue(s: string): nat
    requires AllDigits(s)
  {
    if s == [] then 0
    else DigitsValue(s[..|s| - 1]) * 10 + (s[|s| - 1] as int - '0' as int)
  }

  /** Python's `str(n)` for a natural number: its decimal digits, with no leading zero. */
  function NatToString(n: nat): (r: string)
    ensures |r| >= 1 && AllDigits(r)
    ensures DigitsValue(r) == n
    ensures r[0] != '0' || r == "0"
  {
    var d := [(n % 10) as char + '0'];
    if n < 10 then d
    else
      var init := NatToString(n / 10);
      assert (init + d)[..|init + d| - 1] == init;
      init + d
  }

  function LowerChar(c: char): char {
    if 'A' <= c <= 'Z' then (c as int + 32) as char else c
  }

  function UpperChar(c: char): char {
    if 'a' <= c <= 'z' then (c as int - 32) as char else c
  }

  /** Python's `str.lower()` on ASCII letters. */
  function Lower(s: string): (r: string)
    ensures |r| == |s|
    ensures forall i :: 0 <= i < |r| ==> !('A' <= r[i] <= 'Z')
    ensures forall i :: 0 <= i < |s| && !('A' <= s[i] <= 'Z') ==> r[i] == s[i]
    ensures forall i :: 0 <= i < |s| && 'A' <= s[i] <= 'Z' ==>
      'a' <= r[i] <= 'z' && r[i] as int - 'a' as int == s[i] as int - 'A' as int
  {
    seq(|s|, i requires 0 <= i < |s| => LowerChar(s[i]))
  }

  /** Python's `str.capitalize()` on ASCII letters: first character upper-case, the rest lower-case. */
  function Capitalize(s: string): (r: string)
    ensures |r| == |s|
    ensures s != "" ==> !('a' <= r[0] <= 'z') && r[1..] == Lower(s[1..])
    ensures s != "" && 'a' <= s[0] <= 'z' ==>
      'A' <= r[0] <= 'Z' && r[0] as int - 'A' as int == s[0] as int - 'a' as int
    ensures s != "" && !('a' <= s[0] <= 'z') ==> r[0] == s[0]
  {
    if s == "" then "" else [UpperChar(s[0])] + Lower(s[1..])
  }
}
