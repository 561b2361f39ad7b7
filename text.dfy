/**
 * The Python string operations the monitor relies on, over `seq<char>`:
 * ASCII `lower()`/`upper()`, `strip()`, slicing `s[:n]`, the `in` substring
 * test, `split(sep)` and `sep.join(parts)`.
 */
module Text {
  import opened Wrappers
  import opened Seqs

  // ---------------------------------------------------------------- case

  function LowerChar(c: char): char {
    if 'A' <= c <= 'Z' then (c as int + 32) as char else c
  }

  function UpperChar(c: char): char {
    if 'a' <= c <= 'z' then (c as int - 32) as char else c
  }

  /** Python's `str.lower()` restricted to ASCII letters. */
  function Lower(s: string): string {
    Map(s, LowerChar)
  }

  /** Python's `str.upper()` restricted to ASCII letters. */
  function Upper(s: string): string {
    Map(s, UpperChar)
  }

  /** Lowering twice is lowering once. */
  lemma LowerIdempotent(s: string)
    ensures Lower(Lower(s)) == Lower(s)
  {
    forall i | 0 <= i < |s| ensures Lower(Lower(s))[i] == Lower(s)[i] {
      assert Lower(s)[i] == LowerChar(s[i]);
    }
  }

  /** Lowering forgets an earlier upper-casing. */
  lemma LowerOfUpper(s: string)
    ensures Lower(Upper(s)) == Lower(s)
  {
    forall i | 0 <= i < |s| ensures Lower(Upper(s))[i] == Lower(s)[i] {
      assert Upper(s)[i] == UpperChar(s[i]);
    }
  }

  /** Upper-casing twice is upper-casing once. */
  lemma UpperIdempotent(s: string)
    ensures Upper(Upper(s)) == Upper(s)
  {
    forall i | 0 <= i < |s| ensures Upper(Upper(s))[i] == Upper(s)[i] {
      assert Upper(s)[i] == UpperChar(s[i]);
    }
  }

  /** Upper-casing forgets an earlier lowering. */
  lemma UpperOfLower(s: string)
    ensures Upper(Lower(s)) == Upper(s)
  {
    forall i | 0 <= i < |s| ensures Upper(Lower(s))[i] == Upper(s)[i] {
      assert Lower(s)[i] == LowerChar(s[i]);
    }
  }

  // --------------------------------------------------------------- strip

  /** The characters Python's argument-less `strip()` removes, ASCII part. */
  predicate IsSpace(c: char) {
    var n := c as int;
    n == 32 || 9 <= n <= 13 || 28 <= n <= 31
  }

  /** Number of whitespace characters at the front of `s`. */
  function LeadingSpaces(s: string): (n: nat)
    ensures n <= |s|
    ensures forall j :: 0 <= j < n ==> IsSpace(s[j])
    ensures n < |s| ==> !IsSpace(s[n])
    decreases |s|
  {
    if s != [] && IsSpace(s[0]) then 1 + LeadingSpaces(s[1..]) else 0
  }

  /** Number of whitespace characters at the end of `s`. */
  function TrailingSpaces(s: string): (n: nat)
    ensures n <= |s|
    ensures forall j :: |s| - n <= j < |s| ==> IsSpace(s[j])
    ensures n < |s| ==> !IsSpace(s[|s| - 1 - n])
    decreases |s|
  {
    if s != [] && IsSpace(s[|s| - 1]) then 1 + TrailingSpaces(s[..|s| - 1]) else 0
  }

  /** Python's `str.strip()`: `s` without its leading and trailing whitespace. */
  function Strip(s: string): (r: string)
    ensures LeadingSpaces(s) + |r| <= |s|
    ensures r == s[LeadingSpaces(s)..LeadingSpaces(s) + |r|]
    ensures forall j :: 0 <= j < LeadingSpaces(s) ==> IsSpace(s[j])
    ensures forall j :: LeadingSpaces(s) + |r| <= j < |s| ==> IsSpace(s[j])
    ensures r != [] ==> !IsSpace(r[0]) && !IsSpace(r[|r| - 1])
  {
    var rest := s[LeadingSpaces(s)..];
    rest[..|rest| - TrailingSpaces(rest)]
  }

  /** Stripping a stripped string changes nothing. */
  lemma StripIdempotent(s: string)
    ensures Strip(Strip(s)) == Strip(s)
  {
    var r := Strip(s);
    assert LeadingSpaces(r) == 0;
    assert r[LeadingSpaces(r)..] == r;
    assert TrailingSpaces(r) == 0;
  }

  lemma LeadingSpacesMap(s: string, f: char -> char)
    requires forall c :: IsSpace(f(c)) == IsSpace(c)
    ensures LeadingSpaces(Map(s, f)) == LeadingSpaces(s)
    decreases |s|
  {
    if s != [] {
      assert Map(s, f)[1..] == Map(s[1..], f);
      LeadingSpacesMap(s[1..], f);
    }
  }

  lemma TrailingSpacesMap(s: string, f: char -> char)
    requires forall c :: IsSpace(f(c)) == IsSpace(c)
    ensures TrailingSpaces(Map(s, f)) == TrailingSpaces(s)
    decreases |s|
  {
    if s != [] {
      assert Map(s, f)[..|s| - 1] == Map(s[..|s| - 1], f);
      TrailingSpacesMap(s[..|s| - 1], f);
    }
  }

  /** A character map that keeps whitespace fixed commutes with `strip()`. */
  lemma StripMap(s: string, f: char -> char)
    requires forall c :: IsSpace(f(c)) == IsSpace(c)
    ensures Strip(Map(s, f)) == Map(Strip(s), f)
  {
    var m := Map(s, f);
    LeadingSpacesMap(s, f);
    var a := LeadingSpaces(s);
    var rest := s[a..];
    MapSlice(s, f, a, |s|);
    var restM := m[a..];
    assert restM == Map(rest, f);
    TrailingSpacesMap(rest, f);
    var t := TrailingSpaces(rest);
    MapSlice(rest, f, 0, |rest| - t);
    assert Strip(m) == restM[..|rest| - t];
    assert Strip(s) == rest[..|rest| - t];
  }

  /** Upper-casing and stripping can be done in either order. */
  lemma StripUpper(s: string)
    ensures Strip(Upper(s)) == Upper(Strip(s))
  {
    StripMap(s, UpperChar);
  }

  lemma StripLower(s: string)
    ensures Strip(Lower(s)) == Lower(Strip(s))
  {
    StripMap(s, LowerChar);
  }

  // ------------------------------------------------------------- slicing

  /** `p` is an initial segment of `s`. */
  predicate IsPrefix(p: string, s: string) {
    |p| <= |s| && s[..|p|] == p
  }

  /** Python's `s[:n]` for a non-negative `n`: at most the first `n` characters. */
  function Take(s: string, n: nat): (r: string)
    ensures |r| == if |s| < n then |s| else n
    ensures IsPrefix(r, s)
  {
    if n <= |s| then s[..n] else s
  }

  // ----------------------------------------------------------- substring

  /** `pat` occurs in `text` starting at position `i`. */
  predicate OccursAt(text: string, pat: string, i: int) {
    0 <= i && i + |pat| <= |text| && text[i..i + |pat|] == pat
  }

  /** The leftmost occurrence of `pat` in `text` at or after position `from`. */
  function FindFrom(text: string, pat: string, from: nat): (r: Option<nat>)
    ensures r.Some? ==> from <= r.value && OccursAt(text, pat, r.value)
    ensures r.Some? ==> forall j :: from <= j < r.value ==> !OccursAt(text, pat, j)
    ensures r.None? ==> forall j :: from <= j ==> !OccursAt(text, pat, j)
    decreases |text| - from
  {
    if |text| < from + |pat| then None
    else if OccursAt(text, pat, from) then Some(from)
    else FindFrom(text, pat, from + 1)
  }

  /** The leftmost occurrence of `pat` in `text` (Python's `str.find`). */
  function FindFirst(text: string, pat: string): Option<nat> {
    FindFrom(text, pat, 0)
  }

  /** Python's `pat in text`. */
  function Contains(text: string, pat: string): (r: bool)
    ensures r <==> exists i :: OccursAt(text, pat, i)
  {
    FindFirst(text, pat).Some?
  }

  /** Text that contains `pat` still contains it with anything put around it. */
  lemma ContainsExtend(a: string, pat: string, before: string, after: string)
    requires Contains(a, pat)
    ensures Contains(before + a + after, pat)
  {
    var i :| OccursAt(a, pat, i);
    var t := before + a + after;
    assert t[|before| + i..|before| + i + |pat|] == a[i..i + |pat|];
    assert OccursAt(t, pat, |before| + i);
  }

  /** An occurrence inside a prefix is an occurrence in the whole text. */
  lemma OccursInPrefix(s: string, pat: string, n: nat, j: int)
    requires n <= |s| && OccursAt(s[..n], pat, j)
    ensures OccursAt(s, pat, j)
  {
    assert s[..n][j..j + |pat|] == s[j..j + |pat|];
  }

  // -------------------------------------------------------- split and join

  /** Python's `sep.join(parts)`. */
  function Join(sep: string, parts: seq<string>): (r: string)
    ensures |parts| > 0 ==> |parts[0]| <= |r| && r[..|parts[0]|] == parts[0]
    decreases |parts|
  {
    if |parts| == 0 then ""
    else if |parts| == 1 then parts[0]
    else parts[0] + sep + Join(sep, parts[1..])
  }

  /** Python's `s.split(sep)` for a non-empty separator: cut at every
      occurrence of `sep`, scanning left to right. */
  function Split(s: string, sep: string): (parts: seq<string>)
    requires sep != []
    ensures |parts| >= 1
    ensures forall k :: 0 <= k < |parts| ==> !Contains(parts[k], sep)
    decreases |s|
  {
    match FindFirst(s, sep)
    case None => [s]
    case Some(i) =>
      var head := s[..i];
      assert !Contains(head, sep) by {
        forall j | OccursAt(head, sep, j) ensures false {
          OccursInPrefix(s, sep, i, j);
        }
      }
      [head] + Split(s[i + |sep|..], sep)
  }

  /** Python's cuts are the leftmost ones: the first part runs up to the
      first occurrence of the separator (or is the whole text when there is
      none), and the other parts are the split of what follows it. */
  lemma SplitCuts(s: string, sep: string)
    requires sep != []
    ensures var parts := Split(s, sep);
      && |parts[0]| <= |s| && parts[0] == s[..|parts[0]|]
      && (forall j :: 0 <= j < |parts[0]| ==> !OccursAt(s, sep, j))
      && (|parts| == 1 <==> !Contains(s, sep))
      && (|parts| == 1 ==> parts[0] == s)
      && (|parts| > 1 ==>
            && OccursAt(s, sep, |parts[0]|)
            && parts[1..] == Split(s[|parts[0]| + |sep|..], sep))
  {
    var parts := Split(s, sep);
    match FindFirst(s, sep)
    case None =>
      assert parts == [s];
    case Some(i) =>
      var tail := Split(s[i + |sep|..], sep);
      assert parts == [s[..i]] + tail;
      assert parts[1..] == tail;
  }

  /** Joining the parts of a split with the same separator gives back the text. */
  lemma {:induction false} JoinSplit(s: string, sep: string)
    requires sep != []
    ensures Join(sep, Split(s, sep)) == s
    decreases |s|
  {
    var found := FindFirst(s, sep);
    if found.Some? {
      var i := found.value;
      var rest := s[i + |sep|..];
      var tail := Split(rest, sep);
      JoinSplit(rest, sep);
      var parts := [s[..i]] + tail;
      assert Split(s, sep) == parts;
      assert parts[1..] == tail;
      assert Join(sep, parts) == s[..i] + sep + rest;
      assert s[i..i + |sep|] == sep;
      assert s == s[..i] + s[i..i + |sep|] + rest;
    }
  }
}
