/** The functions of Go's `strings` package that the service relies on.  A string is a
    sequence of Unicode scalar values, so lengths are rune counts. */
module Strings {
  import opened Wrappers

  /** strings.HasPrefix */
  predicate HasPrefix(s: string, prefix: string) {
    prefix <= s
  }

  /** The pattern occurs in `s` at index `i`. */
  predicate OccursAt(s: string, pat: string, i: nat) {
    i <= |s| && pat <= s[i..]
  }

  /** strings.Contains */
  predicate Contains(s: string, pat: string): (found: bool)
    ensures found <==> exists i: nat :: OccursAt(s, pat, i)
  {
    assert s[0..] == s;
    assert forall i: nat :: OccursAt(s, pat, i) && i > 0 ==> s[1..][i - 1..] == s[i..];
    assert forall i: nat :: s != "" && i <= |s[1..]| ==> s[1..][i..] == s[i + 1..];
    if pat <= s then assert OccursAt(s, pat, 0); true
    else if s == "" then false
    else
      var rest := Contains(s[1..], pat);
      assert rest ==> exists i: nat :: OccursAt(s[1..], pat, i) && OccursAt(s, pat, i + 1);
      assert forall i: nat :: OccursAt(s, pat, i) ==> i > 0 && OccursAt(s[1..], pat, i - 1);
      rest
  }

  /** strings.ReplaceAll for a nonempty pattern: leftmost matches that do not overlap. */
  function ReplaceAll(s: string, pat: string, sub: string): string
    requires pat != ""
  {
    if s == "" then ""
    else if pat <= s then sub + ReplaceAll(s[|pat|..], pat, sub)
    else [s[0]] + ReplaceAll(s[1..], pat, sub)
  }

  /** strings.Count for a nonempty pattern: the number of those matches. */
  function Count(s: string, pat: string): nat
    requires pat != ""
  {
    if s == "" then 0
    else if pat <= s then 1 + Count(s[|pat|..], pat)
    else Count(s[1..], pat)
  }

  /** strings.ToLower on ASCII letters.  No other letter has a lower-case form among the letters
      of the words the service looks for in lower case: `text/html`, `<html` and `ru`. */
  function LowerChar(c: char): char {
    if 'A' <= c <= 'Z' then ((c as int) + 32) as char else c
  }

  function ToLower(s: string): (r: string)
    ensures |r| == |s|
  {
    if s == "" then "" else [LowerChar(s[0])] + ToLower(s[1..])
  }

  /** unicode.IsSpace */
  predicate IsSpace(c: char) {
    || '\t' <= c <= '\r' || c == ' ' || c == '\U{0085}' || c == '\U{00A0}' || c == '\U{1680}'
    || '\U{2000}' <= c <= '\U{200A}' || c == '\U{2028}' || c == '\U{2029}' || c == '\U{202F}'
    || c == '\U{205F}' || c == '\U{3000}'
  }

  /** The first position from `i` on that does not hold a space. */
  function SkipSpaces(s: string, i: nat): (n: nat)
    requires i <= |s|
    ensures i <= n <= |s| && (n < |s| ==> !IsSpace(s[n])) && forall k :: i <= k < n ==> IsSpace(s[k])
    decreases |s| - i
  {
    if i < |s| && IsSpace(s[i]) then SkipSpaces(s, i + 1) else i
  }

  /** The end of the text before the spaces that stand before `n`. */
  function SkipSpacesBack(s: string, n: nat): (k: nat)
    requires n <= |s|
    ensures k <= n && (k > 0 ==> !IsSpace(s[k - 1])) && forall i :: k <= i < n ==> IsSpace(s[i])
  {
    if n > 0 && IsSpace(s[n - 1]) then SkipSpacesBack(s, n - 1) else n
  }

  /** strings.TrimSpace */
  function TrimSpace(s: string): (r: string)
    ensures r != "" ==> !IsSpace(r[0]) && !IsSpace(r[|r| - 1])
    ensures |r| <= |s|
  {
    var lo, hi := SkipSpaces(s, 0), SkipSpacesBack(s, |s|);
    if lo <= hi then s[lo..hi] else ""
  }

  predicate AllSpaces(s: string) {
    forall i :: 0 <= i < |s| ==> IsSpace(s[i])
  }

  /** Text with no space at either end comes out of any spaces put around it. */
  lemma TrimSpaceOf(lead: string, text: string, trail: string)
    requires AllSpaces(lead) && AllSpaces(trail)
    requires text != "" ==> !IsSpace(text[0]) && !IsSpace(text[|text| - 1])
    ensures TrimSpace(lead + text + trail) == text
  {
    var s := lead + text + trail;
    if text != "" {
      assert s[|lead|] == text[0] && s[|lead| + |text| - 1] == text[|text| - 1];
      assert forall i :: 0 <= i < |lead| ==> s[i] == lead[i];
      assert SkipSpaces(s, 0) == |lead|;
      assert forall i :: |lead| + |text| <= i < |s| ==> s[i] == trail[i - |lead| - |text|];
      assert SkipSpacesBack(s, |s|) == |lead| + |text|;
    } else {
      assert AllSpaces(s);
    }
  }

  /** strings.Join */
  function Join(parts: seq<string>, sep: string): string {
    if parts == [] then ""
    else if |parts| == 1 then parts[0]
    else parts[0] + sep + Join(parts[1..], sep)
  }

  /** Looking a key up in a Go `map[string]string`: a missing key (or a nil map) gives "". */
  function Lookup(m: map<string, string>, key: string): string {
    if key in m then m[key] else ""
  }

  lemma MatchAt(s: string, pat: string, i: nat, d: nat)
    requires d < |pat|
    ensures OccursAt(s, pat, i) ==> i + d < |s| && s[i + d] == pat[d]
  {
    if OccursAt(s, pat, i) {
      assert s[i..][d] == pat[d];
    }
  }

  /** A stretch of text in which no match begins is copied unchanged. */
  lemma {:induction false} ReplaceAllSkips(a: string, rest: string, pat: string, sub: string)
    requires pat != ""
    requires forall i: nat :: i < |a| ==> !OccursAt(a + rest, pat, i)
    ensures ReplaceAll(a + rest, pat, sub) == a + ReplaceAll(rest, pat, sub)
  {
    if a == "" {
      assert a + rest == rest;
    } else {
      var s := a + rest;
      assert s[0..] == s && s[1..] == a[1..] + rest;
      assert !OccursAt(s, pat, 0);
      forall i: nat | i < |a[1..]| ensures !OccursAt(a[1..] + rest, pat, i) {
        assert s[1..][i..] == s[i + 1..];
        assert !OccursAt(s, pat, i + 1);
      }
      ReplaceAllSkips(a[1..], rest, pat, sub);
      assert [a[0]] + a[1..] == a;
    }
  }

  lemma ToLowerChars(s: string)
    ensures forall i :: 0 <= i < |s| ==> ToLower(s)[i] == LowerChar(s[i])
  {
  }

  lemma {:induction false} ToLowerConcat(a: string, b: string)
    ensures ToLower(a + b) == ToLower(a) + ToLower(b)
  {
    if a == "" {
      assert a + b == b;
    } else {
      assert (a + b)[1..] == a[1..] + b;
      ToLowerConcat(a[1..], b);
    }
  }

  /** Split at every separator; the empty string has one empty part. */
  function Split(s: string, sep: char): (parts: seq<string>)
    ensures parts != []
    ensures forall p :: p in parts ==> sep !in p
  {
    if s == "" then [""]
    else
      var rest := Split(s[1..], sep);
      if s[0] == sep then [""] + rest else [[s[0]] + rest[0]] + rest[1..]
  }

  lemma {:induction false} SplitPart(part: string, rest: string, sep: char)
    requires sep !in part
    ensures Split(part, sep) == [part]
    ensures Split(part + [sep] + rest, sep) == [part] + Split(rest, sep)
  {
    if part == "" {
      assert ([sep] + rest)[1..] == rest;
    } else {
      SplitPart(part[1..], rest, sep);
      assert (part + [sep] + rest)[1..] == part[1..] + [sep] + rest;
      assert [part[0]] + part[1..] == part;
    }
  }

  lemma {:induction false} SplitJoin(parts: seq<string>, sep: char)
    requires parts != [] && forall p :: p in parts ==> sep !in p
    ensures Split(Join(parts, [sep]), sep) == parts
  {
    SplitPart(parts[0], Join(parts[1..], [sep]), sep);
    if |parts| > 1 {
      SplitJoin(parts[1..], sep);
      assert [parts[0]] + parts[1..] == parts;
    }
  }

  /** Splitting forgets nothing. */
  lemma {:induction false} JoinSplit(s: string, sep: char)
    ensures Join(Split(s, sep), [sep]) == s
  {
    if s != "" {
      JoinSplit(s[1..], sep);
      var rest := Split(s[1..], sep);
      assert s == [s[0]] + s[1..];
      if s[0] != sep {
        assert ([[s[0]] + rest[0]] + rest[1..])[1..] == rest[1..];
      }
    }
  }

  lemma {:induction false} SplitAppendPart(s: string, part: string, sep: char)
    requires sep !in part
    ensures Split(s + [sep] + part, sep) == Split(s, sep) + [part]
  {
    SplitPart(part, "", sep);
    if s == "" {
      assert (s + [sep] + part)[1..] == part;
    } else {
      SplitAppendPart(s[1..], part, sep);
      assert (s + [sep] + part)[1..] == s[1..] + [sep] + part;
    }
  }

  /** The white space of Unicode, character by character. */
  lemma SpacesInFull(c: char)
    ensures IsSpace(c) <==>
            || c in "\t\n\U{000B}\U{000C}\r \U{0085}\U{00A0}\U{1680}"
            || c in "\U{2000}\U{2001}\U{2002}\U{2003}\U{2004}\U{2005}\U{2006}\U{2007}\U{2008}\U{2009}\U{200A}"
            || c in "\U{2028}\U{2029}\U{202F}\U{205F}\U{3000}"
  {
    SpacesByNumber(c);
  }

  lemma SpacesByNumber(c: char)
    ensures '\t' <= c <= '\r' <==> c in "\t\n\U{000B}\U{000C}\r"
    ensures '\U{2000}' <= c <= '\U{200A}' <==>
            c in "\U{2000}\U{2001}\U{2002}\U{2003}\U{2004}\U{2005}\U{2006}\U{2007}\U{2008}\U{2009}\U{200A}"
  {
  }

  /** Nothing is left exactly of text that is all spaces. */
  lemma BlankExactly(s: string)
    ensures TrimSpace(s) == "" <==> AllSpaces(s)
  {
    if AllSpaces(s) {
      assert SkipSpaces(s, 0) == |s|;
    } else {
      var i :| 0 <= i < |s| && !IsSpace(s[i]);
      assert SkipSpaces(s, 0) <= i < SkipSpacesBack(s, |s|);
    }
  }

  /** The lower-case form of each capital letter; every other character is its own. */
  lemma LowerCaseInFull(i: nat, c: char)
    requires i < 26
    ensures LowerChar("ABCDEFGHIJKLMNOPQRSTUVWXYZ"[i]) == "abcdefghijklmnopqrstuvwxyz"[i]
    ensures c !in "ABCDEFGHIJKLMNOPQRSTUVWXYZ" ==> LowerChar(c) == c
  {
    var capitals, small := "ABCDEFGHIJKLMNOPQRSTUVWXYZ", "abcdefghijklmnopqrstuvwxyz";
    assert forall j :: 0 <= j < 26 ==> capitals[j] as int == 'A' as int + j && small[j] as int == 'a' as int + j;
    if 'A' <= c <= 'Z' {
      assert capitals[c as int - 'A' as int] == c;
    }
  }
}
