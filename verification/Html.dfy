/** html.EscapeString of Go's standard library, and its inverse on escaped text. */
module Html {
  import opened Wrappers
  import opened Lists
  import opened Strings

  const AMP := "&amp;"
  const APOS := "&#39;"
  const LT := "&lt;"
  const GT := "&gt;"
  const QUOT := "&#34;"

  function EscapeChar(c: char): string {
    match c
    case '&' => AMP
    case '\'' => APOS
    case '<' => LT
    case '>' => GT
    case '"' => QUOT
    case _ => [c]
  }

  function Escape(s: string): string {
    if s == "" then "" else EscapeChar(s[0]) + Escape(s[1..])
  }

  /** Reading text back: the five entities become their characters again, everything else is kept. */
  function Unescape(s: string): string {
    if s == "" then ""
    else
      var (c, n) := FirstChar(s);
      [c] + Unescape(s[n..])
  }

  /** The first character of escaped text, and how many characters stand for it. */
  function FirstChar(s: string): (r: (char, nat))
    requires s != ""
    ensures 0 < r.1 <= |s|
  {
    if s[0] != '&' then (s[0], 1)
    else if AMP <= s then ('&', |AMP|)
    else if APOS <= s then ('\'', |APOS|)
    else if LT <= s then ('<', |LT|)
    else if GT <= s then ('>', |GT|)
    else if QUOT <= s then ('"', |QUOT|)
    else (s[0], 1)
  }

  lemma FirstEscapedChar(c: char, rest: string)
    ensures FirstChar(EscapeChar(c) + rest) == (c, |EscapeChar(c)|)
  {
    var e := EscapeChar(c);
    var s := e + rest;
    assert s[0] == e[0];
    if c == '&' || c == '\'' || c == '<' || c == '>' || c == '"' {
      assert s[..|e|] == e;
      assert s[1] == e[1] && s[2] == e[2] && s[3] == e[3];
    }
  }

  lemma UnescapeChar(c: char, rest: string)
    ensures Unescape(EscapeChar(c) + rest) == [c] + Unescape(rest)
  {
    FirstEscapedChar(c, rest);
    assert (EscapeChar(c) + rest)[|EscapeChar(c)|..] == rest;
  }

  lemma {:induction false} UnescapeEscaped(s: string, rest: string)
    ensures Unescape(Escape(s) + rest) == s + Unescape(rest)
  {
    if s == "" {
      assert Escape(s) + rest == rest;
    } else {
      calc {
        Unescape(Escape(s) + rest);
        { assert Escape(s) + rest == EscapeChar(s[0]) + (Escape(s[1..]) + rest); }
        Unescape(EscapeChar(s[0]) + (Escape(s[1..]) + rest));
        { UnescapeChar(s[0], Escape(s[1..]) + rest); }
        [s[0]] + Unescape(Escape(s[1..]) + rest);
        { UnescapeEscaped(s[1..], rest); }
        [s[0]] + (s[1..] + Unescape(rest));
        { assert [s[0]] + s[1..] == s; }
        s + Unescape(rest);
      }
    }
  }

  /** Text without `&` reads as itself. */
  lemma {:induction false} UnescapePlain(s: string, rest: string)
    requires forall i :: 0 <= i < |s| ==> s[i] != '&'
    ensures Unescape(s + rest) == s + Unescape(rest)
  {
    if s == "" {
      assert s + rest == rest;
    } else {
      UnescapePlain(s[1..], rest);
      assert (s + rest)[1..] == s[1..] + rest;
      assert [s[0]] + (s[1..] + Unescape(rest)) == s + Unescape(rest);
    }
  }

  lemma EscapeRoundTrip(s: string)
    ensures Unescape(Escape(s)) == s
  {
    UnescapeEscaped(s, "");
    assert Escape(s) + "" == Escape(s) && s + "" == s;
  }

  /** The characters that can open or close a tag or an attribute value. */
  predicate IsMarkup(c: char) {
    c == '<' || c == '>' || c == '"' || c == '\''
  }

  /** The markup skeleton: the subsequence of those characters. */
  function Skeleton(s: string): string {
    if s == "" then ""
    else (if IsMarkup(s[0]) then [s[0]] else "") + Skeleton(s[1..])
  }

  lemma {:induction false} SkeletonConcat(a: string, b: string)
    ensures Skeleton(a + b) == Skeleton(a) + Skeleton(b)
  {
    if a == "" {
      assert a + b == b;
    } else {
      var m := if IsMarkup(a[0]) then [a[0]] else "";
      calc {
        Skeleton(a + b);
        { assert (a + b)[1..] == a[1..] + b; }
        m + Skeleton(a[1..] + b);
        { SkeletonConcat(a[1..], b); }
        m + (Skeleton(a[1..]) + Skeleton(b));
        { assert m + (Skeleton(a[1..]) + Skeleton(b)) == (m + Skeleton(a[1..])) + Skeleton(b); }
        Skeleton(a) + Skeleton(b);
      }
    }
  }

  /** Text without any of those characters. */
  predicate NoMarkup(s: string) {
    forall i :: 0 <= i < |s| ==> !IsMarkup(s[i])
  }

  lemma SkeletonOfPlain(s: string)
    ensures NoMarkup(s) <==> Skeleton(s) == ""
  {
    if s != "" {
      SkeletonOfPlain(s[1..]);
      assert NoMarkup(s) <==> !IsMarkup(s[0]) && NoMarkup(s[1..]) by {
        assert s == [s[0]] + s[1..];
      }
    }
  }

  lemma {:induction false} EscapeHasNoMarkup(s: string)
    ensures NoMarkup(Escape(s))
  {
    if s != "" {
      EscapeHasNoMarkup(s[1..]);
    }
  }

  lemma {:induction false} EscapeConcat(a: string, b: string)
    ensures Escape(a + b) == Escape(a) + Escape(b)
  {
    if a == "" {
      assert a + b == b;
    } else {
      calc {
        Escape(a + b);
        { assert (a + b)[1..] == a[1..] + b; }
        EscapeChar(a[0]) + Escape(a[1..] + b);
        { EscapeConcat(a[1..], b); }
        EscapeChar(a[0]) + (Escape(a[1..]) + Escape(b));
        { Regroup(EscapeChar(a[0]), Escape(a[1..]), Escape(b)); }
        Escape(a) + Escape(b);
      }
    }
  }

  /** The entity of each of the five characters; every other character stands for itself. */
  function Entity(c: char): string {
    if c == '&' then "&amp;"
    else if c == '\'' then "&#39;"
    else if c == '<' then "&lt;"
    else if c == '>' then "&gt;"
    else if c == '"' then "&#34;"
    else [c]
  }

  /** Text is escaped character by character, to the standard entities. */
  lemma EscapeInFull(a: string, c: char, b: string)
    ensures Escape(a + [c] + b) == Escape(a) + Entity(c) + Escape(b)
  {
    EscapeConcat(a + [c], b);
    EscapeConcat(a, [c]);
    assert [c][1..] == "";
    assert EscapeChar(c) + "" == EscapeChar(c);
  }

  // ----- What is seen -----------------------------------------------------------------------------

  /** What a reader sees: tags are not shown, entities are shown as their character. */
  function Visible(s: string): string {
    Unescape(StripTags(s))
  }

  function StripTags(s: string): string
    decreases |s|
  {
    if s == "" then ""
    else if s[0] == '<' then StripTags(AfterClose(s))
    else [s[0]] + StripTags(s[1..])
  }

  /** What follows the first `>`. */
  function AfterClose(s: string): (r: string)
    ensures |r| <= |s| && (s != "" ==> |r| < |s|)
  {
    if s == "" then "" else if s[0] == '>' then s[1..] else AfterClose(s[1..])
  }

  lemma {:induction false} StripPlain(text: string, rest: string)
    requires '<' !in text
    ensures StripTags(text + rest) == text + StripTags(rest)
  {
    if text == "" {
      assert text + rest == rest;
    } else {
      assert forall i :: 0 <= i < |text[1..]| ==> text[1..][i] == text[i + 1];
      StripPlain(text[1..], rest);
      assert (text + rest)[1..] == text[1..] + rest;
      assert [text[0]] + (text[1..] + StripTags(rest)) == text + StripTags(rest);
    }
  }

  lemma {:induction false} AfterCloseOf(tag: string, rest: string)
    requires tag != "" && tag[|tag| - 1] == '>' && forall i :: 0 <= i < |tag| - 1 ==> tag[i] != '>'
    ensures AfterClose(tag + rest) == rest
  {
    if |tag| == 1 {
      assert (tag + rest)[1..] == rest;
    } else {
      assert (tag + rest)[1..] == tag[1..] + rest;
      AfterCloseOf(tag[1..], rest);
    }
  }

  lemma EscapedHasNoTag(s: string)
    ensures '<' !in Escape(s)
    ensures Escape(s) == "" <==> s == ""
  {
    EscapeHasNoMarkup(s);
  }
}
