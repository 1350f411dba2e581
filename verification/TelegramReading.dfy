/** Reading a Telegram message back: the text determines the notice it was composed from, and shows it. */
module TelegramReading {
  import opened Wrappers
  import opened Lists
  import opened Strings
  import opened Html
  import opened Config
  import opened Providers
  import opened TelegramText

  /** The text before the first `<`. */
  function BeforeTag(s: string): string {
    if s == "" || s[0] == '<' then "" else [s[0]] + BeforeTag(s[1..])
  }

  function Drop(s: string, n: nat): string { if n <= |s| then s[n..] else "" }

  function DropLast(s: string, n: nat): string { if n <= |s| then s[..|s| - n] else "" }

  /** The content of `<x>content</x>`, and what follows. */
  function ReadElement(s: string): (string, string) {
    var inside := Drop(s, 3);
    var content := BeforeTag(inside);
    (Unescape(content), Drop(inside, |content| + 4))
  }

  function ReadNotice(text: string): Notice {
    var head := BeforeTag(text);
    var (title, rest) := ReadElement(Drop(text, |head|));
    var (body, footer) := ReadTail(rest);
    Notice(DropLast(head, 1), title, body, footer)
  }

  function ReadTail(rest: string): (Option<string>, Option<string>) {
    var lines := Drop(rest, 2);
    var body := BeforeTag(lines);
    if rest == "" then (None, None)
    else if body == lines then (Some(Unescape(body)), None)
    else
      var footer := Some(ReadElement(Drop(lines, |body|)).0);
      if body == "" then (None, footer) else (Some(Unescape(DropLast(body, 2))), footer)
  }

  lemma {:induction false} BeforeTagOf(a: string, rest: string)
    requires '<' !in a && (rest == "" || rest[0] == '<')
    ensures BeforeTag(a + rest) == a && Drop(a + rest, |a|) == rest
  {
    assert (a + rest)[|a|..] == rest;
    if a == "" {
      assert a + rest == rest;
    } else {
      assert '<' !in a[1..] by {
        assert forall i :: 0 <= i < |a[1..]| ==> a[1..][i] == a[i + 1];
      }
      BeforeTagOf(a[1..], rest);
      assert (a + rest)[1..] == a[1..] + rest;
      assert [a[0]] + a[1..] == a;
    }
  }

  lemma ReadElementBack(open: string, text: string, close: string, rest: string)
    requires |open| == 3 && |close| == 4 && close[0] == '<'
    ensures ReadElement(open + (Escape(text) + close) + rest) == (text, rest)
  {
    EscapedHasNoTag(text);
    ReadRawElement(open, Escape(text), close, rest);
    EscapeRoundTrip(text);
  }

  lemma ReadRawElement(open: string, e: string, close: string, rest: string)
    requires |open| == 3 && |close| == 4 && close[0] == '<' && '<' !in e
    ensures ReadElement(open + (e + close) + rest) == (Unescape(e), rest)
  {
    assert (open + (e + close) + rest)[3..] == e + (close + rest);
    BeforeTagOf(e, close + rest);
    assert (e + (close + rest))[|e| + 4..] == rest;
  }

  lemma ReadBodyOnly(text: string)
    requires text != ""
    ensures ReadTail("\n\n" + Escape(text)) == (Some(text), None)
  {
    var e := Escape(text);
    EscapedHasNoTag(text);
    assert ("\n\n" + e)[2..] == e && e + "" == e;
    BeforeTagOf(e, "");
    EscapeRoundTrip(text);
  }

  lemma ReadFooterOnly(text: string)
    ensures ReadTail("\n\n" + Italic(text)) == (None, Some(text))
  {
    var tag := Italic(text);
    assert ("\n\n" + tag)[2..] == tag && "" + tag == tag && tag + "" == tag;
    BeforeTagOf("", tag);
    ReadElementBack("<i>", text, "</i>", "");
  }

  lemma DropBlankLine(rest: string)
    ensures Drop("\n\n" + rest, 2) == rest
  {
  }

  lemma ReadBodyAndFooter(text: string, footer: string)
    requires text != ""
    ensures ReadTail(("\n\n" + Escape(text)) + ("\n\n" + Italic(footer))) == (Some(text), Some(footer))
  {
    var e, tag := Escape(text), Italic(footer);
    var lines := (e + "\n\n") + tag;
    EscapedHasNoTag(text);
    Regroup("\n\n", e, "\n\n" + tag);
    Regroup(e, "\n\n", tag);
    DropBlankLine(lines);
    BeforeTagOf(e + "\n\n", tag);
    ReadFooterBack(footer);
    assert (e + "\n\n")[..|e|] == e;
    EscapeRoundTrip(text);
  }

  lemma ReadFooterBack(footer: string)
    ensures ReadElement(Italic(footer)).0 == footer
  {
    ReadElementBack("<i>", footer, "</i>", "");
    assert Italic(footer) + "" == Italic(footer);
  }

  lemma ReadTailBack(n: Notice)
    requires n.body != Some("")
    ensures ReadTail(Tail(n)) == (n.body, n.footer)
  {
    match (n.body, n.footer)
    case (None, None) =>
    case (Some(b), None) =>
      ReadBodyOnly(b);
      assert Tail(n) == "\n\n" + Escape(b);
    case (None, Some(f)) =>
      ReadFooterOnly(f);
      assert Tail(n) == "\n\n" + Italic(f);
    case (Some(b), Some(f)) =>
      ReadBodyAndFooter(b, f);
  }

  /** Emoji, title, body and footer are recovered from the text, whatever they contain. */
  lemma ComposeRoundTrip(n: Notice)
    requires '<' !in n.emoji && n.body != Some("")
    ensures ReadNotice(Compose(n)) == n
  {
    var head := n.emoji + " ";
    var rest := Bold(n.title) + Tail(n);
    BeforeTagOf(head, rest);
    assert Compose(n) == head + rest;
    ReadElementBack("<b>", n.title, "</b>", Tail(n));
    ReadTailBack(n);
    assert head[..|n.emoji|] == n.emoji;
  }

  // ----- What is shown --------------------------------------------------------------------------

  /** An element leaves its content. */
  lemma StripElement(open: string, text: string, close: string, rest: string)
    requires (open == "<b>" && close == "</b>") || (open == "<i>" && close == "</i>")
    ensures StripTags(open + (Escape(text) + close) + rest) == Escape(text) + StripTags(rest)
  {
    var e := Escape(text);
    EscapedHasNoTag(text);
    AfterCloseOf(close, rest);
    assert StripTags(close + rest) == StripTags(rest);
    StripPlain(e, close + rest);
    AfterCloseOf(open, e + (close + rest));
    assert open + (e + close) + rest == open + (e + (close + rest));
  }

  /** The text that is left of a tail without its tags. */
  function BareTail(n: Notice): string {
    (if n.body.Some? then "\n\n" + Escape(n.body.value) else "")
    + (if n.footer.Some? then "\n\n" + Escape(n.footer.value) else "")
  }

  lemma StripFooter(footer: string)
    ensures StripTags("\n\n" + Italic(footer)) == "\n\n" + Escape(footer)
  {
    StripElement("<i>", footer, "</i>", "");
    assert Italic(footer) + "" == Italic(footer) && Escape(footer) + "" == Escape(footer);
    StripPlain("\n\n", Italic(footer));
  }

  lemma StripTail(n: Notice)
    ensures StripTags(Tail(n)) == BareTail(n)
  {
    var last := if n.footer.Some? then "\n\n" + Italic(n.footer.value) else "";
    if n.footer.Some? {
      StripFooter(n.footer.value);
    }
    if n.body.Some? {
      var lead := "\n\n" + Escape(n.body.value);
      EscapedHasNoTag(n.body.value);
      StripPlain(lead, last);
    } else {
      assert Tail(n) == last;
    }
  }

  function ShownTail(n: Notice): string {
    (if n.body.Some? then "\n\n" + n.body.value else "") + (if n.footer.Some? then "\n\n" + n.footer.value else "")
  }

  /** A blank line and escaped text read as a blank line and the text. */
  lemma UnescapeParagraph(text: string, rest: string)
    ensures Unescape("\n\n" + Escape(text) + rest) == "\n\n" + text + Unescape(rest)
  {
    calc {
      Unescape("\n\n" + Escape(text) + rest);
      { Regroup("\n\n", Escape(text), rest); }
      Unescape("\n\n" + (Escape(text) + rest));
      { UnescapePlain("\n\n", Escape(text) + rest); }
      "\n\n" + Unescape(Escape(text) + rest);
      { UnescapeEscaped(text, rest); }
      "\n\n" + (text + Unescape(rest));
      { Regroup("\n\n", text, Unescape(rest)); }
      "\n\n" + text + Unescape(rest);
    }
  }

  lemma UnescapeTail(n: Notice)
    ensures Unescape(BareTail(n)) == ShownTail(n)
  {
    var last := if n.footer.Some? then "\n\n" + Escape(n.footer.value) else "";
    if n.footer.Some? {
      UnescapeParagraph(n.footer.value, "");
      assert last + "" == last;
    }
    if n.body.Some? {
      UnescapeParagraph(n.body.value, last);
    } else {
      assert BareTail(n) == last;
    }
  }

  function Shown(n: Notice): string {
    n.emoji + " " + (n.title + ShownTail(n))
  }

  lemma ComposeShows(n: Notice)
    requires '<' !in n.emoji && '&' !in n.emoji
    ensures Visible(Compose(n)) == Shown(n)
  {
    var head := n.emoji + " ";
    StripTail(n);
    StripElement("<b>", n.title, "</b>", Tail(n));
    StripPlain(head, Bold(n.title) + Tail(n));
    UnescapeTail(n);
    UnescapeEscaped(n.title, BareTail(n));
    UnescapePlain(head, Escape(n.title) + BareTail(n));
  }

  /** Every message, for all inputs: the text reads back as the notice it was composed from, it shows
      exactly that notice, and no more than 320 + 3000 characters, the footer and a few separators. */
  lemma MessageIsFaithful(m: Message, p: Presentation, plain: string -> string)
    ensures var n := NoticeFor(m, p, plain);
            && ReadNotice(Compose(n)) == n
            && Visible(Compose(n)) == Shown(n)
            && |Visible(Compose(n))| <= 320 + 3000 + 7 + (if n.footer.Some? then |n.footer.value| else 0)
  {
    var n := NoticeFor(m, p, plain);
    ComposeRoundTrip(n);
    ComposeShows(n);
    ShownLength(n);
  }

  lemma ShownLength(n: Notice)
    requires WithinLimits(n)
    ensures |Shown(n)| <= 320 + 3000 + 7 + (if n.footer.Some? then |n.footer.value| else 0)
  {
  }
}
