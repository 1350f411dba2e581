/** Reading an e-mail back: what the recipient is shown and where the link leads, in terms of the message and its
    metadata; and which messages are refused. */
module MailReading {
  import opened Wrappers
  import opened Strings
  import opened Html
  import opened Providers
  import opened Templates
  import opened Layout
  import opened Mail

  /** What a key of the metadata says; a missing key says nothing. */
  predicate Says(metadata: map<string, string>, key: string, value: string) {
    if key in metadata then metadata[key] == value else value == ""
  }

  lemma MetaIs(job: Job, key: string, value: string)
    requires Says(job.msg.metadata, key, value)
    ensures job.Meta(key) == value
  {
  }

  // ----- Links ----------------------------------------------------------------------------------

  /** The text between the first two quotation marks. */
  function FirstQuoted(s: string): string { BeforeQuote(AfterQuote(s)) }

  function AfterQuote(s: string): string {
    if s == "" then "" else if s[0] == '"' then s[1..] else AfterQuote(s[1..])
  }

  function BeforeQuote(s: string): string {
    if s == "" || s[0] == '"' then "" else [s[0]] + BeforeQuote(s[1..])
  }

  lemma {:induction false} AfterQuoteSkips(a: string, rest: string)
    requires '"' !in a
    ensures AfterQuote(a + rest) == AfterQuote(rest)
  {
    if a == "" {
      assert a + rest == rest;
    } else {
      assert (a + rest)[1..] == a[1..] + rest;
      AfterQuoteSkips(a[1..], rest);
    }
  }

  lemma {:induction false} BeforeQuoteOf(a: string, rest: string)
    requires '"' !in a && rest != "" && rest[0] == '"'
    ensures BeforeQuote(a + rest) == a
  {
    if a == "" {
      assert a + rest == rest;
    } else {
      assert (a + rest)[1..] == a[1..] + rest;
      BeforeQuoteOf(a[1..], rest);
      assert [a[0]] + a[1..] == a;
    }
  }

  lemma {:induction false} AfterCloseSkips(a: string, rest: string)
    requires '>' !in a
    ensures AfterClose(a + rest) == AfterClose(rest)
  {
    if a == "" {
      assert a + rest == rest;
    } else {
      assert (a + rest)[1..] == a[1..] + rest;
      AfterCloseSkips(a[1..], rest);
    }
  }

  lemma EscapedHas(s: string, c: char)
    requires c == '"' || c == '<' || c == '>'
    ensures c !in Escape(s)
  {
    EscapeHasNoMarkup(s);
  }

  lemma QuotedAddress(lead: string, address: string, rest: string)
    requires '"' !in lead && rest != "" && rest[0] == '"'
    ensures Unescape(FirstQuoted(lead + (ANCHOR_OPEN + (Escape(address) + rest)))) == address
  {
    EscapedHas(address, '"');
    var inside := Escape(address) + rest;
    AfterQuoteSkips(lead, ANCHOR_OPEN + inside);
    AnchorOpens(inside);
    BeforeQuoteOf(Escape(address), rest);
    EscapeRoundTrip(address);
  }

  lemma AnchorOpens(rest: string)
    ensures AfterQuote(ANCHOR_OPEN + rest) == rest
  {
    AfterQuoteSkips("<a href=", "\"" + rest);
    assert ANCHOR_OPEN + rest == "<a href=" + ("\"" + rest);
    assert ("\"" + rest)[1..] == rest;
  }

  lemma AnchorLeadsTo(lead: string, address: string, attributes: string, caption: string, rest: string)
    requires '"' !in lead
    ensures Unescape(FirstQuoted(lead + Anchor(address, attributes, caption, rest))) == address
  {
    QuotedAddress(lead, address, "\"" + (attributes + (">" + (Escape(caption) + ("</a>" + rest)))));
  }

  lemma AnchorStrips(address: string, attributes: string, caption: string, rest: string)
    requires '>' !in attributes
    ensures StripTags(Anchor(address, attributes, caption, rest)) == Escape(caption) + StripTags(rest)
  {
    EscapedHas(caption, '<');
    var shown := Escape(caption) + ("</a>" + rest);
    TagCloses(address, attributes, shown);
    assert Anchor(address, attributes, caption, rest)[0] == '<';
    StripPlain(Escape(caption), "</a>" + rest);
    StripTag("</a>", rest);
  }

  lemma TagCloses(address: string, attributes: string, rest: string)
    requires '>' !in attributes
    ensures AfterClose(ANCHOR_OPEN + (Escape(address) + ("\"" + (attributes + (">" + rest))))) == rest
  {
    EscapedHas(address, '>');
    AfterCloseSkips(ANCHOR_OPEN, Escape(address) + ("\"" + (attributes + (">" + rest))));
    AfterCloseSkips(Escape(address), "\"" + (attributes + (">" + rest)));
    AfterCloseSkips("\"", attributes + (">" + rest));
    AfterCloseSkips(attributes, ">" + rest);
    assert (">" + rest)[1..] == rest;
  }

  lemma StripTag(tag: string, rest: string)
    requires |tag| > 1 && tag[0] == '<' && tag[|tag| - 1] == '>' && forall i :: 0 <= i < |tag| - 1 ==> tag[i] != '>'
    ensures StripTags(tag + rest) == StripTags(rest)
  {
    AfterCloseOf(tag, rest);
  }

  /** The link in an HTML body shows its caption and leads to its address, whatever characters they have. */
  lemma HtmlLinkReads(address: string, caption: string)
    ensures Visible(HtmlLink(address, caption)) == caption
    ensures Unescape(FirstQuoted(HtmlLink(address, caption))) == address
  {
    AnchorLeadsTo("<p>", address, "", caption, "</p>");
    StripTag("<p>", Anchor(address, "", caption, "</p>"));
    AnchorStrips(address, "", caption, "</p>");
    StripTag("</p>", "");
    assert "</p>" + "" == "</p>" && Escape(caption) + "" == Escape(caption);
    EscapeRoundTrip(caption);
  }

  /** So does the link in the footer of a layout. */
  lemma FooterLinkReads(address: string, caption: string)
    ensures Visible(FooterLink(address, caption)) == caption
    ensures Unescape(FirstQuoted(FooterLink(address, caption))) == address
  {
    assert '>' !in "color:#a5adbd;" && '>' !in "text-decoration:" && '>' !in "underline" && '>' !in " style=\"";
    assert '>' !in FOOTER_ATTRIBUTES;
    AnchorLeadsTo("<br><br>", address, FOOTER_ATTRIBUTES, caption, "");
    BreaksStrip(Anchor(address, FOOTER_ATTRIBUTES, caption, ""));
    AnchorStrips(address, FOOTER_ATTRIBUTES, caption, "");
    assert Escape(caption) + "" == Escape(caption);
    EscapeRoundTrip(caption);
  }

  lemma BreaksStrip(rest: string)
    ensures StripTags("<br><br>" + rest) == StripTags(rest)
  {
    assert "<br><br>" + rest == "<br>" + ("<br>" + rest);
    StripTag("<br>", "<br>" + rest);
    StripTag("<br>", rest);
  }

  /** The paragraph around plain text shows that text. */
  lemma ParagraphShows(body: string)
    ensures Visible(PLAIN_OPEN + Escape(body) + PLAIN_CLOSE) == body
  {
    var e := Escape(body);
    EscapedHas(body, '<');
    ParagraphTag();
    StripTag(PLAIN_OPEN, e + "</p>");
    StripPlain(e, "</p>");
    StripTag("</p>", "");
    assert "</p>" + "" == "</p>" && e + "" == e;
    assert PLAIN_OPEN + e + PLAIN_CLOSE == PLAIN_OPEN + (e + "</p>");
    EscapeRoundTrip(body);
  }

  lemma ParagraphTag()
    ensures |PLAIN_OPEN| > 1 && PLAIN_OPEN[0] == '<' && PLAIN_OPEN[|PLAIN_OPEN| - 1] == '>'
    ensures forall i :: 0 <= i < |PLAIN_OPEN| - 1 ==> PLAIN_OPEN[i] != '>'
  {
    assert '>' !in "margin:0 0 16px;" && '>' !in "line-height:1.65;" && '>' !in "white-space:pre-wrap";
    assert '>' !in PLAIN_STYLE && '>' !in "<p style=\"";
    assert PLAIN_OPEN == ("<p style=\"" + PLAIN_STYLE + "\"") + ">";
  }

  // ----- The link in the message ----------------------------------------------------------------

  /** The address and the caption of a link that has to be put into the message. */
  predicate LinkIs(job: Job, address: string, caption: string) {
    && address != "" && Says(job.msg.metadata, "email_unsubscribe_url", address)
    && !Says(job.msg.metadata, "email_unsubscribe_in_body", "true")
    && Says(job.msg.metadata, "email_unsubscribe_label", caption)
  }

  lemma LinkIsWanted(job: Job, address: string, caption: string)
    requires LinkIs(job, address, caption)
    ensures job.WantsLink() && job.Address() == address && job.Label() == caption
  {
  }

  /** Without a layout the link stands behind the body: as text in a text, as an anchor in HTML. */
  lemma LinkBehindBody(job: Job, address: string, caption: string)
    requires job.Failure().None? && job.LayoutText() == "" && LinkIs(job, address, caption)
    ensures !IsHtml(job.ContentType()) ==> job.FinalBody() == job.msg.body + ("\n\n" + caption + ": " + address)
    ensures IsHtml(job.ContentType()) ==>
              exists link :: job.LaidOut() == job.msg.body + link
                             && Visible(link) == caption && Unescape(FirstQuoted(link)) == address
  {
    LinkIsWanted(job, address, caption);
    if IsHtml(job.ContentType()) {
      HtmlLinkReads(address, caption);
      assert job.LaidOut() == job.msg.body + HtmlLink(address, caption);
    }
  }

  /** In a layout it is the footer; without a link the footer is empty. */
  lemma LinkInFooter(job: Job, address: string, caption: string)
    requires job.Failure().None? && job.LayoutText() != ""
    ensures LinkIs(job, address, caption) ==>
              Visible(job.Footer()) == caption && Unescape(FirstQuoted(job.Footer())) == address
    ensures (|| Says(job.msg.metadata, "email_unsubscribe_url", "")
             || Says(job.msg.metadata, "email_unsubscribe_in_body", "true"))
            ==> job.Footer() == ""
  {
    if LinkIs(job, address, caption) {
      LinkIsWanted(job, address, caption);
      FooterLinkReads(address, caption);
    }
  }

  // ----- The body in a layout -------------------------------------------------------------------

  /** The type of a message is plain text if it has none, and HTML once a layout is applied. */
  lemma TypesInFull(job: Job)
    ensures job.ContentType() == if job.msg.contentType == "" then "text/plain; charset=UTF-8" else job.msg.contentType
    ensures job.FinalContentType() == if job.LayoutText() == "" then job.ContentType() else "text/html"
  {
  }

  /** The layout that is applied: the one configured, except that a finished custom HTML message has none unless it
      asks for it. */
  lemma LayoutInForce(job: Job)
    ensures job.layouts == [] ==> job.LayoutText() == ""
    ensures job.layouts != [] && job.msg.template != "notification_custom_html" ==> job.LayoutText() == job.layouts[0]
    ensures job.layouts != [] && job.msg.template == "notification_custom_html" ==>
              job.LayoutText()
              == if Says(job.msg.metadata, "email_apply_brand_layout", "true") then job.layouts[0] else ""
  {
  }

  /** An HTML body goes into the layout as it is. */
  lemma HtmlMailLaidOut(job: Job, parts: Parts)
    requires job.Failure().None? && job.LayoutText() != "" && Splits(job.LayoutText(), parts)
    requires IsHtml(job.ContentType())
    ensures job.LaidOut() == parts.Fill(job.msg.body, job.Footer())
    ensures job.FinalBody() == Document(parts.Fill(job.msg.body, job.Footer()),
                                        !HasHtmlTag(parts.Fill(job.msg.body, job.Footer())))
  {
    LayoutFills(job.LayoutText(), parts, job.msg.body, job.Footer());
    LaidOutIsHtml(job);
  }

  /** Undoing an HTML mail: cut off the document and the layout around the body. */
  function RecoverHtml(parts: Parts, footer: string, hasDocument: bool, mailBody: string): string {
    Between(mailBody, |Lead(parts, footer, DocumentOpen(hasDocument), "")|,
            |Trail(parts, footer, DocumentClose(hasDocument), "")|)
  }

  /** The HTML body is recovered from the mail, whatever it contains. */
  lemma HtmlMailIsLossless(job: Job, parts: Parts)
    requires job.Failure().None? && job.LayoutText() != "" && Splits(job.LayoutText(), parts)
    requires IsHtml(job.ContentType())
    ensures RecoverHtml(parts, job.Footer(), !HasHtmlTag(parts.Fill(job.msg.body, job.Footer())), job.FinalBody())
            == job.msg.body
  {
    var filled := parts.Fill(job.msg.body, job.Footer());
    HtmlMailLaidOut(job, parts);
    RecoverHtmlFilled(parts, job.msg.body, job.Footer(), !HasHtmlTag(filled));
  }

  lemma RecoverHtmlFilled(parts: Parts, body: string, footer: string, hasDocument: bool)
    ensures RecoverHtml(parts, footer, hasDocument, Document(parts.Fill(body, footer), hasDocument)) == body
  {
    var o, c := DocumentOpen(hasDocument), DocumentClose(hasDocument);
    DocumentAsBrackets(parts.Fill(body, footer), hasDocument);
    FilledAsLeadAndTrail(parts, body, footer, o, c, "", "");
    assert "" + body + "" == body;
    CutOut(Lead(parts, footer, o, ""), body, Trail(parts, footer, c, ""));
  }

  /** A plain body is shown in the layout as it is. */
  lemma PlainMailShows(job: Job, parts: Parts)
    requires job.Failure().None? && job.LayoutText() != "" && Splits(job.LayoutText(), parts)
    requires !IsHtml(job.ContentType())
    ensures exists shown :: job.LaidOut() == parts.Fill(shown, job.Footer()) && Visible(shown) == job.msg.body
  {
    PlainMailShape(job, parts);
    ParagraphShows(job.msg.body);
  }

  // ----- The fixed texts ------------------------------------------------------------------------

  /** The document around an HTML mail, the paragraph around plain text and the style of a footer link, in full. */
  lemma FixedTexts(inside: string)
    ensures Document(inside, true)
            == ("<!doctype html>" + "<html>"
                + (("<head><meta charset=\"utf-8\">"
                    + "<meta name=\"viewport\" content=\"width=device-width,initial-scale=1\"></head>")
                   + "<body style=\"margin:0\">"))
               + inside + "</body></html>"
    ensures PLAIN_OPEN + inside + PLAIN_CLOSE
            == ("<p style=\"" + ("margin:0 0 16px;" + "line-height:1.65;" + "white-space:pre-wrap") + "\">")
               + inside + "</p>"
    ensures FOOTER_ATTRIBUTES == " style=\"" + "color:#a5adbd;" + "text-decoration:" + "underline" + "\""
  {
  }

  // ----- Refusals -------------------------------------------------------------------------------

  /** An unsubscribe address that may be used. */
  predicate UsableAddress(address: string, parsed: Option<Url>) {
    && parsed.Some? && parsed.value.scheme == "https" && parsed.value.hostname != ""
    && !parsed.value.hasUser && parsed.value.fragment == ""
    && ByteLength(address) <= 2048
    && forall i :: 0 <= i < |address| ==> address[i] !in "\r\n\t <>\""
  }

  lemma UsableExactly(address: string, parsed: Option<Url>)
    ensures GoodUnsubscribeUrl(address, parsed) <==> UsableAddress(address, parsed)
  {
    forall i | 0 <= i < |address| ensures UnsafeInHeader(address[i]) <==> address[i] in "\r\n\t <>\"" {
    }
  }

  /** The reason for which a message is refused, in the order of the checks. */
  lemma RefusedExactly(job: Job, address: string, caption: string)
    requires Says(job.msg.metadata, "email_unsubscribe_url", address)
    requires Says(job.msg.metadata, "email_unsubscribe_label", caption)
    ensures job.Failure()
            == if job.senderAddress.None? then Some(InvalidSender)
               else if job.identifier.None? then Some(NoIdentifier)
               else if address != "" && !UsableAddress(address, job.parsed) then Some(InvalidUnsubscribeUrl)
               else if && address != "" && caption == ""
                       && !Says(job.msg.metadata, "email_unsubscribe_in_body", "true") then
                 Some(MissingUnsubscribeLabel)
               else if job.LayoutText() != "" && !(exists i: nat, j: nat ::
                         OnlyAt(job.LayoutText(), "{{body}}", i) && OnlyAt(job.LayoutText(), "{{footer}}", j)) then
                 Some(InvalidLayout)
               else None
  {
    MetaIs(job, "email_unsubscribe_url", address);
    MetaIs(job, "email_unsubscribe_label", caption);
    UsableExactly(address, job.parsed);
    ValidExactly(job.LayoutText());
  }
}
