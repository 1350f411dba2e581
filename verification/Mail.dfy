/** Building an e-mail: headers, the unsubscribe link, the layout and the HTML document around it. */
module Mail {
  import opened Wrappers
  import opened Strings
  import opened Html
  import opened Providers
  import opened Templates
  import opened Layout

  /** What net/url.Parse finds in an address. */
  datatype Url = Url(scheme: string, hostname: string, hasUser: bool, fragment: string)

  datatype MailError =
    | InvalidSender
    | NoIdentifier
    | InvalidUnsubscribeUrl
    | MissingUnsubscribeLabel
    | InvalidLayout

  datatype Header = MessageId | From | To | Subject | ListUnsubscribe | ListUnsubscribePost

  /** The message under construction. */
  class MailMessage {
    var headers: map<Header, string>
    var contentType: string
    var body: string

    constructor ()
      ensures headers == map[] && contentType == "" && body == ""
    {
      headers, contentType, body := map[], "", "";
    }

    method SetHeader(name: Header, value: string)
      modifies this
      ensures headers == old(headers)[name := value] && contentType == old(contentType) && body == old(body)
    {
      headers := headers[name := value];
    }

    method SetBody(newContentType: string, newBody: string)
      modifies this
      ensures headers == old(headers) && contentType == newContentType && body == newBody
    {
      contentType, body := newContentType, newBody;
    }
  }

  const HEAD :=
    "<head><meta charset=\"utf-8\">" + "<meta name=\"viewport\" content=\"width=device-width,initial-scale=1\"></head>"
  const DOCUMENT_OPEN := "<!doctype html>" + "<html>" + (HEAD + "<body style=\"margin:0\">")
  const DOCUMENT_CLOSE := "</body></html>"
  const ANCHOR_OPEN := "<a href=\""
  const FOOTER_ATTRIBUTES := " style=\"" + "color:#a5adbd;" + "text-decoration:" + "underline" + "\""

  predicate UnsafeInHeader(c: char) {
    c in {'\r', '\n', '\t', ' ', '<', '>', '"'}
  }

  predicate GoodUnsubscribeUrl(address: string, parsed: Option<Url>) {
    && parsed.Some?
    && ByteLength(address) <= 2048
    && parsed.value.scheme == "https"
    && parsed.value.hostname != ""
    && !parsed.value.hasUser
    && parsed.value.fragment == ""
    && forall i :: 0 <= i < |address| ==> !UnsafeInHeader(address[i])
  }

  /** The part of an address after its last `@`; all of it if there is none. */
  function Domain(address: string): (d: string)
    ensures '@' !in d && |d| <= |address| && address[|address| - |d|..] == d
    ensures |d| < |address| ==> address[|address| - |d| - 1] == '@'
  {
    if '@' !in address then address
    else Domain(address[1..])
  }

  /** An anchor with further attributes, and what follows it. */
  function Anchor(address: string, attributes: string, caption: string, rest: string): string {
    ANCHOR_OPEN + (Escape(address) + ("\"" + (attributes + (">" + (Escape(caption) + ("</a>" + rest))))))
  }

  function FooterLink(address: string, caption: string): string {
    "<br><br>" + Anchor(address, FOOTER_ATTRIBUTES, caption, "")
  }

  function HtmlLink(address: string, caption: string): string {
    "<p>" + Anchor(address, "", caption, "</p>")
  }

  function TextLink(address: string, caption: string): string {
    "\n\n" + caption + ": " + address
  }

  predicate HasHtmlTag(body: string) {
    Contains(ToLower(body), "<html")
  }

  /** Everything that decides a mail. */
  datatype Job = Job(
    from: string,
    senderAddress: Option<string>,
    identifier: Option<string>,
    msg: Message,
    layouts: seq<string>,
    parsed: Option<Url>)
  {
    function Meta(key: string): string { Lookup(msg.metadata, key) }
    function ContentType(): string { if msg.contentType == "" then TEXT_PLAIN else msg.contentType }
    function Address(): string { Meta("email_unsubscribe_url") }
    function Label(): string { Meta("email_unsubscribe_label") }

    /** The layout in force; none for finished custom HTML unless it asks for it. */
    function LayoutText(): string {
      if |layouts| > 0 && (msg.template != CUSTOM_HTML || Meta("email_apply_brand_layout") == "true") then layouts[0]
      else ""
    }

    /** A link has to be put into the message. */
    predicate WantsLink() { Address() != "" && Meta("email_unsubscribe_in_body") != "true" }

    function LinkFailure(): Option<MailError> {
      if Address() != "" && !GoodUnsubscribeUrl(Address(), parsed) then Some(InvalidUnsubscribeUrl)
      else if WantsLink() && Label() == "" then Some(MissingUnsubscribeLabel)
      else None
    }

    function BodyFailure(): Option<MailError> {
      if LinkFailure().Some? then LinkFailure()
      else if LayoutText() != "" && !ValidLayout(LayoutText()) then Some(InvalidLayout)
      else None
    }

    function Failure(): Option<MailError> {
      if senderAddress.None? then Some(InvalidSender)
      else if identifier.None? then Some(NoIdentifier)
      else BodyFailure()
    }

    function Footer(): string { if WantsLink() && LayoutText() != "" then FooterLink(Address(), Label()) else "" }

    function LinkedBody(): string {
      if !WantsLink() || LayoutText() != "" then msg.body
      else if IsHtml(ContentType()) then
        msg.body + HtmlLink(Address(), Label())
      else msg.body + TextLink(Address(), Label())
    }

    /** The body before the document is put around it. */
    function LaidOut(): string {
      if LayoutText() == "" then LinkedBody()
      else ReplaceSlots(LayoutText(), BodyHtml(LinkedBody(), ContentType()), Footer())
    }

    function FinalContentType(): string { if LayoutText() != "" then "text/html" else ContentType() }

    predicate NeedsDocument() { IsHtml(FinalContentType()) && !HasHtmlTag(LaidOut()) }

    function FinalBody(): string {
      Document(LaidOut(), NeedsDocument())
    }

    function Headers(): map<Header, string>
      requires Failure().None?
    {
      var basic := map[
        MessageId := "<" + identifier.value + "@" + Domain(senderAddress.value) + ">",
        From := from, To := msg.recipient, Subject := msg.subject];
      if Address() == "" then basic
      else basic[ListUnsubscribe := "<" + Address() + ">"]
                [ListUnsubscribePost := "List-Unsubscribe=One-Click"]
    }
  }

  /** The unsubscribe link: at the end of the body, or as the footer of a layout. */
  method AddLink(job: Job) returns (r: Result<(string, string), MailError>)
    ensures r == if job.LinkFailure().Some? then Err(job.LinkFailure().value)
                 else Ok((job.LinkedBody(), job.Footer()))
  {
    var body, footer := job.msg.body, "";
    var address := job.Address();
    if address != "" {
      if !GoodUnsubscribeUrl(address, job.parsed) {
        return Err(InvalidUnsubscribeUrl);
      }
      if job.Meta("email_unsubscribe_in_body") != "true" {
        var caption := job.Label();
        if caption == "" {
          return Err(MissingUnsubscribeLabel);
        }
        if job.LayoutText() != "" {
          footer := FooterLink(address, caption);
        } else if IsHtml(job.ContentType()) {
          body := body + HtmlLink(address, caption);
        } else {
          body := body + TextLink(address, caption);
        }
      }
    }
    return Ok((body, footer));
  }

  /** The link, the layout and the document. */
  method ComposeBody(job: Job) returns (r: Result<(string, string), MailError>)
    ensures r == if job.BodyFailure().Some? then Err(job.BodyFailure().value)
                 else Ok((job.FinalContentType(), job.FinalBody()))
  {
    var contentType := job.ContentType();
    var linked := AddLink(job);
    if linked.Err? {
      return Err(linked.error);
    }
    var (body, footer) := linked.value;
    var layout := job.LayoutText();
    if layout != "" {
      var applied := ApplyLayout(layout, body, contentType, footer);
      if applied.None? {
        return Err(InvalidLayout);
      }
      body := applied.value;
      contentType := "text/html";
    }
    if IsHtml(contentType) && !HasHtmlTag(body) {
      body := DOCUMENT_OPEN + body + DOCUMENT_CLOSE;
    }
    return Ok((contentType, body));
  }

  method BuildMessage(job: Job) returns (r: Result<MailMessage, MailError>)
    ensures match r
            case Err(error) => job.Failure() == Some(error)
            case Ok(mail) =>
              && job.Failure().None? && fresh(mail)
              && mail.headers == job.Headers()
              && mail.contentType == job.FinalContentType() && mail.body == job.FinalBody()
  {
    if job.senderAddress.None? {
      return Err(InvalidSender);
    }
    if job.identifier.None? {
      return Err(NoIdentifier);
    }
    var domain := Domain(job.senderAddress.value);
    var mail := new MailMessage();
    mail.SetHeader(MessageId, "<" + job.identifier.value + "@" + domain + ">");
    mail.SetHeader(From, job.from);
    mail.SetHeader(To, job.msg.recipient);
    mail.SetHeader(Subject, job.msg.subject);
    var composed := ComposeBody(job);
    if composed.Err? {
      return Err(composed.error);
    }
    if job.Address() != "" {
      mail.SetHeader(ListUnsubscribe, "<" + job.Address() + ">");
      mail.SetHeader(ListUnsubscribePost, "List-Unsubscribe=One-Click");
    }
    mail.SetBody(composed.value.0, composed.value.1);
    return Ok(mail);
  }

  // ----- The document around a plain-text mail ------------------------------------------------

  /** Text in which every `<` is followed, within the text, by something other than an `h`. */
  predicate TagSafe(s: string) {
    forall i :: 0 <= i < |s| && s[i] == '<' ==> i + 1 < |s| && LowerChar(s[i + 1]) != 'h'
  }

  /** Such text that begins with `<` and ends with `>`. */
  predicate Closed(s: string) {
    TagSafe(s) && s != "" && s[0] == '<' && s[|s| - 1] == '>'
  }

  lemma TagSafeHasNoHtmlTag(s: string)
    requires TagSafe(s)
    ensures !HasHtmlTag(s)
  {
    var low := ToLower(s);
    ToLowerChars(s);
    forall i: nat ensures !OccursAt(low, "<html", i) {
      MatchAt(low, "<html", i, 0);
      MatchAt(low, "<html", i, 1);
    }
  }

  lemma TagSafeConcat(a: string, b: string)
    requires TagSafe(a) && TagSafe(b)
    ensures TagSafe(a + b)
  {
    forall i | 0 <= i < |a + b| && (a + b)[i] == '<'
      ensures i + 1 < |a + b| && LowerChar((a + b)[i + 1]) != 'h'
    {
      if i < |a| {
        assert (a + b)[i + 1] == a[i + 1];
      } else {
        assert (a + b)[i + 1] == b[i - |a| + 1];
      }
    }
  }

  /** The paragraph around escaped text is closed on both sides. */
  lemma PlainBodySafe(body: string)
    ensures Closed(PLAIN_OPEN + Escape(body) + PLAIN_CLOSE)
  {
    EscapeHasNoMarkup(body);
    assert '<' !in "margin:0 0 16px;" && '<' !in "line-height:1.65;" && '<' !in "white-space:pre-wrap";
    assert '<' !in PLAIN_STYLE;
    assert forall i :: 0 <= i < |PLAIN_OPEN| && PLAIN_OPEN[i] == '<' ==> i == 0;
    TagSafeConcat(PLAIN_OPEN, Escape(body));
    TagSafeConcat(PLAIN_OPEN + Escape(body), PLAIN_CLOSE);
  }

  lemma FooterSafe(address: string, caption: string)
    ensures Closed(FooterLink(address, caption))
  {
    assert '<' !in "color:#a5adbd;" && '<' !in "text-decoration:" && '<' !in "underline" && '<' !in " style=\"";
    assert '<' !in FOOTER_ATTRIBUTES;
    AnchorSafe(address, FOOTER_ATTRIBUTES, caption);
    BreaksSafe(Anchor(address, FOOTER_ATTRIBUTES, caption, ""));
  }

  lemma BreaksSafe(rest: string)
    requires TagSafe(rest) && rest != "" && rest[|rest| - 1] == '>'
    ensures Closed("<br><br>" + rest)
  {
    TagSafeConcat("<br><br>", rest);
  }

  lemma PlainBefore(text: string, rest: string)
    requires '<' !in text && TagSafe(rest) && rest != "" && rest[|rest| - 1] == '>'
    ensures TagSafe(text + rest) && text + rest != "" && (text + rest)[|text + rest| - 1] == '>'
  {
    TagSafeConcat(text, rest);
  }

  lemma AnchorSafe(address: string, attributes: string, caption: string)
    requires '<' !in attributes
    ensures var a := Anchor(address, attributes, caption, "");
            TagSafe(a) && a != "" && a[|a| - 1] == '>'
  {
    EscapedHasNoTag(address);
    EscapedHasNoTag(caption);
    var close := "</a>" + "";
    CloseSafe();
    var shown := Escape(caption) + close;
    PlainBefore(Escape(caption), close);
    PlainBefore(">", shown);
    PlainBefore(attributes, ">" + shown);
    PlainBefore("\"", attributes + (">" + shown));
    PlainBefore(Escape(address), "\"" + (attributes + (">" + shown)));
    OpenSafe(Escape(address) + ("\"" + (attributes + (">" + shown))));
  }

  lemma CloseSafe()
    ensures TagSafe("</a>" + "") && "</a>" + "" != "" && ("</a>" + "")[|"</a>" + ""| - 1] == '>'
  {
    assert "</a>" + "" == "</a>";
  }

  lemma OpenSafe(rest: string)
    requires TagSafe(rest) && rest != "" && rest[|rest| - 1] == '>'
    ensures TagSafe(ANCHOR_OPEN + rest) && (ANCHOR_OPEN + rest)[|ANCHOR_OPEN + rest| - 1] == '>'
  {
    TagSafeConcat(ANCHOR_OPEN, rest);
  }

  /** An `<html` tag, character by character and in whatever case. */
  predicate TagAt(s: string, i: nat) {
    && i + 5 <= |s| && s[i] == '<' && (s[i + 1] == 'h' || s[i + 1] == 'H') && (s[i + 2] == 't' || s[i + 2] == 'T')
    && (s[i + 3] == 'm' || s[i + 3] == 'M') && (s[i + 4] == 'l' || s[i + 4] == 'L')
  }

  lemma HasHtmlTagExactly(s: string)
    ensures HasHtmlTag(s) <==> exists i: nat :: TagAt(s, i)
  {
    var low := ToLower(s);
    ToLowerChars(s);
    forall i: nat ensures OccursAt(low, "<html", i) <==> TagAt(s, i) {
      if i + 5 <= |s| {
        assert low[i..][..5] == [low[i], low[i + 1], low[i + 2], low[i + 3], low[i + 4]];
        assert OccursAt(low, "<html", i) <==> low[i..][..5] == "<html";
      }
    }
  }

  /** A tag cannot straddle a boundary behind a `>` or before a `<`. */
  lemma TagAcross(x: string, y: string)
    requires x == "" || x[|x| - 1] == '>' || y == "" || y[0] == '<'
    ensures HasHtmlTag(x + y) <==> HasHtmlTag(x) || HasHtmlTag(y)
  {
    ToLowerConcat(x, y);
    ToLowerChars(x);
    ToLowerChars(y);
    var a, b := ToLower(x), ToLower(y);
    forall i: nat ensures OccursAt(a + b, "<html", i) ==> Contains(a, "<html") || Contains(b, "<html") {
      if OccursAt(a + b, "<html", i) {
        NoStraddle(a, b, i);
      }
    }
    forall i: nat ensures OccursAt(a, "<html", i) ==> OccursAt(a + b, "<html", i) {
      if i <= |a| { assert (a + b)[i..] == a[i..] + b; }
    }
    forall i: nat ensures OccursAt(b, "<html", i) ==> OccursAt(a + b, "<html", |a| + i) {
      if i <= |b| { assert (a + b)[|a| + i..] == b[i..]; }
    }
  }

  lemma NoStraddle(a: string, b: string, i: nat)
    requires a == "" || a[|a| - 1] == '>' || b == "" || b[0] == '<'
    requires OccursAt(a + b, "<html", i)
    ensures if i < |a| then OccursAt(a, "<html", i) else OccursAt(b, "<html", i - |a|)
  {
    if |a| <= i {
      assert (a + b)[i..] == b[i - |a|..];
    } else if i + 5 <= |a| {
      assert (a + b)[i..][..5] == a[i..][..5];
    } else {
      var d := |a| - i;
      MatchAt(a + b, "<html", i, d);
      MatchAt(a + b, "<html", i, d - 1);
    }
  }

  /** A closed safe piece between two texts leaves them to themselves. */
  lemma TagAround(x: string, w: string, y: string)
    requires Closed(w)
    ensures HasHtmlTag(x + w + y) <==> HasHtmlTag(x) || HasHtmlTag(y)
  {
    TagAcross(x, w);
    TagAcross(x + w, y);
    TagSafeHasNoHtmlTag(w);
  }

  /** Whether a layout already brings an `<html` tag; without a footer the texts on both sides of the
      footer slot come together. */
  predicate LayoutHasTag(parts: Parts, noFooter: bool) {
    if !noFooter then HasHtmlTag(parts.before) || HasHtmlTag(parts.middle) || HasHtmlTag(parts.after)
    else if parts.bodyFirst then HasHtmlTag(parts.before) || HasHtmlTag(parts.middle + parts.after)
    else HasHtmlTag(parts.before + parts.middle) || HasHtmlTag(parts.after)
  }

  lemma FilledTag(parts: Parts, w: string, footer: string)
    requires Closed(w)
    requires footer != "" ==> Closed(footer)
    ensures HasHtmlTag(parts.Fill(w, footer)) <==> LayoutHasTag(parts, footer == "")
  {
    var a, b, c := parts.before, parts.middle, parts.after;
    if parts.bodyFirst {
      assert parts.Fill(w, footer) == a + w + (b + footer + c);
      TagAround(a, w, b + footer + c);
      TagAroundOptional(b, footer, c);
    } else {
      assert parts.Fill(w, footer) == (a + footer + b) + w + c;
      TagAround(a + footer + b, w, c);
      TagAroundOptional(a, footer, b);
    }
  }

  lemma TagAroundOptional(x: string, footer: string, y: string)
    requires footer != "" ==> Closed(footer)
    ensures HasHtmlTag(x + footer + y)
            <==> if footer == "" then HasHtmlTag(x + y) else HasHtmlTag(x) || HasHtmlTag(y)
  {
    if footer == "" {
      assert x + footer + y == x + y;
    } else {
      TagAround(x, footer, y);
    }
  }

  lemma PlainMailLaidOut(job: Job, parts: Parts)
    requires job.Failure().None? && job.LayoutText() != "" && Splits(job.LayoutText(), parts)
    requires !IsHtml(job.ContentType())
    ensures job.LaidOut() == parts.Fill(PLAIN_OPEN + Escape(job.msg.body) + PLAIN_CLOSE, job.Footer())
  {
    LayoutFills(job.LayoutText(), parts, PLAIN_OPEN + Escape(job.msg.body) + PLAIN_CLOSE, job.Footer());
  }

  lemma FooterShape(job: Job)
    requires job.LayoutText() != ""
    ensures job.Footer() == "" <==> !job.WantsLink()
    ensures job.WantsLink() ==> Closed(job.Footer())
  {
    FooterSafe(job.Address(), job.Label());
  }

  /** A plain-text mail through a layout: the parts are filled with the wrapped text and the footer, and
      whether the document is added depends only on the layout and on the footer being empty. */
  lemma PlainMailShape(job: Job, parts: Parts)
    requires job.Failure().None? && job.LayoutText() != "" && Splits(job.LayoutText(), parts)
    requires !IsHtml(job.ContentType())
    ensures job.LaidOut() == parts.Fill(PLAIN_OPEN + Escape(job.msg.body) + PLAIN_CLOSE, job.Footer())
    ensures job.NeedsDocument() <==> !LayoutHasTag(parts, !job.WantsLink())
  {
    PlainMailLaidOut(job, parts);
    PlainBodySafe(job.msg.body);
    FooterShape(job);
    FilledTag(parts, PLAIN_OPEN + Escape(job.msg.body) + PLAIN_CLOSE, job.Footer());
    LaidOutIsHtml(job);
  }

  lemma LaidOutIsHtml(job: Job)
    requires job.LayoutText() != ""
    ensures IsHtml(job.FinalContentType())
  {
    assert ToLower("text/html") == "text/html";
  }

  /** What stands before and after the escaped text of a plain mail, for given document and paragraph
      brackets. */
  function Lead(parts: Parts, footer: string, open: string, paragraph: string): string {
    open + (parts.before + (if parts.bodyFirst then "" else footer + parts.middle) + paragraph)
  }

  function Trail(parts: Parts, footer: string, close: string, paragraph: string): string {
    paragraph + (if parts.bodyFirst then parts.middle + footer else "") + parts.after + close
  }

  function Between(s: string, lead: nat, trail: nat): string {
    if lead + trail <= |s| then s[lead..|s| - trail] else ""
  }

  function DocumentOpen(hasDocument: bool): string { if hasDocument then DOCUMENT_OPEN else "" }

  function DocumentClose(hasDocument: bool): string { if hasDocument then DOCUMENT_CLOSE else "" }

  /** Undoing the mail, knowing the layout, the footer and whether the document was added: cut off what
      is fixed, by length, and read the entities back. */
  function RecoverBody(parts: Parts, footer: string, hasDocument: bool, mailBody: string): string {
    Unescape(Between(mailBody,
                     |Lead(parts, footer, DocumentOpen(hasDocument), PLAIN_OPEN)|,
                     |Trail(parts, footer, DocumentClose(hasDocument), PLAIN_CLOSE)|))
  }

  lemma CutOut(x: string, e: string, y: string)
    ensures Between(x + e + y, |x|, |y|) == e
  {
  }

  lemma FilledAsLeadAndTrail(parts: Parts, e: string, footer: string, o: string, c: string, po: string, pc: string)
    ensures o + parts.Fill(po + e + pc, footer) + c == Lead(parts, footer, o, po) + e + Trail(parts, footer, c, pc)
  {
    var a, m, z := parts.before, parts.middle, parts.after;
    if parts.bodyFirst {
      assert o + (a + (po + e + pc) + m + footer + z) + c == (o + (a + "" + po)) + e + (pc + (m + footer) + z + c);
    } else {
      assert o + (a + footer + m + (po + e + pc) + z) + c == (o + (a + (footer + m) + po)) + e + (pc + "" + z + c);
    }
  }

  lemma RecoverFilled(parts: Parts, e: string, footer: string, hasDocument: bool)
    ensures RecoverBody(parts, footer, hasDocument,
                        Document(parts.Fill(PLAIN_OPEN + e + PLAIN_CLOSE, footer), hasDocument)) == Unescape(e)
  {
    var o, c := DocumentOpen(hasDocument), DocumentClose(hasDocument);
    var filled := parts.Fill(PLAIN_OPEN + e + PLAIN_CLOSE, footer);
    DocumentAsBrackets(filled, hasDocument);
    FilledAsLeadAndTrail(parts, e, footer, o, c, PLAIN_OPEN, PLAIN_CLOSE);
    CutOut(Lead(parts, footer, o, PLAIN_OPEN), e, Trail(parts, footer, c, PLAIN_CLOSE));
  }

  function Document(inside: string, hasDocument: bool): string {
    if hasDocument then DOCUMENT_OPEN + inside + DOCUMENT_CLOSE else inside
  }

  lemma DocumentAsBrackets(inside: string, hasDocument: bool)
    ensures Document(inside, hasDocument) == DocumentOpen(hasDocument) + inside + DocumentClose(hasDocument)
  {
    assert "" + inside + "" == inside;
  }

  /** Plain text survives the layout unchanged, whatever it contains. */
  lemma PlainMailIsLossless(job: Job, parts: Parts)
    requires job.Failure().None? && job.LayoutText() != "" && Splits(job.LayoutText(), parts)
    requires !IsHtml(job.ContentType())
    ensures RecoverBody(parts, job.Footer(), !LayoutHasTag(parts, !job.WantsLink()), job.FinalBody()) == job.msg.body
  {
    PlainMailShape(job, parts);
    RecoverFilled(parts, Escape(job.msg.body), job.Footer(), job.NeedsDocument());
    EscapeRoundTrip(job.msg.body);
  }

  /** Only an unsubscribe address brings the unsubscribe headers; it comes out of the header as it went
      in, and holds no character that could end the header or the address. */
  lemma UnsubscribeHeader(job: Job)
    requires job.Failure().None?
    ensures ListUnsubscribe in job.Headers() <==> job.Address() != ""
    ensures ListUnsubscribePost in job.Headers() <==> job.Address() != ""
    ensures job.Address() != "" ==>
              var h := job.Headers()[ListUnsubscribe];
              && h[1..|h| - 1] == job.Address()
              && forall i :: 0 < i < |h| - 1 ==> !UnsafeInHeader(h[i])
  {
    if job.Address() != "" {
      var h := "<" + job.Address() + ">";
      assert job.Headers()[ListUnsubscribe] == h;
      assert h[1..|h| - 1] == job.Address();
      forall i | 0 < i < |h| - 1 ensures !UnsafeInHeader(h[i]) {
        assert h[i] == job.Address()[i - 1];
      }
    }
  }

  /** Mail without that metadata, and mail that brings its own link, keeps its body outside a layout: text goes out
      exactly as rendered, and so does a complete HTML document; another HTML body gets the document around it. */
  lemma BodyWithoutLink(job: Job)
    requires job.Failure().None? && !job.WantsLink() && job.LayoutText() == ""
    ensures job.FinalContentType() == job.ContentType()
    ensures job.FinalBody() == Document(job.msg.body, IsHtml(job.ContentType()) && !HasHtmlTag(job.msg.body))
  {
  }

  /** Every HTML mail goes out with an `<html` tag. */
  lemma HtmlMailIsDocument(job: Job)
    requires job.Failure().None? && IsHtml(job.FinalContentType())
    ensures HasHtmlTag(job.FinalBody())
  {
    if job.NeedsDocument() {
      TagInFront("<!doctype html>", HEAD + "<body style=\"margin:0\">", job.LaidOut(), DOCUMENT_CLOSE);
    }
  }

  lemma TagInFront(x: string, head: string, inside: string, close: string)
    ensures HasHtmlTag((x + "<html>" + head) + inside + close)
  {
    TagInside(x, head + inside + close);
    assert (x + "<html>" + head) + inside + close == x + "<html>" + (head + inside + close);
  }

  lemma TagInside(x: string, y: string)
    ensures HasHtmlTag(x + "<html>" + y)
  {
    ToLowerConcat(x + "<html>", y);
    ToLowerConcat(x, "<html>");
    var low := ToLower(x + "<html>" + y);
    assert ToLower("<html>") == "<html>";
    assert low == ToLower(x) + ("<html>" + ToLower(y));
    assert low[|x|..] == "<html>" + ToLower(y);
    assert OccursAt(low, "<html", |x|);
  }
}
