/** Template selection and variable substitution. */
module Templates {
  import opened Wrappers
  import opened Strings
  import opened Html
  import opened Paths

  datatype TemplateConfig = TemplateConfig(
    subject: map<string, string>,
    body: map<string, string>,
    textBody: map<string, string>,
    textBodyFile: map<string, string>,
    htmlBody: map<string, string>,
    htmlBodyFile: map<string, string>,
    contentType: string,
    requiredVariables: seq<string>)

  datatype TemplatesConfig = TemplatesConfig(
    defaultLocale: string,
    baseDir: string,
    items: map<string, TemplateConfig>)

  /** The file system: the working directory, and the contents of the readable files. */
  datatype Files = Files(cwd: Path, contents: map<string, string>)

  datatype Rendered = Rendered(subject: string, body: string, contentType: string)

  datatype RenderError =
    | InvalidCustomText
    | TemplateNotFound
    | VariableRequired(key: string)
    | BadPath(error: PathError)
    | Unreadable(path: string)
    | EmptyBody

  const TEXT_PLAIN := "text/plain; charset=UTF-8"
  const TEXT_HTML := "text/html; charset=UTF-8"
  const CUSTOM_TEXT := "notification_custom_text"
  const CUSTOM_HTML := "notification_custom_html"

  predicate IsHtml(contentType: string) {
    HasPrefix(ToLower(contentType), "text/html")
  }

  function Localize(values: map<string, string>, locale: string, fallback: string): string {
    if Lookup(values, locale) != "" then Lookup(values, locale) else Lookup(values, fallback)
  }

  /** len of a Go string: its number of UTF-8 bytes. */
  function ByteLength(s: string): nat {
    if s == "" then 0
    else
      var c := s[0] as int;
      (if c < 0x80 then 1 else if c < 0x800 then 2 else if c < 0x10000 then 3 else 4) + ByteLength(s[1..])
  }

  function ReadTemplateFile(cfg: TemplatesConfig, files: Files, path: string): Result<string, RenderError> {
    match ResolveTemplateFile(files.cwd, cfg.baseDir, path)
    case Err(error) => Err(BadPath(error))
    case Ok(resolved) =>
      if resolved in files.contents then Ok(files.contents[resolved]) else Err(Unreadable(resolved))
  }

  /** The body text of a template and its content type: inline HTML, HTML file, inline text, text file,
      and the generic body, in this order. */
  function BodyOf(cfg: TemplatesConfig, files: Files, item: TemplateConfig, locale: string)
    : Result<(string, string), RenderError>
  {
    var html := if item.contentType == "" then TEXT_HTML else item.contentType;
    var plain := if item.contentType == "" then TEXT_PLAIN else item.contentType;
    var htmlBody := Localize(item.htmlBody, locale, cfg.defaultLocale);
    var htmlFile := Localize(item.htmlBodyFile, locale, cfg.defaultLocale);
    var textBody := Localize(item.textBody, locale, cfg.defaultLocale);
    var textFile := Localize(item.textBodyFile, locale, cfg.defaultLocale);
    if htmlBody != "" then Ok((htmlBody, html))
    else if htmlFile != "" then
      match ReadTemplateFile(cfg, files, htmlFile) { case Err(e) => Err(e) case Ok(text) => Ok((text, html)) }
    else if textBody != "" then Ok((textBody, plain))
    else if textFile != "" then
      match ReadTemplateFile(cfg, files, textFile) { case Err(e) => Err(e) case Ok(text) => Ok((text, plain)) }
    else Ok((Localize(item.body, locale, cfg.defaultLocale), plain))
  }

  // ----- Variable substitution ----------------------------------------------------------------

  function Placeholder(key: string): string {
    "{{" + key + "}}"
  }

  /** The value as it is inserted. */
  function Inserted(value: string, escape: bool): string {
    if escape then Escape(value) else value
  }

  /** Replacing the variables one after the other, in the given order. */
  function ReplaceInOrder(text: string, variables: map<string, string>, order: seq<string>, escape: bool): string
    requires forall k :: k in order ==> k in variables
  {
    if order == [] then text
    else
      var k := order[|order| - 1];
      ReplaceAll(ReplaceInOrder(text, variables, order[..|order| - 1], escape),
                 Placeholder(k), Inserted(variables[k], escape))
  }

  /** An order in which a loop over the map may visit its keys. */
  predicate IsOrder(order: seq<string>, variables: map<string, string>) {
    NoRepeats(order) && (forall k :: k in order ==> k in variables) && forall k :: k in variables ==> k in order
  }

  ghost predicate MayReplace(text: string, variables: map<string, string>, escape: bool, result: string) {
    exists order :: IsOrder(order, variables) && result == ReplaceInOrder(text, variables, order, escape)
  }

  method ReplaceVariables(value: string, variables: map<string, string>, escape: bool) returns (result: string)
    ensures MayReplace(value, variables, escape, result)
  {
    result := value;
    var remaining := variables.Keys;
    ghost var order: seq<string> := [];
    while remaining != {}
      invariant remaining <= variables.Keys
      invariant NoRepeats(order) && forall k :: k in order <==> k in variables && k !in remaining
      invariant result == ReplaceInOrder(value, variables, order, escape)
    {
      var key :| key in remaining;
      var variable := variables[key];
      if escape {
        variable := Escape(variable);
      }
      result := ReplaceAll(result, Placeholder(key), variable);
      assert (order + [key])[..|order|] == order;
      order := order + [key];
      remaining := remaining - {key};
    }
    assert IsOrder(order, variables);
  }

  // ----- Rendering ----------------------------------------------------------------------------

  /** What is rendered: a finished message, or texts into which the variables go. */
  datatype Choice =
    | Verbatim(rendered: Rendered)
    | Interpolated(subject: string, body: string, contentType: string)

  function FirstMissing(required: seq<string>, variables: map<string, string>): Option<string> {
    if required == [] then None
    else if required[0] !in variables then Some(required[0])
    else FirstMissing(required[1..], variables)
  }

  function ItemOf(cfg: TemplatesConfig, key: string): Option<TemplateConfig> {
    if key in cfg.items then Some(cfg.items[key])
    else if HasPrefix(key, "notification_") && "notification" in cfg.items then Some(cfg.items["notification"])
    else None
  }

  predicate InvalidCustom(variables: map<string, string>) {
    || "template_subject" !in variables
    || "template_body" !in variables
    || (var subject, body := variables["template_subject"], variables["template_body"];
        || TrimSpace(subject) == ""
        || TrimSpace(body) == ""
        || '\r' in subject || '\n' in subject
        || ByteLength(subject) > 4096
        || ByteLength(body) > 100000)
  }

  function Choose(cfg: TemplatesConfig, files: Files, key: string, locale: string, variables: map<string, string>)
    : Result<Choice, RenderError>
  {
    if key == CUSTOM_TEXT || key == CUSTOM_HTML then
      if InvalidCustom(variables) then Err(InvalidCustomText)
      else
        Ok(Verbatim(Rendered(variables["template_subject"], variables["template_body"],
                             if key == CUSTOM_HTML then TEXT_HTML else TEXT_PLAIN)))
    else
      match ItemOf(cfg, key)
      case None => Err(TemplateNotFound)
      case Some(item) =>
        match FirstMissing(item.requiredVariables, variables)
        case Some(k) => Err(VariableRequired(k))
        case None =>
          var wanted := if locale == "" then cfg.defaultLocale else locale;
          match BodyOf(cfg, files, item, wanted)
          case Err(e) => Err(e)
          case Ok((body, contentType)) =>
            if body == "" then Err(EmptyBody)
            else Ok(Interpolated(Localize(item.subject, wanted, cfg.defaultLocale), body, contentType))
  }

  /** The results rendering may have, over all iteration orders of the two variable loops. */
  ghost predicate MayRender(cfg: TemplatesConfig, files: Files, key: string, locale: string,
                            variables: map<string, string>, r: Result<Rendered, RenderError>)
  {
    match Choose(cfg, files, key, locale, variables)
    case Err(e) => r == Err(e)
    case Ok(Verbatim(rendered)) => r == Ok(rendered)
    case Ok(Interpolated(subject, body, contentType)) =>
      && r.Ok?
      && r.value.contentType == contentType
      && MayReplace(subject, variables, false, r.value.subject)
      && MayReplace(body, variables, IsHtml(contentType), r.value.body)
  }

  method Render(cfg: TemplatesConfig, files: Files, key: string, locale: string, variables: map<string, string>)
    returns (r: Result<Rendered, RenderError>)
    ensures MayRender(cfg, files, key, locale, variables, r)
  {
    if key == CUSTOM_TEXT || key == CUSTOM_HTML {
      if InvalidCustom(variables) {
        return Err(InvalidCustomText);
      }
      var contentType := TEXT_PLAIN;
      if key == CUSTOM_HTML {
        contentType := TEXT_HTML;
      }
      return Ok(Rendered(variables["template_subject"], variables["template_body"], contentType));
    }
    var found := ItemOf(cfg, key);
    if found.None? {
      return Err(TemplateNotFound);
    }
    var item := found.value;
    for i := 0 to |item.requiredVariables|
      invariant FirstMissing(item.requiredVariables, variables) == FirstMissing(item.requiredVariables[i..], variables)
    {
      if item.requiredVariables[i] !in variables {
        return Err(VariableRequired(item.requiredVariables[i]));
      }
    }
    var wanted := locale;
    if wanted == "" {
      wanted := cfg.defaultLocale;
    }
    var subject := Localize(item.subject, wanted, cfg.defaultLocale);
    var chosen := BodyOf(cfg, files, item, wanted);
    if chosen.Err? {
      return Err(chosen.error);
    }
    var (body, contentType) := chosen.value;
    if body == "" {
      return Err(EmptyBody);
    }
    var finalSubject := ReplaceVariables(subject, variables, false);
    var finalBody := ReplaceVariables(body, variables, IsHtml(contentType));
    return Ok(Rendered(finalSubject, finalBody, contentType));
  }

  // ----- The HTML content types -----------------------------------------------------------------

  /** A content type is HTML exactly if it begins with `text/html`, in whatever case. */
  lemma IsHtmlExactly(contentType: string)
    ensures IsHtml(contentType) <==>
            |contentType| >= 9
            && forall i :: 0 <= i < 9 ==> contentType[i] == "text/html"[i] || contentType[i] == "TEXT/HTML"[i]
  {
    ToLowerChars(contentType);
    var low := ToLower(contentType);
    assert IsHtml(contentType) <==> |low| >= 9 && low[..9] == "text/html";
    if |low| >= 9 {
      forall i | 0 <= i < 9
        ensures low[i] == "text/html"[i] <==> contentType[i] == "text/html"[i] || contentType[i] == "TEXT/HTML"[i]
      {
      }
      assert low[..9] == "text/html" <==> forall i :: 0 <= i < 9 ==> low[i] == "text/html"[i];
    }
  }

  lemma HtmlWithParameters(parameters: string)
    ensures IsHtml("text/html" + parameters)
  {
    var contentType := "text/html" + parameters;
    IsHtmlExactly(contentType);
    forall i | 0 <= i < 9 ensures contentType[i] == "text/html"[i] {
    }
  }

  lemma OtherText(contentType: string)
    requires |contentType| > 5 && contentType[5] == 'p'
    ensures !IsHtml(contentType)
  {
    IsHtmlExactly(contentType);
    assert "text/html"[5] == 'h' && "TEXT/HTML"[5] == 'H';
  }

  /** So the default HTML type is HTML, with any parameters, and the default text type is not. */
  lemma DefaultTypes(parameters: string)
    ensures IsHtml("text/html" + parameters)
    ensures IsHtml("text/html; charset=UTF-8") && !IsHtml("text/plain; charset=UTF-8")
  {
    HtmlWithParameters(parameters);
    HtmlWithParameters("; charset=UTF-8");
    assert "text/html" + "; charset=UTF-8" == "text/html; charset=UTF-8";
    OtherText("text/plain; charset=UTF-8");
  }

  // ----- Sizes ----------------------------------------------------------------------------------

  lemma {:induction false} ByteLengthConcat(a: string, b: string)
    ensures ByteLength(a + b) == ByteLength(a) + ByteLength(b)
  {
    if a == "" {
      assert a + b == b;
    } else {
      assert (a + b)[1..] == a[1..] + b;
      ByteLengthConcat(a[1..], b);
    }
  }

  /** The size of text in UTF-8, character by character. */
  lemma ByteLengthInFull(a: string, c: char, b: string)
    ensures ByteLength(a + [c] + b) == ByteLength(a) + ByteLength(b)
                                       + (if c <= '\U{007F}' then 1 else if c <= '\U{07FF}' then 2
                                          else if c <= '\U{FFFF}' then 3 else 4)
  {
    ByteLengthConcat(a + [c], b);
    ByteLengthConcat(a, [c]);
    assert [c][1..] == "";
  }
}
