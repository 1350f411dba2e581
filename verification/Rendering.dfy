/** What rendering gives, from the configuration to the finished texts: which template, which of its texts, escaped
    or not, and which failure. */
module Rendering {
  import opened Wrappers
  import opened Strings
  import opened Html
  import opened Paths
  import opened Templates
  import Substitution

  // ----- The template and its text --------------------------------------------------------------

  predicate IsCustomKey(key: string) {
    key == "notification_custom_text" || key == "notification_custom_html"
  }

  /** The item a key stands for: its own, or for a notification without one the general one. */
  predicate Stands(cfg: TemplatesConfig, key: string, item: TemplateConfig) {
    if key in cfg.items then item == cfg.items[key]
    else "notification_" <= key && "notification" in cfg.items && item == cfg.items["notification"]
  }

  /** The text of a language, or if it is missing or empty that of the default language. */
  predicate IsTextIn(values: map<string, string>, locale: string, fallback: string, text: string) {
    if locale in values && values[locale] != "" then text == values[locale]
    else if fallback in values then text == values[fallback]
    else text == ""
  }

  function Wanted(cfg: TemplatesConfig, locale: string): string {
    if locale == "" then cfg.defaultLocale else locale
  }

  /** The places where the body may stand, in order: inline HTML, an HTML file, inline text, a text file, and the
      general body. */
  function Places(item: TemplateConfig): seq<map<string, string>> {
    [item.htmlBody, item.htmlBodyFile, item.textBody, item.textBodyFile, item.body]
  }

  /** The body stands at the place `k`, as the text or file name `value`: nothing stands at the earlier ones. */
  predicate StandsAt(cfg: TemplatesConfig, item: TemplateConfig, locale: string, k: nat, value: string) {
    && k < 5
    && IsTextIn(Places(item)[k], Wanted(cfg, locale), cfg.defaultLocale, value)
    && (k < 4 ==> value != "")
    && forall j :: 0 <= j < k ==> IsTextIn(Places(item)[j], Wanted(cfg, locale), cfg.defaultLocale, "")
  }

  function TypeAt(item: TemplateConfig, k: nat): string {
    if item.contentType != "" then item.contentType
    else if k <= 1 then "text/html; charset=UTF-8"
    else "text/plain; charset=UTF-8"
  }

  /** The body text, if it can be had. */
  predicate TextAt(cfg: TemplatesConfig, files: Files, k: nat, value: string, text: string) {
    if k == 1 || k == 3 then
      exists path :: path in files.contents && ResolveTemplateFile(files.cwd, cfg.baseDir, value) == Ok(path)
                     && text == files.contents[path]
    else text == value
  }

  lemma LocalizeGives(values: map<string, string>, locale: string, fallback: string)
    ensures IsTextIn(values, locale, fallback, Localize(values, locale, fallback))
  {
  }

  lemma EarlierPlaces(cfg: TemplatesConfig, item: TemplateConfig, locale: string, k: nat, value: string)
    requires StandsAt(cfg, item, locale, k, value)
    ensures var w := Wanted(cfg, locale);
            && (k > 0 ==> Localize(item.htmlBody, w, cfg.defaultLocale) == "")
            && (k > 1 ==> Localize(item.htmlBodyFile, w, cfg.defaultLocale) == "")
            && (k > 2 ==> Localize(item.textBody, w, cfg.defaultLocale) == "")
            && (k > 3 ==> Localize(item.textBodyFile, w, cfg.defaultLocale) == "")
            && Localize(Places(item)[k], w, cfg.defaultLocale) == value
  {
    var w, d := Wanted(cfg, locale), cfg.defaultLocale;
    assert k > 0 ==> IsTextIn(Places(item)[0], w, d, "");
    assert k > 1 ==> IsTextIn(Places(item)[1], w, d, "");
    assert k > 2 ==> IsTextIn(Places(item)[2], w, d, "");
    assert k > 3 ==> IsTextIn(Places(item)[3], w, d, "");
  }

  /** The body is the text at the first place where there is one. */
  lemma BodyFromFirstPlace(cfg: TemplatesConfig, files: Files, item: TemplateConfig, locale: string, k: nat,
                           value: string)
    requires StandsAt(cfg, item, locale, k, value)
    ensures var r := BodyOf(cfg, files, item, Wanted(cfg, locale));
            && (r.Ok? ==> TextAt(cfg, files, k, value, r.value.0) && r.value.1 == TypeAt(item, k))
            && (r.Err? ==> forall text :: !TextAt(cfg, files, k, value, text))
  {
    EarlierPlaces(cfg, item, locale, k, value);
  }

  // ----- Rendering a configured template --------------------------------------------------------

  /** A key that stands for an item, with all variables that the item requires. */
  ghost predicate Renderable(cfg: TemplatesConfig, key: string, variables: map<string, string>, item: TemplateConfig) {
    && !IsCustomKey(key) && Stands(cfg, key, item)
    && forall x :: x in item.requiredVariables ==> x in variables
  }

  lemma {:induction false} NothingMissing(required: seq<string>, variables: map<string, string>)
    requires forall x :: x in required ==> x in variables
    ensures FirstMissing(required, variables).None?
  {
    if required != [] {
      NothingMissing(required[1..], variables);
    }
  }

  /** The subject in the wanted language and the body from its first place, with their variables replaced: in the
      subject as they are, in the body escaped exactly if its type begins with `text/html` in whatever case. */
  lemma RenderedFromPlace(cfg: TemplatesConfig, files: Files, key: string, locale: string,
                          variables: map<string, string>, r: Result<Rendered, RenderError>,
                          item: TemplateConfig, k: nat, value: string)
    requires MayRender(cfg, files, key, locale, variables, r)
    requires Renderable(cfg, key, variables, item) && StandsAt(cfg, item, locale, k, value)
    ensures r.Ok? ==>
              && r.value.contentType == TypeAt(item, k)
              && (exists subject :: IsTextIn(item.subject, Wanted(cfg, locale), cfg.defaultLocale, subject)
                                    && MayReplace(subject, variables, false, r.value.subject))
              && (exists body :: TextAt(cfg, files, k, value, body) && body != ""
                                 && MayReplace(body, variables, IsHtml(TypeAt(item, k)), r.value.body))
    ensures r.Err? ==> forall text :: TextAt(cfg, files, k, value, text) ==> text == ""
  {
    NothingMissing(item.requiredVariables, variables);
    BodyFromFirstPlace(cfg, files, item, locale, k, value);
    LocalizeGives(item.subject, Wanted(cfg, locale), cfg.defaultLocale);
  }

  /** An item that leaves its type open and has an HTML body or file: no variable changes the markup of that body,
      in any order of the variables. */
  lemma DefaultHtmlKeepsMarkup(cfg: TemplatesConfig, files: Files, key: string, locale: string,
                               variables: map<string, string>, r: Result<Rendered, RenderError>,
                               item: TemplateConfig, k: nat, value: string)
    requires MayRender(cfg, files, key, locale, variables, r) && r.Ok?
    requires Renderable(cfg, key, variables, item) && StandsAt(cfg, item, locale, k, value)
    requires item.contentType == "" && k <= 1
    requires forall x :: x in variables ==> NoMarkup(x)
    ensures r.value.contentType == "text/html; charset=UTF-8"
    ensures exists body :: TextAt(cfg, files, k, value, body) && Skeleton(r.value.body) == Skeleton(body)
  {
    RenderedFromPlace(cfg, files, key, locale, variables, r, item, k, value);
    DefaultTypes("");
    var body :| TextAt(cfg, files, k, value, body) && MayReplace(body, variables, true, r.value.body);
    Substitution.MarkupKept(body, variables, r.value.body);
  }

  /** An item that leaves its type open and has no HTML: the variables go in as they are. */
  lemma DefaultTextIsVerbatim(cfg: TemplatesConfig, files: Files, key: string, locale: string,
                              variables: map<string, string>, r: Result<Rendered, RenderError>,
                              item: TemplateConfig, k: nat, value: string)
    requires MayRender(cfg, files, key, locale, variables, r) && r.Ok?
    requires Renderable(cfg, key, variables, item) && StandsAt(cfg, item, locale, k, value)
    requires item.contentType == "" && k > 1
    ensures r.value.contentType == "text/plain; charset=UTF-8"
    ensures exists body :: TextAt(cfg, files, k, value, body) && MayReplace(body, variables, false, r.value.body)
  {
    RenderedFromPlace(cfg, files, key, locale, variables, r, item, k, value);
    DefaultTypes("");
  }

  // ----- Failures -------------------------------------------------------------------------------

  /** There is no template exactly if the key stands for no item. */
  lemma NotFoundExactly(cfg: TemplatesConfig, files: Files, key: string, locale: string, variables: map<string, string>)
    ensures MayRender(cfg, files, key, locale, variables, Err(TemplateNotFound))
            <==> !IsCustomKey(key) && forall item :: !Stands(cfg, key, item)
  {
    if key in cfg.items {
      assert Stands(cfg, key, cfg.items[key]);
    } else if "notification_" <= key && "notification" in cfg.items {
      assert Stands(cfg, key, cfg.items["notification"]);
    }
  }

  lemma {:induction false} FirstMissingExactly(required: seq<string>, variables: map<string, string>, k: nat)
    requires k < |required| && required[k] !in variables && forall j :: 0 <= j < k ==> required[j] in variables
    ensures FirstMissing(required, variables) == Some(required[k])
  {
    if k > 0 {
      FirstMissingExactly(required[1..], variables, k - 1);
    }
  }

  /** The first variable that is required and not there is reported. */
  lemma MissingVariableReported(cfg: TemplatesConfig, files: Files, key: string, locale: string,
                                variables: map<string, string>, r: Result<Rendered, RenderError>,
                                item: TemplateConfig, k: nat)
    requires MayRender(cfg, files, key, locale, variables, r) && !IsCustomKey(key) && Stands(cfg, key, item)
    requires k < |item.requiredVariables| && item.requiredVariables[k] !in variables
    requires forall j :: 0 <= j < k ==> item.requiredVariables[j] in variables
    ensures r == Err(VariableRequired(item.requiredVariables[k]))
  {
    FirstMissingExactly(item.requiredVariables, variables, k);
  }

  // ----- Finished notification texts ------------------------------------------------------------

  /** Subject and body are there and not blank, the subject is one line, and both are within their sizes. */
  ghost predicate GoodCustom(variables: map<string, string>) {
    && "template_subject" in variables && "template_body" in variables
    && !AllSpaces(variables["template_subject"]) && !AllSpaces(variables["template_body"])
    && '\r' !in variables["template_subject"] && '\n' !in variables["template_subject"]
    && ByteLength(variables["template_subject"]) <= 4096 && ByteLength(variables["template_body"]) <= 100000
  }

  /** The two custom keys give the caller's texts as they are, or fail; nothing is replaced in them. */
  lemma CustomIsVerbatim(cfg: TemplatesConfig, files: Files, key: string, locale: string,
                         variables: map<string, string>, r: Result<Rendered, RenderError>)
    requires IsCustomKey(key) && MayRender(cfg, files, key, locale, variables, r)
    ensures if GoodCustom(variables) then
              r == Ok(Rendered(variables["template_subject"], variables["template_body"],
                               if key == "notification_custom_html" then "text/html; charset=UTF-8"
                               else "text/plain; charset=UTF-8"))
            else r == Err(InvalidCustomText)
  {
    if "template_subject" in variables && "template_body" in variables {
      BlankExactly(variables["template_subject"]);
      BlankExactly(variables["template_body"]);
    }
  }
}
