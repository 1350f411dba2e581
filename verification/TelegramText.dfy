/** The text of a Telegram bot message: composing it, reading it back, and how much of it is shown. */
module TelegramText {
  import opened Wrappers
  import opened Strings
  import opened Html
  import opened Config
  import opened Providers
  import opened Templates

  // ----- Texts ----------------------------------------------------------------------------------

  /** A limit of zero or less means no limit. */
  function TruncateRunes(value: string, limit: int): (r: string)
    ensures limit > 0 ==> |r| <= limit
    ensures limit > 3 && |value| > limit ==> |r| == limit && r[limit - 3..] == "..." && r[..limit - 3] <= value
    ensures limit <= 0 || |value| <= limit ==> r == value
  {
    if limit <= 0 || |value| <= limit then value
    else if limit <= 3 then value[..limit]
    else value[..limit - 3] + "..."
  }

  function FirstNonBlank(values: seq<string>): string {
    if values == [] then ""
    else if TrimSpace(values[0]) != "" then TrimSpace(values[0])
    else FirstNonBlank(values[1..])
  }

  predicate FirstShown(values: seq<string>, k: nat) {
    && k < |values| && TrimSpace(values[k]) != ""
    && forall j :: 0 <= j < k ==> TrimSpace(values[j]) == ""
  }

  /** It is the first candidate that is not blank, without the spaces around it; blank only if all are. */
  lemma {:induction false} FirstNonBlankExactly(values: seq<string>)
    ensures FirstNonBlank(values) == "" <==> forall i :: 0 <= i < |values| ==> TrimSpace(values[i]) == ""
    ensures forall k: nat :: FirstShown(values, k) ==> FirstNonBlank(values) == TrimSpace(values[k])
  {
    if values != [] {
      FirstNonBlankExactly(values[1..]);
      assert forall i :: 0 < i < |values| ==> values[i] == values[1..][i - 1];
      forall k: nat | FirstShown(values, k) ensures FirstNonBlank(values) == TrimSpace(values[k]) {
        if k > 0 {
          assert TrimSpace(values[0]) == "";
          assert FirstShown(values[1..], k - 1);
        }
      }
    }
  }

  method FirstNonBlankOf(values: seq<string>) returns (r: string)
    ensures r == FirstNonBlank(values)
  {
    for i := 0 to |values|
      invariant FirstNonBlank(values) == FirstNonBlank(values[i..])
    {
      var value := TrimSpace(values[i]);
      if value != "" {
        return value;
      }
    }
    return "";
  }

  function LocaleOf(value: string): string {
    var v := ToLower(TrimSpace(value));
    if v == "ru" || HasPrefix(v, "ru-") then "ru" else "en"
  }

  function LocalizedText(values: Localized, locale: string): string {
    if TrimSpace(Lookup(values, locale)) != "" then TrimSpace(Lookup(values, locale))
    else TrimSpace(Lookup(values, "en"))
  }

  // ----- Default copy ---------------------------------------------------------------------------

  /** The operator's nonempty texts over the defaults. */
  function Merged(values: Localized, defaults: Localized): Localized {
    defaults + map k | k in values && values[k] != "" :: values[k]
  }

  method MergeTelegramText(values: Localized, defaults: Localized) returns (merged: Localized)
    ensures merged == Merged(values, defaults)
  {
    merged := map[];
    var left := defaults.Keys;
    while left != {}
      invariant left <= defaults.Keys && merged == defaults - left
    {
      var locale :| locale in left;
      merged := merged[locale := defaults[locale]];
      left := left - {locale};
    }
    assert defaults - {} == defaults;
    left := values.Keys;
    assert Merged(values - left, defaults) == defaults;
    while left != {}
      invariant left <= values.Keys && merged == Merged(values - left, defaults)
    {
      var locale :| locale in left;
      MergeOne(values, defaults, left, locale);
      if values[locale] != "" {
        merged := merged[locale := values[locale]];
      }
      left := left - {locale};
    }
    assert values - {} == values;
  }

  lemma MergeOne(values: Localized, defaults: Localized, left: set<string>, locale: string)
    requires locale in left && left <= values.Keys
    ensures Merged(values - (left - {locale}), defaults)
            == if values[locale] != "" then Merged(values - left, defaults)[locale := values[locale]]
               else Merged(values - left, defaults)
  {
  }

  function WithDefaults(p: Presentation, d: Presentation): Presentation {
    Presentation(Merged(p.startTitle, d.startTitle), Merged(p.startBody, d.startBody),
                 Merged(p.welcomeTitle, d.welcomeTitle), Merged(p.welcomeBody, d.welcomeBody),
                 Merged(p.notificationFallbackTitle, d.notificationFallbackTitle),
                 Merged(p.notificationFooter, d.notificationFooter), Merged(p.openActionLabel, d.openActionLabel))
  }

  lemma MergedTwice(values: Localized, defaults: Localized)
    ensures Merged(Merged(values, defaults), defaults) == Merged(values, defaults)
  {
  }

  /** The defaults are filled in when the configuration is loaded, when the provider is made and again for
      each message; only the first time has an effect. */
  lemma WithDefaultsTwice(p: Presentation, d: Presentation)
    ensures WithDefaults(WithDefaults(p, d), d) == WithDefaults(p, d)
  {
    MergedTwice(p.startTitle, d.startTitle);
    MergedTwice(p.startBody, d.startBody);
    MergedTwice(p.welcomeTitle, d.welcomeTitle);
    MergedTwice(p.welcomeBody, d.welcomeBody);
    MergedTwice(p.notificationFallbackTitle, d.notificationFallbackTitle);
    MergedTwice(p.notificationFooter, d.notificationFooter);
    MergedTwice(p.openActionLabel, d.openActionLabel);
  }

  // ----- The message ----------------------------------------------------------------------------

  /** The pieces of a message, as the reader sees them. */
  datatype Notice = Notice(emoji: string, title: string, body: Option<string>, footer: Option<string>)

  function Emoji(metadata: map<string, string>): (e: string)
    ensures 0 < |e| <= 2 && '<' !in e && '&' !in e
  {
    if Lookup(metadata, "telegram_priority") == "critical" then "\U{1F6A8}"
    else
      match Lookup(metadata, "telegram_icon")
      case "chat" => "\U{1F4AC}"
      case "card" => "\U{1F4B3}"
      case "cash" => "\U{1F4B3}"
      case "money" => "\U{1F4B3}"
      case "pin" => "\U{1F4CD}"
      case "map" => "\U{1F4CD}"
      case "user" => "\U{1F464}"
      case "profile" => "\U{1F464}"
      case "flag" => "\U{1F6A9}"
      case "offer" => "\U{2728}"
      case "shield" => "\U{1F6E1}\U{FE0F}"
      case "lock" => "\U{1F6E1}\U{FE0F}"
      case "calendar" => "\U{1F4C5}"
      case _ => "\U{1F514}"
  }

  const WAVE := "\U{1F44B}"

  function NotificationTitle(title: string, eventType: string, locale: string): string {
    if eventType != "chat_message_received" || title == "" then title
    else if locale == "ru" then "Новое сообщение от " + title
    else "New message from " + title
  }

  /** The body text; `plain` turns an HTML mail body into text. */
  function BodyText(m: Message, plain: string -> string): string {
    if TrimSpace(Lookup(m.metadata, "telegram_body")) != "" then TrimSpace(Lookup(m.metadata, "telegram_body"))
    else if !IsHtml(TrimSpace(m.contentType)) then TrimSpace(m.body)
    else plain(TrimSpace(m.body))
  }

  /** The body is left out if it is blank or repeats the title. */
  function ShownBody(body: string, title: string): (r: Option<string>)
    ensures r != Some("") && (r.Some? ==> |r.value| <= 3000)
  {
    var b := TrimSpace(body);
    if b != "" && b != title then Some(TruncateRunes(b, 3000)) else None
  }

  /** The notice of given texts: the title cut, the body shown or not, an empty footer left out. */
  function Cut(emoji: string, title: string, body: string, footer: string): (n: Notice)
    requires 0 < |emoji| <= 2 && '<' !in emoji && '&' !in emoji
    ensures WithinLimits(n)
  {
    Notice(emoji, TruncateRunes(title, 320), ShownBody(body, title), if footer != "" then Some(footer) else None)
  }

  function NoticeFor(m: Message, p: Presentation, plain: string -> string): (n: Notice)
    ensures WithinLimits(n)
  {
    var locale := LocaleOf(Lookup(m.metadata, "locale"));
    var kind := Lookup(m.metadata, "telegram_presentation");
    if kind == "start" then Greeting(m, p.startTitle, p.startBody, locale, plain)
    else if kind == "welcome" then Greeting(m, p.welcomeTitle, p.welcomeBody, locale, plain)
    else
      Cut(Emoji(m.metadata), TitleFor(m, p, locale), BodyText(m, plain), LocalizedText(p.notificationFooter, locale))
  }

  function TitleFor(m: Message, p: Presentation, locale: string): string {
    NotificationTitle(
      FirstNonBlank([Lookup(m.metadata, "telegram_title"), m.subject,
                     LocalizedText(p.notificationFallbackTitle, locale)]),
      Lookup(m.metadata, "telegram_event_type"), locale)
  }

  function Greeting(m: Message, title: Localized, body: Localized, locale: string, plain: string -> string): (n: Notice)
    ensures WithinLimits(n)
  {
    Cut(WAVE,
        FirstNonBlank([m.subject, LocalizedText(title, locale)]),
        FirstNonBlank([BodyText(m, plain), LocalizedText(body, locale)]), "")
  }

  predicate WithinLimits(n: Notice) {
    && 0 < |n.emoji| <= 2 && '<' !in n.emoji && '&' !in n.emoji
    && |n.title| <= 320
    && n.body != Some("") && (n.body.Some? ==> |n.body.value| <= 3000)
  }

  function Bold(title: string): string { "<b>" + (Escape(title) + "</b>") }

  function Italic(footer: string): string { "<i>" + (Escape(footer) + "</i>") }

  function Tail(n: Notice): string {
    (if n.body.Some? then "\n\n" + Escape(n.body.value) else "")
    + (if n.footer.Some? then "\n\n" + Italic(n.footer.value) else "")
  }

  /** A notice as Telegram HTML. */
  function Compose(n: Notice): string {
    n.emoji + " " + (Bold(n.title) + Tail(n))
  }

  /** strings.TrimRight for a slash. */
  function TrimSlashes(s: string): (r: string)
    ensures r <= s && (r != "" ==> r[|r| - 1] != '/') && forall i :: |r| <= i < |s| ==> s[i] == '/'
  {
    if s != "" && s[|s| - 1] == '/' then TrimSlashes(s[..|s| - 1]) else s
  }

  /** The address behind the button: the path of the metadata under the public base address.  Whether that
      is an https address with a host is for net/url to say. */
  function TargetUrl(publicBaseURL: string, baseIsHttps: bool, path: string): Option<string> {
    if publicBaseURL == "" || !HasPrefix(path, "/") || !baseIsHttps then None
    else Some(TrimSlashes(publicBaseURL) + path)
  }

  /** Only a notification has a button, and only if there is an address for it. */
  function ButtonFor(m: Message, publicBaseURL: string, baseIsHttps: bool, p: Presentation): Option<(string, string)> {
    var kind := Lookup(m.metadata, "telegram_presentation");
    if kind == "start" || kind == "welcome" then None
    else
      match TargetUrl(publicBaseURL, baseIsHttps, Lookup(m.metadata, "telegram_target_path"))
      case None => None
      case Some(url) => Some((LocalizedText(p.openActionLabel, LocaleOf(Lookup(m.metadata, "locale"))), url))
  }

  method TelegramMessage(m: Message, publicBaseURL: string, baseIsHttps: bool, presentation: Presentation,
                         defaults: Presentation, plain: string -> string)
    returns (text: string, target: Option<(string, string)>)
    ensures text == Compose(NoticeFor(m, WithDefaults(presentation, defaults), plain))
    ensures target == ButtonFor(m, publicBaseURL, baseIsHttps, WithDefaults(presentation, defaults))
  {
    var p := WithDefaults(presentation, defaults);
    var locale := LocaleOf(Lookup(m.metadata, "locale"));
    var kind := Lookup(m.metadata, "telegram_presentation");
    if kind == "start" {
      p := p.(welcomeTitle := p.startTitle, welcomeBody := p.startBody);
      text := WelcomeText(m, locale, p, plain);
      return text, None;
    }
    if kind == "welcome" {
      text := WelcomeText(m, locale, p, plain);
      return text, None;
    }
    var fallback := LocalizedText(p.notificationFallbackTitle, locale);
    var title := FirstNonBlankOf([Lookup(m.metadata, "telegram_title"), m.subject, fallback]);
    title := NotificationTitle(title, Lookup(m.metadata, "telegram_event_type"), locale);
    text := JoinParts(Emoji(m.metadata), title, BodyText(m, plain), LocalizedText(p.notificationFooter, locale));
    target := None;
    var url := TargetUrl(publicBaseURL, baseIsHttps, Lookup(m.metadata, "telegram_target_path"));
    if url.Some? {
      target := Some((LocalizedText(p.openActionLabel, locale), url.value));
    }
  }

  method WelcomeText(m: Message, locale: string, p: Presentation, plain: string -> string) returns (text: string)
    ensures text == Compose(Greeting(m, p.welcomeTitle, p.welcomeBody, locale, plain))
  {
    var title := FirstNonBlankOf([m.subject, LocalizedText(p.welcomeTitle, locale)]);
    var body := FirstNonBlankOf([BodyText(m, plain), LocalizedText(p.welcomeBody, locale)]);
    text := JoinParts(WAVE, title, body, "");
  }

  /** Appending the parts that are there and joining them. */
  method JoinParts(emoji: string, title: string, bodyText: string, footer: string) returns (text: string)
    requires 0 < |emoji| <= 2 && '<' !in emoji && '&' !in emoji
    ensures text == Compose(Cut(emoji, title, bodyText, footer))
  {
    var parts := [emoji + " " + Bold(TruncateRunes(title, 320))];
    var body := TrimSpace(bodyText);
    if body != "" && body != title {
      parts := parts + [Escape(TruncateRunes(body, 3000))];
    }
    if footer != "" {
      parts := parts + [Italic(footer)];
    }
    ghost var n := Cut(emoji, title, bodyText, footer);
    JoinNotice(n);
    assert parts == Parts(n);
    text := Join(parts, "\n\n");
  }

  /** The parts that are joined by blank lines. */
  function Parts(n: Notice): seq<string> {
    [n.emoji + " " + Bold(n.title)]
    + (if n.body.Some? then [Escape(n.body.value)] else [])
    + (if n.footer.Some? then [Italic(n.footer.value)] else [])
  }

  lemma JoinNotice(n: Notice)
    ensures Join(Parts(n), "\n\n") == Compose(n)
  {
    var h := n.emoji + " " + Bold(n.title);
    assert h + Tail(n) == Compose(n);
    if n.body.Some? && n.footer.Some? {
      JoinThree(h, Escape(n.body.value), Italic(n.footer.value));
    } else if n.body.Some? {
      JoinTwo(h, Escape(n.body.value));
      assert Tail(n) == "\n\n" + Escape(n.body.value);
    } else if n.footer.Some? {
      JoinTwo(h, Italic(n.footer.value));
      assert Tail(n) == "\n\n" + Italic(n.footer.value);
    } else {
      assert Parts(n) == [h] && Tail(n) == "";
    }
  }

  lemma JoinTwo(a: string, b: string)
    ensures Join([a] + [b] + [], "\n\n") == a + ("\n\n" + b) == Join([a] + [] + [b], "\n\n")
  {
    assert [a] + [b] + [] == [a, b] == [a] + [] + [b];
    assert [a, b][1..] == [b];
  }

  lemma JoinThree(a: string, b: string, c: string)
    ensures Join([a] + [b] + [c], "\n\n") == a + (("\n\n" + b) + ("\n\n" + c))
  {
    assert [a] + [b] + [c] == [a, b, c];
    assert [a, b, c][1..] == [b, c] && [b, c] == [b] + [c] + [];
    JoinTwo(b, c);
    assert Join([a, b, c], "\n\n") == a + "\n\n" + Join([b, c], "\n\n");
    assert b + ("\n\n" + c) == b + "\n\n" + c;
    assert a + "\n\n" + (b + "\n\n" + c) == a + (("\n\n" + b) + ("\n\n" + c));
  }
}
