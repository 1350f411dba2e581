/** Which title, body, footer and button a Telegram message shows, in terms of the message, its metadata and the
    operator's texts; everything is read back from the text that is sent. */
module TelegramShown {
  import opened Wrappers
  import opened Strings
  import opened Html
  import opened Config
  import opened Providers
  import opened Templates
  import opened TelegramText
  import opened TelegramReading

  /** What a key of the metadata says; a missing key says nothing. */
  predicate Says(metadata: map<string, string>, key: string, value: string) {
    if key in metadata then metadata[key] == value else value == ""
  }

  // ----- Language and texts ---------------------------------------------------------------------

  /** The language tag is `ru`, with or without a region, in whatever case and with spaces around it. */
  predicate IsRussian(tag: string) {
    var t := TrimSpace(tag);
    && |t| >= 2 && (t[0] == 'r' || t[0] == 'R') && (t[1] == 'u' || t[1] == 'U') && (|t| == 2 || t[2] == '-')
  }

  lemma LocaleExactly(tag: string)
    ensures LocaleOf(tag) == if IsRussian(tag) then "ru" else "en"
  {
    var t := TrimSpace(tag);
    var low := ToLower(t);
    ToLowerChars(t);
    assert low == "ru" <==> |low| == 2 && low[0] == 'r' && low[1] == 'u';
    assert HasPrefix(low, "ru-") <==> |low| >= 3 && low[0] == 'r' && low[1] == 'u' && low[2] == '-';
  }

  /** The text of a language without the spaces around it, or if it is missing or blank the English one. */
  predicate IsTextFor(values: Localized, locale: string, text: string) {
    if locale in values && !AllSpaces(values[locale]) then text == TrimSpace(values[locale])
    else if "en" in values then text == TrimSpace(values["en"])
    else text == ""
  }

  lemma LocalizedExactly(values: Localized, locale: string, text: string)
    ensures IsTextFor(values, locale, text) <==> text == LocalizedText(values, locale)
  {
    if locale in values {
      BlankExactly(values[locale]);
    }
    assert TrimSpace("") == "";
  }

  /** The first candidate that is not blank, without the spaces around it; nothing if all are blank. */
  ghost predicate IsFirst(candidates: seq<string>, text: string) {
    || (text == "" && forall i :: 0 <= i < |candidates| ==> TrimSpace(candidates[i]) == "")
    || exists k: nat :: FirstShown(candidates, k) && text == TrimSpace(candidates[k])
  }

  lemma FirstExactly(candidates: seq<string>, text: string)
    requires IsFirst(candidates, text)
    ensures FirstNonBlank(candidates) == text
  {
    FirstNonBlankExactly(candidates);
  }

  /** The operator's nonempty texts, and for every other language the default. */
  predicate IsMerged(result: Localized, values: Localized, defaults: Localized) {
    && (forall l :: l in values && values[l] != "" ==> l in result && result[l] == values[l])
    && (forall l :: l in defaults && !(l in values && values[l] != "") ==> l in result && result[l] == defaults[l])
    && (forall l :: l in result ==> l in defaults || (l in values && values[l] != ""))
  }

  /** Each of the operator's texts is completed by its own default. */
  lemma DefaultsFieldByField(p: Presentation, d: Presentation)
    ensures var r := WithDefaults(p, d);
            && IsMerged(r.startTitle, p.startTitle, d.startTitle) && IsMerged(r.startBody, p.startBody, d.startBody)
            && IsMerged(r.welcomeTitle, p.welcomeTitle, d.welcomeTitle)
            && IsMerged(r.welcomeBody, p.welcomeBody, d.welcomeBody)
            && IsMerged(r.notificationFallbackTitle, p.notificationFallbackTitle, d.notificationFallbackTitle)
            && IsMerged(r.notificationFooter, p.notificationFooter, d.notificationFooter)
            && IsMerged(r.openActionLabel, p.openActionLabel, d.openActionLabel)
  {
    MergedIs(p.startTitle, d.startTitle);
    MergedIs(p.startBody, d.startBody);
    MergedIs(p.welcomeTitle, d.welcomeTitle);
    MergedIs(p.welcomeBody, d.welcomeBody);
    MergedIs(p.notificationFallbackTitle, d.notificationFallbackTitle);
    MergedIs(p.notificationFooter, d.notificationFooter);
    MergedIs(p.openActionLabel, d.openActionLabel);
  }

  lemma MergedIs(values: Localized, defaults: Localized)
    ensures IsMerged(Merged(values, defaults), values, defaults)
  {
  }

  // ----- The parts of a message -----------------------------------------------------------------

  /** The sign of each icon; all others get a bell. */
  function SignOf(icon: string): string {
    if icon == "chat" then "\U{1F4AC}"
    else if icon == "card" || icon == "cash" || icon == "money" then "\U{1F4B3}"
    else if icon == "pin" || icon == "map" then "\U{1F4CD}"
    else if icon == "user" || icon == "profile" then "\U{1F464}"
    else if icon == "flag" then "\U{1F6A9}"
    else if icon == "offer" then "\U{2728}"
    else if icon == "shield" || icon == "lock" then "\U{1F6E1}\U{FE0F}"
    else if icon == "calendar" then "\U{1F4C5}"
    else "\U{1F514}"
  }

  lemma SignsInFull(metadata: map<string, string>, icon: string)
    requires Says(metadata, "telegram_icon", icon)
    ensures Emoji(metadata)
            == if Says(metadata, "telegram_priority", "critical") then "\U{1F6A8}" else SignOf(icon)
  {
  }

  /** The title with the sender's prefix of a chat message. */
  function Titled(title: string, eventType: string, russian: bool): string {
    if eventType == "chat_message_received" && title != "" then
      (if russian then "Новое сообщение от " else "New message from ") + title
    else title
  }

  /** The text of a message: what the metadata gives for Telegram, or else the body, an HTML one turned into text. */
  predicate IsBodyText(m: Message, plain: string -> string, text: string) {
    if "telegram_body" in m.metadata && !AllSpaces(m.metadata["telegram_body"]) then
      text == TrimSpace(m.metadata["telegram_body"])
    else if IsHtml(TrimSpace(m.contentType)) then text == plain(TrimSpace(m.body))
    else text == TrimSpace(m.body)
  }

  lemma BodyTextExactly(m: Message, plain: string -> string, text: string)
    ensures IsBodyText(m, plain, text) <==> text == BodyText(m, plain)
  {
    if "telegram_body" in m.metadata {
      BlankExactly(m.metadata["telegram_body"]);
    }
    assert TrimSpace("") == "";
  }

  /** A title, at most 320 characters of it; the text unless it is blank or repeats the title, at most 3000. */
  predicate Shows(n: Notice, title: string, text: string) {
    && n.title == TruncateRunes(title, 320)
    && n.body == (if TrimSpace(text) == "" || TrimSpace(text) == title then None
                  else Some(TruncateRunes(TrimSpace(text), 3000)))
  }

  // ----- Notifications --------------------------------------------------------------------------

  /** A notification shows the first of its Telegram title, its subject and the fallback title of its language,
      its text, the footer of its language, and the sign of its icon. */
  lemma NotificationShows(m: Message, p: Presentation, plain: string -> string, tag: string, eventType: string,
                          own: string, fallback: string, title: string, text: string, footer: string, icon: string)
    requires !Says(m.metadata, "telegram_presentation", "start")
    requires !Says(m.metadata, "telegram_presentation", "welcome")
    requires Says(m.metadata, "locale", tag) && Says(m.metadata, "telegram_event_type", eventType)
    requires Says(m.metadata, "telegram_title", own) && Says(m.metadata, "telegram_icon", icon)
    requires var locale := if IsRussian(tag) then "ru" else "en";
             IsTextFor(p.notificationFallbackTitle, locale, fallback) && IsTextFor(p.notificationFooter, locale, footer)
    requires IsFirst([own, m.subject, fallback], title) && IsBodyText(m, plain, text)
    ensures var n := ReadNotice(Compose(NoticeFor(m, p, plain)));
            && Shows(n, Titled(title, eventType, IsRussian(tag)), text)
            && n.footer == (if footer == "" then None else Some(footer))
            && n.emoji == if Says(m.metadata, "telegram_priority", "critical") then "\U{1F6A8}" else SignOf(icon)
  {
    var locale := if IsRussian(tag) then "ru" else "en";
    MessageIsFaithful(m, p, plain);
    LocaleExactly(tag);
    LocalizedExactly(p.notificationFallbackTitle, locale, fallback);
    LocalizedExactly(p.notificationFooter, locale, footer);
    FirstExactly([own, m.subject, fallback], title);
    BodyTextExactly(m, plain, text);
    SignsInFull(m.metadata, icon);
    TitleIs(m, p, locale, own, eventType, fallback, title);
    NoticeIsCut(m, p, plain, tag);
    CutShows(Emoji(m.metadata), Titled(title, eventType, IsRussian(tag)), text, footer);
  }

  lemma NoticeIsCut(m: Message, p: Presentation, plain: string -> string, tag: string)
    requires !Says(m.metadata, "telegram_presentation", "start")
    requires !Says(m.metadata, "telegram_presentation", "welcome")
    requires Says(m.metadata, "locale", tag)
    ensures NoticeFor(m, p, plain)
            == Cut(Emoji(m.metadata), TitleFor(m, p, LocaleOf(tag)), BodyText(m, plain),
                   LocalizedText(p.notificationFooter, LocaleOf(tag)))
  {
  }

  lemma CutShows(emoji: string, title: string, text: string, footer: string)
    requires 0 < |emoji| <= 2 && '<' !in emoji && '&' !in emoji
    ensures var n := Cut(emoji, title, text, footer);
            Shows(n, title, text) && n.emoji == emoji && n.footer == (if footer == "" then None else Some(footer))
  {
  }

  lemma TitleIs(m: Message, p: Presentation, locale: string, own: string, eventType: string, fallback: string,
                title: string)
    requires locale == "ru" || locale == "en"
    requires Says(m.metadata, "telegram_event_type", eventType) && Says(m.metadata, "telegram_title", own)
    requires fallback == LocalizedText(p.notificationFallbackTitle, locale)
    requires FirstNonBlank([own, m.subject, fallback]) == title
    ensures TitleFor(m, p, locale) == Titled(title, eventType, locale == "ru")
  {
  }

  // ----- Greetings ------------------------------------------------------------------------------

  /** A greeting shows its subject or else the title of its kind, its text or else the body of its kind, in its
      language, with a wave and without a footer. */
  lemma GreetingShows(m: Message, p: Presentation, plain: string -> string, kind: string, tag: string,
                      ownTitle: string, ownBody: string, title: string, text: string, body: string)
    requires kind == "start" || kind == "welcome"
    requires Says(m.metadata, "telegram_presentation", kind) && Says(m.metadata, "locale", tag)
    requires var locale := if IsRussian(tag) then "ru" else "en";
             && IsTextFor(if kind == "start" then p.startTitle else p.welcomeTitle, locale, ownTitle)
             && IsTextFor(if kind == "start" then p.startBody else p.welcomeBody, locale, ownBody)
    requires IsFirst([m.subject, ownTitle], title)
    requires IsBodyText(m, plain, text) && IsFirst([text, ownBody], body)
    ensures var n := ReadNotice(Compose(NoticeFor(m, p, plain)));
            Shows(n, title, body) && n.footer == None && n.emoji == "\U{1F44B}"
  {
    var locale := if IsRussian(tag) then "ru" else "en";
    MessageIsFaithful(m, p, plain);
    LocaleExactly(tag);
    LocalizedExactly(if kind == "start" then p.startTitle else p.welcomeTitle, locale, ownTitle);
    LocalizedExactly(if kind == "start" then p.startBody else p.welcomeBody, locale, ownBody);
    FirstExactly([m.subject, ownTitle], title);
    BodyTextExactly(m, plain, text);
    FirstExactly([text, ownBody], body);
    GreetingIsCut(m, p, plain, kind, tag);
    CutShows(WAVE, title, body, "");
  }

  lemma GreetingIsCut(m: Message, p: Presentation, plain: string -> string, kind: string, tag: string)
    requires kind == "start" || kind == "welcome"
    requires Says(m.metadata, "telegram_presentation", kind) && Says(m.metadata, "locale", tag)
    ensures var titles := if kind == "start" then p.startTitle else p.welcomeTitle;
            var bodies := if kind == "start" then p.startBody else p.welcomeBody;
            NoticeFor(m, p, plain)
            == Cut(WAVE, FirstNonBlank([m.subject, LocalizedText(titles, LocaleOf(tag))]),
                   FirstNonBlank([BodyText(m, plain), LocalizedText(bodies, LocaleOf(tag))]), "")
  {
  }

  // ----- The button -----------------------------------------------------------------------------

  /** A notification has a button exactly if its target path is rooted and the public address is an https one; it
      leads to that path there, and is labelled in the language of the message. */
  lemma ButtonExactly(m: Message, base: string, baseIsHttps: bool, p: Presentation, tag: string, path: string,
                      caption: string)
    requires Says(m.metadata, "locale", tag) && Says(m.metadata, "telegram_target_path", path)
    requires IsTextFor(p.openActionLabel, if IsRussian(tag) then "ru" else "en", caption)
    ensures ButtonFor(m, base, baseIsHttps, p)
            == if || Says(m.metadata, "telegram_presentation", "start")
                  || Says(m.metadata, "telegram_presentation", "welcome")
                  || base == "" || path == "" || path[0] != '/' || !baseIsHttps then None
               else Some((caption, TrimSlashes(base) + path))
  {
    LocaleExactly(tag);
    LocalizedExactly(p.openActionLabel, if IsRussian(tag) then "ru" else "en", caption);
  }

  // ----- The text that is sent ------------------------------------------------------------------

  /** The message as Telegram HTML, tag by tag. */
  lemma ComposeInFull(n: Notice)
    ensures Compose(n)
            == (n.emoji + " ") + (("<b>" + (Escape(n.title) + "</b>"))
               + ((if n.body.Some? then "\n\n" + Escape(n.body.value) else "")
                  + (if n.footer.Some? then "\n\n" + ("<i>" + (Escape(n.footer.value) + "</i>")) else "")))
  {
  }
}
