/** The Telegram webhook: the `/start` commands, the connection event, and what one update causes. */
module Webhook {
  import opened Wrappers
  import opened Strings
  import opened Config
  import opened Providers

  // ----- The commands ---------------------------------------------------------------------------

  predicate NameChar(c: char) { 'A' <= c <= 'Z' || 'a' <= c <= 'z' || '0' <= c <= '9' || c == '_' }

  predicate TokenChar(c: char) { NameChar(c) || c == '-' }

  /** The class `\s` of the regular expressions. */
  predicate BlankChar(c: char) { c == '\t' || c == '\n' || c == '\U{000C}' || c == '\r' || c == ' ' }

  predicate All(s: string, p: char -> bool) { forall i :: 0 <= i < |s| ==> p(s[i]) }

  /** An optional `@name`. */
  predicate IsMention(s: string) { s == "" || (|s| > 1 && s[0] == '@' && All(s[1..], NameChar)) }

  predicate IsToken(s: string) { 20 <= |s| <= 64 && All(s, TokenChar) }

  const START := "/start"

  /** The language of `^/start(?:@[A-Za-z0-9_]+)?\s+([A-Za-z0-9_-]{20,64})\s*$`, with its group. */
  ghost predicate StartWith(text: string, token: string) {
    exists mention, gap, trail :: StartParts(text, mention, gap, token, trail)
  }

  predicate StartParts(text: string, mention: string, gap: string, token: string, trail: string) {
    && text == START + (mention + (gap + (token + trail)))
    && IsMention(mention) && gap != "" && All(gap, BlankChar) && IsToken(token) && All(trail, BlankChar)
  }

  /** The language of `^/start(?:@[A-Za-z0-9_]+)?\s*$`. */
  ghost predicate BareStart(text: string) {
    exists mention, trail :: BareParts(text, mention, trail)
  }

  predicate BareParts(text: string, mention: string, trail: string) {
    text == START + (mention + trail) && IsMention(mention) && All(trail, BlankChar)
  }

  /** The longest leading stretch of characters with `p`, and the rest. */
  function Span(s: string, p: char -> bool): (r: (string, string))
    ensures r.0 + r.1 == s && All(r.0, p) && (r.1 == "" || !p(r.1[0]))
  {
    if s == "" || !p(s[0]) then ("", s)
    else
      var (a, b) := Span(s[1..], p);
      assert [s[0]] + a + b == s;
      ([s[0]] + a, b)
  }

  function ReadMention(s: string): Option<(string, string)> {
    if s == "" || s[0] != '@' then Some(("", s))
    else
      var (name, rest) := Span(s[1..], NameChar);
      if name == "" then None else Some(("@" + name, rest))
  }

  /** Reading a command: what is captured, if it is one with a token. */
  function MatchStart(text: string): Option<string> {
    if !HasPrefix(text, START) then None
    else
      match ReadMention(text[|START|..])
      case None => None
      case Some((_, afterMention)) =>
        var (gap, afterGap) := Span(afterMention, BlankChar);
        var (token, trail) := Span(afterGap, TokenChar);
        if gap != "" && IsToken(token) && All(trail, BlankChar) then Some(token) else None
  }

  predicate MatchBare(text: string) {
    && HasPrefix(text, START)
    && ReadMention(text[|START|..]).Some?
    && All(ReadMention(text[|START|..]).value.1, BlankChar)
  }

  lemma {:induction false} SpanOf(a: string, rest: string, p: char -> bool)
    requires All(a, p) && (rest == "" || !p(rest[0]))
    ensures Span(a + rest, p) == (a, rest)
  {
    if a == "" {
      assert a + rest == rest;
    } else {
      assert forall i :: 0 <= i < |a[1..]| ==> a[1..][i] == a[i + 1];
      SpanOf(a[1..], rest, p);
      assert (a + rest)[1..] == a[1..] + rest;
      assert [a[0]] + a[1..] == a;
    }
  }

  lemma ReadMentionOf(mention: string, rest: string)
    requires IsMention(mention) && (rest == "" || BlankChar(rest[0]))
    ensures ReadMention(mention + rest) == Some((mention, rest))
  {
    if mention == "" {
      assert mention + rest == rest;
    } else {
      assert (mention + rest)[1..] == mention[1..] + rest;
      SpanOf(mention[1..], rest, NameChar);
      assert "@" + mention[1..] == mention;
    }
  }

  /** Whatever is read as mention is one, and the rest follows it. */
  lemma ReadMentionSound(s: string)
    requires ReadMention(s).Some?
    ensures var (mention, rest) := ReadMention(s).value; IsMention(mention) && s == mention + rest
  {
    if s != "" && s[0] == '@' {
      var (name, rest) := Span(s[1..], NameChar);
      assert ("@" + name)[1..] == name;
      assert s == "@" + s[1..];
    }
  }

  lemma StartIsRead(text: string, mention: string, gap: string, token: string, trail: string)
    requires StartParts(text, mention, gap, token, trail)
    ensures MatchStart(text) == Some(token) && !MatchBare(text)
  {
    assert text[|START|..] == mention + (gap + (token + trail));
    ReadMentionOf(mention, gap + (token + trail));
    SpanOf(gap, token + trail, BlankChar);
    SpanOf(token, trail, TokenChar);
    var rest := gap + (token + trail);
    assert rest[|gap|] == token[0];
  }

  lemma BareIsRead(text: string, mention: string, trail: string)
    requires BareParts(text, mention, trail)
    ensures MatchBare(text)
  {
    assert text[|START|..] == mention + trail;
    ReadMentionOf(mention, trail);
  }

  /** The reader accepts exactly the command with a token, and captures it: so a text has at most one
      token.  A text with a token is never a bare command. */
  lemma StartReadExactly(text: string, token: string)
    ensures MatchStart(text) == Some(token) <==> StartWith(text, token)
    ensures StartWith(text, token) ==> !BareStart(text)
  {
    if mention, gap, trail :| StartParts(text, mention, gap, token, trail) {
      StartIsRead(text, mention, gap, token, trail);
      if m, t :| BareParts(text, m, t) {
        BareIsRead(text, m, t);
      }
    }
    if MatchStart(text) == Some(token) {
      var s := text[|START|..];
      ReadMentionSound(s);
      var (mention, afterMention) := ReadMention(s).value;
      var (gap, afterGap) := Span(afterMention, BlankChar);
      var (t, trail) := Span(afterGap, TokenChar);
      assert text == START + s;
      assert StartParts(text, mention, gap, token, trail);
    }
  }

  lemma BareReadExactly(text: string)
    ensures MatchBare(text) <==> BareStart(text)
  {
    if MatchBare(text) {
      BareFromRead(text);
    }
    if BareStart(text) {
      var m, t :| BareParts(text, m, t);
      BareIsRead(text, m, t);
    }
  }

  lemma BareFromRead(text: string)
    requires MatchBare(text)
    ensures BareStart(text)
  {
    var s := text[|START|..];
    ReadMentionSound(s);
    assert text == START + s;
    assert BareParts(text, ReadMention(s).value.0, ReadMention(s).value.1);
  }

  // ----- The connection event -------------------------------------------------------------------

  type Byte = n: nat | n < 256

  /** A SHA-256 value; the hash function itself is a parameter. */
  type Digest = d: seq<Byte> | |d| == 32 witness seq(32, _ => 0)

  datatype UpdateMessage = UpdateMessage(
    text: string,
    chatId: int,
    chatType: string,
    chatUsername: string,
    fromId: int,
    fromUsername: string,
    languageCode: string)

  datatype Update = Update(updateId: int, message: Option<UpdateMessage>)

  datatype ConnectionEvent = ConnectionEvent(
    version: string,
    eventId: string,
    eventType: string,
    source: string,
    updateId: int,
    chatId: int,
    chatUsername: string,
    startTokenHash: string,
    createdAt: int)

  const CONNECTION_REQUESTED := "notification.telegram.connection.requested"
  const SOURCE := "message-delivery.telegram-bot"

  predicate HexChar(c: char) { '0' <= c <= '9' || 'a' <= c <= 'f' }

  predicate ValidEvent(e: ConnectionEvent) {
    && e.version != "" && e.eventId != "" && e.source != ""
    && e.eventType == CONNECTION_REQUESTED
    && e.updateId > 0 && e.chatId > 0
    && |e.startTokenHash| == 64 && All(e.startTokenHash, HexChar)
  }

  function HexDigit(n: nat): (c: char)
    requires n < 16
    ensures HexChar(c)
  {
    if n < 10 then ('0' as int + n) as char else ('a' as int + n - 10) as char
  }

  function Hex(d: seq<Byte>): (s: string)
    ensures |s| == 2 * |d| && All(s, HexChar)
  {
    if d == [] then "" else [HexDigit(d[0] / 16), HexDigit(d[0] % 16)] + Hex(d[1..])
  }

  /** Decimal notation. */
  function Decimal(n: nat): (s: string)
    ensures s != ""
  {
    var digit := ('0' as int + n % 10) as char;
    if n < 10 then [digit] else Decimal(n / 10) + [digit]
  }

  lemma {:induction false} DecimalInjective(a: nat, b: nat)
    requires Decimal(a) == Decimal(b)
    ensures a == b
  {
    var s := Decimal(a);
    assert s[|s| - 1] as int - '0' as int == a % 10 == b % 10;
    if a >= 10 && b >= 10 {
      assert Decimal(a / 10) == s[..|s| - 1] == Decimal(b / 10);
      DecimalInjective(a / 10, b / 10);
    }
  }

  function EventIdOf(updateId: int): string
    requires updateId > 0
  {
    "telegram-bot-update-" + Decimal(updateId)
  }

  predicate PrivateUserUpdate(u: Update) {
    && u.updateId > 0 && u.message.Some?
    && u.message.value.chatType == "private" && u.message.value.chatId > 0
    && u.message.value.fromId == u.message.value.chatId
  }

  /** The event of an update that carries a token, before it is validated. */
  function EventOf(u: Update, token: string, sha256: string -> Digest, now: int): ConnectionEvent
    requires PrivateUserUpdate(u)
  {
    var m := u.message.value;
    var chat := TrimSpace(m.chatUsername);
    ConnectionEvent("1.0", EventIdOf(u.updateId), CONNECTION_REQUESTED, SOURCE, u.updateId, m.chatId,
                    if chat == "" then TrimSpace(m.fromUsername) else chat, Hex(sha256(token)), now)
  }

  function TelegramConnectionEvent(u: Update, sha256: string -> Digest, now: int): Option<ConnectionEvent> {
    if !PrivateUserUpdate(u) then None
    else
      match MatchStart(u.message.value.text)
      case None => None
      case Some(token) =>
        var event := EventOf(u, token, sha256, now);
        if ValidEvent(event) then Some(event) else None
  }

  /** Every private update whose text carries a token gives an event: the final validation never rejects
      one.  Nothing else gives an event. */
  lemma EventExactly(u: Update, sha256: string -> Digest, now: int)
    ensures TelegramConnectionEvent(u, sha256, now).Some?
            <==> PrivateUserUpdate(u) && exists token :: StartWith(u.message.value.text, token)
    ensures forall token :: PrivateUserUpdate(u) && StartWith(u.message.value.text, token) ==>
              TelegramConnectionEvent(u, sha256, now) == Some(EventOf(u, token, sha256, now))
  {
    if PrivateUserUpdate(u) {
      var text := u.message.value.text;
      forall token ensures MatchStart(text) == Some(token) <==> StartWith(text, token) {
        StartReadExactly(text, token);
      }
      if MatchStart(text).Some? {
        assert StartWith(text, MatchStart(text).value);
        assert ValidEvent(EventOf(u, MatchStart(text).value, sha256, now));
      }
    }
  }

  /** The event id identifies the update. */
  lemma EventIdIdentifiesUpdate(a: int, b: int)
    requires a > 0 && b > 0
    ensures EventIdOf(a) == EventIdOf(b) <==> a == b
  {
    var prefix := "telegram-bot-update-";
    assert EventIdOf(a)[|prefix|..] == Decimal(a) && EventIdOf(b)[|prefix|..] == Decimal(b);
    if EventIdOf(a) == EventIdOf(b) {
      DecimalInjective(a, b);
    }
  }

  // ----- Serving --------------------------------------------------------------------------------

  /** A request; the body is None if it is not an update within the size limit. */
  datatype Request = Request(method_: string, secret: string, body: Option<Update>)

  datatype Effect = PublishConnection(event: ConnectionEvent, ok: bool) | Greet(message: Message)

  const METHOD_NOT_ALLOWED := 405
  const FORBIDDEN := 403
  const BAD_REQUEST := 400
  const NO_CONTENT := 204
  const UNAVAILABLE := 503

  function Greeting(eventId: string, chatId: nat, locale: string, presentation: string): Effect {
    Greet(Message(eventId + "-welcome", "", "", "", "", TELEGRAM, Decimal(chatId), map[],
                  map["telegram_presentation" := presentation, "locale" := locale]))
  }

  /** What the environment decides for one request: the time, and whether publishing works. */
  datatype Chance = Chance(now: int, publishes: bool)

  /** The status and the effects of one request. */
  function Serve(secret: string, sha256: string -> Digest, r: Request, c: Chance): (int, seq<Effect>) {
    if r.method_ != "POST" then (METHOD_NOT_ALLOWED, [])
    else if r.secret != secret then (FORBIDDEN, [])
    else if r.body.None? then (BAD_REQUEST, [])
    else
      var u := r.body.value;
      match TelegramConnectionEvent(u, sha256, c.now)
      case None =>
        if PrivateUserUpdate(u) && MatchBare(u.message.value.text) then
          (NO_CONTENT, [Greeting(EventIdOf(u.updateId), u.message.value.chatId, u.message.value.languageCode, "start")])
        else (NO_CONTENT, [])
      case Some(event) =>
        if !c.publishes then (UNAVAILABLE, [PublishConnection(event, false)])
        else
          (NO_CONTENT, [PublishConnection(event, true),
                        Greeting(event.eventId, event.chatId, u.message.value.languageCode, "welcome")])
  }

  class WebhookHandler {
    const secret: string
    const sha256: string -> Digest
    ghost var log: seq<Effect>

    constructor (secret: string, sha256: string -> Digest)
      ensures this.secret == secret && this.sha256 == sha256 && log == []
    {
      this.secret, this.sha256, log := secret, sha256, [];
    }

    method PublishTelegramConnection(event: ConnectionEvent) returns (ok: bool)
      modifies this
      ensures log == old(log) + [PublishConnection(event, ok)]
    {
      ok := *;
      log := log + [PublishConnection(event, ok)];
    }

    /** The greeting; its outcome is only logged. */
    method SendBotGreeting(eventId: string, chatId: nat, locale: string, presentation: string)
      modifies this
      ensures log == old(log) + [Greeting(eventId, chatId, locale, presentation)]
    {
      log := log + [Greeting(eventId, chatId, locale, presentation)];
    }

    method ServeHTTP(r: Request) returns (status: int, ghost c: Chance)
      modifies this
      ensures status == Serve(secret, sha256, r, c).0
      ensures log == old(log) + Serve(secret, sha256, r, c).1
    {
      var now: int := *;
      c := Chance(now, true);
      if r.method_ != "POST" {
        return METHOD_NOT_ALLOWED, c;
      }
      if r.secret != secret {
        return FORBIDDEN, c;
      }
      if r.body.None? {
        return BAD_REQUEST, c;
      }
      var u := r.body.value;
      var event := TelegramConnectionEvent(u, sha256, now);
      if event.None? {
        if PrivateUserUpdate(u) && MatchBare(u.message.value.text) {
          SendBotGreeting(EventIdOf(u.updateId), u.message.value.chatId, u.message.value.languageCode, "start");
        }
        return NO_CONTENT, c;
      }
      var ok := PublishTelegramConnection(event.value);
      c := Chance(now, ok);
      if !ok {
        return UNAVAILABLE, c;
      }
      SendBotGreeting(event.value.eventId, event.value.chatId, u.message.value.languageCode, "welcome");
      return NO_CONTENT, c;
    }
  }

  // ----- Any number of requests -----------------------------------------------------------------

  /** The effects of a sequence of requests, each tagged with the position of its request. */
  function ServeAll(secret: string, sha256: string -> Digest, rs: seq<Request>, cs: seq<Chance>): seq<(nat, Effect)>
    requires |rs| == |cs|
  {
    if rs == [] then []
    else
      var n := |rs| - 1;
      ServeAll(secret, sha256, rs[..n], cs[..n]) + Tagged(n, Serve(secret, sha256, rs[n], cs[n]).1)
  }

  function Tagged(n: nat, effects: seq<Effect>): (r: seq<(nat, Effect)>)
    ensures |r| == |effects| && forall i :: 0 <= i < |r| ==> r[i] == (n, effects[i])
  {
    seq(|effects|, i requires 0 <= i < |effects| => (n, effects[i]))
  }

  predicate IsPublish(x: (nat, Effect)) { x.1.PublishConnection? }

  predicate IsWelcome(x: (nat, Effect)) {
    x.1.Greet? && Lookup(x.1.message.metadata, "telegram_presentation") == "welcome"
  }

  /** The effects tagged with the request `i`. */
  function EffectsOf(log: seq<(nat, Effect)>, i: nat): seq<Effect> {
    if log == [] then []
    else EffectsOf(log[..|log| - 1], i) + (if log[|log| - 1].0 == i then [log[|log| - 1].1] else [])
  }

  lemma {:induction false} EffectsOfConcat(a: seq<(nat, Effect)>, b: seq<(nat, Effect)>, i: nat)
    ensures EffectsOf(a + b, i) == EffectsOf(a, i) + EffectsOf(b, i)
  {
    if b == [] {
      assert a + b == a;
    } else {
      EffectsOfConcat(a, b[..|b| - 1], i);
      assert (a + b)[..|a + b| - 1] == a + b[..|b| - 1];
    }
  }

  lemma {:induction false} EffectsOfTagged(n: nat, effects: seq<Effect>, i: nat)
    ensures EffectsOf(Tagged(n, effects), i) == if i == n then effects else []
  {
    if effects != [] {
      var m := |effects| - 1;
      EffectsOfTagged(n, effects[..m], i);
      assert Tagged(n, effects)[..m] == Tagged(n, effects[..m]);
      assert effects == effects[..m] + [effects[m]];
    }
  }

  /** Each request has its own effects, whatever came before or after. */
  lemma {:induction false} EffectsOfRequest(secret: string, sha256: string -> Digest, rs: seq<Request>,
                                           cs: seq<Chance>, i: nat)
    requires |rs| == |cs|
    ensures EffectsOf(ServeAll(secret, sha256, rs, cs), i)
            == if i < |rs| then Serve(secret, sha256, rs[i], cs[i]).1 else []
  {
    if rs != [] {
      var n := |rs| - 1;
      EffectsOfRequest(secret, sha256, rs[..n], cs[..n], i);
      EffectsOfConcat(ServeAll(secret, sha256, rs[..n], cs[..n]), Tagged(n, Serve(secret, sha256, rs[n], cs[n]).1), i);
      EffectsOfTagged(n, Serve(secret, sha256, rs[n], cs[n]).1, i);
    }
  }

  /** A genuine request with the bare command of a private user. */
  ghost predicate AsksForGreeting(secret: string, r: Request) {
    && r.method_ == "POST" && r.secret == secret && r.body.Some?
    && PrivateUserUpdate(r.body.value) && BareStart(r.body.value.message.value.text)
  }

  /** The greeting of a private user. */
  function StartGreeting(u: Update): Effect
    requires PrivateUserUpdate(u)
  {
    Greeting(EventIdOf(u.updateId), u.message.value.chatId, u.message.value.languageCode, "start")
  }

  predicate IsStartGreeting(x: Effect) {
    x.Greet? && Lookup(x.message.metadata, "telegram_presentation") == "start"
  }

  lemma ServesGreetingExactly(secret: string, sha256: string -> Digest, r: Request, c: Chance)
    ensures if AsksForGreeting(secret, r) then
              Serve(secret, sha256, r, c) == (NO_CONTENT, [StartGreeting(r.body.value)])
            else forall x :: x in Serve(secret, sha256, r, c).1 ==> !IsStartGreeting(x)
  {
    if r.body.Some? && PrivateUserUpdate(r.body.value) {
      BareHasNoToken(r.body.value.message.value.text);
    }
  }

  lemma BareHasNoToken(text: string)
    ensures MatchBare(text) <==> BareStart(text)
    ensures BareStart(text) ==> MatchStart(text).None?
  {
    BareReadExactly(text);
    if MatchStart(text).Some? {
      StartReadExactly(text, MatchStart(text).value);
    }
  }

  /** In any sequence of requests: a genuine bare command causes exactly one effect, its start greeting, and no
      publication; no other request causes a start greeting. */
  lemma BareStartGreetsExactly(secret: string, sha256: string -> Digest, rs: seq<Request>, cs: seq<Chance>, i: nat)
    requires |rs| == |cs| && i < |rs|
    ensures var effects := EffectsOf(ServeAll(secret, sha256, rs, cs), i);
            if AsksForGreeting(secret, rs[i]) then
              effects == [StartGreeting(rs[i].body.value)]
            else forall x :: x in effects ==> !IsStartGreeting(x)
  {
    EffectsOfRequest(secret, sha256, rs, cs, i);
    ServesGreetingExactly(secret, sha256, rs[i], cs[i]);
  }

  /** The effect at `k` comes from the request it is tagged with; a publication is that update's event. */
  ghost predicate Explained(sha256: string -> Digest, rs: seq<Request>, cs: seq<Chance>, x: (nat, Effect))
    requires |rs| == |cs|
  {
    && x.0 < |rs| && rs[x.0].body.Some?
    && (IsPublish(x) ==> Some(x.1.event) == TelegramConnectionEvent(rs[x.0].body.value, sha256, cs[x.0].now))
    && (x.1.Greet? && !IsWelcome(x) ==>
          TelegramConnectionEvent(rs[x.0].body.value, sha256, cs[x.0].now).None?
          && rs[x.0].body.value.message.Some? && BareStart(rs[x.0].body.value.message.value.text))
  }

  lemma {:induction false} EffectsExplained(secret: string, sha256: string -> Digest, rs: seq<Request>,
                                           cs: seq<Chance>, k: nat)
    requires |rs| == |cs| && k < |ServeAll(secret, sha256, rs, cs)|
    ensures Explained(sha256, rs, cs, ServeAll(secret, sha256, rs, cs)[k])
  {
    var n := |rs| - 1;
    var before := ServeAll(secret, sha256, rs[..n], cs[..n]);
    if k < |before| {
      EffectsExplained(secret, sha256, rs[..n], cs[..n], k);
    } else if rs[n].body.Some? && rs[n].body.value.message.Some? {
      BareReadExactly(rs[n].body.value.message.value.text);
    }
  }

  /** All events published for identical copies of an update, retries included, agree except for their
      creation time; and events share an id exactly when their updates share theirs. */
  lemma CopiesAgree(secret: string, sha256: string -> Digest, rs: seq<Request>, cs: seq<Chance>, i: nat, j: nat)
    requires |rs| == |cs| && i < |ServeAll(secret, sha256, rs, cs)| && j < |ServeAll(secret, sha256, rs, cs)|
    requires IsPublish(ServeAll(secret, sha256, rs, cs)[i]) && IsPublish(ServeAll(secret, sha256, rs, cs)[j])
    ensures var x, y := ServeAll(secret, sha256, rs, cs)[i], ServeAll(secret, sha256, rs, cs)[j];
            && x.0 < |rs| && y.0 < |rs| && rs[x.0].body.Some? && rs[y.0].body.Some?
            && (rs[x.0].body == rs[y.0].body ==> x.1.event == y.1.event.(createdAt := x.1.event.createdAt))
            && (x.1.event.eventId == y.1.event.eventId <==> rs[x.0].body.value.updateId == rs[y.0].body.value.updateId)
  {
    EffectsExplained(secret, sha256, rs, cs, i);
    EffectsExplained(secret, sha256, rs, cs, j);
    var x, y := ServeAll(secret, sha256, rs, cs)[i], ServeAll(secret, sha256, rs, cs)[j];
    EventIdIdentifiesUpdate(rs[x.0].body.value.updateId, rs[y.0].body.value.updateId);
  }

  /** `y` welcomes the chat that the successful publication `x` was about. */
  predicate Welcomes(y: (nat, Effect), x: (nat, Effect)) {
    && IsPublish(x) && x.1.ok && IsWelcome(y) && y.0 == x.0
    && x.1.event.chatId > 0
    && y.1.message.eventId == x.1.event.eventId + "-welcome" && y.1.message.recipient == Decimal(x.1.event.chatId)
  }

  /** A welcome is attempted right after each connection that was published, and at no other time. */
  lemma {:induction false} WelcomeExactlyAfterPublish(secret: string, sha256: string -> Digest,
                                                     rs: seq<Request>, cs: seq<Chance>, k: nat)
    requires |rs| == |cs| && k < |ServeAll(secret, sha256, rs, cs)|
    ensures var log := ServeAll(secret, sha256, rs, cs);
            && (IsPublish(log[k]) && log[k].1.ok ==> k + 1 < |log| && Welcomes(log[k + 1], log[k]))
            && (IsWelcome(log[k]) ==> k > 0 && Welcomes(log[k], log[k - 1]))
  {
    var n := |rs| - 1;
    var before := ServeAll(secret, sha256, rs[..n], cs[..n]);
    var effects := Serve(secret, sha256, rs[n], cs[n]).1;
    if k < |before| {
      WelcomeExactlyAfterPublish(secret, sha256, rs[..n], cs[..n], k);
    } else {
      OneRequest(secret, sha256, rs[n], cs[n], n, k - |before|);
      var log := ServeAll(secret, sha256, rs, cs);
      assert log[k] == Tagged(n, effects)[k - |before|];
      assert k > |before| ==> log[k - 1] == Tagged(n, effects)[k - |before| - 1];
      assert k + 1 < |log| ==> log[k + 1] == Tagged(n, effects)[k - |before| + 1];
    }
  }

  lemma OneRequest(secret: string, sha256: string -> Digest, r: Request, c: Chance, n: nat, k: nat)
    requires k < |Serve(secret, sha256, r, c).1|
    ensures var log := Tagged(n, Serve(secret, sha256, r, c).1);
            && (IsPublish(log[k]) && log[k].1.ok ==> k + 1 < |log| && Welcomes(log[k + 1], log[k]))
            && (IsWelcome(log[k]) ==> k > 0 && Welcomes(log[k], log[k - 1]))
  {
  }
}
