/** What the webhook publishes and sends, read back in terms of the update, and the characters of the commands. */
module WebhookReading {
  import opened Wrappers
  import opened Strings
  import opened Providers
  import opened Webhook

  // ----- The characters of the commands ---------------------------------------------------------

  predicate Upper(c: char) { c in "ABCDEFGHIJKLMNOPQRSTUVWXYZ" }

  predicate Lower(c: char) { c in "abcdefghijklmnopqrstuvwxyz" }

  predicate Digit(c: char) { c in "0123456789" }

  lemma LettersInFull(c: char)
    ensures 'A' <= c <= 'Z' <==> Upper(c)
  {
  }

  lemma SmallLettersInFull(c: char)
    ensures 'a' <= c <= 'z' <==> Lower(c)
  {
  }

  lemma DigitsInFull(c: char)
    ensures '0' <= c <= '9' <==> Digit(c)
  {
  }

  /** Names have letters, digits and `_`; tokens also `-`; blanks are the five of the expressions. */
  lemma CommandCharacters(c: char)
    ensures NameChar(c) <==> Upper(c) || Lower(c) || Digit(c) || c == '_'
    ensures TokenChar(c) <==> Upper(c) || Lower(c) || Digit(c) || c == '_' || c == '-'
    ensures BlankChar(c) <==> c in "\t\n\U{000C}\r "
  {
    LettersInFull(c);
    SmallLettersInFull(c);
    DigitsInFull(c);
  }

  /** A command with a token, in full. */
  lemma StartInFull(text: string, token: string)
    ensures StartWith(text, token) <==>
            exists mention, gap, trail ::
              && text == "/start" + (mention + (gap + (token + trail)))
              && (mention == "" || (|mention| > 1 && mention[0] == '@' && All(mention[1..], NameChar)))
              && gap != "" && All(gap, BlankChar) && All(trail, BlankChar)
              && 20 <= |token| <= 64 && All(token, TokenChar)
  {
    if mention, gap, trail :| StartParts(text, mention, gap, token, trail) {
    }
    if mention, gap, trail :|
      && text == "/start" + (mention + (gap + (token + trail)))
      && (mention == "" || (|mention| > 1 && mention[0] == '@' && All(mention[1..], NameChar)))
      && gap != "" && All(gap, BlankChar) && All(trail, BlankChar)
      && 20 <= |token| <= 64 && All(token, TokenChar)
    {
      assert StartParts(text, mention, gap, token, trail);
    }
  }

  // ----- Hexadecimal and decimal ----------------------------------------------------------------

  function HexValue(c: char): (n: nat)
    ensures n < 16
  {
    if '0' <= c <= '9' then c as int - '0' as int
    else if 'a' <= c <= 'f' then 10 + (c as int - 'a' as int)
    else 0
  }

  /** Reading pairs of digits, the high half first. */
  function UnHex(s: string): seq<Byte> {
    if |s| < 2 then [] else [16 * HexValue(s[0]) + HexValue(s[1])] + UnHex(s[2..])
  }

  /** The printed digest reads back as the digest. */
  lemma {:induction false} HexReadsBack(d: seq<Byte>)
    ensures UnHex(Hex(d)) == d
  {
    if d != [] {
      var s := Hex(d);
      assert s[2..] == Hex(d[1..]);
      assert HexValue(s[0]) == d[0] / 16 && HexValue(s[1]) == d[0] % 16;
      HexReadsBack(d[1..]);
    }
  }

  function ReadDecimal(s: string): int {
    if s == "" then 0 else 10 * ReadDecimal(s[..|s| - 1]) + (s[|s| - 1] as int - '0' as int)
  }

  lemma {:induction false} DecimalReadsBack(n: nat)
    ensures ReadDecimal(Decimal(n)) == n
  {
    var s := Decimal(n);
    assert s[|s| - 1] as int - '0' as int == n % 10;
    if n >= 10 {
      assert s[..|s| - 1] == Decimal(n / 10);
      DecimalReadsBack(n / 10);
    } else {
      assert s[..|s| - 1] == "";
    }
  }

  // ----- The published event --------------------------------------------------------------------

  /** The update of a private chat of a user with the bot. */
  predicate IsPrivate(u: Update) {
    && u.updateId > 0 && u.message.Some?
    && u.message.value.chatType == "private" && u.message.value.chatId > 0
    && u.message.value.fromId == u.message.value.chatId
  }

  /** The name of the chat, or if it is blank that of the user. */
  predicate IsUsername(m: UpdateMessage, name: string) {
    if AllSpaces(m.chatUsername) then name == TrimSpace(m.fromUsername) else name == TrimSpace(m.chatUsername)
  }

  /** The event tells the update, the chat and the digest of the token. */
  predicate Tells(e: ConnectionEvent, u: Update, digest: Digest)
    requires u.message.Some?
  {
    && e.version == "1.0" && e.eventType == "notification.telegram.connection.requested"
    && e.source == "message-delivery.telegram-bot"
    && "telegram-bot-update-" <= e.eventId && ReadDecimal(e.eventId[20..]) == u.updateId
    && e.updateId == u.updateId && e.chatId == u.message.value.chatId
    && IsUsername(u.message.value, e.chatUsername)
    && UnHex(e.startTokenHash) == digest
  }

  lemma EventIdReads(updateId: int)
    requires updateId > 0
    ensures "telegram-bot-update-" <= EventIdOf(updateId) && ReadDecimal(EventIdOf(updateId)[20..]) == updateId
  {
    assert EventIdOf(updateId)[20..] == Decimal(updateId);
    DecimalReadsBack(updateId);
  }

  lemma EventTells(u: Update, token: string, sha256: string -> Digest, now: int)
    requires PrivateUserUpdate(u)
    ensures Tells(EventOf(u, token, sha256, now), u, sha256(token))
    ensures EventOf(u, token, sha256, now).createdAt == now
  {
    EventIdReads(u.updateId);
    HexReadsBack(sha256(token));
    BlankExactly(u.message.value.chatUsername);
  }

  /** A genuine request: posted, with the secret, and readable. */
  predicate Genuine(secret: string, r: Request) {
    r.method_ == "POST" && r.secret == secret && r.body.Some?
  }

  /** Exactly a genuine request with a private update whose text carries a token is published, as one event that
      tells that update and the digest of that token. */
  lemma PublishedExactly(secret: string, sha256: string -> Digest, r: Request, c: Chance, token: string)
    requires Genuine(secret, r) && IsPrivate(r.body.value) && StartWith(r.body.value.message.value.text, token)
    ensures var effects := Serve(secret, sha256, r, c).1;
            && effects != [] && effects[0].PublishConnection? && effects[0].ok == c.publishes
            && Tells(effects[0].event, r.body.value, sha256(token)) && effects[0].event.createdAt == c.now
            && forall i :: 0 < i < |effects| ==> !effects[i].PublishConnection?
  {
    EventExactly(r.body.value, sha256, c.now);
    EventTells(r.body.value, token, sha256, c.now);
  }

  lemma OtherwiseNothingPublished(secret: string, sha256: string -> Digest, r: Request, c: Chance)
    requires !(Genuine(secret, r) && IsPrivate(r.body.value)
               && exists token :: StartWith(r.body.value.message.value.text, token))
    ensures forall x :: x in Serve(secret, sha256, r, c).1 ==> !x.PublishConnection?
  {
    if r.body.Some? {
      EventExactly(r.body.value, sha256, c.now);
    }
  }

  /** Events of two requests carry the same hash exactly if the digests of their tokens agree. */
  lemma HashTellsDigest(u: Update, v: Update, token: string, other: string, sha256: string -> Digest,
                        now: int, later: int)
    requires IsPrivate(u) && StartWith(u.message.value.text, token)
    requires IsPrivate(v) && StartWith(v.message.value.text, other)
    ensures TelegramConnectionEvent(u, sha256, now).Some? && TelegramConnectionEvent(v, sha256, later).Some?
    ensures TelegramConnectionEvent(u, sha256, now).value.startTokenHash
            == TelegramConnectionEvent(v, sha256, later).value.startTokenHash
            <==> sha256(token) == sha256(other)
  {
    EventExactly(u, sha256, now);
    EventExactly(v, sha256, later);
    HexReadsBack(sha256(token));
    HexReadsBack(sha256(other));
  }

  // ----- Greetings and answers ------------------------------------------------------------------

  /** A greeting goes to the chat, in the user's language, as the kind of presentation asked for. */
  predicate Greets(x: Effect, u: Update, presentation: string)
    requires u.message.Some?
  {
    && x.Greet? && x.message.recipientType == "telegram"
    && ReadDecimal(x.message.recipient) == u.message.value.chatId
    && x.message.metadata == map["telegram_presentation" := presentation, "locale" := u.message.value.languageCode]
    && "telegram-bot-update-" <= x.message.eventId && |x.message.eventId| >= 28
    && x.message.eventId[|x.message.eventId| - 8..] == "-welcome"
    && ReadDecimal(x.message.eventId[20..|x.message.eventId| - 8]) == u.updateId
  }

  lemma GreetingGreets(u: Update, presentation: string)
    requires IsPrivate(u)
    ensures Greets(Greeting(EventIdOf(u.updateId), u.message.value.chatId, u.message.value.languageCode, presentation),
                   u, presentation)
  {
    var id := EventIdOf(u.updateId);
    EventIdReads(u.updateId);
    assert (id + "-welcome")[|id|..] == "-welcome";
    assert (id + "-welcome")[20..|id|] == id[20..];
    DecimalReadsBack(u.message.value.chatId);
  }

  /** What each request is answered, and which greeting it causes. */
  lemma AnsweredExactly(secret: string, sha256: string -> Digest, r: Request, c: Chance, token: string)
    ensures var (status, effects) := Serve(secret, sha256, r, c);
            if r.method_ != "POST" then status == 405 && effects == []
            else if r.secret != secret then status == 403 && effects == []
            else if r.body.None? then status == 400 && effects == []
            else if IsPrivate(r.body.value) && StartWith(r.body.value.message.value.text, token) then
              if c.publishes then
                status == 204 && |effects| == 2 && Greets(effects[1], r.body.value, "welcome")
              else status == 503 && |effects| == 1
            else if IsPrivate(r.body.value) && BareStart(r.body.value.message.value.text) then
              status == 204 && |effects| == 1 && Greets(effects[0], r.body.value, "start")
            else true
  {
    if r.body.Some? && IsPrivate(r.body.value) {
      var u := r.body.value;
      EventExactly(u, sha256, c.now);
      GreetingGreets(u, "welcome");
      GreetingGreets(u, "start");
      BareHasNoToken(u.message.value.text);
    }
  }

  /** A genuine request with anything else is accepted and causes nothing. */
  lemma OtherwiseQuiet(secret: string, sha256: string -> Digest, r: Request, c: Chance)
    requires Genuine(secret, r)
    requires !IsPrivate(r.body.value)
             || (&& !BareStart(r.body.value.message.value.text)
                 && forall token :: !StartWith(r.body.value.message.value.text, token))
    ensures Serve(secret, sha256, r, c) == (204, [])
  {
    var u := r.body.value;
    EventExactly(u, sha256, c.now);
    if u.message.Some? {
      BareReadExactly(u.message.value.text);
    }
  }
}
