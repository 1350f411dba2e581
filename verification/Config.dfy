/** The part of the service configuration that decides which providers may be used, and the
    operator-owned copy of the Telegram bot. */
module Config {
  import opened Wrappers
  import opened Strings

  /** An entry of an adapter's `Brands` object: a JSON object, or some other JSON value. */
  datatype BrandEntry = BrandObject(fields: map<string, string>) | NotAnObject

  /** The keys of an adapter that decide what is built from it; the rest is kept in `settings`. */
  datatype AdapterConfig = AdapterConfig(
    enabled: bool,
    kind: string,
    brands: map<string, BrandEntry>,
    settings: map<string, string>)

  datatype ChannelConfig = ChannelConfig(
    enabled: bool,
    defaultProvider: string,
    allowedProviders: seq<string>,
    adapters: map<string, AdapterConfig>)

  datatype PhoneConfig = PhoneConfig(
    defaultProviderChain: seq<string>,
    allowedProviders: seq<string>,
    adapters: map<string, AdapterConfig>)

  type Localized = map<string, string>

  datatype Presentation = Presentation(
    startTitle: Localized,
    startBody: Localized,
    welcomeTitle: Localized,
    welcomeBody: Localized,
    notificationFallbackTitle: Localized,
    notificationFooter: Localized,
    openActionLabel: Localized)

  datatype Config = Config(
    email: ChannelConfig,
    phone: PhoneConfig,
    push: ChannelConfig,
    telegram: ChannelConfig,
    presentation: Presentation)

  const EMAIL := "email"
  const PHONE := "phone"
  const PUSH := "push"
  const TELEGRAM := "telegram"

  /** The allow-list of a channel; an unknown channel allows nothing. */
  function AllowedList(cfg: Config, recipientType: string): seq<string> {
    if recipientType == EMAIL then cfg.email.allowedProviders
    else if recipientType == PHONE then cfg.phone.allowedProviders
    else if recipientType == PUSH then cfg.push.allowedProviders
    else if recipientType == TELEGRAM then cfg.telegram.allowedProviders
    else []
  }

  predicate Allowed(cfg: Config, recipientType: string, name: string) {
    name in AllowedList(cfg, recipientType)
  }

  method AllowedProvider(cfg: Config, recipientType: string, name: string) returns (ok: bool)
    ensures ok <==> Allowed(cfg, recipientType, name)
  {
    var allowed := AllowedList(cfg, recipientType);
    for i := 0 to |allowed|
      invariant name !in allowed[..i]
    {
      if allowed[i] == name {
        return true;
      }
    }
    return false;
  }

  function DefaultProviderChain(cfg: Config, recipientType: string): seq<string> {
    if recipientType == EMAIL then [cfg.email.defaultProvider]
    else if recipientType == PHONE then cfg.phone.defaultProviderChain
    else if recipientType == PUSH then [cfg.push.defaultProvider]
    else if recipientType == TELEGRAM then [cfg.telegram.defaultProvider]
    else []
  }
}
