/** The request and result events, their validation, and the provider plan of a request. */
module Events {
  import opened Wrappers
  import opened Lists
  import opened Config

  datatype DeliveryPolicy = DeliveryPolicy(
    selectedProvider: string,
    providerChain: seq<string>,
    allowFallback: bool)

  /** A nil map is modelled as an empty one: every use is a lookup. */
  datatype RequestEvent = RequestEvent(
    version: string,
    eventId: string,
    eventType: string,
    source: string,
    template: string,
    purpose: string,
    recipientType: string,
    recipient: string,
    variables: map<string, string>,
    userId: int,
    createdAt: int,
    delivery: DeliveryPolicy,
    metadata: map<string, string>)

  datatype ResultEvent = ResultEvent(
    version: string,
    eventId: string,
    eventType: string,
    requestEventId: string,
    status: string,
    recipientType: string,
    recipient: string,
    provider: string,
    attempt: nat,
    errorCode: string,
    createdAt: int)

  const DELIVERY_REQUESTED := "message.delivery.requested"
  const DELIVERY_RESULT := "message.delivery.result"

  const SENT := "sent"
  const FAILED := "failed"
  const UNDELIVERABLE := "undeliverable"

  datatype ContractError =
    | Malformed
    | VersionRequired
    | EventIdRequired
    | UnsupportedType(eventType: string)
    | TemplateRequired
    | UnsupportedRecipientType(recipientType: string)
    | RecipientRequired

  function Validate(e: RequestEvent): Option<ContractError> {
    if e.version == "" then Some(VersionRequired)
    else if e.eventId == "" then Some(EventIdRequired)
    else if e.eventType != DELIVERY_REQUESTED then Some(UnsupportedType(e.eventType))
    else if e.template == "" then Some(TemplateRequired)
    else if e.recipientType != EMAIL && e.recipientType != PHONE && e.recipientType != PUSH
            && e.recipientType != TELEGRAM then Some(UnsupportedRecipientType(e.recipientType))
    else if e.recipient == "" then Some(RecipientRequired)
    else None
  }

  /** A delivery body after JSON decoding: an event, or nothing if decoding failed. */
  type Body = Option<RequestEvent>

  function DecodeRequest(body: Body): Result<RequestEvent, ContractError> {
    match body
    case None => Err(Malformed)
    case Some(e) =>
      match Validate(e)
      case Some(error) => Err(error)
      case None => Ok(e)
  }

  // ----- The provider plan ------------------------------------------------------------------

  function Nonempty(s: seq<string>): seq<string> {
    if s == [] then []
    else Nonempty(s[..|s| - 1]) + (if s[|s| - 1] == "" then [] else [s[|s| - 1]])
  }

  /** The order in which providers are tried. */
  function PlanOf(policy: DeliveryPolicy, defaultChain: seq<string>): seq<string> {
    if policy.selectedProvider != "" then
      if !policy.allowFallback then [policy.selectedProvider]
      else Kept([policy.selectedProvider] + policy.providerChain + defaultChain)
    else if policy.providerChain != [] then policy.providerChain
    else defaultChain
  }

  method ProviderPlan(e: RequestEvent, defaultChain: seq<string>) returns (plan: seq<string>)
    ensures plan == PlanOf(e.delivery, defaultChain)
  {
    var selected := e.delivery.selectedProvider;
    if selected != "" {
      if !e.delivery.allowFallback {
        return [selected];
      }
      plan := AppendNew(selected, e.delivery.providerChain + defaultChain);
      assert [selected] + (e.delivery.providerChain + defaultChain)
             == [selected] + e.delivery.providerChain + defaultChain;
      return plan;
    }
    if |e.delivery.providerChain| > 0 {
      return e.delivery.providerChain;
    }
    return defaultChain;
  }

  /** The distinct nonempty names, in order. */
  function Kept(names: seq<string>): seq<string> {
    Deduplicated(Nonempty(names))
  }

  /** The loop with the seen-set. */
  method AppendNew(selected: string, rest: seq<string>) returns (plan: seq<string>)
    requires selected != ""
    ensures plan == Kept([selected] + rest)
  {
    var seen := {selected};
    plan := [selected];
    KeptOne(selected);
    assert [selected] + rest[..0] == [selected];
    for i := 0 to |rest|
      invariant Tracks([selected] + rest[..i], seen, plan)
    {
      var name := rest[i];
      TracksNext([selected] + rest[..i], seen, plan, name);
      assert [selected] + rest[..i + 1] == [selected] + rest[..i] + [name];
      if name == "" || name in seen {
        continue;
      }
      seen := seen + {name};
      plan := plan + [name];
    }
    assert rest[..|rest|] == rest;
  }

  /** After the names looked at so far: the plan is what is kept of them, and `seen` holds its names. */
  ghost predicate Tracks(names: seq<string>, seen: set<string>, plan: seq<string>) {
    plan == Kept(names) && forall x :: x in seen <==> x in plan
  }

  lemma TracksNext(names: seq<string>, seen: set<string>, plan: seq<string>, x: string)
    requires Tracks(names, seen, plan)
    ensures if x == "" || x in seen then Tracks(names + [x], seen, plan)
            else Tracks(names + [x], seen + {x}, plan + [x])
  {
    KeptAppend(names, x);
  }

  lemma KeptOne(x: string)
    requires x != ""
    ensures Kept([x]) == [x]
  {
    NonemptyAppend([], x);
    DeduplicatedAppend([], x);
    assert [] + [x] == [x];
  }

  lemma KeptAppend(names: seq<string>, x: string)
    ensures Kept(names + [x]) == if x == "" || x in Kept(names) then Kept(names) else Kept(names) + [x]
  {
    NonemptyAppend(names, x);
    DeduplicatedAppend(Nonempty(names), x);
  }

  lemma NonemptyAppend(s: seq<string>, x: string)
    ensures Nonempty(s + [x]) == if x == "" then Nonempty(s) else Nonempty(s) + [x]
  {
    assert (s + [x])[..|s|] == s;
    assert Nonempty(s) + [] == Nonempty(s);
  }

  // ----- Which requests are accepted ------------------------------------------------------------

  /** The requests that are handled: all of these, on each of the four channels, and no others. */
  lemma ValidExactly(e: RequestEvent)
    ensures DecodeRequest(Some(e)) == Ok(e) <==>
            && e.version != "" && e.eventId != "" && e.template != "" && e.recipient != ""
            && e.eventType == "message.delivery.requested"
            && e.recipientType in ["email", "phone", "push", "telegram"]
    ensures DecodeRequest(Some(e)).Ok? ==> DecodeRequest(Some(e)) == Ok(e)
  {
    assert e.recipientType in ["email", "phone", "push", "telegram"]
           <==> e.recipientType == "email" || e.recipientType == "phone" || e.recipientType == "push"
                || e.recipientType == "telegram";
  }

  /** The requirements in the order in which they are checked, and what is reported for each. */
  function Requirements(e: RequestEvent): seq<(bool, ContractError)> {
    [(e.version != "", VersionRequired),
     (e.eventId != "", EventIdRequired),
     (e.eventType == "message.delivery.requested", UnsupportedType(e.eventType)),
     (e.template != "", TemplateRequired),
     (e.recipientType in ["email", "phone", "push", "telegram"], UnsupportedRecipientType(e.recipientType)),
     (e.recipient != "", RecipientRequired)]
  }

  /** The first requirement that is not met is reported. */
  lemma FirstViolationReported(e: RequestEvent, k: nat)
    requires k < 6 && !Requirements(e)[k].0 && forall j :: 0 <= j < k ==> Requirements(e)[j].0
    ensures DecodeRequest(Some(e)) == Err(Requirements(e)[k].1)
  {
    assert k > 0 ==> Requirements(e)[0].0;
    assert k > 1 ==> Requirements(e)[1].0;
    assert k > 2 ==> Requirements(e)[2].0;
    assert k > 3 ==> Requirements(e)[3].0;
    assert k > 4 ==> Requirements(e)[4].0;
  }
}
