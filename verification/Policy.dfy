/** What the provider policy of a request guarantees about the providers that are asked. */
module Policy {
  import opened Wrappers
  import opened Lists
  import opened Config
  import opened Events
  import opened Providers
  import opened Templates
  import opened Handler

  /** The providers asked, in order. */
  function Names(t: seq<Action>): seq<string> {
    if t == [] then []
    else
      var a := t[|t| - 1];
      Names(t[..|t| - 1]) + (if a.Send? then [a.name] else [])
  }

  /** The names among the first `n` plan entries that are allowed and registered. */
  function AskedNames(env: Env, e: RequestEvent, n: nat): seq<string>
    requires n <= |Plan(env, e)|
  {
    if n == 0 then []
    else
      AskedNames(env, e, n - 1)
      + (if EntryOf(env, e, Plan(env, e)[n - 1]).Asked? then [Plan(env, e)[n - 1]] else [])
  }

  lemma {:induction false} NamesConcat(a: seq<Action>, b: seq<Action>)
    ensures Names(a + b) == Names(a) + Names(b)
  {
    if b == [] {
      assert a + b == a;
    } else {
      NamesConcat(a, b[..|b| - 1]);
      assert (a + b)[..|a + b| - 1] == a + b[..|b| - 1];
    }
  }

  lemma {:induction false} ContactNames(env: Env, e: RequestEvent, r: Rendered, answers: seq<Reply>, n: nat)
    requires n <= |answers| == |Plan(env, e)|
    ensures Names(Contacts(env, e, r, answers, n)) == AskedNames(env, e, n)
  {
    if n > 0 {
      ContactNames(env, e, r, answers, n - 1);
      var name := Plan(env, e)[n - 1];
      if EntryOf(env, e, name).Asked? {
        NamesConcat(Contacts(env, e, r, answers, n - 1), [Ask(env, e, r, name, answers[n - 1])]);
        assert Names([Ask(env, e, r, name, answers[n - 1])]) == Names([]) + [name];
      } else {
        assert Contacts(env, e, r, answers, n - 1) + [] == Contacts(env, e, r, answers, n - 1);
      }
    }
  }

  lemma DeliveredNames(env: Env, e: RequestEvent, t: seq<Action>, v: Verdict, r: Rendered, answers: seq<Reply>, k: nat)
    requires Delivered(env, e, t, v, r, answers, k)
    ensures Names(t) == AskedNames(env, e, Min(k + 1, |answers|))
  {
    var n := Min(k + 1, |answers|);
    ContactNames(env, e, r, answers, n);
    NamesBetween([Lookup(false), Render(Some(r))], Contacts(env, e, r, answers, n),
                 if v.status == SENT && env.hasStore then [Mark(e.eventId)] else []);
  }

  lemma NamesBetween(head: seq<Action>, t: seq<Action>, tail: seq<Action>)
    requires (forall i :: 0 <= i < |head| ==> !head[i].Send?) && (forall i :: 0 <= i < |tail| ==> !tail[i].Send?)
    ensures Names(head + t + tail) == Names(t)
  {
    NamesConcat(head + t, tail);
    NamesConcat(head, t);
    QuietNames(head);
    QuietNames(tail);
  }

  lemma QuietNames(t: seq<Action>)
    requires forall i :: 0 <= i < |t| ==> !t[i].Send?
    ensures Names(t) == []
  {
  }

  // ----- No provider twice ----------------------------------------------------------------------

  /** The first position, from `i` on, that ends the request even if its provider says `undeliverable`. */
  function StopsAt(env: Env, e: RequestEvent, i: nat): (k: nat)
    requires i <= |Plan(env, e)|
    ensures i <= k <= |Plan(env, e)|
    ensures forall j :: i <= j < k ==> !Decisive(env, e, Plan(env, e)[j], Reply(UNDELIVERABLE, ""))
    ensures k < |Plan(env, e)| ==> Decisive(env, e, Plan(env, e)[k], Reply(UNDELIVERABLE, ""))
    decreases |Plan(env, e)| - i
  {
    if i == |Plan(env, e)| || Decisive(env, e, Plan(env, e)[i], Reply(UNDELIVERABLE, "")) then i
    else StopsAt(env, e, i + 1)
  }

  /** Every provider the request can come to ask, in order; known before anything is sent. */
  function Askable(env: Env, e: RequestEvent): seq<string> {
    AskedNames(env, e, Min(StopsAt(env, e, 0) + 1, |Plan(env, e)|))
  }

  lemma {:induction false} AskedPrefix(env: Env, e: RequestEvent, m: nat, n: nat)
    requires m <= n <= |Plan(env, e)|
    ensures AskedNames(env, e, m) <= AskedNames(env, e, n)
  {
    if m < n {
      AskedPrefix(env, e, m, n - 1);
    }
  }

  lemma AskedAreAskable(env: Env, e: RequestEvent, t: seq<Action>, v: Verdict, r: Rendered, answers: seq<Reply>, k: nat)
    requires Delivered(env, e, t, v, r, answers, k)
    ensures Names(t) <= Askable(env, e)
  {
    DeliveredNames(env, e, t, v, r, answers, k);
    var stop := StopsAt(env, e, 0);
    if stop < k {
      assert Decisive(env, e, Plan(env, e)[stop], answers[stop]);
    }
    AskedPrefix(env, e, Min(k + 1, |answers|), Min(stop + 1, |answers|));
  }

  /** If every provider says `undeliverable`, all askable ones are asked. */
  lemma AllAskableCanBeAsked(env: Env, e: RequestEvent, seen: set<string>) returns (t: seq<Action>, v: Verdict)
    requires !(env.hasStore && e.eventId in seen) && Plan(env, e) != []
    ensures Decided(env, e, seen, t, v, seen) && Names(t) == Askable(env, e)
  {
    var answers := seq(|Plan(env, e)|, _ => Reply(UNDELIVERABLE, ""));
    var k, r := StopsAt(env, e, 0), Rendered("", "", "");
    v := Decision(env, e, answers, k);
    t := [Lookup(false), Render(Some(r))] + Contacts(env, e, r, answers, Min(k + 1, |answers|)) + [];
    assert Delivered(env, e, t, v, r, answers, k);
    DeliveredNames(env, e, t, v, r, answers, k);
    assert seen + {} == seen;
  }

  /** No provider is asked twice, whatever the providers answer, exactly when the askable names are
      distinct. */
  lemma NoProviderTwiceExactly(env: Env, e: RequestEvent, seen: set<string>)
    requires !(env.hasStore && e.eventId in seen)
    ensures (forall t, v, seen' :: Decided(env, e, seen, t, v, seen') ==> NoRepeats(Names(t)))
            <==> NoRepeats(Askable(env, e))
  {
    if NoRepeats(Askable(env, e)) {
      forall t, v, seen' | Decided(env, e, seen, t, v, seen') ensures NoRepeats(Names(t)) {
        DecidedNames(env, e, seen, t, v, seen');
      }
    } else {
      var t, v := AllAskableCanBeAsked(env, e, seen);
      assert Decided(env, e, seen, t, v, seen);
    }
  }

  lemma DecidedNames(env: Env, e: RequestEvent, seen: set<string>, t: seq<Action>, v: Verdict, seen': set<string>)
    requires Decided(env, e, seen, t, v, seen')
    ensures Names(t) <= Askable(env, e)
  {
    if r, answers, k :| Delivered(env, e, t, v, r, answers, k) {
      AskedAreAskable(env, e, t, v, r, answers, k);
    } else {
      QuietNames(t);
    }
  }

  lemma {:induction false} AskedFromPlan(env: Env, e: RequestEvent, n: nat)
    requires n <= |Plan(env, e)| && NoRepeats(Plan(env, e))
    ensures NoRepeats(AskedNames(env, e, n))
    ensures forall x :: x in AskedNames(env, e, n) ==> exists j :: 0 <= j < n && Plan(env, e)[j] == x
  {
    if n > 0 {
      AskedFromPlan(env, e, n - 1);
      var asked, last := AskedNames(env, e, n - 1), Plan(env, e)[n - 1];
      forall i | 0 <= i < |asked| ensures asked[i] != last {
        assert asked[i] in asked;
      }
    }
  }

  /** A selected provider: the plan has no name twice, so no provider is asked twice, with or without
      fallback and whatever the chains contain. */
  lemma SelectionAvoidsRepeats(env: Env, e: RequestEvent, seen: set<string>, t: seq<Action>, v: Verdict,
                               seen': set<string>)
    requires e.delivery.selectedProvider != "" && Decided(env, e, seen, t, v, seen')
    ensures NoRepeats(Plan(env, e)) && NoRepeats(Names(t))
    ensures e.delivery.allowFallback ==>
              ListsFirstOccurrences(Plan(env, e), Nonempty([e.delivery.selectedProvider] + e.delivery.providerChain
                                                           + DefaultProviderChain(env.cfg, e.recipientType)))
  {
    if e.delivery.allowFallback {
      DeduplicatedListsFirstOccurrences(
        Nonempty([e.delivery.selectedProvider] + e.delivery.providerChain
                 + DefaultProviderChain(env.cfg, e.recipientType)));
    }
    AskedFromPlan(env, e, Min(StopsAt(env, e, 0) + 1, |Plan(env, e)|));
    DecidedNames(env, e, seen, t, v, seen');
  }

  // ----- The selected provider ------------------------------------------------------------------

  lemma {:induction false} NonemptyHead(x: string, rest: seq<string>)
    requires x != ""
    ensures Nonempty([x] + rest) != [] && Nonempty([x] + rest)[0] == x
  {
    var s := [x] + rest;
    if rest == [] {
      assert s[..0] == [];
    } else {
      NonemptyHead(x, rest[..|rest| - 1]);
      assert s[..|s| - 1] == [x] + rest[..|rest| - 1];
    }
  }

  lemma {:induction false} DeduplicatedHead(s: seq<string>)
    requires s != []
    ensures Deduplicated(s) != [] && Deduplicated(s)[0] == s[0]
  {
    if |s| > 1 {
      DeduplicatedHead(s[..|s| - 1]);
    } else {
      assert s[..0] == [];
    }
  }

  lemma SelectedLeads(env: Env, e: RequestEvent)
    requires e.delivery.selectedProvider != ""
    ensures Plan(env, e) != [] && Plan(env, e)[0] == e.delivery.selectedProvider
  {
    if e.delivery.allowFallback {
      var defaults := DefaultProviderChain(env.cfg, e.recipientType);
      var s := [e.delivery.selectedProvider] + (e.delivery.providerChain + defaults);
      assert s == [e.delivery.selectedProvider] + e.delivery.providerChain + defaults;
      NonemptyHead(e.delivery.selectedProvider, e.delivery.providerChain + defaults);
      DeduplicatedHead(Nonempty(s));
    }
  }

  /** A selected provider that may not be used or does not exist is never passed over: on a fresh,
      rendered request the verdict is a failure that names it, at attempt 1, and nothing is sent. */
  lemma SelectedNeverSkipped(env: Env, e: RequestEvent, seen: set<string>, t: seq<Action>, v: Verdict,
                             seen': set<string>)
    requires e.delivery.selectedProvider != "" && Decided(env, e, seen, t, v, seen')
    requires !(env.hasStore && e.eventId in seen) && v != TEMPLATE_ERROR
    requires !EntryOf(env, e, e.delivery.selectedProvider).Asked?
    ensures v.status == FAILED && v.provider == e.delivery.selectedProvider && v.attempt == 1
    ensures v.errorCode
            == if Allowed(env.cfg, e.recipientType, v.provider) then PROVIDER_NOT_FOUND else "provider_not_allowed"
    ensures Names(t) == []
  {
    SelectedLeads(env, e);
    var r, answers, k :| Delivered(env, e, t, v, r, answers, k);
    assert Decisive(env, e, Plan(env, e)[0], answers[0]);
    assert k == 0;
    DeliveredNames(env, e, t, v, r, answers, k);
    assert AskedNames(env, e, 0) == [];
  }

  /** Without fallback at most one provider is asked, the selected one. */
  lemma OneSendWithoutFallback(env: Env, e: RequestEvent, seen: set<string>, t: seq<Action>, v: Verdict,
                               seen': set<string>)
    requires e.delivery.selectedProvider != "" && !e.delivery.allowFallback && Decided(env, e, seen, t, v, seen')
    ensures Names(t) <= [e.delivery.selectedProvider]
  {
    DecidedNames(env, e, seen, t, v, seen');
    assert Plan(env, e) == [e.delivery.selectedProvider];
    assert AskedNames(env, e, 0) == [];
    assert Askable(env, e) <= [e.delivery.selectedProvider];
  }

  // ----- Going on after `undeliverable` ---------------------------------------------------------

  function OneSend(a: Action): seq<Action> { if a.Send? then [a] else [] }

  /** The sends of a run, in order. */
  function Sends(t: seq<Action>): (r: seq<Action>)
    ensures forall i :: 0 <= i < |r| ==> r[i].Send?
  {
    if t == [] then [] else Sends(t[..|t| - 1]) + OneSend(t[|t| - 1])
  }

  lemma {:induction false} SendsHaveNames(t: seq<Action>)
    ensures |Sends(t)| == |Names(t)| && forall i :: 0 <= i < |Sends(t)| ==> Sends(t)[i].name == Names(t)[i]
  {
    if t != [] {
      SendsHaveNames(t[..|t| - 1]);
    }
  }

  lemma SendsAppend(t: seq<Action>, a: Action)
    ensures Sends(t + [a]) == Sends(t) + OneSend(a)
  {
    assert (t + [a])[..|t|] == t;
  }

  lemma {:induction false} SendsConcat(a: seq<Action>, b: seq<Action>)
    ensures Sends(a + b) == Sends(a) + Sends(b)
  {
    if b == [] {
      assert a + b == a && Sends(a) + [] == Sends(a);
    } else {
      var init, x := b[..|b| - 1], b[|b| - 1];
      calc {
        Sends(a + b);
        { assert a + b == (a + init) + [x]; }
        Sends((a + init) + [x]);
        { SendsAppend(a + init, x); }
        Sends(a + init) + OneSend(x);
        { SendsConcat(a, init); }
        (Sends(a) + Sends(init)) + OneSend(x);
        { Regroup(Sends(a), Sends(init), OneSend(x)); }
        Sends(a) + Sends(b);
      }
    }
  }

  lemma NoSends(t: seq<Action>)
    requires forall i :: 0 <= i < |t| ==> !t[i].Send?
    ensures Sends(t) == []
  {
  }

  lemma {:induction false} AllSends(t: seq<Action>)
    requires forall i :: 0 <= i < |t| ==> t[i].Send?
    ensures Sends(t) == t
  {
    if t != [] {
      AllSends(t[..|t| - 1]);
      assert t == t[..|t| - 1] + [t[|t| - 1]];
    }
  }

  lemma {:induction false} ContactsAreSends(env: Env, e: RequestEvent, r: Rendered, answers: seq<Reply>, n: nat)
    requires n <= |answers| == |Plan(env, e)|
    ensures forall i :: 0 <= i < |Contacts(env, e, r, answers, n)| ==> Contacts(env, e, r, answers, n)[i].Send?
  {
    if n > 0 {
      ContactsAreSends(env, e, r, answers, n - 1);
    }
  }

  lemma SendsBetween(head: seq<Action>, t: seq<Action>, tail: seq<Action>)
    requires (forall i :: 0 <= i < |head| ==> !head[i].Send?) && (forall i :: 0 <= i < |tail| ==> !tail[i].Send?)
    ensures Sends(head + t + tail) == Sends(t)
  {
    SendsConcat(head + t, tail);
    SendsConcat(head, t);
    NoSends(head);
    NoSends(tail);
  }

  lemma DeliveredSends(env: Env, e: RequestEvent, t: seq<Action>, v: Verdict, r: Rendered, answers: seq<Reply>, k: nat)
    requires Delivered(env, e, t, v, r, answers, k)
    ensures Sends(t) == Contacts(env, e, r, answers, Min(k + 1, |answers|))
  {
    var n := Min(k + 1, |answers|);
    ContactsAreSends(env, e, r, answers, n);
    AllSends(Contacts(env, e, r, answers, n));
    SendsBetween([Lookup(false), Render(Some(r))], Contacts(env, e, r, answers, n),
                 if v.status == SENT && env.hasStore then [Mark(e.eventId)] else []);
  }

  /** The plan position behind the `i`-th of the sends for `n` positions. */
  lemma {:induction false} PositionOfSend(env: Env, e: RequestEvent, r: Rendered, answers: seq<Reply>, n: nat, i: nat)
    returns (j: nat)
    requires n <= |answers| == |Plan(env, e)| && i < |Contacts(env, e, r, answers, n)|
    ensures j < n && EntryOf(env, e, Plan(env, e)[j]).Asked?
    ensures Contacts(env, e, r, answers, n)[i] == Ask(env, e, r, Plan(env, e)[j], answers[j])
    ensures j == n - 1 ==> i + 1 == |Contacts(env, e, r, answers, n)|
    ensures i + 1 == |Contacts(env, e, r, answers, n)| ==>
              forall m :: j < m < n ==> !EntryOf(env, e, Plan(env, e)[m]).Asked?
  {
    if i == |Contacts(env, e, r, answers, n - 1)| {
      j := n - 1;
    } else {
      j := PositionOfSend(env, e, r, answers, n - 1, i);
    }
  }

  lemma SendDecides(env: Env, e: RequestEvent, t: seq<Action>, v: Verdict, r: Rendered, answers: seq<Reply>,
                    k: nat, i: nat)
    requires Delivered(env, e, t, v, r, answers, k) && i < |Sends(t)|
    ensures Sends(t)[i].reply.status != UNDELIVERABLE ==> i + 1 == |Sends(t)|
    ensures Sends(t)[i].reply.status == UNDELIVERABLE && i + 1 == |Sends(t)| ==>
              StopsAt(env, e, 0) <= k || k == |answers|
  {
    DeliveredSends(env, e, t, v, r, answers, k);
    var n := Min(k + 1, |answers|);
    var j := PositionOfSend(env, e, r, answers, n, i);
    if Sends(t)[i].reply.status != UNDELIVERABLE {
      assert Decisive(env, e, Plan(env, e)[j], answers[j]);
    } else if i + 1 == |Sends(t)| && k < |answers| {
      assert EntryOf(env, e, Plan(env, e)[k]).Asked? ==> j == k;
      assert Decisive(env, e, Plan(env, e)[k], Reply(UNDELIVERABLE, ""));
    }
  }

  /** In every run: a provider's answer ends the asking unless it is `undeliverable`; after that answer the
      next askable provider is asked, if there is one. */
  lemma UndeliverableLeadsOn(env: Env, e: RequestEvent, seen: set<string>, t: seq<Action>, v: Verdict,
                             seen': set<string>, i: nat)
    requires Decided(env, e, seen, t, v, seen') && i < |Sends(t)|
    ensures Sends(t)[i].reply.status != UNDELIVERABLE ==> i + 1 == |Sends(t)|
    ensures Sends(t)[i].reply.status == UNDELIVERABLE && i + 1 < |Askable(env, e)| ==>
              i + 1 < |Sends(t)| && Sends(t)[i + 1].name == Askable(env, e)[i + 1]
  {
    DecidedNames(env, e, seen, t, v, seen');
    SendsHaveNames(t);
    if r, answers, k: nat :| Delivered(env, e, t, v, r, answers, k) {
      SendDecides(env, e, t, v, r, answers, k, i);
      if Sends(t)[i].reply.status == UNDELIVERABLE && i + 1 == |Sends(t)| {
        DeliveredNames(env, e, t, v, r, answers, k);
        AskedPrefix(env, e, Min(StopsAt(env, e, 0) + 1, |answers|), Min(k + 1, |answers|));
      }
    } else {
      QuietNames(t);
    }
  }

  /** A provider is asked after another one answered `undeliverable`. */
  ghost predicate GoesOn(t: seq<Action>) {
    exists i: nat :: i + 1 < |Sends(t)| && Sends(t)[i].reply.status == UNDELIVERABLE
  }

  /** The documentation says that the next provider is tried after `undeliverable` if fallback is
      enabled.  No run of a fresh request goes on against the flag exactly when the flag is set or at most one
      provider can be asked at all: without a selected provider the flag is not consulted. */
  lemma FallbackFlagObeyedExactly(env: Env, e: RequestEvent, seen: set<string>)
    requires !(env.hasStore && e.eventId in seen)
    ensures (forall t, v, seen' :: Decided(env, e, seen, t, v, seen') && GoesOn(t) ==> e.delivery.allowFallback)
            <==> e.delivery.allowFallback || |Askable(env, e)| <= 1
  {
    if |Askable(env, e)| <= 1 {
      forall t, v, seen' | Decided(env, e, seen, t, v, seen') ensures !GoesOn(t) {
        DecidedNames(env, e, seen, t, v, seen');
        SendsHaveNames(t);
      }
    } else {
      var t, v := AllAskableCanBeAsked(env, e, seen);
      SendsHaveNames(t);
      UndeliverableLeadsOn(env, e, seen, t, v, seen, 0);
      assert GoesOn(t);
    }
  }

  /** With the flag set, every provider of the plan that may be asked can be, up to an entry that is refused;
      so `undeliverable` leads to the next of them. */
  lemma FallbackReachesAll(env: Env, e: RequestEvent)
    requires e.delivery.allowFallback
    ensures var stop := StopsAt(env, e, 0);
            && Askable(env, e) == AskedNames(env, e, stop)
            && (forall j :: 0 <= j < stop ==> !EntryOf(env, e, Plan(env, e)[j]).Refused?)
            && (stop < |Plan(env, e)| ==> EntryOf(env, e, Plan(env, e)[stop]).Refused?)
  {
    var stop := StopsAt(env, e, 0);
    if stop < |Plan(env, e)| {
      assert AskedNames(env, e, stop) + [] == AskedNames(env, e, stop);
    }
  }

  // ----- Two requests that are not handled as documented ----------------------------------------

  /** E-mail may use the two providers, and both are registered. */
  function TwoProviders(x: string, y: string): Env {
    Env(Config(ChannelConfig(true, x, [x, y], map[]), PhoneConfig([], [], map[]), NO_ADAPTERS, NO_ADAPTERS,
               NO_PRESENTATION),
        map[x := Fake(x, UNDELIVERABLE), y := Fake(y, UNDELIVERABLE)], true, true)
  }

  /** A request that names a chain and nothing else, without fallback. */
  function ChainRequest(chain: seq<string>): RequestEvent {
    RequestEvent("1.0", "id", DELIVERY_REQUESTED, "", "welcome", "", EMAIL, "x@example.org", map[], 0, 0,
                 DeliveryPolicy("", chain, false), map[])
  }

  lemma TwoAskable(x: string, y: string)
    requires x != "" && y != ""
    ensures var env, e := TwoProviders(x, y), ChainRequest([x, y]);
            Plan(env, e) == [x, y] && EntryOf(env, e, x).Asked? && EntryOf(env, e, y).Asked?
  {
  }

  lemma BothAskable(env: Env, e: RequestEvent, x: string, y: string)
    requires Plan(env, e) == [x, y] && EntryOf(env, e, x).Asked? && EntryOf(env, e, y).Asked?
    requires e.delivery.selectedProvider != x && e.delivery.selectedProvider != y
    ensures Askable(env, e) == [x, y]
  {
    assert StopsAt(env, e, 0) == 2;
    assert AskedNames(env, e, 0) == [];
    assert AskedNames(env, e, 1) == [x];
  }

  lemma TwoAreAsked(x: string, y: string) returns (t: seq<Action>, v: Verdict)
    requires x != "" && y != ""
    ensures Validate(ChainRequest([x, y])).None?
    ensures Decided(TwoProviders(x, y), ChainRequest([x, y]), {}, t, v, {}) && Names(t) == [x, y]
  {
    TwoAskable(x, y);
    BothAskable(TwoProviders(x, y), ChainRequest([x, y]), x, y);
    t, v := AllAskableCanBeAsked(TwoProviders(x, y), ChainRequest([x, y]), {});
  }

  /** The chain `a`, `a`: one provider is asked twice. */
  lemma AskedTwice() returns (t: seq<Action>, v: Verdict)
    ensures Validate(ChainRequest(["a", "a"])).None?
    ensures Decided(TwoProviders("a", "a"), ChainRequest(["a", "a"]), {}, t, v, {}) && Names(t) == ["a", "a"]
  {
    t, v := TwoAreAsked("a", "a");
  }

  /** The chain `a`, `b` without fallback: the second is asked after the first. */
  lemma AskedWithoutFallback() returns (t: seq<Action>, v: Verdict)
    ensures Validate(ChainRequest(["a", "b"])).None? && !ChainRequest(["a", "b"]).delivery.allowFallback
    ensures Decided(TwoProviders("a", "b"), ChainRequest(["a", "b"]), {}, t, v, {}) && Names(t) == ["a", "b"]
  {
    t, v := TwoAreAsked("a", "b");
  }

  // ----- Channel by channel ---------------------------------------------------------------------

  /** The allow-list that decides for a channel. */
  predicate AllowedOnChannel(cfg: Config, recipientType: string, name: string) {
    || (recipientType == "email" && name in cfg.email.allowedProviders)
    || (recipientType == "phone" && name in cfg.phone.allowedProviders)
    || (recipientType == "push" && name in cfg.push.allowedProviders)
    || (recipientType == "telegram" && name in cfg.telegram.allowedProviders)
  }

  /** A plan entry is asked exactly if it is registered and on the list of the request's own channel. */
  lemma AskedExactly(env: Env, e: RequestEvent, name: string)
    ensures EntryOf(env, e, name).Asked? <==> name in env.registry && AllowedOnChannel(env.cfg, e.recipientType, name)
  {
  }

  /** In every run, each provider that is called is on that list, and is the one registered under its name. */
  lemma {:induction false} OnlyAllowedAreCalled(env: Env, e: RequestEvent, seen: set<string>, t: seq<Action>)
    requires Run(env, e, State(Start, seen), t).Some?
    ensures var s := Run(env, e, State(Start, seen), t).value;
            s.pc.Sending? ==> s.pc.index < |Plan(env, e)| && EntryOf(env, e, Plan(env, e)[s.pc.index]).Asked?
    ensures forall i :: 0 <= i < |t| && t[i].Send? ==>
              && AllowedOnChannel(env.cfg, e.recipientType, t[i].name)
              && t[i].name in env.registry && t[i].provider == env.registry[t[i].name]
  {
    if t != [] {
      var init, a := t[..|t| - 1], t[|t| - 1];
      OnlyAllowedAreCalled(env, e, seen, init);
      StepIsAllowed(env, e, Run(env, e, State(Start, seen), init).value, a);
      assert t == init + [a];
    }
  }

  lemma StepIsAllowed(env: Env, e: RequestEvent, s: State, a: Action)
    requires After(env, e, s, a).Some?
    requires s.pc.Sending? ==> s.pc.index < |Plan(env, e)| && EntryOf(env, e, Plan(env, e)[s.pc.index]).Asked?
    ensures var s' := After(env, e, s, a).value;
            s'.pc.Sending? ==> s'.pc.index < |Plan(env, e)| && EntryOf(env, e, Plan(env, e)[s'.pc.index]).Asked?
    ensures a.Send? ==>
              && AllowedOnChannel(env.cfg, e.recipientType, a.name)
              && a.name in env.registry && a.provider == env.registry[a.name]
  {
    if a.Send? {
      AskedExactly(env, e, a.name);
    }
  }

  /** The plan of a request without a selected provider: its chain as it stands, or its channel's default. */
  lemma PlanWithoutSelection(env: Env, e: RequestEvent)
    requires e.delivery.selectedProvider == ""
    ensures e.delivery.providerChain != [] ==> Plan(env, e) == e.delivery.providerChain
    ensures e.delivery.providerChain == [] ==>
              && (e.recipientType == "email" ==> Plan(env, e) == [env.cfg.email.defaultProvider])
              && (e.recipientType == "phone" ==> Plan(env, e) == env.cfg.phone.defaultProviderChain)
              && (e.recipientType == "push" ==> Plan(env, e) == [env.cfg.push.defaultProvider])
              && (e.recipientType == "telegram" ==> Plan(env, e) == [env.cfg.telegram.defaultProvider])
  {
  }

  /** The plan of a request with a selected provider: that one first; without fallback nothing else, with
      fallback also exactly the nonempty names of its chain and of its channel's default. */
  lemma PlanWithSelection(env: Env, e: RequestEvent, name: string)
    requires e.delivery.selectedProvider != ""
    ensures Plan(env, e) != [] && Plan(env, e)[0] == e.delivery.selectedProvider
    ensures !e.delivery.allowFallback ==> Plan(env, e) == [e.delivery.selectedProvider]
    ensures e.delivery.allowFallback ==>
              (name in Plan(env, e) <==>
                 || name == e.delivery.selectedProvider
                 || (name != "" && (|| name in e.delivery.providerChain
                                    || (e.recipientType == "email" && name == env.cfg.email.defaultProvider)
                                    || (e.recipientType == "phone" && name in env.cfg.phone.defaultProviderChain)
                                    || (e.recipientType == "push" && name == env.cfg.push.defaultProvider)
                                    || (e.recipientType == "telegram" && name == env.cfg.telegram.defaultProvider))))
  {
    SelectedLeads(env, e);
    if e.delivery.allowFallback {
      var names := [e.delivery.selectedProvider] + e.delivery.providerChain
                   + DefaultProviderChain(env.cfg, e.recipientType);
      DeduplicatedListsFirstOccurrences(Nonempty(names));
      NonemptyHolds(names, name);
    }
  }

  lemma {:induction false} NonemptyHolds(s: seq<string>, x: string)
    ensures x in Nonempty(s) <==> x in s && x != ""
  {
    if s != [] {
      NonemptyHolds(s[..|s| - 1], x);
      assert s == s[..|s| - 1] + [s[|s| - 1]];
    }
  }
}
