/** The objects of one process: the idempotency store, the outside world, and the orchestrator. */
module Orchestrator {
  import opened Wrappers
  import opened Config
  import opened Events
  import opened Providers
  import opened Templates
  import opened Handler
  import opened Ledger

  class MemoryIdempotencyStore {
    var seen: set<string>

    constructor ()
      ensures seen == {}
    {
      seen := {};
    }

    function Seen(eventId: string): bool
      reads this
    {
      eventId in seen
    }

    method Mark(eventId: string)
      modifies this
      ensures seen == old(seen) + {eventId}
    {
      seen := seen + {eventId};
    }
  }

  /** Providers and the result publisher, as seen from the process: they answer as they like, and the
      log keeps what was asked and answered. */
  class World {
    ghost var log: seq<Action>

    constructor ()
      ensures log == []
    {
      log := [];
    }

    /** The log keeps the provider that was called, and the plan's name for it. */
    method Send(p: Provider, ghost planned: string, message: Message) returns (reply: Reply)
      modifies this
      ensures log == old(log) + [Action.Send(planned, p, message, reply)]
    {
      reply := *;
      log := log + [Action.Send(planned, p, message, reply)];
    }

    method PublishResult(result: ResultEvent) returns (ok: bool)
      modifies this
      ensures log == old(log) + [Action.Publish(result, ok)]
    {
      ok := *;
      log := log + [Action.Publish(result, ok)];
    }

    ghost method Record(a: Action)
      modifies this
      ensures log == old(log) + [a]
    {
      log := log + [a];
    }
  }

  datatype HandleError = NilRequest | PublishFailed

  class Orchestrator {
    const cfg: Config
    const templates: TemplatesConfig
    const files: Files
    const hasPublisher: bool
    const registry: Registry
    const seen: MemoryIdempotencyStore?
    const world: World

    constructor (cfg: Config, templates: TemplatesConfig, files: Files, registry: Registry,
                 world: World, hasPublisher: bool, seen: MemoryIdempotencyStore?)
      ensures this.cfg == cfg && this.templates == templates && this.files == files
      ensures this.registry == registry && this.world == world
      ensures this.hasPublisher == hasPublisher && this.seen == seen
    {
      this.cfg, this.templates, this.files := cfg, templates, files;
      this.registry, this.world := registry, world;
      this.hasPublisher, this.seen := hasPublisher, seen;
    }

    ghost function Environment(): Env
      reads registry
    {
      Env(cfg, registry.providers, seen != null, hasPublisher)
    }

    ghost function Remembered(): set<string>
      reads if seen != null then {seen} else {}
    {
      if seen != null then seen.seen else {}
    }

    /** The renderings of a request that the templates allow. */
    ghost function Renderings(e: RequestEvent): iset<Option<Rendered>> {
      iset rendered: Option<Rendered> | RendersAs(templates, files, e, rendered)
    }

    /** The call that began with log `log0` and memory `seen0` stands at `pc`. */
    ghost predicate At(e: RequestEvent, log0: seq<Action>, seen0: set<string>, pc: Pc)
      reads world, registry, if seen != null then {seen} else {}
    {
      Reached(Environment(), Renderings(e), e, log0, seen0, world.log, State(pc, Remembered()))
    }

    /** Handle performs a run of the handler machine, publishes its verdict once, at the end, and returns
        that result; the templates are rendered as the renderer may. */
    method Handle(request: Option<RequestEvent>) returns (result: Result<ResultEvent, HandleError>)
      modifies world, if seen != null then {seen} else {}
      ensures request.None? ==>
                result == Err(NilRequest) && world.log == old(world.log) && Remembered() == old(Remembered())
      ensures request.Some? ==>
                Handled(Environment(), Renderings(request.value), request.value, old(world.log), old(Remembered()),
                        world.log, Remembered(), result)
      ensures seen != null && hasPublisher && Settled(old(world.log), old(Remembered())) ==>
                Settled(world.log, Remembered())
    {
      if request.None? {
        return Err(NilRequest);
      }
      var e := request.value;
      ghost var log0, seen0, env := world.log, Remembered(), Environment();
      var hit := seen != null && seen.Seen(e.eventId);
      Begin(env, Renderings(e), e, log0, seen0);
      Extend(env, Renderings(e), e, log0, seen0, world.log, State(Start, seen0), Action.Lookup(hit));
      world.Record(Action.Lookup(hit));
      if hit {
        result := Publish(e, DUPLICATE, log0, seen0);
        return;
      }
      var plan := ProviderPlan(e, DefaultProviderChain(cfg, e.recipientType));
      if |plan| == 0 {
        result := Publish(e, CHAIN_EMPTY, log0, seen0);
        return;
      }
      var rendered := RenderTemplate(e);
      Extend(env, Renderings(e), e, log0, seen0, world.log, State(Rendering, seen0), Action.Render(rendered));
      world.Record(Action.Render(rendered));
      if rendered.None? {
        result := Publish(e, TEMPLATE_ERROR, log0, seen0);
        return;
      }
      var v := TryProviders(e, plan, rendered.value, log0, seen0);
      result := Publish(e, v, log0, seen0);
    }

    method RenderTemplate(e: RequestEvent) returns (rendered: Option<Rendered>)
      ensures rendered in Renderings(e)
    {
      var r := Templates.Render(templates, files, e.template, Strings.Lookup(e.metadata, "locale"), e.variables);
      rendered := match r { case Ok(x) => Some(x) case Err(_) => None };
    }

    /** The loop over the plan, up to the verdict that is then published. */
    method TryProviders(e: RequestEvent, plan: seq<string>, r: Rendered,
                        ghost log0: seq<Action>, ghost seen0: set<string>)
      returns (v: Verdict)
      requires plan == Plan(Environment(), e) && At(e, log0, seen0, Advance(Environment(), e, r, 0))
      modifies world, if seen != null then {seen} else {}
      ensures At(e, log0, seen0, Publishing(v))
    {
      for idx := 0 to |plan|
        invariant At(e, log0, seen0, Advance(Environment(), e, r, idx))
      {
        var decided := TryProvider(e, idx, plan[idx], r, log0, seen0);
        if decided.Some? {
          return decided.value;
        }
      }
      return Verdict("", |plan|, UNDELIVERABLE, "all_providers_undeliverable");
    }

    /** One turn of the loop: a verdict, or nothing if the next provider is to be tried. */
    method TryProvider(e: RequestEvent, idx: nat, name: string, r: Rendered,
                       ghost log0: seq<Action>, ghost seen0: set<string>)
      returns (decided: Option<Verdict>)
      requires idx < |Plan(Environment(), e)| && name == Plan(Environment(), e)[idx]
      requires At(e, log0, seen0, Advance(Environment(), e, r, idx))
      modifies world, if seen != null then {seen} else {}
      ensures At(e, log0, seen0,
                 if decided.Some? then Publishing(decided.value) else Advance(Environment(), e, r, idx + 1))
    {
      var entry, sender := FindProvider(e, name);
      match entry
      case Skipped => decided := None;
      case Refused(code) => decided := Some(Verdict(name, idx + 1, FAILED, code));
      case Asked => decided := Consult(e, idx, name, sender.value, r, log0, seen0);
    }

    /** The allow-list and the registry: the provider to ask, if this entry is to be asked. */
    method FindProvider(e: RequestEvent, name: string) returns (entry: Entry, sender: Option<Provider>)
      ensures entry == EntryOf(Environment(), e, name)
      ensures entry.Asked? ==> sender == Some(registry.providers[name])
    {
      var selected := e.delivery.selectedProvider == name;
      var allowed := AllowedProvider(cfg, e.recipientType, name);
      if !allowed {
        return if selected then Refused("provider_not_allowed") else Skipped, None;
      }
      sender := registry.Get(name);
      if sender.None? {
        return if selected then Refused(PROVIDER_NOT_FOUND) else Skipped, None;
      }
      return Asked, sender;
    }

    /** Asking a provider, and what its answer means. */
    method Consult(e: RequestEvent, idx: nat, name: string, p: Provider, r: Rendered,
                   ghost log0: seq<Action>, ghost seen0: set<string>)
      returns (decided: Option<Verdict>)
      requires idx < |Plan(Environment(), e)| && IsPlanned(Environment(), e, idx, name, p)
      requires At(e, log0, seen0, Sending(r, idx))
      modifies world, if seen != null then {seen} else {}
      ensures At(e, log0, seen0,
                 if decided.Some? then Publishing(decided.value) else Advance(Environment(), e, r, idx + 1))
    {
      var reply := Ask(e, idx, name, p, r, log0, seen0);
      if reply.status == SENT {
        if seen != null {
          MarkSeen(e, idx, log0, seen0);
        }
        decided := Some(Verdict(name, idx + 1, SENT, ""));
      } else if reply.status == UNDELIVERABLE {
        if e.delivery.selectedProvider == name && !e.delivery.allowFallback {
          decided := Some(Verdict(name, idx + 1, UNDELIVERABLE, reply.errorCode));
        } else {
          decided := None;
        }
      } else {
        decided := Some(Verdict(name, idx + 1, FAILED, reply.errorCode));
      }
    }

    method Ask(e: RequestEvent, idx: nat, name: string, p: Provider, r: Rendered,
               ghost log0: seq<Action>, ghost seen0: set<string>)
      returns (reply: Reply)
      requires idx < |Plan(Environment(), e)| && IsPlanned(Environment(), e, idx, name, p)
      requires At(e, log0, seen0, Sending(r, idx))
      modifies world
      ensures At(e, log0, seen0, Answered(Environment(), e, r, idx, reply))
    {
      ghost var before := world.log;
      var message := MessageFor(e, r);
      reply := world.Send(p, name, message);
      Extend(Environment(), Renderings(e), e, log0, seen0, before, State(Sending(r, idx), Remembered()),
             Action.Send(name, p, message, reply));
    }

    method MarkSeen(e: RequestEvent, ghost idx: nat, ghost log0: seq<Action>, ghost seen0: set<string>)
      requires seen != null && idx < |Plan(Environment(), e)|
      requires At(e, log0, seen0, Marking(idx))
      modifies world, seen
      ensures At(e, log0, seen0, Publishing(Verdict(Plan(Environment(), e)[idx], idx + 1, SENT, "")))
    {
      ghost var env, before, was := Environment(), world.log, Remembered();
      Extend(env, Renderings(e), e, log0, seen0, before, State(Marking(idx), was), Action.Mark(e.eventId));
      seen.Mark(e.eventId);
      world.Record(Action.Mark(e.eventId));
      assert Environment() == env && Remembered() == was + {e.eventId};
    }

    /** publish: build the result, hand it to the publisher if there is one, and return it. */
    method Publish(e: RequestEvent, v: Verdict, ghost log0: seq<Action>, ghost seen0: set<string>)
      returns (result: Result<ResultEvent, HandleError>)
      requires At(e, log0, seen0, Publishing(v))
      modifies world
      ensures Handled(Environment(), Renderings(e), e, log0, seen0, world.log, Remembered(), result)
      ensures seen != null && hasPublisher && Settled(log0, seen0) ==> Settled(world.log, Remembered())
    {
      ghost var before := world.log;
      var eventId: string := *;
      var createdAt: int := *;
      var event := ResultEvent(e.version, eventId, DELIVERY_RESULT, e.eventId, v.status, e.recipientType,
                               e.recipient, v.provider, v.attempt, v.errorCode, createdAt);
      var ok := true;
      if hasPublisher {
        ok := world.PublishResult(event);
      } else {
        world.Record(Action.Discard(event));
      }
      result := if ok then Ok(event) else Err(PublishFailed);
      CallEnds(Environment(), Renderings(e), e, log0, seen0, before, Remembered(), v, event, ok, world.log);
    }
  }

  /** `log` continues `log0` by a run of the machine that reaches `s`, with admissible renderings. */
  ghost predicate Reached(env: Env, renderings: iset<Option<Rendered>>, e: RequestEvent,
                          log0: seq<Action>, seen0: set<string>, log: seq<Action>, s: State)
  {
    && log0 <= log
    && Run(env, e, State(Start, seen0), log[|log0|..]) == Some(s)
    && forall i :: |log0| <= i < |log| && log[i].Render? ==> log[i].rendered in renderings
  }

  lemma Begin(env: Env, renderings: iset<Option<Rendered>>, e: RequestEvent, log0: seq<Action>, seen0: set<string>)
    ensures Reached(env, renderings, e, log0, seen0, log0, State(Start, seen0))
  {
    assert log0[|log0|..] == [];
  }

  lemma Extend(env: Env, renderings: iset<Option<Rendered>>, e: RequestEvent,
               log0: seq<Action>, seen0: set<string>, log: seq<Action>, s: State, a: Action)
    requires Reached(env, renderings, e, log0, seen0, log, s)
    requires After(env, e, s, a).Some?
    requires a.Render? ==> a.rendered in renderings
    ensures Reached(env, renderings, e, log0, seen0, log + [a], After(env, e, s, a).value)
  {
    RunAppend(env, e, State(Start, seen0), log[|log0|..], a);
    assert (log + [a])[|log0|..] == log[|log0|..] + [a];
  }

  lemma CallEnds(env: Env, renderings: iset<Option<Rendered>>, e: RequestEvent, log0: seq<Action>,
                 seen0: set<string>, log: seq<Action>, seen: set<string>, v: Verdict, event: ResultEvent,
                 ok: bool, log': seq<Action>)
    requires Reached(env, renderings, e, log0, seen0, log, State(Publishing(v), seen))
    requires Carries(event, e, v) && (!env.hasPublisher ==> ok)
    requires log' == log + [if env.hasPublisher then Action.Publish(event, ok) else Action.Discard(event)]
    ensures Handled(env, renderings, e, log0, seen0, log', seen, if ok then Ok(event) else Err(PublishFailed))
    ensures env.hasStore && env.hasPublisher && Settled(log0, seen0) ==> Settled(log', seen)
  {
    var last := if env.hasPublisher then Action.Publish(event, ok) else Action.Discard(event);
    Extend(env, renderings, e, log0, seen0, log, State(Publishing(v), seen), last);
    var t := log'[|log0|..];
    assert t == log[|log0|..] + [last] && t[..|t| - 1] == log[|log0|..];
    DecidesExactly(env, e, seen0, t[..|t| - 1], v, seen);
    assert HandledAs(env, e, seen0, t, seen, if ok then Ok(event) else Err(PublishFailed), v, ok);
    if env.hasStore && env.hasPublisher && Settled(log0, seen0) {
      CallKeepsBooks(env, e, log0, seen0, t, State(Returned(v, ok), seen));
      assert log' == log0 + t;
    }
  }

  /** A complete call: the new actions decide a verdict as specified and end with its one publication,
      and the call returns that result, or the publisher's failure. */
  ghost predicate Handled(env: Env, renderings: iset<Option<Rendered>>, e: RequestEvent,
                          log0: seq<Action>, seen0: set<string>, log: seq<Action>, seen: set<string>,
                          result: Result<ResultEvent, HandleError>)
  {
    exists v: Verdict, ok: bool ::
      && Reached(env, renderings, e, log0, seen0, log, State(Returned(v, ok), seen))
      && HandledAs(env, e, seen0, log[|log0|..], seen, result, v, ok)
  }

  ghost predicate HandledAs(env: Env, e: RequestEvent, seen0: set<string>, t: seq<Action>, seen: set<string>,
                            result: Result<ResultEvent, HandleError>, v: Verdict, ok: bool)
  {
    && t != []
    && Decided(env, e, seen0, t[..|t| - 1], v, seen)
    && Concludes(env, e, v, ok, t[|t| - 1])
    && result == if ok then Ok(t[|t| - 1].result) else Err(PublishFailed)
  }

  /** The results the renderer may give for a request. */
  ghost predicate RendersAs(templates: TemplatesConfig, files: Files, e: RequestEvent, rendered: Option<Rendered>) {
    exists r :: MayRender(templates, files, e.template, Strings.Lookup(e.metadata, "locale"), e.variables, r)
                && rendered == (match r { case Ok(x) => Some(x) case Err(_) => None })
  }
}
