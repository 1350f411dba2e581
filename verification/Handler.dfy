/** Handling one request, as a small-step machine over the actions it performs on the outside world.
    The orchestrator's method refines it, and the system of processes interleaves it. */
module Handler {
  import opened Wrappers
  import opened Strings
  import opened Config
  import opened Events
  import opened Providers
  import opened Templates

  /** What stays fixed while a process runs.  The store and the publisher may be absent. */
  datatype Env = Env(cfg: Config, registry: map<string, Provider>, hasStore: bool, hasPublisher: bool)

  datatype Verdict = Verdict(provider: string, attempt: nat, status: string, errorCode: string)

  datatype Action =
    | Lookup(hit: bool)
    | Render(rendered: Option<Rendered>)
    | Send(name: string, provider: Provider, message: Message, reply: Reply)
    | Mark(eventId: string)
    | Publish(result: ResultEvent, ok: bool)
    | Discard(result: ResultEvent)

  /** Where the handler stands. */
  datatype Pc =
    | Start
    | Rendering
    | Sending(rendered: Rendered, index: nat)
    | Marking(index: nat)
    | Publishing(verdict: Verdict)
    | Returned(verdict: Verdict, ok: bool)

  /** The handler's position and the ids the process remembers. */
  datatype State = State(pc: Pc, seen: set<string>)

  const DUPLICATE := Verdict("", 0, SENT, "duplicate_ignored")
  const CHAIN_EMPTY := Verdict("", 0, FAILED, "provider_chain_empty")
  const TEMPLATE_ERROR := Verdict("", 0, FAILED, "template_error")

  function Plan(env: Env, e: RequestEvent): seq<string> {
    PlanOf(e.delivery, DefaultProviderChain(env.cfg, e.recipientType))
  }

  function Exhausted(env: Env, e: RequestEvent): Verdict {
    Verdict("", |Plan(env, e)|, UNDELIVERABLE, "all_providers_undeliverable")
  }

  function MessageFor(e: RequestEvent, r: Rendered): Message {
    Message(e.eventId, e.template, r.subject, r.body, r.contentType, e.recipientType, e.recipient,
            e.variables, e.metadata)
  }

  /** The result carries the verdict and the request's identity. */
  predicate Carries(result: ResultEvent, e: RequestEvent, v: Verdict) {
    result == ResultEvent(e.version, result.eventId, DELIVERY_RESULT, e.eventId, v.status, e.recipientType,
                          e.recipient, v.provider, v.attempt, v.errorCode, result.createdAt)
  }

  /** What becomes of a plan entry before any provider is asked. */
  datatype Entry = Skipped | Refused(errorCode: string) | Asked

  function EntryOf(env: Env, e: RequestEvent, name: string): Entry {
    if !Allowed(env.cfg, e.recipientType, name) then
      if e.delivery.selectedProvider == name then Refused("provider_not_allowed") else Skipped
    else if name !in env.registry then
      if e.delivery.selectedProvider == name then Refused(PROVIDER_NOT_FOUND) else Skipped
    else Asked
  }

  /** From the head of the loop at index `i` to the next point where something happens. */
  function Advance(env: Env, e: RequestEvent, r: Rendered, i: nat): (pc: Pc)
    requires i <= |Plan(env, e)|
    ensures if pc.Sending? then
              i <= pc.index < |Plan(env, e)| && EntryOf(env, e, Plan(env, e)[pc.index]).Asked? && pc.rendered == r
            else pc.Publishing?
    decreases |Plan(env, e)| - i
  {
    var plan := Plan(env, e);
    if i == |plan| then Publishing(Exhausted(env, e))
    else
      match EntryOf(env, e, plan[i])
      case Skipped => Advance(env, e, r, i + 1)
      case Refused(code) => Publishing(Verdict(plan[i], i + 1, FAILED, code))
      case Asked => Sending(r, i)
  }

  /** Where the answer of the provider at `i` leads. */
  function Answered(env: Env, e: RequestEvent, r: Rendered, i: nat, reply: Reply): Pc
    requires i < |Plan(env, e)|
  {
    var name := Plan(env, e)[i];
    if reply.status == SENT then
      if env.hasStore then Marking(i) else Publishing(Verdict(name, i + 1, SENT, ""))
    else if reply.status == UNDELIVERABLE then
      if e.delivery.selectedProvider == name && !e.delivery.allowFallback then
        Publishing(Verdict(name, i + 1, UNDELIVERABLE, reply.errorCode))
      else Advance(env, e, r, i + 1)
    else Publishing(Verdict(name, i + 1, FAILED, reply.errorCode))
  }

  /** The provider that stands in the registry under the name at position `i` of the plan. */
  predicate IsPlanned(env: Env, e: RequestEvent, i: nat, name: string, provider: Provider)
    requires i < |Plan(env, e)|
  {
    name == Plan(env, e)[i] && name in env.registry && provider == env.registry[name]
  }

  /** The step an action makes; None if the handler does not perform it here. */
  function After(env: Env, e: RequestEvent, s: State, a: Action): Option<State> {
    match (s.pc, a)
    case (Start, Lookup(hit)) =>
      if hit != (env.hasStore && e.eventId in s.seen) then None
      else if hit then Some(s.(pc := Publishing(DUPLICATE)))
      else if Plan(env, e) == [] then Some(s.(pc := Publishing(CHAIN_EMPTY)))
      else Some(s.(pc := Rendering))
    case (Rendering, Render(rendered)) =>
      if rendered.None? then Some(s.(pc := Publishing(TEMPLATE_ERROR)))
      else Some(s.(pc := Advance(env, e, rendered.value, 0)))
    case (Sending(r, i), Send(name, provider, message, reply)) =>
      if i >= |Plan(env, e)| || !IsPlanned(env, e, i, name, provider) || message != MessageFor(e, r) then None
      else Some(s.(pc := Answered(env, e, r, i, reply)))
    case (Marking(i), Mark(id)) =>
      if i >= |Plan(env, e)| || id != e.eventId then None
      else Some(State(Publishing(Verdict(Plan(env, e)[i], i + 1, SENT, "")), s.seen + {id}))
    case (Publishing(v), Publish(result, ok)) =>
      if env.hasPublisher && Carries(result, e, v) then Some(s.(pc := Returned(v, ok))) else None
    case (Publishing(v), Discard(result)) =>
      if !env.hasPublisher && Carries(result, e, v) then Some(s.(pc := Returned(v, true))) else None
    case _ => None
  }

  /** The state after a sequence of actions; None if it is not one the handler can perform. */
  function Run(env: Env, e: RequestEvent, s: State, t: seq<Action>): Option<State> {
    if t == [] then Some(s)
    else
      match Run(env, e, s, t[..|t| - 1])
      case None => None
      case Some(mid) => After(env, e, mid, t[|t| - 1])
  }

  lemma RunAppend(env: Env, e: RequestEvent, s: State, t: seq<Action>, a: Action)
    requires Run(env, e, s, t).Some?
    ensures Run(env, e, s, t + [a]) == After(env, e, Run(env, e, s, t).value, a)
  {
    assert (t + [a])[..|t|] == t;
  }

  // ----- The specification: the first decisive plan entry -------------------------------------

  /** The entry ends the request, given what its provider answers if asked. */
  predicate Decisive(env: Env, e: RequestEvent, name: string, answer: Reply) {
    match EntryOf(env, e, name)
    case Skipped => false
    case Refused(_) => true
    case Asked => answer.status != UNDELIVERABLE || (e.delivery.selectedProvider == name && !e.delivery.allowFallback)
  }

  /** The verdict of a decisive entry at position `i` of the plan. */
  function VerdictAt(env: Env, e: RequestEvent, i: nat, name: string, answer: Reply): Verdict {
    match EntryOf(env, e, name)
    case Refused(code) => Verdict(name, i + 1, FAILED, code)
    case _ =>
      if answer.status == SENT then Verdict(name, i + 1, SENT, "")
      else if answer.status == UNDELIVERABLE then Verdict(name, i + 1, UNDELIVERABLE, answer.errorCode)
      else Verdict(name, i + 1, FAILED, answer.errorCode)
  }

  /** Position `k` is the first decisive one; |plan| means that none is. */
  ghost predicate FirstDecisive(env: Env, e: RequestEvent, answers: seq<Reply>, k: nat)
    requires |answers| == |Plan(env, e)|
  {
    && k <= |answers|
    && (forall j :: 0 <= j < k ==> !Decisive(env, e, Plan(env, e)[j], answers[j]))
    && (k < |answers| ==> Decisive(env, e, Plan(env, e)[k], answers[k]))
  }

  function Decision(env: Env, e: RequestEvent, answers: seq<Reply>, k: nat): Verdict
    requires |answers| == |Plan(env, e)|
  {
    if k < |answers| then VerdictAt(env, e, k, Plan(env, e)[k], answers[k]) else Exhausted(env, e)
  }

  /** Asking the provider registered under a name. */
  function Ask(env: Env, e: RequestEvent, r: Rendered, name: string, answer: Reply): Action
    requires name in env.registry
  {
    Send(name, env.registry[name], MessageFor(e, r), answer)
  }

  /** The sends for the first `n` positions: one for each entry that is allowed and registered, in plan
      order, all with the same message. */
  function Contacts(env: Env, e: RequestEvent, r: Rendered, answers: seq<Reply>, n: nat): seq<Action>
    requires n <= |answers| == |Plan(env, e)|
  {
    if n == 0 then []
    else
      var name := Plan(env, e)[n - 1];
      Contacts(env, e, r, answers, n - 1)
      + (if EntryOf(env, e, name).Asked? then [Ask(env, e, r, name, answers[n - 1])] else [])
  }

  function Min(a: nat, b: nat): nat { if a < b then a else b }

  /** The providers are asked up to the first decisive position, and that position decides. */
  ghost predicate Delivered(env: Env, e: RequestEvent, t: seq<Action>, v: Verdict,
                            r: Rendered, answers: seq<Reply>, k: nat)
  {
    && |answers| == |Plan(env, e)|
    && FirstDecisive(env, e, answers, k)
    && v == Decision(env, e, answers, k)
    && t == [Lookup(false), Render(Some(r))]
            + Contacts(env, e, r, answers, Min(k + 1, |answers|))
            + (if v.status == SENT && env.hasStore then [Mark(e.eventId)] else [])
  }

  /** The actions `t` before the result is published, the verdict `v` and the ids remembered then. */
  ghost predicate Decided(env: Env, e: RequestEvent, seen: set<string>, t: seq<Action>, v: Verdict,
                          seen': set<string>)
  {
    if env.hasStore && e.eventId in seen then
      v == DUPLICATE && t == [Lookup(true)] && seen' == seen
    else if Plan(env, e) == [] then
      v == CHAIN_EMPTY && t == [Lookup(false)] && seen' == seen
    else
      || (v == TEMPLATE_ERROR && t == [Lookup(false), Render(None)] && seen' == seen)
      || (&& seen' == seen + (if v.status == SENT && env.hasStore then {e.eventId} else {})
          && exists r, answers, k :: Delivered(env, e, t, v, r, answers, k))
  }

  // ----- The machine meets the specification ----------------------------------------------------

  /** Part of a run at which the provider at `i` is about to be asked. */
  ghost predicate Asking(env: Env, e: RequestEvent, t: seq<Action>, r: Rendered, answers: seq<Reply>, i: nat) {
    && |answers| == |Plan(env, e)| && i <= |answers|
    && (forall j :: 0 <= j < i ==> !Decisive(env, e, Plan(env, e)[j], answers[j]))
    && t == [Lookup(false), Render(Some(r))] + Contacts(env, e, r, answers, i)
  }

  /** Part of a run at which the provider at `i` has reported `sent` and the id is not yet marked. */
  ghost predicate ReportedSent(env: Env, e: RequestEvent, t: seq<Action>, i: nat, r: Rendered, answers: seq<Reply>) {
    && i < |Plan(env, e)|
    && Delivered(env, e, t + [Mark(e.eventId)], Verdict(Plan(env, e)[i], i + 1, SENT, ""), r, answers, i)
  }

  /** What the actions so far look like, by the position reached. */
  ghost predicate Shape(env: Env, e: RequestEvent, seen: set<string>, t: seq<Action>, s: State) {
    var unseen := !(env.hasStore && e.eventId in seen);
    match s.pc
    case Start => t == [] && s.seen == seen
    case Rendering => t == [Lookup(false)] && s.seen == seen && unseen && Plan(env, e) != []
    case Sending(r, i) =>
      && s.seen == seen && unseen && i < |Plan(env, e)| && EntryOf(env, e, Plan(env, e)[i]).Asked?
      && exists answers :: Asking(env, e, t, r, answers, i)
    case Marking(i) =>
      && s.seen == seen && unseen && env.hasStore && i < |Plan(env, e)|
      && exists r, answers :: ReportedSent(env, e, t, i, r, answers)
    case Publishing(v) => Decided(env, e, seen, t, v, s.seen)
    case Returned(v, ok) =>
      && t != []
      && Decided(env, e, seen, t[..|t| - 1], v, s.seen)
      && Concludes(env, e, v, ok, t[|t| - 1])
  }

  /** The last action: one publication of the verdict, or none if there is no publisher. */
  predicate Concludes(env: Env, e: RequestEvent, v: Verdict, ok: bool, a: Action) {
    if env.hasPublisher then a.Publish? && a.ok == ok && Carries(a.result, e, v)
    else a.Discard? && ok && Carries(a.result, e, v)
  }

  lemma {:induction false} ContactsAgree(env: Env, e: RequestEvent, r: Rendered, a: seq<Reply>, b: seq<Reply>, n: nat)
    requires n <= |a| == |b| == |Plan(env, e)|
    requires forall j :: 0 <= j < n ==> a[j] == b[j]
    ensures Contacts(env, e, r, a, n) == Contacts(env, e, r, b, n)
  {
    if n > 0 {
      ContactsAgree(env, e, r, a, b, n - 1);
    }
  }

  /** Leaving the loop, or reaching the next provider to ask, from position `i` on. */
  lemma {:induction false} AdvanceShape(env: Env, e: RequestEvent, seen: set<string>, t: seq<Action>,
                                        r: Rendered, answers: seq<Reply>, i: nat)
    requires !(env.hasStore && e.eventId in seen) && Plan(env, e) != []
    requires Asking(env, e, t, r, answers, i)
    ensures Shape(env, e, seen, t, State(Advance(env, e, r, i), seen))
    decreases |Plan(env, e)| - i
  {
    if i == |Plan(env, e)| {
      ExhaustedShape(env, e, seen, t, r, answers);
    } else {
      match EntryOf(env, e, Plan(env, e)[i])
      case Skipped =>
        SkippedAsking(env, e, t, r, answers, i);
        AdvanceShape(env, e, seen, t, r, answers, i + 1);
      case Refused(code) => RefusedShape(env, e, seen, t, r, answers, i);
      case Asked =>
    }
  }

  lemma ExhaustedShape(env: Env, e: RequestEvent, seen: set<string>, t: seq<Action>, r: Rendered, answers: seq<Reply>)
    requires !(env.hasStore && e.eventId in seen) && Plan(env, e) != []
    requires Asking(env, e, t, r, answers, |Plan(env, e)|)
    ensures Decided(env, e, seen, t, Exhausted(env, e), seen)
  {
    assert t + [] == t && seen + {} == seen;
    assert Delivered(env, e, t, Exhausted(env, e), r, answers, |Plan(env, e)|);
  }

  lemma SkippedAsking(env: Env, e: RequestEvent, t: seq<Action>, r: Rendered, answers: seq<Reply>, i: nat)
    requires i < |Plan(env, e)| && EntryOf(env, e, Plan(env, e)[i]).Skipped? && Asking(env, e, t, r, answers, i)
    ensures Asking(env, e, t, r, answers, i + 1)
  {
    var done := Contacts(env, e, r, answers, i);
    assert done + [] == done;
  }

  lemma RefusedShape(env: Env, e: RequestEvent, seen: set<string>, t: seq<Action>, r: Rendered,
                     answers: seq<Reply>, i: nat)
    requires !(env.hasStore && e.eventId in seen) && Plan(env, e) != []
    requires i < |Plan(env, e)| && EntryOf(env, e, Plan(env, e)[i]).Refused? && Asking(env, e, t, r, answers, i)
    ensures Decided(env, e, seen, t,
                    Verdict(Plan(env, e)[i], i + 1, FAILED, EntryOf(env, e, Plan(env, e)[i]).errorCode), seen)
  {
    var done := Contacts(env, e, r, answers, i);
    assert done + [] == done && t + [] == t && seen + {} == seen;
    assert Delivered(env, e, t, Decision(env, e, answers, i), r, answers, i);
  }

  /** A provider gives a decisive answer. */
  lemma DecisiveShape(env: Env, e: RequestEvent, seen: set<string>, t: seq<Action>, r: Rendered,
                      answers: seq<Reply>, i: nat)
    requires !(env.hasStore && e.eventId in seen) && Plan(env, e) != []
    requires i < |answers| == |Plan(env, e)| && FirstDecisive(env, e, answers, i)
    requires EntryOf(env, e, Plan(env, e)[i]).Asked?
    requires t == [Lookup(false), Render(Some(r))] + Contacts(env, e, r, answers, i + 1)
    ensures Shape(env, e, seen, t, State(Answered(env, e, r, i, answers[i]), seen))
  {
    var v := Decision(env, e, answers, i);
    if v.status == SENT && env.hasStore {
      assert ReportedSent(env, e, t, i, r, answers);
    } else {
      assert t + [] == t && seen + {} == seen;
      assert Delivered(env, e, t, v, r, answers, i);
    }
  }

  /** A provider answers. */
  lemma SendShape(env: Env, e: RequestEvent, seen: set<string>, t: seq<Action>, s: State, a: Action)
    requires s.pc.Sending? && Shape(env, e, seen, t, s) && After(env, e, s, a).Some?
    ensures Shape(env, e, seen, t + [a], After(env, e, s, a).value)
  {
    var r, i := s.pc.rendered, s.pc.index;
    var before :| Asking(env, e, t, r, before, i);
    var answers := before[i := a.reply];
    ContactsAgree(env, e, r, before, answers, i);
    var head, done := [Lookup(false), Render(Some(r))], Contacts(env, e, r, answers, i);
    assert t + [a] == head + (done + [a]);
    if Decisive(env, e, Plan(env, e)[i], a.reply) {
      DecisiveShape(env, e, seen, t + [a], r, answers, i);
    } else {
      assert Asking(env, e, t + [a], r, answers, i + 1);
      AdvanceShape(env, e, seen, t + [a], r, answers, i + 1);
    }
  }

  lemma StartShape(env: Env, e: RequestEvent, seen: set<string>, t: seq<Action>, s: State, a: Action)
    requires s.pc.Start? && Shape(env, e, seen, t, s) && After(env, e, s, a).Some?
    ensures Shape(env, e, seen, t + [a], After(env, e, s, a).value)
  {
    assert t + [a] == [a];
  }

  lemma RenderShape(env: Env, e: RequestEvent, seen: set<string>, t: seq<Action>, s: State, a: Action)
    requires s.pc.Rendering? && Shape(env, e, seen, t, s) && After(env, e, s, a).Some?
    ensures Shape(env, e, seen, t + [a], After(env, e, s, a).value)
  {
    if a.rendered.Some? {
      var answers := seq(|Plan(env, e)|, _ => Reply("", ""));
      var r := a.rendered.value;
      assert t + [a] == [Lookup(false), Render(Some(r))] + Contacts(env, e, r, answers, 0);
      AdvanceShape(env, e, seen, t + [a], r, answers, 0);
    } else {
      assert t + [a] == [Lookup(false), Render(None)];
    }
  }

  lemma MarkShape(env: Env, e: RequestEvent, seen: set<string>, t: seq<Action>, s: State, a: Action)
    requires s.pc.Marking? && Shape(env, e, seen, t, s) && After(env, e, s, a).Some?
    ensures Shape(env, e, seen, t + [a], After(env, e, s, a).value)
  {
    var i := s.pc.index;
    var r, answers :| ReportedSent(env, e, t, i, r, answers);
    assert Delivered(env, e, t + [a], Verdict(Plan(env, e)[i], i + 1, SENT, ""), r, answers, i);
  }

  lemma PublishShape(env: Env, e: RequestEvent, seen: set<string>, t: seq<Action>, s: State, a: Action)
    requires s.pc.Publishing? && Shape(env, e, seen, t, s) && After(env, e, s, a).Some?
    ensures Shape(env, e, seen, t + [a], After(env, e, s, a).value)
  {
    assert (t + [a])[..|t + [a]| - 1] == t;
  }

  lemma StepShape(env: Env, e: RequestEvent, seen: set<string>, t: seq<Action>, s: State, a: Action)
    requires Shape(env, e, seen, t, s) && After(env, e, s, a).Some?
    ensures Shape(env, e, seen, t + [a], After(env, e, s, a).value)
  {
    match s.pc
    case Start => StartShape(env, e, seen, t, s, a);
    case Rendering => RenderShape(env, e, seen, t, s, a);
    case Sending(_, _) => SendShape(env, e, seen, t, s, a);
    case Marking(_) => MarkShape(env, e, seen, t, s, a);
    case Publishing(_) => PublishShape(env, e, seen, t, s, a);
    case Returned(_, _) =>
  }

  lemma {:induction false} ShapeHolds(env: Env, e: RequestEvent, seen: set<string>, t: seq<Action>)
    requires Run(env, e, State(Start, seen), t).Some?
    ensures Shape(env, e, seen, t, Run(env, e, State(Start, seen), t).value)
  {
    if t != [] {
      var init, a := t[..|t| - 1], t[|t| - 1];
      ShapeHolds(env, e, seen, init);
      StepShape(env, e, seen, init, Run(env, e, State(Start, seen), init).value, a);
      assert init + [a] == t;
    }
  }

  // ----- The specification describes nothing else -----------------------------------------------

  /** The actions up to the head of the loop at `i`. */
  function Until(env: Env, e: RequestEvent, r: Rendered, answers: seq<Reply>, i: nat): seq<Action>
    requires i <= |answers| == |Plan(env, e)|
  {
    [Lookup(false), Render(Some(r))] + Contacts(env, e, r, answers, i)
  }

  lemma UntilNext(env: Env, e: RequestEvent, r: Rendered, answers: seq<Reply>, i: nat)
    requires i < |answers| == |Plan(env, e)|
    ensures Until(env, e, r, answers, i + 1)
            == if EntryOf(env, e, Plan(env, e)[i]).Asked? then
                 Until(env, e, r, answers, i) + [Ask(env, e, r, Plan(env, e)[i], answers[i])]
               else Until(env, e, r, answers, i)
  {
    var done := Contacts(env, e, r, answers, i);
    if EntryOf(env, e, Plan(env, e)[i]).Asked? {
      var a := Ask(env, e, r, Plan(env, e)[i], answers[i]);
      assert [Lookup(false), Render(Some(r))] + (done + [a]) == [Lookup(false), Render(Some(r))] + done + [a];
    } else {
      assert done + [] == done;
    }
  }

  lemma RunsToLoop(env: Env, e: RequestEvent, seen: set<string>, r: Rendered)
    requires !(env.hasStore && e.eventId in seen) && Plan(env, e) != []
    ensures Run(env, e, State(Start, seen), [Lookup(false), Render(Some(r))])
            == Some(State(Advance(env, e, r, 0), seen))
  {
    RunAppend(env, e, State(Start, seen), [], Lookup(false));
    RunAppend(env, e, State(Start, seen), [Lookup(false)], Render(Some(r)));
    assert [] + [Lookup(false)] == [Lookup(false)];
    assert [Lookup(false)] + [Render(Some(r))] == [Lookup(false), Render(Some(r))];
  }

  lemma RunsToHead(env: Env, e: RequestEvent, seen: set<string>, r: Rendered, answers: seq<Reply>)
    requires !(env.hasStore && e.eventId in seen) && Plan(env, e) != [] && |answers| == |Plan(env, e)|
    ensures Run(env, e, State(Start, seen), Until(env, e, r, answers, 0)) == Some(State(Advance(env, e, r, 0), seen))
  {
    RunsToLoop(env, e, seen, r);
    assert Until(env, e, r, answers, 0) == [Lookup(false), Render(Some(r))];
  }

  /** A position that is not decisive leads to the next one. */
  lemma PassesOver(env: Env, e: RequestEvent, r: Rendered, i: nat, answer: Reply)
    requires i < |Plan(env, e)| && !Decisive(env, e, Plan(env, e)[i], answer)
    ensures if EntryOf(env, e, Plan(env, e)[i]).Asked? then
              Advance(env, e, r, i) == Sending(r, i) && Answered(env, e, r, i, answer) == Advance(env, e, r, i + 1)
            else Advance(env, e, r, i) == Advance(env, e, r, i + 1)
  {
  }

  lemma OnePositionOn(env: Env, e: RequestEvent, seen: set<string>, r: Rendered, answers: seq<Reply>, i: nat)
    requires i < |answers| == |Plan(env, e)| && !Decisive(env, e, Plan(env, e)[i], answers[i])
    requires Run(env, e, State(Start, seen), Until(env, e, r, answers, i)) == Some(State(Advance(env, e, r, i), seen))
    ensures Run(env, e, State(Start, seen), Until(env, e, r, answers, i + 1))
            == Some(State(Advance(env, e, r, i + 1), seen))
  {
    UntilNext(env, e, r, answers, i);
    PassesOver(env, e, r, i, answers[i]);
    if EntryOf(env, e, Plan(env, e)[i]).Asked? {
      AskedOn(env, e, seen, r, Until(env, e, r, answers, i), i, answers[i]);
    }
  }

  lemma AskedOn(env: Env, e: RequestEvent, seen: set<string>, r: Rendered, done: seq<Action>, i: nat, answer: Reply)
    requires i < |Plan(env, e)| && EntryOf(env, e, Plan(env, e)[i]).Asked?
    requires Run(env, e, State(Start, seen), done) == Some(State(Sending(r, i), seen))
    ensures Run(env, e, State(Start, seen), done + [Ask(env, e, r, Plan(env, e)[i], answer)])
            == Some(State(Answered(env, e, r, i, answer), seen))
  {
    RunAppend(env, e, State(Start, seen), done, Ask(env, e, r, Plan(env, e)[i], answer));
  }

  /** As long as no position is decisive, the machine reaches the head of the loop at `i`. */
  lemma {:induction false} RunsUpTo(env: Env, e: RequestEvent, seen: set<string>, r: Rendered, answers: seq<Reply>,
                                    i: nat)
    requires !(env.hasStore && e.eventId in seen) && Plan(env, e) != []
    requires i <= |answers| == |Plan(env, e)|
    requires forall j :: 0 <= j < i ==> !Decisive(env, e, Plan(env, e)[j], answers[j])
    ensures Run(env, e, State(Start, seen), Until(env, e, r, answers, i)) == Some(State(Advance(env, e, r, i), seen))
  {
    if i == 0 {
      RunsToHead(env, e, seen, r, answers);
      return;
    }
    var n := i - 1;
    RunsUpTo(env, e, seen, r, answers, n);
    OnePositionOn(env, e, seen, r, answers, n);
    assert n + 1 == i;
  }

  /** Where the decisive position leads: to marking the id, or to publishing. */
  function AfterDecision(env: Env, v: Verdict, k: nat): Pc {
    if v.status == SENT && env.hasStore then Marking(k) else Publishing(v)
  }

  lemma DecisiveAnswer(env: Env, e: RequestEvent, seen: set<string>, r: Rendered, k: nat, answer: Reply)
    requires k < |Plan(env, e)| && EntryOf(env, e, Plan(env, e)[k]).Asked?
    requires Decisive(env, e, Plan(env, e)[k], answer)
    ensures After(env, e, State(Sending(r, k), seen), Ask(env, e, r, Plan(env, e)[k], answer))
            == Some(State(AfterDecision(env, VerdictAt(env, e, k, Plan(env, e)[k], answer), k), seen))
  {
  }

  /** The decisive position: the verdict is reached, up to marking the id. */
  lemma DecisiveRuns(env: Env, e: RequestEvent, seen: set<string>, r: Rendered, answers: seq<Reply>, k: nat)
    requires !(env.hasStore && e.eventId in seen) && Plan(env, e) != []
    requires k < |answers| == |Plan(env, e)| && FirstDecisive(env, e, answers, k)
    ensures Run(env, e, State(Start, seen), Until(env, e, r, answers, k + 1))
            == Some(State(AfterDecision(env, VerdictAt(env, e, k, Plan(env, e)[k], answers[k]), k), seen))
  {
    var name := Plan(env, e)[k];
    RunsUpTo(env, e, seen, r, answers, k);
    UntilNext(env, e, r, answers, k);
    if EntryOf(env, e, name).Asked? {
      DecisiveAnswer(env, e, seen, r, k, answers[k]);
      RunAppend(env, e, State(Start, seen), Until(env, e, r, answers, k), Ask(env, e, r, name, answers[k]));
    } else {
      assert Advance(env, e, r, k) == Publishing(VerdictAt(env, e, k, name, answers[k]));
    }
  }

  /** From the decision to the publication. */
  lemma AfterDecisionRuns(env: Env, e: RequestEvent, seen: set<string>, done: seq<Action>, v: Verdict, k: nat)
    requires k < |Plan(env, e)| && (v.status == SENT ==> v == Verdict(Plan(env, e)[k], k + 1, SENT, ""))
    requires Run(env, e, State(Start, seen), done) == Some(State(AfterDecision(env, v, k), seen))
    ensures var sent := v.status == SENT && env.hasStore;
            Run(env, e, State(Start, seen), done + (if sent then [Mark(e.eventId)] else []))
            == Some(State(Publishing(v), seen + (if sent then {e.eventId} else {})))
  {
    if v.status == SENT && env.hasStore {
      RunAppend(env, e, State(Start, seen), done, Mark(e.eventId));
    } else {
      assert done + [] == done && seen + {} == seen;
    }
  }

  lemma DeliveredRuns(env: Env, e: RequestEvent, seen: set<string>, t: seq<Action>, v: Verdict,
                      r: Rendered, answers: seq<Reply>, k: nat)
    requires !(env.hasStore && e.eventId in seen) && Plan(env, e) != []
    requires Delivered(env, e, t, v, r, answers, k)
    ensures Run(env, e, State(Start, seen), t)
            == Some(State(Publishing(v), seen + (if v.status == SENT && env.hasStore then {e.eventId} else {})))
  {
    if k == |answers| {
      RunsUpTo(env, e, seen, r, answers, k);
      assert t == Until(env, e, r, answers, k) && seen + {} == seen;
    } else {
      DecisiveRuns(env, e, seen, r, answers, k);
      AfterDecisionRuns(env, e, seen, Until(env, e, r, answers, k + 1), v, k);
    }
  }

  lemma DecidedIsRun(env: Env, e: RequestEvent, seen: set<string>, t: seq<Action>, v: Verdict, seen': set<string>)
    requires Decided(env, e, seen, t, v, seen')
    ensures Run(env, e, State(Start, seen), t) == Some(State(Publishing(v), seen'))
  {
    var hit := env.hasStore && e.eventId in seen;
    if hit || Plan(env, e) == [] {
      LookupRuns(env, e, seen, hit);
    } else if t == [Lookup(false), Render(None)] {
      LookupRuns(env, e, seen, hit);
      RunAppend(env, e, State(Start, seen), [Lookup(false)], Render(None));
      assert [Lookup(false)] + [Render(None)] == t;
    } else {
      var r, answers, k :| Delivered(env, e, t, v, r, answers, k);
      DeliveredRuns(env, e, seen, t, v, r, answers, k);
    }
  }

  lemma LookupRuns(env: Env, e: RequestEvent, seen: set<string>, hit: bool)
    requires hit == (env.hasStore && e.eventId in seen)
    ensures Run(env, e, State(Start, seen), [Lookup(hit)]) == After(env, e, State(Start, seen), Lookup(hit))
  {
    RunAppend(env, e, State(Start, seen), [], Lookup(hit));
    assert [] + [Lookup(hit)] == [Lookup(hit)];
  }

  /** The verdict says that all providers are undeliverable exactly when no position is decisive, so that every
      one was passed over or answered `undeliverable`.  There is one corner: the last name of the plan and the
      selected provider are both empty, fallback is off, and that provider answers with this very error code. */
  lemma ExhaustedExactly(env: Env, e: RequestEvent, t: seq<Action>, v: Verdict, r: Rendered, answers: seq<Reply>,
                         k: nat)
    requires Delivered(env, e, t, v, r, answers, k)
    ensures k == |answers| ==> forall j :: 0 <= j < k ==>
              EntryOf(env, e, Plan(env, e)[j]).Skipped?
              || (EntryOf(env, e, Plan(env, e)[j]).Asked? && answers[j].status == UNDELIVERABLE)
    ensures v == Exhausted(env, e)
            <==> k == |answers|
                 || (&& k == |answers| - 1 && Plan(env, e)[k] == "" && EntryOf(env, e, "").Asked?
                     && e.delivery.selectedProvider == "" && !e.delivery.allowFallback
                     && answers[k] == Reply(UNDELIVERABLE, "all_providers_undeliverable"))
  {
    if k < |answers| {
      assert Decisive(env, e, Plan(env, e)[k], answers[k]);
    }
  }

  /** The machine comes to publish `v` after the actions `t` exactly when the specification says so. */
  lemma DecidesExactly(env: Env, e: RequestEvent, seen: set<string>, t: seq<Action>, v: Verdict, seen': set<string>)
    ensures Run(env, e, State(Start, seen), t) == Some(State(Publishing(v), seen'))
            <==> Decided(env, e, seen, t, v, seen')
  {
    if Run(env, e, State(Start, seen), t) == Some(State(Publishing(v), seen')) {
      ShapeHolds(env, e, seen, t);
    } else if Decided(env, e, seen, t, v, seen') {
      DecidedIsRun(env, e, seen, t, v, seen');
    }
  }

  // ----- What is sent ---------------------------------------------------------------------------

  /** The message has the texts of the rendering, and everything else from the request. */
  predicate SentWith(e: RequestEvent, m: Message, r: Rendered) {
    && m.subject == r.subject && m.body == r.body && m.contentType == r.contentType
    && m.eventId == e.eventId && m.template == e.template
    && m.recipientType == e.recipientType && m.recipient == e.recipient
    && m.variables == e.variables && m.metadata == e.metadata
  }

  ghost predicate SentAfterRendering(e: RequestEvent, t: seq<Action>, i: nat)
    requires i < |t| && t[i].Send?
  {
    exists r :: Render(Some(r)) in t[..i] && SentWith(e, t[i].message, r)
  }

  /** In every run each provider that is called gets what was rendered before, for this request. */
  lemma {:induction false} SendsAreRendered(env: Env, e: RequestEvent, seen: set<string>, t: seq<Action>)
    requires Run(env, e, State(Start, seen), t).Some?
    ensures var s := Run(env, e, State(Start, seen), t).value;
            s.pc.Sending? ==> Render(Some(s.pc.rendered)) in t
    ensures forall i :: 0 <= i < |t| && t[i].Send? ==> SentAfterRendering(e, t, i)
  {
    if t != [] {
      var n := |t| - 1;
      var init, a := t[..n], t[n];
      SendsAreRendered(env, e, seen, init);
      StepIsRendered(env, e, Run(env, e, State(Start, seen), init).value, a);
      assert t == init + [a];
      forall i | 0 <= i < |t| && t[i].Send? ensures SentAfterRendering(e, t, i) {
        if i < n {
          SentBefore(e, t, n, i);
        }
      }
    }
  }

  lemma SentBefore(e: RequestEvent, t: seq<Action>, n: nat, i: nat)
    requires i < n <= |t| && t[i].Send? && SentAfterRendering(e, t[..n], i)
    ensures SentAfterRendering(e, t, i)
  {
    assert t[..n][..i] == t[..i];
  }

  lemma StepIsRendered(env: Env, e: RequestEvent, s: State, a: Action)
    requires After(env, e, s, a).Some?
    ensures var s' := After(env, e, s, a).value;
            s'.pc.Sending? ==> a == Render(Some(s'.pc.rendered)) || (s.pc.Sending? && s.pc.rendered == s'.pc.rendered)
    ensures a.Send? ==> s.pc.Sending? && SentWith(e, a.message, s.pc.rendered)
  {
  }

  /** The verdicts in full, word by word. */
  lemma VerdictsInFull(env: Env, e: RequestEvent, seen: set<string>, t: seq<Action>, v: Verdict, seen': set<string>)
    requires Decided(env, e, seen, t, v, seen')
    ensures env.hasStore && e.eventId in seen ==> v == Verdict("", 0, "sent", "duplicate_ignored")
    ensures !(env.hasStore && e.eventId in seen) && Plan(env, e) == [] ==>
              v == Verdict("", 0, "failed", "provider_chain_empty")
    ensures !(env.hasStore && e.eventId in seen) && Plan(env, e) != [] ==>
              || v == Verdict("", 0, "failed", "template_error")
              || v == Verdict("", |Plan(env, e)|, "undeliverable", "all_providers_undeliverable")
              || (&& 0 < v.attempt <= |Plan(env, e)| && v.provider == Plan(env, e)[v.attempt - 1]
                  && (v.status == "failed" || v.status == "undeliverable" || (v.status == "sent" && v.errorCode == "")))
  {
  }

  /** A result that is published is this request's, and is typed as a result. */
  lemma PublishedForRequest(env: Env, e: RequestEvent, s: State, a: Action)
    requires After(env, e, s, a).Some? && a.Publish?
    ensures s.pc.Publishing?
    ensures a.result.eventType == "message.delivery.result" && a.result.version == e.version
    ensures a.result.requestEventId == e.eventId
    ensures a.result.recipientType == e.recipientType && a.result.recipient == e.recipient
    ensures a.result.provider == s.pc.verdict.provider && a.result.attempt == s.pc.verdict.attempt
    ensures a.result.status == s.pc.verdict.status && a.result.errorCode == s.pc.verdict.errorCode
  {
  }
}
