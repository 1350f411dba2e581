/** What one process has done for an event id: how many providers reported `sent`, and which results
    it tried to publish.  Both are tied, step by step, to the ids the process remembers. */
module Ledger {
  import opened Wrappers
  import opened Events
  import opened Providers
  import opened Templates
  import opened Handler

  /** A provider reported `sent` for the event. */
  predicate Accepts(a: Action, id: string) {
    a.Send? && a.message.eventId == id && a.reply.status == SENT
  }

  function AcceptCount(t: seq<Action>, id: string): nat {
    if t == [] then 0
    else AcceptCount(t[..|t| - 1], id) + (if Accepts(t[|t| - 1], id) then 1 else 0)
  }

  /** The results whose publication was attempted for the event, in order. */
  function ResultsFor(t: seq<Action>, id: string): seq<ResultEvent> {
    if t == [] then []
    else
      var a := t[|t| - 1];
      ResultsFor(t[..|t| - 1], id) + (if a.Publish? && a.result.requestEventId == id then [a.result] else [])
  }

  predicate IsFailure(r: ResultEvent) { r.status == FAILED || r.status == UNDELIVERABLE }

  predicate IsSuccess(r: ResultEvent) { r.status == SENT && r.errorCode == "" && r.attempt > 0 }

  predicate IsDuplicate(r: ResultEvent) {
    r.status == SENT && r.errorCode == "duplicate_ignored" && r.attempt == 0 && r.provider == ""
  }

  ghost predicate AllFailures(rs: seq<ResultEvent>) {
    forall i :: 0 <= i < |rs| ==> IsFailure(rs[i])
  }

  /** Failures up to position `k`, a success there, only duplicates behind it. */
  ghost predicate SucceedsAt(rs: seq<ResultEvent>, k: nat) {
    && k < |rs| && IsSuccess(rs[k])
    && (forall i :: 0 <= i < k ==> IsFailure(rs[i]))
    && (forall i :: k < i < |rs| ==> IsDuplicate(rs[i]))
  }

  ghost predicate Succeeded(rs: seq<ResultEvent>) {
    exists k :: SucceedsAt(rs, k)
  }

  // ----- One step -------------------------------------------------------------------------------

  predicate SuccessVerdict(v: Verdict) { v.status == SENT && v.errorCode == "" && v.attempt > 0 }

  /** The position of the handler agrees with the ids remembered. */
  predicate Coherent(e: RequestEvent, s: State) {
    match s.pc
    case Start => true
    case Returned(_, _) => true
    case Publishing(v) =>
      || ((v.status == FAILED || v.status == UNDELIVERABLE) && e.eventId !in s.seen)
      || (SuccessVerdict(v) && e.eventId in s.seen)
      || (v == DUPLICATE && e.eventId in s.seen)
    case _ => e.eventId !in s.seen
  }

  /** The success of this event is decided and its publication not yet attempted. */
  predicate Pending(e: RequestEvent, s: State, id: string) {
    s.pc.Publishing? && SuccessVerdict(s.pc.verdict) && e.eventId == id
  }

  /** The accepts accounted for: remembered ids, and one that is about to be marked. */
  function Credit(e: RequestEvent, s: State, id: string): nat {
    (if id in s.seen then 1 else 0) + (if s.pc.Marking? && e.eventId == id then 1 else 0)
  }

  ghost predicate Balanced(t: seq<Action>, e: RequestEvent, s: State, id: string) {
    && AcceptCount(t, id) == Credit(e, s, id)
    && if id in s.seen && !Pending(e, s, id) then Succeeded(ResultsFor(t, id)) else AllFailures(ResultsFor(t, id))
  }

  lemma AdvanceCoherent(env: Env, e: RequestEvent, r: Rendered, i: nat, seen: set<string>)
    requires i <= |Plan(env, e)| && e.eventId !in seen
    ensures var pc := Advance(env, e, r, i); (pc.Sending? || pc.Publishing?) && Coherent(e, State(pc, seen))
    decreases |Plan(env, e)| - i
  {
  }

  lemma AppendAction(t: seq<Action>, a: Action, id: string)
    ensures AcceptCount(t + [a], id) == AcceptCount(t, id) + (if Accepts(a, id) then 1 else 0)
    ensures ResultsFor(t + [a], id)
            == ResultsFor(t, id) + (if a.Publish? && a.result.requestEventId == id then [a.result] else [])
  {
    assert (t + [a])[..|t|] == t;
  }

  /** Every step keeps the books, for every id. */
  lemma StepBalanced(env: Env, e: RequestEvent, t: seq<Action>, s: State, a: Action, id: string)
    requires env.hasStore && env.hasPublisher
    requires Coherent(e, s) && Balanced(t, e, s, id) && After(env, e, s, a).Some?
    ensures Coherent(e, After(env, e, s, a).value)
    ensures Balanced(t + [a], e, After(env, e, s, a).value, id)
  {
    AppendAction(t, a, id);
    var s', rs := After(env, e, s, a).value, ResultsFor(t, id);
    assert rs + [] == rs;
    match s.pc
    case Start =>
    case Rendering =>
      if a.rendered.Some? { AdvanceCoherent(env, e, a.rendered.value, 0, s.seen); }
    case Sending(r, i) =>
      if a.reply.status == UNDELIVERABLE && !(e.delivery.selectedProvider == a.name && !e.delivery.allowFallback) {
        AdvanceCoherent(env, e, r, i + 1, s.seen);
      }
    case Marking(_) =>
    case Publishing(v) =>
      PublishBalanced(e, s, v, rs, a.result, id);
    case Returned(_, _) =>
  }

  /** Publishing a verdict extends the results of its event in the only allowed way. */
  lemma PublishBalanced(e: RequestEvent, s: State, v: Verdict, rs: seq<ResultEvent>, result: ResultEvent, id: string)
    requires s.pc == Publishing(v) && Coherent(e, s) && Carries(result, e, v)
    requires if id in s.seen && !Pending(e, s, id) then Succeeded(rs) else AllFailures(rs)
    ensures var rs' := if e.eventId == id then rs + [result] else rs;
            if id in s.seen then Succeeded(rs') else AllFailures(rs')
  {
    if e.eventId == id && id in s.seen {
      if SuccessVerdict(v) {
        assert SucceedsAt(rs + [result], |rs|);
      } else {
        var k :| SucceedsAt(rs, k);
        assert SucceedsAt(rs + [result], k);
      }
    }
  }

  // ----- Whole calls ----------------------------------------------------------------------------

  /** The books of a process between two requests. */
  ghost predicate Settled(t: seq<Action>, seen: set<string>) {
    forall id :: SettledFor(t, seen, id)
  }

  ghost predicate SettledFor(t: seq<Action>, seen: set<string>, id: string) {
    && AcceptCount(t, id) == (if id in seen then 1 else 0)
    && if id in seen then Succeeded(ResultsFor(t, id)) else AllFailures(ResultsFor(t, id))
  }

  lemma StartBalanced(e: RequestEvent, log: seq<Action>, seen: set<string>, id: string)
    requires SettledFor(log, seen, id)
    ensures Coherent(e, State(Start, seen)) && Balanced(log, e, State(Start, seen), id)
  {
  }

  lemma {:induction false} RunBalanced(env: Env, e: RequestEvent, log: seq<Action>, seen: set<string>,
                                      t: seq<Action>, id: string)
    requires env.hasStore && env.hasPublisher && SettledFor(log, seen, id)
    requires Run(env, e, State(Start, seen), t).Some?
    ensures var s := Run(env, e, State(Start, seen), t).value;
            Coherent(e, s) && Balanced(log + t, e, s, id)
  {
    if t == [] {
      StartBalanced(e, log, seen, id);
      assert log + [] == log;
    } else {
      var init, a := t[..|t| - 1], t[|t| - 1];
      var mid := Run(env, e, State(Start, seen), init).value;
      RunBalanced(env, e, log, seen, init, id);
      assert log + init + [a] == log + t;
      StepBalanced(env, e, log + init, mid, a, id);
    }
  }

  /** A completed call keeps the books: afterwards, each id has been accepted by a provider at most
      once in the life of the process, exactly when it is remembered; and its results are failures,
      then at most one success, then only duplicates, whether or not their publication worked. */
  lemma CallKeepsBooks(env: Env, e: RequestEvent, log: seq<Action>, seen: set<string>, t: seq<Action>, s: State)
    requires env.hasStore && env.hasPublisher && Settled(log, seen)
    requires Run(env, e, State(Start, seen), t) == Some(s) && s.pc.Returned?
    ensures Settled(log + t, s.seen)
  {
    forall id ensures SettledFor(log + t, s.seen, id) {
      assert SettledFor(log, seen, id);
      RunBalanced(env, e, log, seen, t, id);
    }
  }
}
