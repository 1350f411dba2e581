/** The consumer of one process: decode, handle, settle. */
module Worker {
  import opened Wrappers
  import opened Events
  import opened Templates
  import opened Handler
  import opened Ledger
  import opened Orchestrator

  datatype Settlement = Acked | Rejected | Requeued

  datatype Delivery = Delivery(tag: nat, body: Body)

  /** The broker channel, on the settling side.  Its answers are ignored by the worker. */
  class Channel {
    ghost var settled: seq<(nat, Settlement)>

    constructor ()
      ensures settled == []
    {
      settled := [];
    }

    method Ack(tag: nat) returns (ok: bool)
      modifies this
      ensures settled == old(settled) + [(tag, Acked)]
    {
      ok := *;
      settled := settled + [(tag, Acked)];
    }

    method Nack(tag: nat, requeue: bool) returns (ok: bool)
      modifies this
      ensures settled == old(settled) + [(tag, if requeue then Requeued else Rejected)]
    {
      ok := *;
      settled := settled + [(tag, if requeue then Requeued else Rejected)];
    }
  }

  /** The result that handling the event ended with: published, or kept if there is no publisher. */
  predicate Confirms(hasPublisher: bool, a: Action, e: RequestEvent, ok: bool) {
    && (if hasPublisher then a.Publish? && a.ok == ok else a.Discard? && ok)
    && a.result.requestEventId == e.eventId
  }

  /** What may be said of a settled delivery: an invalid one is rejected; a valid one is acknowledged
      only after a result for it was published, and requeued only after that publication failed. */
  ghost predicate Justified(hasPublisher: bool, d: Delivery, s: Settlement, log: seq<Action>) {
    match DecodeRequest(d.body)
    case Err(_) => s == Rejected
    case Ok(e) =>
      || (s == Acked && exists a :: a in log && Confirms(hasPublisher, a, e, true))
      || (s == Requeued && exists a :: a in log && Confirms(hasPublisher, a, e, false))
  }

  /** A delivery handled from beginning to end: the handler has run to its end with the actions `t`, which change
      the memory from `seen` to `seen'`, and its outcome decides the settlement. */
  ghost predicate Completes(env: Env, body: Body, seen: set<string>, t: seq<Action>, seen': set<string>,
                            s: Settlement)
  {
    match DecodeRequest(body)
    case Err(_) => t == [] && seen' == seen && s == Rejected
    case Ok(e) => exists v, ok :: Returns(env, e, seen, t, seen', v, ok) && s == if ok then Acked else Requeued
  }

  ghost predicate Returns(env: Env, e: RequestEvent, seen: set<string>, t: seq<Action>, seen': set<string>,
                          v: Verdict, ok: bool)
  {
    Run(env, e, State(Start, seen), t) == Some(State(Returned(v, ok), seen'))
  }

  class Worker {
    const orchestrator: Orchestrator
    const channel: Channel

    constructor (orchestrator: Orchestrator, channel: Channel)
      ensures this.orchestrator == orchestrator && this.channel == channel
    {
      this.orchestrator, this.channel := orchestrator, channel;
    }

    /** The objects a worker changes. */
    function Footprint(): set<object> {
      {orchestrator.world, channel} + (if orchestrator.seen != null then {orchestrator.seen} else {})
    }

    ghost predicate BooksKept()
      reads orchestrator.registry, Footprint()
    {
      orchestrator.seen != null && orchestrator.hasPublisher
      && Settled(orchestrator.world.log, orchestrator.Remembered())
    }

    method Handle(msg: Delivery)
      modifies Footprint()
      ensures old(orchestrator.world.log) <= orchestrator.world.log
      ensures |channel.settled| == |old(channel.settled)| + 1 && old(channel.settled) <= channel.settled
      ensures var (tag, s) := channel.settled[|old(channel.settled)|];
              tag == msg.tag
              && Justified(orchestrator.hasPublisher, msg, s, orchestrator.world.log[|old(orchestrator.world.log)|..])
      ensures Completes(orchestrator.Environment(), msg.body, old(orchestrator.Remembered()),
                        orchestrator.world.log[|old(orchestrator.world.log)|..], orchestrator.Remembered(),
                        channel.settled[|old(channel.settled)|].1)
      ensures DecodeRequest(msg.body).Err? ==> orchestrator.world.log == old(orchestrator.world.log)
      ensures old(BooksKept()) ==> BooksKept()
    {
      ghost var log0 := orchestrator.world.log;
      var decoded := DecodeRequest(msg.body);
      if decoded.Err? {
        var _ := channel.Nack(msg.tag, false);
        return;
      }
      var e := decoded.value;
      var result := orchestrator.Handle(Some(e));
      Confirmation(orchestrator.Environment(), orchestrator.Renderings(e), e, log0,
                   old(orchestrator.Remembered()), orchestrator.world.log, orchestrator.Remembered(), result);
      if result.Err? {
        var _ := channel.Nack(msg.tag, true);
        return;
      }
      var _ := channel.Ack(msg.tag);
    }

    /** Run handles deliveries in turn until the channel is closed or the context is done.  The log of the run
        falls into one stretch for each delivery handled.  Each settlement is justified by its own stretch, which
        is a complete call of the handler on the memory left by the call before; the books are kept. */
    method Run(deliveries: seq<Delivery>) returns (n: nat, ghost bounds: seq<nat>, ghost memories: seq<set<string>>)
      modifies Footprint()
      ensures n <= |deliveries| && old(channel.settled) <= channel.settled
      ensures |bounds| == n + 1 == |memories|
      ensures bounds[0] == |old(orchestrator.world.log)| && bounds[n] == |orchestrator.world.log|
      ensures memories[0] == old(orchestrator.Remembered()) && memories[n] == orchestrator.Remembered()
      ensures old(orchestrator.world.log) <= orchestrator.world.log
      ensures Calls(orchestrator.Environment(), deliveries[..n], channel.settled[|old(channel.settled)|..],
                    orchestrator.world.log, bounds, memories)
      ensures old(BooksKept()) ==> BooksKept()
    {
      n := 0;
      ghost var log0, settled0, env := orchestrator.world.log, channel.settled, orchestrator.Environment();
      bounds, memories := [|log0|], [orchestrator.Remembered()];
      while n < |deliveries|
        invariant n <= |deliveries| && settled0 <= channel.settled && orchestrator.Environment() == env
        invariant Calls(env, deliveries[..n], channel.settled[|settled0|..], orchestrator.world.log, bounds, memories)
        invariant bounds[0] == |log0| && bounds[n] == |orchestrator.world.log| && log0 <= orchestrator.world.log
        invariant memories[0] == old(orchestrator.Remembered()) && memories[n] == orchestrator.Remembered()
        invariant old(BooksKept()) ==> BooksKept()
      {
        var done: bool := *;
        if done {
          return;
        }
        ghost var before, log := channel.settled, orchestrator.world.log;
        Handle(deliveries[n]);
        ghost var last := channel.settled[|before|];
        OneMoreCall(env, deliveries[..n], before[|settled0|..], log, bounds, memories,
                    deliveries[n], last, orchestrator.world.log, orchestrator.Remembered());
        assert deliveries[..n] + [deliveries[n]] == deliveries[..n + 1];
        assert channel.settled[|settled0|..] == before[|settled0|..] + [last];
        bounds, memories := bounds + [|orchestrator.world.log|], memories + [orchestrator.Remembered()];
        n := n + 1;
      }
    }
  }

  /** The deliveries `ds` were settled by `settled`, one by one, and the `i`-th by the call that wrote the log
      between the bounds `i` and `i + 1` and took the memory from the `i`-th to the next. */
  ghost predicate Calls(env: Env, ds: seq<Delivery>, settled: seq<(nat, Settlement)>, log: seq<Action>,
                        bounds: seq<nat>, memories: seq<set<string>>)
  {
    && |settled| == |ds| && |bounds| == |ds| + 1 == |memories|
    && forall i :: 0 <= i < |ds| ==>
         CallAt(env, ds[i], settled[i], log, bounds[i], bounds[i + 1], memories[i], memories[i + 1])
  }

  ghost predicate CallAt(env: Env, d: Delivery, s: (nat, Settlement), log: seq<Action>, from: nat, to: nat,
                         seen: set<string>, seen': set<string>)
  {
    && from <= to <= |log| && s.0 == d.tag
    && Justified(env.hasPublisher, d, s.1, log[from..to])
    && Completes(env, d.body, seen, log[from..to], seen', s.1)
  }

  lemma OneMoreCall(env: Env, ds: seq<Delivery>, settled: seq<(nat, Settlement)>, log: seq<Action>, bounds: seq<nat>,
                    memories: seq<set<string>>, d: Delivery, s: (nat, Settlement), log': seq<Action>,
                    seen': set<string>)
    requires Calls(env, ds, settled, log, bounds, memories) && bounds[|ds|] == |log|
    requires log <= log' && s.0 == d.tag
    requires Justified(env.hasPublisher, d, s.1, log'[|log|..])
    requires Completes(env, d.body, memories[|ds|], log'[|log|..], seen', s.1)
    ensures Calls(env, ds + [d], settled + [s], log', bounds + [|log'|], memories + [seen'])
  {
    var ds', settled', bounds', memories' := ds + [d], settled + [s], bounds + [|log'|], memories + [seen'];
    forall i | 0 <= i < |ds'|
      ensures CallAt(env, ds'[i], settled'[i], log', bounds'[i], bounds'[i + 1], memories'[i], memories'[i + 1])
    {
      if i < |ds| {
        CallStays(env, ds[i], settled[i], log, bounds[i], bounds[i + 1], memories[i], memories[i + 1], log');
      } else {
        assert log'[|log|..|log'|] == log'[|log|..];
      }
    }
  }

  lemma CallStays(env: Env, d: Delivery, s: (nat, Settlement), log: seq<Action>, from: nat, to: nat,
                  seen: set<string>, seen': set<string>, log': seq<Action>)
    requires CallAt(env, d, s, log, from, to, seen, seen') && log <= log'
    ensures CallAt(env, d, s, log', from, to, seen, seen')
  {
    assert log'[from..to] == log[from..to];
  }

  /** A call that returns a result has published one for the event; a failing one tried to. */
  lemma Confirmation(env: Env, renderings: iset<Option<Rendered>>, e: RequestEvent, log0: seq<Action>,
                     seen0: set<string>, log: seq<Action>, seen: set<string>, result: Result<ResultEvent, HandleError>)
    requires Handled(env, renderings, e, log0, seen0, log, seen, result)
    ensures log0 <= log
    ensures exists a :: a in log[|log0|..] && Confirms(env.hasPublisher, a, e, result.Ok?)
    ensures exists v, ok :: Returns(env, e, seen0, log[|log0|..], seen, v, ok) && ok == result.Ok?
  {
    var v: Verdict, ok: bool :|
      && Reached(env, renderings, e, log0, seen0, log, State(Returned(v, ok), seen))
      && HandledAs(env, e, seen0, log[|log0|..], seen, result, v, ok);
    var t := log[|log0|..];
    assert Returns(env, e, seen0, t, seen, v, ok);
    assert t[|t| - 1] in t && Confirms(env.hasPublisher, t[|t| - 1], e, result.Ok?);
  }
}
