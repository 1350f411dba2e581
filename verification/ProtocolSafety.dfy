/** What holds of every reachable state of the system of processes. */
module ProtocolSafety {
  import opened Wrappers
  import opened Events
  import opened Providers
  import opened Templates
  import opened Handler
  import opened Ledger
  import opened Protocol

  /** Within one life of a process at most one provider reports `sent` for an event id. */
  lemma AtMostOncePerLife(setup: Setup, s: System, p: Pid, id: string)
    requires Wired(setup) && Reachable(setup, s) && p in s.procs
    ensures AcceptCount(Actions(s.procs[p].log), id) <= 1
  {
    ReachableInv(setup, s);
    assert Books(s.procs[p], id);
    assert JobOk(s.bodies, s.procs[p]);
  }

  /** The results a process tries to publish for an event id are failures as long as no provider has
      accepted it; afterwards at most one success follows, and behind it only duplicates. */
  lemma ResultStream(setup: Setup, s: System, p: Pid, id: string)
    requires Wired(setup) && Reachable(setup, s) && p in s.procs
    ensures var t := Actions(s.procs[p].log);
            && (AllFailures(ResultsFor(t, id)) || (Succeeded(ResultsFor(t, id)) && AcceptCount(t, id) == 1))
            && (AcceptCount(t, id) == 0 ==> AllFailures(ResultsFor(t, id)))
  {
    ReachableInv(setup, s);
    assert Books(s.procs[p], id);
    assert JobOk(s.bodies, s.procs[p]);
  }

  /** No message vanishes or is doubled: an accepted message is in exactly one of queue, unacked, acked
      and dead-lettered, and there only once; nothing else is anywhere. */
  lemma NoMessageLost(setup: Setup, s: System, t: Tag)
    requires Wired(setup) && Reachable(setup, s)
    ensures s.queue[t] + s.acked[t] + s.dead[t] + (if t in s.unacked then 1 else 0) == if t < |s.bodies| then 1 else 0
  {
    ReachableInv(setup, s);
  }

  /** An acknowledged message was valid, and some process published a result for that delivery that
      names its event; a dead-lettered one was invalid. */
  lemma AckedIsConfirmed(setup: Setup, s: System, t: Tag)
    requires Wired(setup) && Reachable(setup, s)
    ensures t in s.acked ==> AckedOk(s, t)
    ensures t in s.dead ==> t < |s.bodies| && DecodeRequest(s.bodies[t]).Err?
  {
    ReachableInv(setup, s);
  }

  /** Nothing is ever done for an invalid message: no provider is asked and no result published. */
  lemma InvalidIsNeverHandled(setup: Setup, s: System, p: Pid, i: nat)
    requires Wired(setup) && Reachable(setup, s) && p in s.procs && i < |s.procs[p].log|
    ensures EntryOk(s.bodies, s.procs[p].log[i])
  {
    ReachableInv(setup, s);
  }

  // ----- The whole system -----------------------------------------------------------------------

  /** Every report `sent` for an event id, anywhere: the process and the position in its log. */
  function AcceptEvents(s: System, id: string): set<(Pid, nat)> {
    set p, i | p in s.procs && i in Positions(|s.procs[p].log|) && Accepts(s.procs[p].log[i].action, id) :: (p, i)
  }

  function Positions(n: nat): (r: set<nat>)
    ensures forall i: nat :: i in r <==> i < n
  {
    if n == 0 then {} else Positions(n - 1) + {n - 1}
  }

  lemma {:induction false} CountsOne(t: seq<Action>, id: string, i: nat)
    requires i < |t| && Accepts(t[i], id)
    ensures AcceptCount(t, id) >= 1
  {
    if i < |t| - 1 {
      CountsOne(t[..|t| - 1], id, i);
    }
  }

  lemma {:induction false} CountsBoth(t: seq<Action>, id: string, i: nat, j: nat)
    requires i < j < |t| && Accepts(t[i], id) && Accepts(t[j], id)
    ensures AcceptCount(t, id) >= 2
  {
    if j < |t| - 1 {
      CountsBoth(t[..|t| - 1], id, i, j);
    } else {
      CountsOne(t[..|t| - 1], id, i);
    }
  }

  lemma OnlyPosition(t: seq<Action>, id: string, i: nat, j: nat)
    requires i < |t| && j < |t| && Accepts(t[i], id) && Accepts(t[j], id) && AcceptCount(t, id) <= 1
    ensures i == j
  {
    if i < j {
      CountsBoth(t, id, i, j);
    } else if j < i {
      CountsBoth(t, id, j, i);
    }
  }

  /** A set of pairs that is a function of the first component is no larger than its domain. */
  lemma {:induction false} FunctionalBound(pairs: set<(Pid, nat)>, domain: set<Pid>)
    requires forall x :: x in pairs ==> x.0 in domain
    requires forall x, y :: x in pairs && y in pairs && x.0 == y.0 ==> x == y
    ensures |pairs| <= |domain|
  {
    if pairs != {} {
      var x :| x in pairs;
      FunctionalBound(pairs - {x}, domain - {x.0});
    }
  }

  /** Over all processes and restarts together, an event id is reported `sent` at most once per life of
      a process. */
  lemma AcceptsBoundedByLives(setup: Setup, s: System, id: string)
    requires Wired(setup) && Reachable(setup, s)
    ensures |AcceptEvents(s, id)| <= |s.procs|
  {
    var pairs := AcceptEvents(s, id);
    forall x, y | x in pairs && y in pairs && x.0 == y.0 ensures x == y {
      AtMostOncePerLife(setup, s, x.0, id);
      OnlyPosition(Actions(s.procs[x.0].log), id, x.1, y.1);
      assert x == (x.0, x.1) && y == (y.0, y.1);
    }
    FunctionalBound(pairs, s.procs.Keys);
  }

  // ----- The bound is attained ------------------------------------------------------------------

  /** Some processes have died, each after its provider had reported `sent` for `e` and before the
      result was published; the only message, `e`, is back in the queue. */
  ghost predicate Haunted(s: System, e: RequestEvent, n: nat) {
    && s == System([Some(e)], multiset{0}, map[], multiset{}, multiset{}, s.procs)
    && s.procs.Keys == Positions(n)
    && |AcceptEvents(s, e.eventId)| == n
  }

  /** The request is valid and the first entry of its plan leads to a provider. */
  predicate Deliverable(setup: Setup, e: RequestEvent) {
    && Validate(e).None? && Plan(setup.env, e) != []
    && EntryOf(setup.env, e, Plan(setup.env, e)[0]).Asked?
  }

  /** A delivery of `e`, up to the report `sent`. */
  function ShortLife(setup: Setup, e: RequestEvent): Process
    requires Deliverable(setup, e)
  {
    var r, name := Rendered("", "", ""), Plan(setup.env, e)[0];
    Process(true, true, {}, [], Handling(0, e, Marking(0)),
            [Entry(0, Lookup(false)), Entry(0, Render(Some(r))),
             Entry(0, Ask(setup.env, e, r, name, Reply(SENT, "")))])
  }

  /** The handler reaches that point from the start. */
  lemma ShortLifeActs(setup: Setup, e: RequestEvent, s: System, n: Pid)
    requires Wired(setup) && Deliverable(setup, e) && Reachable(setup, s)
    requires n in s.procs && s.procs[n] == Process(true, true, {}, [], Handling(0, e, Start), [])
    ensures Reachable(setup, SetProc(s, n, ShortLife(setup, e)))
  {
    var r, life := Rendered("", "", ""), ShortLife(setup, e);
    var one := s.procs[n].(job := Handling(0, e, Rendering), log := life.log[..1]);
    var two := s.procs[n].(job := Handling(0, e, Sending(r, 0)), log := life.log[..2]);
    assert Advance(setup.env, e, r, 0) == Sending(r, 0);
    assert life.log[..1] == s.procs[n].log + [Entry(0, Lookup(false))];
    assert SetProc(s, n, s.procs[n]) == s;
    OneAct(setup, s, s.procs[n], n, Lookup(false), State(Rendering, {}), one);
    assert life.log[..2] == life.log[..1] + [Entry(0, Render(Some(r)))];
    OneAct(setup, s, one, n, Render(Some(r)), State(Sending(r, 0), {}), two);
    assert life.log == life.log[..2] + [life.log[2]];
    OneAct(setup, s, two, n, life.log[2].action, State(Marking(0), {}), life);
  }

  lemma OneAct(setup: Setup, s: System, proc: Process, n: Pid, a: Action, next: State, proc': Process)
    requires n in s.procs && Reachable(setup, SetProc(s, n, proc)) && proc.live && proc.job.Handling?
    requires After(setup.env, proc.job.e, State(proc.job.pc, proc.seen), a) == Some(next)
    requires proc' == Acted(proc, a, next)
    ensures Reachable(setup, SetProc(s, n, proc'))
  {
    ActReachable(setup, SetProc(s, n, proc), n, a, next);
    assert s.procs[n := proc][n := proc'] == s.procs[n := proc'];
  }

  lemma ActReachable(setup: Setup, s: System, p: Pid, a: Action, next: State)
    requires Reachable(setup, s) && Live(s, p) && s.procs[p].job.Handling?
    requires After(setup.env, s.procs[p].job.e, State(s.procs[p].job.pc, s.procs[p].seen), a) == Some(next)
    ensures Reachable(setup, SetProc(s, p, Acted(s.procs[p], a, next)))
  {
    ChainReachable(setup, s, Act(p, a), SetProc(s, p, Acted(s.procs[p], a, next)));
  }

  /** The only message in the queue, or unacked at `n`. */
  function Waiting(e: RequestEvent, procs: map<Pid, Process>): System {
    System([Some(e)], multiset{0}, map[], multiset{}, multiset{}, procs)
  }

  function HeldBy(e: RequestEvent, n: Pid, procs: map<Pid, Process>): System {
    System([Some(e)], multiset{}, map[0 := n], multiset{}, multiset{}, procs)
  }

  lemma DeliverOnly(setup: Setup, e: RequestEvent, n: Pid, procs: map<Pid, Process>)
    requires setup.prefetch > 0 && n in procs && procs[n] == FRESH
    ensures Apply(setup, Waiting(e, procs), Deliver(n, 0))
            == Some(HeldBy(e, n, procs[n := FRESH.(inbox := [0])]))
  {
    assert Held(Waiting(e, procs), n) == {};
    assert multiset{0} - multiset{0} == multiset{};
    assert [] + [0] == [0];
  }

  lemma TakeOnly(setup: Setup, e: RequestEvent, n: Pid, procs: map<Pid, Process>)
    requires Validate(e).None? && n in procs && procs[n] == FRESH.(inbox := [0])
    ensures Apply(setup, HeldBy(e, n, procs), Take(n))
            == Some(HeldBy(e, n, procs[n := FRESH.(job := Handling(0, e, Start))]))
  {
    assert [0][1..] == [];
  }

  lemma CrashOnly(setup: Setup, e: RequestEvent, n: Pid, procs: map<Pid, Process>)
    requires n in procs && procs[n].live
    ensures Apply(setup, HeldBy(e, n, procs), Crash(n))
            == Some(Waiting(e, procs[n := procs[n].(live := false, connected := false)]))
  {
    var s := HeldBy(e, n, procs);
    assert Held(s, n) == {0};
    assert multiset{} + multiset({0}) == multiset{0};
    assert map[0 := n] - {0} == map[];
  }

  lemma FreshDelivery(setup: Setup, procs: map<Pid, Process>, e: RequestEvent, n: nat)
    requires setup.prefetch > 0 && Validate(e).None? && n !in procs && Reachable(setup, Waiting(e, procs))
    ensures Reachable(setup, HeldBy(e, n, procs[n := FRESH.(job := Handling(0, e, Start))]))
  {
    var booted, ready := procs[n := FRESH], procs[n := FRESH.(inbox := [0])];
    var begun := procs[n := FRESH.(job := Handling(0, e, Start))];
    assert booted[n := ready[n]] == ready && ready[n := begun[n]] == begun;
    ChainReachable(setup, Waiting(e, procs), Boot(n), Waiting(e, booted));
    DeliverOnly(setup, e, n, booted);
    ChainReachable(setup, Waiting(e, booted), Deliver(n, 0), HeldBy(e, n, ready));
    TakeOnly(setup, e, n, ready);
    ChainReachable(setup, HeldBy(e, n, ready), Take(n), HeldBy(e, n, begun));
  }

  lemma DeathReachable(setup: Setup, e: RequestEvent, n: Pid, procs: map<Pid, Process>, life: Process)
    requires Reachable(setup, HeldBy(e, n, procs[n := life])) && life.live
    ensures Reachable(setup, Waiting(e, procs[n := life.(live := false, connected := false)]))
  {
    var dead := life.(live := false, connected := false);
    CrashOnly(setup, e, n, procs[n := life]);
    assert procs[n := life][n := dead] == procs[n := dead];
    ChainReachable(setup, HeldBy(e, n, procs[n := life]), Crash(n), Waiting(e, procs[n := dead]));
  }

  lemma LifeReachable(setup: Setup, e: RequestEvent, n: Pid, procs: map<Pid, Process>)
    requires Wired(setup) && setup.prefetch > 0 && Deliverable(setup, e)
    requires n !in procs && Reachable(setup, Waiting(e, procs))
    ensures Reachable(setup, HeldBy(e, n, procs[n := ShortLife(setup, e)]))
  {
    var begun := procs[n := FRESH.(job := Handling(0, e, Start))];
    FreshDelivery(setup, procs, e, n);
    ShortLifeActs(setup, e, HeldBy(e, n, begun), n);
    assert begun[n := ShortLife(setup, e)] == procs[n := ShortLife(setup, e)];
  }

  lemma OneMoreLife(setup: Setup, s: System, e: RequestEvent, n: nat) returns (s': System)
    requires Wired(setup) && setup.prefetch > 0 && Deliverable(setup, e)
    requires Reachable(setup, s) && Haunted(s, e, n)
    ensures Reachable(setup, s') && Haunted(s', e, n + 1)
  {
    var life := ShortLife(setup, e);
    LifeReachable(setup, e, n, s.procs);
    DeathReachable(setup, e, n, s.procs, life);
    var dead := life.(live := false, connected := false);
    s' := Waiting(e, s.procs[n := dead]);
    NewAccept(s, s', e, n, dead);
  }

  lemma InAcceptEvents(s: System, id: string, p: Pid, i: nat)
    ensures (p, i) in AcceptEvents(s, id)
            <==> p in s.procs && i < |s.procs[p].log| && Accepts(s.procs[p].log[i].action, id)
  {
  }

  lemma NewAccept(s: System, s': System, e: RequestEvent, n: Pid, proc: Process)
    requires n !in s.procs && s' == SetProc(s, n, proc)
    requires |proc.log| == 3 && Accepts(proc.log[2].action, e.eventId)
    requires !proc.log[0].action.Send? && !proc.log[1].action.Send?
    ensures |AcceptEvents(s', e.eventId)| == |AcceptEvents(s, e.eventId)| + 1
  {
    var before, after := AcceptEvents(s, e.eventId), AcceptEvents(s', e.eventId);
    forall p: Pid, i: nat ensures (p, i) in after <==> (p, i) in before || (p == n && i == 2) {
      InAcceptEvents(s, e.eventId, p, i);
      InAcceptEvents(s', e.eventId, p, i);
    }
    InAcceptEvents(s, e.eventId, n, 2);
    forall x ensures x in after <==> x in before + {(n, 2)} {
      assert x == (x.0, x.1);
    }
    assert after == before + {(n, 2)};
  }

  /** For every number of lives there is a run in which each of them reports `sent` for the same event:
      the bound is exact, and exactly-once delivery is not to be had across restarts or replicas. */
  lemma {:induction false} BoundIsAttained(setup: Setup, e: RequestEvent, n: nat) returns (s: System)
    requires Wired(setup) && setup.prefetch > 0 && Deliverable(setup, e)
    ensures Reachable(setup, s) && |s.procs| == n && |AcceptEvents(s, e.eventId)| == n
  {
    s := HauntedState(setup, e, n);
    PositionsSize(n);
    assert |s.procs| == |s.procs.Keys|;
  }

  lemma {:induction false} HauntedState(setup: Setup, e: RequestEvent, n: nat) returns (s: System)
    requires Wired(setup) && setup.prefetch > 0 && Deliverable(setup, e)
    ensures Reachable(setup, s) && Haunted(s, e, n)
  {
    if n == 0 {
      s := INIT.(bodies := [Some(e)], queue := multiset{0});
      assert Exec(setup, INIT, []) == Some(INIT);
      assert INIT.bodies + [Some(e)] == [Some(e)] && INIT.queue + multiset{0} == multiset{0};
      assert Apply(setup, INIT, Arrive(Some(e))) == Some(s);
      ChainReachable(setup, INIT, Arrive(Some(e)), s);
      assert AcceptEvents(s, e.eventId) == {};
    } else {
      var before := HauntedState(setup, e, n - 1);
      s := OneMoreLife(setup, before, e, n - 1);
    }
  }

  lemma PositionsSize(n: nat)
    ensures |Positions(n)| == n
  {
  }

  // ----- Limits of the broker -------------------------------------------------------------------

  /** A valid request, on whichever channel, is never dead-lettered, and an invalid one never acknowledged. */
  lemma OnlyInvalidIsDeadLettered(setup: Setup, s: System, t: Tag, e: RequestEvent)
    requires Wired(setup) && Reachable(setup, s) && t < |s.bodies| && s.bodies[t] == Some(e)
    ensures (&& e.version != "" && e.eventId != "" && e.template != "" && e.recipient != ""
             && e.eventType == "message.delivery.requested"
             && e.recipientType in ["email", "phone", "push", "telegram"])
            ==> t !in s.dead
    ensures e.recipientType !in ["email", "phone", "push", "telegram"] ==> t !in s.acked
  {
    ValidExactly(e);
    AckedIsConfirmed(setup, s, t);
  }

  /** No process ever holds more messages than the prefetch count. */
  lemma PrefetchKept(setup: Setup, s: System, p: Pid)
    requires Reachable(setup, s)
    ensures |Held(s, p)| <= setup.prefetch
  {
    var steps :| Exec(setup, INIT, steps) == Some(s);
    ExecKeepsPrefetch(setup, steps, p);
  }

  lemma {:induction false} ExecKeepsPrefetch(setup: Setup, steps: seq<Step>, p: Pid)
    requires Exec(setup, INIT, steps).Some?
    ensures |Held(Exec(setup, INIT, steps).value, p)| <= setup.prefetch
  {
    if steps != [] {
      var init, step := steps[..|steps| - 1], steps[|steps| - 1];
      ExecKeepsPrefetch(setup, init, p);
      var mid := Exec(setup, INIT, init).value;
      HeldGrowsByDelivery(setup, mid, step, p);
      if step.Deliver? && step.p == p {
        Fewer(Held(Apply(setup, mid, step).value, p), Held(mid, p) + {step.tag});
      } else {
        Fewer(Held(Apply(setup, mid, step).value, p), Held(mid, p));
      }
    } else {
      assert Held(INIT, p) == {};
    }
  }

  lemma HeldGrowsByDelivery(setup: Setup, s: System, step: Step, p: Pid)
    requires Apply(setup, s, step).Some?
    ensures step.Deliver? && step.p == p ==> |Held(s, p)| < setup.prefetch
    ensures Held(Apply(setup, s, step).value, p)
            <= Held(s, p) + (if step.Deliver? && step.p == p then {step.tag} else {})
  {
    forall t | t in Held(Apply(setup, s, step).value, p)
      ensures t in Held(s, p) || (step == Deliver(p, t))
    {
      if step.Boot? || step.Take? || step.Act? || step.LoseSettle? {
        MessagesStay(setup, s, step);
      }
    }
  }

  lemma {:induction false} Fewer(a: set<Tag>, b: set<Tag>)
    requires a <= b
    ensures |a| <= |b|
  {
    if a != {} {
      var x :| x in a;
      Fewer(a - {x}, b - {x});
    }
  }
}
