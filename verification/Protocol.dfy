/** Any number of worker processes on one broker queue, interleaved step by step, with lost
    settlements, lost connections, crashes and restarts.  A restarted process is a new one with an empty
    memory, so a process identifier stands for one life of a process. */
module Protocol {
  import opened Wrappers
  import opened Events
  import opened Handler
  import opened Ledger

  type Tag = nat
  type Pid = nat

  datatype Entry = Entry(tag: Tag, action: Action)

  datatype Job =
    | Idle
    | Rejecting(tag: Tag)
    | Handling(tag: Tag, e: RequestEvent, pc: Pc)

  /** A process: its memory, the deliveries buffered for it, what it is doing, and what it has done. */
  datatype Process = Process(live: bool, connected: bool, seen: set<string>, inbox: seq<Tag>, job: Job, log: seq<Entry>)

  /** The broker keeps each accepted message (its tag is its position in `bodies`) in the queue, unacked
      at a process, acknowledged or dead-lettered.  The queue's order is left open. */
  datatype System = System(
    bodies: seq<Body>,
    queue: multiset<Tag>,
    unacked: map<Tag, Pid>,
    acked: multiset<Tag>,
    dead: multiset<Tag>,
    procs: map<Pid, Process>)

  const FRESH := Process(true, true, {}, [], Idle, [])

  const INIT := System([], multiset{}, map[], multiset{}, multiset{}, map[])

  datatype Setup = Setup(env: Env, prefetch: nat)

  /** The service wires a store and a publisher into every process. */
  predicate Wired(setup: Setup) {
    setup.env.hasStore && setup.env.hasPublisher
  }

  datatype Step =
    | Arrive(body: Body)          // the broker accepts a message
    | Boot(p: Pid)                // a process starts
    | Deliver(p: Pid, tag: Tag)   // the broker hands a queued message to a process
    | Take(p: Pid)                // the worker takes the next buffered delivery and decodes it
    | Act(p: Pid, action: Action) // the handler performs one action
    | Settle(p: Pid)              // the worker acknowledges or rejects, and the broker learns of it
    | LoseSettle(p: Pid)          // the same, but the broker never learns of it
    | Disconnect(p: Pid)          // the broker loses the process, which goes on with what it holds
    | Crash(p: Pid)

  function Held(s: System, p: Pid): set<Tag> {
    set t | t in s.unacked && s.unacked[t] == p
  }

  /** Everything the broker had given to `p` goes back to the queue. */
  function Requeue(s: System, p: Pid): System {
    s.(queue := s.queue + multiset(Held(s, p)), unacked := s.unacked - Held(s, p))
  }

  /** What the worker does with a finished delivery. */
  datatype Fate = ToAcked | ToDead | ToQueue

  function FateOf(job: Job): Option<(Tag, Fate)> {
    match job
    case Rejecting(t) => Some((t, ToDead))
    case Handling(t, e, Returned(v, ok)) => Some((t, if ok then ToAcked else ToQueue))
    case _ => None
  }

  /** A settlement counts only if the message is still unacked at that process. */
  function Dispose(s: System, p: Pid, t: Tag, fate: Fate): System {
    if t !in s.unacked || s.unacked[t] != p then s
    else
      var rest := s.(unacked := s.unacked - {t});
      match fate
      case ToAcked => rest.(acked := s.acked + multiset{t})
      case ToDead => rest.(dead := s.dead + multiset{t})
      case ToQueue => rest.(queue := s.queue + multiset{t})
  }

  function Begin(tag: Tag, body: Body): Job {
    match DecodeRequest(body)
    case Err(_) => Rejecting(tag)
    case Ok(e) => Handling(tag, e, Start)
  }

  function SetProc(s: System, p: Pid, proc: Process): System {
    s.(procs := s.procs[p := proc])
  }

  predicate Live(s: System, p: Pid) {
    p in s.procs && s.procs[p].live
  }

  function Apply(setup: Setup, s: System, step: Step): Option<System> {
    match step
    case Arrive(body) =>
      Some(s.(bodies := s.bodies + [body], queue := s.queue + multiset{|s.bodies|}))
    case Boot(p) =>
      if p in s.procs then None else Some(SetProc(s, p, FRESH))
    case Deliver(p, t) =>
      if Live(s, p) && s.procs[p].connected && t in s.queue && |Held(s, p)| < setup.prefetch then
        var s' := s.(queue := s.queue - multiset{t}, unacked := s.unacked[t := p]);
        Some(SetProc(s', p, s.procs[p].(inbox := s.procs[p].inbox + [t])))
      else None
    case Take(p) =>
      if Live(s, p) && s.procs[p].job.Idle? && s.procs[p].inbox != [] && s.procs[p].inbox[0] < |s.bodies| then
        var t := s.procs[p].inbox[0];
        Some(SetProc(s, p, s.procs[p].(inbox := s.procs[p].inbox[1..], job := Begin(t, s.bodies[t]))))
      else None
    case Act(p, a) =>
      if Live(s, p) && s.procs[p].job.Handling? then
        var proc := s.procs[p];
        match After(setup.env, proc.job.e, State(proc.job.pc, proc.seen), a)
        case None => None
        case Some(next) =>
          Some(SetProc(s, p, Acted(proc, a, next)))
      else None
    case Settle(p) =>
      if Live(s, p) && FateOf(s.procs[p].job).Some? then
        var (t, fate) := FateOf(s.procs[p].job).value;
        Some(SetProc(Dispose(s, p, t, fate), p, s.procs[p].(job := Idle)))
      else None
    case LoseSettle(p) =>
      if Live(s, p) && FateOf(s.procs[p].job).Some? then Some(SetProc(s, p, s.procs[p].(job := Idle)))
      else None
    case Disconnect(p) =>
      if Live(s, p) && s.procs[p].connected then
        Some(SetProc(Requeue(s, p), p, s.procs[p].(connected := false)))
      else None
    case Crash(p) =>
      if Live(s, p) then Some(SetProc(Requeue(s, p), p, s.procs[p].(live := false, connected := false)))
      else None
  }

  /** The state after a sequence of steps; None if some step is not possible. */
  function Exec(setup: Setup, s: System, steps: seq<Step>): Option<System> {
    if steps == [] then Some(s)
    else
      match Exec(setup, s, steps[..|steps| - 1])
      case None => None
      case Some(mid) => Apply(setup, mid, steps[|steps| - 1])
  }

  ghost predicate Reachable(setup: Setup, s: System) {
    exists steps :: Exec(setup, INIT, steps) == Some(s)
  }

  // ----- The invariant --------------------------------------------------------------------------

  /** Each accepted message is in exactly one place, once. */
  ghost predicate Conserved(s: System) {
    forall t: Tag :: s.queue[t] + s.acked[t] + s.dead[t] + (if t in s.unacked then 1 else 0)
                     == if t < |s.bodies| then 1 else 0
  }

  function Actions(log: seq<Entry>): (t: seq<Action>)
    ensures |t| == |log| && forall i :: 0 <= i < |log| ==> t[i] == log[i].action
  {
    if log == [] then [] else Actions(log[..|log| - 1]) + [log[|log| - 1].action]
  }

  /** A result for the message was published. */
  ghost predicate Confirmed(log: seq<Entry>, t: Tag, id: string) {
    exists i: nat :: i < |log| && Confirms(log[i], t, id)
  }

  predicate Confirms(x: Entry, t: Tag, id: string) {
    x.tag == t && x.action.Publish? && x.action.ok && x.action.result.requestEventId == id
  }

  /** Whatever a process did, it did for a valid message, and under that message's event id. */
  predicate EntryOk(bodies: seq<Body>, x: Entry) {
    && x.tag < |bodies|
    && DecodeRequest(bodies[x.tag]).Ok?
    && (x.action.Send? ==> x.action.message.eventId == DecodeRequest(bodies[x.tag]).value.eventId)
    && (x.action.Publish? ==> x.action.result.requestEventId == DecodeRequest(bodies[x.tag]).value.eventId)
  }

  ghost predicate JobOk(bodies: seq<Body>, proc: Process) {
    match proc.job
    case Idle => true
    case Rejecting(t) => t < |bodies| && DecodeRequest(bodies[t]).Err?
    case Handling(t, e, pc) =>
      && t < |bodies| && DecodeRequest(bodies[t]) == Ok(e)
      && Coherent(e, State(pc, proc.seen))
      && (pc.Returned? && pc.ok ==> Confirmed(proc.log, t, e.eventId))
  }

  ghost predicate Books(proc: Process, id: string) {
    match proc.job
    case Handling(t, e, pc) => Balanced(Actions(proc.log), e, State(pc, proc.seen), id)
    case _ => SettledFor(Actions(proc.log), proc.seen, id)
  }

  ghost predicate ProcOk(bodies: seq<Body>, proc: Process) {
    && JobOk(bodies, proc)
    && (forall i :: 0 <= i < |proc.log| ==> EntryOk(bodies, proc.log[i]))
    && (forall id :: Books(proc, id))
  }

  /** Acknowledged messages were valid and have a published result; dead-lettered ones were invalid. */
  ghost predicate FinalOk(s: System) {
    && (forall t :: t in s.acked ==> AckedOk(s, t))
    && (forall t :: t in s.dead ==> t < |s.bodies| && DecodeRequest(s.bodies[t]).Err?)
  }

  ghost predicate Inv(s: System) {
    && Conserved(s)
    && (forall p :: p in s.procs ==> ProcOk(s.bodies, s.procs[p]))
    && FinalOk(s)
  }

  // ----- Every step keeps it --------------------------------------------------------------------

  lemma RequeueConserves(s: System, p: Pid)
    requires Conserved(s)
    ensures Conserved(Requeue(s, p))
  {
    var s' := Requeue(s, p);
    forall t: Tag
      ensures s'.queue[t] + (if t in s'.unacked then 1 else 0) == s.queue[t] + (if t in s.unacked then 1 else 0)
    {
      assert multiset(Held(s, p))[t] == if t in Held(s, p) then 1 else 0;
    }
  }

  lemma DisposeConserves(s: System, p: Pid, t: Tag, fate: Fate)
    requires Conserved(s)
    ensures Conserved(Dispose(s, p, t, fate))
  {
  }

  lemma ArriveConserves(s: System, body: Body)
    requires Conserved(s)
    ensures Conserved(s.(bodies := s.bodies + [body], queue := s.queue + multiset{|s.bodies|}))
  {
  }

  lemma DeliverConserves(s: System, p: Pid, t: Tag)
    requires Conserved(s) && t in s.queue
    ensures Conserved(s.(queue := s.queue - multiset{t}, unacked := s.unacked[t := p]))
  {
    assert s.queue[t] > 0;
  }

  lemma SettleConserves(setup: Setup, s: System, p: Pid)
    requires Conserved(s) && Apply(setup, s, Settle(p)).Some?
    ensures Conserved(Apply(setup, s, Settle(p)).value)
  {
    var (t, fate) := FateOf(s.procs[p].job).value;
    DisposeConserves(s, p, t, fate);
  }

  /** The messages stay where they are. */
  lemma MessagesStay(setup: Setup, s: System, step: Step)
    requires step.Boot? || step.Take? || step.Act? || step.LoseSettle?
    requires Apply(setup, s, step).Some?
    ensures var s' := Apply(setup, s, step).value;
            && s'.bodies == s.bodies && s'.queue == s.queue && s'.unacked == s.unacked
            && s'.acked == s.acked && s'.dead == s.dead
  {
  }

  lemma StepConserves(setup: Setup, s: System, step: Step)
    requires Conserved(s) && Apply(setup, s, step).Some?
    ensures Conserved(Apply(setup, s, step).value)
  {
    match step
    case Arrive(body) => ArriveConserves(s, body);
    case Deliver(p, t) => DeliverConserves(s, p, t);
    case Disconnect(p) => RequeueConserves(s, p);
    case Crash(p) => RequeueConserves(s, p);
    case Settle(p) => SettleConserves(setup, s, p);
    case _ => MessagesStay(setup, s, step);
  }

  lemma ActionsAppend(log: seq<Entry>, x: Entry)
    ensures Actions(log + [x]) == Actions(log) + [x.action]
  {
    assert (log + [x])[..|log|] == log;
  }

  function Acted(proc: Process, a: Action, next: State): Process
    requires proc.job.Handling?
  {
    proc.(seen := next.seen, job := proc.job.(pc := next.pc), log := proc.log + [Entry(proc.job.tag, a)])
  }

  lemma ActKeepsBooks(setup: Setup, proc: Process, a: Action, next: State, id: string)
    requires Wired(setup) && proc.job.Handling? && Books(proc, id)
    requires Coherent(proc.job.e, State(proc.job.pc, proc.seen))
    requires After(setup.env, proc.job.e, State(proc.job.pc, proc.seen), a) == Some(next)
    ensures Coherent(proc.job.e, next) && Books(Acted(proc, a, next), id)
  {
    ActionsAppend(proc.log, Entry(proc.job.tag, a));
    StepBalanced(setup.env, proc.job.e, Actions(proc.log), State(proc.job.pc, proc.seen), a, id);
  }

  lemma ActEntryOk(setup: Setup, bodies: seq<Body>, proc: Process, a: Action, next: State)
    requires JobOk(bodies, proc) && proc.job.Handling?
    requires After(setup.env, proc.job.e, State(proc.job.pc, proc.seen), a) == Some(next)
    ensures EntryOk(bodies, Entry(proc.job.tag, a))
    ensures next.pc.Returned? && next.pc.ok && setup.env.hasPublisher ==>
              Confirms(Entry(proc.job.tag, a), proc.job.tag, proc.job.e.eventId)
  {
    match proc.job.pc
    case Publishing(v) =>
      assert a.Publish? || a.Discard?;
    case _ =>
  }

  lemma ActKeepsProc(setup: Setup, bodies: seq<Body>, proc: Process, a: Action, next: State)
    requires Wired(setup) && ProcOk(bodies, proc) && proc.job.Handling?
    requires After(setup.env, proc.job.e, State(proc.job.pc, proc.seen), a) == Some(next)
    ensures ProcOk(bodies, Acted(proc, a, next))
  {
    var proc' := Acted(proc, a, next);
    forall id ensures Books(proc', id) && Coherent(proc.job.e, next) {
      assert Books(proc, id);
      ActKeepsBooks(setup, proc, a, next, id);
    }
    assert Books(proc', "");
    ActEntryOk(setup, bodies, proc, a, next);
    assert proc'.log[|proc.log|] == Entry(proc.job.tag, a);
  }

  lemma ProcLater(bodies: seq<Body>, body: Body, proc: Process)
    requires ProcOk(bodies, proc)
    ensures ProcOk(bodies + [body], proc)
  {
  }

  /** How a step other than the handler's changes a process: at most by starting or finishing a
      delivery. */
  ghost predicate JobChanged(bodies: seq<Body>, proc: Process, proc': Process) {
    && proc'.log == proc.log && proc'.seen == proc.seen
    && (|| proc'.job == proc.job
        || (proc.job.Idle? && exists t: Tag :: t < |bodies| && proc'.job == Begin(t, bodies[t]))
        || (FateOf(proc.job).Some? && proc'.job.Idle?))
  }

  lemma TakeChangesJob(setup: Setup, s: System, p: Pid)
    requires Apply(setup, s, Take(p)).Some?
    ensures JobChanged(s.bodies, s.procs[p], Apply(setup, s, Take(p)).value.procs[p])
  {
    var t := s.procs[p].inbox[0];
    assert t < |s.bodies| && Apply(setup, s, Take(p)).value.procs[p].job == Begin(t, s.bodies[t]);
  }

  lemma ProcAfter(setup: Setup, s: System, step: Step, p: Pid)
    requires Apply(setup, s, step).Some? && p in s.procs && !(step.Act? && step.p == p)
    ensures p in Apply(setup, s, step).value.procs
    ensures JobChanged(s.bodies, s.procs[p], Apply(setup, s, step).value.procs[p])
  {
    if step.Arrive? || step.p != p {
      OtherProcs(setup, s, step, p);
    } else if step.Take? {
      TakeChangesJob(setup, s, p);
    } else {
      OwnProc(setup, s, step, p);
    }
  }

  lemma OtherProcs(setup: Setup, s: System, step: Step, p: Pid)
    requires Apply(setup, s, step).Some? && p in s.procs && (step.Arrive? || step.p != p)
    ensures p in Apply(setup, s, step).value.procs && Apply(setup, s, step).value.procs[p] == s.procs[p]
  {
  }

  lemma OwnProc(setup: Setup, s: System, step: Step, p: Pid)
    requires Apply(setup, s, step).Some? && p in s.procs
    requires !step.Arrive? && step.p == p && !step.Take? && !step.Act?
    ensures p in Apply(setup, s, step).value.procs
    ensures var proc, proc' := s.procs[p], Apply(setup, s, step).value.procs[p];
            && proc'.log == proc.log && proc'.seen == proc.seen
            && (proc'.job == proc.job || (FateOf(proc.job).Some? && proc'.job.Idle?))
  {
  }

  lemma JobChangeKeepsProc(bodies: seq<Body>, proc: Process, proc': Process)
    requires ProcOk(bodies, proc) && JobChanged(bodies, proc, proc')
    ensures ProcOk(bodies, proc')
  {
    forall id ensures Books(proc', id) {
      assert Books(proc, id);
    }
  }

  lemma NewProcOk(bodies: seq<Body>)
    ensures ProcOk(bodies, FRESH)
  {
    assert forall id :: SettledFor([], {}, id);
  }

  lemma StepKeepsProc(setup: Setup, s: System, step: Step, p: Pid)
    requires Wired(setup) && Apply(setup, s, step).Some?
    requires p in s.procs ==> ProcOk(s.bodies, s.procs[p])
    requires p in Apply(setup, s, step).value.procs
    ensures ProcOk(Apply(setup, s, step).value.bodies, Apply(setup, s, step).value.procs[p])
  {
    var s' := Apply(setup, s, step).value;
    if p !in s.procs {
      NewProcOk(s.bodies);
    } else if step.Act? && step.p == p {
      ActStep(setup, s, p, step.action);
    } else {
      ProcAfter(setup, s, step, p);
      JobChangeKeepsProc(s.bodies, s.procs[p], s'.procs[p]);
      if step.Arrive? {
        ProcLater(s.bodies, step.body, s'.procs[p]);
      }
    }
  }

  lemma ActStep(setup: Setup, s: System, p: Pid, a: Action)
    requires Wired(setup) && Apply(setup, s, Act(p, a)).Some? && ProcOk(s.bodies, s.procs[p])
    ensures ProcOk(s.bodies, Apply(setup, s, Act(p, a)).value.procs[p])
  {
    var proc := s.procs[p];
    ActKeepsProc(setup, s.bodies, proc, a, After(setup.env, proc.job.e, State(proc.job.pc, proc.seen), a).value);
  }

  /** Logs and bodies only grow. */
  lemma LogsGrow(setup: Setup, s: System, step: Step, p: Pid)
    requires Apply(setup, s, step).Some? && p in s.procs
    ensures p in Apply(setup, s, step).value.procs
    ensures s.procs[p].log <= Apply(setup, s, step).value.procs[p].log
  {
    if step.Act? && step.p == p {
    } else {
      ProcAfter(setup, s, step, p);
    }
  }

  lemma BodiesGrow(setup: Setup, s: System, step: Step)
    requires Apply(setup, s, step).Some?
    ensures s.bodies <= Apply(setup, s, step).value.bodies
  {
  }

  /** A message becomes final only by a settlement of its holder. */
  lemma BecomesFinal(setup: Setup, s: System, step: Step, t: Tag)
    requires Apply(setup, s, step).Some?
    ensures var s' := Apply(setup, s, step).value;
            && (t in s'.acked && t !in s.acked ==> step.Settle? && FateOf(s.procs[step.p].job) == Some((t, ToAcked)))
            && (t in s'.dead && t !in s.dead ==> step.Settle? && FateOf(s.procs[step.p].job) == Some((t, ToDead)))
  {
  }

  ghost predicate AckedOk(s: System, t: Tag) {
    && t < |s.bodies| && DecodeRequest(s.bodies[t]).Ok?
    && exists p :: p in s.procs && Confirmed(s.procs[p].log, t, DecodeRequest(s.bodies[t]).value.eventId)
  }

  lemma AckedStays(setup: Setup, s: System, step: Step, t: Tag, p: Pid)
    requires Apply(setup, s, step).Some?
    requires t < |s.bodies| && DecodeRequest(s.bodies[t]).Ok? && p in s.procs
    requires Confirmed(s.procs[p].log, t, DecodeRequest(s.bodies[t]).value.eventId)
    ensures AckedOk(Apply(setup, s, step).value, t)
  {
    var s', id := Apply(setup, s, step).value, DecodeRequest(s.bodies[t]).value.eventId;
    BodiesGrow(setup, s, step);
    LogsGrow(setup, s, step, p);
    var i: nat :| i < |s.procs[p].log| && Confirms(s.procs[p].log[i], t, id);
    assert Confirms(s'.procs[p].log[i], t, id);
    assert Confirmed(s'.procs[p].log, t, id);
  }

  lemma StepKeepsAcked(setup: Setup, s: System, step: Step, t: Tag)
    requires Apply(setup, s, step).Some? && t in Apply(setup, s, step).value.acked
    requires t in s.acked ==> AckedOk(s, t)
    requires step.Settle? ==> JobOk(s.bodies, s.procs[step.p])
    ensures AckedOk(Apply(setup, s, step).value, t)
  {
    BecomesFinal(setup, s, step, t);
    if t in s.acked {
      assert AckedOk(s, t);
      var p :| p in s.procs && Confirmed(s.procs[p].log, t, DecodeRequest(s.bodies[t]).value.eventId);
      AckedStays(setup, s, step, t, p);
    } else {
      AckedStays(setup, s, step, t, step.p);
    }
  }

  lemma StepKeepsDead(setup: Setup, s: System, step: Step, t: Tag)
    requires Inv(s) && Apply(setup, s, step).Some? && t in Apply(setup, s, step).value.dead
    ensures t < |Apply(setup, s, step).value.bodies| && DecodeRequest(Apply(setup, s, step).value.bodies[t]).Err?
  {
    BecomesFinal(setup, s, step, t);
    BodiesGrow(setup, s, step);
    if t !in s.dead {
      assert JobOk(s.bodies, s.procs[step.p]);
    }
  }

  lemma StepKeepsInv(setup: Setup, s: System, step: Step)
    requires Wired(setup) && Inv(s) && Apply(setup, s, step).Some?
    ensures Inv(Apply(setup, s, step).value)
  {
    var s' := Apply(setup, s, step).value;
    StepConserves(setup, s, step);
    forall p | p in s'.procs ensures ProcOk(s'.bodies, s'.procs[p]) {
      StepKeepsProc(setup, s, step, p);
    }
    forall t | t in s'.acked ensures AckedOk(s', t) {
      assert step.Settle? ==> ProcOk(s.bodies, s.procs[step.p]);
      StepKeepsAcked(setup, s, step, t);
    }
    forall t | t in s'.dead ensures t < |s'.bodies| && DecodeRequest(s'.bodies[t]).Err? {
      StepKeepsDead(setup, s, step, t);
    }
  }

  lemma {:induction false} ExecKeepsInv(setup: Setup, s: System, steps: seq<Step>)
    requires Wired(setup) && Inv(s) && Exec(setup, s, steps).Some?
    ensures Inv(Exec(setup, s, steps).value)
  {
    if steps != [] {
      var init, step := steps[..|steps| - 1], steps[|steps| - 1];
      ExecKeepsInv(setup, s, init);
      var mid := Exec(setup, s, init).value;
      StepKeepsInv(setup, mid, step);
    }
  }

  lemma ReachableInv(setup: Setup, s: System)
    requires Wired(setup) && Reachable(setup, s)
    ensures Inv(s)
  {
    var steps :| Exec(setup, INIT, steps) == Some(s);
    ExecKeepsInv(setup, INIT, steps);
  }

  lemma ExecAppend(setup: Setup, s: System, steps: seq<Step>, step: Step)
    requires Exec(setup, s, steps).Some?
    ensures Exec(setup, s, steps + [step]) == Apply(setup, Exec(setup, s, steps).value, step)
  {
    assert (steps + [step])[..|steps|] == steps;
  }

  lemma ChainReachable(setup: Setup, s: System, step: Step, s': System)
    requires Reachable(setup, s) && Apply(setup, s, step) == Some(s')
    ensures Reachable(setup, s')
  {
    var steps :| Exec(setup, INIT, steps) == Some(s);
    ExecAppend(setup, INIT, steps, step);
  }

  lemma {:induction false} ExecConcat(setup: Setup, s: System, a: seq<Step>, b: seq<Step>)
    requires Exec(setup, s, a).Some?
    ensures Exec(setup, s, a + b) == Exec(setup, Exec(setup, s, a).value, b)
  {
    if b == [] {
      assert a + b == a;
    } else {
      ExecConcat(setup, s, a, b[..|b| - 1]);
      assert (a + b)[..|a + b| - 1] == a + b[..|b| - 1];
    }
  }

  lemma ExecOne(setup: Setup, s: System, step: Step)
    ensures Exec(setup, s, [step]) == Apply(setup, s, step)
  {
    assert [step][..0] == [];
    assert Exec(setup, s, []) == Some(s);
  }

  lemma ExecPrepend(setup: Setup, s: System, step: Step, rest: seq<Step>)
    requires Apply(setup, s, step).Some?
    ensures Exec(setup, s, [step] + rest) == Exec(setup, Apply(setup, s, step).value, rest)
  {
    ExecOne(setup, s, step);
    ExecConcat(setup, s, [step], rest);
  }
}
