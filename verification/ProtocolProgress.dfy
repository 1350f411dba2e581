/** Progress: undisturbed work is always finite, and it drains the queue exactly when no message is stranded at
    a process that has lost the message's settlement. */
module ProtocolProgress {
  import opened Wrappers
  import opened Events
  import opened Providers
  import opened Templates
  import opened Handler
  import opened Ledger
  import opened Protocol

  /** The steps of undisturbed work. */
  predicate IsWork(step: Step) {
    step.Deliver? || step.Take? || step.Act? || step.Settle?
  }

  ghost predicate AllWork(steps: seq<Step>) {
    forall i :: 0 <= i < |steps| ==> IsWork(steps[i])
  }

  predicate IsFailedPublish(step: Step) {
    step.Act? && step.action.Publish? && !step.action.ok
  }

  function Failures(steps: seq<Step>): nat {
    if steps == [] then 0
    else Failures(steps[..|steps| - 1]) + (if IsFailedPublish(steps[|steps| - 1]) then 1 else 0)
  }

  // ----- What every reachable state satisfies ---------------------------------------------------

  /** The handler's index lies in the plan, at an entry that is asked. */
  predicate JobPositioned(env: Env, job: Job) {
    match job
    case Handling(_, e, Sending(_, i)) => i < |Plan(env, e)| && EntryOf(env, e, Plan(env, e)[i]).Asked?
    case Handling(_, e, Marking(i)) => i < |Plan(env, e)|
    case _ => true
  }

  ghost predicate Placed(setup: Setup, bodies: seq<Body>, proc: Process) {
    JobPositioned(setup.env, proc.job) && forall t :: t in proc.inbox ==> t < |bodies|
  }

  /** The broker regards a process as connected: only such a process holds messages. */
  predicate Up(s: System, p: Pid) {
    Live(s, p) && s.procs[p].connected
  }

  ghost predicate HeldByUp(s: System) {
    forall t :: t in s.unacked ==> Up(s, s.unacked[t])
  }

  ghost predicate Sound(setup: Setup, s: System) {
    && Inv(s)
    && HeldByUp(s)
    && forall p :: p in s.procs ==> Placed(setup, s.bodies, s.procs[p])
  }

  /** Whether the step takes a process from the broker. */
  predicate Loses(step: Step, p: Pid) {
    (step.Disconnect? || step.Crash?) && step.p == p
  }

  lemma StaysConnected(setup: Setup, s: System, step: Step, p: Pid)
    requires Apply(setup, s, step).Some? && Up(s, p) && !Loses(step, p)
    ensures Up(Apply(setup, s, step).value, p)
  {
    if step.Arrive? || step.p != p {
      OtherProcs(setup, s, step, p);
    }
  }

  /** A message is held by who held it, or by who has just been given it. */
  lemma HeldAfter(setup: Setup, s: System, step: Step, t: Tag)
    requires Apply(setup, s, step).Some? && t in Apply(setup, s, step).value.unacked
    ensures var q := Apply(setup, s, step).value.unacked[t];
            || (t in s.unacked && s.unacked[t] == q && !Loses(step, q))
            || (step == Deliver(q, t) && Up(s, q))
  {
    if step.Disconnect? || step.Crash? {
      assert t in s.unacked && t !in Held(s, step.p);
    } else if step.Boot? || step.Take? || step.Act? || step.LoseSettle? {
      MessagesStay(setup, s, step);
    }
  }

  lemma StepKeepsHeldByUp(setup: Setup, s: System, step: Step)
    requires HeldByUp(s) && Apply(setup, s, step).Some?
    ensures HeldByUp(Apply(setup, s, step).value)
  {
    var s' := Apply(setup, s, step).value;
    forall t | t in s'.unacked ensures Up(s', s'.unacked[t]) {
      HeldAfter(setup, s, step, t);
      StaysConnected(setup, s, step, s'.unacked[t]);
    }
  }

  lemma StepKeepsPlaced(setup: Setup, s: System, step: Step, p: Pid)
    requires Conserved(s) && Apply(setup, s, step).Some? && p in Apply(setup, s, step).value.procs
    requires p in s.procs ==> Placed(setup, s.bodies, s.procs[p])
    ensures Placed(setup, Apply(setup, s, step).value.bodies, Apply(setup, s, step).value.procs[p])
  {
    StepKeepsPosition(setup, s, step, p);
    StepKeepsInbox(setup, s, step, p);
  }

  lemma StepKeepsPosition(setup: Setup, s: System, step: Step, p: Pid)
    requires Apply(setup, s, step).Some? && p in Apply(setup, s, step).value.procs
    requires p in s.procs ==> JobPositioned(setup.env, s.procs[p].job)
    ensures JobPositioned(setup.env, Apply(setup, s, step).value.procs[p].job)
  {
    if p in s.procs && !(step.Act? && step.p == p) {
      ProcAfter(setup, s, step, p);
    }
  }

  lemma StepKeepsInbox(setup: Setup, s: System, step: Step, p: Pid)
    requires Conserved(s) && Apply(setup, s, step).Some? && p in Apply(setup, s, step).value.procs
    requires p in s.procs ==> forall t :: t in s.procs[p].inbox ==> t < |s.bodies|
    ensures forall t :: t in Apply(setup, s, step).value.procs[p].inbox ==> t < |Apply(setup, s, step).value.bodies|
  {
    var s' := Apply(setup, s, step).value;
    BodiesGrow(setup, s, step);
    forall t | t in s'.procs[p].inbox ensures t < |s'.bodies| {
      InboxAfter(setup, s, step, p, t);
      if step == Deliver(p, t) {
        assert s.queue[t] > 0;
      }
    }
  }

  lemma InboxAfter(setup: Setup, s: System, step: Step, p: Pid, t: Tag)
    requires Apply(setup, s, step).Some? && p in Apply(setup, s, step).value.procs
    requires t in Apply(setup, s, step).value.procs[p].inbox
    ensures (p in s.procs && t in s.procs[p].inbox) || (step == Deliver(p, t) && t in s.queue)
  {
    if p in s.procs && (step.Arrive? || step.p != p) {
      OtherProcs(setup, s, step, p);
    }
  }

  lemma StepKeepsSound(setup: Setup, s: System, step: Step)
    requires Wired(setup) && Sound(setup, s) && Apply(setup, s, step).Some?
    ensures Sound(setup, Apply(setup, s, step).value)
  {
    StepKeepsInv(setup, s, step);
    StepKeepsHeldByUp(setup, s, step);
    var s' := Apply(setup, s, step).value;
    forall p | p in s'.procs ensures Placed(setup, s'.bodies, s'.procs[p]) {
      StepKeepsPlaced(setup, s, step, p);
    }
  }

  lemma {:induction false} ExecKeepsSound(setup: Setup, s: System, steps: seq<Step>)
    requires Wired(setup) && Sound(setup, s) && Exec(setup, s, steps).Some?
    ensures Sound(setup, Exec(setup, s, steps).value)
  {
    if steps != [] {
      ExecKeepsSound(setup, s, steps[..|steps| - 1]);
      StepKeepsSound(setup, Exec(setup, s, steps[..|steps| - 1]).value, steps[|steps| - 1]);
    }
  }

  lemma ReachableSound(setup: Setup, s: System)
    requires Wired(setup) && Reachable(setup, s)
    ensures Sound(setup, s)
  {
    var steps :| Exec(setup, INIT, steps) == Some(s);
    ExecKeepsSound(setup, INIT, steps);
  }

  // ----- Work is finite -------------------------------------------------------------------------

  /** `c` bounds the plan length of every valid message, with some room. */
  ghost predicate PlansWithin(setup: Setup, s: System, c: nat) {
    forall t :: 0 <= t < |s.bodies| && DecodeRequest(s.bodies[t]).Ok? ==>
      |Plan(setup.env, DecodeRequest(s.bodies[t]).value)| + 4 <= c
  }

  /** There always is such a bound. */
  lemma {:induction false} SomeBound(setup: Setup, bodies: seq<Body>) returns (c: nat)
    ensures forall s: System :: s.bodies == bodies ==> PlansWithin(setup, s, c)
  {
    if bodies == [] {
      c := 0;
    } else {
      var init, last := bodies[..|bodies| - 1], bodies[|bodies| - 1];
      c := SomeBound(setup, init);
      var n := if DecodeRequest(last).Ok? then |Plan(setup.env, DecodeRequest(last).value)| + 4 else 0;
      var c0 := c;
      c := if c < n then n else c;
      forall s: System | s.bodies == bodies ensures PlansWithin(setup, s, c) {
        assert PlansWithin(setup, s.(bodies := init), c0);
        forall t | 0 <= t < |bodies| && DecodeRequest(bodies[t]).Ok?
          ensures |Plan(setup.env, DecodeRequest(bodies[t]).value)| + 4 <= c
        {
          if t < |init| { assert init[t] == bodies[t]; }
        }
      }
    }
  }

  /** An upper bound on the steps a request still needs; a failed publication may start it over. */
  function PcWork(env: Env, e: RequestEvent, pc: Pc, c: nat): nat {
    match pc
    case Start => |Plan(env, e)| + 5
    case Rendering => |Plan(env, e)| + 4
    case Sending(_, i) => if i < |Plan(env, e)| then |Plan(env, e)| - i + 3 else 0
    case Marking(_) => 3
    case Publishing(_) => 2
    case Returned(_, ok) => if ok then 1 else c + 4
  }

  function JobWork(setup: Setup, job: Job, c: nat): nat {
    match job
    case Idle => 0
    case Rejecting(_) => 1
    case Handling(_, e, pc) => PcWork(setup.env, e, pc, c)
  }

  /** `n` times `unit`. */
  function Units(n: nat, unit: nat): nat {
    if n == 0 then 0 else Units(n - 1, unit) + unit
  }

  /** The work a process has in hand, whether or not the broker still wants it done there. */
  function ProcWork(setup: Setup, proc: Process, c: nat): nat {
    if proc.live then JobWork(setup, proc.job, c) + Units(|proc.inbox|, c + 2) else 0
  }

  function AllProcWork(setup: Setup, procs: map<Pid, Process>, c: nat, n: nat): nat {
    if n == 0 then 0
    else
      AllProcWork(setup, procs, c, n - 1)
      + (if n - 1 in procs then ProcWork(setup, procs[n - 1], c) else 0)
  }

  /** The work left in a state whose processes are numbered below `n`. */
  function Total(setup: Setup, s: System, c: nat, n: nat): nat {
    Units(|s.queue|, c + 3) + AllProcWork(setup, s.procs, c, n)
  }

  ghost predicate NumberedBelow(s: System, n: nat) {
    forall p :: p in s.procs ==> p < n
  }

  lemma {:induction false} WorkOfOneProc(setup: Setup, procs: map<Pid, Process>, p: Pid, proc: Process, c: nat, n: nat)
    requires p in procs
    ensures AllProcWork(setup, procs[p := proc], c, n) - AllProcWork(setup, procs, c, n)
            == if p < n then ProcWork(setup, proc, c) - ProcWork(setup, procs[p], c) else 0
  {
    if n > 0 {
      WorkOfOneProc(setup, procs, p, proc, c, n - 1);
    }
  }

  /** A handler action uses up work, unless it is a failed publication. */
  lemma ActUsesWork(setup: Setup, e: RequestEvent, s: State, a: Action, next: State, c: nat)
    requires After(setup.env, e, s, a) == Some(next) && |Plan(setup.env, e)| + 4 <= c
    ensures if a.Publish? && !a.ok then PcWork(setup.env, e, next.pc, c) < PcWork(setup.env, e, s.pc, c) + c + 4
            else PcWork(setup.env, e, next.pc, c) < PcWork(setup.env, e, s.pc, c)
  {
  }

  /** What a failed publication may add. */
  function Extra(step: Step, c: nat): nat {
    if IsFailedPublish(step) then c + 4 else 0
  }

  /** The step changes one process, and the work in the queue and at that process together falls. */
  ghost predicate UsesWork(setup: Setup, s: System, step: Step, s': System, c: nat)
    requires IsWork(step)
  {
    && step.p in s.procs && step.p in s'.procs && s'.procs == s.procs[step.p := s'.procs[step.p]]
    && Units(|s'.queue|, c + 3) + ProcWork(setup, s'.procs[step.p], c)
       < Units(|s.queue|, c + 3) + ProcWork(setup, s.procs[step.p], c) + Extra(step, c)
  }

  lemma DeliverUsesWork(setup: Setup, s: System, p: Pid, t: Tag, c: nat)
    requires Apply(setup, s, Deliver(p, t)).Some?
    ensures UsesWork(setup, s, Deliver(p, t), Apply(setup, s, Deliver(p, t)).value, c)
  {
    var s' := Apply(setup, s, Deliver(p, t)).value;
    assert s.queue == s'.queue + multiset{t};
  }

  lemma TakeUsesWork(setup: Setup, s: System, p: Pid, c: nat)
    requires PlansWithin(setup, s, c) && Apply(setup, s, Take(p)).Some?
    ensures UsesWork(setup, s, Take(p), Apply(setup, s, Take(p)).value, c)
  {
  }

  lemma ActUsesWorkOf(setup: Setup, s: System, p: Pid, a: Action, c: nat)
    requires PlansWithin(setup, s, c) && Apply(setup, s, Act(p, a)).Some? && JobOk(s.bodies, s.procs[p])
    ensures UsesWork(setup, s, Act(p, a), Apply(setup, s, Act(p, a)).value, c)
  {
    var proc := s.procs[p];
    var before := State(proc.job.pc, proc.seen);
    ActUsesWork(setup, proc.job.e, before, a, After(setup.env, proc.job.e, before, a).value, c);
  }

  lemma SettleUsesWork(setup: Setup, s: System, p: Pid, c: nat)
    requires Apply(setup, s, Settle(p)).Some?
    ensures UsesWork(setup, s, Settle(p), Apply(setup, s, Settle(p)).value, c)
  {
    var (t, fate) := FateOf(s.procs[p].job).value;
    assert Units(|s.queue| + 1, c + 3) == Units(|s.queue|, c + 3) + c + 3;
    assert |Dispose(s, p, t, fate).queue| <= |s.queue| + if fate.ToQueue? then 1 else 0;
  }

  lemma StepUsesWork(setup: Setup, s: System, step: Step, c: nat)
    requires Inv(s) && PlansWithin(setup, s, c) && IsWork(step) && Apply(setup, s, step).Some?
    ensures UsesWork(setup, s, step, Apply(setup, s, step).value, c)
  {
    match step
    case Deliver(p, t) => DeliverUsesWork(setup, s, p, t, c);
    case Take(p) => TakeUsesWork(setup, s, p, c);
    case Act(p, a) =>
      assert ProcOk(s.bodies, s.procs[p]);
      ActUsesWorkOf(setup, s, p, a, c);
    case Settle(p) => SettleUsesWork(setup, s, p, c);
    case _ =>
  }

  /** One step of work, in numbers. */
  lemma TotalFalls(setup: Setup, s: System, step: Step, c: nat, n: nat)
    requires Inv(s) && PlansWithin(setup, s, c) && NumberedBelow(s, n)
    requires IsWork(step) && Apply(setup, s, step).Some?
    ensures var s' := Apply(setup, s, step).value;
            && s'.bodies == s.bodies && s'.procs.Keys == s.procs.Keys
            && Total(setup, s', c, n) < Total(setup, s, c, n) + Extra(step, c)
  {
    var s' := Apply(setup, s, step).value;
    StepUsesWork(setup, s, step, c);
    WorkOfOneProc(setup, s.procs, step.p, s'.procs[step.p], c, n);
    WorkKeepsBodies(setup, s, step);
  }

  lemma WorkKeepsBodies(setup: Setup, s: System, step: Step)
    requires IsWork(step) && Apply(setup, s, step).Some?
    ensures Apply(setup, s, step).value.bodies == s.bodies
  {
  }

  /** The extra work that failed publications bring. */
  function FailureWork(steps: seq<Step>, c: nat): nat {
    if steps == [] then 0 else FailureWork(steps[..|steps| - 1], c) + Extra(steps[|steps| - 1], c)
  }

  lemma {:induction false} FailureWorkIsProduct(steps: seq<Step>, c: nat)
    ensures FailureWork(steps, c) == Failures(steps) * (c + 4)
  {
    if steps != [] {
      FailureWorkIsProduct(steps[..|steps| - 1], c);
    }
  }

  lemma {:induction false} WorkIsMeasured(setup: Setup, s: System, steps: seq<Step>, c: nat, n: nat)
    requires Wired(setup) && Inv(s) && PlansWithin(setup, s, c) && NumberedBelow(s, n)
    requires AllWork(steps) && Exec(setup, s, steps).Some?
    ensures var s' := Exec(setup, s, steps).value;
            && Inv(s') && s'.bodies == s.bodies && s'.procs.Keys == s.procs.Keys
            && |steps| + Total(setup, s', c, n) <= Total(setup, s, c, n) + FailureWork(steps, c)
  {
    if steps != [] {
      var init, step := steps[..|steps| - 1], steps[|steps| - 1];
      assert IsWork(step) && AllWork(init);
      WorkIsMeasured(setup, s, init, c, n);
      var mid := Exec(setup, s, init).value;
      StepKeepsInv(setup, mid, step);
      TotalFalls(setup, mid, step, c, n);
    }
  }

  /** From any reachable state, whatever happened before: the length of undisturbed work is bounded by the work
      at hand and, for each failed publication, a fixed amount. */
  lemma WorkIsBounded(setup: Setup, s: System, steps: seq<Step>, c: nat, n: nat)
    requires Wired(setup) && Reachable(setup, s) && PlansWithin(setup, s, c) && NumberedBelow(s, n)
    requires AllWork(steps) && Exec(setup, s, steps).Some?
    ensures |steps| <= Total(setup, s, c, n) + Failures(steps) * (c + 4)
  {
    ReachableInv(setup, s);
    WorkIsMeasured(setup, s, steps, c, n);
    FailureWorkIsProduct(steps, c);
  }

  // ----- Stranded messages ----------------------------------------------------------------------

  predicate InHand(proc: Process, t: Tag) {
    t in proc.inbox || (!proc.job.Idle? && proc.job.tag == t)
  }

  /** The broker waits for a settlement that the process holding the message will not send. */
  predicate Stranded(s: System, t: Tag) {
    t in s.unacked && s.unacked[t] in s.procs && !InHand(s.procs[s.unacked[t]], t)
  }

  ghost predicate NothingStranded(s: System) {
    forall t :: !Stranded(s, t)
  }

  /** Only the loss of a settlement by its holder strands a message. */
  lemma BecomesStranded(setup: Setup, s: System, step: Step, t: Tag)
    requires HeldByUp(s) && Apply(setup, s, step).Some?
    ensures var s' := Apply(setup, s, step).value;
            Stranded(s', t) ==>
              s'.unacked[t] in s.procs
              && ((Stranded(s, t) && s.unacked[t] == s'.unacked[t]) || step == LoseSettle(s'.unacked[t]))
  {
    var s' := Apply(setup, s, step).value;
    if step.Disconnect? || step.Crash? {
      RequeuedStranded(setup, s, step, t);
    } else if t in s'.unacked && t in s.unacked && step.Take? && step.p == s.unacked[t] {
      var proc := s.procs[step.p];
      assert proc.inbox == [proc.inbox[0]] + proc.inbox[1..];
    } else if t in s.unacked {
      assert Up(s, s.unacked[t]);
    }
  }

  lemma RequeuedStranded(setup: Setup, s: System, step: Step, t: Tag)
    requires (step.Disconnect? || step.Crash?) && Apply(setup, s, step).Some?
    ensures Stranded(Apply(setup, s, step).value, t) <==> Stranded(s, t) && s.unacked[t] != step.p
  {
    assert t in Held(s, step.p) <==> t in s.unacked && s.unacked[t] == step.p;
  }

  /** A process has lost a settlement somewhere in the run. */
  predicate LostSettlement(steps: seq<Step>, p: Pid) {
    LoseSettle(p) in steps
  }

  lemma {:induction false} StrandedByLoss(setup: Setup, steps: seq<Step>, t: Tag)
    requires Exec(setup, INIT, steps).Some?
    ensures var s := Exec(setup, INIT, steps).value;
            HeldByUp(s) && (Stranded(s, t) ==> LostSettlement(steps, s.unacked[t]))
  {
    if steps != [] {
      var init, step := steps[..|steps| - 1], steps[|steps| - 1];
      StrandedByLoss(setup, init, t);
      var mid := Exec(setup, INIT, init).value;
      StepKeepsHeldByUp(setup, mid, step);
      BecomesStranded(setup, mid, step, t);
      assert steps == init + [step];
    }
  }

  /** After any run, with connections and settlements lost and processes crashed as they may be: if no process
      that is still connected has itself lost a settlement, nothing is stranded. */
  lemma UndisturbedStrandsNothing(setup: Setup, steps: seq<Step>)
    requires Exec(setup, INIT, steps).Some?
    requires forall p :: Up(Exec(setup, INIT, steps).value, p) ==> !LostSettlement(steps, p)
    ensures NothingStranded(Exec(setup, INIT, steps).value)
  {
    var s := Exec(setup, INIT, steps).value;
    forall t ensures !Stranded(s, t) {
      StrandedByLoss(setup, steps, t);
      if t in s.unacked {
        assert Up(s, s.unacked[t]);
      }
    }
  }

  /** The loss of its connection or its death frees what is stranded at a process. */
  lemma HolderLostFrees(setup: Setup, s: System, step: Step)
    requires (step.Disconnect? || step.Crash?) && Apply(setup, s, step).Some?
    requires forall t :: Stranded(s, t) ==> s.unacked[t] == step.p
    ensures NothingStranded(Apply(setup, s, step).value)
  {
    forall t ensures !Stranded(Apply(setup, s, step).value, t) {
      RequeuedStranded(setup, s, step, t);
    }
  }

  /** Work does not free it. */
  lemma WorkLeavesStranded(setup: Setup, s: System, step: Step, t: Tag)
    requires t !in s.queue && Stranded(s, t) && IsWork(step) && Apply(setup, s, step).Some?
    ensures Stranded(Apply(setup, s, step).value, t)
  {
    WorkKeepsHolder(setup, s, step, t);
    WorkKeepsOutOfHand(setup, s, step, s.unacked[t], t);
  }

  lemma WorkKeepsHolder(setup: Setup, s: System, step: Step, t: Tag)
    requires t !in s.queue && Stranded(s, t) && IsWork(step) && Apply(setup, s, step).Some?
    ensures t in Apply(setup, s, step).value.unacked && Apply(setup, s, step).value.unacked[t] == s.unacked[t]
  {
  }

  lemma WorkKeepsOutOfHand(setup: Setup, s: System, step: Step, p: Pid, t: Tag)
    requires t !in s.queue && p in s.procs && !InHand(s.procs[p], t) && IsWork(step) && Apply(setup, s, step).Some?
    ensures p in Apply(setup, s, step).value.procs && !InHand(Apply(setup, s, step).value.procs[p], t)
  {
    if step.p != p {
      OtherProcs(setup, s, step, p);
    }
  }

  lemma {:induction false} StaysStranded(setup: Setup, s: System, steps: seq<Step>, t: Tag)
    requires Wired(setup) && Reachable(setup, s) && Stranded(s, t) && AllWork(steps) && Exec(setup, s, steps).Some?
    ensures Reachable(setup, Exec(setup, s, steps).value) && Stranded(Exec(setup, s, steps).value, t)
  {
    if steps != [] {
      var init, step := steps[..|steps| - 1], steps[|steps| - 1];
      assert AllWork(init) && IsWork(step);
      StaysStranded(setup, s, init, t);
      var mid := Exec(setup, s, init).value;
      StrandedStep(setup, mid, step, t);
      ChainReachable(setup, mid, step, Apply(setup, mid, step).value);
    }
  }

  lemma StrandedStep(setup: Setup, s: System, step: Step, t: Tag)
    requires Wired(setup) && Reachable(setup, s) && Stranded(s, t) && IsWork(step) && Apply(setup, s, step).Some?
    ensures Stranded(Apply(setup, s, step).value, t)
  {
    ReachableInv(setup, s);
    assert s.queue[t] == 0;
    WorkLeavesStranded(setup, s, step, t);
  }

  // ----- Draining -------------------------------------------------------------------------------

  /** Every accepted message is settled for good. */
  ghost predicate Drained(s: System) {
    forall t: Tag :: t < |s.bodies| ==>
      if DecodeRequest(s.bodies[t]).Ok? then s.acked[t] == 1 else s.dead[t] == 1
  }

  lemma NothingPendingIsDrained(setup: Setup, s: System)
    requires Wired(setup) && Reachable(setup, s) && s.queue == multiset{} && s.unacked == map[]
    ensures Drained(s)
  {
    ReachableInv(setup, s);
    forall t: Tag | t < |s.bodies|
      ensures if DecodeRequest(s.bodies[t]).Ok? then s.acked[t] == 1 else s.dead[t] == 1
    {
      assert s.queue[t] + s.acked[t] + s.dead[t] + 0 == 1;
      assert t in s.acked ==> AckedOk(s, t);
    }
  }

  lemma StrandedIsNotDrained(setup: Setup, s: System, t: Tag)
    requires Wired(setup) && Reachable(setup, s) && Stranded(s, t)
    ensures !Drained(s)
  {
    ReachableInv(setup, s);
    assert s.queue[t] + s.acked[t] + s.dead[t] + 1 == if t < |s.bodies| then 1 else 0;
    assert s.acked[t] == 0 && s.dead[t] == 0;
  }

  /** A busy process can always go on, and without a failed publication. */
  lemma BusyCanGoOn(setup: Setup, s: System, p: Pid) returns (step: Step)
    requires Wired(setup) && Live(s, p) && Placed(setup, s.bodies, s.procs[p])
    requires !s.procs[p].job.Idle? || s.procs[p].inbox != []
    ensures IsWork(step) && !IsFailedPublish(step) && Apply(setup, s, step).Some?
  {
    var proc := s.procs[p];
    match proc.job
    case Idle =>
      assert proc.inbox[0] in proc.inbox;
      step := Take(p);
    case Rejecting(_) => step := Settle(p);
    case Handling(t, e, pc) =>
      step := if pc.Returned? then Settle(p) else Act(p, NextAction(setup.env, e, State(pc, proc.seen)));
  }

  /** Some action the handler can perform. */
  function NextAction(env: Env, e: RequestEvent, s: State): (a: Action)
    requires env.hasStore && env.hasPublisher && !s.pc.Returned?
    requires s.pc.Sending? || s.pc.Marking? ==> s.pc.index < |Plan(env, e)|
    requires s.pc.Sending? ==> EntryOf(env, e, Plan(env, e)[s.pc.index]).Asked?
    ensures After(env, e, s, a).Some? && (a.Publish? ==> a.ok)
  {
    match s.pc
    case Start => Lookup(e.eventId in s.seen)
    case Rendering => Render(None)
    case Sending(r, i) => Ask(env, e, r, Plan(env, e)[i], Reply("", ""))
    case Marking(_) => Mark(e.eventId)
    case Publishing(v) =>
      Publish(ResultEvent(e.version, "", DELIVERY_RESULT, e.eventId, v.status, e.recipientType, e.recipient,
                          v.provider, v.attempt, v.errorCode, 0), true)
    case Returned(_, _) => Lookup(false)
  }

  /** Nothing is stranded, and there is a process to work. */
  ghost predicate CanWork(setup: Setup, s: System) {
    Reachable(setup, s) && NothingStranded(s) && exists p :: Up(s, p)
  }

  /** As long as something is pending, some work is possible. */
  lemma PendingCanGoOn(setup: Setup, s: System) returns (step: Step)
    requires Wired(setup) && setup.prefetch > 0 && CanWork(setup, s)
    requires s.queue != multiset{} || s.unacked != map[]
    ensures IsWork(step) && !IsFailedPublish(step) && Apply(setup, s, step).Some?
  {
    ReachableSound(setup, s);
    if t :| t in s.unacked {
      var p := s.unacked[t];
      assert Up(s, p) && !Stranded(s, t) && InHand(s.procs[p], t);
      step := BusyCanGoOn(setup, s, p);
    } else {
      var p :| Up(s, p);
      var t :| t in s.queue;
      assert Held(s, p) == {};
      step := Deliver(p, t);
    }
  }

  lemma StepKeepsCanWork(setup: Setup, s: System, step: Step)
    requires Wired(setup) && CanWork(setup, s) && IsWork(step) && Apply(setup, s, step).Some?
    ensures CanWork(setup, Apply(setup, s, step).value)
  {
    var s' := Apply(setup, s, step).value;
    ChainReachable(setup, s, step, s');
    StepStrandsNothing(setup, s, step);
    var p :| Up(s, p);
    StaysConnected(setup, s, step, p);
  }

  lemma StepStrandsNothing(setup: Setup, s: System, step: Step)
    requires Wired(setup) && Reachable(setup, s) && NothingStranded(s)
    requires !step.LoseSettle? && Apply(setup, s, step).Some?
    ensures NothingStranded(Apply(setup, s, step).value)
  {
    assert HeldByUp(s) by { ReachableSound(setup, s); }
    forall t ensures !Stranded(Apply(setup, s, step).value, t) {
      BecomesStranded(setup, s, step, t);
    }
  }

  lemma {:induction false} ExecKeepsCanWork(setup: Setup, s: System, steps: seq<Step>)
    requires Wired(setup) && CanWork(setup, s) && AllWork(steps) && Exec(setup, s, steps).Some?
    ensures CanWork(setup, Exec(setup, s, steps).value)
  {
    if steps != [] {
      assert AllWork(steps[..|steps| - 1]) && IsWork(steps[|steps| - 1]);
      ExecKeepsCanWork(setup, s, steps[..|steps| - 1]);
      StepKeepsCanWork(setup, Exec(setup, s, steps[..|steps| - 1]).value, steps[|steps| - 1]);
    }
  }

  lemma DrainedOrGoesOn(setup: Setup, s: System)
    requires Wired(setup) && setup.prefetch > 0 && CanWork(setup, s)
    ensures Drained(s) || exists step :: IsWork(step) && !IsFailedPublish(step) && Apply(setup, s, step).Some?
  {
    if s.queue == multiset{} && s.unacked == map[] {
      NothingPendingIsDrained(setup, s);
    } else {
      var step := PendingCanGoOn(setup, s);
    }
  }

  /** From a reachable state with nothing stranded and a process connected: undisturbed work, however it
      goes, has at most so many steps, and can be continued, even without a failed publication, until every
      valid message is acknowledged and every invalid one dead-lettered. */
  lemma WorkDrains(setup: Setup, s: System, steps: seq<Step>, c: nat, n: nat)
    requires Wired(setup) && setup.prefetch > 0 && Reachable(setup, s)
    requires PlansWithin(setup, s, c) && NumberedBelow(s, n)
    requires NothingStranded(s) && exists p :: Up(s, p)
    requires AllWork(steps) && Exec(setup, s, steps).Some?
    ensures |steps| <= Total(setup, s, c, n) + Failures(steps) * (c + 4)
    ensures var s' := Exec(setup, s, steps).value;
            Drained(s') || exists step :: IsWork(step) && !IsFailedPublish(step) && Apply(setup, s', step).Some?
  {
    WorkIsBounded(setup, s, steps, c, n);
    ExecKeepsCanWork(setup, s, steps);
    DrainedOrGoesOn(setup, Exec(setup, s, steps).value);
  }

  lemma WorkLessens(setup: Setup, s: System, step: Step, c: nat, n: nat)
    requires Wired(setup) && Reachable(setup, s) && PlansWithin(setup, s, c) && NumberedBelow(s, n)
    requires IsWork(step) && !IsFailedPublish(step) && Apply(setup, s, step).Some?
    ensures var s' := Apply(setup, s, step).value;
            PlansWithin(setup, s', c) && NumberedBelow(s', n) && Total(setup, s', c, n) < Total(setup, s, c, n)
  {
    ReachableInv(setup, s);
    TotalFalls(setup, s, step, c, n);
    assert Apply(setup, s, step).value.procs.Keys == s.procs.Keys;
  }

  /** Some work that drains the system. */
  lemma {:induction false} CanDrain(setup: Setup, s: System, c: nat, n: nat) returns (steps: seq<Step>)
    requires Wired(setup) && setup.prefetch > 0 && CanWork(setup, s) && PlansWithin(setup, s, c) && NumberedBelow(s, n)
    ensures AllWork(steps) && Exec(setup, s, steps).Some? && Drained(Exec(setup, s, steps).value)
    decreases Total(setup, s, c, n)
  {
    if s.queue == multiset{} && s.unacked == map[] {
      NothingPendingIsDrained(setup, s);
      steps := [];
    } else {
      var step := PendingCanGoOn(setup, s);
      WorkLessens(setup, s, step, c, n);
      StepKeepsCanWork(setup, s, step);
      var next := Apply(setup, s, step).value;
      var rest := CanDrain(setup, next, c, n);
      ExecPrepend(setup, s, step, rest);
      steps := [step] + rest;
    }
  }

  lemma SomeNumber(s: System) returns (n: nat)
    ensures NumberedBelow(s, n)
  {
    n := BoundOf(s.procs.Keys);
  }

  lemma {:induction false} BoundOf(ps: set<Pid>) returns (n: nat)
    ensures forall p :: p in ps ==> p < n
  {
    if ps == {} {
      n := 0;
    } else {
      var p :| p in ps;
      var m := BoundOf(ps - {p});
      n := if m <= p then p + 1 else m;
      assert forall q :: q in ps ==> q == p || q in ps - {p};
    }
  }

  ghost predicate DrainsByWork(setup: Setup, s: System) {
    exists steps :: AllWork(steps) && Exec(setup, s, steps).Some? && Drained(Exec(setup, s, steps).value)
  }

  /** In a reachable state with a connected process, undisturbed work can drain the system exactly when no
      message is stranded. */
  lemma DrainsExactly(setup: Setup, s: System)
    requires Wired(setup) && setup.prefetch > 0 && Reachable(setup, s) && exists p :: Up(s, p)
    ensures DrainsByWork(setup, s) <==> NothingStranded(s)
  {
    if NothingStranded(s) {
      var c := SomeBound(setup, s.bodies);
      var n := SomeNumber(s);
      var steps := CanDrain(setup, s, c, n);
    } else {
      var t :| Stranded(s, t);
      forall steps | AllWork(steps) && Exec(setup, s, steps).Some? ensures !Drained(Exec(setup, s, steps).value) {
        StaysStranded(setup, s, steps, t);
        StrandedIsNotDrained(setup, Exec(setup, s, steps).value, t);
      }
    }
  }

  // ----- A state in which it does not drain -----------------------------------------------------

  /** One message that is not valid, and one process. */
  function OneInvalid(queue: multiset<Tag>, unacked: map<Tag, Pid>, proc: Process): System {
    System([None], queue, unacked, multiset{}, multiset{}, map[0 := proc])
  }

  /** The message is at the process, which is at rest. */
  const FORGOTTEN := OneInvalid(multiset{}, map[0 := 0], FRESH)

  lemma InvalidDelivered(setup: Setup)
    requires setup.prefetch > 0
    ensures Reachable(setup, OneInvalid(multiset{}, map[0 := 0], FRESH.(inbox := [0])))
  {
    var one := INIT.(bodies := [None], queue := multiset{0});
    assert Exec(setup, INIT, []) == Some(INIT);
    assert INIT.bodies + [None] == [None] && INIT.queue + multiset{0} == multiset{0};
    ChainReachable(setup, INIT, Arrive(None), one);
    var two := OneInvalid(multiset{0}, map[], FRESH);
    assert map[][0 := FRESH] == map[0 := FRESH];
    ChainReachable(setup, one, Boot(0), two);
    InvalidDeliver(setup);
    ChainReachable(setup, two, Deliver(0, 0), OneInvalid(multiset{}, map[0 := 0], FRESH.(inbox := [0])));
  }

  lemma InvalidDeliver(setup: Setup)
    requires setup.prefetch > 0
    ensures Apply(setup, OneInvalid(multiset{0}, map[], FRESH), Deliver(0, 0))
            == Some(OneInvalid(multiset{}, map[0 := 0], FRESH.(inbox := [0])))
  {
    assert Held(OneInvalid(multiset{0}, map[], FRESH), 0) == {};
    assert multiset{0} - multiset{0} == multiset{};
    assert [] + [0] == [0];
    assert map[0 := FRESH][0 := FRESH.(inbox := [0])] == map[0 := FRESH.(inbox := [0])];
  }

  lemma InvalidForgotten(setup: Setup)
    requires Reachable(setup, OneInvalid(multiset{}, map[0 := 0], FRESH.(inbox := [0])))
    ensures Reachable(setup, FORGOTTEN)
  {
    var held, busy := FRESH.(inbox := [0]), FRESH.(job := Rejecting(0));
    assert [0][1..] == [];
    assert map[0 := held][0 := busy] == map[0 := busy] && map[0 := busy][0 := FRESH] == map[0 := FRESH];
    ChainReachable(setup, OneInvalid(multiset{}, map[0 := 0], held), Take(0),
                   OneInvalid(multiset{}, map[0 := 0], busy));
    ChainReachable(setup, OneInvalid(multiset{}, map[0 := 0], busy), LoseSettle(0), FORGOTTEN);
  }

  /** A reachable state with a connected process that work never drains: one message has arrived, was delivered
      and rejected, and the rejection was lost. */
  lemma LostRejectionStrands(setup: Setup)
    requires Wired(setup) && setup.prefetch > 0
    ensures Reachable(setup, FORGOTTEN) && Up(FORGOTTEN, 0) && Stranded(FORGOTTEN, 0)
    ensures !DrainsByWork(setup, FORGOTTEN)
  {
    InvalidDelivered(setup);
    InvalidForgotten(setup);
    assert Up(FORGOTTEN, 0) && Stranded(FORGOTTEN, 0);
    DrainsExactly(setup, FORGOTTEN);
  }

  // ----- Recovery -------------------------------------------------------------------------------

  /** The death of the processes at which messages are stranded leaves nothing stranded. */
  lemma {:induction false} CrashHolders(setup: Setup, s: System) returns (steps: seq<Step>)
    requires Wired(setup) && Reachable(setup, s)
    ensures forall i :: 0 <= i < |steps| ==> steps[i].Crash?
    ensures Exec(setup, s, steps).Some? && NothingStranded(Exec(setup, s, steps).value)
    decreases |s.unacked.Keys|
  {
    if t :| Stranded(s, t) {
      var crash := Crash(s.unacked[t]);
      CrashHolder(setup, s, t);
      var next := Apply(setup, s, crash).value;
      var rest := CrashHolders(setup, next);
      ExecPrepend(setup, s, crash, rest);
      steps := [crash] + rest;
    } else {
      steps := [];
    }
  }

  lemma CrashHolder(setup: Setup, s: System, t: Tag)
    requires Wired(setup) && Reachable(setup, s) && t in s.unacked
    ensures Apply(setup, s, Crash(s.unacked[t])).Some?
    ensures Reachable(setup, Apply(setup, s, Crash(s.unacked[t])).value)
    ensures |Apply(setup, s, Crash(s.unacked[t])).value.unacked.Keys| < |s.unacked.Keys|
  {
    assert Up(s, s.unacked[t]) by { ReachableSound(setup, s); }
    var next := Apply(setup, s, Crash(s.unacked[t])).value;
    ChainReachable(setup, s, Crash(s.unacked[t]), next);
    FewerHeld(setup, s, s.unacked[t], t);
  }

  lemma FewerHeld(setup: Setup, s: System, p: Pid, t: Tag)
    requires Apply(setup, s, Crash(p)).Some? && t in s.unacked && s.unacked[t] == p
    ensures |Apply(setup, s, Crash(p)).value.unacked.Keys| < |s.unacked.Keys|
  {
    var s' := Apply(setup, s, Crash(p)).value;
    assert t in Held(s, p);
    assert s'.unacked.Keys < s.unacked.Keys by {
      assert t in s.unacked.Keys && t !in s'.unacked.Keys;
    }
    Smaller(s'.unacked.Keys, s.unacked.Keys);
  }

  lemma Smaller(a: set<Tag>, b: set<Tag>)
    requires a < b
    ensures |a| < |b|
  {
    var x :| x in b && x !in a;
    assert b == a + (b - a);
    assert x in b - a;
  }

  /** Whatever a run has done to the system, crashes of the disturbed processes and one new process are enough:
      from there undisturbed work drains it. */
  lemma RecoversFromAnywhere(setup: Setup, s: System) returns (steps: seq<Step>, work: seq<Step>)
    requires Wired(setup) && setup.prefetch > 0 && Reachable(setup, s)
    ensures forall i :: 0 <= i < |steps| ==> steps[i].Crash? || steps[i].Boot?
    ensures AllWork(work) && Exec(setup, s, steps + work).Some? && Drained(Exec(setup, s, steps + work).value)
  {
    var crashes := CrashHolders(setup, s);
    var mid := Exec(setup, s, crashes).value;
    ReachesOn(setup, s, crashes);
    var p := SomeNumber(mid);
    var ready := Apply(setup, mid, Boot(p)).value;
    BootKeepsCanWork(setup, mid, p);
    ExecOne(setup, mid, Boot(p));
    ExecConcat(setup, s, crashes, [Boot(p)]);
    steps := crashes + [Boot(p)];
    var c := SomeBound(setup, ready.bodies);
    var n := SomeNumber(ready);
    work := CanDrain(setup, ready, c, n);
    ExecConcat(setup, s, steps, work);
  }

  lemma BootKeepsCanWork(setup: Setup, s: System, p: Pid)
    requires Wired(setup) && Reachable(setup, s) && NothingStranded(s) && p !in s.procs
    ensures Apply(setup, s, Boot(p)).Some? && CanWork(setup, Apply(setup, s, Boot(p)).value)
  {
    var s' := Apply(setup, s, Boot(p)).value;
    ChainReachable(setup, s, Boot(p), s');
    StepStrandsNothing(setup, s, Boot(p));
    assert Up(s', p);
  }

  lemma ReachesOn(setup: Setup, s: System, steps: seq<Step>)
    requires Reachable(setup, s) && Exec(setup, s, steps).Some?
    ensures Reachable(setup, Exec(setup, s, steps).value)
  {
    var before :| Exec(setup, INIT, before) == Some(s);
    ExecConcat(setup, INIT, before, steps);
  }
}
