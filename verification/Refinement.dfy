/** The worker's code is a run of the protocol: what the imperative classes do for one delivery, or for any number
    of them, the process of the transition system does step by step. */
module Refinement {
  import opened Wrappers
  import opened Events
  import opened Handler
  import opened Protocol
  import Worker

  function Acts(p: Pid, t: seq<Action>): seq<Step> {
    if t == [] then [] else Acts(p, t[..|t| - 1]) + [Act(p, t[|t| - 1])]
  }

  function Entries(tag: Tag, t: seq<Action>): seq<Protocol.Entry> {
    if t == [] then [] else Entries(tag, t[..|t| - 1]) + [Protocol.Entry(tag, t[|t| - 1])]
  }

  /** The process while it handles a request, after the actions `t`. */
  function Within(proc: Process, tag: Tag, e: RequestEvent, t: seq<Action>, st: State): Process {
    proc.(seen := st.seen, job := Handling(tag, e, st.pc), log := proc.log + Entries(tag, t))
  }

  /** The handler's actions are steps of the process. */
  lemma {:induction false} ActsAreExec(setup: Setup, s: System, p: Pid, tag: Tag, e: RequestEvent, t: seq<Action>)
    requires Live(s, p) && s.procs[p].job == Handling(tag, e, Start)
    requires Run(setup.env, e, State(Start, s.procs[p].seen), t).Some?
    ensures var st := Run(setup.env, e, State(Start, s.procs[p].seen), t).value;
            Exec(setup, s, Acts(p, t)) == Some(SetProc(s, p, Within(s.procs[p], tag, e, t, st)))
  {
    var proc := s.procs[p];
    if t == [] {
      assert proc.log + [] == proc.log;
      assert Within(proc, tag, e, t, State(Start, proc.seen)) == proc;
      assert s.procs[p := proc] == s.procs;
    } else {
      var init, a := t[..|t| - 1], t[|t| - 1];
      ActsAreExec(setup, s, p, tag, e, init);
      var mid := Run(setup.env, e, State(Start, proc.seen), init).value;
      OneActOn(setup, s, p, tag, e, init, a, mid);
      assert t == init + [a];
      assert Acts(p, t)[..|Acts(p, t)| - 1] == Acts(p, init);
    }
  }

  lemma OneActOn(setup: Setup, s: System, p: Pid, tag: Tag, e: RequestEvent, t: seq<Action>, a: Action, st: State)
    requires Live(s, p) && After(setup.env, e, st, a).Some?
    ensures Apply(setup, SetProc(s, p, Within(s.procs[p], tag, e, t, st)), Act(p, a))
            == Some(SetProc(s, p, Within(s.procs[p], tag, e, t + [a], After(setup.env, e, st, a).value)))
  {
    var proc, next := s.procs[p], After(setup.env, e, st, a).value;
    var before, behind := Within(proc, tag, e, t, st), Within(proc, tag, e, t + [a], next);
    assert (t + [a])[..|t|] == t;
    assert behind.log == before.log + [Protocol.Entry(tag, a)];
    assert Acted(before, a, next) == behind;
    assert s.procs[p := before][p := behind] == s.procs[p := behind];
  }

  function FateFor(s: Worker.Settlement): Fate {
    match s
    case Acked => ToAcked
    case Rejected => ToDead
    case Requeued => ToQueue
  }

  /** One delivery handled: its tag, the handler's actions, the memory afterwards, the settlement, and whether the
      broker never learns of it. */
  datatype Call = Call(tag: Tag, t: seq<Action>, seen: set<string>, settlement: Worker.Settlement, lost: bool)

  /** The delivery is taken, handled and settled. */
  function CallSteps(p: Pid, c: Call): seq<Step> {
    [Take(p)] + (Acts(p, c.t) + [SettleStep(p, c.lost)])
  }

  function SettleStep(p: Pid, lost: bool): Step { if lost then LoseSettle(p) else Settle(p) }

  function Rest(inbox: seq<Tag>): seq<Tag> { if inbox == [] then [] else inbox[1..] }

  function ProcAfterCall(proc: Process, c: Call): Process {
    proc.(inbox := Rest(proc.inbox), job := Idle, seen := c.seen, log := proc.log + Entries(c.tag, c.t))
  }

  function AfterCall(s: System, p: Pid, c: Call): (s': System)
    requires p in s.procs
    ensures p in s'.procs && s'.procs[p] == ProcAfterCall(s.procs[p], c) && s'.bodies == s.bodies
  {
    SetProc(if c.lost then s else Dispose(s, p, c.tag, FateFor(c.settlement)), p, ProcAfterCall(s.procs[p], c))
  }

  /** The process is about to take the delivery of this call, and the call is a complete one of the worker. */
  ghost predicate CanCall(setup: Setup, s: System, p: Pid, c: Call) {
    && Live(s, p) && s.procs[p].job.Idle? && s.procs[p].inbox != [] && s.procs[p].inbox[0] == c.tag
    && c.tag < |s.bodies|
    && Worker.Completes(setup.env, s.bodies[c.tag], s.procs[p].seen, c.t, c.seen, c.settlement)
  }

  /** What a complete call of the worker does to memory, log and message is what these steps do. */
  lemma CallIsExec(setup: Setup, s: System, p: Pid, c: Call)
    requires CanCall(setup, s, p, c)
    ensures Exec(setup, s, CallSteps(p, c)) == Some(AfterCall(s, p, c))
  {
    var taken := Apply(setup, s, Take(p)).value;
    ExecPrepend(setup, s, Take(p), Acts(p, c.t) + [SettleStep(p, c.lost)]);
    TakenCompletes(setup, s, p, c);
    var busy := Exec(setup, taken, Acts(p, c.t)).value;
    ExecConcat(setup, taken, Acts(p, c.t), [SettleStep(p, c.lost)]);
    ExecOne(setup, busy, SettleStep(p, c.lost));
    SettledCompletes(setup, s, busy, p, c);
  }

  /** The process at the end of the handler's work. */
  ghost predicate Finished(s: System, busy: System, p: Pid, c: Call)
    requires p in s.procs
  {
    && p in busy.procs
    && FateOf(busy.procs[p].job) == Some((c.tag, FateFor(c.settlement)))
    && busy == SetProc(s, p, busy.procs[p])
    && busy.procs[p].(job := Idle) == ProcAfterCall(s.procs[p], c)
  }

  lemma TakenCompletes(setup: Setup, s: System, p: Pid, c: Call)
    requires CanCall(setup, s, p, c)
    ensures Apply(setup, s, Take(p)).Some?
    ensures Exec(setup, Apply(setup, s, Take(p)).value, Acts(p, c.t)).Some?
    ensures Finished(s, Exec(setup, Apply(setup, s, Take(p)).value, Acts(p, c.t)).value, p, c)
  {
    var taken, proc := Apply(setup, s, Take(p)).value, s.procs[p];
    match DecodeRequest(s.bodies[c.tag])
    case Err(_) =>
      assert proc.log + [] == proc.log;
      assert Exec(setup, taken, []) == Some(taken);
    case Ok(e) =>
      var v, ok :| Worker.Returns(setup.env, e, proc.seen, c.t, c.seen, v, ok)
                   && c.settlement == if ok then Worker.Acked else Worker.Requeued;
      ActsAreExec(setup, taken, p, c.tag, e, c.t);
      var behind := Within(taken.procs[p], c.tag, e, c.t, State(Returned(v, ok), c.seen));
      assert s.procs[p := taken.procs[p]][p := behind] == s.procs[p := behind];
  }

  lemma SettledCompletes(setup: Setup, s: System, busy: System, p: Pid, c: Call)
    requires Live(s, p) && Finished(s, busy, p, c)
    ensures Apply(setup, busy, SettleStep(p, c.lost)) == Some(AfterCall(s, p, c))
  {
    var done := busy.procs[p].(job := Idle);
    assert s.procs[p := busy.procs[p]][p := done] == s.procs[p := done];
  }

  // ----- Any number of deliveries ---------------------------------------------------------------

  function RunSteps(p: Pid, calls: seq<Call>): seq<Step> {
    if calls == [] then [] else RunSteps(p, calls[..|calls| - 1]) + CallSteps(p, calls[|calls| - 1])
  }

  function AfterCalls(s: System, p: Pid, calls: seq<Call>): (s': System)
    requires p in s.procs
    ensures p in s'.procs && s'.bodies == s.bodies
  {
    if calls == [] then s else AfterCall(AfterCalls(s, p, calls[..|calls| - 1]), p, calls[|calls| - 1])
  }

  function SeenAfter(seen: set<string>, calls: seq<Call>): set<string> {
    if calls == [] then seen else calls[|calls| - 1].seen
  }

  /** Complete calls for the deliveries at the head of the inbox, each on the memory the one before left. */
  ghost predicate CanCallAll(setup: Setup, s: System, p: Pid, calls: seq<Call>) {
    && Live(s, p) && s.procs[p].job.Idle? && |calls| <= |s.procs[p].inbox|
    && forall i :: 0 <= i < |calls| ==> CallFits(setup, s, p, calls, i)
  }

  ghost predicate CallFits(setup: Setup, s: System, p: Pid, calls: seq<Call>, i: nat)
    requires p in s.procs && i < |calls| <= |s.procs[p].inbox|
  {
    && s.procs[p].inbox[i] == calls[i].tag && calls[i].tag < |s.bodies|
    && Worker.Completes(setup.env, s.bodies[calls[i].tag], SeenAfter(s.procs[p].seen, calls[..i]),
                        calls[i].t, calls[i].seen, calls[i].settlement)
  }

  function Stretches(calls: seq<Call>): seq<Action> {
    if calls == [] then [] else Stretches(calls[..|calls| - 1]) + calls[|calls| - 1].t
  }

  lemma {:induction false} ActionsOfEntries(log: seq<Protocol.Entry>, tag: Tag, t: seq<Action>)
    ensures Actions(log + Entries(tag, t)) == Actions(log) + t
  {
    if t == [] {
      assert log + [] == log && Actions(log) + [] == Actions(log);
    } else {
      var init, a := t[..|t| - 1], t[|t| - 1];
      calc {
        Actions(log + Entries(tag, t));
        { assert log + Entries(tag, t) == (log + Entries(tag, init)) + [Protocol.Entry(tag, a)]; }
        Actions((log + Entries(tag, init)) + [Protocol.Entry(tag, a)]);
        { ActionsAppend(log + Entries(tag, init), Protocol.Entry(tag, a)); }
        Actions(log + Entries(tag, init)) + [a];
        { ActionsOfEntries(log, tag, init); }
        (Actions(log) + init) + [a];
        { assert init + [a] == t; }
        Actions(log) + t;
      }
    }
  }

  /** The process after the calls: at rest, with the inbox shortened, the worker's memory and its actions. */
  lemma {:induction false} ProcAfterCalls(s: System, p: Pid, calls: seq<Call>)
    requires Live(s, p) && s.procs[p].job.Idle? && |calls| <= |s.procs[p].inbox|
    ensures var proc, proc' := s.procs[p], AfterCalls(s, p, calls).procs[p];
            && proc'.live && proc'.job.Idle? && proc'.inbox == proc.inbox[|calls|..]
            && proc'.seen == SeenAfter(proc.seen, calls)
            && Actions(proc'.log) == Actions(proc.log) + Stretches(calls)
  {
    if calls != [] {
      var init, c := calls[..|calls| - 1], calls[|calls| - 1];
      ProcAfterCalls(s, p, init);
      ActionsOfEntries(AfterCalls(s, p, init).procs[p].log, c.tag, c.t);
    }
  }

  /** A run of the worker over buffered deliveries, whichever settlements are lost, is a run of the protocol. */
  lemma {:induction false} RunIsExec(setup: Setup, s: System, p: Pid, calls: seq<Call>)
    requires CanCallAll(setup, s, p, calls)
    ensures Exec(setup, s, RunSteps(p, calls)) == Some(AfterCalls(s, p, calls))
  {
    if calls != [] {
      var m := |calls| - 1;
      var init, c := calls[..m], calls[m];
      assert CanCallAll(setup, s, p, init) by {
        forall i | 0 <= i < m ensures CallFits(setup, s, p, init, i) {
          assert CallFits(setup, s, p, calls, i);
          assert init[..i] == calls[..i];
        }
      }
      RunIsExec(setup, s, p, init);
      ProcAfterCalls(s, p, init);
      assert CallFits(setup, s, p, calls, m);
      CallIsExec(setup, AfterCalls(s, p, init), p, c);
      ExecConcat(setup, s, RunSteps(p, init), CallSteps(p, c));
    }
  }

  // ----- The worker's loop ----------------------------------------------------------------------

  function Stretch(log: seq<Action>, from: nat, to: nat): seq<Action> {
    if from <= to <= |log| then log[from..to] else []
  }

  /** The calls that the worker's loop reports. */
  function CallsOf(ds: seq<Worker.Delivery>, settled: seq<(nat, Worker.Settlement)>, log: seq<Action>,
                   bounds: seq<nat>, memories: seq<set<string>>, lost: seq<bool>): (calls: seq<Call>)
    requires |settled| == |ds| == |lost| && |bounds| == |ds| + 1 == |memories|
    ensures |calls| == |ds|
  {
    seq(|ds|, i requires 0 <= i < |ds| =>
      Call(ds[i].tag, Stretch(log, bounds[i], bounds[i + 1]), memories[i + 1], settled[i].1, lost[i]))
  }

  /** The process has the worker's deliveries buffered, and its memory. */
  ghost predicate Buffered(s: System, p: Pid, ds: seq<Worker.Delivery>, seen: set<string>) {
    && Live(s, p) && s.procs[p].job.Idle? && s.procs[p].seen == seen && |ds| <= |s.procs[p].inbox|
    && forall i :: 0 <= i < |ds| ==> IsBuffered(s, ds[i], s.procs[p].inbox[i])
  }

  predicate IsBuffered(s: System, d: Worker.Delivery, tag: Tag) {
    tag == d.tag && tag < |s.bodies| && s.bodies[tag] == d.body
  }

  /** Whatever the worker's loop has done, the process of the transition system can do: it ends at rest with the
      worker's memory and has performed exactly the worker's actions. */
  lemma WorkerRunIsExec(setup: Setup, s: System, p: Pid, ds: seq<Worker.Delivery>,
                        settled: seq<(nat, Worker.Settlement)>, log: seq<Action>, bounds: seq<nat>,
                        memories: seq<set<string>>, lost: seq<bool>)
    requires Worker.Calls(setup.env, ds, settled, log, bounds, memories) && |lost| == |ds|
    requires Buffered(s, p, ds, memories[0])
    ensures var calls := CallsOf(ds, settled, log, bounds, memories, lost);
            var end := Exec(setup, s, RunSteps(p, calls));
            && end == Some(AfterCalls(s, p, calls)) && end.value.procs[p].job.Idle?
            && end.value.procs[p].seen == memories[|ds|]
            && Actions(end.value.procs[p].log) == Actions(s.procs[p].log) + Stretch(log, bounds[0], bounds[|ds|])
  {
    var calls := CallsOf(ds, settled, log, bounds, memories, lost);
    assert CanCallAll(setup, s, p, calls) by {
      forall i | 0 <= i < |calls| ensures CallFits(setup, s, p, calls, i) {
        assert IsBuffered(s, ds[i], s.procs[p].inbox[i]);
        CallFitsAt(setup, s, p, ds, settled, log, bounds, memories, lost, i);
      }
    }
    RunIsExec(setup, s, p, calls);
    ProcAfterCalls(s, p, calls);
    StretchesJoin(setup, ds, settled, log, bounds, memories, lost, |ds|);
    assert calls[..|ds|] == calls;
  }

  lemma CallFitsAt(setup: Setup, s: System, p: Pid, ds: seq<Worker.Delivery>, settled: seq<(nat, Worker.Settlement)>,
                   log: seq<Action>, bounds: seq<nat>, memories: seq<set<string>>, lost: seq<bool>, i: nat)
    requires Worker.Calls(setup.env, ds, settled, log, bounds, memories) && |lost| == |ds| && i < |ds|
    requires p in s.procs && |ds| <= |s.procs[p].inbox| && s.procs[p].seen == memories[0]
    requires IsBuffered(s, ds[i], s.procs[p].inbox[i])
    ensures CallFits(setup, s, p, CallsOf(ds, settled, log, bounds, memories, lost), i)
  {
    var calls := CallsOf(ds, settled, log, bounds, memories, lost);
    assert Worker.CallAt(setup.env, ds[i], settled[i], log, bounds[i], bounds[i + 1], memories[i], memories[i + 1]);
    assert SeenAfter(memories[0], calls[..i]) == memories[i];
  }

  lemma {:induction false} StretchesJoin(setup: Setup, ds: seq<Worker.Delivery>, settled: seq<(nat, Worker.Settlement)>,
                                         log: seq<Action>, bounds: seq<nat>, memories: seq<set<string>>,
                                         lost: seq<bool>, n: nat)
    requires Worker.Calls(setup.env, ds, settled, log, bounds, memories) && |lost| == |ds| && n <= |ds|
    ensures n > 0 ==> bounds[0] <= bounds[n] <= |log|
    ensures Stretches(CallsOf(ds, settled, log, bounds, memories, lost)[..n]) == Stretch(log, bounds[0], bounds[n])
  {
    if n > 0 {
      var m := n - 1;
      StretchesJoin(setup, ds, settled, log, bounds, memories, lost, m);
      BoundsRise(setup, ds, settled, log, bounds, memories, m);
      StretchesOn(CallsOf(ds, settled, log, bounds, memories, lost), m);
      StretchOn(log, bounds[0], bounds[m], bounds[n]);
    }
  }

  lemma BoundsRise(setup: Setup, ds: seq<Worker.Delivery>, settled: seq<(nat, Worker.Settlement)>, log: seq<Action>,
                   bounds: seq<nat>, memories: seq<set<string>>, m: nat)
    requires Worker.Calls(setup.env, ds, settled, log, bounds, memories) && m < |ds|
    ensures bounds[m] <= bounds[m + 1] <= |log|
  {
    assert Worker.CallAt(setup.env, ds[m], settled[m], log, bounds[m], bounds[m + 1], memories[m], memories[m + 1]);
  }

  lemma StretchesOn(calls: seq<Call>, m: nat)
    requires m < |calls|
    ensures Stretches(calls[..m + 1]) == Stretches(calls[..m]) + calls[m].t
  {
    assert calls[..m + 1][..m] == calls[..m];
  }

  lemma StretchOn(log: seq<Action>, a: nat, b: nat, c: nat)
    requires a <= b <= c <= |log|
    ensures Stretch(log, a, b) + Stretch(log, b, c) == Stretch(log, a, c)
  {
  }
}
