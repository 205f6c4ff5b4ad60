/**
 The whole path of a plan: classified by the criteria, admitted by the task machine, run
 behind the execution gate. Here the task machine is instantiated with the real policy.
 */
module EndToEnd {
  import opened Wrappers
  import opened Protocol
  import opened EventLoop
  import opened Daemon
  import opened Solo
  import opened Authority
  import opened Ledger
  import Text
  import Symbols
  import SymbolTable
  import Criteria
  import Irreversible
  import Executor

  function RealGate(rx: Criteria.RegexEngine, cfg: Criteria.CriteriaConfig, timeout: nat): Gate {
    Gate((plan: ExecutionPlan) => Criteria.DecidePolicy(rx, cfg, plan), timeout)
  }

  lemma UnattendedAreClean(rx: Criteria.RegexEngine, cfg: Criteria.CriteriaConfig, timeout: nat,
                           events: seq<Event>, i: nat, k: nat)
    requires var g := RealGate(rx, cfg, timeout);
             && Legal(g, events)
             && i < |Run(g, events).log|
             && Run(g, events).log[i].Launched?
             && Run(g, events).log[i].launch.cause != ByOwner
             && k < |Run(g, events).log[i].launch.plan.commands|
    ensures var plan := Run(RealGate(rx, cfg, timeout), events).log[i].launch.plan;
            && Criteria.DecidePolicy(rx, cfg, plan) == PolicyDecision.Delegable
            && Criteria.CleanCommand(rx, cfg, plan.commands[k])
  {
    var g := RealGate(rx, cfg, timeout);
    EveryLaunchIsAuthorised(g, events, i);
    var plan := Run(g, events).log[i].launch.plan;
    assert g.decide(plan) == PolicyDecision.Delegable;
    assert plan.commands[k] in plan.commands;
  }

  /** Whatever is launched without the owner consists of clean commands, none of which meets the safety lock. */
  lemma UnattendedLaunchesAreClean(rx: Criteria.RegexEngine, cfg: Criteria.CriteriaConfig, timeout: nat,
                                   events: seq<Event>, i: nat, w: Executor.World, k: nat)
    requires var g := RealGate(rx, cfg, timeout);
             && Legal(g, events)
             && i < |Run(g, events).log|
             && Run(g, events).log[i].Launched?
             && Run(g, events).log[i].launch.cause != ByOwner
             && k < |Run(g, events).log[i].launch.plan.commands|
    ensures var command := Run(RealGate(rx, cfg, timeout), events).log[i].launch.plan.commands[k];
            && Criteria.CleanCommand(rx, cfg, command)
            && (Executor.Clear(w, k, command).Err? ==>
                  && !Executor.Clear(w, k, command).error.BlockedBySafetyLock?
                  && !Executor.Clear(w, k, command).error.OverrideRequired?)
  {
    UnattendedAreClean(rx, cfg, timeout, events, i, k);
    Executor.DelegableIsNeverBlocked(rx, cfg, Run(RealGate(rx, cfg, timeout), events).log[i].launch.plan, w, k);
  }

  /** The gate of the daemon: the policy with the shipped patterns. */
  function ShippedGate(rx: Criteria.RegexEngine, timeout: nat): Gate {
    RealGate(rx, Criteria.DefaultPatterns(), timeout)
  }

  /** The plan launched by record `i`, if it was launched without the owner, and its command `k`. */
  ghost predicate Unattended(g: Gate, events: seq<Event>, i: nat, plan: ExecutionPlan) {
    && Legal(g, events)
    && i < |Run(g, events).log|
    && Run(g, events).log[i].Launched?
    && Run(g, events).log[i].launch.cause != ByOwner
    && Run(g, events).log[i].launch.plan == plan
  }

  /**
   Whatever the regular expressions match, nothing launched without the owner removes a protected
   path or wipes a disk, mentions a plain irreversibility marker, or bears a tag of a critical
   symbol.
   */
  lemma IrreversibleNeverRunsUnattended(rx: Criteria.RegexEngine, cfg: Criteria.CriteriaConfig, timeout: nat,
                                        events: seq<Event>, i: nat, plan: ExecutionPlan, k: nat)
    requires Unattended(RealGate(rx, cfg, timeout), events, i, plan) && k < |plan.commands|
    ensures var text := Symbols.ExtractFromCommand(plan.commands[k]).1;
            && !Irreversible.RemovesPath(text)
            && !Irreversible.WipesDisk(text)
            && forall marker | marker in cfg.irreversibility && Irreversible.Plain(marker) ::
                 !Text.Mentions(text, marker)
    ensures !Text.StartsWith(Text.Trim(plan.commands[k]), "[[AB:CRIT.")
  {
    UnattendedAreClean(rx, cfg, timeout, events, i, k);
    assert Criteria.Verdict(rx, cfg, plan.commands) == Criteria.DelegablePlan;
    var text := Symbols.ExtractFromCommand(plan.commands[k]).1;
    if Irreversible.RemovesPath(text) || Irreversible.WipesDisk(text)
       || exists marker | marker in cfg.irreversibility :: Irreversible.Plain(marker) && Text.Mentions(text, marker) {
      Irreversible.IrreversiblePlansAreHeld(rx, cfg, plan.commands, k);
    }
    if Text.StartsWith(Text.Trim(plan.commands[k]), "[[AB:CRIT.") {
      SymbolTable.CriticalTagsNeedTheOwner(rx, cfg, plan.commands, k);
    }
  }

  /** With the shipped patterns, no text that mentions a shipped marker is launched without the owner. */
  lemma MarkersNeverRunUnattended(rx: Criteria.RegexEngine, timeout: nat, events: seq<Event>, i: nat,
                                  plan: ExecutionPlan, k: nat, marker: string)
    requires Unattended(ShippedGate(rx, timeout), events, i, plan) && k < |plan.commands|
    requires marker in Criteria.DefaultMarkers()
    ensures !Text.Mentions(Symbols.ExtractFromCommand(plan.commands[k]).1, marker)
  {
    IrreversibleNeverRunsUnattended(rx, Criteria.DefaultPatterns(), timeout, events, i, plan, k);
    Irreversible.ShippedMarkersArePlain(marker);
  }

  // ---- Where a stored result comes from ----

  ghost predicate ResultRecorded(l: Local) {
    l.entry.Some? && l.entry.value.executionResult.Some? ==>
      exists launch, at :: Completed(launch, l.entry.value.executionResult.value, at) in l.log
  }

  lemma ResultStaysRecorded(g: Gate, id: string, l: Local, e: Event)
    requires ResultRecorded(l)
    ensures ResultRecorded(SoloApply(g, id, l, e))
  {
    var l' := SoloApply(g, id, l, e);
    assert l.log <= l'.log;
    if l'.entry.Some? && l'.entry.value.executionResult.Some? {
      var result := l'.entry.value.executionResult.value;
      if l.entry.Some? && l.entry.value.executionResult == Some(result) {
        var launch, at :| Completed(launch, result, at) in l.log;
        assert Completed(launch, result, at) in l'.log;
      } else {
        assert e.Completion?;
        assert l'.log[|l.log|] == Completed(e.launch, result, l.clock);
      }
    }
  }

  lemma {:induction false} ResultsAreRecorded(g: Gate, events: seq<Event>, id: string)
    ensures ResultRecorded(SoloRun(g, id, events))
  {
    if events != [] {
      var n := |events| - 1;
      ResultsAreRecorded(g, events[..n], id);
      ResultStaysRecorded(g, id, SoloRun(g, id, events[..n]), events[n]);
    }
  }

  lemma NewCompletions(g: Gate, id: string, l: Local, e: Event, launch: Launch, outcome: ExecutionOutcome, at: nat)
    requires Completed(launch, outcome, at) in SoloApply(g, id, l, e).log
    ensures Completed(launch, outcome, at) in l.log || e == Completion(launch, outcome)
  {
  }

  lemma {:induction false} CompletionsAreEvents(g: Gate, events: seq<Event>, id: string,
                                                launch: Launch, outcome: ExecutionOutcome, at: nat)
    requires Completed(launch, outcome, at) in SoloRun(g, id, events).log
    ensures Completion(launch, outcome) in events
  {
    if events != [] {
      var n := |events| - 1;
      var l := SoloRun(g, id, events[..n]);
      NewCompletions(g, id, l, events[n], launch, outcome, at);
      if Completed(launch, outcome, at) in l.log {
        CompletionsAreEvents(g, events[..n], id, launch, outcome, at);
      }
    }
  }

  lemma {:induction false} FinishedCounts(g: Gate, log: seq<Record>, r: Record)
    requires r in log && r.Completed?
    ensures r.launch in BooksOf(g, log).finished
  {
    var n := |log| - 1;
    if r != log[n] {
      assert r in log[..n];
      FinishedCounts(g, log[..n], r);
    }
  }

  lemma {:induction false} StartedCounts(g: Gate, log: seq<Record>, launch: Launch) returns (i: nat)
    requires launch in BooksOf(g, log).started
    ensures i < |log| && log[i].Launched? && log[i].launch == launch
  {
    var n := |log| - 1;
    if launch in BooksOf(g, log[..n]).started {
      i := StartedCounts(g, log[..n], launch);
    } else {
      i := n;
    }
  }

  // ---- The daemon with its executions ----

  /** An event of the daemon, or the end of an execution that ran in a given world. */
  datatype Step = Plain(event: Event) | Finish(launch: Launch, world: Executor.World)

  /** An execution reports what running its plan behind the gate gives. */
  function Lower(step: Step): Event {
    match step
    case Plain(e) => e
    case Finish(launch, w) => Completion(launch, Executor.PlanOutcome(Executor.TaskOf(w), launch.plan))
  }

  function Lowered(steps: seq<Step>): seq<Event> {
    seq(|steps|, i requires 0 <= i < |steps| => Lower(steps[i]))
  }

  /** Executions end in no other way. */
  predicate Real(steps: seq<Step>) {
    forall i | 0 <= i < |steps| && steps[i].Plain? :: !steps[i].event.Completion?
  }

  predicate Ended(task: TaskState) {
    task.status == TaskStatus.Executed || task.status == TaskStatus.ExecutionFailed
  }

  ghost predicate LaunchedWithAuthority(g: Gate, log: seq<Record>, launch: Launch) {
    exists i | 0 <= i < |log| ::
      log[i].Launched? && log[i].launch == launch && Authorised(g, OfId(log[..i], launch.id), launch, log[i].at)
  }

  lemma CompletedWasLaunched(g: Gate, events: seq<Event>, id: string, finished: Launch, outcome: ExecutionOutcome,
                             when: nat)
    requires Legal(g, events) && finished.id == id
    requires Completed(finished, outcome, when) in SoloRun(g, id, events).log
    ensures LaunchedWithAuthority(g, Run(g, events).log, finished)
  {
    var s, l := Run(g, events), SoloRun(g, id, events);
    FinishedCounts(g, l.log, Completed(finished, outcome, when));
    EveryRunBalances(g, events, id);
    var k := StartedCounts(g, l.log, finished);
    DaemonIsProduct(g, events, id);
    OfIdMember(s.log, id, l.log[k]);
    var i: nat :| i < |s.log| && s.log[i] == l.log[k];
    EveryLaunchIsAuthorised(g, events, i);
  }

  /** The result of an ended task was reported by an execution of the id, launched with the authority required. */
  lemma ResultWasReported(g: Gate, events: seq<Event>, id: string) returns (launch: Launch)
    requires Legal(g, events)
    requires id in Run(g, events).tasks && Ended(Run(g, events).tasks[id])
    ensures Run(g, events).tasks[id].executionResult.Some? && launch.id == id
    ensures ResultFits(Run(g, events).tasks[id])
    ensures Completion(launch, Run(g, events).tasks[id].executionResult.value) in events
    ensures LaunchedWithAuthority(g, Run(g, events).log, launch)
  {
    var s, l := Run(g, events), SoloRun(g, id, events);
    DaemonIsProduct(g, events, id);
    assert l.entry == Some(s.tasks[id]);
    assert ResultFits(s.tasks[id]) by { EveryRunIsFaithful(g, events, id); }
    ResultsAreRecorded(g, events, id);
    var outcome := s.tasks[id].executionResult.value;
    var finished, when :| Completed(finished, outcome, when) in l.log;
    OfIdMember(s.log, id, Completed(finished, outcome, when));
    CompletionsAreEvents(g, events, id, finished, outcome, when);
    CompletedWasLaunched(g, events, id, finished, outcome, when);
    launch := finished;
  }

  /**
   The stored result of an ended task is what one of its executions gave: the task is reported as
   executed exactly if every command of the plan run by step `i` succeeded, and that plan had
   been launched under the id with the authority required of it.
   */
  lemma EndedMeansRan(g: Gate, steps: seq<Step>, id: string) returns (i: nat)
    requires Real(steps) && Legal(g, Lowered(steps))
    requires id in Run(g, Lowered(steps)).tasks && Ended(Run(g, Lowered(steps)).tasks[id])
    ensures i < |steps| && steps[i].Finish? && steps[i].launch.id == id
    ensures var task, run := Run(g, Lowered(steps)).tasks[id], Executor.TaskOf(steps[i].world);
            && task.executionResult == Some(Executor.PlanOutcome(run, steps[i].launch.plan))
            && (task.status == TaskStatus.Executed <==> Executor.PlanSucceeds(run, steps[i].launch.plan.commands))
    ensures LaunchedWithAuthority(g, Run(g, Lowered(steps)).log, steps[i].launch)
  {
    var events := Lowered(steps);
    var launch := ResultWasReported(g, events, id);
    var e := Completion(launch, Run(g, events).tasks[id].executionResult.value);
    var k: nat :| k < |events| && events[k] == e;
    i := k;
    assert Lower(steps[i]) == e;
  }

  /** Every command of the plan behind a task reported as executed had passed the gate. */
  lemma ExecutedMeansGated(g: Gate, steps: seq<Step>, id: string) returns (i: nat)
    requires Real(steps) && Legal(g, Lowered(steps))
    requires id in Run(g, Lowered(steps)).tasks && Run(g, Lowered(steps)).tasks[id].status == TaskStatus.Executed
    ensures i < |steps| && steps[i].Finish? && steps[i].launch.id == id
    ensures LaunchedWithAuthority(g, Run(g, Lowered(steps)).log, steps[i].launch)
    ensures var commands := steps[i].launch.plan.commands;
            forall k | 0 <= k < |commands| :: Executor.Gated(steps[i].world, k, commands[k])
  {
    i := EndedMeansRan(g, steps, id);
    var commands := steps[i].launch.plan.commands;
    forall k | 0 <= k < |commands|
      ensures Executor.Gated(steps[i].world, k, commands[k])
    {
      Executor.SuccessWasGated(steps[i].world, commands, k);
    }
  }
}
