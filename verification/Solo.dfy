/**
 The daemon seen from a single task id. `SoloRun` is an automaton for one id that ignores
 everything said about other ids; the daemon is shown to behave, for every id at once, as the
 product of these automata. Everything about single ids is then proved on the automaton.
 */
module Solo {
  import opened Wrappers
  import opened Protocol
  import opened EventLoop
  import opened Daemon

  datatype Local = Local(entry: Option<TaskState>, inFlight: multiset<Launch>, clock: nat, log: seq<Record>)

  function SoloInit(): Local {
    Local(None, multiset{}, 0, [])
  }

  function SoloStart(l: Local, launch: Launch): Local {
    l.(inFlight := l.inFlight + multiset{launch}, log := l.log + [Launched(launch, l.clock)])
  }

  function SoloSubmission(g: Gate, l: Local, plan: ExecutionPlan, acked: bool): Local {
    var (task, verdict) := SubmitEntry(g, l.entry, plan, l.clock);
    var l1 := l.(entry := Some(task), log := l.log + [Submitted(plan, l.clock)]);
    if verdict == AutoApproved && acked then SoloStart(l1, Launch(plan.taskId, plan, BySubmission)) else l1
  }

  predicate SoloHeld(l: Local) {
    l.entry.Some? && l.entry.value.status == TaskStatus.HeldForManualApproval
  }

  function SoloDecision(l: Local, id: string, approved: bool, acked: bool): Local {
    if !SoloHeld(l) then l
    else
      var l1 := l.(entry := Some(DecideEntry(l.entry.value, approved)),
                   log := l.log + [if approved then Approved(id, l.clock) else Rejected(id, l.clock)]);
      if approved && acked then SoloStart(l1, Launch(id, l.entry.value.plan, ByOwner)) else l1
  }

  predicate SoloOverdue(g: Gate, l: Local) {
    l.entry.Some? && Overdue(g, l.entry.value, l.clock)
  }

  function SoloTick(g: Gate, l: Local, id: string): Local {
    if !SoloOverdue(g, l) then l
    else SoloStart(l.(entry := Some(ExpireEntry(g, l.entry.value, l.clock))), Launch(id, l.entry.value.plan, ByTimer))
  }

  function SoloCompletion(l: Local, launch: Launch, outcome: ExecutionOutcome): Local {
    l.(entry := if l.entry.Some? then Some(SettleEntry(l.entry.value, outcome)) else None,
       inFlight := l.inFlight - multiset{launch},
       log := l.log + [Completed(launch, outcome, l.clock)])
  }

  predicate Concerns(e: Event, id: string) {
    match e
    case Advance(_) => true
    case Submission(plan, _) => plan.taskId == id
    case Tick(_) => true
    case Decision(i, _, _) => i == id
    case Completion(launch, _) => launch.id == id
  }

  function SoloApply(g: Gate, id: string, l: Local, e: Event): Local {
    if !Concerns(e, id) then l
    else
      match e
      case Advance(d) => l.(clock := l.clock + d)
      case Submission(plan, acked) => SoloSubmission(g, l, plan, acked)
      case Tick(_) => SoloTick(g, l, id)
      case Decision(_, approved, acked) => SoloDecision(l, id, approved, acked)
      case Completion(launch, outcome) => SoloCompletion(l, launch, outcome)
  }

  function SoloRun(g: Gate, id: string, events: seq<Event>): Local {
    if events == [] then SoloInit()
    else SoloApply(g, id, SoloRun(g, id, events[..|events| - 1]), events[|events| - 1])
  }

  /** `l` is what the daemon state `s` holds about `id`. */
  ghost predicate Matches(s: System, id: string, l: Local) {
    && l.entry == Lookup(s.tasks, id)
    && l.clock == s.clock
    && l.log == OfId(s.log, id)
    && forall x: Launch :: l.inFlight[x] == if x.id == id then s.inFlight[x] else 0
  }

  lemma StartMatches(s: System, id: string, l: Local, launch: Launch)
    requires Matches(s, id, l)
    ensures launch.id == id ==> Matches(Start(s, launch), id, SoloStart(l, launch))
    ensures launch.id != id ==> Matches(Start(s, launch), id, l)
  {
    OfIdPush(s.log, Launched(launch, s.clock), id);
  }

  lemma {:induction false} StartOthersMatches(s: System, fired: seq<(string, ExecutionPlan)>, id: string, l: Local)
    requires Matches(s, id, l)
    requires forall i | 0 <= i < |fired| :: fired[i].0 != id
    ensures Matches(StartAll(s, fired), id, l)
  {
    if fired != [] {
      var n := |fired| - 1;
      StartOthersMatches(s, fired[..n], id, l);
      StartMatches(StartAll(s, fired[..n]), id, l, Launch(fired[n].0, fired[n].1, ByTimer));
    }
  }

  lemma {:induction false} StartAllMatches(s: System, fired: seq<(string, ExecutionPlan)>, id: string, l: Local, k: nat)
    requires Matches(s, id, l)
    requires k < |fired| && fired[k].0 == id
    requires forall i | 0 <= i < |fired| && i != k :: fired[i].0 != id
    ensures Matches(StartAll(s, fired), id, SoloStart(l, Launch(id, fired[k].1, ByTimer)))
  {
    var n := |fired| - 1;
    var launch := Launch(fired[n].0, fired[n].1, ByTimer);
    if k == n {
      StartOthersMatches(s, fired[..n], id, l);
      StartMatches(StartAll(s, fired[..n]), id, l, launch);
    } else {
      StartAllMatches(s, fired[..n], id, l, k);
      StartMatches(StartAll(s, fired[..n]), id, SoloStart(l, Launch(id, fired[k].1, ByTimer)), launch);
    }
  }

  lemma {:induction false} StartAllFrame(s: System, fired: seq<(string, ExecutionPlan)>)
    ensures StartAll(s, fired).tasks == s.tasks && StartAll(s, fired).clock == s.clock
  {
    if fired != [] {
      StartAllFrame(s, fired[..|fired| - 1]);
    }
  }

  lemma OwnSubmissionMatches(g: Gate, s: System, id: string, l: Local, plan: ExecutionPlan, acked: bool)
    requires Matches(s, id, l) && plan.taskId == id
    ensures Matches(AfterSubmission(g, s, plan, acked), id, SoloSubmission(g, l, plan, acked))
  {
    OfIdPush(s.log, Submitted(plan, s.clock), id);
    var (task, verdict) := SubmitEntry(g, l.entry, plan, s.clock);
    var s1 := s.(tasks := Submit(g, s.tasks, plan, s.clock), log := s.log + [Submitted(plan, s.clock)]);
    var l1 := l.(entry := Some(task), log := l.log + [Submitted(plan, l.clock)]);
    assert Matches(s1, id, l1);
    if verdict == AutoApproved && acked {
      StartMatches(s1, id, l1, Launch(plan.taskId, plan, BySubmission));
    }
  }

  lemma OtherSubmissionMatches(g: Gate, s: System, id: string, l: Local, plan: ExecutionPlan, acked: bool)
    requires Matches(s, id, l) && plan.taskId != id
    ensures Matches(AfterSubmission(g, s, plan, acked), id, l)
  {
    OfIdPush(s.log, Submitted(plan, s.clock), id);
    var s1 := s.(tasks := Submit(g, s.tasks, plan, s.clock), log := s.log + [Submitted(plan, s.clock)]);
    assert Matches(s1, id, l);
    StartMatches(s1, id, l, Launch(plan.taskId, plan, BySubmission));
  }

  lemma SubmissionMatches(g: Gate, s: System, id: string, l: Local, plan: ExecutionPlan, acked: bool)
    requires Matches(s, id, l)
    ensures Matches(AfterSubmission(g, s, plan, acked), id, SoloApply(g, id, l, Submission(plan, acked)))
  {
    if plan.taskId == id {
      OwnSubmissionMatches(g, s, id, l, plan, acked);
    } else {
      OtherSubmissionMatches(g, s, id, l, plan, acked);
    }
  }

  lemma OwnDecisionMatches(s: System, id: string, l: Local, approved: bool, acked: bool)
    requires Matches(s, id, l) && HeldIn(s.tasks, id)
    ensures Matches(AfterDecision(s, id, approved, acked), id, SoloDecision(l, id, approved, acked))
  {
    var r := if approved then Approved(id, s.clock) else Rejected(id, s.clock);
    OfIdPush(s.log, r, id);
    var s1 := s.(tasks := Decide(s.tasks, id, approved), log := s.log + [r]);
    var l1 := l.(entry := Some(DecideEntry(l.entry.value, approved)), log := l.log + [r]);
    assert Matches(s1, id, l1);
    if approved && acked {
      StartMatches(s1, id, l1, Launch(id, s.tasks[id].plan, ByOwner));
    }
  }

  lemma OtherDecisionMatches(s: System, id: string, l: Local, i: string, approved: bool, acked: bool)
    requires Matches(s, id, l) && HeldIn(s.tasks, i) && i != id
    ensures Matches(AfterDecision(s, i, approved, acked), id, l)
  {
    var r := if approved then Approved(i, s.clock) else Rejected(i, s.clock);
    OfIdPush(s.log, r, id);
    var s1 := s.(tasks := Decide(s.tasks, i, approved), log := s.log + [r]);
    assert Matches(s1, id, l);
    if approved && acked {
      StartMatches(s1, id, l, Launch(i, s.tasks[i].plan, ByOwner));
    }
  }

  lemma DecisionMatches(g: Gate, s: System, id: string, l: Local, i: string, approved: bool, acked: bool)
    requires Matches(s, id, l)
    ensures Matches(AfterDecision(s, i, approved, acked), id, SoloApply(g, id, l, Decision(i, approved, acked)))
  {
    if HeldIn(s.tasks, i) {
      if i == id {
        OwnDecisionMatches(s, id, l, approved, acked);
      } else {
        OtherDecisionMatches(s, id, l, i, approved, acked);
      }
    }
  }

  lemma TickMatches(g: Gate, s: System, id: string, l: Local, fired: seq<(string, ExecutionPlan)>)
    requires Matches(s, id, l) && Enumerates(fired, g, s.tasks, s.clock)
    ensures Matches(Apply(g, s, Tick(fired)), id, SoloTick(g, l, id))
  {
    var s1 := s.(tasks := Expire(g, s.tasks, s.clock));
    var l1 := if l.entry.Some? then l.(entry := Some(ExpireEntry(g, l.entry.value, l.clock))) else l;
    assert Matches(s1, id, l1);
    if SoloOverdue(g, l) {
      assert (id, s.tasks[id].plan) in fired;
      var k: nat :| k < |fired| && fired[k] == (id, s.tasks[id].plan);
      StartAllMatches(s1, fired, id, l1, k);
    } else {
      assert l1 == l;
      StartOthersMatches(s1, fired, id, l1);
    }
  }

  /** Taking a launch out of the daemon's executions takes it out of those of its id only. */
  lemma EndedMatches(all: multiset<Launch>, own: multiset<Launch>, id: string, launch: Launch)
    requires forall x: Launch :: own[x] == if x.id == id then all[x] else 0
    ensures var own' := if launch.id == id then own - multiset{launch} else own;
            forall x: Launch :: own'[x] == if x.id == id then (all - multiset{launch})[x] else 0
  {
  }

  lemma OwnCompletionMatches(s: System, id: string, l: Local, launch: Launch, outcome: ExecutionOutcome)
    requires Matches(s, id, l) && launch.id == id
    ensures Matches(AfterCompletion(s, launch, outcome), id, SoloCompletion(l, launch, outcome))
  {
    OfIdPush(s.log, Completed(launch, outcome, s.clock), id);
    EndedMatches(s.inFlight, l.inFlight, id, launch);
    assert Lookup(Settle(s.tasks, id, outcome), id) == SoloCompletion(l, launch, outcome).entry;
  }

  lemma OtherCompletionMatches(s: System, id: string, l: Local, launch: Launch, outcome: ExecutionOutcome)
    requires Matches(s, id, l) && launch.id != id
    ensures Matches(AfterCompletion(s, launch, outcome), id, l)
  {
    OfIdPush(s.log, Completed(launch, outcome, s.clock), id);
    EndedMatches(s.inFlight, l.inFlight, id, launch);
    assert Lookup(Settle(s.tasks, launch.id, outcome), id) == l.entry;
  }

  lemma CompletionMatches(g: Gate, s: System, id: string, l: Local, launch: Launch, outcome: ExecutionOutcome)
    requires Matches(s, id, l) && launch in s.inFlight
    ensures Matches(AfterCompletion(s, launch, outcome), id, SoloApply(g, id, l, Completion(launch, outcome)))
  {
    if launch.id == id {
      OwnCompletionMatches(s, id, l, launch, outcome);
    } else {
      OtherCompletionMatches(s, id, l, launch, outcome);
    }
  }

  /** The daemon is the product of the single-id automata. */
  lemma {:induction false} DaemonIsProduct(g: Gate, events: seq<Event>, id: string)
    requires Legal(g, events)
    ensures Matches(Run(g, events), id, SoloRun(g, id, events))
  {
    if events != [] {
      var n := |events| - 1;
      var s, l := Run(g, events[..n]), SoloRun(g, id, events[..n]);
      DaemonIsProduct(g, events[..n], id);
      match events[n] {
        case Advance(_) =>
        case Submission(plan, acked) => SubmissionMatches(g, s, id, l, plan, acked);
        case Tick(fired) => TickMatches(g, s, id, l, fired);
        case Decision(i, approved, acked) => DecisionMatches(g, s, id, l, i, approved, acked);
        case Completion(launch, outcome) => CompletionMatches(g, s, id, l, launch, outcome);
      }
    }
  }

  // ---- Non-interference ----

  function FiredFor(fired: seq<(string, ExecutionPlan)>, id: string): seq<(string, ExecutionPlan)> {
    if fired == [] then []
    else (if fired[0].0 == id then [fired[0]] else []) + FiredFor(fired[1..], id)
  }

  lemma {:induction false} FiredForAbsent(fired: seq<(string, ExecutionPlan)>, id: string)
    requires forall i | 0 <= i < |fired| :: fired[i].0 != id
    ensures FiredFor(fired, id) == []
  {
    if fired != [] {
      FiredForAbsent(fired[1..], id);
    }
  }

  lemma {:induction false} FiredForPresent(fired: seq<(string, ExecutionPlan)>, id: string, k: nat)
    requires forall i, j | 0 <= i < j < |fired| :: fired[i].0 != fired[j].0
    requires k < |fired| && fired[k].0 == id
    ensures FiredFor(fired, id) == [fired[k]]
  {
    if k == 0 {
      FiredForAbsent(fired[1..], id);
    } else {
      FiredForPresent(fired[1..], id, k - 1);
    }
  }

  /** Removes every submission, decision and completion of other ids, and the other ids' launches by the timer. */
  function Erase(events: seq<Event>, id: string): seq<Event> {
    if events == [] then []
    else
      var rest := Erase(events[..|events| - 1], id);
      match events[|events| - 1]
      case Tick(fired) => rest + [Tick(FiredFor(fired, id))]
      case e => if Concerns(e, id) then rest + [e] else rest
  }

  lemma {:induction false} EraseRunsAlike(g: Gate, events: seq<Event>, id: string)
    ensures SoloRun(g, id, Erase(events, id)) == SoloRun(g, id, events)
  {
    if events != [] {
      var n := |events| - 1;
      EraseRunsAlike(g, events[..n], id);
      var rest := Erase(events[..n], id);
      var e := match events[n] case Tick(fired) => Tick(FiredFor(fired, id)) case e => e;
      assert (rest + [e])[..|rest|] == rest;
      assert SoloApply(g, id, SoloRun(g, id, events[..n]), e) == SoloRun(g, id, events);
      assert Concerns(events[n], id) ==> SoloRun(g, id, rest + [e]) == SoloApply(g, id, SoloRun(g, id, rest), e);
    }
  }

  /** What an event does to the table, whatever it launches. */
  function NextTasks(g: Gate, s: System, e: Event): Tasks {
    match e
    case Advance(_) => s.tasks
    case Submission(plan, _) => Submit(g, s.tasks, plan, s.clock)
    case Tick(_) => Expire(g, s.tasks, s.clock)
    case Decision(id, approved, _) => Decide(s.tasks, id, approved)
    case Completion(launch, outcome) => Settle(s.tasks, launch.id, outcome)
  }

  lemma SubmissionTasks(g: Gate, s: System, plan: ExecutionPlan, acked: bool)
    ensures AfterSubmission(g, s, plan, acked).tasks == Submit(g, s.tasks, plan, s.clock)
  {
  }

  lemma DecisionTasks(s: System, id: string, approved: bool, acked: bool)
    ensures AfterDecision(s, id, approved, acked).tasks == Decide(s.tasks, id, approved)
  {
    if !HeldIn(s.tasks, id) {
      assert id in s.tasks ==> DecideEntry(s.tasks[id], approved) == s.tasks[id];
    }
  }

  lemma TasksAfter(g: Gate, s: System, e: Event)
    ensures Apply(g, s, e).tasks == NextTasks(g, s, e)
  {
    match e {
      case Advance(_) =>
      case Submission(plan, acked) => SubmissionTasks(g, s, plan, acked);
      case Tick(fired) => StartAllFrame(s.(tasks := Expire(g, s.tasks, s.clock)), fired);
      case Decision(id, approved, acked) => DecisionTasks(s, id, approved, acked);
      case Completion(_, _) =>
    }
  }

  lemma NextKeys(g: Gate, s: System, e: Event)
    ensures NextTasks(g, s, e).Keys == s.tasks.Keys + if e.Submission? then {e.plan.taskId} else {}
  {
  }

  function ErasedEvent(e: Event, id: string): Event {
    match e
    case Tick(fired) => Tick(FiredFor(fired, id))
    case _ => e
  }

  lemma {:induction false} ErasedKeys(g: Gate, events: seq<Event>, id: string)
    ensures Run(g, Erase(events, id)).tasks.Keys <= {id}
  {
    if events != [] {
      var n := |events| - 1;
      ErasedKeys(g, events[..n], id);
      if Concerns(events[n], id) {
        var rest, e := Erase(events[..n], id), ErasedEvent(events[n], id);
        assert Erase(events, id) == rest + [e];
        RunPush(g, rest, e);
        TasksAfter(g, Run(g, rest), e);
        NextKeys(g, Run(g, rest), e);
      }
    }
  }

  lemma ErasedTickEnabled(g: Gate, tasks: Tasks, tasks': Tasks, now: nat, fired: seq<(string, ExecutionPlan)>,
                          id: string)
    requires Enumerates(fired, g, tasks, now)
    requires Lookup(tasks, id) == Lookup(tasks', id) && tasks'.Keys <= {id}
    ensures Enumerates(FiredFor(fired, id), g, tasks', now)
  {
    if id in tasks && Overdue(g, tasks[id], now) {
      var k :| 0 <= k < |fired| && fired[k] == (id, tasks[id].plan);
      FiredForPresent(fired, id, k);
    } else {
      FiredForAbsent(fired, id);
    }
  }

  /** The run without the other ids is itself a run of the daemon. */
  lemma {:induction false} ErasedIsLegal(g: Gate, events: seq<Event>, id: string)
    requires Legal(g, events)
    ensures Legal(g, Erase(events, id))
  {
    if events != [] {
      var n := |events| - 1;
      ErasedIsLegal(g, events[..n], id);
      var rest := Erase(events[..n], id);
      var s, r := Run(g, events[..n]), Run(g, rest);
      assert Lookup(s.tasks, id) == Lookup(r.tasks, id) && s.clock == r.clock
             && forall x: Launch | x.id == id :: s.inFlight[x] == r.inFlight[x] by {
        DaemonIsProduct(g, events[..n], id);
        DaemonIsProduct(g, rest, id);
        EraseRunsAlike(g, events[..n], id);
      }
      match events[n] {
        case Tick(fired) =>
          ErasedKeys(g, events[..n], id);
          ErasedTickEnabled(g, s.tasks, r.tasks, s.clock, fired, id);
          RunPush(g, rest, Tick(FiredFor(fired, id)));
        case e =>
          if Concerns(e, id) {
            RunPush(g, rest, e);
          }
      }
    }
  }

  /**
   What the daemon answers about an id, and everything that happened to it, is what would have
   been had nobody ever mentioned another id.
   */
  lemma NonInterference(g: Gate, events: seq<Event>, id: string)
    requires Legal(g, events)
    ensures Legal(g, Erase(events, id))
    ensures QueryIn(Run(g, Erase(events, id)).tasks, id) == QueryIn(Run(g, events).tasks, id)
    ensures OfId(Run(g, Erase(events, id)).log, id) == OfId(Run(g, events).log, id)
    ensures forall x: Launch | x.id == id :: Run(g, Erase(events, id)).inFlight[x] == Run(g, events).inFlight[x]
  {
    ErasedIsLegal(g, events, id);
    DaemonIsProduct(g, events, id);
    DaemonIsProduct(g, Erase(events, id), id);
    EraseRunsAlike(g, events, id);
    assert Lookup(Run(g, Erase(events, id)).tasks, id) == Lookup(Run(g, events).tasks, id);
  }

  /** Two histories that differ only in what other ids did and in the order the timer visits the table. */
  lemma IterationOrderIsInvisible(g: Gate, events: seq<Event>, events': seq<Event>, id: string)
    requires Legal(g, events) && Legal(g, events')
    requires Erase(events, id) == Erase(events', id)
    ensures Lookup(Run(g, events).tasks, id) == Lookup(Run(g, events').tasks, id)
    ensures OfId(Run(g, events).log, id) == OfId(Run(g, events').log, id)
  {
    DaemonIsProduct(g, events, id);
    DaemonIsProduct(g, events', id);
    EraseRunsAlike(g, events, id);
    EraseRunsAlike(g, events', id);
  }
}
