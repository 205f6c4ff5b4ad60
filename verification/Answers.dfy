/**
 What a query answers, told from the history of the task id alone: an independent account of the
 status and the result that the table keeps, and what single events change in it.
 */
module Answers {
  import opened Wrappers
  import opened Protocol
  import opened EventLoop
  import opened Daemon
  import opened Solo
  import opened Authority

  datatype Answer = Answer(status: TaskStatus, result: Option<ExecutionOutcome>)

  function WithStatus(before: Option<Answer>, status: TaskStatus): Option<Answer> {
    match before
    case None => None
    case Some(answer) => Some(answer.(status := status))
  }

  /** The instant the delegation window of a submission counts from. */
  function WindowStart(g: Gate, log: seq<Record>, at: nat): nat {
    match Governing(g, log)
    case Some(origin) => origin.at
    case None => at
  }

  /**
   The answer after one more record: a critical submission starts anew and is held; a delegable
   one keeps the result and is pending or, past the window, approved; a completion decides
   everything.
   */
  function ToldNext(g: Gate, log: seq<Record>, before: Option<Answer>, r: Record): Option<Answer> {
    match r
    case Submitted(plan, at) =>
      if g.decide(plan) == NonDelegable then Some(Answer(TaskStatus.HeldForManualApproval, None))
      else
        var over := WindowStart(g, log, at) + g.timeout <= at;
        Some(Answer(if over then TaskStatus.DelegableAutoApproved else TaskStatus.Pending,
                    if before.Some? then before.value.result else None))
    case Approved(_, _) => WithStatus(before, TaskStatus.Pending)
    case Rejected(_, _) => WithStatus(before, TaskStatus.RejectedByOwner)
    case Launched(launch, _) =>
      if launch.cause == ByTimer then WithStatus(before, TaskStatus.DelegableAutoApproved) else before
    case Completed(_, outcome, _) =>
      Some(Answer(if outcome.success then TaskStatus.Executed else TaskStatus.ExecutionFailed, Some(outcome)))
  }

  function Told(g: Gate, log: seq<Record>): Option<Answer> {
    if log == [] then None
    else
      var n := |log| - 1;
      ToldNext(g, log[..n], Told(g, log[..n]), log[n])
  }

  lemma ToldPush(g: Gate, log: seq<Record>, r: Record)
    ensures Told(g, log + [r]) == ToldNext(g, log, Told(g, log), r)
  {
    assert (log + [r])[..|log|] == log;
  }

  function AnswerOf(entry: Option<TaskState>): Option<Answer> {
    match entry
    case None => None
    case Some(task) => Some(Answer(task.status, task.executionResult))
  }

  predicate Truthful(g: Gate, l: Local) {
    Told(g, l.log) == AnswerOf(l.entry)
  }

  lemma StartTruthful(g: Gate, l: Local, launch: Launch)
    requires Truthful(g, l)
    requires launch.cause == ByTimer ==> l.entry.Some? && l.entry.value.status == TaskStatus.DelegableAutoApproved
    ensures Truthful(g, SoloStart(l, launch))
  {
    ToldPush(g, l.log, Launched(launch, l.clock));
  }

  lemma SubmissionTruthful(g: Gate, id: string, l: Local, plan: ExecutionPlan, acked: bool)
    requires Truthful(g, l) && Faithful(g, id, l) && plan.taskId == id
    ensures Truthful(g, SoloSubmission(g, l, plan, acked))
  {
    var r := Submitted(plan, l.clock);
    var (task, verdict) := SubmitEntry(g, l.entry, plan, l.clock);
    var l1 := l.(entry := Some(task), log := l.log + [r]);
    ToldPush(g, l.log, r);
    assert Truthful(g, l1);
    if verdict == AutoApproved && acked {
      StartTruthful(g, l1, Launch(plan.taskId, plan, BySubmission));
    }
  }

  lemma DecisionTruthful(g: Gate, l: Local, id: string, approved: bool, acked: bool)
    requires Truthful(g, l)
    ensures Truthful(g, SoloDecision(l, id, approved, acked))
  {
    if SoloHeld(l) {
      var r := if approved then Approved(id, l.clock) else Rejected(id, l.clock);
      var l1 := l.(entry := Some(DecideEntry(l.entry.value, approved)), log := l.log + [r]);
      ToldPush(g, l.log, r);
      assert Truthful(g, l1);
      if approved && acked {
        StartTruthful(g, l1, Launch(id, l.entry.value.plan, ByOwner));
      }
    }
  }

  lemma TickTruthful(g: Gate, l: Local, id: string)
    requires Truthful(g, l)
    ensures Truthful(g, SoloTick(g, l, id))
  {
    if SoloOverdue(g, l) {
      ToldPush(g, l.log, Launched(Launch(id, l.entry.value.plan, ByTimer), l.clock));
    }
  }

  lemma CompletionTruthful(g: Gate, l: Local, launch: Launch, outcome: ExecutionOutcome)
    requires Truthful(g, l) && l.entry.Some?
    ensures Truthful(g, SoloCompletion(l, launch, outcome))
  {
    ToldPush(g, l.log, Completed(launch, outcome, l.clock));
  }

  lemma {:induction false} EveryRunIsTruthful(g: Gate, events: seq<Event>, id: string)
    requires Legal(g, events)
    ensures Truthful(g, SoloRun(g, id, events))
  {
    if events != [] {
      var n := |events| - 1;
      var l := SoloRun(g, id, events[..n]);
      EveryRunIsTruthful(g, events[..n], id);
      EveryRunIsFaithful(g, events[..n], id);
      DaemonIsProduct(g, events[..n], id);
      StepTruthful(g, id, l, events[n]);
    }
  }

  lemma StepTruthful(g: Gate, id: string, l: Local, e: Event)
    requires Truthful(g, l) && Faithful(g, id, l)
    requires e.Completion? && e.launch.id == id ==> e.launch in l.inFlight
    ensures Truthful(g, SoloApply(g, id, l, e))
  {
    if Concerns(e, id) {
      match e {
        case Advance(_) =>
        case Submission(plan, acked) => SubmissionTruthful(g, id, l, plan, acked);
        case Tick(_) => TickTruthful(g, l, id);
        case Decision(_, approved, acked) => DecisionTruthful(g, l, id, approved, acked);
        case Completion(launch, outcome) => CompletionTruthful(g, l, launch, outcome);
      }
    }
  }

  /** What a query must answer, given the answer told from the history. */
  function Reply(id: string, told: Option<Answer>): Result<TaskQueryResult, LoopError> {
    match told
    case None => Err(TaskNotFound(id))
    case Some(answer) => Ok(TaskQueryResult(id, answer.status, answer.result))
  }

  /** On every run, a query answers about an id exactly what the history of the id tells. */
  lemma AnswersAreHistory(g: Gate, events: seq<Event>, id: string)
    requires Legal(g, events)
    ensures QueryIn(Run(g, events).tasks, id) == Reply(id, Told(g, OfId(Run(g, events).log, id)))
  {
    var tasks, l := Run(g, events).tasks, SoloRun(g, id, events);
    DaemonIsProduct(g, events, id);
    EveryRunIsTruthful(g, events, id);
    assert Lookup(tasks, id) == l.entry;
    assert id in tasks ==> tasks[id].taskId == id by { EveryRunIsFaithful(g, events, id); }
  }

  // ---- Completions ----

  /**
   The end of an execution always ends its task with its outcome, whatever has happened to the id
   since the launch, and changes nothing else about the task and nothing about other ids.
   */
  lemma CompletionIsReported(g: Gate, events: seq<Event>, launch: Launch, outcome: ExecutionOutcome)
    requires Legal(g, events + [Completion(launch, outcome)])
    ensures var id, s, s' := launch.id, Run(g, events), Run(g, events + [Completion(launch, outcome)]);
            && id in s.tasks && id in s'.tasks
            && (s'.tasks[id].status == TaskStatus.Executed <==> outcome.success)
            && (s'.tasks[id].status == TaskStatus.ExecutionFailed <==> !outcome.success)
            && s'.tasks[id].executionResult == Some(outcome)
            && s'.tasks[id].plan == s.tasks[id].plan
            && s'.tasks[id].decision == s.tasks[id].decision
            && s'.tasks[id].createdAt == s.tasks[id].createdAt
            && QueryIn(s'.tasks, id) == Ok(TaskQueryResult(id, s'.tasks[id].status, Some(outcome)))
            && forall other | other != id :: Lookup(s'.tasks, other) == Lookup(s.tasks, other)
  {
    var id, s := launch.id, Run(g, events);
    RunPush(g, events, Completion(launch, outcome));
    EntriesAreHistory(g, events, id);
    assert s.tasks[id].taskId == id;
    TasksAfter(g, s, Completion(launch, outcome));
  }

  // ---- Time ----

  /** The history is in the order of the clock and never ahead of it. */
  ghost predicate InOrder(s: System) {
    && (forall i | 0 <= i < |s.log| :: s.log[i].at <= s.clock)
    && (forall i, j | 0 <= i < j < |s.log| :: s.log[i].at <= s.log[j].at)
  }

  lemma {:induction false} StartAllInOrder(s: System, fired: seq<(string, ExecutionPlan)>)
    requires InOrder(s)
    ensures InOrder(StartAll(s, fired))
  {
    if fired != [] {
      StartAllInOrder(s, fired[..|fired| - 1]);
    }
  }

  /** One more record, at the present instant. */
  lemma RecordInOrder(s: System, s': System, r: Record)
    requires InOrder(s) && s'.log == s.log + [r] && r.at == s.clock == s'.clock
    ensures InOrder(s')
  {
  }

  lemma SubmissionInOrder(g: Gate, s: System, plan: ExecutionPlan, acked: bool)
    requires InOrder(s)
    ensures InOrder(AfterSubmission(g, s, plan, acked))
  {
    var s1 := s.(tasks := Submit(g, s.tasks, plan, s.clock), log := s.log + [Submitted(plan, s.clock)]);
    RecordInOrder(s, s1, Submitted(plan, s.clock));
    var launch := Launch(plan.taskId, plan, BySubmission);
    RecordInOrder(s1, Start(s1, launch), Launched(launch, s.clock));
  }

  lemma DecisionInOrder(s: System, id: string, approved: bool, acked: bool)
    requires InOrder(s)
    ensures InOrder(AfterDecision(s, id, approved, acked))
  {
    if HeldIn(s.tasks, id) {
      var r := if approved then Approved(id, s.clock) else Rejected(id, s.clock);
      var s1 := s.(tasks := Decide(s.tasks, id, approved), log := s.log + [r]);
      RecordInOrder(s, s1, r);
      var launch := Launch(id, s.tasks[id].plan, ByOwner);
      RecordInOrder(s1, Start(s1, launch), Launched(launch, s.clock));
    }
  }

  lemma StepInOrder(g: Gate, s: System, e: Event)
    requires InOrder(s)
    ensures InOrder(Apply(g, s, e))
  {
    match e {
      case Advance(_) =>
      case Submission(plan, acked) => SubmissionInOrder(g, s, plan, acked);
      case Tick(fired) => StartAllInOrder(s.(tasks := Expire(g, s.tasks, s.clock)), fired);
      case Decision(id, approved, acked) => DecisionInOrder(s, id, approved, acked);
      case Completion(launch, outcome) =>
        RecordInOrder(s, AfterCompletion(s, launch, outcome), Completed(launch, outcome, s.clock));
    }
  }

  function TimePassed(events: seq<Event>): nat {
    if events == [] then 0
    else TimePassed(events[..|events| - 1]) + match events[|events| - 1] case Advance(d) => d case _ => 0
  }

  lemma StepClock(g: Gate, s: System, e: Event)
    ensures Apply(g, s, e).clock == s.clock + match e case Advance(d) => d case _ => 0
  {
    match e {
      case Advance(_) =>
      case Submission(_, _) =>
      case Tick(fired) => StartAllFrame(s.(tasks := Expire(g, s.tasks, s.clock)), fired);
      case Decision(_, _, _) =>
      case Completion(_, _) =>
    }
  }

  /** Every record bears the time of its event: the history is ordered, and the clock is the time that has passed. */
  lemma {:induction false} HistoryIsOrdered(g: Gate, events: seq<Event>)
    ensures InOrder(Run(g, events)) && Run(g, events).clock == TimePassed(events)
  {
    if events != [] {
      var n := |events| - 1;
      HistoryIsOrdered(g, events[..n]);
      StepInOrder(g, Run(g, events[..n]), events[n]);
      StepClock(g, Run(g, events[..n]), events[n]);
    }
  }
}
