/**
 What the history of a task id says about it: which submission its stored entry comes from,
 and on whose authority each of its plans was launched.
 */
module Authority {
  import opened Wrappers
  import opened Protocol
  import opened EventLoop
  import opened Daemon
  import opened Solo

  datatype Origin = Origin(plan: ExecutionPlan, at: nat)

  /** The submission the stored entry comes from: the latest critical one or else the very first. */
  function Governing(g: Gate, log: seq<Record>): Option<Origin> {
    if log == [] then None
    else
      var rest := Governing(g, log[..|log| - 1]);
      match log[|log| - 1]
      case Submitted(plan, at) =>
        if rest.None? || g.decide(plan) == NonDelegable then Some(Origin(plan, at)) else rest
      case _ => rest
  }

  function Latest(log: seq<Record>): Option<Origin> {
    if log == [] then None
    else
      match log[|log| - 1]
      case Submitted(plan, at) => Some(Origin(plan, at))
      case _ => Latest(log[..|log| - 1])
  }

  lemma HistoryPush(g: Gate, log: seq<Record>, r: Record)
    ensures Governing(g, log + [r]) ==
            if r.Submitted? && (Governing(g, log).None? || g.decide(r.plan) == NonDelegable)
            then Some(Origin(r.plan, r.at)) else Governing(g, log)
    ensures Latest(log + [r]) == if r.Submitted? then Some(Origin(r.plan, r.at)) else Latest(log)
  {
    assert (log + [r])[..|log|] == log;
  }

  function Last(log: seq<Record>): Option<Record> {
    if log == [] then None else Some(log[|log| - 1])
  }

  /**
   The authority a launch has, given the earlier history of its task id:
   - by the timer: the plan is delegable, is the plan of the governing submission, and that
     submission is at least one timeout old;
   - by a submission: the plan was submitted just now and is delegable, and the governing
     submission of the id is at least one timeout old;
   - by the owner: the owner approved just now, the plan is not delegable, and it is the most
     recent submission under the id.
   */
  predicate Authorised(g: Gate, prior: seq<Record>, launch: Launch, at: nat) {
    && launch.plan.taskId == launch.id
    && match launch.cause
       case ByTimer =>
         && g.decide(launch.plan) == Delegable
         && Governing(g, prior).Some?
         && Governing(g, prior).value.plan == launch.plan
         && Governing(g, prior).value.at + g.timeout <= at
       case BySubmission =>
         && g.decide(launch.plan) == Delegable
         && Last(prior) == Some(Submitted(launch.plan, at))
         && Governing(g, prior).Some?
         && Governing(g, prior).value.at + g.timeout <= at
       case ByOwner =>
         && g.decide(launch.plan) == NonDelegable
         && Last(prior) == Some(Approved(launch.id, at))
         && Latest(prior).Some?
         && Latest(prior).value.plan == launch.plan
  }

  ghost predicate AllAuthorised(g: Gate, log: seq<Record>) {
    forall i | 0 <= i < |log| && log[i].Launched? :: Authorised(g, log[..i], log[i].launch, log[i].at)
  }

  lemma AuthorisedPush(g: Gate, log: seq<Record>, r: Record)
    requires AllAuthorised(g, log)
    requires r.Launched? ==> Authorised(g, log, r.launch, r.at)
    ensures AllAuthorised(g, log + [r])
  {
    var log' := log + [r];
    forall i | 0 <= i < |log'| && log'[i].Launched?
      ensures Authorised(g, log'[..i], log'[i].launch, log'[i].at)
    {
      assert log'[..i] == log[..i];
    }
    assert log'[..|log|] == log;
  }

  predicate ResultFits(task: TaskState) {
    && (task.status == TaskStatus.Executed ==> task.executionResult.Some? && task.executionResult.value.success)
    && (task.status == TaskStatus.ExecutionFailed ==> task.executionResult.Some? && !task.executionResult.value.success)
  }

  /** The entry of an id, as its history determines it. */
  ghost predicate Faithful(g: Gate, id: string, l: Local) {
    && (l.entry.Some? <==> Governing(g, l.log).Some?)
    && (l.entry.Some? ==>
          var task, origin := l.entry.value, Governing(g, l.log).value;
          && task.taskId == id && task.plan.taskId == id
          && task.plan == origin.plan && task.createdAt == origin.at <= l.clock
          && task.decision == g.decide(task.plan)
          && ResultFits(task)
          && (SoloHeld(l) ==> task.decision == NonDelegable && Latest(l.log) == Some(origin)))
    && (l.entry.None? ==> l.inFlight == multiset{} && l.log == [])
    && AllAuthorised(g, l.log)
  }

  /** Appending a launch keeps everything but needs its authority. */
  lemma StartFaithful(g: Gate, id: string, l: Local, launch: Launch)
    requires Faithful(g, id, l) && l.entry.Some? && Authorised(g, l.log, launch, l.clock)
    ensures Faithful(g, id, SoloStart(l, launch))
  {
    HistoryPush(g, l.log, Launched(launch, l.clock));
    AuthorisedPush(g, l.log, Launched(launch, l.clock));
  }

  lemma SubmissionFaithful(g: Gate, id: string, l: Local, plan: ExecutionPlan, acked: bool)
    requires Faithful(g, id, l) && plan.taskId == id
    ensures Faithful(g, id, SoloSubmission(g, l, plan, acked))
  {
    var r := Submitted(plan, l.clock);
    HistoryPush(g, l.log, r);
    AuthorisedPush(g, l.log, r);
    var (task, verdict) := SubmitEntry(g, l.entry, plan, l.clock);
    var l1 := l.(entry := Some(task), log := l.log + [r]);
    assert Faithful(g, id, l1);
    if verdict == AutoApproved && acked {
      StartFaithful(g, id, l1, Launch(id, plan, BySubmission));
    }
  }

  lemma DecisionFaithful(g: Gate, id: string, l: Local, approved: bool, acked: bool)
    requires Faithful(g, id, l)
    ensures Faithful(g, id, SoloDecision(l, id, approved, acked))
  {
    if SoloHeld(l) {
      var r := if approved then Approved(id, l.clock) else Rejected(id, l.clock);
      HistoryPush(g, l.log, r);
      AuthorisedPush(g, l.log, r);
      var l1 := l.(entry := Some(DecideEntry(l.entry.value, approved)), log := l.log + [r]);
      assert Faithful(g, id, l1);
      if approved && acked {
        StartFaithful(g, id, l1, Launch(id, l.entry.value.plan, ByOwner));
      }
    }
  }

  lemma TickFaithful(g: Gate, id: string, l: Local)
    requires Faithful(g, id, l)
    ensures Faithful(g, id, SoloTick(g, l, id))
  {
    if SoloOverdue(g, l) {
      var l1 := l.(entry := Some(ExpireEntry(g, l.entry.value, l.clock)));
      assert Faithful(g, id, l1);
      StartFaithful(g, id, l1, Launch(id, l.entry.value.plan, ByTimer));
    }
  }

  lemma CompletionFaithful(g: Gate, id: string, l: Local, launch: Launch, outcome: ExecutionOutcome)
    requires Faithful(g, id, l) && launch in l.inFlight
    ensures Faithful(g, id, SoloCompletion(l, launch, outcome))
  {
    HistoryPush(g, l.log, Completed(launch, outcome, l.clock));
    AuthorisedPush(g, l.log, Completed(launch, outcome, l.clock));
  }

  /** On every run, the entry of every id is the one its history determines. */
  lemma {:induction false} EveryRunIsFaithful(g: Gate, events: seq<Event>, id: string)
    requires Legal(g, events)
    ensures Faithful(g, id, SoloRun(g, id, events))
  {
    if events != [] {
      var n := |events| - 1;
      var l := SoloRun(g, id, events[..n]);
      EveryRunIsFaithful(g, events[..n], id);
      DaemonIsProduct(g, events[..n], id);
      match events[n] {
        case Advance(_) =>
        case Submission(plan, acked) =>
          if plan.taskId == id { SubmissionFaithful(g, id, l, plan, acked); }
        case Tick(_) => TickFaithful(g, id, l);
        case Decision(i, approved, acked) =>
          if i == id { DecisionFaithful(g, id, l, approved, acked); }
        case Completion(launch, outcome) =>
          if launch.id == id { CompletionFaithful(g, id, l, launch, outcome); }
      }
    }
  }

  lemma {:induction false} OfIdAt(log: seq<Record>, i: nat)
    requires i < |log|
    ensures var id := log[i].Subject();
            var k := |OfId(log[..i], id)|;
            && k < |OfId(log, id)|
            && OfId(log, id)[k] == log[i]
            && OfId(log, id)[..k] == OfId(log[..i], id)
  {
    var n := |log| - 1;
    if i < n {
      OfIdAt(log[..n], i);
      assert log[..n][..i] == log[..i];
    }
  }

  /** Every launch of every run had its authority at the moment it happened. */
  lemma EveryLaunchIsAuthorised(g: Gate, events: seq<Event>, i: nat)
    requires Legal(g, events)
    requires i < |Run(g, events).log| && Run(g, events).log[i].Launched?
    ensures var log := Run(g, events).log;
            Authorised(g, OfId(log[..i], log[i].launch.id), log[i].launch, log[i].at)
  {
    var log := Run(g, events).log;
    var id := log[i].launch.id;
    DaemonIsProduct(g, events, id);
    EveryRunIsFaithful(g, events, id);
    OfIdAt(log, i);
  }

  lemma {:induction false} OfIdMember(log: seq<Record>, id: string, r: Record)
    ensures r in OfId(log, id) <==> r in log && r.Subject() == id
  {
    if log != [] {
      OfIdMember(log[..|log| - 1], id, r);
      assert log == log[..|log| - 1] + [log[|log| - 1]];
    }
  }

  /** A plan that is not delegable is only ever launched right after an owner's approval. */
  lemma CriticalPlansNeedTheOwner(g: Gate, events: seq<Event>, i: nat)
    requires Legal(g, events)
    requires i < |Run(g, events).log| && Run(g, events).log[i].Launched?
    requires g.decide(Run(g, events).log[i].launch.plan) == NonDelegable
    ensures Run(g, events).log[i].launch.cause == ByOwner
    ensures Approved(Run(g, events).log[i].launch.id, Run(g, events).log[i].at) in Run(g, events).log[..i]
  {
    EveryLaunchIsAuthorised(g, events, i);
    var log := Run(g, events).log;
    OfIdMember(log[..i], log[i].launch.id, Approved(log[i].launch.id, log[i].at));
  }

  lemma {:induction false} CriticalGoverns(g: Gate, log: seq<Record>, r: Record)
    requires r in log && r.Submitted? && g.decide(r.plan) == NonDelegable
    ensures Governing(g, log).Some? && g.decide(Governing(g, log).value.plan) == NonDelegable
  {
    var n := |log| - 1;
    if r in log[..n] {
      CriticalGoverns(g, log[..n], r);
    }
  }

  /** Once a critical plan has been submitted under an id, the timer never launches that id again. */
  lemma TimerStopsAtCritical(g: Gate, events: seq<Event>, i: nat, j: nat)
    requires Legal(g, events)
    requires i < j < |Run(g, events).log|
    requires var log := Run(g, events).log;
             && log[i].Submitted? && g.decide(log[i].plan) == NonDelegable
             && log[j].Launched? && log[j].launch.id == log[i].plan.taskId
    ensures Run(g, events).log[j].launch.cause != ByTimer
  {
    var log := Run(g, events).log;
    EveryLaunchIsAuthorised(g, events, j);
    assert log[i] == log[..j][i];
    OfIdMember(log[..j], log[j].launch.id, log[i]);
    CriticalGoverns(g, OfId(log[..j], log[j].launch.id), log[i]);
  }

  lemma {:induction false} SubmittedGoverns(g: Gate, log: seq<Record>, r: Record)
    requires r in log && r.Submitted?
    ensures Governing(g, log).Some?
  {
    var n := |log| - 1;
    if r in log[..n] {
      SubmittedGoverns(g, log[..n], r);
    }
  }

  lemma {:induction false} GoverningWasSubmitted(g: Gate, log: seq<Record>)
    requires Governing(g, log).Some?
    ensures Submitted(Governing(g, log).value.plan, Governing(g, log).value.at) in log
  {
    var n := |log| - 1;
    if Governing(g, log[..n]).Some? {
      GoverningWasSubmitted(g, log[..n]);
    }
  }

  /** The entry of `id` is fixed by the history up to its status, and its result has the sign its status says. */
  predicate EntryIsHistory(g: Gate, s: System, id: string) {
    var governing := Governing(g, OfId(s.log, id));
    if id in s.tasks then
      && governing.Some?
      && s.tasks[id].taskId == id
      && s.tasks[id].plan == governing.value.plan
      && s.tasks[id].createdAt == governing.value.at
      && s.tasks[id].decision == g.decide(governing.value.plan)
      && ResultFits(s.tasks[id])
    else
      governing.None?
  }

  /**
   An id is known exactly when a plan was submitted under it; its entry is that of the
   governing submission; and an id in flight is always known, so recording its result cannot
   fail.
   */
  lemma EntriesAreHistory(g: Gate, events: seq<Event>, id: string)
    requires Legal(g, events)
    ensures EntryIsHistory(g, Run(g, events), id)
    ensures id in Run(g, events).tasks <==>
            exists r :: r in Run(g, events).log && r.Submitted? && r.plan.taskId == id
    ensures forall launch: Launch | launch in Run(g, events).inFlight && launch.id == id :: id in Run(g, events).tasks
  {
    var s := Run(g, events);
    DaemonIsProduct(g, events, id);
    EveryRunIsFaithful(g, events, id);
    assert Lookup(s.tasks, id) == SoloRun(g, id, events).entry;
    if id in s.tasks {
      GoverningWasSubmitted(g, OfId(s.log, id));
      var origin := Governing(g, OfId(s.log, id)).value;
      OfIdMember(s.log, id, Submitted(origin.plan, origin.at));
    }
    forall r | r in s.log && r.Submitted? && r.plan.taskId == id
      ensures id in s.tasks
    {
      OfIdMember(s.log, id, r);
      SubmittedGoverns(g, OfId(s.log, id), r);
    }
    forall launch: Launch | launch in s.inFlight && launch.id == id
      ensures id in s.tasks
    {
      assert SoloRun(g, id, events).inFlight[launch] > 0;
    }
  }
}
