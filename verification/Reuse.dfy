/**
 What reusing a task id can and cannot undo. An id may be submitted again at any moment, and an
 execution may end after its id has been submitted again, so "held until the owner decides",
 "a rejection is final" and "launched at most once" fail as such; here are runs on which they
 fail and the exact conditions under which they hold.
 */
module Reuse {
  import opened Wrappers
  import opened Protocol
  import opened EventLoop
  import opened Daemon
  import opened Solo
  import opened Ledger
  import opened Quiescence

  predicate SubmitsDelegable(g: Gate, e: Event, id: string) {
    e.Submission? && e.plan.taskId == id && g.decide(e.plan) == Delegable
  }

  predicate Ends(e: Event, id: string) {
    e.Completion? && e.launch.id == id
  }

  /** The event submits under the id something other than the critical plan that is held there. */
  predicate SubmitsAnother(g: Gate, e: Event, id: string, held: ExecutionPlan) {
    e.Submission? && e.plan.taskId == id && (g.decide(e.plan) == Delegable || e.plan != held)
  }

  lemma HeldStatusPersists(g: Gate, s: System, e: Event, id: string)
    requires HeldIn(s.tasks, id)
    ensures HeldIn(NextTasks(g, s, e), id) <==>
            !SubmitsDelegable(g, e, id) && !(e.Decision? && e.id == id) && !Ends(e, id)
  {
  }

  lemma HeldPlanPersists(g: Gate, s: System, e: Event, id: string)
    requires HeldIn(s.tasks, id) && HeldIn(NextTasks(g, s, e), id)
    ensures NextTasks(g, s, e)[id].plan == s.tasks[id].plan <==> !SubmitsAnother(g, e, id, s.tasks[id].plan)
  {
  }

  /**
   A held task stays held exactly when the event is no decision on it, no delegable resubmission
   and no late completion; and the plan that is held stays the same exactly when, besides, no
   other critical plan is submitted under its id.
   */
  lemma HeldPersistsExactlyWhen(g: Gate, s: System, e: Event, id: string)
    requires HeldIn(s.tasks, id) && Enabled(g, s, e)
    ensures HeldIn(Apply(g, s, e).tasks, id) <==>
            !SubmitsDelegable(g, e, id) && !(e.Decision? && e.id == id) && !Ends(e, id)
    ensures HeldIn(Apply(g, s, e).tasks, id) && Apply(g, s, e).tasks[id].plan == s.tasks[id].plan <==>
            !SubmitsAnother(g, e, id, s.tasks[id].plan) && !(e.Decision? && e.id == id) && !Ends(e, id)
  {
    TasksAfter(g, s, e);
    HeldStatusPersists(g, s, e, id);
    if HeldIn(NextTasks(g, s, e), id) {
      HeldPlanPersists(g, s, e, id);
    }
  }

  /** A rejected task stays rejected exactly when the event neither submits under its id nor ends an execution of it. */
  lemma RejectionPersistsExactlyWhen(g: Gate, s: System, e: Event, id: string)
    requires id in s.tasks && s.tasks[id].status == TaskStatus.RejectedByOwner && Enabled(g, s, e)
    ensures id in Apply(g, s, e).tasks
    ensures Apply(g, s, e).tasks[id].status == TaskStatus.RejectedByOwner <==>
            !(e.Submission? && e.plan.taskId == id) && !Ends(e, id)
  {
    TasksAfter(g, s, e);
  }

  /** Nothing about the id is pending: it can move again only through a new submission. */
  predicate AtRest(l: Local) {
    l.inFlight == multiset{} && (l.entry.Some? ==> !Armed(l.entry.value))
  }

  lemma NothingOfItInFlight(g: Gate, events: seq<Event>, id: string)
    requires Legal(g, events) && SoloRun(g, id, events).inFlight == multiset{}
    ensures forall launch: Launch | launch in Run(g, events).inFlight :: launch.id != id
  {
    DaemonIsProduct(g, events, id);
  }

  lemma AtRestStep(g: Gate, id: string, l: Local, e: Event)
    requires AtRest(l) && !(e.Submission? && e.plan.taskId == id) && !Ends(e, id)
    ensures var l' := SoloApply(g, id, l, e); l'.entry == l.entry && l'.log == l.log && AtRest(l')
  {
  }

  lemma {:induction false} AtRestStays(g: Gate, events: seq<Event>, n: nat, id: string)
    requires Legal(g, events) && n <= |events|
    requires AtRest(SoloRun(g, id, events[..n]))
    requires forall i | n <= i < |events| :: !(events[i].Submission? && events[i].plan.taskId == id)
    ensures SoloRun(g, id, events).entry == SoloRun(g, id, events[..n]).entry
    ensures SoloRun(g, id, events).log == SoloRun(g, id, events[..n]).log
    ensures AtRest(SoloRun(g, id, events))
  {
    if |events| == n {
      assert events[..n] == events;
    } else {
      var m := |events| - 1;
      assert events[..m][..n] == events[..n];
      AtRestStays(g, events[..m], n, id);
      var l := SoloRun(g, id, events[..m]);
      NothingOfItInFlight(g, events[..m], id);
      AtRestStep(g, id, l, events[m]);
    }
  }

  /**
   A rejected, executed or otherwise settled id with nothing in flight is final as long as
   nobody submits under it again: its answer never changes and nothing of it is launched.
   */
  lemma SettledIsFinalWithoutResubmission(g: Gate, events: seq<Event>, n: nat, id: string)
    requires n <= |events| && Legal(g, events) && Legal(g, events[..n])
    requires var s := Run(g, events[..n]);
             && (id in s.tasks ==> !Armed(s.tasks[id]))
             && forall launch: Launch | launch in s.inFlight :: launch.id != id
    requires forall i | n <= i < |events| :: !(events[i].Submission? && events[i].plan.taskId == id)
    ensures QueryIn(Run(g, events).tasks, id) == QueryIn(Run(g, events[..n]).tasks, id)
    ensures OfId(Run(g, events).log, id) == OfId(Run(g, events[..n]).log, id)
  {
    DaemonIsProduct(g, events, id);
    DaemonIsProduct(g, events[..n], id);
    var l := SoloRun(g, id, events[..n]);
    assert l.inFlight == multiset{} by {
      forall x: Launch ensures l.inFlight[x] == 0 {
      }
    }
    AtRestStays(g, events, n, id);
    assert Lookup(Run(g, events).tasks, id) == Lookup(Run(g, events[..n]).tasks, id);
  }

  // ---- Runs ----

  lemma RunOne(g: Gate, e: Event)
    ensures Run(g, [e]) == Apply(g, Init(), e)
    ensures Legal(g, [e]) <==> Enabled(g, Init(), e)
  {
    RunPush(g, [], e);
    assert [] + [e] == [e];
  }

  lemma CriticalIsHeld(g: Gate, s: System, plan: ExecutionPlan, acked: bool)
    requires g.decide(plan) == NonDelegable
    ensures var s' := Apply(g, s, Submission(plan, acked));
            && s'.tasks == s.tasks[plan.taskId := FreshEntry(g, plan, TaskStatus.HeldForManualApproval, s.clock)]
            && s'.inFlight == s.inFlight && s'.clock == s.clock
  {
  }

  /** A delegable resubmission takes a held plan out of the owner's hands: the approval launches nothing. */
  lemma HeldIsNotUntilDecided(g: Gate, critical: ExecutionPlan, delegable: ExecutionPlan)
    requires critical.taskId == delegable.taskId && g.timeout > 0
    requires g.decide(critical) == NonDelegable && g.decide(delegable) == Delegable
    ensures var id := critical.taskId;
            var first := [Submission(critical, true)];
            var second := first + [Submission(delegable, true)];
            var third := second + [Decision(id, true, true)];
            && Legal(g, third)
            && HeldIn(Run(g, first).tasks, id)
            && !HeldIn(Run(g, second).tasks, id)
            && Run(g, third).inFlight == multiset{}
  {
    var first := [Submission(critical, true)];
    var second := first + [Submission(delegable, true)];
    RunOne(g, Submission(critical, true));
    CriticalIsHeld(g, Init(), critical, true);
    RunPush(g, first, Submission(delegable, true));
    DelegableUnholds(g, Run(g, first), delegable);
    RunPush(g, second, Decision(critical.taskId, true, true));
  }

  lemma DelegableUnholds(g: Gate, s: System, plan: ExecutionPlan)
    requires HeldIn(s.tasks, plan.taskId) && g.decide(plan) == Delegable
    requires Elapsed(s.clock, s.tasks[plan.taskId].createdAt) < g.timeout
    ensures var s' := Apply(g, s, Submission(plan, true));
            !HeldIn(s'.tasks, plan.taskId) && s'.inFlight == s.inFlight
  {
  }

  /** A rejected plan is held again, for the owner to approve, as soon as somebody submits it again. */
  lemma RejectionIsNotFinal(g: Gate, critical: ExecutionPlan)
    requires g.decide(critical) == NonDelegable
    ensures var id := critical.taskId;
            var rejected := [Submission(critical, true)] + [Decision(id, false, true)];
            var again := rejected + [Submission(critical, true)];
            && Legal(g, again)
            && id in Run(g, rejected).tasks && Run(g, rejected).tasks[id].status == TaskStatus.RejectedByOwner
            && HeldIn(Run(g, again).tasks, id)
  {
    var id := critical.taskId;
    var submitted := [Submission(critical, true)];
    var rejected := submitted + [Decision(id, false, true)];
    RunOne(g, Submission(critical, true));
    CriticalIsHeld(g, Init(), critical, true);
    RunPush(g, submitted, Decision(id, false, true));
    RunPush(g, rejected, Submission(critical, true));
    CriticalIsHeld(g, Run(g, rejected), critical, true);
  }

  function UntilTimer(g: Gate, plan: ExecutionPlan): seq<Event> {
    [Submission(plan, true)] + [Advance(g.timeout)] + [Tick([(plan.taskId, plan)])]
  }

  lemma TimerFiresOne(g: Gate, s: System, plan: ExecutionPlan)
    requires s.tasks == map[plan.taskId := FreshEntry(g, plan, TaskStatus.Pending, 0)]
    requires g.decide(plan) == Delegable && s.clock == g.timeout
    ensures var fired := [(plan.taskId, plan)];
            var s' := Apply(g, s, Tick(fired));
            && Enabled(g, s, Tick(fired))
            && s'.clock == s.clock
            && s'.inFlight == s.inFlight + multiset{Launch(plan.taskId, plan, ByTimer)}
            && plan.taskId in s'.tasks && s'.tasks[plan.taskId].createdAt == 0
            && Starts(s'.log) == Starts(s.log) + 1
  {
    var fired := [(plan.taskId, plan)];
    var s1 := s.(tasks := Expire(g, s.tasks, s.clock));
    assert fired[0] == (plan.taskId, s.tasks[plan.taskId].plan);
    assert fired[..0] == [] && StartAll(s1, fired[..0]) == s1;
    StartAllFrame(s1, fired);
    StartAllCounts(s1, fired);
  }

  lemma FirstSubmission(g: Gate, plan: ExecutionPlan)
    requires g.decide(plan) == Delegable && g.timeout > 0
    ensures var events := [Submission(plan, true)];
            && Legal(g, events)
            && Run(g, events).tasks == map[plan.taskId := FreshEntry(g, plan, TaskStatus.Pending, 0)]
            && Run(g, events).clock == 0 && Run(g, events).inFlight == multiset{}
            && Starts(Run(g, events).log) == 0
  {
    RunOne(g, Submission(plan, true));
    StartsPush([], Submitted(plan, 0));
  }

  lemma TimerLaunches(g: Gate, plan: ExecutionPlan)
    requires g.decide(plan) == Delegable && g.timeout > 0
    ensures Legal(g, UntilTimer(g, plan))
    ensures var s := Run(g, UntilTimer(g, plan));
            && s.clock == g.timeout
            && s.inFlight == multiset{Launch(plan.taskId, plan, ByTimer)}
            && plan.taskId in s.tasks
            && s.tasks[plan.taskId].createdAt == 0
            && Starts(s.log) == 1
  {
    var submitted := [Submission(plan, true)];
    var waited := submitted + [Advance(g.timeout)];
    FirstSubmission(g, plan);
    RunPush(g, submitted, Advance(g.timeout));
    RunPush(g, waited, Tick([(plan.taskId, plan)]));
    TimerFiresOne(g, Run(g, waited), plan);
  }

  /** A held plan is lost to the end of an earlier execution under its id: the approval then launches nothing. */
  lemma HeldIsLostToALateCompletion(g: Gate, delegable: ExecutionPlan, critical: ExecutionPlan,
                                    outcome: ExecutionOutcome)
    requires critical.taskId == delegable.taskId && g.timeout > 0
    requires g.decide(critical) == NonDelegable && g.decide(delegable) == Delegable
    ensures var id := critical.taskId;
            var held := UntilTimer(g, delegable) + [Submission(critical, true)];
            var ended := held + [Completion(Launch(id, delegable, ByTimer), outcome)];
            var approved := ended + [Decision(id, true, true)];
            && Legal(g, approved)
            && HeldIn(Run(g, held).tasks, id) && Run(g, held).tasks[id].plan == critical
            && !HeldIn(Run(g, ended).tasks, id)
            && Run(g, approved).inFlight == multiset{}
  {
    var id, launch := critical.taskId, Launch(critical.taskId, delegable, ByTimer);
    var held := UntilTimer(g, delegable) + [Submission(critical, true)];
    var ended := held + [Completion(launch, outcome)];
    TimerLaunches(g, delegable);
    RunPush(g, UntilTimer(g, delegable), Submission(critical, true));
    CriticalIsHeld(g, Run(g, UntilTimer(g, delegable)), critical, true);
    RunPush(g, held, Completion(launch, outcome));
    CompletionUnholds(g, Run(g, held), launch, outcome);
    RunPush(g, ended, Decision(id, true, true));
  }

  lemma CompletionUnholds(g: Gate, s: System, launch: Launch, outcome: ExecutionOutcome)
    requires launch in s.inFlight
    ensures var s' := Apply(g, s, Completion(launch, outcome));
            !HeldIn(s'.tasks, launch.id) && s'.inFlight == s.inFlight - multiset{launch}
  {
  }

  lemma PastWindowStarts(g: Gate, s: System, plan: ExecutionPlan)
    requires g.decide(plan) == Delegable && plan.taskId in s.tasks
    requires Elapsed(s.clock, s.tasks[plan.taskId].createdAt) >= g.timeout
    ensures Starts(Apply(g, s, Submission(plan, true)).log) == Starts(s.log) + 1
  {
    StartsPush(s.log, Submitted(plan, s.clock));
    StartsPush(s.log + [Submitted(plan, s.clock)], Launched(Launch(plan.taskId, plan, BySubmission), s.clock));
  }

  /** One delegable plan, submitted again after its timeout, is launched a second time. */
  lemma LaunchedTwice(g: Gate, plan: ExecutionPlan)
    requires g.decide(plan) == Delegable && g.timeout > 0
    ensures var events := UntilTimer(g, plan) + [Submission(plan, true)];
            Legal(g, events) && Starts(Run(g, events).log) == 2
  {
    var once := UntilTimer(g, plan);
    TimerLaunches(g, plan);
    RunPush(g, once, Submission(plan, true));
    PastWindowStarts(g, Run(g, once), plan);
  }

  // ---- Exactly when a task is launched again ----

  function LaunchesOf(g: Gate, s: System, id: string): nat {
    BooksOf(g, OfId(s.log, id)).launches
  }

  /** The entry of the plan's id, or the one about to be created for it, is at least one timeout old. */
  predicate WindowOver(g: Gate, s: System, id: string) {
    if id in s.tasks then Elapsed(s.clock, s.tasks[id].createdAt) >= g.timeout else g.timeout == 0
  }

  /** What makes an event launch the task, read off the state before it. */
  predicate Launches(g: Gate, s: System, e: Event, id: string) {
    match e
    case Tick(_) => id in s.tasks && Overdue(g, s.tasks[id], s.clock)
    case Submission(plan, acked) => acked && SubmitsDelegable(g, e, id) && WindowOver(g, s, id)
    case Decision(i, approved, acked) => i == id && approved && acked && HeldIn(s.tasks, id)
    case _ => false
  }

  function LaunchesIn(g: Gate, l: Local): nat {
    BooksOf(g, l.log).launches
  }

  lemma SoloStartLaunches(g: Gate, l: Local, launch: Launch)
    ensures LaunchesIn(g, SoloStart(l, launch)) == LaunchesIn(g, l) + 1
  {
    BooksPush(g, l.log, Launched(launch, l.clock));
  }

  lemma PostsNoLaunch(g: Gate, b: Books, r: Record)
    requires !r.Launched?
    ensures Post(g, b, r).launches == b.launches
  {
  }

  lemma RecordedQuietly(g: Gate, l: Local, entry: Option<TaskState>, r: Record)
    requires !r.Launched?
    ensures LaunchesIn(g, l.(entry := entry, log := l.log + [r])) == LaunchesIn(g, l)
  {
    BooksPush(g, l.log, r);
    PostsNoLaunch(g, BooksOf(g, l.log), r);
  }

  lemma SubmissionLaunches(g: Gate, s: System, l: Local, plan: ExecutionPlan, acked: bool)
    requires Matches(s, plan.taskId, l)
    ensures LaunchesIn(g, SoloSubmission(g, l, plan, acked)) ==
            LaunchesIn(g, l) + One(Launches(g, s, Submission(plan, acked), plan.taskId))
  {
    var (task, verdict) := SubmitEntry(g, l.entry, plan, l.clock);
    var l1 := l.(entry := Some(task), log := l.log + [Submitted(plan, l.clock)]);
    RecordedQuietly(g, l, Some(task), Submitted(plan, l.clock));
    assert verdict == AutoApproved <==> g.decide(plan) == Delegable && WindowOver(g, s, plan.taskId);
    if verdict == AutoApproved && acked {
      SoloStartLaunches(g, l1, Launch(plan.taskId, plan, BySubmission));
    }
  }

  lemma HeldDecisionLaunches(g: Gate, l: Local, id: string, approved: bool, acked: bool)
    requires SoloHeld(l)
    ensures LaunchesIn(g, SoloDecision(l, id, approved, acked)) == LaunchesIn(g, l) + One(approved && acked)
  {
    var r := if approved then Approved(id, l.clock) else Rejected(id, l.clock);
    var entry := Some(DecideEntry(l.entry.value, approved));
    RecordedQuietly(g, l, entry, r);
    if approved && acked {
      SoloStartLaunches(g, l.(entry := entry, log := l.log + [r]), Launch(id, l.entry.value.plan, ByOwner));
    }
  }

  lemma DecisionLaunches(g: Gate, s: System, l: Local, id: string, approved: bool, acked: bool)
    requires Matches(s, id, l)
    ensures LaunchesIn(g, SoloDecision(l, id, approved, acked)) ==
            LaunchesIn(g, l) + One(Launches(g, s, Decision(id, approved, acked), id))
  {
    assert HeldIn(s.tasks, id) <==> SoloHeld(l);
    if SoloHeld(l) {
      HeldDecisionLaunches(g, l, id, approved, acked);
    }
  }

  lemma TickLaunches(g: Gate, s: System, l: Local, fired: seq<(string, ExecutionPlan)>, id: string)
    requires Matches(s, id, l)
    ensures LaunchesIn(g, SoloTick(g, l, id)) == LaunchesIn(g, l) + One(Launches(g, s, Tick(fired), id))
  {
    if SoloOverdue(g, l) {
      var l1 := l.(entry := Some(ExpireEntry(g, l.entry.value, l.clock)));
      SoloStartLaunches(g, l1, Launch(id, l.entry.value.plan, ByTimer));
    }
  }

  lemma CompletionLaunches(g: Gate, l: Local, launch: Launch, outcome: ExecutionOutcome)
    ensures LaunchesIn(g, SoloCompletion(l, launch, outcome)) == LaunchesIn(g, l)
  {
    BooksPush(g, l.log, Completed(launch, outcome, l.clock));
  }

  lemma SoloLaunches(g: Gate, s: System, l: Local, e: Event, id: string)
    requires Matches(s, id, l)
    ensures LaunchesIn(g, SoloApply(g, id, l, e)) == LaunchesIn(g, l) + One(Launches(g, s, e, id))
  {
    if Concerns(e, id) {
      match e {
        case Advance(_) =>
        case Submission(plan, acked) => SubmissionLaunches(g, s, l, plan, acked);
        case Tick(fired) => TickLaunches(g, s, l, fired, id);
        case Decision(_, approved, acked) => DecisionLaunches(g, s, l, id, approved, acked);
        case Completion(launch, outcome) => CompletionLaunches(g, l, launch, outcome);
      }
    }
  }

  /** An event launches a task once or not at all, and exactly when the state before it says so. */
  lemma LaunchesExactlyWhen(g: Gate, events: seq<Event>, e: Event, id: string)
    requires Legal(g, events + [e])
    ensures LaunchesOf(g, Run(g, events + [e]), id) ==
            LaunchesOf(g, Run(g, events), id) + One(Launches(g, Run(g, events), e, id))
  {
    RunPush(g, events, e);
    DaemonIsProduct(g, events, id);
    DaemonIsProduct(g, events + [e], id);
    assert (events + [e])[..|events|] == events;
    SoloLaunches(g, Run(g, events), SoloRun(g, id, events), e, id);
  }
}
