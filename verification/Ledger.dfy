/** Counting: how often each kind of thing can have happened to a task id, on any run. */
module Ledger {
  import opened Wrappers
  import opened Protocol
  import opened EventLoop
  import opened Daemon
  import opened Solo
  import opened Authority

  datatype Books = Books(
    submissions: nat,
    criticalSubmissions: nat,
    approvals: nat,
    rejections: nat,
    launches: nat,
    timerLaunches: nat,
    ownerLaunches: nat,
    started: multiset<Launch>,
    finished: multiset<Launch>)

  function Post(g: Gate, b: Books, r: Record): Books {
    match r
    case Submitted(plan, _) =>
      b.(submissions := b.submissions + 1,
         criticalSubmissions := b.criticalSubmissions + One(g.decide(plan) == NonDelegable))
    case Approved(_, _) => b.(approvals := b.approvals + 1)
    case Rejected(_, _) => b.(rejections := b.rejections + 1)
    case Launched(launch, _) =>
      b.(launches := b.launches + 1,
         timerLaunches := b.timerLaunches + One(launch.cause == ByTimer),
         ownerLaunches := b.ownerLaunches + One(launch.cause == ByOwner),
         started := b.started + multiset{launch})
    case Completed(launch, _, _) => b.(finished := b.finished + multiset{launch})
  }

  function BooksOf(g: Gate, log: seq<Record>): Books {
    if log == [] then Books(0, 0, 0, 0, 0, 0, 0, multiset{}, multiset{})
    else Post(g, BooksOf(g, log[..|log| - 1]), log[|log| - 1])
  }

  lemma BooksPush(g: Gate, log: seq<Record>, r: Record)
    ensures BooksOf(g, log + [r]) == Post(g, BooksOf(g, log), r)
  {
    assert (log + [r])[..|log|] == log;
  }

  predicate Waiting(task: TaskState) {
    task.status == TaskStatus.Pending && task.decision == Delegable
  }

  /** The entry can still lead to a launch without a further submission. */
  predicate Armed(task: TaskState) {
    Waiting(task) || task.status == TaskStatus.HeldForManualApproval
  }

  /** The books of one id agree with its entry and its executions in flight. */
  predicate Balanced(g: Gate, b: Books, l: Local) {
    && b.started == b.finished + l.inFlight
    && b.approvals + b.rejections + One(SoloHeld(l)) <= b.criticalSubmissions
    && b.ownerLaunches <= b.approvals
    && b.launches + One(l.entry.Some? && Armed(l.entry.value)) <= b.submissions
    && b.timerLaunches <= 1
    && (b.timerLaunches == 1 ==>
          && l.entry.Some?
          && !Waiting(l.entry.value)
          && (l.entry.value.decision == Delegable ==> l.entry.value.createdAt + g.timeout <= l.clock))
  }

  /** What the books need to know about an entry. */
  predicate Settled(l: Local) {
    && (l.entry.Some? ==> l.entry.value.createdAt <= l.clock)
    && (SoloHeld(l) ==> l.entry.value.decision == NonDelegable)
    && (l.entry.None? ==> l.inFlight == multiset{})
  }

  /** A launch is paid for by a submission not yet used up and, if the owner's, by an approval. */
  lemma StartBalanced(g: Gate, l: Local, launch: Launch)
    requires var b := BooksOf(g, l.log);
             && Balanced(g, b, l)
             && b.launches + One(l.entry.Some? && Armed(l.entry.value)) < b.submissions
             && (launch.cause == ByOwner ==> b.ownerLaunches < b.approvals)
             && launch.cause != ByTimer
    ensures var l' := SoloStart(l, launch); Balanced(g, BooksOf(g, l'.log), l')
  {
    BooksPush(g, l.log, Launched(launch, l.clock));
  }

  lemma SubmissionBalanced(g: Gate, id: string, l: Local, plan: ExecutionPlan, acked: bool)
    requires Settled(l) && Balanced(g, BooksOf(g, l.log), l) && plan.taskId == id
    ensures var l' := SoloSubmission(g, l, plan, acked); Balanced(g, BooksOf(g, l'.log), l')
  {
    var r := Submitted(plan, l.clock);
    BooksPush(g, l.log, r);
    var (task, verdict) := SubmitEntry(g, l.entry, plan, l.clock);
    var l1 := l.(entry := Some(task), log := l.log + [r]);
    assert Balanced(g, BooksOf(g, l1.log), l1);
    if verdict == AutoApproved && acked {
      StartBalanced(g, l1, Launch(id, plan, BySubmission));
    }
  }

  lemma DecisionBalanced(g: Gate, id: string, l: Local, approved: bool, acked: bool)
    requires Settled(l) && Balanced(g, BooksOf(g, l.log), l)
    ensures var l' := SoloDecision(l, id, approved, acked); Balanced(g, BooksOf(g, l'.log), l')
  {
    if SoloHeld(l) {
      var r := if approved then Approved(id, l.clock) else Rejected(id, l.clock);
      BooksPush(g, l.log, r);
      var l1 := l.(entry := Some(DecideEntry(l.entry.value, approved)), log := l.log + [r]);
      assert Balanced(g, BooksOf(g, l1.log), l1);
      if approved && acked {
        StartBalanced(g, l1, Launch(id, l.entry.value.plan, ByOwner));
      }
    }
  }

  lemma TickBalanced(g: Gate, id: string, l: Local)
    requires Settled(l) && Balanced(g, BooksOf(g, l.log), l)
    ensures var l' := SoloTick(g, l, id); Balanced(g, BooksOf(g, l'.log), l')
  {
    if SoloOverdue(g, l) {
      BooksPush(g, l.log, Launched(Launch(id, l.entry.value.plan, ByTimer), l.clock));
    }
  }

  lemma MovesOver(started: multiset<Launch>, finished: multiset<Launch>, inFlight: multiset<Launch>, launch: Launch)
    requires started == finished + inFlight && launch in inFlight
    ensures started == (finished + multiset{launch}) + (inFlight - multiset{launch})
  {
  }

  lemma CompletionBalanced(g: Gate, id: string, l: Local, launch: Launch, outcome: ExecutionOutcome)
    requires Settled(l) && Balanced(g, BooksOf(g, l.log), l) && launch in l.inFlight
    ensures var l' := SoloCompletion(l, launch, outcome); Balanced(g, BooksOf(g, l'.log), l')
  {
    var b, l' := BooksOf(g, l.log), SoloCompletion(l, launch, outcome);
    BooksPush(g, l.log, Completed(launch, outcome, l.clock));
    MovesOver(b.started, b.finished, l.inFlight, launch);
    assert !SoloHeld(l') && !Armed(l'.entry.value);
  }

  lemma StepBalanced(g: Gate, id: string, l: Local, e: Event)
    requires Settled(l) && Balanced(g, BooksOf(g, l.log), l)
    requires e.Completion? && e.launch.id == id ==> e.launch in l.inFlight
    ensures var l' := SoloApply(g, id, l, e); Balanced(g, BooksOf(g, l'.log), l')
  {
    match e {
      case Advance(_) =>
      case Submission(plan, acked) =>
        if plan.taskId == id { SubmissionBalanced(g, id, l, plan, acked); }
      case Tick(_) => TickBalanced(g, id, l);
      case Decision(i, approved, acked) =>
        if i == id { DecisionBalanced(g, id, l, approved, acked); }
      case Completion(launch, outcome) =>
        if launch.id == id { CompletionBalanced(g, id, l, launch, outcome); }
    }
  }

  lemma {:induction false} EveryRunBalances(g: Gate, events: seq<Event>, id: string)
    requires Legal(g, events)
    ensures Balanced(g, BooksOf(g, SoloRun(g, id, events).log), SoloRun(g, id, events))
  {
    if events != [] {
      var n := |events| - 1;
      var l := SoloRun(g, id, events[..n]);
      EveryRunBalances(g, events[..n], id);
      assert Settled(l) by { EveryRunIsFaithful(g, events[..n], id); }
      DaemonIsProduct(g, events[..n], id);
      StepBalanced(g, id, l, events[n]);
    }
  }

  /**
   For every id, on every run: the timer launches it at most once; it is launched at most as
   often as it is submitted; the owner's effective decisions, plus one if it is held now, are
   at most its critical submissions; and each launch is either finished or in flight.
   */
  lemma TheBooksBalance(g: Gate, events: seq<Event>, id: string)
    requires Legal(g, events)
    ensures var s := Run(g, events);
            var b := BooksOf(g, OfId(s.log, id));
            && b.timerLaunches <= 1
            && b.launches + One(id in s.tasks && Armed(s.tasks[id])) <= b.submissions
            && b.approvals + b.rejections + One(HeldIn(s.tasks, id)) <= b.criticalSubmissions
            && b.ownerLaunches <= b.approvals
            && forall x: Launch | x.id == id :: b.started[x] == b.finished[x] + s.inFlight[x]
  {
    DaemonIsProduct(g, events, id);
    EveryRunBalances(g, events, id);
  }
}
