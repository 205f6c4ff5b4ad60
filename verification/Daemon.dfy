/**
 The daemon around the table of plans, as a labelled transition system: the table, the
 executions in flight, the clock, and a history of everything that happened. An event is one
 critical section of the daemon. `acked` says whether the acknowledgement could be written
 back to the peer: when it could not, the daemon has already changed its table but returns
 the error instead of the plan to run.
 */
module Daemon {
  import opened Protocol
  import opened EventLoop

  datatype Cause = ByTimer | BySubmission | ByOwner

  datatype Launch = Launch(id: string, plan: ExecutionPlan, cause: Cause)

  datatype Record =
    | Submitted(plan: ExecutionPlan, at: nat)
    | Approved(id: string, at: nat)
    | Rejected(id: string, at: nat)
    | Launched(launch: Launch, at: nat)
    | Completed(launch: Launch, outcome: ExecutionOutcome, at: nat)
  {
    function Subject(): string {
      match this
      case Submitted(plan, _) => plan.taskId
      case Approved(id, _) => id
      case Rejected(id, _) => id
      case Launched(launch, _) => launch.id
      case Completed(launch, _, _) => launch.id
    }
  }

  datatype System = System(tasks: Tasks, inFlight: multiset<Launch>, clock: nat, log: seq<Record>)

  datatype Event =
    | Advance(d: nat)
    | Submission(plan: ExecutionPlan, acked: bool)
    | Tick(fired: seq<(string, ExecutionPlan)>)
    | Decision(id: string, approved: bool, acked: bool)
    | Completion(launch: Launch, outcome: ExecutionOutcome)

  function Init(): System {
    System(map[], multiset{}, 0, [])
  }

  /** A timer pass returns some enumeration of the overdue tasks; only a running execution can end. */
  ghost predicate Enabled(g: Gate, s: System, e: Event) {
    match e
    case Tick(fired) => Enumerates(fired, g, s.tasks, s.clock)
    case Completion(launch, _) => launch in s.inFlight
    case _ => true
  }

  /** Records a launch and puts it in flight. */
  function Start(s: System, launch: Launch): System {
    s.(inFlight := s.inFlight + multiset{launch}, log := s.log + [Launched(launch, s.clock)])
  }

  function StartAll(s: System, fired: seq<(string, ExecutionPlan)>): System {
    if fired == [] then s
    else Start(StartAll(s, fired[..|fired| - 1]), Launch(fired[|fired| - 1].0, fired[|fired| - 1].1, ByTimer))
  }

  predicate HeldIn(tasks: Tasks, id: string) {
    id in tasks && tasks[id].status == TaskStatus.HeldForManualApproval
  }

  function AfterSubmission(g: Gate, s: System, plan: ExecutionPlan, acked: bool): System {
    var verdict := SubmitEntry(g, Lookup(s.tasks, plan.taskId), plan, s.clock).1;
    var s1 := s.(tasks := Submit(g, s.tasks, plan, s.clock), log := s.log + [Submitted(plan, s.clock)]);
    if verdict == AutoApproved && acked then Start(s1, Launch(plan.taskId, plan, BySubmission)) else s1
  }

  function AfterDecision(s: System, id: string, approved: bool, acked: bool): System {
    if !HeldIn(s.tasks, id) then s
    else if approved then
      var s1 := s.(tasks := Decide(s.tasks, id, true), log := s.log + [Approved(id, s.clock)]);
      if acked then Start(s1, Launch(id, s.tasks[id].plan, ByOwner)) else s1
    else
      s.(tasks := Decide(s.tasks, id, false), log := s.log + [Rejected(id, s.clock)])
  }

  function AfterCompletion(s: System, launch: Launch, outcome: ExecutionOutcome): System {
    s.(tasks := Settle(s.tasks, launch.id, outcome),
       inFlight := s.inFlight - multiset{launch},
       log := s.log + [Completed(launch, outcome, s.clock)])
  }

  function Apply(g: Gate, s: System, e: Event): System {
    match e
    case Advance(d) => s.(clock := s.clock + d)
    case Submission(plan, acked) => AfterSubmission(g, s, plan, acked)
    case Tick(fired) => StartAll(s.(tasks := Expire(g, s.tasks, s.clock)), fired)
    case Decision(id, approved, acked) => AfterDecision(s, id, approved, acked)
    case Completion(launch, outcome) => AfterCompletion(s, launch, outcome)
  }

  function Run(g: Gate, events: seq<Event>): System {
    if events == [] then Init() else Apply(g, Run(g, events[..|events| - 1]), events[|events| - 1])
  }

  /** Every event was enabled when it happened. */
  ghost predicate Legal(g: Gate, events: seq<Event>) {
    events != [] ==>
      && Legal(g, events[..|events| - 1])
      && Enabled(g, Run(g, events[..|events| - 1]), events[|events| - 1])
  }

  lemma RunPush(g: Gate, events: seq<Event>, e: Event)
    ensures Run(g, events + [e]) == Apply(g, Run(g, events), e)
    ensures Legal(g, events + [e]) <==> Legal(g, events) && Enabled(g, Run(g, events), e)
  {
    assert (events + [e])[..|events|] == events;
  }

  /** The part of a history that concerns one task id. */
  function OfId(log: seq<Record>, id: string): seq<Record> {
    if log == [] then []
    else
      var rest := OfId(log[..|log| - 1], id);
      if log[|log| - 1].Subject() == id then rest + [log[|log| - 1]] else rest
  }

  lemma OfIdPush(log: seq<Record>, r: Record, id: string)
    ensures OfId(log + [r], id) == if r.Subject() == id then OfId(log, id) + [r] else OfId(log, id)
  {
    assert (log + [r])[..|log|] == log;
  }

  /**
   The daemon's event handlers over the real table of plans. The ghost `events` is the run so
   far, so that whatever holds of every legal run holds of this object.
   */
  class Loop {
    const gate: Gate
    const pending: PendingPlans
    var inFlight: multiset<Launch>
    var clock: nat
    ghost var log: seq<Record>
    ghost var events: seq<Event>

    ghost function Model(): System
      reads this, pending
    {
      System(pending.tasks, inFlight, clock, log)
    }

    ghost predicate Valid()
      reads this, pending
    {
      pending.gate == gate && Legal(gate, events) && Model() == Run(gate, events)
    }

    constructor (gate: Gate)
      ensures Valid() && fresh(pending) && this.gate == gate && Model() == Init() && events == []
    {
      this.gate := gate;
      pending := new PendingPlans(gate);
      inFlight, clock, log, events := multiset{}, 0, [], [];
    }

    /** Time passes. */
    method Wait(d: nat)
      requires Valid()
      modifies this`clock, this`events
      ensures Valid() && events == old(events) + [Advance(d)]
      ensures Model() == Apply(gate, old(Model()), Advance(d))
    {
      RunPush(gate, events, Advance(d));
      clock := clock + d;
      events := events + [Advance(d)];
    }

    method Spawn(launch: Launch)
      modifies this`inFlight, this`log
      ensures Model() == Start(old(Model()), launch)
    {
      inFlight := inFlight + multiset{launch};
      log := log + [Launched(launch, clock)];
    }

    method OnPlan(plan: ExecutionPlan, acked: bool)
      requires Valid()
      modifies this`inFlight, this`log, this`events, pending`tasks
      ensures Valid() && events == old(events) + [Submission(plan, acked)]
      ensures Model() == Apply(gate, old(Model()), Submission(plan, acked))
    {
      RunPush(gate, events, Submission(plan, acked));
      var verdict, _ := pending.Ingest(plan, clock);
      log := log + [Submitted(plan, clock)];
      if acked {
        match verdict {
          case PendingTimeout =>
          case AutoApproved => Spawn(Launch(plan.taskId, plan, BySubmission));
          case Held =>
        }
      }
      events := events + [Submission(plan, acked)];
    }

    /** Launches, one by one, what a timer pass returned. */
    method SpawnAll(toExec: seq<(string, ExecutionPlan)>)
      modifies this`inFlight, this`log
      ensures Model() == StartAll(old(Model()), toExec)
    {
      for i := 0 to |toExec|
        invariant Model() == StartAll(old(Model()), toExec[..i])
      {
        Spawn(Launch(toExec[i].0, toExec[i].1, ByTimer));
        assert toExec[..i + 1][..i] == toExec[..i];
      }
      assert toExec[..|toExec|] == toExec;
    }

    method OnTick() returns (ghost fired: seq<(string, ExecutionPlan)>)
      requires Valid()
      modifies this`inFlight, this`log, this`events, pending`tasks
      ensures Valid() && events == old(events) + [Tick(fired)]
      ensures Model() == Apply(gate, old(Model()), Tick(fired))
    {
      var toExec := pending.CheckTimeouts(clock);
      fired := toExec;
      RunPush(gate, events, Tick(fired));
      SpawnAll(toExec);
      events := events + [Tick(fired)];
    }

    method Resolve(id: string, approved: bool, acked: bool)
      modifies this`inFlight, this`log, pending`tasks
      ensures Model() == AfterDecision(old(Model()), id, approved, acked)
    {
      ghost var held := HeldIn(pending.tasks, id);
      var planOpt := pending.HandleOwnerDecision(id, approved);
      if planOpt.Ok? && planOpt.value.Some? {
        log := log + [Approved(id, clock)];
        if acked {
          Spawn(Launch(id, planOpt.value.value, ByOwner));
        }
      } else if !approved {
        log := if held then log + [Rejected(id, clock)] else log;
      }
    }

    method OnResolved(id: string, approved: bool, acked: bool)
      requires Valid()
      modifies this`inFlight, this`log, this`events, pending`tasks
      ensures Valid() && events == old(events) + [Decision(id, approved, acked)]
      ensures Model() == Apply(gate, old(Model()), Decision(id, approved, acked))
    {
      RunPush(gate, events, Decision(id, approved, acked));
      Resolve(id, approved, acked);
      events := events + [Decision(id, approved, acked)];
    }

    method OnFinished(launch: Launch, outcome: ExecutionOutcome)
      requires Valid() && launch in inFlight
      modifies this`inFlight, this`log, this`events, pending`tasks
      ensures Valid() && events == old(events) + [Completion(launch, outcome)]
      ensures Model() == Apply(gate, old(Model()), Completion(launch, outcome))
    {
      RunPush(gate, events, Completion(launch, outcome));
      var _ := pending.RecordExecution(launch.id, outcome);
      inFlight := inFlight - multiset{launch};
      log := log + [Completed(launch, outcome, clock)];
      events := events + [Completion(launch, outcome)];
    }
  }
}
