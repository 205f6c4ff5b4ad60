/** With no further submissions the daemon runs dry, and until then it can always move. */
module Quiescence {
  import opened Wrappers
  import opened Protocol
  import opened EventLoop
  import opened Daemon
  import opened Solo
  import opened Authority
  import opened Ledger

  function ArmedIds(tasks: Tasks): set<string> {
    set id | id in tasks && Armed(tasks[id])
  }

  function Measure(s: System): nat {
    2 * |ArmedIds(s.tasks)| + |s.inFlight|
  }

  predicate Effective(s: System, e: Event) {
    match e
    case Tick(fired) => fired != []
    case Decision(id, _, _) => HeldIn(s.tasks, id)
    case Completion(_, _) => true
    case _ => false
  }

  function Starts(log: seq<Record>): nat {
    if log == [] then 0 else Starts(log[..|log| - 1]) + One(log[|log| - 1].Launched?)
  }

  lemma StartsPush(log: seq<Record>, r: Record)
    ensures Starts(log + [r]) == Starts(log) + One(r.Launched?)
  {
    assert (log + [r])[..|log|] == log;
  }

  predicate HeldAreCritical(tasks: Tasks) {
    forall id | id in tasks && tasks[id].status == TaskStatus.HeldForManualApproval ::
            tasks[id].decision == NonDelegable
  }

  lemma RunsHoldOnlyCritical(g: Gate, events: seq<Event>)
    requires Legal(g, events)
    ensures HeldAreCritical(Run(g, events).tasks)
  {
    var s := Run(g, events);
    forall id | HeldIn(s.tasks, id)
      ensures s.tasks[id].decision == NonDelegable
    {
      DaemonIsProduct(g, events, id);
      EveryRunIsFaithful(g, events, id);
      assert SoloRun(g, id, events).entry == Some(s.tasks[id]);
    }
  }

  lemma {:induction false} StartAllCounts(s: System, fired: seq<(string, ExecutionPlan)>)
    ensures |StartAll(s, fired).inFlight| == |s.inFlight| + |fired|
    ensures Starts(StartAll(s, fired).log) == Starts(s.log) + |fired|
  {
    if fired != [] {
      var n := |fired| - 1;
      StartAllCounts(s, fired[..n]);
      var before := StartAll(s, fired[..n]);
      StartsPush(before.log, Launched(Launch(fired[n].0, fired[n].1, ByTimer), before.clock));
    }
  }

  function IdsOf(fired: seq<(string, ExecutionPlan)>): set<string> {
    set i | 0 <= i < |fired| :: fired[i].0
  }

  lemma {:induction false} DistinctIds(fired: seq<(string, ExecutionPlan)>)
    requires forall i, j | 0 <= i < j < |fired| :: fired[i].0 != fired[j].0
    ensures |IdsOf(fired)| == |fired|
  {
    if fired != [] {
      var n := |fired| - 1;
      DistinctIds(fired[..n]);
      assert IdsOf(fired) == IdsOf(fired[..n]) + {fired[n].0};
    }
  }

  lemma FiredIdsAreOverdue(g: Gate, tasks: Tasks, now: nat, fired: seq<(string, ExecutionPlan)>)
    requires Enumerates(fired, g, tasks, now)
    ensures IdsOf(fired) == OverdueIds(g, tasks, now)
  {
    forall id | id in OverdueIds(g, tasks, now)
      ensures id in IdsOf(fired)
    {
      assert (id, tasks[id].plan) in fired;
    }
  }

  lemma ArmedSplits(g: Gate, tasks: Tasks, now: nat)
    ensures ArmedIds(tasks) == ArmedIds(Expire(g, tasks, now)) + OverdueIds(g, tasks, now)
    ensures ArmedIds(Expire(g, tasks, now)) !! OverdueIds(g, tasks, now)
  {
  }

  lemma TickDisarms(g: Gate, tasks: Tasks, now: nat, fired: seq<(string, ExecutionPlan)>)
    requires Enumerates(fired, g, tasks, now)
    ensures |ArmedIds(Expire(g, tasks, now))| + |fired| == |ArmedIds(tasks)|
  {
    DistinctIds(fired);
    FiredIdsAreOverdue(g, tasks, now, fired);
    ArmedSplits(g, tasks, now);
  }

  /** An effective step lowers the measure, and every launch is paid for by an entry that was armed. */
  ghost predicate Shrinks(g: Gate, s: System, e: Event) {
    var s' := Apply(g, s, e);
    && Measure(s') + One(Effective(s, e)) <= Measure(s)
    && Starts(s'.log) + |ArmedIds(s'.tasks)| <= Starts(s.log) + |ArmedIds(s.tasks)|
  }

  lemma TickShrinks(g: Gate, s: System, fired: seq<(string, ExecutionPlan)>)
    requires Enabled(g, s, Tick(fired))
    ensures Shrinks(g, s, Tick(fired))
  {
    var s1 := s.(tasks := Expire(g, s.tasks, s.clock));
    TickDisarms(g, s.tasks, s.clock, fired);
    StartAllFrame(s1, fired);
    StartAllCounts(s1, fired);
  }

  lemma StartCounts(s: System, launch: Launch)
    ensures |Start(s, launch).inFlight| == |s.inFlight| + 1
    ensures Starts(Start(s, launch).log) == Starts(s.log) + 1
  {
    StartsPush(s.log, Launched(launch, s.clock));
  }

  lemma DecidedDisarms(tasks: Tasks, id: string, approved: bool)
    requires HeldAreCritical(tasks) && HeldIn(tasks, id)
    ensures |ArmedIds(Decide(tasks, id, approved))| + 1 == |ArmedIds(tasks)|
  {
    assert ArmedIds(Decide(tasks, id, approved)) == ArmedIds(tasks) - {id};
  }

  lemma DecisionShrinks(g: Gate, s: System, id: string, approved: bool, acked: bool)
    requires HeldAreCritical(s.tasks)
    ensures Shrinks(g, s, Decision(id, approved, acked))
  {
    if HeldIn(s.tasks, id) {
      DecidedDisarms(s.tasks, id, approved);
      var r := if approved then Approved(id, s.clock) else Rejected(id, s.clock);
      StartsPush(s.log, r);
      var s1 := s.(tasks := Decide(s.tasks, id, approved), log := s.log + [r]);
      StartCounts(s1, Launch(id, s.tasks[id].plan, ByOwner));
    }
  }

  lemma CompletionShrinks(g: Gate, s: System, launch: Launch, outcome: ExecutionOutcome)
    requires launch in s.inFlight
    ensures Shrinks(g, s, Completion(launch, outcome))
  {
    var after := Settle(s.tasks, launch.id, outcome);
    assert ArmedIds(after) <= ArmedIds(s.tasks);
    CardinalityMonotone(ArmedIds(after), ArmedIds(s.tasks));
    StartsPush(s.log, Completed(launch, outcome, s.clock));
  }

  lemma StepShrinks(g: Gate, s: System, e: Event)
    requires HeldAreCritical(s.tasks) && Enabled(g, s, e) && !e.Submission?
    ensures Shrinks(g, s, e)
  {
    match e {
      case Advance(_) =>
      case Tick(fired) => TickShrinks(g, s, fired);
      case Decision(id, approved, acked) => DecisionShrinks(g, s, id, approved, acked);
      case Completion(launch, outcome) => CompletionShrinks(g, s, launch, outcome);
    }
  }

  lemma CardinalityMonotone<T>(a: set<T>, b: set<T>)
    requires a <= b
    ensures |a| <= |b|
  {
    assert b == a + (b - a);
  }

  /** How many of the events after the first `n` had an effect. */
  ghost function EffectiveAfter(g: Gate, events: seq<Event>, n: nat): nat
    requires n <= |events|
  {
    if |events| == n then 0
    else
      var front := events[..|events| - 1];
      EffectiveAfter(g, front, n) + One(Effective(Run(g, front), events[|events| - 1]))
  }

  lemma LastEventShrinks(g: Gate, events: seq<Event>)
    requires Legal(g, events) && events != [] && !events[|events| - 1].Submission?
    ensures var s, s' := Run(g, events[..|events| - 1]), Run(g, events);
            && Measure(s') + One(Effective(s, events[|events| - 1])) <= Measure(s)
            && Starts(s'.log) + |ArmedIds(s'.tasks)| <= Starts(s.log) + |ArmedIds(s.tasks)|
  {
    var m := |events| - 1;
    RunsHoldOnlyCritical(g, events[..m]);
    StepShrinks(g, Run(g, events[..m]), events[m]);
  }

  /**
   If nothing is submitted after the first `n` events, the events with an effect that follow are
   at most the measure reached then, and the launches that follow are at most the entries armed then.
   */
  lemma {:induction false} RunsDry(g: Gate, events: seq<Event>, n: nat)
    requires Legal(g, events) && n <= |events|
    requires forall i | n <= i < |events| :: !events[i].Submission?
    ensures EffectiveAfter(g, events, n) + Measure(Run(g, events)) <= Measure(Run(g, events[..n]))
    ensures Starts(Run(g, events).log) + |ArmedIds(Run(g, events).tasks)|
            <= Starts(Run(g, events[..n]).log) + |ArmedIds(Run(g, events[..n]).tasks)|
  {
    if |events| == n {
      assert events[..n] == events;
    } else {
      var front := events[..|events| - 1];
      assert front[..n] == events[..n];
      RunsDry(g, front, n);
      LastEventShrinks(g, events);
    }
  }

  lemma {:induction false} SomeEnumeration(g: Gate, tasks: Tasks, now: nat, ids: set<string>)
    returns (fired: seq<(string, ExecutionPlan)>)
    requires ids <= OverdueIds(g, tasks, now)
    ensures forall i | 0 <= i < |fired| ::
            fired[i].0 in ids && fired[i].0 in tasks && fired[i].1 == tasks[fired[i].0].plan
    ensures forall i, j | 0 <= i < j < |fired| :: fired[i].0 != fired[j].0
    ensures forall id | id in ids :: (id, tasks[id].plan) in fired
    decreases |ids|
  {
    if ids == {} {
      fired := [];
    } else {
      var id :| id in ids;
      var rest := SomeEnumeration(g, tasks, now, ids - {id});
      fired := rest + [(id, tasks[id].plan)];
      forall x | x in ids
        ensures (x, tasks[x].plan) in fired
      {
        if x != id {
          assert (x, tasks[x].plan) in rest;
        } else {
          assert fired[|rest|] == (id, tasks[id].plan);
        }
      }
    }
  }

  lemma CanMove(g: Gate, s: System) returns (d: nat, e: Event)
    requires Measure(s) > 0 && forall id | id in s.tasks :: s.tasks[id].createdAt <= s.clock
    ensures Enabled(g, Apply(g, s, Advance(d)), e) && Effective(Apply(g, s, Advance(d)), e)
    ensures e.Tick? || d == 0
  {
    if |s.inFlight| > 0 {
      var launch :| launch in s.inFlight;
      d, e := 0, Completion(launch, ExecutionOutcome("", "", 0, true));
    } else {
      var id :| id in ArmedIds(s.tasks);
      if Waiting(s.tasks[id]) {
        d := g.timeout;
        var now := s.clock + d;
        assert Overdue(g, s.tasks[id], now);
        var fired := SomeEnumeration(g, s.tasks, now, OverdueIds(g, s.tasks, now));
        assert (id, s.tasks[id].plan) in fired;
        assert Enumerates(fired, g, s.tasks, now) by {
          forall x | x in s.tasks && Overdue(g, s.tasks[x], now)
            ensures (x, s.tasks[x].plan) in fired
          {
            assert x in OverdueIds(g, s.tasks, now);
          }
        }
        e := Tick(fired);
      } else {
        d, e := 0, Decision(id, false, true);
      }
    }
  }

  lemma RunsStampThePast(g: Gate, events: seq<Event>)
    requires Legal(g, events)
    ensures forall id | id in Run(g, events).tasks :: Run(g, events).tasks[id].createdAt <= Run(g, events).clock
  {
    forall id | id in Run(g, events).tasks
      ensures Run(g, events).tasks[id].createdAt <= Run(g, events).clock
    {
      DaemonIsProduct(g, events, id);
      EveryRunIsFaithful(g, events, id);
      assert SoloRun(g, id, events).entry == Some(Run(g, events).tasks[id]);
    }
  }

  /**
   Until the measure is zero no run is stuck: an execution can end, the owner can decide, or
   the clock can reach the instant at which the timer has something to launch.
   */
  lemma NothingIsStuck(g: Gate, events: seq<Event>) returns (d: nat, e: Event)
    requires Legal(g, events) && Measure(Run(g, events)) > 0
    ensures Legal(g, events + [Advance(d)] + [e]) && !e.Submission?
    ensures Effective(Run(g, events + [Advance(d)]), e)
    ensures e.Tick? || d == 0
  {
    RunsStampThePast(g, events);
    d, e := CanMove(g, Run(g, events));
    RunPush(g, events, Advance(d));
    RunPush(g, events + [Advance(d)], e);
  }

  lemma WaitingKeepsMeasure(g: Gate, events: seq<Event>, d: nat)
    ensures Measure(Run(g, events + [Advance(d)])) == Measure(Run(g, events))
  {
    RunPush(g, events, Advance(d));
  }

  lemma EffectShrinks(g: Gate, events: seq<Event>, e: Event)
    requires Legal(g, events + [e]) && Effective(Run(g, events), e) && !e.Submission?
    ensures Measure(Run(g, events + [e])) < Measure(Run(g, events))
  {
    assert (events + [e])[..|events|] == events;
    LastEventShrinks(g, events + [e]);
  }

  lemma StepTowardsRest(g: Gate, events: seq<Event>) returns (next: seq<Event>)
    requires Legal(g, events) && Measure(Run(g, events)) > 0
    ensures Legal(g, next) && Measure(Run(g, next)) < Measure(Run(g, events))
    ensures events <= next && forall i | |events| <= i < |next| :: !next[i].Submission?
  {
    var d, e := NothingIsStuck(g, events);
    var advanced := events + [Advance(d)];
    next := advanced + [e];
    WaitingKeepsMeasure(g, events, d);
    EffectShrinks(g, advanced, e);
  }

  /** Every run can be continued without a further submission until the daemon is at rest. */
  lemma {:induction false} CanComeToRest(g: Gate, events: seq<Event>) returns (rested: seq<Event>)
    requires Legal(g, events)
    ensures Legal(g, rested) && Measure(Run(g, rested)) == 0
    ensures events <= rested && forall i | |events| <= i < |rested| :: !rested[i].Submission?
    decreases Measure(Run(g, events))
  {
    rested := events;
    if Measure(Run(g, events)) > 0 {
      var next := StepTowardsRest(g, events);
      rested := CanComeToRest(g, next);
    }
  }
}
