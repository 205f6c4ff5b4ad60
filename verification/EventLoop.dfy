/**
 The table of tracked plans. The policy and the delegation timeout are fixed for a
 run of the daemon; `Gate` carries both. Instants are natural numbers.
 */
module EventLoop {
  import opened Wrappers
  import opened Protocol

  datatype Gate = Gate(decide: ExecutionPlan -> PolicyDecision, timeout: nat)

  datatype TimerOutcome = AwaitingHuman | AutoApprove

  datatype GatekeeperVerdict = PendingTimeout | AutoApproved | Held

  datatype LoopError = TaskNotFound(taskId: string)

  datatype TaskState = TaskState(
    taskId: string,
    plan: ExecutionPlan,
    decision: PolicyDecision,
    status: TaskStatus,
    createdAt: nat,
    executionResult: Option<ExecutionOutcome>)

  type Tasks = map<string, TaskState>

  /** `saturating_duration_since`. */
  function Elapsed(now: nat, started: nat): nat {
    if now >= started then now - started else 0
  }

  function EvaluateTimeout(timeout: nat, isDelegable: bool, elapsed: nat): TimerOutcome {
    if elapsed >= timeout && isDelegable then AutoApprove else AwaitingHuman
  }

  function ApplyGatekeeperPolicy(g: Gate, decision: PolicyDecision, elapsed: nat): GatekeeperVerdict {
    match decision
    case Delegable =>
      (match EvaluateTimeout(g.timeout, true, elapsed)
       case AutoApprove => AutoApproved
       case AwaitingHuman => PendingTimeout)
    case NonDelegable => Held
  }

  function StatusOf(verdict: GatekeeperVerdict): TaskStatus {
    match verdict
    case AutoApproved => TaskStatus.DelegableAutoApproved
    case PendingTimeout => TaskStatus.Pending
    case Held => TaskStatus.HeldForManualApproval
  }

  // ---- What each operation does to the entry of one task id ----

  function Lookup(tasks: Tasks, id: string): Option<TaskState> {
    if id in tasks then Some(tasks[id]) else None
  }

  function FreshEntry(g: Gate, plan: ExecutionPlan, status: TaskStatus, now: nat): TaskState {
    TaskState(plan.taskId, plan, g.decide(plan), status, now, None)
  }

  /** A delegable submission keeps the entry it finds; a critical one replaces it. */
  function SubmitEntry(g: Gate, entry: Option<TaskState>, plan: ExecutionPlan, now: nat)
    : (TaskState, GatekeeperVerdict)
  {
    match g.decide(plan)
    case Delegable =>
      var task := if entry.Some? then entry.value else FreshEntry(g, plan, TaskStatus.Pending, now);
      var verdict := ApplyGatekeeperPolicy(g, Delegable, Elapsed(now, task.createdAt));
      (task.(status := StatusOf(verdict)), verdict)
    case NonDelegable =>
      (FreshEntry(g, plan, TaskStatus.HeldForManualApproval, now), Held)
  }

  predicate Overdue(g: Gate, task: TaskState, now: nat) {
    task.decision == Delegable && task.status == TaskStatus.Pending && Elapsed(now, task.createdAt) >= g.timeout
  }

  function ExpireEntry(g: Gate, task: TaskState, now: nat): TaskState {
    if Overdue(g, task, now) then task.(status := TaskStatus.DelegableAutoApproved) else task
  }

  function SettleEntry(task: TaskState, outcome: ExecutionOutcome): TaskState {
    task.(status := if outcome.success then TaskStatus.Executed else TaskStatus.ExecutionFailed,
          executionResult := Some(outcome))
  }

  function DecideEntry(task: TaskState, approved: bool): TaskState {
    if task.status != TaskStatus.HeldForManualApproval then task
    else task.(status := if approved then TaskStatus.Pending else TaskStatus.RejectedByOwner)
  }

  // ---- The same operations on the whole table ----

  function Submit(g: Gate, tasks: Tasks, plan: ExecutionPlan, now: nat): Tasks {
    tasks[plan.taskId := SubmitEntry(g, Lookup(tasks, plan.taskId), plan, now).0]
  }

  function Expire(g: Gate, tasks: Tasks, now: nat): Tasks {
    map id | id in tasks :: ExpireEntry(g, tasks[id], now)
  }

  function Settle(tasks: Tasks, id: string, outcome: ExecutionOutcome): Tasks {
    if id in tasks then tasks[id := SettleEntry(tasks[id], outcome)] else tasks
  }

  function Decide(tasks: Tasks, id: string, approved: bool): Tasks {
    if id in tasks then tasks[id := DecideEntry(tasks[id], approved)] else tasks
  }

  function OverdueIds(g: Gate, tasks: Tasks, now: nat): set<string> {
    set id | id in tasks && Overdue(g, tasks[id], now)
  }

  /** `fired` lists every overdue task exactly once, with its stored plan, in some order. */
  ghost predicate Enumerates(fired: seq<(string, ExecutionPlan)>, g: Gate, tasks: Tasks, now: nat) {
    && (forall i | 0 <= i < |fired| ::
          && fired[i].0 in tasks
          && Overdue(g, tasks[fired[i].0], now)
          && fired[i].1 == tasks[fired[i].0].plan)
    && (forall i, j | 0 <= i < j < |fired| :: fired[i].0 != fired[j].0)
    && (forall id | id in tasks && Overdue(g, tasks[id], now) :: (id, tasks[id].plan) in fired)
  }

  /** `fired` lists every overdue task but those still to be visited. */
  ghost predicate EnumeratesBut(fired: seq<(string, ExecutionPlan)>, g: Gate, tasks: Tasks, now: nat,
                                rest: set<string>)
  {
    && (forall i | 0 <= i < |fired| ::
          && fired[i].0 in tasks
          && fired[i].0 !in rest
          && Overdue(g, tasks[fired[i].0], now)
          && fired[i].1 == tasks[fired[i].0].plan)
    && (forall i, j | 0 <= i < j < |fired| :: fired[i].0 != fired[j].0)
    && (forall id | id in tasks && id !in rest && Overdue(g, tasks[id], now) :: (id, tasks[id].plan) in fired)
  }

  lemma VisitOverdue(fired: seq<(string, ExecutionPlan)>, g: Gate, tasks: Tasks, now: nat, rest: set<string>,
                     id: string)
    requires EnumeratesBut(fired, g, tasks, now, rest)
    requires id in rest && id in tasks && Overdue(g, tasks[id], now)
    ensures EnumeratesBut(fired + [(id, tasks[id].plan)], g, tasks, now, rest - {id})
  {
    var more := fired + [(id, tasks[id].plan)];
    forall x | x in tasks && x !in rest - {id} && Overdue(g, tasks[x], now)
      ensures (x, tasks[x].plan) in more
    {
      if x == id {
        assert more[|fired|] == (id, tasks[id].plan);
      } else {
        assert (x, tasks[x].plan) in fired;
      }
    }
  }

  class PendingPlans {
    const gate: Gate
    var tasks: Tasks

    constructor (gate: Gate)
      ensures this.gate == gate && tasks == map[]
    {
      this.gate := gate;
      tasks := map[];
    }

    method Ingest(plan: ExecutionPlan, now: nat) returns (verdict: GatekeeperVerdict, ack: TaskSubmitAck)
      modifies this`tasks
      ensures tasks == Submit(gate, old(tasks), plan, now)
      ensures verdict == SubmitEntry(gate, Lookup(old(tasks), plan.taskId), plan, now).1
      ensures ack.taskId == plan.taskId
    {
      var decision := gate.decide(plan);
      var taskId := plan.taskId;
      match decision {
        case Delegable =>
          if taskId !in tasks {
            tasks := tasks[taskId := TaskState(taskId, plan, decision, TaskStatus.Pending, now, None)];
          }
          var started := tasks[taskId].createdAt;
          verdict := ApplyGatekeeperPolicy(gate, decision, Elapsed(now, started));
          tasks := tasks[taskId := tasks[taskId].(status := StatusOf(verdict))];
        case NonDelegable =>
          tasks := tasks[taskId := TaskState(taskId, plan, decision, TaskStatus.HeldForManualApproval, now, None)];
          verdict := Held;
      }
      ack := TaskSubmitAck(taskId);
    }

    /** The map is visited in an arbitrary order, as a hash map is. */
    method CheckTimeouts(now: nat) returns (toExecute: seq<(string, ExecutionPlan)>)
      modifies this`tasks
      ensures tasks == Expire(gate, old(tasks), now)
      ensures Enumerates(toExecute, gate, old(tasks), now)
    {
      toExecute := [];
      ghost var before := tasks;
      var rest := tasks.Keys;
      while rest != {}
        invariant rest <= tasks.Keys == before.Keys
        invariant forall id | id in before ::
                    tasks[id] == if id in rest then before[id] else ExpireEntry(gate, before[id], now)
        invariant EnumeratesBut(toExecute, gate, before, now, rest)
        decreases |rest|
      {
        var taskId :| taskId in rest;
        var task := tasks[taskId];
        if task.decision == Delegable && task.status == TaskStatus.Pending {
          var elapsed := Elapsed(now, task.createdAt);
          var verdict := ApplyGatekeeperPolicy(gate, task.decision, elapsed);
          if verdict == AutoApproved {
            VisitOverdue(toExecute, gate, before, now, rest, taskId);
            tasks := tasks[taskId := task.(status := TaskStatus.DelegableAutoApproved)];
            toExecute := toExecute + [(taskId, task.plan)];
          }
        }
        rest := rest - {taskId};
      }
    }

    method RecordExecution(taskId: string, outcome: ExecutionOutcome) returns (r: Result<(), LoopError>)
      modifies this`tasks
      ensures tasks == Settle(old(tasks), taskId, outcome)
      ensures r == if taskId in old(tasks) then Ok(()) else Err(TaskNotFound(taskId))
    {
      if taskId !in tasks {
        return Err(TaskNotFound(taskId));
      }
      var status := if outcome.success then TaskStatus.Executed else TaskStatus.ExecutionFailed;
      tasks := tasks[taskId := tasks[taskId].(status := status)];
      tasks := tasks[taskId := tasks[taskId].(executionResult := Some(outcome))];
      return Ok(());
    }

    method HandleOwnerDecision(taskId: string, approved: bool) returns (r: Result<Option<ExecutionPlan>, LoopError>)
      modifies this`tasks
      ensures tasks == Decide(old(tasks), taskId, approved)
      ensures r.Err? <==> taskId !in old(tasks)
      ensures r.Err? ==> r.error == TaskNotFound(taskId)
      ensures r.Ok? ==>
                r.value == if old(tasks)[taskId].status == TaskStatus.HeldForManualApproval && approved
                           then Some(old(tasks)[taskId].plan) else None
    {
      if taskId !in tasks {
        return Err(TaskNotFound(taskId));
      }
      var task := tasks[taskId];
      if task.status != TaskStatus.HeldForManualApproval {
        assert tasks[taskId := task] == tasks;
        return Ok(None);
      }
      if approved {
        tasks := tasks[taskId := task.(status := TaskStatus.Pending)];
        return Ok(Some(task.plan));
      } else {
        tasks := tasks[taskId := task.(status := TaskStatus.RejectedByOwner)];
        return Ok(None);
      }
    }

    method Query(taskId: string) returns (r: Result<TaskQueryResult, LoopError>)
      ensures r == QueryIn(tasks, taskId)
      ensures r.Ok? <==> taskId in tasks
    {
      if taskId !in tasks {
        return Err(TaskNotFound(taskId));
      }
      var task := tasks[taskId];
      return Ok(TaskQueryResult(task.taskId, task.status, task.executionResult));
    }
  }

  function QueryIn(tasks: Tasks, id: string): Result<TaskQueryResult, LoopError> {
    if id in tasks then Ok(TaskQueryResult(tasks[id].taskId, tasks[id].status, tasks[id].executionResult))
    else Err(TaskNotFound(id))
  }

  // ---- Timer batching ----

  function Later(t1: nat, t2: nat): nat {
    if t1 <= t2 then t2 else t1
  }

  lemma ExpireTwice(g: Gate, tasks: Tasks, t1: nat, t2: nat)
    ensures Expire(g, Expire(g, tasks, t1), t2) == Expire(g, tasks, Later(t1, t2))
    ensures OverdueIds(g, Expire(g, tasks, Later(t1, t2)), Later(t1, t2)) == {}
  {
  }

  /** What the second pass finds overdue is what the later instant makes overdue and the first pass did not take. */
  lemma OverdueLater(g: Gate, task: TaskState, t1: nat, t2: nat)
    ensures Overdue(g, ExpireEntry(g, task, t1), t2) <==> Overdue(g, task, Later(t1, t2)) && !Overdue(g, task, t1)
    ensures Overdue(g, task, t1) ==> Overdue(g, task, Later(t1, t2))
    ensures ExpireEntry(g, task, t1).plan == task.plan
  {
  }

  lemma PassesAreDisjoint(g: Gate, tasks: Tasks, t1: nat, t2: nat,
                          fired1: seq<(string, ExecutionPlan)>, fired2: seq<(string, ExecutionPlan)>)
    requires Enumerates(fired1, g, tasks, t1)
    requires Enumerates(fired2, g, Expire(g, tasks, t1), t2)
    ensures forall i, j | 0 <= i < |fired1| && 0 <= j < |fired2| :: fired1[i].0 != fired2[j].0
  {
    forall i, j | 0 <= i < |fired1| && 0 <= j < |fired2|
      ensures fired1[i].0 != fired2[j].0
    {
      OverdueLater(g, tasks[fired2[j].0], t1, t2);
    }
  }

  lemma PassesTogether(g: Gate, tasks: Tasks, t1: nat, t2: nat,
                       fired1: seq<(string, ExecutionPlan)>, fired2: seq<(string, ExecutionPlan)>)
    requires Enumerates(fired1, g, tasks, t1)
    requires Enumerates(fired2, g, Expire(g, tasks, t1), t2)
    requires forall i, j | 0 <= i < |fired1| && 0 <= j < |fired2| :: fired1[i].0 != fired2[j].0
    ensures Enumerates(fired1 + fired2, g, tasks, Later(t1, t2))
  {
    var all, t := fired1 + fired2, Later(t1, t2);
    forall i | 0 <= i < |all|
      ensures all[i].0 in tasks && Overdue(g, tasks[all[i].0], t) && all[i].1 == tasks[all[i].0].plan
    {
      OverdueLater(g, tasks[all[i].0], t1, t2);
    }
    forall id | id in tasks && Overdue(g, tasks[id], t)
      ensures (id, tasks[id].plan) in all
    {
      OverdueLater(g, tasks[id], t1, t2);
      if Overdue(g, tasks[id], t1) {
        assert (id, tasks[id].plan) in fired1;
      } else {
        assert (id, Expire(g, tasks, t1)[id].plan) in fired2;
      }
    }
  }

  /**
   Two timer passes, at any two instants, leave the table that one pass at the later instant
   leaves; their outputs have no id in common and, put together, are an output of that single
   pass; and nothing overdue remains.
   */
  lemma TimerPassesBatch(g: Gate, tasks: Tasks, t1: nat, t2: nat,
                         fired1: seq<(string, ExecutionPlan)>, fired2: seq<(string, ExecutionPlan)>)
    requires Enumerates(fired1, g, tasks, t1)
    requires Enumerates(fired2, g, Expire(g, tasks, t1), t2)
    ensures Expire(g, Expire(g, tasks, t1), t2) == Expire(g, tasks, Later(t1, t2))
    ensures Enumerates(fired1 + fired2, g, tasks, Later(t1, t2))
    ensures OverdueIds(g, Expire(g, tasks, Later(t1, t2)), Later(t1, t2)) == {}
    ensures forall i, j | 0 <= i < |fired1| && 0 <= j < |fired2| :: fired1[i].0 != fired2[j].0
  {
    ExpireTwice(g, tasks, t1, t2);
    PassesAreDisjoint(g, tasks, t1, t2, fired1, fired2);
    PassesTogether(g, tasks, t1, t2, fired1, fired2);
  }
}
