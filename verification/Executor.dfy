/**
 The gate in front of every spawned process. Tokenising with `shlex`, the allow-list file and
 the spawned process itself are values of a `World`; the allow-list is loaded anew for each
 command, so the world may answer differently at each position of a plan.
 */
module Executor {
  import opened Wrappers
  import opened Text
  import opened Symbols
  import opened Protocol
  import opened Criteria

  datatype ExitStatus = Code(code: int) | Signaled
  {
    predicate Success() {
      this == Code(0)
    }
  }

  datatype Output = Output(status: ExitStatus, stdout: string, stderr: string)

  datatype World = World(
    split: string -> Option<seq<string>>,
    allowlist: nat -> Result<set<string>, string>,
    spawn: (nat, seq<string>) -> Result<Output, string>)

  datatype ExecError =
    | UnbalancedQuotes
    | EmptyCommand
    | BlockedBySafetyLock(command: string)
    | OverrideRequired(command: string)
    | AllowlistUnavailable(message: string)
    | NotAllowlisted(binary: string)
    | SpawnFailed(message: string)
  {
    function Message(): string {
      match this
      case UnbalancedQuotes => "command has unbalanced quotes"
      case EmptyCommand => "command is empty"
      case BlockedBySafetyLock(command) => "command '" + command + "' is blocked by the safety lock"
      case OverrideRequired(command) => "command '" + command + "' requires explicit human override before execution"
      case AllowlistUnavailable(message) => "failed to load executor allowlist: " + message
      case NotAllowlisted(binary) => "binary '" + binary + "' not in executor allowlist"
      case SpawnFailed(message) => message
    }
  }

  datatype SafetyDecision = Allow | Block | RequireHumanOverride

  /** The safety lock's opinion on a command. */
  function EvaluateForCommand(armed: bool, command: string): SafetyDecision {
    var trimmed := Trim(command);
    if trimmed == "" then Allow
    else if ExtractFromCommand(trimmed).0.Classification() == SymbolClassification.Critical then
      if armed then Block else Allow
    else Allow
  }

  /** The text that is tokenised. */
  function ExecutorText(command: string): string {
    var (symbol, remaining) := ExtractFromCommand(command);
    if symbol == CritUnclassified then command else remaining
  }

  function ParseCommand(w: World, command: string): (r: Result<seq<string>, ExecError>)
    ensures r.Ok? ==> r.value != []
  {
    match w.split(ExecutorText(command))
    case None => Err(UnbalancedQuotes)
    case Some(tokens) => if tokens == [] then Err(EmptyCommand) else Ok(tokens)
  }

  /** Everything that happens before the spawn; a fresh guard is armed. */
  function Clear(w: World, k: nat, command: string): Result<seq<string>, ExecError> {
    match ParseCommand(w, command)
    case Err(e) => Err(e)
    case Ok(tokens) =>
      match EvaluateForCommand(true, command)
      case Block => Err(BlockedBySafetyLock(command))
      case RequireHumanOverride => Err(OverrideRequired(command))
      case Allow =>
        match w.allowlist(k)
        case Err(message) => Err(AllowlistUnavailable(message))
        case Ok(allowed) =>
          if tokens[0] !in allowed then Err(NotAllowlisted(tokens[0])) else Ok(tokens)
  }

  function ExecuteApprovedTask(w: World, k: nat, command: string): Result<Output, ExecError> {
    match Clear(w, k, command)
    case Err(e) => Err(e)
    case Ok(tokens) =>
      match w.spawn(k, tokens)
      case Ok(output) => Ok(output)
      case Err(message) => Err(SpawnFailed(message))
  }

  type Task = (nat, string) -> Result<Output, ExecError>

  function TaskOf(w: World): Task {
    (k: nat, command: string) => ExecuteApprovedTask(w, k, command)
  }

  // ---- Running a plan ----

  predicate CommandSucceeds(task: Task, k: nat, command: string) {
    task(k, command).Ok? && task(k, command).value.status.Success()
  }

  predicate PlanSucceeds(task: Task, commands: seq<string>) {
    forall k | 0 <= k < |commands| :: CommandSucceeds(task, k, commands[k])
  }

  function ExitOf(r: Result<Output, ExecError>): int {
    match r
    case Ok(output) => (match output.status case Code(code) => code case Signaled => 1)
    case Err(_) => 1
  }

  /** What one command adds to the outputs of its plan. */
  function Printed(r: Result<Output, ExecError>): string {
    match r case Ok(output) => output.stdout case Err(_) => ""
  }

  function Complained(r: Result<Output, ExecError>): string {
    match r case Ok(output) => output.stderr case Err(e) => "execution error: " + e.Message()
  }

  type Piece = (nat, string) -> string

  /** The pieces of all commands, in order. */
  function Gathered(piece: Piece, commands: seq<string>): string {
    if commands == [] then ""
    else
      var n := |commands| - 1;
      Gathered(piece, commands[..n]) + piece(n, commands[n])
  }

  function PrintedBy(task: Task): Piece {
    (k: nat, command: string) => Printed(task(k, command))
  }

  function ComplainedBy(task: Task): Piece {
    (k: nat, command: string) => Complained(task(k, command))
  }

  function StdoutOf(task: Task, commands: seq<string>): string {
    Gathered(PrintedBy(task), commands)
  }

  function StderrOf(task: Task, commands: seq<string>): string {
    Gathered(ComplainedBy(task), commands)
  }

  lemma GatheredPush(piece: Piece, p: seq<string>, c: string)
    ensures Gathered(piece, p + [c]) == Gathered(piece, p) + piece(|p|, c)
  {
    assert (p + [c])[..|p|] == p;
  }

  function LastExit(task: Task, commands: seq<string>): int {
    if commands == [] then 0 else ExitOf(task(|commands| - 1, commands[|commands| - 1]))
  }

  function PlanOutcome(task: Task, plan: ExecutionPlan): ExecutionOutcome {
    ExecutionOutcome(
      StdoutOf(task, plan.commands),
      StderrOf(task, plan.commands),
      LastExit(task, plan.commands),
      PlanSucceeds(task, plan.commands))
  }

  lemma GatheredNext(piece: Piece, commands: seq<string>, k: nat)
    requires k < |commands|
    ensures Gathered(piece, commands[..k + 1]) == Gathered(piece, commands[..k]) + piece(k, commands[k])
  {
    assert commands[..k + 1] == commands[..k] + [commands[k]];
    GatheredPush(piece, commands[..k], commands[k]);
  }

  /** What one more command adds to the outcome. */
  lemma OutcomeNext(task: Task, commands: seq<string>, k: nat)
    requires k < |commands|
    ensures StdoutOf(task, commands[..k + 1]) == StdoutOf(task, commands[..k]) + Printed(task(k, commands[k]))
    ensures StderrOf(task, commands[..k + 1]) == StderrOf(task, commands[..k]) + Complained(task(k, commands[k]))
    ensures LastExit(task, commands[..k + 1]) == ExitOf(task(k, commands[k]))
  {
    GatheredNext(PrintedBy(task), commands, k);
    GatheredNext(ComplainedBy(task), commands, k);
  }

  /** Runs every command of the plan; a failing one does not stop the ones after it. */
  method ExecutePlan(task: Task, plan: ExecutionPlan) returns (outcome: ExecutionOutcome)
    ensures outcome == PlanOutcome(task, plan)
  {
    var combinedStdout, combinedStderr := "", "";
    var lastExit := 0;
    var success := true;
    for k := 0 to |plan.commands|
      invariant success <==> forall i | 0 <= i < k :: CommandSucceeds(task, i, plan.commands[i])
      invariant lastExit == LastExit(task, plan.commands[..k])
      invariant combinedStdout == StdoutOf(task, plan.commands[..k])
      invariant combinedStderr == StderrOf(task, plan.commands[..k])
    {
      OutcomeNext(task, plan.commands, k);
      match task(k, plan.commands[k]) {
        case Ok(output) =>
          lastExit := match output.status case Code(code) => code case Signaled => 1;
          if !output.status.Success() {
            success := false;
          }
          combinedStdout := combinedStdout + output.stdout;
          combinedStderr := combinedStderr + output.stderr;
        case Err(e) =>
          success := false;
          combinedStderr := combinedStderr + ("execution error: " + e.Message());
          lastExit := 1;
      }
      assert combinedStdout + "" == combinedStdout;
    }
    assert plan.commands[..|plan.commands|] == plan.commands;
    return ExecutionOutcome(combinedStdout, combinedStderr, lastExit, success);
  }

  // ---- What a plan reports ----

  /** The task as the second part of a plan sees it, behind `n` commands. */
  function Behind(task: Task, n: nat): Task {
    (k: nat, command: string) => task(n + k, command)
  }

  function Shifted(piece: Piece, n: nat): Piece {
    (k: nat, command: string) => piece(n + k, command)
  }

  lemma Joined<T>(s: seq<T>, t: seq<T>, u: seq<T>)
    ensures s + (t + u) == (s + t) + u
  {
  }

  lemma {:induction false} GatheredConcat(piece: Piece, p: seq<string>, q: seq<string>)
    ensures Gathered(piece, p + q) == Gathered(piece, p) + Gathered(Shifted(piece, |p|), q)
  {
    if q == [] {
      assert p + q == p;
    } else {
      var front, c := q[..|q| - 1], q[|q| - 1];
      var shifted := Shifted(piece, |p|);
      GatheredConcat(piece, p, front);
      assert q == front + [c];
      Joined(p, front, [c]);
      GatheredPush(piece, p + front, c);
      GatheredPush(shifted, front, c);
      Joined(Gathered(piece, p), Gathered(shifted, front), piece(|p| + |front|, c));
    }
  }

  lemma {:induction false} GatheredAlike(piece: Piece, other: Piece, commands: seq<string>)
    requires forall k, command :: piece(k, command) == other(k, command)
    ensures Gathered(piece, commands) == Gathered(other, commands)
  {
    if commands != [] {
      GatheredAlike(piece, other, commands[..|commands| - 1]);
    }
  }

  lemma StdoutOfConcat(task: Task, p: seq<string>, q: seq<string>)
    ensures StdoutOf(task, p + q) == StdoutOf(task, p) + StdoutOf(Behind(task, |p|), q)
  {
    GatheredConcat(PrintedBy(task), p, q);
    GatheredAlike(Shifted(PrintedBy(task), |p|), PrintedBy(Behind(task, |p|)), q);
  }

  lemma StderrOfConcat(task: Task, p: seq<string>, q: seq<string>)
    ensures StderrOf(task, p + q) == StderrOf(task, p) + StderrOf(Behind(task, |p|), q)
  {
    GatheredConcat(ComplainedBy(task), p, q);
    GatheredAlike(Shifted(ComplainedBy(task), |p|), ComplainedBy(Behind(task, |p|)), q);
  }

  lemma SuccessOfConcat(task: Task, p: seq<string>, q: seq<string>)
    ensures PlanSucceeds(task, p + q) <==> PlanSucceeds(task, p) && PlanSucceeds(Behind(task, |p|), q)
  {
    if PlanSucceeds(task, p + q) {
      forall k | 0 <= k < |p|
        ensures CommandSucceeds(task, k, p[k])
      {
        assert (p + q)[k] == p[k] && CommandSucceeds(task, k, (p + q)[k]);
      }
      forall k | 0 <= k < |q|
        ensures CommandSucceeds(Behind(task, |p|), k, q[k])
      {
        assert (p + q)[|p| + k] == q[k] && CommandSucceeds(task, |p| + k, (p + q)[|p| + k]);
      }
    }
    if PlanSucceeds(task, p) && PlanSucceeds(Behind(task, |p|), q) {
      forall k | 0 <= k < |p + q|
        ensures CommandSucceeds(task, k, (p + q)[k])
      {
        if k < |p| {
          assert CommandSucceeds(task, k, p[k]);
        } else {
          assert CommandSucceeds(Behind(task, |p|), k - |p|, q[k - |p|]);
        }
      }
    }
  }

  function PlanOf(commands: seq<string>): ExecutionPlan {
    ExecutionPlan("", "", commands)
  }

  /** What a plan without commands and a plan with one command report. */
  lemma OutcomeOfOne(task: Task, command: string)
    ensures PlanOutcome(task, PlanOf([])) == ExecutionOutcome("", "", 0, true)
    ensures PlanOutcome(task, PlanOf([command])) ==
            match task(0, command)
            case Ok(Output(Code(code), stdout, stderr)) => ExecutionOutcome(stdout, stderr, code, code == 0)
            case Ok(Output(Signaled, stdout, stderr)) => ExecutionOutcome(stdout, stderr, 1, false)
            case Err(e) => ExecutionOutcome("", "execution error: " + e.Message(), 1, false)
  {
    assert [command][..0] == [];
    assert StdoutOf(task, []) == "" && StderrOf(task, []) == "";
    assert PlanSucceeds(task, [command]) <==> CommandSucceeds(task, 0, [command][0]);
  }

  /**
   Running `p` and then `q` reports the outputs of `p` followed by those of `q`, the exit code of
   the part that ran last, and success exactly if both succeeded.
   */
  lemma OutcomeOfConcat(task: Task, p: seq<string>, q: seq<string>)
    ensures var all, first, second :=
              PlanOutcome(task, PlanOf(p + q)), PlanOutcome(task, PlanOf(p)), PlanOutcome(Behind(task, |p|), PlanOf(q));
            && all.stdout == first.stdout + second.stdout
            && all.stderr == first.stderr + second.stderr
            && all.exitCode == (if q == [] then first.exitCode else second.exitCode)
            && (all.success <==> first.success && second.success)
  {
    StdoutOfConcat(task, p, q);
    StderrOfConcat(task, p, q);
    SuccessOfConcat(task, p, q);
    ExitOfConcat(task, p, q);
  }

  lemma ExitOfConcat(task: Task, p: seq<string>, q: seq<string>)
    ensures LastExit(task, p + q) == if q == [] then LastExit(task, p) else LastExit(Behind(task, |p|), q)
  {
    if q == [] {
      assert p + q == p;
    } else {
      assert (p + q)[|p + q| - 1] == q[|q| - 1];
    }
  }

  /** The piece of a command stands behind what the commands before it give. */
  lemma {:induction false} PieceStands(piece: Piece, commands: seq<string>, i: nat) returns (rest: string)
    requires i < |commands|
    ensures Gathered(piece, commands) == Gathered(piece, commands[..i]) + piece(i, commands[i]) + rest
  {
    var n := |commands| - 1;
    var front := commands[..n];
    if i == n {
      rest := "";
    } else {
      assert front[..i] == commands[..i];
      var more := PieceStands(piece, front, i);
      rest := more + piece(n, commands[n]);
      Joined(Gathered(piece, commands[..i]) + piece(i, commands[i]), more, piece(n, commands[n]));
    }
  }

  /** What stands between, and what stands behind, the pieces of two commands. */
  lemma PiecesKeepOrder(piece: Piece, commands: seq<string>, i: nat, j: nat) returns (between: string, behind: string)
    requires i < j < |commands|
    ensures Gathered(piece, commands) ==
            Gathered(piece, commands[..i]) + piece(i, commands[i]) + between + piece(j, commands[j]) + behind
  {
    assert commands[..j][..i] == commands[..i];
    between := PieceStands(piece, commands[..j], i);
    behind := PieceStands(piece, commands, j);
  }

  /**
   Of two commands of a plan, the output of the earlier one stands before that of the later one,
   directly behind the outputs of the commands before it; for both streams.
   */
  lemma OutputsKeepOrder(task: Task, plan: ExecutionPlan, i: nat, j: nat)
    returns (between: string, behind: string, between': string, behind': string)
    requires i < j < |plan.commands|
    ensures PlanOutcome(task, plan).stdout ==
            StdoutOf(task, plan.commands[..i]) + Printed(task(i, plan.commands[i]))
            + between + Printed(task(j, plan.commands[j])) + behind
    ensures PlanOutcome(task, plan).stderr ==
            StderrOf(task, plan.commands[..i]) + Complained(task(i, plan.commands[i]))
            + between' + Complained(task(j, plan.commands[j])) + behind'
  {
    between, behind := PiecesKeepOrder(PrintedBy(task), plan.commands, i, j);
    between', behind' := PiecesKeepOrder(ComplainedBy(task), plan.commands, i, j);
  }

  // ---- What the gate lets through ----

  /** The command carries a recognised tag that the owner need not approve. */
  predicate DelegableTag(command: string) {
    ExtractFromCommand(command).0.Classification() == SymbolClassification.Delegable
  }

  /**
   An armed lock allows exactly blank commands and commands with a delegable tag; a disarmed one
   allows everything; neither asks for an override.
   */
  lemma SafetyLockMeaning(command: string)
    ensures EvaluateForCommand(true, command) == if Blank(command) || DelegableTag(command) then Allow else Block
    ensures EvaluateForCommand(false, command) == Allow
  {
    BlankTrimsAway(command);
    ExtractIgnoresSurroundings(command);
  }

  /** The exact condition for a command to reach the spawn, and what is spawned then. */
  lemma ClearMeaning(w: World, k: nat, command: string, tokens: seq<string>)
    ensures Clear(w, k, command) == Ok(tokens) <==>
            && (Blank(command) || DelegableTag(command))
            && w.split(ExecutorText(command)) == Some(tokens)
            && tokens != []
            && w.allowlist(k).Ok?
            && tokens[0] in w.allowlist(k).value
  {
    SafetyLockMeaning(command);
  }

  /** Which refusal a command meets, and exactly when: quotes, emptiness, the lock, the allow-list, in this order. */
  lemma RefusedExactlyWhen(w: World, k: nat, command: string)
    ensures var tokens, r := w.split(ExecutorText(command)), Clear(w, k, command);
            var lets := Blank(command) || DelegableTag(command);
            && (r == Err(UnbalancedQuotes) <==> tokens.None?)
            && (r == Err(EmptyCommand) <==> tokens == Some([]))
            && (r == Err(BlockedBySafetyLock(command)) <==> tokens.Some? && tokens.value != [] && !lets)
            && (forall message :: r == Err(AllowlistUnavailable(message)) <==>
                  tokens.Some? && tokens.value != [] && lets && w.allowlist(k) == Err(message))
            && (forall binary :: r == Err(NotAllowlisted(binary)) <==>
                  && tokens.Some? && tokens.value != [] && lets && w.allowlist(k).Ok?
                  && tokens.value[0] == binary && binary !in w.allowlist(k).value)
            && !(r.Err? && r.error.OverrideRequired?)
  {
    SafetyLockMeaning(command);
  }

  /** What holds of a command that was let through: a delegable tag unless it is blank, and an allow-listed program. */
  predicate Gated(w: World, k: nat, command: string) {
    && (Blank(command) || DelegableTag(command))
    && var tokens := w.split(ExecutorText(command));
       && tokens.Some? && tokens.value != []
       && w.allowlist(k).Ok? && tokens.value[0] in w.allowlist(k).value
  }

  /** A process is started exactly for a command let through, and with exactly the tokens of its text. */
  lemma SpawnsWhatWasCleared(w: World, k: nat, command: string)
    ensures !Gated(w, k, command) ==> ExecuteApprovedTask(w, k, command).Err?
    ensures Gated(w, k, command) ==>
              ExecuteApprovedTask(w, k, command) ==
              match w.spawn(k, w.split(ExecutorText(command)).value)
              case Ok(output) => Ok(output)
              case Err(message) => Err(SpawnFailed(message))
  {
    if Clear(w, k, command).Ok? {
      ClearMeaning(w, k, command, Clear(w, k, command).value);
    } else if Gated(w, k, command) {
      ClearMeaning(w, k, command, w.split(ExecutorText(command)).value);
    }
  }

  /** A plan that succeeds had every command let through. */
  lemma SuccessWasGated(w: World, commands: seq<string>, k: nat)
    requires PlanSucceeds(TaskOf(w), commands) && k < |commands|
    ensures Gated(w, k, commands[k])
  {
    assert CommandSucceeds(TaskOf(w), k, commands[k]);
    ClearMeaning(w, k, commands[k], Clear(w, k, commands[k]).value);
  }

  /** A plan the policy calls delegable never meets the safety lock. */
  lemma DelegableIsNeverBlocked(rx: RegexEngine, cfg: CriteriaConfig, plan: ExecutionPlan, w: World, k: nat)
    requires DecidePolicy(rx, cfg, plan) == PolicyDecision.Delegable && k < |plan.commands|
    ensures !Clear(w, k, plan.commands[k]).Err? || !Clear(w, k, plan.commands[k]).error.BlockedBySafetyLock?
    ensures !Clear(w, k, plan.commands[k]).Err? || !Clear(w, k, plan.commands[k]).error.OverrideRequired?
  {
    assert plan.commands[k] in plan.commands;
    SafetyLockMeaning(plan.commands[k]);
  }

  /** Even the owner's approval runs no command with a critical or missing tag: such a plan cannot succeed. */
  lemma CriticalTagsNeverSucceed(w: World, commands: seq<string>, k: nat)
    requires k < |commands| && !Blank(commands[k]) && !DelegableTag(commands[k])
    ensures Clear(w, k, commands[k]).Err? && !PlanSucceeds(TaskOf(w), commands)
  {
    if Clear(w, k, commands[k]).Ok? {
      ClearMeaning(w, k, commands[k], Clear(w, k, commands[k]).value);
    }
    assert !CommandSucceeds(TaskOf(w), k, commands[k]);
  }

  /**
   The text the criteria scan is the text the executor tokenises, except exactly for a command
   that is explicitly tagged as unclassified.
   */
  lemma ScannedTextIsExecutedText(command: string)
    ensures ExecutorText(command) == ExtractFromCommand(command).1 <==>
            !exists rest :: Tagged(command, CritUnclassified, rest)
    ensures (exists rest :: Tagged(command, CritUnclassified, rest)) ==> ExecutorText(command) == command
  {
    ExtractMeaning(command);
    if rest :| Tagged(command, CritUnclassified, rest) {
      TaggedIsExtracted(command, CritUnclassified, rest);
      TaggedIsShorter(command, CritUnclassified, rest);
    }
  }

  lemma TaggedIsShorter(command: string, symbol: Symbol, rest: string)
    requires Tagged(command, symbol, rest)
    ensures |rest| < |command|
  {
    var stripped: string :| Trim(command) == OPEN + stripped && TagText(stripped, symbol, rest);
    var name: string, body: string :| stripped == name + CLOSE + body && Trim(body) == rest;
    var _, _ := TrimSplits(command);
    var _, _ := TrimSplits(body);
  }
}
