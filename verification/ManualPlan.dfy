/** The plan the dashboard builds from the rows an operator typed. */
module ManualPlan {
  import opened Wrappers
  import opened Text
  import opened Symbols
  import opened Protocol
  import opened Criteria
  import opened CriteriaMeaning

  datatype ManualCommandRow = ManualCommandRow(command: string, symbol: Symbol)

  function TaggedRows(rows: seq<ManualCommandRow>): seq<string> {
    if rows == [] then []
    else
      var trimmed := Trim(rows[0].command);
      (if trimmed == "" then [] else [WithTag(rows[0].symbol, trimmed)]) + TaggedRows(rows[1..])
  }

  function BuildManualPlan(taskId: string, description: string, rows: seq<ManualCommandRow>): Option<ExecutionPlan> {
    var commands := TaggedRows(rows);
    if commands == [] then None else Some(ExecutionPlan(taskId, description, commands))
  }

  /** What the rows say: symbol and trimmed text of every row that is not blank, in order. */
  function Spoken(rows: seq<ManualCommandRow>): seq<(Symbol, string)> {
    if rows == [] then []
    else (if Blank(rows[0].command) then [] else [(rows[0].symbol, Trim(rows[0].command))]) + Spoken(rows[1..])
  }

  function ReadBack(commands: seq<string>): seq<(Symbol, string)> {
    if commands == [] then [] else [ExtractFromCommand(commands[0])] + ReadBack(commands[1..])
  }

  lemma ReadBackCons(command: string, rest: seq<string>)
    ensures ReadBack([command] + rest) == [ExtractFromCommand(command)] + ReadBack(rest)
  {
    assert ([command] + rest)[1..] == rest;
  }

  lemma RowReadsBack(row: ManualCommandRow)
    ensures ExtractFromCommand(WithTag(row.symbol, Trim(row.command))) == (row.symbol, Trim(row.command))
  {
    TagRoundTrip(row.symbol, Trim(row.command));
    TrimTwice(row.command);
  }

  lemma {:induction false} TaggedRowsReadBack(rows: seq<ManualCommandRow>)
    ensures ReadBack(TaggedRows(rows)) == Spoken(rows)
    ensures TaggedRows(rows) == [] <==> Spoken(rows) == []
  {
    if rows != [] {
      TaggedRowsReadBack(rows[1..]);
      BlankTrimsAway(rows[0].command);
      if Blank(rows[0].command) {
        assert TaggedRows(rows) == TaggedRows(rows[1..]);
      } else {
        var tag := WithTag(rows[0].symbol, Trim(rows[0].command));
        assert TaggedRows(rows) == [tag] + TaggedRows(rows[1..]);
        ReadBackCons(tag, TaggedRows(rows[1..]));
        RowReadsBack(rows[0]);
      }
    }
  }

  /** A manual plan exists unless every row is blank, and reading its commands gives back what the rows say. */
  lemma ManualPlanReadsBack(taskId: string, description: string, rows: seq<ManualCommandRow>)
    ensures var plan := BuildManualPlan(taskId, description, rows);
            && (plan.None? <==> Spoken(rows) == [])
            && (plan.Some? ==>
                  && plan.value.taskId == taskId
                  && plan.value.description == description
                  && ReadBack(plan.value.commands) == Spoken(rows))
  {
    TaggedRowsReadBack(rows);
  }

  /** What a typed row must be for the plan to be delegable. */
  predicate CleanRow(rx: RegexEngine, cfg: CriteriaConfig, row: (Symbol, string)) {
    row.0.Classification() == SymbolClassification.Delegable && forall c: Criterion :: !Hit(rx, cfg, c, Lowered(row.1))
  }

  lemma {:induction false} VerdictByReading(rx: RegexEngine, cfg: CriteriaConfig, commands: seq<string>)
    ensures Verdict(rx, cfg, commands) == DelegablePlan <==>
            forall row | row in ReadBack(commands) :: CleanRow(rx, cfg, row)
  {
    if commands != [] {
      VerdictByReading(rx, cfg, commands[1..]);
      assert commands == [commands[0]] + commands[1..];
      VerdictOfConcat(rx, cfg, [commands[0]], commands[1..]);
      VerdictOfOne(rx, cfg, commands[0]);
    }
  }

  lemma VerdictOfOne(rx: RegexEngine, cfg: CriteriaConfig, command: string)
    ensures Verdict(rx, cfg, [command]) == DelegablePlan <==> CleanRow(rx, cfg, ExtractFromCommand(command))
  {
    assert Scanned(command) == Lowered(ExtractFromCommand(command).1);
    assert CleanCommand(rx, cfg, command) <==> CleanRow(rx, cfg, ExtractFromCommand(command));
    assert command in [command] && forall c | c in [command] :: c == command;
  }

  /** The dashboard gets no privileged path: the policy decides a manual plan by what its rows say. */
  lemma ManualPlanDecision(rx: RegexEngine, cfg: CriteriaConfig, taskId: string, description: string,
                           rows: seq<ManualCommandRow>)
    requires BuildManualPlan(taskId, description, rows).Some?
    ensures DecidePolicy(rx, cfg, BuildManualPlan(taskId, description, rows).value) == PolicyDecision.Delegable <==>
            forall row | row in Spoken(rows) :: CleanRow(rx, cfg, row)
  {
    TaggedRowsReadBack(rows);
    VerdictByReading(rx, cfg, TaggedRows(rows));
  }
}
