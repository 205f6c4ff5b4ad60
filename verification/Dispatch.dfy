/**
 How the daemon decides what a JSON value received on the maestro socket is, and how the
 dashboard and other clients encode what they mean.
 */
module Dispatch {
  import opened Wrappers
  import opened Protocol
  import opened Json

  datatype Action =
    | ResolveTask(taskId: string, approved: bool)
    | SubmitPlan(plan: ExecutionPlan)
    | QueryTask(taskId: string)
    | ArmLock
    | DisarmLock(reason: string)
    | LogOverride(taskId: string, reason: string)
    | ShowMessage(text: string)
    | Malformed

  /** An object as the handler looks at it: the keys it asks for, and the number of fields. */
  datatype Message = Message(
    ty: Option<Value>,
    approved: Option<Value>,
    taskId: Option<Value>,
    description: Option<Value>,
    commands: Option<Value>,
    reason: Option<Value>,
    text: Option<Value>,
    size: nat)

  function Look(fields: Fields): Message {
    Message(Get(fields, "type"), Get(fields, "approved"), Get(fields, "task_id"), Get(fields, "description"),
            Get(fields, "commands"), Get(fields, "reason"), Get(fields, "text"), |fields|)
  }

  const NOTHING := Message(None, None, None, None, None, None, None, 0)

  /** Only an object has keys to ask for. */
  function View(v: Value): Message {
    if v.Obj? then Look(v.fields) else NOTHING
  }

  function AsString(v: Option<Value>): Option<string> {
    match v
    case Some(Str(s)) => Some(s)
    case _ => None
  }

  function StringOr(v: Option<Value>, otherwise: string): string {
    match AsString(v)
    case Some(s) => s
    case None => otherwise
  }

  function Strings(items: seq<Value>): Option<seq<string>> {
    if items == [] then Some([])
    else
      match (items[0], Strings(items[1..]))
      case (Str(s), Some(rest)) => Some([s] + rest)
      case _ => None
  }

  // ---- Deserialisation of the typed messages; unknown fields are ignored ----

  function ParseResolved(m: Message): Option<Action> {
    match (m.taskId, m.approved)
    case (Some(Str(id)), Some(Bool(approved))) => Some(ResolveTask(id, approved))
    case _ => None
  }

  function ParsePlan(m: Message): Option<ExecutionPlan> {
    match (m.taskId, m.description, m.commands)
    case (Some(Str(id)), Some(Str(description)), Some(Arr(items))) =>
      (match Strings(items)
       case Some(commands) => Some(ExecutionPlan(id, description, commands))
       case None => None)
    case _ => None
  }

  /** `MaestroMessage`, tagged by its `type`, from an object. */
  function ParseMaestro(m: Message): Option<Action> {
    if AsString(m.ty) == Some("execution_plan") then
      match ParsePlan(m) case Some(plan) => Some(SubmitPlan(plan)) case None => None
    else if AsString(m.ty) == Some("task_query") then
      match AsString(m.taskId) case Some(id) => Some(QueryTask(id)) case None => None
    else None
  }

  /** The deserialiser also takes an array: the tag, then exactly the fields of the variant in order. */
  function ParseMaestroArray(items: seq<Value>): Option<Action> {
    if |items| == 4 && items[0] == Str("execution_plan") then
      match ParsePlan(NOTHING.(taskId := Some(items[1]), description := Some(items[2]), commands := Some(items[3])))
      case Some(plan) => Some(SubmitPlan(plan))
      case None => None
    else if |items| == 2 && items[0] == Str("task_query") then
      match items[1] case Str(id) => Some(QueryTask(id)) case _ => None
    else None
  }

  function ParseTyped(v: Value): Option<Action> {
    match v
    case Obj(fields) => ParseMaestro(Look(fields))
    case Arr(items) => ParseMaestroArray(items)
    case _ => None
  }

  function SafetyAction(m: Message): Action {
    if AsString(m.ty) == Some("safety_arm") then ArmLock
    else if AsString(m.ty) == Some("safety_disarm") then DisarmLock(StringOr(m.reason, "no reason provided"))
    else if AsString(m.ty) == Some("safety_override") then
      LogOverride(StringOr(m.taskId, "unknown"), StringOr(m.reason, "no reason provided"))
    else if AsString(m.ty) == Some("direct_message") then ShowMessage(StringOr(m.text, ""))
    else Malformed
  }

  predicate TypedForMaestro(m: Message) {
    AsString(m.ty) == Some("execution_plan") || AsString(m.ty) == Some("task_query")
  }

  function HandlePlain(m: Message): Action {
    match ParsePlan(m)
    case Some(plan) => SubmitPlan(plan)
    case None => Malformed
  }

  /** None of the tests before the second attempt at a typed message decides. */
  predicate ReachesFallback(m: Message, typed: Option<Action>) {
    && m.approved.None?
    && !(TypedForMaestro(m) && typed.Some?)
    && m.commands.None?
    && !(AsString(m.taskId).Some? && m.size == 1)
  }

  /** The ordered tests of the message handler; `typed` is what the value is as a typed message. */
  function Handle(m: Message, typed: Option<Action>): Action {
    if m.approved.Some? then
      match ParseResolved(m) case Some(action) => action case None => Malformed
    else if TypedForMaestro(m) && typed.Some? then typed.value
    else if m.commands.Some? then HandlePlain(m)
    else if AsString(m.taskId).Some? && m.size == 1 then QueryTask(AsString(m.taskId).value)
    else if typed.Some? then typed.value
    else SafetyAction(m)
  }

  function HandleMaestroMessage(v: Value): Action {
    Handle(View(v), ParseTyped(v))
  }

  // ---- What the handler does, stated without the order of its tests ----

  lemma {:induction false} StringsInvert(items: seq<Value>, commands: seq<string>)
    ensures Strings(items) == Some(commands) <==> items == StrItems(commands)
  {
    if items != [] && commands != [] {
      StringsInvert(items[1..], commands[1..]);
      assert items == [items[0]] + items[1..] && commands == [commands[0]] + commands[1..];
      assert StrItems(commands)[1..] == StrItems(commands[1..]);
    }
  }

  lemma PlanMeaning(m: Message, plan: ExecutionPlan)
    ensures ParsePlan(m) == Some(plan) <==>
            && m.taskId == Some(Str(plan.taskId))
            && m.description == Some(Str(plan.description))
            && m.commands == Some(Arr(StrItems(plan.commands)))
  {
    if m.commands.Some? && m.commands.value.Arr? {
      StringsInvert(m.commands.value.items, plan.commands);
    }
  }

  /** A decision is taken exactly from an object with a string id and a boolean `approved`. */
  lemma ResolvesExactlyWhen(v: Value, id: string, approved: bool)
    ensures HandleMaestroMessage(v) == ResolveTask(id, approved) <==>
            v.Obj? && Get(v.fields, "task_id") == Some(Str(id)) && Get(v.fields, "approved") == Some(Bool(approved))
  {
  }

  /** The object holds the fields of the plan. */
  predicate HoldsPlan(fields: Fields, plan: ExecutionPlan) {
    && Get(fields, "task_id") == Some(Str(plan.taskId))
    && Get(fields, "description") == Some(Str(plan.description))
    && Get(fields, "commands") == Some(Arr(StrItems(plan.commands)))
  }

  function PlanArray(plan: ExecutionPlan): Value {
    Arr([Str("execution_plan"), Str(plan.taskId), Str(plan.description), Arr(StrItems(plan.commands))])
  }

  function QueryArray(id: string): Value {
    Arr([Str("task_query"), Str(id)])
  }

  lemma ArrayMeaning(items: seq<Value>, plan: ExecutionPlan, id: string)
    ensures ParseMaestroArray(items) == Some(SubmitPlan(plan)) <==> Arr(items) == PlanArray(plan)
    ensures ParseMaestroArray(items) == Some(QueryTask(id)) <==> Arr(items) == QueryArray(id)
  {
    if |items| == 4 {
      PlanMeaning(NOTHING.(taskId := Some(items[1]), description := Some(items[2]), commands := Some(items[3])), plan);
      assert items == [items[0], items[1], items[2], items[3]];
    } else if |items| == 2 {
      assert items == [items[0], items[1]];
    }
  }

  lemma ObjectSubmits(m: Message, plan: ExecutionPlan)
    ensures Handle(m, ParseMaestro(m)) == SubmitPlan(plan) <==>
            m.approved.None? && ParsePlan(m) == Some(plan) && AsString(m.ty) != Some("task_query")
  {
    assert ParsePlan(m).Some? ==> m.commands.Some? && AsString(m.taskId).Some?;
    assert "execution_plan"[0] != "task_query"[0];
  }

  /**
   A plan is submitted exactly by an object that holds its fields, approves nothing and is not
   typed as a query, or by the array of the plan's tag and fields.
   */
  lemma SubmitsExactlyWhen(v: Value, plan: ExecutionPlan)
    ensures HandleMaestroMessage(v) == SubmitPlan(plan) <==>
            || (&& v.Obj? && HoldsPlan(v.fields, plan)
                && Get(v.fields, "approved").None?
                && AsString(Get(v.fields, "type")) != Some("task_query"))
            || v == PlanArray(plan)
  {
    match v {
      case Obj(fields) =>
        PlanMeaning(Look(fields), plan);
        ObjectSubmits(Look(fields), plan);
      case Arr(items) => ArrayMeaning(items, plan, "");
      case _ =>
    }
  }

  lemma OneField(fields: Fields, key: string, other: string)
    requires |fields| == 1 && Get(fields, key).Some? && key != other
    ensures Get(fields, other).None?
  {
    assert fields[1..] == [];
  }

  lemma ObjectQueries(m: Message, id: string)
    requires m.size == 1 && m.taskId.Some? ==> m.commands.None? && m.ty.None?
    ensures Handle(m, ParseMaestro(m)) == QueryTask(id) <==>
            m.approved.None? && m.taskId == Some(Str(id)) && (AsString(m.ty) == Some("task_query") || m.size == 1)
  {
    assert "execution_plan"[0] != "task_query"[0];
  }

  lemma LoneIdIsLone(fields: Fields)
    requires |fields| == 1 && Get(fields, "task_id").Some?
    ensures Get(fields, "commands").None? && Get(fields, "type").None?
  {
    assert |"task_id"| == 7 && |"commands"| == 8 && |"type"| == 4;
    OneField(fields, "task_id", "commands");
    OneField(fields, "task_id", "type");
  }

  /**
   A query is made exactly by an object with a string id that approves nothing and is either
   typed as a query or holds nothing else, or by the array of the query's tag and id.
   */
  lemma QueriesExactlyWhen(v: Value, id: string)
    ensures HandleMaestroMessage(v) == QueryTask(id) <==>
            || (&& v.Obj? && Get(v.fields, "approved").None?
                && Get(v.fields, "task_id") == Some(Str(id))
                && (AsString(Get(v.fields, "type")) == Some("task_query") || |v.fields| == 1))
            || v == QueryArray(id)
  {
    match v {
      case Obj(fields) =>
        if |fields| == 1 && Get(fields, "task_id").Some? { LoneIdIsLone(fields); }
        ObjectQueries(Look(fields), id);
      case Arr(items) => ArrayMeaning(items, ExecutionPlan("", "", []), id);
      case _ =>
    }
  }

  /**
   The second attempt at a typed message decides exactly for arrays: an object it would accept
   has always been taken before.
   */
  lemma FallbackDecidesExactlyArrays(v: Value)
    ensures ReachesFallback(View(v), ParseTyped(v)) && ParseTyped(v).Some? <==>
            (exists plan :: v == PlanArray(plan)) || (exists id :: v == QueryArray(id))
  {
    match v {
      case Obj(fields) => assert ParseMaestro(Look(fields)).Some? ==> TypedForMaestro(Look(fields));
      case Arr(items) =>
        var typed := ParseMaestroArray(items);
        if typed.Some? && typed.value.SubmitPlan? {
          ArrayMeaning(items, typed.value.plan, "");
        } else if typed.Some? && typed.value.QueryTask? {
          ArrayMeaning(items, ExecutionPlan("", "", []), typed.value.taskId);
        }
        forall plan | v == PlanArray(plan)
          ensures typed.Some?
        {
          ArrayMeaning(items, plan, "");
        }
        forall id | v == QueryArray(id)
          ensures typed.Some?
        {
          ArrayMeaning(items, ExecutionPlan("", "", []), id);
        }
      case _ =>
    }
  }

  /** An object that reaches the control events: it decides nothing, plans nothing and is no bare query. */
  predicate PlainControl(fields: Fields, ty: string) {
    && Get(fields, "type") == Some(Str(ty))
    && Get(fields, "approved").None? && Get(fields, "commands").None?
  }

  /** The string under the key, or the fallback when there is none. */
  predicate ReadsAs(fields: Fields, key: string, otherwise: string, s: string) {
    var v := Get(fields, key);
    if v.Some? && v.value.Str? then v.value.s == s else s == otherwise
  }

  lemma ControlMessage(m: Message)
    requires m.size == 1 && m.taskId.Some? ==> m.commands.None? && m.ty.None?
    ensures var reached := m.approved.None? && m.commands.None?;
            var r := Handle(m, ParseMaestro(m));
            && (r == ArmLock <==> reached && m.ty == Some(Str("safety_arm")))
            && (r.DisarmLock? <==> reached && m.ty == Some(Str("safety_disarm")))
            && (r.LogOverride? <==> reached && m.ty == Some(Str("safety_override")))
            && (r.ShowMessage? <==> reached && m.ty == Some(Str("direct_message")))
            && (r.DisarmLock? ==> r.reason == StringOr(m.reason, "no reason provided"))
            && (r.LogOverride? ==>
                  r == LogOverride(StringOr(m.taskId, "unknown"), StringOr(m.reason, "no reason provided")))
            && (r.ShowMessage? ==> r.text == StringOr(m.text, ""))
  {
    TypesDiffer();
  }

  lemma TypesDiffer()
    ensures |"safety_arm"| == 10 && |"safety_disarm"| == 13 && |"safety_override"| == 15 && |"direct_message"| == 14
    ensures |"execution_plan"| == 14 && |"task_query"| == 10
    ensures "safety_arm" != "task_query" && "direct_message" != "execution_plan"
  {
    assert "safety_arm"[0] != "task_query"[0] && "direct_message"[0] != "execution_plan"[0];
  }

  lemma StringOrReads(fields: Fields, key: string, otherwise: string)
    ensures forall s :: StringOr(Get(fields, key), otherwise) == s <==> ReadsAs(fields, key, otherwise, s)
  {
  }

  /**
   The lock is armed or disarmed, an override is logged and a message shown exactly by an object
   of that type without `approved` and `commands`; missing or misshapen texts have their fallbacks.
   */
  lemma ControlsExactlyWhen(v: Value, id: string, s: string)
    ensures HandleMaestroMessage(v) == ArmLock <==> v.Obj? && PlainControl(v.fields, "safety_arm")
    ensures HandleMaestroMessage(v) == DisarmLock(s) <==>
            v.Obj? && PlainControl(v.fields, "safety_disarm") && ReadsAs(v.fields, "reason", "no reason provided", s)
    ensures HandleMaestroMessage(v) == LogOverride(id, s) <==>
            && v.Obj? && PlainControl(v.fields, "safety_override")
            && ReadsAs(v.fields, "task_id", "unknown", id) && ReadsAs(v.fields, "reason", "no reason provided", s)
    ensures HandleMaestroMessage(v) == ShowMessage(s) <==>
            v.Obj? && PlainControl(v.fields, "direct_message") && ReadsAs(v.fields, "text", "", s)
  {
    match v {
      case Obj(fields) =>
        if |fields| == 1 && Get(fields, "task_id").Some? { LoneIdIsLone(fields); }
        ControlMessage(Look(fields));
        StringOrReads(fields, "reason", "no reason provided");
        StringOrReads(fields, "task_id", "unknown");
        StringOrReads(fields, "text", "");
      case Arr(_) =>
      case _ =>
    }
  }

  // ---- Encodings ----

  /** What the dashboard sends; the four control events carry their own type string. */
  datatype OutboundEvent =
    | TaskResolved(taskId: string, approved: bool)
    | PlanSubmission(taskId: string, description: string, commands: seq<string>)
    | SafetyArm(ty: string)
    | SafetyDisarm(ty: string, reason: string)
    | SafetyOverride(ty: string, taskId: string, reason: string)
    | DirectMessage(ty: string, text: string)

  datatype MaestroMessage = PlanMessage(plan: ExecutionPlan) | QueryMessage(taskId: string)

  function StrItems(commands: seq<string>): seq<Value> {
    if commands == [] then [] else [Str(commands[0])] + StrItems(commands[1..])
  }

  function PlanFields(taskId: string, description: string, commands: seq<string>): Fields {
    [Field("task_id", Str(taskId)), Field("description", Str(description)), Field("commands", Arr(StrItems(commands)))]
  }

  function Encode(e: OutboundEvent): Fields {
    match e
    case TaskResolved(taskId, approved) => [Field("task_id", Str(taskId)), Field("approved", Bool(approved))]
    case PlanSubmission(taskId, description, commands) => PlanFields(taskId, description, commands)
    case SafetyArm(ty) => [Field("type", Str(ty))]
    case SafetyDisarm(ty, reason) => [Field("type", Str(ty)), Field("reason", Str(reason))]
    case SafetyOverride(ty, taskId, reason) =>
      [Field("type", Str(ty)), Field("task_id", Str(taskId)), Field("reason", Str(reason))]
    case DirectMessage(ty, text) => [Field("type", Str(ty)), Field("text", Str(text))]
  }

  function EncodeMaestro(m: MaestroMessage): Fields {
    match m
    case PlanMessage(plan) =>
      [Field("type", Str("execution_plan"))] + PlanFields(plan.taskId, plan.description, plan.commands)
    case QueryMessage(taskId) => [Field("type", Str("task_query")), Field("task_id", Str(taskId))]
  }

  function EncodeBareQuery(taskId: string): Fields {
    [Field("task_id", Str(taskId))]
  }

  function Intended(e: OutboundEvent): Action {
    match e
    case TaskResolved(taskId, approved) => ResolveTask(taskId, approved)
    case PlanSubmission(taskId, description, commands) => SubmitPlan(ExecutionPlan(taskId, description, commands))
    case SafetyArm(_) => ArmLock
    case SafetyDisarm(_, reason) => DisarmLock(reason)
    case SafetyOverride(_, taskId, reason) => LogOverride(taskId, reason)
    case DirectMessage(_, text) => ShowMessage(text)
  }

  /** The type string that belongs into a control event. */
  predicate ProperType(e: OutboundEvent) {
    match e
    case SafetyArm(ty) => ty == "safety_arm"
    case SafetyDisarm(ty, _) => ty == "safety_disarm"
    case SafetyOverride(ty, _, _) => ty == "safety_override"
    case DirectMessage(ty, _) => ty == "direct_message"
    case _ => true
  }

  /** The keys the handler asks for are pairwise different. */
  lemma KeysDiffer()
    ensures "type" != "approved" && "type" != "task_id" && "type" != "description" && "type" != "commands"
            && "type" != "reason" && "type" != "text"
    ensures "approved" != "task_id" && "approved" != "description" && "approved" != "commands"
            && "approved" != "reason" && "approved" != "text"
    ensures "task_id" != "description" && "task_id" != "commands" && "task_id" != "reason" && "task_id" != "text"
    ensures "description" != "commands" && "description" != "reason" && "description" != "text"
    ensures "commands" != "reason" && "commands" != "text" && "reason" != "text"
  {
    assert "type"[1] != "text"[1] && "approved"[0] != "commands"[0];
  }

  /** One more field in front of an object. */
  function Put(field: Field, m: Message): Message {
    var v, n := Some(field.value), m.(size := m.size + 1);
    if field.key == "type" then n.(ty := v)
    else if field.key == "approved" then n.(approved := v)
    else if field.key == "task_id" then n.(taskId := v)
    else if field.key == "description" then n.(description := v)
    else if field.key == "commands" then n.(commands := v)
    else if field.key == "reason" then n.(reason := v)
    else if field.key == "text" then n.(text := v)
    else n
  }

  lemma LookCons(field: Field, rest: Fields)
    ensures Look([field] + rest) == Put(field, Look(rest))
  {
    KeysDiffer();
    assert ([field] + rest)[1..] == rest;
  }

  lemma LookOne(a: Field)
    ensures Look([a]) == Put(a, NOTHING)
  {
    assert [a] == [a] + [];
    LookCons(a, []);
  }

  lemma LookTwo(a: Field, b: Field)
    ensures Look([a, b]) == Put(a, Put(b, NOTHING))
  {
    assert [a, b] == [a] + [b];
    LookCons(a, [b]);
    LookOne(b);
  }

  lemma LookThree(a: Field, b: Field, c: Field)
    ensures Look([a, b, c]) == Put(a, Put(b, Put(c, NOTHING)))
  {
    assert [a, b, c] == [a] + [b, c];
    LookCons(a, [b, c]);
    LookTwo(b, c);
  }

  lemma LookPlan(taskId: string, description: string, commands: seq<string>)
    ensures Look(PlanFields(taskId, description, commands)) ==
            NOTHING.(taskId := Some(Str(taskId)), description := Some(Str(description)),
                     commands := Some(Arr(StrItems(commands))), size := 3)
  {
    KeysDiffer();
    LookThree(Field("task_id", Str(taskId)), Field("description", Str(description)),
              Field("commands", Arr(StrItems(commands))));
  }

  lemma ControlArrives(e: OutboundEvent, m: Message)
    requires e.SafetyArm? || e.SafetyDisarm? || e.SafetyOverride? || e.DirectMessage?
    requires m == NOTHING.(ty := Some(Str(e.ty)),
                           taskId := if e.SafetyOverride? then Some(Str(e.taskId)) else None,
                           reason := if e.SafetyDisarm? || e.SafetyOverride? then Some(Str(e.reason)) else None,
                           text := if e.DirectMessage? then Some(Str(e.text)) else None,
                           size := m.size)
    requires m.size == 1 ==> m.taskId.None?
    ensures Handle(m, ParseMaestro(m)) == Intended(e) <==> ProperType(e)
  {
  }

  /** Arbitrary strings in, the intended action out, for every event the dashboard can send. */
  lemma OutboundEventsArrive(e: OutboundEvent)
    ensures HandleMaestroMessage(Obj(Encode(e))) == Intended(e) <==> ProperType(e)
  {
    KeysDiffer();
    match e {
      case TaskResolved(taskId, approved) => LookTwo(Field("task_id", Str(taskId)), Field("approved", Bool(approved)));
      case PlanSubmission(taskId, description, commands) =>
        LookPlan(taskId, description, commands);
        StringsInvert(StrItems(commands), commands);
      case SafetyArm(ty) =>
        LookOne(Field("type", Str(ty)));
        ControlArrives(e, Look(Encode(e)));
      case SafetyDisarm(ty, reason) =>
        LookTwo(Field("type", Str(ty)), Field("reason", Str(reason)));
        ControlArrives(e, Look(Encode(e)));
      case SafetyOverride(ty, taskId, reason) =>
        LookThree(Field("type", Str(ty)), Field("task_id", Str(taskId)), Field("reason", Str(reason)));
        ControlArrives(e, Look(Encode(e)));
      case DirectMessage(ty, text) =>
        LookTwo(Field("type", Str(ty)), Field("text", Str(text)));
        ControlArrives(e, Look(Encode(e)));
    }
  }

  /** Typed messages arrive as what they are. */
  lemma MaestroMessagesArrive(m: MaestroMessage)
    ensures HandleMaestroMessage(Obj(EncodeMaestro(m))) ==
            match m case PlanMessage(plan) => SubmitPlan(plan) case QueryMessage(taskId) => QueryTask(taskId)
  {
    KeysDiffer();
    match m {
      case PlanMessage(plan) =>
        LookPlan(plan.taskId, plan.description, plan.commands);
        LookCons(Field("type", Str("execution_plan")), PlanFields(plan.taskId, plan.description, plan.commands));
        StringsInvert(StrItems(plan.commands), plan.commands);
      case QueryMessage(taskId) =>
        LookTwo(Field("type", Str("task_query")), Field("task_id", Str(taskId)));
        assert "execution_plan"[0] != "task_query"[0];
    }
  }

  /** A bare query arrives as a query. */
  lemma BareQueriesArrive(taskId: string)
    ensures HandleMaestroMessage(Obj(EncodeBareQuery(taskId))) == QueryTask(taskId)
  {
    KeysDiffer();
    LookOne(Field("task_id", Str(taskId)));
  }
}
