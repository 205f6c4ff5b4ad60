/**
 The registry of agents that wait for a human decision. Every registration owns a one-shot
 channel; registering an id again drops the sender of the earlier registration. A waiter is
 answered by what its channel delivers or, if its task is delegable, by a full timeout of
 silence. One poll of a waiter is one step.
 */
module Waiters {
  import opened Wrappers

  datatype Channel = Open | Sent(approved: bool) | SenderDropped

  datatype Waiter = Waiter(id: string, delegable: bool, since: Option<nat>, channel: Channel, answer: Option<bool>)

  /** `pending` maps an id to the number of its current registration. */
  datatype Registry = Registry(pending: map<string, nat>, waiters: seq<Waiter>, clock: nat)

  datatype Event =
    | Advance(d: nat)
    | Register(id: string, delegable: bool)
    | Inbound(id: string, approved: bool)
    | BeginAwait(n: nat)
    | Receive(n: nat)
    | TimeOut(n: nat)

  function Init(): Registry {
    Registry(map[], [], 0)
  }

  predicate Polling(s: Registry, n: nat) {
    n < |s.waiters| && s.waiters[n].since.Some? && s.waiters[n].answer.None?
  }

  predicate Silent(timeout: nat, s: Registry, n: nat) {
    && Polling(s, n)
    && s.waiters[n].delegable
    && s.waiters[n].channel == Open
    && s.waiters[n].since.value + timeout <= s.clock
  }

  predicate Enabled(timeout: nat, s: Registry, e: Event) {
    match e
    case BeginAwait(n) => n < |s.waiters| && s.waiters[n].since.None?
    case Receive(n) => Polling(s, n) && s.waiters[n].channel != Open
    case TimeOut(n) => Silent(timeout, s, n)
    case _ => true
  }

  function SetChannel(waiters: seq<Waiter>, n: nat, channel: Channel): seq<Waiter> {
    if n < |waiters| then waiters[n := waiters[n].(channel := channel)] else waiters
  }

  function AfterRegister(s: Registry, id: string, delegable: bool): Registry {
    var kept := if id in s.pending then SetChannel(s.waiters, s.pending[id], SenderDropped) else s.waiters;
    s.(pending := s.pending[id := |s.waiters|], waiters := kept + [Waiter(id, delegable, None, Open, None)])
  }

  function AfterResolve(s: Registry, id: string, approved: bool): Registry {
    if id !in s.pending then s
    else s.(pending := s.pending - {id}, waiters := SetChannel(s.waiters, s.pending[id], Sent(approved)))
  }

  /** What an await returns when its channel has something to say: a dropped sender denies. */
  function Delivered(channel: Channel): bool {
    channel == Sent(true)
  }

  function Apply(s: Registry, e: Event): Registry {
    match e
    case Advance(d) => s.(clock := s.clock + d)
    case Register(id, delegable) => AfterRegister(s, id, delegable)
    case Inbound(id, approved) => AfterResolve(s, id, approved)
    case BeginAwait(n) =>
      if n < |s.waiters| then s.(waiters := s.waiters[n := s.waiters[n].(since := Some(s.clock))]) else s
    case Receive(n) =>
      if n < |s.waiters| then
        var w := s.waiters[n];
        s.(waiters := s.waiters[n := w.(answer := Some(Delivered(w.channel)))])
      else s
    case TimeOut(n) =>
      if n < |s.waiters| then s.(waiters := s.waiters[n := s.waiters[n].(answer := Some(true))]) else s
  }

  function Run(events: seq<Event>): Registry {
    if events == [] then Init() else Apply(Run(events[..|events| - 1]), events[|events| - 1])
  }

  predicate Legal(timeout: nat, events: seq<Event>) {
    events != [] ==>
      && Legal(timeout, events[..|events| - 1])
      && Enabled(timeout, Run(events[..|events| - 1]), events[|events| - 1])
  }

  // ---- The registry as the source keeps it ----

  class ActiveTasks {
    var pending: map<string, nat>
    var waiters: seq<Waiter>
    var clock: nat

    ghost function Model(): Registry
      reads this
    {
      Registry(pending, waiters, clock)
    }

    constructor ()
      ensures Model() == Init()
    {
      pending, waiters, clock := map[], [], 0;
    }

    /** Creates a channel for the task and registers its sender; the receiver is known by `rx`. */
    method RegisterTask(id: string, delegable: bool) returns (rx: nat)
      modifies this
      ensures Model() == Apply(old(Model()), Register(id, delegable))
      ensures rx == |old(waiters)| && pending == old(pending)[id := rx]
      ensures |waiters| == rx + 1 && waiters[rx] == Waiter(id, delegable, None, Open, None)
    {
      rx := |waiters|;
      if id in pending {
        waiters := SetChannel(waiters, pending[id], SenderDropped);
      }
      pending := pending[id := rx];
      waiters := waiters + [Waiter(id, delegable, None, Open, None)];
    }

    method Resolve(id: string, approved: bool) returns (r: Option<()>)
      modifies this
      ensures Model() == Apply(old(Model()), Inbound(id, approved))
      ensures r.Some? <==> id in old(pending)
    {
      if id !in pending {
        return None;
      }
      var n := pending[id];
      pending := pending - {id};
      waiters := SetChannel(waiters, n, Sent(approved));
      return Some(());
    }

    /** A line that does not parse changes nothing; one that does is reported as resolved even if nobody waited. */
    method HandleInbound(line: Option<(string, bool)>) returns (r: Result<Option<string>, ()>)
      modifies this
      ensures line.None? ==> r == Err(()) && Model() == old(Model())
      ensures line.Some? ==> r == Ok(Some(line.value.0))
      ensures line.Some? ==> Model() == Apply(old(Model()), Inbound(line.value.0, line.value.1))
    {
      if line.None? {
        return Err(());
      }
      var _ := Resolve(line.value.0, line.value.1);
      return Ok(Some(line.value.0));
    }
  }

  // ---- What every run keeps ----

  /** A channel is open exactly while its registration is the current one for its id. */
  ghost predicate Consistent(s: Registry) {
    && (forall id | id in s.pending :: s.pending[id] < |s.waiters| && s.waiters[s.pending[id]].id == id)
    && (forall n | 0 <= n < |s.waiters| ::
          s.waiters[n].channel == Open <==> s.waiters[n].id in s.pending && s.pending[s.waiters[n].id] == n)
  }

  lemma RegisterConsistent(s: Registry, id: string, delegable: bool)
    requires Consistent(s)
    ensures Consistent(AfterRegister(s, id, delegable))
  {
    var kept := if id in s.pending then SetChannel(s.waiters, s.pending[id], SenderDropped) else s.waiters;
    forall n | 0 <= n < |kept|
      ensures kept[n].channel == Open <==> kept[n].id != id && kept[n].id in s.pending && s.pending[kept[n].id] == n
    {
      assert kept[n].id == s.waiters[n].id;
    }
  }

  lemma ResolveConsistent(s: Registry, id: string, approved: bool)
    requires Consistent(s)
    ensures Consistent(AfterResolve(s, id, approved))
  {
    var s' := AfterResolve(s, id, approved);
    forall n | 0 <= n < |s'.waiters|
      ensures s'.waiters[n].channel == Open <==> s'.waiters[n].id in s'.pending && s'.pending[s'.waiters[n].id] == n
    {
      assert s'.waiters[n].id == s.waiters[n].id;
    }
  }

  /** Polling a waiter touches neither its id nor its channel. */
  lemma PollConsistent(s: Registry, n: nat, w: Waiter)
    requires Consistent(s) && n < |s.waiters| && w.id == s.waiters[n].id && w.channel == s.waiters[n].channel
    ensures Consistent(s.(waiters := s.waiters[n := w]))
  {
  }

  lemma StepConsistent(s: Registry, e: Event)
    requires Consistent(s)
    ensures Consistent(Apply(s, e))
  {
    match e {
      case Advance(_) =>
      case Register(id, delegable) => RegisterConsistent(s, id, delegable);
      case Inbound(id, approved) => ResolveConsistent(s, id, approved);
      case BeginAwait(n) =>
        if n < |s.waiters| { PollConsistent(s, n, Apply(s, e).waiters[n]); }
      case Receive(n) =>
        if n < |s.waiters| { PollConsistent(s, n, Apply(s, e).waiters[n]); }
      case TimeOut(n) =>
        if n < |s.waiters| { PollConsistent(s, n, Apply(s, e).waiters[n]); }
    }
  }

  lemma {:induction false} RunConsistent(events: seq<Event>)
    ensures Consistent(Run(events))
  {
    if events != [] {
      RunConsistent(events[..|events| - 1]);
      StepConsistent(Run(events[..|events| - 1]), events[|events| - 1]);
    }
  }

  lemma StepKeepsAnswer(timeout: nat, s: Registry, e: Event, n: nat)
    requires Enabled(timeout, s, e) && n < |s.waiters|
    ensures var s' := Apply(s, e);
            && n < |s'.waiters|
            && s'.waiters[n].id == s.waiters[n].id
            && s'.waiters[n].delegable == s.waiters[n].delegable
            && (s.waiters[n].answer.Some? ==> s'.waiters[n].answer == s.waiters[n].answer)
  {
  }

  /** A waiter keeps its task, and however a run goes on its answer is never revised. */
  lemma {:induction false} AnswersAreFinal(timeout: nat, events: seq<Event>, k: nat, n: nat)
    requires Legal(timeout, events) && k <= |events| && n < |Run(events[..k]).waiters|
    ensures n < |Run(events).waiters|
    ensures var w, w' := Run(events[..k]).waiters[n], Run(events).waiters[n];
            w'.id == w.id && w'.delegable == w.delegable && (w.answer.Some? ==> w'.answer == w.answer)
  {
    if k == |events| {
      assert events[..k] == events;
    } else {
      var m := |events| - 1;
      assert events[..m][..k] == events[..k];
      AnswersAreFinal(timeout, events[..m], k, n);
      StepKeepsAnswer(timeout, Run(events[..m]), events[m], n);
    }
  }

  // ---- Where a channel's content and an answer come from ----

  /** Event `i` was a decision on the id of waiter `n` while `n` was the current registration of that id. */
  predicate DecidedAt(events: seq<Event>, i: nat, n: nat, approved: bool) {
    && i < |events|
    && var s := Run(events[..i]);
       && n < |s.waiters|
       && events[i] == Inbound(s.waiters[n].id, approved)
       && s.waiters[n].id in s.pending
       && s.pending[s.waiters[n].id] == n
  }

  /** Event `i` registered the id of waiter `n` again while `n` was its current registration. */
  predicate SupersededAt(events: seq<Event>, i: nat, n: nat) {
    && i < |events|
    && var s := Run(events[..i]);
       && n < |s.waiters|
       && events[i].Register?
       && events[i].id == s.waiters[n].id
       && s.waiters[n].id in s.pending
       && s.pending[s.waiters[n].id] == n
  }

  /** Event `i` made registration `n`. */
  predicate RegisteredAt(events: seq<Event>, i: nat, n: nat) {
    i < |events| && events[i].Register? && |Run(events[..i]).waiters| == n
  }

  /** Event `k` began to wait on registration `n`. */
  predicate BeganAt(events: seq<Event>, k: nat, n: nat) {
    k < |events| && events[k] == BeginAwait(n) && n < |Run(events[..k]).waiters|
  }

  /** The wait on registration `n` began at least a timeout before the end of the run. */
  ghost predicate WaitedOut(timeout: nat, events: seq<Event>, n: nat) {
    exists k: nat :: BeganAt(events, k, n) && Run(events[..k]).clock + timeout <= Run(events).clock
  }

  /** Event `i` ended a full timeout of waiting during which nothing had reached waiter `n`. */
  ghost predicate TimedOutAt(timeout: nat, events: seq<Event>, i: nat, n: nat) {
    && i < |events| && events[i] == TimeOut(n)
    && n < |Run(events[..i]).waiters| && Run(events[..i]).waiters[n].channel == Open
    && WaitedOut(timeout, events[..i], n)
  }

  ghost predicate ChannelExplained(events: seq<Event>, n: nat, channel: Channel) {
    match channel
    case Open => true
    case Sent(approved) => exists i: nat :: DecidedAt(events, i, n, approved)
    case SenderDropped => exists i: nat :: SupersededAt(events, i, n)
  }

  lemma ExplanationLasts(events: seq<Event>, n: nat, channel: Channel)
    requires events != [] && ChannelExplained(events[..|events| - 1], n, channel)
    ensures ChannelExplained(events, n, channel)
  {
    var front := events[..|events| - 1];
    match channel {
      case Open =>
      case Sent(approved) =>
        var i: nat :| DecidedAt(front, i, n, approved);
        assert front[..i] == events[..i];
        assert DecidedAt(events, i, n, approved);
      case SenderDropped =>
        var i: nat :| SupersededAt(front, i, n);
        assert front[..i] == events[..i];
        assert SupersededAt(events, i, n);
    }
  }

  /** A channel changes only through a decision on, or a new registration of, an id it is current for. */
  lemma ChannelChange(s: Registry, e: Event, n: nat)
    requires Consistent(s) && n < |s.waiters|
    ensures var w, w' := s.waiters[n], Apply(s, e).waiters[n];
            w'.channel == w.channel
            || (w.id in s.pending && s.pending[w.id] == n
                && ((e.Register? && e.id == w.id && w'.channel == SenderDropped)
                    || (w'.channel.Sent? && e == Inbound(w.id, w'.channel.approved))))
  {
  }

  lemma {:induction false} ChannelsAreExplained(events: seq<Event>, n: nat)
    requires n < |Run(events).waiters|
    ensures ChannelExplained(events, n, Run(events).waiters[n].channel)
  {
    if events != [] {
      var m := |events| - 1;
      var s := Run(events[..m]);
      RunConsistent(events[..m]);
      if n < |s.waiters| {
        ChannelsAreExplained(events[..m], n);
        ChannelChange(s, events[m], n);
        var channel := Run(events).waiters[n].channel;
        if channel == s.waiters[n].channel {
          ExplanationLasts(events, n, channel);
        } else if channel.Sent? {
          assert DecidedAt(events, m, n, channel.approved);
        } else {
          assert SupersededAt(events, m, n);
        }
      }
    }
  }

  // ---- Registrations and waits ----

  /** Registration `n` keeps, for the rest of the run, what its event said. */
  lemma {:induction false} RegistrationFixes(events: seq<Event>, i: nat, n: nat)
    requires RegisteredAt(events, i, n)
    ensures n < |Run(events).waiters|
    ensures Run(events).waiters[n].id == events[i].id && Run(events).waiters[n].delegable == events[i].delegable
  {
    var m := |events| - 1;
    if i < m {
      assert events[..m][..i] == events[..i];
      RegistrationFixes(events[..m], i, n);
      StepKeepsTask(Run(events[..m]), events[m], n);
    }
  }

  lemma StepKeepsTask(s: Registry, e: Event, n: nat)
    requires n < |s.waiters|
    ensures n < |Apply(s, e).waiters|
    ensures Apply(s, e).waiters[n].id == s.waiters[n].id && Apply(s, e).waiters[n].delegable == s.waiters[n].delegable
  {
  }

  lemma {:induction false} EveryWaiterWasRegistered(events: seq<Event>, n: nat) returns (i: nat)
    requires n < |Run(events).waiters|
    ensures RegisteredAt(events, i, n)
  {
    var m := |events| - 1;
    if n < |Run(events[..m]).waiters| {
      i := EveryWaiterWasRegistered(events[..m], n);
      assert events[..m][..i] == events[..i];
    } else {
      i := m;
    }
  }

  lemma StepKeepsSince(s: Registry, e: Event, n: nat)
    requires n < |s.waiters| && e != BeginAwait(n)
    ensures n < |Apply(s, e).waiters| && Apply(s, e).waiters[n].since == s.waiters[n].since
  {
  }

  /** A waiter waits since the event that began its wait. */
  lemma {:induction false} WaitBegan(events: seq<Event>, n: nat) returns (k: nat)
    requires n < |Run(events).waiters| && Run(events).waiters[n].since.Some?
    ensures BeganAt(events, k, n) && Run(events).waiters[n].since == Some(Run(events[..k]).clock)
  {
    var m := |events| - 1;
    if events[m] == BeginAwait(n) {
      k := m;
    } else {
      if n < |Run(events[..m]).waiters| { StepKeepsSince(Run(events[..m]), events[m], n); }
      k := WaitBegan(events[..m], n);
      assert events[..m][..k] == events[..k];
    }
  }

  lemma {:induction false} BeganOnce(timeout: nat, events: seq<Event>, k: nat, n: nat)
    requires Legal(timeout, events) && BeganAt(events, k, n)
    ensures n < |Run(events).waiters| && Run(events).waiters[n].since == Some(Run(events[..k]).clock)
  {
    var m := |events| - 1;
    if k < m {
      assert events[..m][..k] == events[..k];
      BeganOnce(timeout, events[..m], k, n);
      StepKeepsSince(Run(events[..m]), events[m], n);
    }
  }

  lemma WaitedOutMeaning(timeout: nat, events: seq<Event>, n: nat)
    requires Legal(timeout, events) && n < |Run(events).waiters| && Run(events).waiters[n].since.Some?
    ensures WaitedOut(timeout, events, n) <==>
            Run(events).waiters[n].since.value + timeout <= Run(events).clock
  {
    var k := WaitBegan(events, n);
    if j: nat :| BeganAt(events, j, n) && Run(events[..j]).clock + timeout <= Run(events).clock {
      BeganOnce(timeout, events, j, n);
    }
  }

  function TimePassed(events: seq<Event>): nat {
    if events == [] then 0
    else TimePassed(events[..|events| - 1]) + match events[|events| - 1] case Advance(d) => d case _ => 0
  }

  lemma {:induction false} ClockIsTimePassed(events: seq<Event>)
    ensures Run(events).clock == TimePassed(events)
  {
    if events != [] {
      ClockIsTimePassed(events[..|events| - 1]);
    }
  }

  // ---- What a channel holds, exactly ----

  lemma StepKeepsClosed(s: Registry, e: Event, n: nat)
    requires Consistent(s) && n < |s.waiters| && s.waiters[n].channel != Open
    ensures n < |Apply(s, e).waiters| && Apply(s, e).waiters[n].channel == s.waiters[n].channel
  {
    ChannelChange(s, e, n);
  }

  lemma {:induction false} DecisionStays(events: seq<Event>, i: nat, n: nat, approved: bool)
    requires DecidedAt(events, i, n, approved)
    ensures n < |Run(events).waiters| && Run(events).waiters[n].channel == Sent(approved)
  {
    var m := |events| - 1;
    if i < m {
      assert events[..m][..i] == events[..i];
      DecisionStays(events[..m], i, n, approved);
      RunConsistent(events[..m]);
      StepKeepsClosed(Run(events[..m]), events[m], n);
    }
  }

  lemma {:induction false} SupersedingStays(events: seq<Event>, i: nat, n: nat)
    requires SupersededAt(events, i, n)
    ensures n < |Run(events).waiters| && Run(events).waiters[n].channel == SenderDropped
  {
    var m := |events| - 1;
    if i < m {
      assert events[..m][..i] == events[..i];
      SupersedingStays(events[..m], i, n);
      RunConsistent(events[..m]);
      StepKeepsClosed(Run(events[..m]), events[m], n);
    }
  }

  /**
   A channel holds a decision exactly when that decision arrived while its registration was the
   current one, and has lost its sender exactly when the id was registered again meanwhile.
   */
  lemma ChannelsHoldExactly(events: seq<Event>, n: nat)
    requires n < |Run(events).waiters|
    ensures forall approved :: Run(events).waiters[n].channel == Sent(approved) <==>
              exists i: nat :: DecidedAt(events, i, n, approved)
    ensures Run(events).waiters[n].channel == SenderDropped <==> exists i: nat :: SupersededAt(events, i, n)
  {
    ChannelsAreExplained(events, n);
    forall approved, i: nat | DecidedAt(events, i, n, approved)
      ensures Run(events).waiters[n].channel == Sent(approved)
    {
      DecisionStays(events, i, n, approved);
    }
    forall i: nat | SupersededAt(events, i, n)
      ensures Run(events).waiters[n].channel == SenderDropped
    {
      SupersedingStays(events, i, n);
    }
  }

  // ---- Where an answer comes from ----

  ghost predicate AnswerExplained(timeout: nat, events: seq<Event>, n: nat, delegable: bool, answer: bool) {
    || (exists i: nat :: DecidedAt(events, i, n, answer))
    || (!answer && exists i: nat :: SupersededAt(events, i, n))
    || (answer && delegable && exists i: nat :: TimedOutAt(timeout, events, i, n))
  }

  lemma AnswerExplanationLasts(timeout: nat, events: seq<Event>, n: nat, delegable: bool, answer: bool)
    requires events != [] && AnswerExplained(timeout, events[..|events| - 1], n, delegable, answer)
    ensures AnswerExplained(timeout, events, n, delegable, answer)
  {
    var front := events[..|events| - 1];
    if i: nat :| DecidedAt(front, i, n, answer) {
      assert front[..i] == events[..i];
      assert DecidedAt(events, i, n, answer);
    } else if i: nat :| !answer && SupersededAt(front, i, n) {
      assert front[..i] == events[..i];
      assert SupersededAt(events, i, n);
    } else {
      var i: nat :| TimedOutAt(timeout, front, i, n);
      assert front[..i] == events[..i];
      assert TimedOutAt(timeout, events, i, n);
    }
  }

  /** An answer that appears in a step comes from a timeout or from what the channel delivers. */
  lemma NewAnswer(timeout: nat, s: Registry, e: Event, n: nat)
    requires Enabled(timeout, s, e) && n < |s.waiters|
    requires s.waiters[n].answer.None? && Apply(s, e).waiters[n].answer.Some?
    ensures var w, w' := s.waiters[n], Apply(s, e).waiters[n];
            || (e == TimeOut(n) && Silent(timeout, s, n) && w.delegable && w'.answer == Some(true))
            || (e == Receive(n) && w'.channel == w.channel != Open && w'.answer == Some(Delivered(w.channel)))
  {
  }

  lemma DeliveredIsExplained(timeout: nat, events: seq<Event>, n: nat, delegable: bool, channel: Channel)
    requires channel != Open && ChannelExplained(events, n, channel)
    ensures AnswerExplained(timeout, events, n, delegable, Delivered(channel))
  {
  }

  lemma SilenceIsTimeout(timeout: nat, events: seq<Event>, n: nat)
    requires Legal(timeout, events) && events != [] && events[|events| - 1] == TimeOut(n)
    ensures TimedOutAt(timeout, events, |events| - 1, n)
  {
    WaitedOutMeaning(timeout, events[..|events| - 1], n);
  }

  lemma {:induction false} EveryAnswerIsExplained(timeout: nat, events: seq<Event>, n: nat)
    requires Legal(timeout, events)
    requires n < |Run(events).waiters| && Run(events).waiters[n].answer.Some?
    ensures var w := Run(events).waiters[n]; AnswerExplained(timeout, events, n, w.delegable, w.answer.value)
  {
    if events != [] {
      var m := |events| - 1;
      var s, w := Run(events[..m]), Run(events).waiters[n];
      if n < |s.waiters| {
        StepKeepsAnswer(timeout, s, events[m], n);
        if s.waiters[n].answer.Some? {
          EveryAnswerIsExplained(timeout, events[..m], n);
          AnswerExplanationLasts(timeout, events, n, w.delegable, w.answer.value);
        } else {
          NewAnswer(timeout, s, events[m], n);
          if events[m] == TimeOut(n) {
            SilenceIsTimeout(timeout, events, n);
          } else {
            ChannelsAreExplained(events, n);
            DeliveredIsExplained(timeout, events, n, w.delegable, w.channel);
          }
        }
      }
    }
  }

  /**
   Every answer has its reason: the human's decision, received while this was the current
   registration of its id; or a denial because the id was registered again; or, only if event `i`
   registered it as delegable, an approval after a full timeout of silence. In particular a task
   registered as not delegable is told yes only by the human.
   */
  lemma AnswersAreExplained(timeout: nat, events: seq<Event>, i: nat, n: nat)
    requires Legal(timeout, events) && RegisteredAt(events, i, n)
    requires n < |Run(events).waiters| && Run(events).waiters[n].answer.Some?
    ensures AnswerExplained(timeout, events, n, events[i].delegable, Run(events).waiters[n].answer.value)
    ensures !events[i].delegable && Run(events).waiters[n].answer.value ==>
              exists j: nat :: DecidedAt(events, j, n, true)
  {
    RegistrationFixes(events, i, n);
    EveryAnswerIsExplained(timeout, events, n);
  }

  /**
   A waiting task can be answered exactly when a decision or a new registration has reached its
   registration, or it was registered as delegable and a full timeout has passed since its wait
   began.
   */
  lemma AnswerIsReadyExactlyWhen(timeout: nat, events: seq<Event>, i: nat, n: nat)
    requires Legal(timeout, events) && RegisteredAt(events, i, n) && Polling(Run(events), n)
    ensures Enabled(timeout, Run(events), Receive(n)) || Enabled(timeout, Run(events), TimeOut(n)) <==>
            || (exists j: nat :: DecidedAt(events, j, n, true))
            || (exists j: nat :: DecidedAt(events, j, n, false))
            || (exists j: nat :: SupersededAt(events, j, n))
            || (events[i].delegable && WaitedOut(timeout, events, n))
  {
    RegistrationFixes(events, i, n);
    WaitedOutMeaning(timeout, events, n);
    ChannelsHoldExactly(events, n);
    var channel := Run(events).waiters[n].channel;
    assert channel == Sent(true) <==> exists j: nat :: DecidedAt(events, j, n, true);
    assert channel == Sent(false) <==> exists j: nat :: DecidedAt(events, j, n, false);
    assert channel == Open || channel == SenderDropped || channel == Sent(true) || channel == Sent(false);
  }

  // ---- Conservation ----

  datatype Fates = Fates(open: nat, resolved: nat, superseded: nat)

  function Tally(waiters: seq<Waiter>): Fates {
    if waiters == [] then Fates(0, 0, 0)
    else
      var n := |waiters| - 1;
      var f := Tally(waiters[..n]);
      match waiters[n].channel
      case Open => f.(open := f.open + 1)
      case Sent(_) => f.(resolved := f.resolved + 1)
      case SenderDropped => f.(superseded := f.superseded + 1)
  }

  lemma {:induction false} TallySums(waiters: seq<Waiter>)
    ensures Tally(waiters).open + Tally(waiters).resolved + Tally(waiters).superseded == |waiters|
  {
    if waiters != [] {
      TallySums(waiters[..|waiters| - 1]);
    }
  }

  lemma {:induction false} TallyUpdate(waiters: seq<Waiter>, n: nat, w: Waiter)
    requires n < |waiters|
    ensures Tally(waiters[n := w]).open + One(waiters[n].channel == Open) ==
            Tally(waiters).open + One(w.channel == Open)
  {
    var m := |waiters| - 1;
    if n < m {
      TallyUpdate(waiters[..m], n, w);
      assert waiters[n := w][..m] == waiters[..m][n := w];
    } else {
      assert waiters[n := w][..m] == waiters[..m];
    }
  }

  lemma TallyPush(waiters: seq<Waiter>, w: Waiter)
    ensures Tally(waiters + [w]).open == Tally(waiters).open + One(w.channel == Open)
  {
    assert (waiters + [w])[..|waiters|] == waiters;
  }

  lemma RegisterCounts(s: Registry, id: string, delegable: bool)
    requires Consistent(s) && Tally(s.waiters).open == |s.pending|
    ensures var s' := AfterRegister(s, id, delegable); Tally(s'.waiters).open == |s'.pending|
  {
    var kept := if id in s.pending then SetChannel(s.waiters, s.pending[id], SenderDropped) else s.waiters;
    TallyPush(kept, Waiter(id, delegable, None, Open, None));
    CardinalityOfKeys(s.pending);
    CardinalityOfKeys(s.pending[id := |s.waiters|]);
    if id in s.pending {
      TallyUpdate(s.waiters, s.pending[id], s.waiters[s.pending[id]].(channel := SenderDropped));
      assert s.pending[id := |s.waiters|].Keys == s.pending.Keys;
    } else {
      assert s.pending[id := |s.waiters|].Keys == s.pending.Keys + {id};
    }
  }

  lemma ResolveCounts(s: Registry, id: string, approved: bool)
    requires Consistent(s) && Tally(s.waiters).open == |s.pending|
    ensures var s' := AfterResolve(s, id, approved); Tally(s'.waiters).open == |s'.pending|
  {
    if id in s.pending {
      TallyUpdate(s.waiters, s.pending[id], s.waiters[s.pending[id]].(channel := Sent(approved)));
      assert (s.pending - {id}).Keys == s.pending.Keys - {id};
      CardinalityOfKeys(s.pending);
      CardinalityOfKeys(s.pending - {id});
    }
  }

  lemma StepCounts(s: Registry, e: Event)
    requires Consistent(s) && Tally(s.waiters).open == |s.pending|
    ensures Tally(Apply(s, e).waiters).open == |Apply(s, e).pending|
  {
    match e {
      case Advance(_) =>
      case Register(id, delegable) => RegisterCounts(s, id, delegable);
      case Inbound(id, approved) => ResolveCounts(s, id, approved);
      case BeginAwait(n) =>
        if n < |s.waiters| { TallyUpdate(s.waiters, n, Apply(s, e).waiters[n]); }
      case Receive(n) =>
        if n < |s.waiters| { TallyUpdate(s.waiters, n, Apply(s, e).waiters[n]); }
      case TimeOut(n) =>
        if n < |s.waiters| { TallyUpdate(s.waiters, n, Apply(s, e).waiters[n]); }
    }
  }

  lemma CardinalityOfKeys(m: map<string, nat>)
    ensures |m| == |m.Keys|
  {
  }

  /** Every registration was resolved, superseded, or is still in the registry. */
  lemma {:induction false} RegistrationsAreConserved(events: seq<Event>)
    ensures var s := Run(events);
            var f := Tally(s.waiters);
            && f.open == |s.pending|
            && |s.waiters| == f.resolved + f.superseded + |s.pending|
  {
    if events != [] {
      var m := |events| - 1;
      RegistrationsAreConserved(events[..m]);
      RunConsistent(events[..m]);
      StepCounts(Run(events[..m]), events[m]);
    }
    TallySums(Run(events).waiters);
  }
}
