/** What the classification of a plan means, and how it reacts to changes of plan and of configuration. */
module CriteriaMeaning {
  import opened Wrappers
  import opened Criteria
  import opened Symbols

  // ---- The criteria reported ----

  /** The position of the first list that holds `c`, or the number of lists. */
  function FirstIn(lists: seq<seq<Criterion>>, c: Criterion): (k: nat)
    ensures k <= |lists|
    ensures k < |lists| ==> c in lists[k]
    ensures forall i | 0 <= i < k :: c !in lists[i]
  {
    if lists == [] then 0
    else
      var n := |lists| - 1;
      var k := FirstIn(lists[..n], c);
      if k < n then k else if c in lists[n] then n else n + 1
  }

  /** `a` is hit by an earlier command than `b`, or by the same one but is tried earlier. */
  predicate Before(lists: seq<seq<Criterion>>, a: Criterion, b: Criterion) {
    || FirstIn(lists, a) < FirstIn(lists, b)
    || (FirstIn(lists, a) == FirstIn(lists, b) && Rank(a) < Rank(b))
  }

  lemma {:induction false} MergeShape(triggered: seq<Criterion>, hits: seq<Criterion>) returns (news: seq<Criterion>)
    requires Increasing(hits)
    ensures Merge(triggered, hits) == triggered + news
    ensures Increasing(news)
    ensures forall c :: c in news <==> c in hits && c !in triggered
  {
    if hits == [] {
      news := [];
    } else {
      var n := |hits| - 1;
      var front := MergeShape(triggered, hits[..n]);
      assert hits == hits[..n] + [hits[n]];
      if hits[n] in Merge(triggered, hits[..n]) {
        news := front;
      } else {
        news := front + [hits[n]];
        forall i | 0 <= i < |front|
          ensures Rank(front[i]) < Rank(hits[n])
        {
          assert front[i] in hits[..n];
        }
      }
    }
  }

  lemma {:induction false} CollectedMeaning(lists: seq<seq<Criterion>>)
    requires forall k | 0 <= k < |lists| :: Increasing(lists[k])
    ensures forall c :: c in Collected(lists) <==> FirstIn(lists, c) < |lists|
    ensures forall i, j | 0 <= i < j < |Collected(lists)| :: Before(lists, Collected(lists)[i], Collected(lists)[j])
  {
    if lists != [] {
      var n := |lists| - 1;
      var before := Collected(lists[..n]);
      CollectedMeaning(lists[..n]);
      var added := MergeShape(before, lists[n]);
      forall i, j | 0 <= i < j < |before + added|
        ensures Before(lists, (before + added)[i], (before + added)[j])
      {
        if j < |before| {
          assert Before(lists[..n], before[i], before[j]);
        } else if i < |before| {
          assert before[i] in before && added[j - |before|] in added;
        } else {
          assert added[i - |before|] in added && added[j - |before|] in added;
        }
      }
    }
  }

  /** The command has a recognised tag, critical or not, and its text hits the criterion. */
  predicate Reports(rx: RegexEngine, cfg: CriteriaConfig, command: string, c: Criterion) {
    ExtractFromCommand(command).0 != CritUnclassified && Hit(rx, cfg, c, Scanned(command))
  }

  /** Command `k` is the first to report the criterion. */
  predicate FirstReport(rx: RegexEngine, cfg: CriteriaConfig, commands: seq<string>, c: Criterion, k: nat) {
    && k < |commands| && Reports(rx, cfg, commands[k], c)
    && forall i | 0 <= i < k :: !Reports(rx, cfg, commands[i], c)
  }

  lemma ReportedHits(rx: RegexEngine, cfg: CriteriaConfig, command: string, c: Criterion)
    ensures c in TaggedHits(rx, cfg, command) <==> Reports(rx, cfg, command, c)
  {
    CleanIs(rx, cfg, command);
    HitsMeaning(rx, cfg, Scanned(command));
  }

  lemma FirstReportIs(rx: RegexEngine, cfg: CriteriaConfig, commands: seq<string>, c: Criterion)
    ensures var k := FirstIn(HitLists(rx, cfg, commands), c);
            && (k < |commands| ==> FirstReport(rx, cfg, commands, c, k))
            && (k == |commands| ==> forall i | 0 <= i < |commands| :: !Reports(rx, cfg, commands[i], c))
  {
    var lists := HitLists(rx, cfg, commands);
    forall i | 0 <= i < |commands|
      ensures c in lists[i] <==> Reports(rx, cfg, commands[i], c)
    {
      ReportedHits(rx, cfg, commands[i], c);
    }
  }

  lemma ListsIncrease(rx: RegexEngine, cfg: CriteriaConfig, commands: seq<string>)
    ensures forall k | 0 <= k < |commands| :: Increasing(HitLists(rx, cfg, commands)[k])
  {
    forall k | 0 <= k < |commands|
      ensures Increasing(HitLists(rx, cfg, commands)[k])
    {
      HitsMeaning(rx, cfg, Scanned(commands[k]));
    }
  }

  /** `triggered` holds exactly the criteria that some command with a recognised tag hits. */
  lemma TriggeredMeaning(rx: RegexEngine, cfg: CriteriaConfig, commands: seq<string>, c: Criterion)
    ensures c in Triggered(rx, cfg, commands) <==> exists k | 0 <= k < |commands| :: Reports(rx, cfg, commands[k], c)
  {
    ListsIncrease(rx, cfg, commands);
    CollectedMeaning(HitLists(rx, cfg, commands));
    FirstReportIs(rx, cfg, commands, c);
  }

  /** `triggered` holds each criterion once, in the order of first reports; ties follow the order of the criteria. */
  lemma TriggeredOrder(rx: RegexEngine, cfg: CriteriaConfig, commands: seq<string>, i: nat, j: nat)
    returns (first: nat, later: nat)
    requires i < j < |Triggered(rx, cfg, commands)|
    ensures var t := Triggered(rx, cfg, commands);
            && FirstReport(rx, cfg, commands, t[i], first)
            && FirstReport(rx, cfg, commands, t[j], later)
            && (first < later || (first == later && Rank(t[i]) < Rank(t[j])))
  {
    var t, lists := Triggered(rx, cfg, commands), HitLists(rx, cfg, commands);
    ListsIncrease(rx, cfg, commands);
    CollectedMeaning(lists);
    assert t[i] in t && t[j] in t && Before(lists, t[i], t[j]);
    first, later := FirstIn(lists, t[i]), FirstIn(lists, t[j]);
    FirstReportIs(rx, cfg, commands, t[i]);
    FirstReportIs(rx, cfg, commands, t[j]);
  }

  /** A reported criterion always makes the plan non-delegable; the converse fails for a bad tag. */
  lemma TriggeredIsCritical(rx: RegexEngine, cfg: CriteriaConfig, commands: seq<string>)
    requires Triggered(rx, cfg, commands) != []
    ensures Verdict(rx, cfg, commands) == NonDelegablePlan
  {
    var c := Triggered(rx, cfg, commands)[0];
    TriggeredMeaning(rx, cfg, commands, c);
    var k :| 0 <= k < |commands| && Reports(rx, cfg, commands[k], c);
    assert !CleanCommand(rx, cfg, commands[k]);
    assert commands[k] in commands;
  }

  // ---- The verdict ----

  lemma VerdictOfConcat(rx: RegexEngine, cfg: CriteriaConfig, p: seq<string>, q: seq<string>)
    ensures Verdict(rx, cfg, p + q) == DelegablePlan <==>
            Verdict(rx, cfg, p) == DelegablePlan && Verdict(rx, cfg, q) == DelegablePlan
  {
    assert forall c :: c in p + q <==> c in p || c in q;
  }

  lemma VerdictOfPermutation(rx: RegexEngine, cfg: CriteriaConfig, p: seq<string>, q: seq<string>)
    requires multiset(p) == multiset(q)
    ensures Verdict(rx, cfg, p) == Verdict(rx, cfg, q)
  {
    assert forall c :: c in p <==> c in multiset(p);
    assert forall c :: c in q <==> c in multiset(q);
  }

  predicate ValidPatterns(rx: RegexEngine, patterns: seq<string>) {
    forall p | p in patterns :: rx.valid(p)
  }

  predicate ValidConfig(rx: RegexEngine, cfg: CriteriaConfig) {
    && ValidPatterns(rx, cfg.systemSecurity)
    && ValidPatterns(rx, cfg.credentialsSecrets)
    && ValidPatterns(rx, cfg.dataExfiltration)
    && ValidPatterns(rx, cfg.financial)
    && ValidPatterns(rx, cfg.thirdParty)
  }

  predicate Skipped(rx: RegexEngine, pattern: string, text: string) {
    rx.valid(pattern) && !rx.isMatch(pattern, text)
  }

  /** Where the scan of a category stops: at a match, at a broken pattern, or at the end. */
  function Stop(rx: RegexEngine, patterns: seq<string>, text: string): (k: nat)
    ensures k <= |patterns|
    ensures forall j | 0 <= j < k :: Skipped(rx, patterns[j], text)
    ensures k < |patterns| ==> !Skipped(rx, patterns[k], text)
  {
    if patterns == [] || !Skipped(rx, patterns[0], text) then 0 else 1 + Stop(rx, patterns[1..], text)
  }

  lemma {:induction false} AnyMatchStops(rx: RegexEngine, patterns: seq<string>, text: string)
    ensures var k := Stop(rx, patterns, text);
            AnyMatch(rx, patterns, text) ==
            if k == |patterns| then Value(false) else if rx.valid(patterns[k]) then Value(true) else Panicked
  {
    if patterns != [] && Skipped(rx, patterns[0], text) {
      AnyMatchStops(rx, patterns[1..], text);
    }
  }

  /**
   Scanning a category panics exactly when a broken pattern stands before every match; when all
   its patterns compile it tells whether one of them matches.
   */
  lemma AnyMatchMeaning(rx: RegexEngine, patterns: seq<string>, text: string)
    ensures AnyMatch(rx, patterns, text).Panicked? <==>
            exists i | 0 <= i < |patterns| ::
              !rx.valid(patterns[i]) && forall j | 0 <= j < i :: Skipped(rx, patterns[j], text)
    ensures ValidPatterns(rx, patterns) ==>
              AnyMatch(rx, patterns, text) == Value(exists p | p in patterns :: rx.isMatch(p, text))
  {
    AnyMatchStops(rx, patterns, text);
    var k := Stop(rx, patterns, text);
    if i :| 0 <= i < |patterns| && !rx.valid(patterns[i]) && forall j | 0 <= j < i :: Skipped(rx, patterns[j], text) {
      assert !(k < i) && !(i < k);
    }
    if ValidPatterns(rx, patterns) && k < |patterns| {
      assert patterns[k] in patterns && rx.isMatch(patterns[k], text);
    }
  }

  /** With patterns that compile, evaluation never panics, whatever the text. */
  lemma ValidConfigNeverPanics(rx: RegexEngine, cfg: CriteriaConfig, lower: string)
    requires ValidConfig(rx, cfg)
    ensures !TextPanics(rx, cfg, lower)
  {
    forall c: Criterion
      ensures !ScanTest(rx, cfg, lower)(c).Panicked?
    {
      AnyMatchMeaning(rx, RegexesOf(cfg, c), lower);
    }
  }

  predicate Includes(patterns: seq<string>, more: seq<string>) {
    forall p | p in patterns :: p in more
  }

  /** `more` has every pattern of `cfg`, category by category. */
  predicate Extends(cfg: CriteriaConfig, more: CriteriaConfig) {
    && Includes(cfg.irreversibility, more.irreversibility)
    && forall c: Criterion :: Includes(RegexesOf(cfg, c), RegexesOf(more, c))
  }

  /** Without a match and without a panic, every pattern was skipped. */
  lemma NoHitSkipsAll(rx: RegexEngine, patterns: seq<string>, text: string)
    ensures AnyMatch(rx, patterns, text) == Value(false) <==> forall p | p in patterns :: Skipped(rx, p, text)
  {
    AnyMatchStops(rx, patterns, text);
  }

  /** A criterion that finds nothing with more patterns finds nothing, and does not panic, with fewer. */
  lemma QuietWithMore(rx: RegexEngine, cfg: CriteriaConfig, more: CriteriaConfig, c: Criterion, lower: string)
    requires Extends(cfg, more) && Scan(rx, more, c, lower) == Value(false)
    ensures Scan(rx, cfg, c, lower) == Value(false)
  {
    if c == Irreversibility {
      assert RegexesOf(cfg, c) == [];
    } else {
      assert Includes(RegexesOf(cfg, c), RegexesOf(more, c));
      NoHitSkipsAll(rx, RegexesOf(more, c), lower);
      NoHitSkipsAll(rx, RegexesOf(cfg, c), lower);
    }
  }

  lemma CleanWithFewer(rx: RegexEngine, cfg: CriteriaConfig, more: CriteriaConfig, command: string)
    requires Extends(cfg, more)
    requires CleanCommand(rx, more, command) && !TextPanics(rx, more, Scanned(command))
    ensures CleanCommand(rx, cfg, command) && !TextPanics(rx, cfg, Scanned(command))
  {
    var lower := Scanned(command);
    forall c: Criterion
      ensures ScanTest(rx, cfg, lower)(c) == Value(false)
    {
      assert !Hit(rx, more, c, lower) && !ScanTest(rx, more, lower)(c).Panicked?;
      var found := Scan(rx, more, c, lower);
      assert ScanTest(rx, more, lower)(c) == found && found == if found.value then Value(true) else Value(false);
      assert !found.value;
      QuietWithMore(rx, cfg, more, c, lower);
    }
  }

  /**
   Adding patterns never turns a non-delegable plan into a delegable one: what is evaluated
   without a panic and found delegable with more patterns is so with fewer.
   */
  lemma MorePatternsAreStricter(rx: RegexEngine, cfg: CriteriaConfig, more: CriteriaConfig, commands: seq<string>)
    requires Extends(cfg, more)
    requires forall command | command in commands :: !TextPanics(rx, more, Scanned(command))
    requires Verdict(rx, more, commands) == DelegablePlan
    ensures Verdict(rx, cfg, commands) == DelegablePlan
    ensures forall command | command in commands :: !TextPanics(rx, cfg, Scanned(command))
  {
    forall command | command in commands
      ensures CleanCommand(rx, cfg, command) && !TextPanics(rx, cfg, Scanned(command))
    {
      CleanWithFewer(rx, cfg, more, command);
    }
  }
}
