/**
 Classification of a plan. The regular-expression engine is not modelled: it is a value that
 says which patterns compile and which texts they match. Compiling is done with `unwrap`, so
 evaluation may panic.
 */
module Criteria {
  import opened Wrappers
  import opened Text
  import opened Symbols
  import opened Protocol

  datatype RegexEngine = RegexEngine(valid: string -> bool, isMatch: (string, string) -> bool)

  datatype CriteriaConfig = CriteriaConfig(
    irreversibility: seq<string>,
    systemSecurity: seq<string>,
    credentialsSecrets: seq<string>,
    dataExfiltration: seq<string>,
    financial: seq<string>,
    thirdParty: seq<string>)

  datatype Criterion =
    | Irreversibility
    | SystemSecurity
    | CredentialsSecrets
    | DataExfiltration
    | Financial
    | ThirdPartyImpact

  datatype EvaluationStatus = DelegablePlan | NonDelegablePlan

  datatype CriteriaSummary = CriteriaSummary(triggered: seq<Criterion>, status: EvaluationStatus)

  /** The shipped irreversibility markers. */
  function DefaultMarkers(): seq<string> {
    ["permanent delete", "overwrite backup", "overwrite backups", "delete backup", "delete backups", "rm -rf /",
     "rm -rf --no-preserve-root /", "sudo rm -rf /", "rm -rf /var/backups", "rm -rf /home", "rm -rf /tmp",
     "rm -rf /usr", "rm -rf /etc", "dd if=/dev/zero", "dd if = /dev/zero", "wipefs", "mkfs"]
  }

  function DefaultPatterns(): CriteriaConfig {
    CriteriaConfig(
      DefaultMarkers(),
      ["sudoers", "/etc/sudoers", "iptables", "ufw", "firewall", @"chmod\s+\d+\s+.*(/etc|/usr|/bin|/sbin|/opt)",
       @"chown\s+.*(root|sudo)", "useradd|usermod|passwd", @"systemctl\s+(stop|disable|restart)"],
      ["password", "passwd", @"ssh\s+-i", "id_rsa", "api[_ -]?token", "authorization: bearer", "secret",
       "private[_ -]?key", "aws secret access key"],
      [@"curl\s+.*(\|\s*sh|--upload|--data|--form)", @"scp\s+", @"rsync\s+.*(ssh|remote)", @"git\s+push",
       @"mail\s+-s", "sendmail", "email.*(send|attach)", "upload.*(file|archive|logs)"],
      ["transfer.*money", "bank", "wire transfer", "paypal", "stripe", "invoice", "charge", "payment", "currency"],
      [@"post\s+.*(tweet|message|announcement|comment)", "twitter", @"x\.com", "discord", "slack", "linkedin",
       "facebook", "reddit", "telegram"])
  }

  /** The patterns of a category that are regular expressions; the irreversibility markers are plain substrings. */
  function RegexesOf(cfg: CriteriaConfig, c: Criterion): seq<string> {
    match c
    case Irreversibility => []
    case SystemSecurity => cfg.systemSecurity
    case CredentialsSecrets => cfg.credentialsSecrets
    case DataExfiltration => cfg.dataExfiltration
    case Financial => cfg.financial
    case ThirdPartyImpact => cfg.thirdParty
  }

  function ContainsPattern(rx: RegexEngine, text: string, pattern: string): Checked<bool> {
    if rx.valid(pattern) then Value(rx.isMatch(pattern, text)) else Panicked
  }

  /** `any` stops at the first match, so a broken pattern behind a match is never compiled. */
  function AnyMatch(rx: RegexEngine, patterns: seq<string>, text: string): Checked<bool> {
    if patterns == [] then Value(false)
    else
      match ContainsPattern(rx, text, patterns[0])
      case Panicked => Panicked
      case Value(true) => Value(true)
      case Value(false) => AnyMatch(rx, patterns[1..], text)
  }

  predicate ContainsAny(text: string, markers: seq<string>) {
    exists marker | marker in markers :: Contains(text, marker)
  }

  predicate IsIrreversible(cfg: CriteriaConfig, lower: string) {
    || ContainsAny(lower, cfg.irreversibility)
    || (Contains(lower, "rm -rf") && ContainsAny(lower, ["backup", "/var", "/home", "/tmp", "/etc", "/usr"]))
    || (&& Contains(lower, "dd")
        && Contains(lower, "/dev/zero")
        && ContainsAny(lower, ["of=", "disk", "sd", "nvme"]))
  }

  function Scan(rx: RegexEngine, cfg: CriteriaConfig, c: Criterion, lower: string): Checked<bool> {
    if c == Irreversibility then Value(IsIrreversible(cfg, lower)) else AnyMatch(rx, RegexesOf(cfg, c), lower)
  }

  /** The scan of one text, as a function of the criterion. */
  function ScanTest(rx: RegexEngine, cfg: CriteriaConfig, lower: string): Criterion -> Checked<bool> {
    c => Scan(rx, cfg, c, lower)
  }

  predicate Hit(rx: RegexEngine, cfg: CriteriaConfig, c: Criterion, lower: string) {
    ScanTest(rx, cfg, lower)(c) == Value(true)
  }

  predicate TextPanics(rx: RegexEngine, cfg: CriteriaConfig, lower: string) {
    exists c: Criterion :: ScanTest(rx, cfg, lower)(c).Panicked?
  }

  function HitIf(hit: bool, c: Criterion): seq<Criterion> {
    if hit then [c] else []
  }

  const CRITERIA: seq<Criterion> :=
    [Irreversibility] + [SystemSecurity] + [CredentialsSecrets] + [DataExfiltration] + [Financial] + [ThirdPartyImpact]

  /** The criteria of a list that a scan reports, in the order they are tried. */
  function Passing(scan: Criterion -> Checked<bool>, tried: seq<Criterion>): seq<Criterion> {
    if tried == [] then []
    else Passing(scan, tried[..|tried| - 1]) + HitIf(scan(tried[|tried| - 1]) == Value(true), tried[|tried| - 1])
  }

  lemma PassingPush(scan: Criterion -> Checked<bool>, tried: seq<Criterion>, c: Criterion)
    ensures Passing(scan, tried + [c]) == Passing(scan, tried) + HitIf(scan(c) == Value(true), c)
  {
    assert (tried + [c])[..|tried|] == tried;
  }

  /** The criteria a text hits, in the order they are tried. */
  function Hits(rx: RegexEngine, cfg: CriteriaConfig, lower: string): seq<Criterion> {
    Passing(ScanTest(rx, cfg, lower), CRITERIA)
  }

  /** The text of a command that is scanned. */
  function Lowered(text: string): string {
    ToAsciiLowercase(Trim(text))
  }

  /** Scans one category of regular expressions and pushes its criterion when one matches. */
  method ScanCategory(rx: RegexEngine, cfg: CriteriaConfig, lower: string, c: Criterion, triggered: seq<Criterion>,
                      ghost tried: seq<Criterion>)
    returns (r: Checked<seq<Criterion>>)
    requires c != Irreversibility
    requires triggered == Passing(ScanTest(rx, cfg, lower), tried)
    ensures r.Panicked? <==> ScanTest(rx, cfg, lower)(c).Panicked?
    ensures r.Value? ==> r.value == Passing(ScanTest(rx, cfg, lower), tried + [c])
  {
    PassingPush(ScanTest(rx, cfg, lower), tried, c);
    var hit := AnyMatch(rx, RegexesOf(cfg, c), lower);
    match hit
    case Panicked => return Panicked;
    case Value(true) => return Value(triggered + [c]);
    case Value(false) => return Value(triggered);
  }

  lemma NoScanPanics(rx: RegexEngine, cfg: CriteriaConfig, lower: string)
    requires var scan := ScanTest(rx, cfg, lower);
             && !scan(SystemSecurity).Panicked? && !scan(CredentialsSecrets).Panicked?
             && !scan(DataExfiltration).Panicked? && !scan(Financial).Panicked? && !scan(ThirdPartyImpact).Panicked?
    ensures !TextPanics(rx, cfg, lower)
  {
  }

  method EvaluateTextCommand(rx: RegexEngine, command: string, cfg: CriteriaConfig)
    returns (r: Checked<CriteriaSummary>)
    ensures r.Panicked? <==> TextPanics(rx, cfg, Lowered(command))
    ensures r.Value? ==> r.value.triggered == Hits(rx, cfg, Lowered(command))
    ensures r.Value? ==>
            r.value.status == if Hits(rx, cfg, Lowered(command)) == [] then DelegablePlan else NonDelegablePlan
  {
    var lower := ToAsciiLowercase(Trim(command));
    ghost var scan := ScanTest(rx, cfg, lower);
    PassingPush(scan, [], Irreversibility);
    var triggered := if IsIrreversible(cfg, lower) then [Irreversibility] else [];
    ghost var t0 := [Irreversibility];
    assert t0 == [] + t0;
    var r1 := ScanCategory(rx, cfg, lower, SystemSecurity, triggered, t0);
    if r1.Panicked? { return Panicked; }
    ghost var t1 := t0 + [SystemSecurity];
    var r2 := ScanCategory(rx, cfg, lower, CredentialsSecrets, r1.value, t1);
    if r2.Panicked? { return Panicked; }
    ghost var t2 := t1 + [CredentialsSecrets];
    var r3 := ScanCategory(rx, cfg, lower, DataExfiltration, r2.value, t2);
    if r3.Panicked? { return Panicked; }
    ghost var t3 := t2 + [DataExfiltration];
    var r4 := ScanCategory(rx, cfg, lower, Financial, r3.value, t3);
    if r4.Panicked? { return Panicked; }
    var r5 := ScanCategory(rx, cfg, lower, ThirdPartyImpact, r4.value, t3 + [Financial]);
    if r5.Panicked? { return Panicked; }
    NoScanPanics(rx, cfg, lower);
    triggered := r5.value;
    var status := if triggered == [] then DelegablePlan else NonDelegablePlan;
    return Value(CriteriaSummary(triggered, status));
  }

  function Rank(c: Criterion): nat {
    match c
    case Irreversibility => 0
    case SystemSecurity => 1
    case CredentialsSecrets => 2
    case DataExfiltration => 3
    case Financial => 4
    case ThirdPartyImpact => 5
  }

  predicate Increasing(s: seq<Criterion>) {
    forall i, j | 0 <= i < j < |s| :: Rank(s[i]) < Rank(s[j])
  }

  lemma {:induction false} PassingMembers(scan: Criterion -> Checked<bool>, tried: seq<Criterion>, c: Criterion)
    ensures c in Passing(scan, tried) <==> c in tried && scan(c) == Value(true)
  {
    if tried != [] {
      var n := |tried| - 1;
      PassingMembers(scan, tried[..n], c);
      assert tried == tried[..n] + [tried[n]];
    }
  }

  lemma {:induction false} PassingIncreases(scan: Criterion -> Checked<bool>, tried: seq<Criterion>)
    requires Increasing(tried)
    ensures Increasing(Passing(scan, tried))
  {
    if tried != [] {
      var n := |tried| - 1;
      PassingIncreases(scan, tried[..n]);
      var front := Passing(scan, tried[..n]);
      forall i | 0 <= i < |front|
        ensures Rank(front[i]) < Rank(tried[n])
      {
        PassingMembers(scan, tried[..n], front[i]);
      }
    }
  }

  lemma HitsMeaning(rx: RegexEngine, cfg: CriteriaConfig, lower: string)
    ensures forall c: Criterion :: c in Hits(rx, cfg, lower) <==> Hit(rx, cfg, c, lower)
    ensures Increasing(Hits(rx, cfg, lower))
    ensures Hits(rx, cfg, lower) == [] <==> forall c: Criterion :: !Hit(rx, cfg, c, lower)
  {
    PassingIncreases(ScanTest(rx, cfg, lower), CRITERIA);
    forall c: Criterion
      ensures c in Hits(rx, cfg, lower) <==> Hit(rx, cfg, c, lower)
    {
      assert CRITERIA[Rank(c)] == c;
      PassingMembers(ScanTest(rx, cfg, lower), CRITERIA, c);
    }
    var hits := Hits(rx, cfg, lower);
    if hits != [] {
      assert Hit(rx, cfg, hits[0], lower);
    }
  }

  function Scanned(command: string): string {
    Lowered(ExtractFromCommand(command).1)
  }

  predicate HasValidTag(command: string) {
    StartsWith(TrimStart(command), OPEN) && ExtractFromCommand(command).0 != CritUnclassified
  }

  /** A command with a recognised delegable tag whose text hits no criterion. */
  predicate CleanCommand(rx: RegexEngine, cfg: CriteriaConfig, command: string) {
    && ExtractFromCommand(command).0.Classification() == SymbolClassification.Delegable
    && forall c: Criterion :: !Hit(rx, cfg, c, Scanned(command))
  }

  /** The declarative verdict on a list of commands. */
  function Verdict(rx: RegexEngine, cfg: CriteriaConfig, commands: seq<string>): EvaluationStatus {
    if forall command | command in commands :: CleanCommand(rx, cfg, command) then DelegablePlan else NonDelegablePlan
  }

  /** Appends to `triggered` what is new in `hits`. */
  function Merge(triggered: seq<Criterion>, hits: seq<Criterion>): seq<Criterion> {
    if hits == [] then triggered
    else
      var front := Merge(triggered, hits[..|hits| - 1]);
      if hits[|hits| - 1] in front then front else front + [hits[|hits| - 1]]
  }

  function TaggedHits(rx: RegexEngine, cfg: CriteriaConfig, command: string): seq<Criterion> {
    if HasValidTag(command) then Hits(rx, cfg, Scanned(command)) else []
  }

  /** Merges the hits of each command in turn. */
  function Collected(lists: seq<seq<Criterion>>): seq<Criterion> {
    if lists == [] then [] else Merge(Collected(lists[..|lists| - 1]), lists[|lists| - 1])
  }

  function HitLists(rx: RegexEngine, cfg: CriteriaConfig, commands: seq<string>): seq<seq<Criterion>> {
    seq(|commands|, k requires 0 <= k < |commands| => TaggedHits(rx, cfg, commands[k]))
  }

  function Triggered(rx: RegexEngine, cfg: CriteriaConfig, commands: seq<string>): seq<Criterion> {
    Collected(HitLists(rx, cfg, commands))
  }

  lemma TriggeredPush(rx: RegexEngine, cfg: CriteriaConfig, commands: seq<string>, k: nat)
    requires k < |commands|
    ensures Triggered(rx, cfg, commands[..k + 1]) ==
            Merge(Triggered(rx, cfg, commands[..k]), TaggedHits(rx, cfg, commands[k]))
  {
    var lists := HitLists(rx, cfg, commands[..k + 1]);
    assert lists[..k] == HitLists(rx, cfg, commands[..k]);
  }

  method PushNew(triggered: seq<Criterion>, hits: seq<Criterion>) returns (merged: seq<Criterion>)
    ensures merged == Merge(triggered, hits)
  {
    merged := triggered;
    for j := 0 to |hits|
      invariant merged == Merge(triggered, hits[..j])
    {
      assert hits[..j + 1][..j] == hits[..j];
      if hits[j] !in merged {
        merged := merged + [hits[j]];
      }
    }
    assert hits[..|hits|] == hits;
  }

  /** What one command contributes: whether it is clean, and the criteria it may trigger. */
  method EvaluateCommand(rx: RegexEngine, command: string, cfg: CriteriaConfig) returns (r: Checked<CriteriaSummary>)
    ensures r.Panicked? <==> TextPanics(rx, cfg, Scanned(command))
    ensures r.Value? ==> r.value.status == if CleanCommand(rx, cfg, command) then DelegablePlan else NonDelegablePlan
    ensures r.Value? ==> r.value.triggered == TaggedHits(rx, cfg, command)
  {
    CleanIs(rx, cfg, command);
    var (symbol, remaining) := ExtractFromCommand(command);
    var textSummary := EvaluateTextCommand(rx, remaining, cfg);
    if textSummary.Panicked? {
      return Panicked;
    }
    var hasValidTag := StartsWith(TrimStart(command), OPEN) && symbol != CritUnclassified;
    if !hasValidTag {
      return Value(CriteriaSummary([], NonDelegablePlan));
    }
    var symbolStatus :=
      if symbol.Classification() == SymbolClassification.Delegable then DelegablePlan else NonDelegablePlan;
    if symbolStatus == NonDelegablePlan || textSummary.value.status == NonDelegablePlan {
      return Value(CriteriaSummary(textSummary.value.triggered, NonDelegablePlan));
    }
    return Value(CriteriaSummary(textSummary.value.triggered, DelegablePlan));
  }

  predicate AnyPanics(rx: RegexEngine, cfg: CriteriaConfig, commands: seq<string>) {
    commands != [] &&
    (AnyPanics(rx, cfg, commands[..|commands| - 1]) || TextPanics(rx, cfg, Scanned(commands[|commands| - 1])))
  }

  predicate AllClean(rx: RegexEngine, cfg: CriteriaConfig, commands: seq<string>) {
    commands != [] ==>
      AllClean(rx, cfg, commands[..|commands| - 1]) && CleanCommand(rx, cfg, commands[|commands| - 1])
  }

  lemma {:induction false} PanicsMeaning(rx: RegexEngine, cfg: CriteriaConfig, commands: seq<string>)
    ensures AnyPanics(rx, cfg, commands) <==>
            exists command :: command in commands && TextPanics(rx, cfg, Scanned(command))
  {
    if commands != [] {
      var n := |commands| - 1;
      PanicsMeaning(rx, cfg, commands[..n]);
      assert commands == commands[..n] + [commands[n]];
    }
  }

  lemma {:induction false} CleanMeaning(rx: RegexEngine, cfg: CriteriaConfig, commands: seq<string>)
    ensures AllClean(rx, cfg, commands) <==> Verdict(rx, cfg, commands) == DelegablePlan
  {
    if commands != [] {
      var n := |commands| - 1;
      CleanMeaning(rx, cfg, commands[..n]);
      assert commands == commands[..n] + [commands[n]];
    }
  }

  method EvaluateCriteriaWithConfig(rx: RegexEngine, plan: ExecutionPlan, cfg: CriteriaConfig)
    returns (r: Checked<CriteriaSummary>)
    ensures r.Panicked? <==> exists command :: command in plan.commands && TextPanics(rx, cfg, Scanned(command))
    ensures r.Value? ==> r.value.status == Verdict(rx, cfg, plan.commands)
    ensures r.Value? ==> r.value.triggered == Triggered(rx, cfg, plan.commands)
  {
    var triggered: seq<Criterion> := [];
    var status := DelegablePlan;
    for k := 0 to |plan.commands|
      invariant !AnyPanics(rx, cfg, plan.commands[..k])
      invariant status == DelegablePlan <==> AllClean(rx, cfg, plan.commands[..k])
      invariant triggered == Triggered(rx, cfg, plan.commands[..k])
    {
      assert plan.commands[..k + 1][..k] == plan.commands[..k];
      TriggeredPush(rx, cfg, plan.commands, k);
      var one := EvaluateCommand(rx, plan.commands[k], cfg);
      if one.Panicked? {
        PanicsMeaning(rx, cfg, plan.commands[..k + 1]);
        assert forall c | c in plan.commands[..k + 1] :: c in plan.commands;
        return Panicked;
      }
      if one.value.status == NonDelegablePlan {
        status := NonDelegablePlan;
      }
      triggered := PushNew(triggered, one.value.triggered);
    }
    assert plan.commands[..|plan.commands|] == plan.commands;
    PanicsMeaning(rx, cfg, plan.commands);
    CleanMeaning(rx, cfg, plan.commands);
    if triggered == [] && status == DelegablePlan {
      return Value(CriteriaSummary([], DelegablePlan));
    }
    return Value(CriteriaSummary(triggered, status));
  }

  /** The three callers of the tag parser agree: a delegable symbol is a valid tag. */
  lemma CleanIs(rx: RegexEngine, cfg: CriteriaConfig, command: string)
    ensures CleanCommand(rx, cfg, command) <==>
            && HasValidTag(command)
            && ExtractFromCommand(command).0.Classification() == SymbolClassification.Delegable
            && Hits(rx, cfg, Scanned(command)) == []
    ensures HasValidTag(command) <==> ExtractFromCommand(command).0 != CritUnclassified
  {
    HitsMeaning(rx, cfg, Scanned(command));
    if ExtractFromCommand(command).0 != CritUnclassified {
      ClassifiedIsTagged(command);
    }
  }

  /** The policy decision as a function, for configurations whose patterns all compile. */
  function DecidePolicy(rx: RegexEngine, cfg: CriteriaConfig, plan: ExecutionPlan): PolicyDecision {
    match Verdict(rx, cfg, plan.commands)
    case DelegablePlan => PolicyDecision.Delegable
    case NonDelegablePlan => PolicyDecision.NonDelegable
  }

  method DecidePolicyWithConfig(rx: RegexEngine, plan: ExecutionPlan, cfg: CriteriaConfig)
    returns (r: Checked<PolicyDecision>)
    ensures r.Panicked? <==> exists command :: command in plan.commands && TextPanics(rx, cfg, Scanned(command))
    ensures r.Value? ==> r.value == DecidePolicy(rx, cfg, plan)
  {
    var summary := EvaluateCriteriaWithConfig(rx, plan, cfg);
    match summary
    case Panicked => return Panicked;
    case Value(s) =>
      match s.status
      case DelegablePlan => return Value(PolicyDecision.Delegable);
      case NonDelegablePlan => return Value(PolicyDecision.NonDelegable);
  }
}
