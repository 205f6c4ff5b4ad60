/** The administrator's configuration: validation, security-lowering changes, and the criteria it yields. */
module AdminConfig {
  import opened Wrappers
  import opened Criteria
  import opened CriteriaMeaning

  datatype AllowlistEntry = AllowlistEntry(name: string, path: string, allowed: bool, args: seq<string>)

  datatype PolicySymbolEntry = PolicySymbolEntry(symbol: string, classification: string, autoApproveSeconds: nat)

  datatype CriteriaPatternSet = CriteriaPatternSet(category: string, patterns: seq<string>)

  datatype SocketDefinition = SocketDefinition(name: string, path: string, permissions: string)

  datatype Config = Config(
    allowlist: seq<AllowlistEntry>,
    policy: seq<PolicySymbolEntry>,
    criteria: seq<CriteriaPatternSet>,
    sockets: seq<SocketDefinition>)

  datatype ValidationError =
    | UnsafeAllowlistValue(name: string)
    | CriticalSymbolReclassified(symbol: string)
    | CriticalSymbolAutoApprove(symbol: string, seconds: nat)
    | DuplicateAllowlistEntry(name: string)
    | InvalidCriteriaRegex(category: string, pattern: string)
    | InvalidSocketPermissions(name: string, permissions: string)
    | DuplicateSocket(name: string)

  const CRITICAL_SYMBOLS: set<string> := {
    "CRIT.IRREVERSIBLE", "CRIT.SYS.SECURITY", "CRIT.SECRET", "CRIT.EGRESS", "CRIT.FINANCIAL", "CRIT.THIRD.PARTY",
    "CRIT.UNCLASSIFIED"}

  // ---- What a valid configuration is ----

  ghost predicate SafeAllowlist(entries: seq<AllowlistEntry>) {
    && (forall i | 0 <= i < |entries| :: entries[i].path != "*")
    && (forall i, j | 0 <= i < j < |entries| :: entries[i].name != entries[j].name)
  }

  predicate SafePolicyEntry(entry: PolicySymbolEntry) {
    entry.symbol in CRITICAL_SYMBOLS ==> entry.classification != "delegable" && entry.autoApproveSeconds == 0
  }

  predicate SafePolicy(policy: seq<PolicySymbolEntry>) {
    forall i | 0 <= i < |policy| :: SafePolicyEntry(policy[i])
  }

  predicate SafeCriteria(rx: RegexEngine, criteria: seq<CriteriaPatternSet>) {
    forall i | 0 <= i < |criteria| :: ValidPatterns(rx, criteria[i].patterns)
  }

  predicate IsDigit(c: char) {
    '0' <= c <= '9'
  }

  predicate ValidPermissions(p: string) {
    |p| == 4 && p[0] == '0' && forall i | 1 <= i < 4 :: IsDigit(p[i])
  }

  ghost predicate SafeSockets(sockets: seq<SocketDefinition>) {
    && (forall i | 0 <= i < |sockets| :: ValidPermissions(sockets[i].permissions))
    && (forall i, j | 0 <= i < j < |sockets| :: sockets[i].name != sockets[j].name)
  }

  ghost predicate Valid(rx: RegexEngine, config: Config) {
    && SafeAllowlist(config.allowlist)
    && SafePolicy(config.policy)
    && SafeCriteria(rx, config.criteria)
    && SafeSockets(config.sockets)
  }

  // ---- Validation ----

  method ValidateAllowlist(entries: seq<AllowlistEntry>) returns (r: Result<(), ValidationError>)
    ensures r.Ok? <==> SafeAllowlist(entries)
    ensures r.Err? ==> exists k | 0 <= k < |entries| ::
              && SafeAllowlist(entries[..k])
              && r.error == if entries[k].path == "*" then UnsafeAllowlistValue(entries[k].name)
                            else DuplicateAllowlistEntry(entries[k].name)
  {
    var seen: set<string> := {};
    for k := 0 to |entries|
      invariant SafeAllowlist(entries[..k])
      invariant seen == set i | 0 <= i < k :: entries[i].name
    {
      if entries[k].path == "*" {
        return Err(UnsafeAllowlistValue(entries[k].name));
      }
      if entries[k].name in seen {
        return Err(DuplicateAllowlistEntry(entries[k].name));
      }
      seen := seen + {entries[k].name};
    }
    assert entries[..|entries|] == entries;
    return Ok(());
  }

  method ValidateSymbolsAndPolicy(policy: seq<PolicySymbolEntry>) returns (r: Result<(), ValidationError>)
    ensures r.Ok? <==> SafePolicy(policy)
    ensures r.Err? ==> exists k | 0 <= k < |policy| ::
              && SafePolicy(policy[..k])
              && policy[k].symbol in CRITICAL_SYMBOLS
              && r.error == if policy[k].classification == "delegable" then CriticalSymbolReclassified(policy[k].symbol)
                            else CriticalSymbolAutoApprove(policy[k].symbol, policy[k].autoApproveSeconds)
  {
    for k := 0 to |policy|
      invariant SafePolicy(policy[..k])
    {
      var entry := policy[k];
      var isKnownCritical := entry.symbol in CRITICAL_SYMBOLS;
      if isKnownCritical && entry.classification == "delegable" {
        return Err(CriticalSymbolReclassified(entry.symbol));
      }
      if isKnownCritical && entry.autoApproveSeconds > 0 {
        return Err(CriticalSymbolAutoApprove(entry.symbol, entry.autoApproveSeconds));
      }
    }
    assert policy[..|policy|] == policy;
    return Ok(());
  }

  method ValidateCriteria(rx: RegexEngine, criteria: seq<CriteriaPatternSet>) returns (r: Result<(), ValidationError>)
    ensures r.Ok? <==> SafeCriteria(rx, criteria)
    ensures r.Err? ==> exists k, j | 0 <= k < |criteria| && 0 <= j < |criteria[k].patterns| ::
              && SafeCriteria(rx, criteria[..k])
              && ValidPatterns(rx, criteria[k].patterns[..j])
              && !rx.valid(criteria[k].patterns[j])
              && r.error == InvalidCriteriaRegex(criteria[k].category, criteria[k].patterns[j])
  {
    for k := 0 to |criteria|
      invariant SafeCriteria(rx, criteria[..k])
    {
      var patterns := criteria[k].patterns;
      for j := 0 to |patterns|
        invariant ValidPatterns(rx, patterns[..j])
      {
        if !rx.valid(patterns[j]) {
          assert patterns[j] in criteria[k].patterns;
          return Err(InvalidCriteriaRegex(criteria[k].category, patterns[j]));
        }
      }
      assert patterns[..|patterns|] == patterns;
    }
    assert criteria[..|criteria|] == criteria;
    return Ok(());
  }

  method ValidateSockets(sockets: seq<SocketDefinition>) returns (r: Result<(), ValidationError>)
    ensures r.Ok? <==> SafeSockets(sockets)
    ensures r.Err? ==> exists k | 0 <= k < |sockets| ::
              && SafeSockets(sockets[..k])
              && r.error == if ValidPermissions(sockets[k].permissions) then DuplicateSocket(sockets[k].name)
                            else InvalidSocketPermissions(sockets[k].name, sockets[k].permissions)
  {
    var seen: set<string> := {};
    for k := 0 to |sockets|
      invariant SafeSockets(sockets[..k])
      invariant seen == set i | 0 <= i < k :: sockets[i].name
    {
      if !ValidPermissions(sockets[k].permissions) {
        return Err(InvalidSocketPermissions(sockets[k].name, sockets[k].permissions));
      }
      if sockets[k].name in seen {
        return Err(DuplicateSocket(sockets[k].name));
      }
      seen := seen + {sockets[k].name};
    }
    assert sockets[..|sockets|] == sockets;
    return Ok(());
  }

  /** An error names the first of the four parts that is not as it should be. */
  ghost predicate Blames(rx: RegexEngine, config: Config, error: ValidationError) {
    match error
    case UnsafeAllowlistValue(_) | DuplicateAllowlistEntry(_) => !SafeAllowlist(config.allowlist)
    case CriticalSymbolReclassified(_) | CriticalSymbolAutoApprove(_, _) =>
      SafeAllowlist(config.allowlist) && !SafePolicy(config.policy)
    case InvalidCriteriaRegex(_, _) =>
      SafeAllowlist(config.allowlist) && SafePolicy(config.policy) && !SafeCriteria(rx, config.criteria)
    case InvalidSocketPermissions(_, _) | DuplicateSocket(_) =>
      && SafeAllowlist(config.allowlist) && SafePolicy(config.policy) && SafeCriteria(rx, config.criteria)
      && !SafeSockets(config.sockets)
  }

  method Validate(rx: RegexEngine, config: Config) returns (r: Result<(), ValidationError>)
    ensures r.Ok? <==> Valid(rx, config)
    ensures r.Err? ==> Blames(rx, config, r.error)
  {
    r := ValidateAllowlist(config.allowlist);
    if r.Err? { return; }
    r := ValidateSymbolsAndPolicy(config.policy);
    if r.Err? { return; }
    r := ValidateCriteria(rx, config.criteria);
    if r.Err? { return; }
    r := ValidateSockets(config.sockets);
  }

  /** A file mode in octal: a zero and three digits below eight. */
  predicate Octal(p: string) {
    |p| == 4 && p[0] == '0' && forall i | 1 <= i < 4 :: '0' <= p[i] <= '7'
  }

  /**
   The permission check asks for octal but takes any decimal digits: what it accepts is octal exactly
   without an 8 and a 9.
   */
  lemma AcceptedIsOctalExactlyWhen(p: string)
    ensures Octal(p) <==> ValidPermissions(p) && '8' !in p && '9' !in p
  {
    if ValidPermissions(p) && '8' !in p && '9' !in p {
      forall i | 1 <= i < 4
        ensures '0' <= p[i] <= '7'
      {
        assert p[i] in p;
      }
    }
  }

  /** Accepted are exactly a zero and three decimal digits. */
  lemma AcceptedPermissions(p: string)
    ensures ValidPermissions(p) <==>
            exists a, b, c :: IsDigit(a) && IsDigit(b) && IsDigit(c) && p == ['0', a, b, c]
  {
    if ValidPermissions(p) {
      assert p == ['0', p[1], p[2], p[3]] && IsDigit(p[1]) && IsDigit(p[2]) && IsDigit(p[3]);
    }
  }

  /** A socket that validation accepts although its permissions are not octal. */
  lemma PermissionsNeedNotBeOctal(name: string, path: string)
    ensures SafeSockets([SocketDefinition(name, path, "0999")]) && !Octal("0999")
  {
    assert "0999"[1] == '9';
  }

  function NamesIn(names: seq<string>): set<string> {
    set i | 0 <= i < |names| :: names[i]
  }

  predicate AllDifferent(names: seq<string>) {
    forall i, j | 0 <= i < j < |names| :: names[i] != names[j]
  }

  lemma OneMoreName(names: seq<string>, name: string)
    ensures NamesIn(names + [name]) == NamesIn(names) + {name}
    ensures AllDifferent(names + [name]) <==> AllDifferent(names) && name !in NamesIn(names)
  {
    var more := names + [name];
    assert forall i | 0 <= i < |names| :: more[i] == names[i];
    assert more[|names|] == name;
    if name in NamesIn(names) {
      var i: nat :| i < |names| && names[i] == name;
      assert more[i] == more[|names|];
    }
  }

  /** Names are all different exactly when there are as many of them as entries. */
  lemma {:induction false} DifferentNamesCount(names: seq<string>)
    ensures AllDifferent(names) <==> |NamesIn(names)| == |names|
    ensures |NamesIn(names)| <= |names|
  {
    if names != [] {
      var front, last := names[..|names| - 1], names[|names| - 1];
      assert names == front + [last];
      DifferentNamesCount(front);
      OneMoreName(front, last);
      assert last in NamesIn(front) ==> NamesIn(front) + {last} == NamesIn(front);
    }
  }

  function AllowlistNames(config: Config): seq<string> {
    seq(|config.allowlist|, i requires 0 <= i < |config.allowlist| => config.allowlist[i].name)
  }

  function SocketNames(config: Config): seq<string> {
    seq(|config.sockets|, i requires 0 <= i < |config.sockets| => config.sockets[i].name)
  }

  /** Names are keys: valid are exactly the lists with as many names as entries, no wildcard and valid permissions. */
  lemma ValidNamesAreKeys(config: Config)
    ensures SafeAllowlist(config.allowlist) <==>
            (forall e | e in config.allowlist :: e.path != "*")
            && |NamesIn(AllowlistNames(config))| == |config.allowlist|
    ensures SafeSockets(config.sockets) <==>
            (forall sock | sock in config.sockets :: ValidPermissions(sock.permissions))
            && |NamesIn(SocketNames(config))| == |config.sockets|
  {
    DifferentNamesCount(AllowlistNames(config));
    DifferentNamesCount(SocketNames(config));
    assert forall i, j | 0 <= i < j < |config.allowlist| ::
        AllowlistNames(config)[i] == config.allowlist[i].name && AllowlistNames(config)[j] == config.allowlist[j].name;
    assert forall i, j | 0 <= i < j < |config.sockets| ::
        SocketNames(config)[i] == config.sockets[i].name && SocketNames(config)[j] == config.sockets[j].name;
  }

  // ---- The criteria configuration an administrator's file yields ----

  function CategoryOf(name: string): Option<Criterion> {
    match name
    case "irreversibility" => Some(Irreversibility)
    case "system_security" => Some(SystemSecurity)
    case "secrets" => Some(CredentialsSecrets)
    case "credentials_secrets" => Some(CredentialsSecrets)
    case "exfiltration" => Some(DataExfiltration)
    case "data_exfiltration" => Some(DataExfiltration)
    case "financial" => Some(Financial)
    case "third_party" => Some(ThirdPartyImpact)
    case _ => None
  }

  /** The names a criterion goes by in a configuration file. */
  function NamesOf(c: Criterion): set<string> {
    match c
    case Irreversibility => {"irreversibility"}
    case SystemSecurity => {"system_security"}
    case CredentialsSecrets => {"secrets", "credentials_secrets"}
    case DataExfiltration => {"exfiltration", "data_exfiltration"}
    case Financial => {"financial"}
    case ThirdPartyImpact => {"third_party"}
  }

  lemma CategoriesGoByTheirNames(name: string, c: Criterion)
    ensures CategoryOf(name) == Some(c) <==> name in NamesOf(c)
  {
  }

  /** The patterns of the last set named for the category, under any of its aliases, or else the default. */
  function LastPatterns(criteria: seq<CriteriaPatternSet>, c: Criterion, otherwise: seq<string>): seq<string> {
    if criteria == [] then otherwise
    else
      var last := criteria[|criteria| - 1];
      if CategoryOf(last.category) == Some(c) then last.patterns
      else LastPatterns(criteria[..|criteria| - 1], c, otherwise)
  }

  /** Set `k` is the last one for the category. */
  predicate LastFor(criteria: seq<CriteriaPatternSet>, c: Criterion, k: nat) {
    && k < |criteria|
    && CategoryOf(criteria[k].category) == Some(c)
    && forall i | k < i < |criteria| :: CategoryOf(criteria[i].category) != Some(c)
  }

  /** A category has the patterns of its last set, or keeps the fallback when it has none. */
  lemma LastForFront(criteria: seq<CriteriaPatternSet>, c: Criterion, k: nat)
    requires LastFor(criteria, c, k) && k < |criteria| - 1
    ensures LastFor(criteria[..|criteria| - 1], c, k)
  {
  }

  /** A category has the patterns of its last set. */
  lemma {:induction false} LastPatternsMeaning(criteria: seq<CriteriaPatternSet>, c: Criterion,
                                               otherwise: seq<string>, k: nat)
    requires LastFor(criteria, c, k)
    ensures LastPatterns(criteria, c, otherwise) == criteria[k].patterns
  {
    if k < |criteria| - 1 {
      LastForFront(criteria, c, k);
      LastPatternsMeaning(criteria[..|criteria| - 1], c, otherwise, k);
    }
  }

  /** A category without a set keeps the fallback. */
  lemma {:induction false} MissingCategoryKeepsDefault(criteria: seq<CriteriaPatternSet>, c: Criterion,
                                                       otherwise: seq<string>)
    requires forall i | 0 <= i < |criteria| :: CategoryOf(criteria[i].category) != Some(c)
    ensures LastPatterns(criteria, c, otherwise) == otherwise
  {
    if criteria != [] {
      MissingCategoryKeepsDefault(criteria[..|criteria| - 1], c, otherwise);
    }
  }

  function CriteriaOf(criteria: seq<CriteriaPatternSet>, defaults: CriteriaConfig): CriteriaConfig {
    CriteriaConfig(
      LastPatterns(criteria, Irreversibility, defaults.irreversibility),
      LastPatterns(criteria, SystemSecurity, defaults.systemSecurity),
      LastPatterns(criteria, CredentialsSecrets, defaults.credentialsSecrets),
      LastPatterns(criteria, DataExfiltration, defaults.dataExfiltration),
      LastPatterns(criteria, Financial, defaults.financial),
      LastPatterns(criteria, ThirdPartyImpact, defaults.thirdParty))
  }

  method ToCriteriaConfig(config: Config, defaults: CriteriaConfig) returns (result: CriteriaConfig)
    ensures result == CriteriaOf(config.criteria, defaults)
  {
    result := defaults;
    for k := 0 to |config.criteria|
      invariant result == CriteriaOf(config.criteria[..k], defaults)
    {
      assert config.criteria[..k + 1][..k] == config.criteria[..k];
      var patterns := config.criteria[k].patterns;
      match CategoryOf(config.criteria[k].category) {
        case Some(Irreversibility) => result := result.(irreversibility := patterns);
        case Some(SystemSecurity) => result := result.(systemSecurity := patterns);
        case Some(CredentialsSecrets) => result := result.(credentialsSecrets := patterns);
        case Some(DataExfiltration) => result := result.(dataExfiltration := patterns);
        case Some(Financial) => result := result.(financial := patterns);
        case Some(ThirdPartyImpact) => result := result.(thirdParty := patterns);
        case None =>
      }
    }
    assert config.criteria[..|config.criteria|] == config.criteria;
  }

  lemma {:induction false} LastPatternsValid(rx: RegexEngine, criteria: seq<CriteriaPatternSet>, c: Criterion,
                                             otherwise: seq<string>)
    requires SafeCriteria(rx, criteria) && ValidPatterns(rx, otherwise)
    ensures ValidPatterns(rx, LastPatterns(criteria, c, otherwise))
  {
    if criteria != [] {
      var n := |criteria| - 1;
      assert ValidPatterns(rx, criteria[n].patterns);
      LastPatternsValid(rx, criteria[..n], c, otherwise);
    }
  }

  /** Evaluating any plan with the criteria of a validated configuration never reaches a failing `unwrap`. */
  lemma ValidatedEvaluationIsTotal(rx: RegexEngine, config: Config, defaults: CriteriaConfig, commands: seq<string>)
    requires Valid(rx, config) && ValidConfig(rx, defaults)
    ensures ValidConfig(rx, CriteriaOf(config.criteria, defaults))
    ensures forall command | command in commands ::
            !TextPanics(rx, CriteriaOf(config.criteria, defaults), Scanned(command))
  {
    LastPatternsValid(rx, config.criteria, SystemSecurity, defaults.systemSecurity);
    LastPatternsValid(rx, config.criteria, CredentialsSecrets, defaults.credentialsSecrets);
    LastPatternsValid(rx, config.criteria, DataExfiltration, defaults.dataExfiltration);
    LastPatternsValid(rx, config.criteria, Financial, defaults.financial);
    LastPatternsValid(rx, config.criteria, ThirdPartyImpact, defaults.thirdParty);
    forall command | command in commands
      ensures !TextPanics(rx, CriteriaOf(config.criteria, defaults), Scanned(command))
    {
      ValidConfigNeverPanics(rx, CriteriaOf(config.criteria, defaults), Scanned(command));
    }
  }

  function FieldOf(cfg: CriteriaConfig, c: Criterion): seq<string> {
    if c == Irreversibility then cfg.irreversibility else RegexesOf(cfg, c)
  }

  function SeedName(c: Criterion): string {
    match c
    case Irreversibility => "irreversibility"
    case SystemSecurity => "system_security"
    case CredentialsSecrets => "secrets"
    case DataExfiltration => "exfiltration"
    case Financial => "financial"
    case ThirdPartyImpact => "third_party"
  }

  /** One set for every criterion, in their order. */
  function SetsOf(patterns: Criterion -> seq<string>): seq<CriteriaPatternSet> {
    seq(|CRITERIA|, i requires 0 <= i < |CRITERIA| =>
      CriteriaPatternSet(SeedName(CRITERIA[i]), patterns(CRITERIA[i])))
  }

  function SeedSets(defaults: CriteriaConfig): seq<CriteriaPatternSet> {
    SetsOf(c => FieldOf(defaults, c))
  }

  lemma SeedSetsAre(defaults: CriteriaConfig)
    ensures SeedSets(defaults) == [
              CriteriaPatternSet("irreversibility", defaults.irreversibility),
              CriteriaPatternSet("system_security", defaults.systemSecurity),
              CriteriaPatternSet("secrets", defaults.credentialsSecrets),
              CriteriaPatternSet("exfiltration", defaults.dataExfiltration),
              CriteriaPatternSet("financial", defaults.financial),
              CriteriaPatternSet("third_party", defaults.thirdParty)]
  {
    assert CRITERIA ==
           [Irreversibility, SystemSecurity, CredentialsSecrets, DataExfiltration, Financial, ThirdPartyImpact];
    assert forall i | 0 <= i < 6 ::
        SeedSets(defaults)[i] == CriteriaPatternSet(SeedName(CRITERIA[i]), FieldOf(defaults, CRITERIA[i]));
  }

  class EditedConfig {
    var config: Config

    constructor (config: Config)
      ensures this.config == config
    {
      this.config := config;
    }

    method SeedDefaultCriteria(defaults: CriteriaConfig)
      modifies this
      ensures config == if old(config).criteria == [] then old(config).(criteria := SeedSets(defaults)) else old(config)
    {
      if config.criteria == [] {
        var criteria := config.criteria;
        criteria := criteria + [CriteriaPatternSet("irreversibility", defaults.irreversibility)];
        criteria := criteria + [CriteriaPatternSet("system_security", defaults.systemSecurity)];
        criteria := criteria + [CriteriaPatternSet("secrets", defaults.credentialsSecrets)];
        criteria := criteria + [CriteriaPatternSet("exfiltration", defaults.dataExfiltration)];
        criteria := criteria + [CriteriaPatternSet("financial", defaults.financial)];
        criteria := criteria + [CriteriaPatternSet("third_party", defaults.thirdParty)];
        SeedSetsAre(defaults);
        config := config.(criteria := criteria);
      }
    }
  }

  /** Seeding an empty configuration and converting it gives the defaults, whatever was the fallback. */
  lemma SeedingGivesDefaults(defaults: CriteriaConfig, otherwise: CriteriaConfig)
    ensures CriteriaOf(SeedSets(defaults), otherwise) == defaults
  {
    SeededCategory(defaults, Irreversibility, otherwise.irreversibility);
    SeededCategory(defaults, SystemSecurity, otherwise.systemSecurity);
    SeededCategory(defaults, CredentialsSecrets, otherwise.credentialsSecrets);
    SeededCategory(defaults, DataExfiltration, otherwise.dataExfiltration);
    SeededCategory(defaults, Financial, otherwise.financial);
    SeededCategory(defaults, ThirdPartyImpact, otherwise.thirdParty);
  }

  lemma SeedNamesAreCategories(c: Criterion)
    ensures CategoryOf(SeedName(c)) == Some(c)
  {
  }

  lemma SetDecides(patterns: Criterion -> seq<string>, c: Criterion, otherwise: seq<string>)
    ensures LastPatterns(SetsOf(patterns), c, otherwise) == patterns(c)
  {
    var sets := SetsOf(patterns);
    assert CRITERIA[Rank(c)] == c;
    forall i | 0 <= i < |sets|
      ensures CategoryOf(sets[i].category) == Some(CRITERIA[i])
    {
      SeedNamesAreCategories(CRITERIA[i]);
    }
    assert LastFor(sets, c, Rank(c));
    LastPatternsMeaning(sets, c, otherwise, Rank(c));
  }

  lemma SeededCategory(defaults: CriteriaConfig, c: Criterion, otherwise: seq<string>)
    ensures LastPatterns(SeedSets(defaults), c, otherwise) == FieldOf(defaults, c)
  {
    SetDecides(d => FieldOf(defaults, d), c, otherwise);
  }

  // ---- Changes that lower the security posture ----

  /** Entry `k` is the first for the symbol. */
  predicate IsFirst(policy: seq<PolicySymbolEntry>, k: nat, symbol: string) {
    k < |policy| && policy[k].symbol == symbol && forall i | 0 <= i < k :: policy[i].symbol != symbol
  }

  lemma FirstPolicyStep(policy: seq<PolicySymbolEntry>, symbol: string)
    ensures policy != [] && policy[0].symbol == symbol ==> IsFirst(policy, 0, symbol)
    ensures policy != [] && policy[0].symbol != symbol ==>
              forall k: nat :: IsFirst(policy[1..], k, symbol) ==> IsFirst(policy, k + 1, symbol)
  {
  }

  /** The first entry for the symbol, as `find` returns it. */
  function FirstPolicy(policy: seq<PolicySymbolEntry>, symbol: string): (r: Option<PolicySymbolEntry>)
    ensures r.Some? ==> exists k: nat :: IsFirst(policy, k, symbol) && r.value == policy[k]
    ensures r.None? ==> forall i | 0 <= i < |policy| :: policy[i].symbol != symbol
  {
    FirstPolicyStep(policy, symbol);
    if policy == [] then None
    else if policy[0].symbol == symbol then Some(policy[0])
    else FirstPolicy(policy[1..], symbol)
  }

  predicate NewWildcard(entry: AllowlistEntry, previous: Config) {
    entry.path == "*" && forall e | e in previous.allowlist :: e.name != entry.name
  }

  predicate MadeDelegable(entry: PolicySymbolEntry, previous: Config) {
    var prev := FirstPolicy(previous.policy, entry.symbol);
    prev.Some? && prev.value.classification == "critical" && entry.classification == "delegable"
  }

  predicate MadeAutomatic(entry: PolicySymbolEntry, previous: Config) {
    var prev := FirstPolicy(previous.policy, entry.symbol);
    prev.Some? && entry.symbol in CRITICAL_SYMBOLS && prev.value.autoApproveSeconds == 0 && entry.autoApproveSeconds > 0
  }

  predicate LowersSecurity(config: Config, previous: Config) {
    || (exists i | 0 <= i < |config.allowlist| :: NewWildcard(config.allowlist[i], previous))
    || (exists i | 0 <= i < |config.policy| ::
          MadeDelegable(config.policy[i], previous) || MadeAutomatic(config.policy[i], previous))
    || |config.sockets| < |previous.sockets|
  }

  method IsSecurityLoweringChange(config: Config, previous: Config) returns (r: bool)
    ensures r <==> LowersSecurity(config, previous)
  {
    for k := 0 to |config.allowlist|
      invariant forall i | 0 <= i < k :: !NewWildcard(config.allowlist[i], previous)
    {
      var entry := config.allowlist[k];
      if entry.path == "*" && !(exists e | e in previous.allowlist :: e.name == entry.name) {
        assert NewWildcard(config.allowlist[k], previous);
        return true;
      }
    }
    for k := 0 to |config.policy|
      invariant forall i | 0 <= i < k ::
              !MadeDelegable(config.policy[i], previous) && !MadeAutomatic(config.policy[i], previous)
    {
      var policy := config.policy[k];
      var prev := FirstPolicy(previous.policy, policy.symbol);
      if prev.Some? {
        if prev.value.classification == "critical" && policy.classification == "delegable" {
          return true;
        }
        if policy.symbol in CRITICAL_SYMBOLS && prev.value.autoApproveSeconds == 0 && policy.autoApproveSeconds > 0 {
          return true;
        }
      }
    }
    return |config.sockets| < |previous.sockets|;
  }

  /** The change of a policy entry that lowers security, judged against an earlier entry for the same symbol. */
  predicate Loosened(before: PolicySymbolEntry, after: PolicySymbolEntry) {
    || (before.classification == "critical" && after.classification == "delegable")
    || (after.symbol in CRITICAL_SYMBOLS && before.autoApproveSeconds == 0 && after.autoApproveSeconds > 0)
  }

  predicate HasName(entries: seq<AllowlistEntry>, name: string) {
    exists i | 0 <= i < |entries| :: entries[i].name == name
  }

  lemma EntryLowers(entry: PolicySymbolEntry, previous: Config)
    ensures MadeDelegable(entry, previous) || MadeAutomatic(entry, previous) <==>
            exists k: nat :: IsFirst(previous.policy, k, entry.symbol) && Loosened(previous.policy[k], entry)
  {
    var prev := FirstPolicy(previous.policy, entry.symbol);
    if prev.Some? {
      var k: nat :| IsFirst(previous.policy, k, entry.symbol) && prev.value == previous.policy[k];
      assert forall j: nat | IsFirst(previous.policy, j, entry.symbol) :: !(j < k) && !(k < j);
    }
  }

  /**
   A change lowers security exactly by a wildcard under a new name, by loosening an entry against
   the first one the previous configuration has for its symbol, or by having fewer sockets.
   */
  lemma LoweringMeaning(config: Config, previous: Config)
    ensures LowersSecurity(config, previous) <==>
            || (exists i | 0 <= i < |config.allowlist| ::
                  config.allowlist[i].path == "*" && !HasName(previous.allowlist, config.allowlist[i].name))
            || (exists i | 0 <= i < |config.policy| ::
                  exists k: nat :: IsFirst(previous.policy, k, config.policy[i].symbol)
                                   && Loosened(previous.policy[k], config.policy[i]))
            || |config.sockets| < |previous.sockets|
  {
    forall i | 0 <= i < |config.policy|
      ensures MadeDelegable(config.policy[i], previous) || MadeAutomatic(config.policy[i], previous) <==>
              exists k: nat :: IsFirst(previous.policy, k, config.policy[i].symbol)
                               && Loosened(previous.policy[k], config.policy[i])
    {
      EntryLowers(config.policy[i], previous);
    }
    forall i | 0 <= i < |config.allowlist|
      ensures NewWildcard(config.allowlist[i], previous) <==>
              config.allowlist[i].path == "*" && !HasName(previous.allowlist, config.allowlist[i].name)
    {
    }
  }

  function Widened(config: Config, k: nat): Config
    requires k < |config.allowlist|
  {
    config.(allowlist := config.allowlist[k := config.allowlist[k].(path := "*")])
  }

  /** Turning an existing entry into a wildcard goes unnoticed by this check. */
  lemma WidenedEntriesGoUnnoticed(previous: Config, k: nat)
    requires k < |previous.allowlist| && !LowersSecurity(previous, previous)
    ensures !LowersSecurity(Widened(previous, k), previous)
  {
    var config := Widened(previous, k);
    forall i | 0 <= i < |config.allowlist|
      ensures !NewWildcard(config.allowlist[i], previous)
    {
      assert previous.allowlist[i] in previous.allowlist && previous.allowlist[i].name == config.allowlist[i].name;
    }
  }

  /**
   A configuration that validates can lower security in two ways only: fewer sockets, or a
   symbol outside the protected list going from critical to delegable.
   */
  lemma ValidatedChangesLowerLittle(rx: RegexEngine, config: Config, previous: Config)
    requires Valid(rx, config)
    ensures LowersSecurity(config, previous) <==>
            || |config.sockets| < |previous.sockets|
            || exists i | 0 <= i < |config.policy| ::
                 config.policy[i].symbol !in CRITICAL_SYMBOLS && MadeDelegable(config.policy[i], previous)
  {
    forall i | 0 <= i < |config.policy|
      ensures MadeDelegable(config.policy[i], previous) || MadeAutomatic(config.policy[i], previous) <==>
              config.policy[i].symbol !in CRITICAL_SYMBOLS && MadeDelegable(config.policy[i], previous)
    {
      assert SafePolicyEntry(config.policy[i]);
    }
  }
}
