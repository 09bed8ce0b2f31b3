/** The policy engine (solana_agent/authority/policy.py): guards in a fixed order, then the first
    rule that matches, then denial. */
module Policy {
  import opened Prelude
  import opened Lifecycle
  import opened Redaction
  import Base58

  datatype Profile = READ_ONLY | LOCAL_SAFE | DEVNET_SAFE

  datatype Rule = Rule(id: string, profiles: set<Profile>, adapter: string, operation: string, effect: PolicyEffect)

  datatype Command = Command(adapter: string, operation: string, arguments: seq<Field>)

  /** Where a path argument resolves to. */
  datatype PathFact = PathFact(inside: bool, present: bool)

  /** The context of an evaluation; cwdInside and resolve stand for the file system. */
  datatype Context = Context(
    cluster: Option<string>,
    wallet: Option<string>,
    maxLamports: Option<int>,
    contractHash: Option<string>,
    cwdInside: bool,
    resolve: string -> PathFact)

  datatype Decision = Decision(effect: PolicyEffect, ruleId: string)

  const ALL := {READ_ONLY, LOCAL_SAFE, DEVNET_SAFE}
  const WRITERS := {LOCAL_SAFE, DEVNET_SAFE}

  const DEFAULT_RULES: seq<Rule> := [
    Rule("inspect-environment", ALL, "doctor", "inspect", ALLOW),
    Rule("read-workspace", ALL, "filesystem", "read", ALLOW),
    Rule("create-workspace", WRITERS, "filesystem", "create_workspace", ALLOW),
    Rule("overwrite-workspace", WRITERS, "filesystem", "overwrite", REQUIRE_APPROVAL),
    Rule("anchor-build", WRITERS, "anchor", "build", ALLOW),
    Rule("anchor-scaffold", WRITERS, "anchor", "scaffold", ALLOW),
    Rule("apply-counter-template", WRITERS, "counter_template", "apply", ALLOW),
    Rule("anchor-test", WRITERS, "anchor", "test", ALLOW),
    Rule("package-install", WRITERS, "package", "install", ALLOW),
    Rule("package-run", WRITERS, "package", "run", REQUIRE_APPROVAL),
    Rule("rpc-read", ALL, "solana_rpc", "*", ALLOW),
    Rule("local-validator", WRITERS, "solana", "start_validator", ALLOW),
    Rule("simulate-transaction", WRITERS, "solana", "simulate", ALLOW),
    Rule("verify-program", ALL, "solana", "verify_program", ALLOW),
    Rule("require-wallet-balance", ALL, "solana", "require_balance", ALLOW),
    Rule("assemble-evidence", ALL, "evidence", "assemble", ALLOW),
    Rule("devnet-airdrop", {DEVNET_SAFE}, "solana", "airdrop", REQUIRE_APPROVAL),
    Rule("devnet-sign", {DEVNET_SAFE}, "solana", "sign", REQUIRE_APPROVAL),
    Rule("devnet-deploy", {DEVNET_SAFE}, "solana", "deploy", REQUIRE_APPROVAL),
    Rule("anchor-devnet-deploy", {DEVNET_SAFE}, "anchor", "deploy", REQUIRE_APPROVAL),
    Rule("anchor-local-deploy", {LOCAL_SAFE}, "anchor", "deploy", REQUIRE_APPROVAL),
    Rule("devnet-invoke", {DEVNET_SAFE}, "solana", "invoke", REQUIRE_APPROVAL),
    Rule("deny-upgrade", ALL, "solana", "upgrade", DENY),
    Rule("deny-upgrade-authority", ALL, "solana", "set_upgrade_authority", DENY)
  ]

  // ---------- rules ----------

  predicate Matches(rule: Rule, profile: Profile, command: Command) {
    && profile in rule.profiles
    && (rule.adapter == "*" || rule.adapter == command.adapter)
    && (rule.operation == "*" || rule.operation == command.operation)
  }

  /** The first matching rule from the k-th on decides. */
  function RuleDecision(rules: seq<Rule>, profile: Profile, command: Command, k: nat): Decision
    requires k <= |rules|
    decreases |rules| - k
  {
    if k == |rules| then Decision(DENY, "default-deny")
    else if Matches(rules[k], profile, command) then Decision(rules[k].effect, rules[k].id)
    else RuleDecision(rules, profile, command, k + 1)
  }

  // ---------- guards ----------

  const MATERIAL := {"airdrop", "sign", "deploy", "invoke"}

  predicate IsMaterial(command: Command) {
    (command.adapter == "solana" && command.operation in MATERIAL) || (command.adapter == "anchor" && command.operation == "deploy")
  }

  const MAINNETS := {"mainnet", "mainnet-beta"}
  const SAFE_CLUSTERS := {"devnet", "localnet", "localhost", "http://127.0.0.1:8899", "http://localhost:8899",
                          "https://api.devnet.solana.com"}

  /** str.lower on the letters of the cluster names. */
  function Lower(s: string): string {
    seq(|s|, i requires 0 <= i < |s| => if 'A' <= s[i] <= 'Z' then s[i] - 'A' + 'a' else s[i])
  }

  /** A cluster that is given and not empty. */
  predicate Given(value: Option<string>) {
    value.Some? && value.value != ""
  }

  predicate ValidHash(value: Option<string>) {
    value.Some? && |value.value| == 64 &&
    forall c <- value.value :: '0' <= c <= '9' || 'a' <= c <= 'f' || 'A' <= c <= 'F'
  }

  const PATH_KEYS := ["path", "destination", "workspace", "program_path"]

  /** The resolved path argument under a key, if it is a string. */
  function PathArgument(command: Command, context: Context, key: string): Option<PathFact> {
    match Get(command.arguments, key)
    case Some(Str(text)) => Some(context.resolve(text))
    case _ => None
  }

  predicate CreatesWorkspace(command: Command) {
    command.adapter == "filesystem" && command.operation == "create_workspace"
  }

  /** The loop over the path arguments from the k-th key on. */
  function PathGuard(command: Command, context: Context, k: nat): Option<Decision>
    requires k <= |PATH_KEYS|
    decreases |PATH_KEYS| - k
  {
    if k == |PATH_KEYS| then None
    else
      match PathArgument(command, context, PATH_KEYS[k])
      case None => PathGuard(command, context, k + 1)
      case Some(fact) =>
        if !fact.inside then Some(Decision(DENY, "path-escape"))
        else if CreatesWorkspace(command) && fact.present then Some(Decision(REQUIRE_APPROVAL, "workspace-exists"))
        else PathGuard(command, context, k + 1)
  }

  ghost predicate ValidWallet(wallet: Option<string>) {
    wallet.Some? && Base58.IsPublicKey(wallet.value)
  }

  predicate SpendWithin(limit: int, lamports: Option<int>) {
    lamports.Some? ==> 0 <= lamports.value <= limit
  }

  /** _guard_decision. */
  ghost function GuardDecision(limit: int, command: Command, context: Context): Option<Decision> {
    if ContainsRedaction(Obj(command.arguments)) then Some(Decision(DENY, "secret-input"))
    else if Given(context.cluster) && Lower(context.cluster.value) in MAINNETS then Some(Decision(DENY, "cluster-mainnet"))
    else if Given(context.cluster) && Lower(context.cluster.value) !in SAFE_CLUSTERS then Some(Decision(DENY, "cluster-not-allowlisted"))
    else if IsMaterial(command) && !Given(context.cluster) then Some(Decision(DENY, "cluster-unspecified"))
    else if IsMaterial(command) && !ValidWallet(context.wallet) then Some(Decision(DENY, "wallet-invalid"))
    else if IsMaterial(command) && context.maxLamports.None? then Some(Decision(DENY, "spend-unspecified"))
    else if IsMaterial(command) && !ValidHash(context.contractHash) then Some(Decision(DENY, "runtime-contract-invalid"))
    else if !SpendWithin(limit, context.maxLamports) then Some(Decision(DENY, "spend-limit"))
    else if !context.cwdInside then Some(Decision(DENY, "path-escape"))
    else PathGuard(command, context, 0)
  }

  ghost function Evaluation(limit: int, rules: seq<Rule>, profile: Profile, command: Command, context: Context): Decision {
    match GuardDecision(limit, command, context)
    case Some(decision) => decision
    case None => RuleDecision(rules, profile, command, 0)
  }

  // ---------- the program ----------

  class PolicyEngine {
    const profile: Profile
    const rules: seq<Rule>
    const limit: int

    /** A negative limit is refused. */
    constructor (profile: Profile, rules: seq<Rule>, limit: int)
      requires limit >= 0
      ensures this.profile == profile && this.rules == rules && this.limit == limit
    {
      this.profile, this.rules, this.limit := profile, rules, limit;
    }

    method Evaluate(command: Command, context: Context) returns (d: Decision)
      ensures d == Evaluation(limit, rules, profile, command, context)
    {
      var guard := CheckGuards(command, context);
      if guard.Some? {
        return guard.value;
      }
      for i := 0 to |rules|
        invariant RuleDecision(rules, profile, command, 0) == RuleDecision(rules, profile, command, i)
      {
        if Matches(rules[i], profile, command) {
          return Decision(rules[i].effect, rules[i].id);
        }
      }
      d := Decision(DENY, "default-deny");
    }

    method CheckGuards(command: Command, context: Context) returns (d: Option<Decision>)
      ensures d == GuardDecision(limit, command, context)
    {
      if ContainsRedaction(Obj(command.arguments)) {
        return Some(Decision(DENY, "secret-input"));
      }
      if Given(context.cluster) {
        if Lower(context.cluster.value) in MAINNETS {
          return Some(Decision(DENY, "cluster-mainnet"));
        }
        if Lower(context.cluster.value) !in SAFE_CLUSTERS {
          return Some(Decision(DENY, "cluster-not-allowlisted"));
        }
      }
      if IsMaterial(command) {
        d := CheckMaterial(context);
        if d.Some? {
          return;
        }
      }
      if context.maxLamports.Some? && (context.maxLamports.value < 0 || context.maxLamports.value > limit) {
        return Some(Decision(DENY, "spend-limit"));
      }
      if !context.cwdInside {
        return Some(Decision(DENY, "path-escape"));
      }
      d := CheckPaths(command, context);
    }

    /** The guards of material operations. */
    method CheckMaterial(context: Context) returns (d: Option<Decision>)
      ensures d == if !Given(context.cluster) then Some(Decision(DENY, "cluster-unspecified"))
                   else if !ValidWallet(context.wallet) then Some(Decision(DENY, "wallet-invalid"))
                   else if context.maxLamports.None? then Some(Decision(DENY, "spend-unspecified"))
                   else if !ValidHash(context.contractHash) then Some(Decision(DENY, "runtime-contract-invalid"))
                   else None
    {
      if !Given(context.cluster) {
        return Some(Decision(DENY, "cluster-unspecified"));
      }
      var wallet := false;
      if context.wallet.Some? {
        wallet := Base58.ValidPublicKey(context.wallet.value);
      }
      if !wallet {
        return Some(Decision(DENY, "wallet-invalid"));
      }
      if context.maxLamports.None? {
        return Some(Decision(DENY, "spend-unspecified"));
      }
      if !ValidHash(context.contractHash) {
        return Some(Decision(DENY, "runtime-contract-invalid"));
      }
      d := None;
    }

    method CheckPaths(command: Command, context: Context) returns (d: Option<Decision>)
      ensures d == PathGuard(command, context, 0)
    {
      for k := 0 to |PATH_KEYS|
        invariant PathGuard(command, context, 0) == PathGuard(command, context, k)
      {
        var argument := PathArgument(command, context, PATH_KEYS[k]);
        if argument.Some? {
          if !argument.value.inside {
            return Some(Decision(DENY, "path-escape"));
          }
          if CreatesWorkspace(command) && argument.value.present {
            return Some(Decision(REQUIRE_APPROVAL, "workspace-exists"));
          }
        }
      }
      d := None;
    }
  }

  // ---------- the decision, told from the command and the context ----------

  /** The first rule for the profile that names the command's adapter and operation, each exactly or
      by a star, decides; without one the command is denied. */
  lemma {:induction false} FirstMatchDecides(rules: seq<Rule>, profile: Profile, command: Command, k: nat)
    requires k <= |rules|
    ensures var d := RuleDecision(rules, profile, command, k);
            || (d == Decision(DENY, "default-deny") && forall i :: k <= i < |rules| ==> !Names(rules[i], profile, command))
            || exists i :: k <= i < |rules| && Names(rules[i], profile, command) && d == Decision(rules[i].effect, rules[i].id)
                           && forall j :: k <= j < i ==> !Names(rules[j], profile, command)
    decreases |rules| - k
  {
    if k < |rules| && !Names(rules[k], profile, command) {
      FirstMatchDecides(rules, profile, command, k + 1);
    }
  }

  predicate Names(rule: Rule, profile: Profile, command: Command) {
    && profile in rule.profiles
    && (rule.adapter == command.adapter || rule.adapter == "*")
    && (rule.operation == command.operation || rule.operation == "*")
  }

  /** No argument that names a path leads out of the workspace, and none that exists is to be created. */
  ghost predicate PathsFine(command: Command, context: Context) {
    forall key <- PATH_KEYS ::
      PathArgument(command, context, key).Some? ==>
        var fact := PathArgument(command, context, key).value;
        fact.inside && (command.adapter == "filesystem" && command.operation == "create_workspace" ==> !fact.present)
  }

  lemma {:induction false} PathGuardPassesIff(command: Command, context: Context, k: nat)
    requires k <= |PATH_KEYS|
    ensures PathGuard(command, context, k) == None <==>
              forall j :: k <= j < |PATH_KEYS| && PathArgument(command, context, PATH_KEYS[j]).Some? ==>
                var fact := PathArgument(command, context, PATH_KEYS[j]).value;
                fact.inside && (command.adapter == "filesystem" && command.operation == "create_workspace" ==> !fact.present)
    decreases |PATH_KEYS| - k
  {
    if k < |PATH_KEYS| { PathGuardPassesIff(command, context, k + 1); }
  }

  /** The material operations: airdrop, sign, deploy and invoke of solana, and deploy of anchor. */
  predicate Material(command: Command) {
    || (command.adapter == "anchor" && command.operation == "deploy")
    || (command.adapter == "solana" && (command.operation == "airdrop" || command.operation == "sign"
                                        || command.operation == "deploy" || command.operation == "invoke"))
  }

  /** A hash is 64 hexadecimal digits. */
  predicate HexHash(value: Option<string>) {
    value.Some? && |value.value| == 64 &&
    forall i :: 0 <= i < 64 ==>
      '0' <= value.value[i] <= '9' || 'a' <= value.value[i] <= 'f' || 'A' <= value.value[i] <= 'F'
  }

  /** What every command must satisfy before a rule is looked at. */
  ghost predicate Passes(limit: int, command: Command, context: Context) {
    && !ContainsRedaction(Obj(command.arguments))
    && (context.cluster.Some? && context.cluster.value != "" ==> Lower(context.cluster.value) in SAFE_CLUSTERS)
    && (Material(command) ==>
          && context.cluster.Some? && context.cluster.value != ""
          && context.wallet.Some? && Base58.IsPublicKey(context.wallet.value)
          && context.maxLamports.Some? && HexHash(context.contractHash))
    && (context.maxLamports.Some? ==> 0 <= context.maxLamports.value <= limit)
    && context.cwdInside && PathsFine(command, context)
  }

  lemma HashesAgree(value: Option<string>)
    ensures ValidHash(value) <==> HexHash(value)
  {
    if ValidHash(value) {
      assert forall i :: 0 <= i < 64 ==> value.value[i] in value.value;
    }
    if HexHash(value) {
      forall c | c in value.value ensures '0' <= c <= '9' || 'a' <= c <= 'f' || 'A' <= c <= 'F' {
        var i :| 0 <= i < 64 && value.value[i] == c;
      }
    }
  }

  /** The guards let exactly those commands pass. */
  lemma GuardsPassIff(limit: int, command: Command, context: Context)
    ensures GuardDecision(limit, command, context) == None <==> Passes(limit, command, context)
  {
    PathGuardPassesIff(command, context, 0);
    HashesAgree(context.contractHash);
    assert PathsFine(command, context) <==> PathGuard(command, context, 0) == None;
    SafeIsNotMainnet(Lower(if context.cluster.Some? then context.cluster.value else ""));
    assert IsMaterial(command) <==> Material(command);
  }

  /** The first broken guard gives its name to the denial; only an existing workspace asks for an
      approval instead. */
  lemma GuardNamesDefect(limit: int, command: Command, context: Context)
    ensures match GuardDecision(limit, command, context)
            case None => true
            case Some(d) =>
              && (d.effect == REQUIRE_APPROVAL <==> d.ruleId == "workspace-exists")
              && (d.effect == DENY <==> d.ruleId != "workspace-exists")
              && (d.ruleId == "secret-input" <==> ContainsRedaction(Obj(command.arguments)))
              && (d.ruleId == "cluster-mainnet" ==> context.cluster.Some? && Lower(context.cluster.value) in MAINNETS)
              && (d.ruleId == "cluster-not-allowlisted" ==> context.cluster.Some? && Lower(context.cluster.value) !in SAFE_CLUSTERS)
              && (d.ruleId == "cluster-unspecified" ==> Material(command) && !(context.cluster.Some? && context.cluster.value != ""))
              && (d.ruleId == "wallet-invalid" ==>
                    Material(command) && !(context.wallet.Some? && Base58.IsPublicKey(context.wallet.value)))
              && (d.ruleId == "spend-unspecified" ==> Material(command) && context.maxLamports.None?)
              && (d.ruleId == "runtime-contract-invalid" ==> Material(command) && !HexHash(context.contractHash))
              && (d.ruleId == "spend-limit" ==>
                    context.maxLamports.Some? && (context.maxLamports.value < 0 || context.maxLamports.value > limit))
              && (d.ruleId == "path-escape" && context.cwdInside ==>
                    exists key <- PATH_KEYS :: PathArgument(command, context, key).Some? && !PathArgument(command, context, key).value.inside)
              && (d.ruleId == "workspace-exists" ==> command.adapter == "filesystem" && command.operation == "create_workspace")
  {
    PathGuardDecisions(command, context, 0);
    HashesAgree(context.contractHash);
    assert IsMaterial(command) <==> Material(command);
    if GuardDecision(limit, command, context) == Some(Decision(DENY, "path-escape")) && context.cwdInside {
      PathEscapes(command, context, 0);
    }
  }

  lemma {:induction false} PathEscapes(command: Command, context: Context, k: nat)
    requires k <= |PATH_KEYS| && PathGuard(command, context, k) == Some(Decision(DENY, "path-escape"))
    ensures exists key <- PATH_KEYS :: PathArgument(command, context, key).Some? && !PathArgument(command, context, key).value.inside
    decreases |PATH_KEYS| - k
  {
    var argument := PathArgument(command, context, PATH_KEYS[k]);
    if argument.Some? && !argument.value.inside {
      assert PATH_KEYS[k] in PATH_KEYS;
    } else {
      PathEscapes(command, context, k + 1);
    }
  }

  // ---------- secrets ----------

  /** A command whose planned arguments held anything secret is denied, whatever the rules and the
      context say. */
  lemma SecretsAreDenied(limit: int, p: Patterns, rules: seq<Rule>, profile: Profile, adapter: string, operation: string,
                         arguments: seq<Field>, context: Context)
    requires Paths(p, Obj(arguments), "") != []
    ensures Evaluation(limit, rules, profile, Command(adapter, operation, RedactFields(p, arguments)), context) == Decision(DENY, "secret-input")
  {
    DetectionIsVisible(p, Obj(arguments), "");
    assert Redact(p, Obj(arguments)) == Obj(RedactFields(p, arguments));
  }

  // ---------- the default rules ----------

  /** The only default rule that can match a command. */
  function OnlyCandidate(profile: Profile, command: Command): nat {
    var op := command.operation;
    if command.adapter == "doctor" then 0
    else if command.adapter == "filesystem" then (if op == "read" then 1 else if op == "create_workspace" then 2 else 3)
    else if command.adapter == "anchor" then
      (if op == "build" then 4 else if op == "scaffold" then 5 else if op == "test" then 7
       else if profile == DEVNET_SAFE then 19 else 20)
    else if command.adapter == "counter_template" then 6
    else if command.adapter == "package" then (if op == "install" then 8 else 9)
    else if command.adapter == "solana_rpc" then 10
    else if command.adapter == "evidence" then 15
    else if op == "start_validator" then 11 else if op == "simulate" then 12 else if op == "verify_program" then 13
    else if op == "require_balance" then 14 else if op == "airdrop" then 16 else if op == "sign" then 17
    else if op == "deploy" then 18 else if op == "invoke" then 21 else if op == "upgrade" then 22 else 23
  }

  lemma EarlyCandidateMatches(i: nat, profile: Profile, command: Command)
    requires i < 12 && Matches(DEFAULT_RULES[i], profile, command)
    ensures i == OnlyCandidate(profile, command)
  {
  }

  lemma LateCandidateMatches(i: nat, profile: Profile, command: Command)
    requires 12 <= i < |DEFAULT_RULES| && Matches(DEFAULT_RULES[i], profile, command)
    ensures i == OnlyCandidate(profile, command)
  {
  }

  lemma OnlyCandidateMatches(i: nat, profile: Profile, command: Command)
    requires i < |DEFAULT_RULES| && Matches(DEFAULT_RULES[i], profile, command)
    ensures i == OnlyCandidate(profile, command)
  {
    if i < 12 { EarlyCandidateMatches(i, profile, command); } else { LateCandidateMatches(i, profile, command); }
  }

  /** No command falls under two default rules, so their order does not matter. */
  lemma DefaultRulesAreDisjoint(i: nat, j: nat, profile: Profile, command: Command)
    requires i < j < |DEFAULT_RULES|
    ensures !(Matches(DEFAULT_RULES[i], profile, command) && Matches(DEFAULT_RULES[j], profile, command))
  {
    if Matches(DEFAULT_RULES[i], profile, command) { OnlyCandidateMatches(i, profile, command); }
    if Matches(DEFAULT_RULES[j], profile, command) { OnlyCandidateMatches(j, profile, command); }
  }

  lemma {:induction false} DecisionOfMatch(rules: seq<Rule>, profile: Profile, command: Command, k: nat, i: nat)
    requires k <= i < |rules| && Matches(rules[i], profile, command)
    requires forall j :: k <= j < i ==> !Matches(rules[j], profile, command)
    ensures RuleDecision(rules, profile, command, k) == Decision(rules[i].effect, rules[i].id)
    decreases i - k
  {
    if k < i { DecisionOfMatch(rules, profile, command, k + 1, i); }
  }

  lemma {:induction false} DecisionWithoutMatch(rules: seq<Rule>, profile: Profile, command: Command, k: nat)
    requires k <= |rules| && forall j :: k <= j < |rules| ==> !Matches(rules[j], profile, command)
    ensures RuleDecision(rules, profile, command, k) == Decision(DENY, "default-deny")
    decreases |rules| - k
  {
    if k < |rules| { DecisionWithoutMatch(rules, profile, command, k + 1); }
  }

  /** The decision of the default rules is that of the only candidate. */
  lemma DefaultDecision(profile: Profile, command: Command)
    ensures var i := OnlyCandidate(profile, command);
            && i < |DEFAULT_RULES|
            && RuleDecision(DEFAULT_RULES, profile, command, 0) ==
                 if Matches(DEFAULT_RULES[i], profile, command) then Decision(DEFAULT_RULES[i].effect, DEFAULT_RULES[i].id)
                 else Decision(DENY, "default-deny")
  {
    var i := OnlyCandidate(profile, command);
    forall j | 0 <= j < |DEFAULT_RULES| && j != i ensures !Matches(DEFAULT_RULES[j], profile, command) {
      if Matches(DEFAULT_RULES[j], profile, command) { OnlyCandidateMatches(j, profile, command); }
    }
    if Matches(DEFAULT_RULES[i], profile, command) {
      DecisionOfMatch(DEFAULT_RULES, profile, command, 0, i);
    } else {
      DecisionWithoutMatch(DEFAULT_RULES, profile, command, 0);
    }
  }

  function Strength(profile: Profile): nat {
    match profile case READ_ONLY => 0 case LOCAL_SAFE => 1 case DEVNET_SAFE => 2
  }

  const LOCAL_DEPLOY := 20
  const DEVNET_DEPLOY := 19

  /** But for the local deployment rule, a rule of a profile is one of the stronger profiles too. */
  lemma RulesAreUpwardClosed(i: nat, weak: Profile, strong: Profile)
    requires i < |DEFAULT_RULES| && i != LOCAL_DEPLOY && Strength(weak) <= Strength(strong) && weak in DEFAULT_RULES[i].profiles
    ensures strong in DEFAULT_RULES[i].profiles
  {
  }

  lemma CandidatesDifferForDeploy(weak: Profile, strong: Profile, command: Command)
    ensures var i, j := OnlyCandidate(weak, command), OnlyCandidate(strong, command);
            && i < |DEFAULT_RULES| && j < |DEFAULT_RULES|
            && (i != j ==> i in {LOCAL_DEPLOY, DEVNET_DEPLOY} && j in {LOCAL_DEPLOY, DEVNET_DEPLOY})
            && (i == LOCAL_DEPLOY ==> weak != DEVNET_SAFE)
  {
  }

  lemma DeployRules(i: nat)
    requires i in {LOCAL_DEPLOY, DEVNET_DEPLOY}
    ensures DEFAULT_RULES[i].adapter == "anchor" && DEFAULT_RULES[i].operation == "deploy"
    ensures DEFAULT_RULES[i].effect == REQUIRE_APPROVAL
    ensures DEFAULT_RULES[i].profiles == {if i == LOCAL_DEPLOY then LOCAL_SAFE else DEVNET_SAFE}
  {
  }

  lemma CandidateIsMonotone(weak: Profile, strong: Profile, command: Command)
    requires Strength(weak) <= Strength(strong)
    requires OnlyCandidate(weak, command) < |DEFAULT_RULES| && Matches(DEFAULT_RULES[OnlyCandidate(weak, command)], weak, command)
    ensures var i, j := OnlyCandidate(weak, command), OnlyCandidate(strong, command);
            j < |DEFAULT_RULES| && Matches(DEFAULT_RULES[j], strong, command) && DEFAULT_RULES[j].effect == DEFAULT_RULES[i].effect
  {
    var i, j := OnlyCandidate(weak, command), OnlyCandidate(strong, command);
    CandidatesDifferForDeploy(weak, strong, command);
    if i in {LOCAL_DEPLOY, DEVNET_DEPLOY} {
      DeployRules(i);
      DeployRules(j);
    } else {
      RulesAreUpwardClosed(i, weak, strong);
    }
  }

  /** What a weaker profile allows or asks approval for, a stronger one treats the same way: going
      from read-only to local-safe to devnet-safe takes no permission away. */
  lemma StrongerProfilesKeepDecisions(limit: int, weak: Profile, strong: Profile, command: Command, context: Context)
    requires Strength(weak) <= Strength(strong)
    requires Evaluation(limit, DEFAULT_RULES, weak, command, context).effect != DENY
    ensures Evaluation(limit, DEFAULT_RULES, strong, command, context).effect == Evaluation(limit, DEFAULT_RULES, weak, command, context).effect
  {
    if GuardDecision(limit, command, context).None? {
      DefaultDecision(weak, command);
      DefaultDecision(strong, command);
      CandidateIsMonotone(weak, strong, command);
    }
  }

  // ---------- material operations ----------

  /** Every path argument resolves inside the workspace. */
  ghost predicate PathsInside(command: Command, context: Context) {
    forall key <- PATH_KEYS :: PathArgument(command, context, key).Some? ==> PathArgument(command, context, key).value.inside
  }

  lemma {:induction false} PathGuardPasses(command: Command, context: Context, k: nat)
    requires k <= |PATH_KEYS| && !CreatesWorkspace(command)
    ensures PathGuard(command, context, k) == None || PathGuard(command, context, k) == Some(Decision(DENY, "path-escape"))
    ensures PathGuard(command, context, k) == None <==>
              forall j :: k <= j < |PATH_KEYS| ==>
                PathArgument(command, context, PATH_KEYS[j]).Some? ==> PathArgument(command, context, PATH_KEYS[j]).value.inside
    decreases |PATH_KEYS| - k
  {
    if k < |PATH_KEYS| { PathGuardPasses(command, context, k + 1); }
  }

  /** What the guards require of a material operation. */
  ghost predicate MaterialContext(limit: int, command: Command, context: Context) {
    && !ContainsRedaction(Obj(command.arguments))
    && Given(context.cluster) && Lower(context.cluster.value) in SAFE_CLUSTERS
    && ValidWallet(context.wallet)
    && context.maxLamports.Some? && 0 <= context.maxLamports.value <= limit
    && ValidHash(context.contractHash)
    && context.cwdInside && PathsInside(command, context)
  }

  lemma MaterialGuards(limit: int, command: Command, context: Context)
    requires IsMaterial(command)
    ensures match GuardDecision(limit, command, context)
            case None => MaterialContext(limit, command, context)
            case Some(d) => d.effect == DENY && !MaterialContext(limit, command, context)
  {
    PathGuardPasses(command, context, 0);
    assert PathsInside(command, context) <==> PathGuard(command, context, 0) == None;
    SafeIsNotMainnet(Lower(if context.cluster.Some? then context.cluster.value else ""));
  }

  lemma SafeIsNotMainnet(cluster: string)
    ensures !(cluster in SAFE_CLUSTERS && cluster in MAINNETS)
  {
    if cluster in MAINNETS {
      assert cluster[0] == 'm';
    }
  }

  lemma MaterialCandidate(profile: Profile, command: Command)
    requires IsMaterial(command)
    ensures var i := OnlyCandidate(profile, command);
            && i < |DEFAULT_RULES| && DEFAULT_RULES[i].effect == REQUIRE_APPROVAL
            && (Matches(DEFAULT_RULES[i], profile, command) <==>
                  profile == DEVNET_SAFE || (profile == LOCAL_SAFE && command.adapter == "anchor"))
  {
  }

  /** A material operation is never simply allowed. It may be approved exactly when every guard is
      satisfied and the profile covers it; otherwise it is denied. */
  lemma MaterialNeedsApproval(limit: int, profile: Profile, command: Command, context: Context)
    requires IsMaterial(command)
    ensures Evaluation(limit, DEFAULT_RULES, profile, command, context).effect != ALLOW
    ensures Evaluation(limit, DEFAULT_RULES, profile, command, context).effect == REQUIRE_APPROVAL <==>
              && MaterialContext(limit, command, context)
              && (profile == DEVNET_SAFE || (profile == LOCAL_SAFE && command.adapter == "anchor"))
  {
    MaterialGuards(limit, command, context);
    DefaultDecision(profile, command);
    MaterialCandidate(profile, command);
  }

  // ---------- the read-only profile ----------

  /** The operations that only read. */
  predicate OnlyReads(command: Command) {
    || (command.adapter == "doctor" && command.operation == "inspect")
    || (command.adapter == "filesystem" && command.operation == "read")
    || command.adapter == "solana_rpc"
    || (command.adapter == "solana" && command.operation in {"verify_program", "require_balance"})
    || (command.adapter == "evidence" && command.operation == "assemble")
  }

  lemma ReadsAreAllowed(command: Command)
    requires OnlyReads(command)
    ensures var i := OnlyCandidate(READ_ONLY, command);
            i < |DEFAULT_RULES| && Matches(DEFAULT_RULES[i], READ_ONLY, command) && DEFAULT_RULES[i].effect == ALLOW
  {
  }

  lemma ReadOnlyRules(i: nat, command: Command)
    requires i < |DEFAULT_RULES| && Matches(DEFAULT_RULES[i], READ_ONLY, command)
    ensures DEFAULT_RULES[i].effect != REQUIRE_APPROVAL
    ensures DEFAULT_RULES[i].effect == ALLOW ==> OnlyReads(command)
  {
  }

  lemma ReadOnlyCandidate(command: Command)
    ensures var i := OnlyCandidate(READ_ONLY, command);
            && i < |DEFAULT_RULES|
            && (Matches(DEFAULT_RULES[i], READ_ONLY, command) ==> DEFAULT_RULES[i].effect != REQUIRE_APPROVAL)
            && (Matches(DEFAULT_RULES[i], READ_ONLY, command) && DEFAULT_RULES[i].effect == ALLOW <==> OnlyReads(command))
  {
    var i := OnlyCandidate(READ_ONLY, command);
    if OnlyReads(command) { ReadsAreAllowed(command); }
    if Matches(DEFAULT_RULES[i], READ_ONLY, command) { ReadOnlyRules(i, command); }
  }

  /** The read-only profile allows exactly the reading operations whose guards pass. It asks for an
      approval exactly when the path guard does, which it does before any rule is looked at: for
      create_workspace over an existing path. */
  lemma ReadOnlyDecisions(limit: int, command: Command, context: Context)
    ensures Evaluation(limit, DEFAULT_RULES, READ_ONLY, command, context).effect == ALLOW <==>
              GuardDecision(limit, command, context).None? && OnlyReads(command)
    ensures Evaluation(limit, DEFAULT_RULES, READ_ONLY, command, context).effect == REQUIRE_APPROVAL <==>
              GuardDecision(limit, command, context) == Some(Decision(REQUIRE_APPROVAL, "workspace-exists"))
    ensures Evaluation(limit, DEFAULT_RULES, READ_ONLY, command, context).effect == REQUIRE_APPROVAL ==> CreatesWorkspace(command)
  {
    DefaultDecision(READ_ONLY, command);
    ReadOnlyCandidate(command);
    PathGuardDecisions(command, context, 0);
  }

  lemma {:induction false} PathGuardDecisions(command: Command, context: Context, k: nat)
    requires k <= |PATH_KEYS|
    ensures match PathGuard(command, context, k)
            case None => true
            case Some(d) => d == Decision(DENY, "path-escape") || (d == Decision(REQUIRE_APPROVAL, "workspace-exists") && CreatesWorkspace(command))
    decreases |PATH_KEYS| - k
  {
    if k < |PATH_KEYS| { PathGuardDecisions(command, context, k + 1); }
  }

  /** The path argument under the k-th key names something present inside the workspace. */
  ghost predicate PresentInside(command: Command, context: Context, k: nat) {
    k < |PATH_KEYS| && PathArgument(command, context, PATH_KEYS[k]).Some?
    && PathArgument(command, context, PATH_KEYS[k]).value == PathFact(true, true)
  }

  ghost predicate Unremarkable(command: Command, context: Context, k: nat)
    requires k < |PATH_KEYS|
  {
    var argument := PathArgument(command, context, PATH_KEYS[k]);
    argument.Some? ==> argument.value.inside && !argument.value.present
  }

  /** The first path argument that is outside the workspace, or present in it, decides about a new
      workspace: presence asks for an approval, and later paths are not looked at. */
  lemma {:induction false} WorkspaceApproval(command: Command, context: Context, from: nat)
    requires CreatesWorkspace(command) && from <= |PATH_KEYS|
    ensures PathGuard(command, context, from) == Some(Decision(REQUIRE_APPROVAL, "workspace-exists")) <==>
              exists k: nat :: from <= k < |PATH_KEYS| && PresentInside(command, context, k)
                               && forall j :: from <= j < k ==> Unremarkable(command, context, j)
    decreases |PATH_KEYS| - from
  {
    if from < |PATH_KEYS| {
      WorkspaceApproval(command, context, from + 1);
      if PresentInside(command, context, from) {
        assert PathGuard(command, context, from) == Some(Decision(REQUIRE_APPROVAL, "workspace-exists"));
      } else if Unremarkable(command, context, from) {
        assert PathGuard(command, context, from) == PathGuard(command, context, from + 1);
      }
    }
  }

  /** The read-only profile asks for an approval of a workspace that is already there. */
  lemma ReadOnlyCanAskForApproval(limit: int) returns (command: Command, context: Context)
    ensures Evaluation(limit, DEFAULT_RULES, READ_ONLY, command, context) == Decision(REQUIRE_APPROVAL, "workspace-exists")
  {
    command := Command("filesystem", "create_workspace", [Field("path", Str("project"))]);
    context := Context(None, None, None, None, true, (text: string) => PathFact(true, true));
    assert !ContainsRedaction(command.arguments[0].value);
    assert PresentInside(command, context, 0);
    WorkspaceApproval(command, context, 0);
  }

  // ---------- the writing profiles ----------

  /** What both writing profiles allow beyond reading: to build, scaffold, test, install and simulate. */
  predicate OnlyWrites(command: Command) {
    || (command.adapter == "filesystem" && command.operation == "create_workspace")
    || (command.adapter == "anchor" && command.operation in {"build", "scaffold", "test"})
    || (command.adapter == "counter_template" && command.operation == "apply")
    || (command.adapter == "package" && command.operation == "install")
    || (command.adapter == "solana" && command.operation in {"start_validator", "simulate"})
  }

  /** What a writing profile asks an approval for: overwriting, running packages, deploying, and in
      the devnet profile the other material operations. */
  predicate NeedsApproval(profile: Profile, command: Command) {
    || (command.adapter == "filesystem" && command.operation == "overwrite")
    || (command.adapter == "package" && command.operation == "run")
    || (command.adapter == "anchor" && command.operation == "deploy")
    || (profile == DEVNET_SAFE && command.adapter == "solana" && command.operation in {"airdrop", "sign", "deploy", "invoke"})
  }

  lemma WritersRead(profile: Profile, command: Command)
    requires profile in WRITERS && OnlyReads(command)
    ensures var i := OnlyCandidate(profile, command);
            i < |DEFAULT_RULES| && Matches(DEFAULT_RULES[i], profile, command) && DEFAULT_RULES[i].effect == ALLOW
  {
  }

  lemma WritersWrite(profile: Profile, command: Command)
    requires profile in WRITERS && OnlyWrites(command)
    ensures var i := OnlyCandidate(profile, command);
            i < |DEFAULT_RULES| && Matches(DEFAULT_RULES[i], profile, command) && DEFAULT_RULES[i].effect == ALLOW
  {
  }

  lemma WritersAsk(profile: Profile, command: Command)
    requires profile in WRITERS && NeedsApproval(profile, command)
    ensures var i := OnlyCandidate(profile, command);
            i < |DEFAULT_RULES| && Matches(DEFAULT_RULES[i], profile, command) && DEFAULT_RULES[i].effect == REQUIRE_APPROVAL
  {
  }

  lemma EarlyWriterRules(i: nat, profile: Profile, command: Command)
    requires i < 12 && profile in WRITERS && Matches(DEFAULT_RULES[i], profile, command)
    ensures DEFAULT_RULES[i].effect == ALLOW ==> OnlyReads(command) || OnlyWrites(command)
    ensures DEFAULT_RULES[i].effect == REQUIRE_APPROVAL ==> NeedsApproval(profile, command)
  {
  }

  lemma LateWriterRules(i: nat, profile: Profile, command: Command)
    requires 12 <= i < |DEFAULT_RULES| && profile in WRITERS && Matches(DEFAULT_RULES[i], profile, command)
    ensures DEFAULT_RULES[i].effect == ALLOW ==> OnlyReads(command) || OnlyWrites(command)
    ensures DEFAULT_RULES[i].effect == REQUIRE_APPROVAL ==> NeedsApproval(profile, command)
  {
  }

  lemma WriterCandidate(profile: Profile, command: Command)
    requires profile in WRITERS
    ensures var i := OnlyCandidate(profile, command);
            && i < |DEFAULT_RULES|
            && (Matches(DEFAULT_RULES[i], profile, command) && DEFAULT_RULES[i].effect == ALLOW <==> OnlyReads(command) || OnlyWrites(command))
            && (Matches(DEFAULT_RULES[i], profile, command) && DEFAULT_RULES[i].effect == REQUIRE_APPROVAL <==> NeedsApproval(profile, command))
  {
    if OnlyReads(command) {
      WritersRead(profile, command);
    } else if OnlyWrites(command) {
      WritersWrite(profile, command);
    }
    if NeedsApproval(profile, command) { WritersAsk(profile, command); }
    DefaultDecision(profile, command);
    var i := OnlyCandidate(profile, command);
    if Matches(DEFAULT_RULES[i], profile, command) {
      if i < 12 { EarlyWriterRules(i, profile, command); } else { LateWriterRules(i, profile, command); }
    }
  }

  /** The exact permissions of the writing profiles. */
  lemma WriterDecisions(limit: int, profile: Profile, command: Command, context: Context)
    requires profile in WRITERS
    ensures Evaluation(limit, DEFAULT_RULES, profile, command, context).effect == ALLOW <==>
              Passes(limit, command, context) && (OnlyReads(command) || OnlyWrites(command))
    ensures Evaluation(limit, DEFAULT_RULES, profile, command, context).effect == REQUIRE_APPROVAL <==>
              || GuardDecision(limit, command, context) == Some(Decision(REQUIRE_APPROVAL, "workspace-exists"))
              || (Passes(limit, command, context) && NeedsApproval(profile, command))
  {
    GuardsPassIff(limit, command, context);
    GuardNamesDefect(limit, command, context);
    DefaultDecision(profile, command);
    WriterCandidate(profile, command);
    PathGuardDecisions(command, context, 0);
  }
}
