// The deployment contract of app.py.

module Stacks {
  // expected_stacks lists the stacks a configuration makes, app.py makes them.
  // Both decide for themselves; app.py reads its flags from the raw environment,
  // and adds the dependencies between stacks.

  import opened Text
  import opened Sorting
  import opened EnvTransport

  datatype Stack =
    | NetworkingStack | SecurityStack | AuthStack | IdentityStack | MemoryStack | GatewayStack
    | OrchestratorStack | CodeAgentStack | ResearchAgentStack | ObservabilityStack

  function Suffix(s: Stack): string {
    match s
    case NetworkingStack => "networking"
    case SecurityStack => "security"
    case AuthStack => "auth"
    case IdentityStack => "identity"
    case MemoryStack => "memory"
    case GatewayStack => "gateway"
    case OrchestratorStack => "runtime-orchestrator"
    case CodeAgentStack => "runtime-code-agent"
    case ResearchAgentStack => "runtime-research-agent"
    case ObservabilityStack => "observability"
  }

  datatype Role = Standalone | PlatformRole | WorkloadRole

  // What decides which core stacks exist.
  datatype Facts = Facts(networking: bool, security: bool, a2a: bool, role: Role)

  datatype Manifest = Manifest(needs: set<string>, stacks: seq<string>)

  // The rest of the configuration, as far as the footprint goes.
  datatype Site = Site(
    workloadAccounts: seq<string>,
    federationComplete: bool,
    useCases: set<string>,
    manifests: map<string, Manifest>)

  // Validation: enabled use cases exist, and their stacks are namespaced.
  ghost predicate ValidSite(site: Site) {
    && site.useCases <= site.manifests.Keys
    && forall n, i :: n in site.manifests && 0 <= i < |site.manifests[n].stacks| ==>
         "uc-" <= site.manifests[n].stacks[i]
  }

  // sorted(use_cases)
  ghost predicate SortedNames(names: seq<string>, of: set<string>) {
    && (forall n :: n in names <==> n in of)
    && forall i, j :: 0 <= i < j < |names| ==> Lt(names[i], names[j])
  }

  // ---- federated_role -------------------------------------------------------------------

  // None is the ValueError for an account on neither side.
  function FederatedRole(c: Config, site: Site, account: string): (r: Option<Role>)
    requires Total(c)
    ensures r.None? <==> c[DeploymentStrategy].s == "federated" && account != c[PlatformAccount].s
                         && account !in site.workloadAccounts
    ensures r == Some(Standalone) <==> c[DeploymentStrategy].s != "federated"
  {
    if c[DeploymentStrategy].s != "federated" then Some(Standalone)
    else if account == c[PlatformAccount].s then Some(PlatformRole)
    else if account in site.workloadAccounts then Some(WorkloadRole)
    else None
  }

  // ---- The core footprint -----------------------------------------------------------------

  const STACKS: nat := 10

  function At(i: nat): Stack
    requires i < STACKS
  {
    if i == 0 then NetworkingStack
    else if i == 1 then SecurityStack
    else if i == 2 then AuthStack
    else if i == 3 then IdentityStack
    else if i == 4 then MemoryStack
    else if i == 5 then GatewayStack
    else if i == 6 then OrchestratorStack
    else if i == 7 then CodeAgentStack
    else if i == 8 then ResearchAgentStack
    else ObservabilityStack
  }

  function Rank(s: Stack): (r: nat)
    ensures r < STACKS && At(r) == s
  {
    match s
    case NetworkingStack => 0
    case SecurityStack => 1
    case AuthStack => 2
    case IdentityStack => 3
    case MemoryStack => 4
    case GatewayStack => 5
    case OrchestratorStack => 6
    case CodeAgentStack => 7
    case ResearchAgentStack => 8
    case ObservabilityStack => 9
  }

  predicate Has(f: Facts, s: Stack) {
    match s
    case NetworkingStack => f.networking
    case SecurityStack => f.security
    case AuthStack => f.role != WorkloadRole
    case IdentityStack => true
    case MemoryStack => f.role != PlatformRole
    case GatewayStack => f.role != WorkloadRole
    case OrchestratorStack => f.role != PlatformRole
    case CodeAgentStack => f.a2a && f.role != PlatformRole
    case ResearchAgentStack => f.a2a && f.role != PlatformRole
    case ObservabilityStack => true
  }

  // The first n stacks of the canonical order, without those that do not exist.
  function Keep(n: nat, f: Facts): seq<Stack>
    requires n <= STACKS
  {
    if n == 0 then [] else Keep(n - 1, f) + (if Has(f, At(n - 1)) then [At(n - 1)] else [])
  }

  function Core(f: Facts): seq<Stack> { Keep(STACKS, f) }

  function NameOf(prefix: string, suffix: string): string { prefix + "-" + suffix }

  function Names(prefix: string, stacks: seq<Stack>): seq<string> {
    if stacks == [] then []
    else Names(prefix, stacks[..|stacks| - 1]) + [NameOf(prefix, Suffix(stacks[|stacks| - 1]))]
  }

  lemma NamesNext(prefix: string, init: seq<Stack>, last: Stack)
    ensures Names(prefix, init + [last]) == Names(prefix, init) + [NameOf(prefix, Suffix(last))]
  {
    assert (init + [last])[..|init|] == init;
  }

  lemma {:induction false} NameAt(prefix: string, stacks: seq<Stack>, i: nat)
    requires i < |stacks|
    ensures |Names(prefix, stacks)| == |stacks| && Names(prefix, stacks)[i] == NameOf(prefix, Suffix(stacks[i]))
    decreases |stacks|
  {
    var n := |stacks| - 1;
    var init, last := stacks[..n], stacks[n];
    assert stacks == init + [last];
    NamesNext(prefix, init, last);
    if i < n {
      NameAt(prefix, init, i);
    } else if n > 0 {
      NameAt(prefix, init, 0);
    }
  }

  lemma NamesAt(prefix: string, stacks: seq<Stack>)
    ensures |Names(prefix, stacks)| == |stacks|
    ensures forall i :: 0 <= i < |stacks| ==> Names(prefix, stacks)[i] == NameOf(prefix, Suffix(stacks[i]))
  {
    if stacks != [] {
      NameAt(prefix, stacks, 0);
    }
    forall i: nat | i < |stacks|
      ensures Names(prefix, stacks)[i] == NameOf(prefix, Suffix(stacks[i]))
    {
      NameAt(prefix, stacks, i);
    }
  }

  lemma {:induction false} KeepPrefix(m: nat, n: nat, f: Facts)
    requires m <= n <= STACKS
    ensures Keep(m, f) <= Keep(n, f)
    decreases n
  {
    if m < n {
      KeepPrefix(m, n - 1, f);
    }
  }

  // A stack that exists stands right after the kept ones of lower rank.
  lemma KeepPosition(f: Facts, s: Stack)
    requires Has(f, s)
    ensures |Keep(Rank(s), f)| < |Core(f)| && Core(f)[|Keep(Rank(s), f)|] == s
  {
    KeepPrefix(Rank(s) + 1, STACKS, f);
  }

  // ---- Use cases ------------------------------------------------------------------------------

  function UseCaseNames(prefix: string, names: seq<string>, manifests: map<string, Manifest>): seq<string>
    requires forall n :: n in names ==> n in manifests
  {
    if names == [] then []
    else
      var last := names[|names| - 1];
      UseCaseNames(prefix, names[..|names| - 1], manifests) + Suffixed(prefix, manifests[last].stacks)
  }

  function Suffixed(prefix: string, suffixes: seq<string>): seq<string> {
    if suffixes == [] then []
    else Suffixed(prefix, suffixes[..|suffixes| - 1]) + [NameOf(prefix, suffixes[|suffixes| - 1])]
  }

  predicate Met(name: string, f: Facts, manifests: map<string, Manifest>)
    requires name in manifests
  {
    forall x :: x in manifests[name].needs ==> exists s: Stack :: Has(f, s) && Suffix(s) == x
  }

  // A need is met exactly when the stack of that name is in the core footprint.
  lemma NeedIsAName(prefix: string, x: string, f: Facts)
    ensures (exists s: Stack :: Has(f, s) && Suffix(s) == x) <==> prefix + "-" + x in Names(prefix, Core(f))
  {
    NamesAt(prefix, Core(f));
    if s: Stack :| Has(f, s) && Suffix(s) == x {
      KeepPosition(f, s);
      assert Names(prefix, Core(f))[|Keep(Rank(s), f)|] == prefix + "-" + x;
    }
    if i :| 0 <= i < |Core(f)| && Names(prefix, Core(f))[i] == prefix + "-" + x {
      KeptExist(STACKS, f);
      SuffixOfName(prefix, Suffix(Core(f)[i]), x);
    }
  }

  lemma SuffixOfName(prefix: string, x: string, y: string)
    requires NameOf(prefix, x) == prefix + "-" + y
    ensures x == y
  {
    assert NameOf(prefix, x)[|prefix| + 1..] == x && (prefix + "-" + y)[|prefix| + 1..] == y;
  }

  lemma {:induction false} KeptExist(n: nat, f: Facts)
    requires n <= STACKS
    ensures forall i :: 0 <= i < |Keep(n, f)| ==> Has(f, Keep(n, f)[i])
  {
    if n > 0 {
      KeptExist(n - 1, f);
    }
  }

  lemma MetIsNamed(prefix: string, name: string, f: Facts, manifests: map<string, Manifest>)
    requires name in manifests
    ensures Met(name, f, manifests)
            <==> forall x :: x in manifests[name].needs ==> prefix + "-" + x in Names(prefix, Core(f))
  {
    forall x
      ensures (exists s: Stack :: Has(f, s) && Suffix(s) == x) <==> prefix + "-" + x in Names(prefix, Core(f))
    {
      NeedIsAName(prefix, x, f);
    }
  }

  // The core footprint line by line: when a stack is there, and what it is called.
  function Footprint(f: Facts): seq<(bool, string)> {
    [(f.networking, "-networking"), (f.security, "-security"),
     (f.role != WorkloadRole, "-auth"), (true, "-identity"),
     (f.role != PlatformRole, "-memory"), (f.role != WorkloadRole, "-gateway"),
     (f.role != PlatformRole, "-runtime-orchestrator"),
     (f.role != PlatformRole && f.a2a, "-runtime-code-agent"),
     (f.role != PlatformRole && f.a2a, "-runtime-research-agent"),
     (true, "-observability")]
  }

  function Lines(prefix: string, rows: seq<(bool, string)>): seq<string> {
    if rows == [] then []
    else
      var last := rows[|rows| - 1];
      Lines(prefix, rows[..|rows| - 1]) + Row(prefix, last.0, last.1)
  }

  lemma LinesNext(prefix: string, rows: seq<(bool, string)>, n: nat)
    requires n < |rows|
    ensures Lines(prefix, rows[..n + 1])
            == Lines(prefix, rows[..n]) + Row(prefix, rows[n].0, rows[n].1)
  {
    assert rows[..n + 1][..n] == rows[..n];
  }

  // Each row says when its stack is there, and what its name ends in.
  ghost predicate Spelled(rows: seq<(bool, string)>, f: Facts) {
    |rows| == STACKS && forall n: nat :: n < STACKS ==> rows[n].0 == Has(f, At(n)) && rows[n].1 == "-" + Suffix(At(n))
  }

  lemma CoreSpelledOut(prefix: string, f: Facts)
    ensures Names(prefix, Core(f)) == Lines(prefix, Footprint(f))
  {
    FootprintSpells(f);
    KeepSpelledOut(prefix, f, Footprint(f), STACKS);
    assert Footprint(f)[..STACKS] == Footprint(f);
  }

  lemma FootprintSpells(f: Facts)
    ensures Spelled(Footprint(f), f)
  {
    forall n: nat | n < STACKS
      ensures Footprint(f)[n].0 == Has(f, At(n)) && Footprint(f)[n].1 == "-" + Suffix(At(n))
    {
      RowOf(f, n);
    }
  }

  function Row(prefix: string, there: bool, ending: string): seq<string> { if there then [prefix + ending] else [] }

  lemma NextRow(prefix: string, f: Facts, rows: seq<(bool, string)>, n: nat)
    requires Spelled(rows, f) && n < STACKS
    ensures Names(prefix, Keep(n + 1, f)) == Names(prefix, Keep(n, f)) + Row(prefix, rows[n].0, rows[n].1)
  {
    KeepNext(prefix, n, f);
    Dash(prefix, Suffix(At(n)), rows[n].1);
  }

  lemma {:induction false} KeepSpelledOut(prefix: string, f: Facts, rows: seq<(bool, string)>, n: nat)
    requires Spelled(rows, f) && n <= STACKS
    ensures Names(prefix, Keep(n, f)) == Lines(prefix, rows[..n])
    decreases n
  {
    if n > 0 {
      KeepSpelledOut(prefix, f, rows, n - 1);
      LinesNext(prefix, rows, n - 1);
      NextRow(prefix, f, rows, n - 1);
    }
  }

  lemma RowOf(f: Facts, n: nat)
    requires n < STACKS
    ensures Footprint(f)[n].0 == Has(f, At(n)) && Footprint(f)[n].1 == "-" + Suffix(At(n))
  {
    if n < 3 {
      FirstRows(f, n);
    } else if n < 6 {
      MiddleRows(f, n);
    } else if n < 8 {
      RuntimeRows(f, n);
    } else {
      LastRows(f, n);
    }
  }

  lemma FirstRows(f: Facts, n: nat)
    requires n < 3
    ensures Footprint(f)[n].0 == Has(f, At(n)) && Footprint(f)[n].1 == "-" + Suffix(At(n))
  {
  }

  lemma MiddleRows(f: Facts, n: nat)
    requires 3 <= n < 6
    ensures Footprint(f)[n].0 == Has(f, At(n)) && Footprint(f)[n].1 == "-" + Suffix(At(n))
  {
  }

  lemma RuntimeRows(f: Facts, n: nat)
    requires 6 <= n < 8
    ensures Footprint(f)[n].0 == Has(f, At(n)) && Footprint(f)[n].1 == "-" + Suffix(At(n))
  {
  }

  lemma LastRows(f: Facts, n: nat)
    requires 8 <= n < STACKS
    ensures Footprint(f)[n].0 == Has(f, At(n)) && Footprint(f)[n].1 == "-" + Suffix(At(n))
  {
  }

  lemma KeepNext(prefix: string, n: nat, f: Facts)
    requires n < STACKS
    ensures Names(prefix, Keep(n + 1, f))
            == Names(prefix, Keep(n, f)) + (if Has(f, At(n)) then [NameOf(prefix, Suffix(At(n)))] else [])
  {
    var s := Keep(n + 1, f);
    if Has(f, At(n)) {
      assert s == Keep(n, f) + [At(n)];
      assert s[..|s| - 1] == Keep(n, f) && s[|s| - 1] == At(n);
    } else {
      assert s == Keep(n, f);
    }
  }

  lemma Dash(prefix: string, x: string, dashed: string)
    requires dashed == "-" + x
    ensures NameOf(prefix, x) == prefix + dashed
  {
  }

  // ---- expected_stacks ---------------------------------------------------------------------------

  datatype Plan = Listed(names: seq<string>) | WrongAccount | Unmet(useCase: string)

  function Prefix(c: Config): string
    requires Total(c)
  {
    c[Project].s + "-" + c[Environment].s
  }

  function ConfigFacts(c: Config, role: Role): Facts
    requires Total(c)
  {
    Facts(c[Networking].b, c[CloudtrailAlerting].b, c[A2a].b, role)
  }

  // The full list, were every use case's needs met.
  function FullNames(prefix: string, f: Facts, sorted: seq<string>, site: Site): seq<string>
    requires forall n :: n in sorted ==> n in site.manifests
  {
    Names(prefix, Core(f)) + UseCaseNames(prefix, sorted, site.manifests)
  }

  // stacks.append under a condition.
  method Append(stacks: seq<Stack>, ghost f: Facts, s: Stack, ghost n: nat, present: bool) returns (more: seq<Stack>)
    requires n < STACKS && s == At(n) && stacks == Keep(n, f) && present == Has(f, s)
    ensures more == Keep(n + 1, f)
  {
    more := if present then stacks + [s] else stacks;
  }

  method ExpectedStacks(c: Config, site: Site, account: string, sorted: seq<string>) returns (r: Plan)
    requires Total(c) && ValidSite(site) && SortedNames(sorted, site.useCases)
    ensures r.WrongAccount? <==> FederatedRole(c, site, account).None?
    ensures !r.WrongAccount? ==>
      var f := ConfigFacts(c, FederatedRole(c, site, account).value);
      var core := Lines(c[Project].s + "-" + c[Environment].s, Footprint(f));
      && (r.Listed? ==>
            && r.names == core + UseCaseNames(Prefix(c), sorted, site.manifests)
            && forall n :: n in site.useCases ==> MetBy(n, core, Prefix(c), site))
      && (r.Unmet? ==> r.useCase in site.useCases && !MetBy(r.useCase, core, Prefix(c), site)
                       && forall n :: n in site.useCases && Lt(n, r.useCase) ==> MetBy(n, core, Prefix(c), site))
  {
    var found := FederatedRole(c, site, account);
    if found.None? {
      return WrongAccount;
    }
    var role := found.value;
    var stacks := CoreList(c[Networking].b, c[CloudtrailAlerting].b, c[A2a].b, role);
    CoreSpelledOut(Prefix(c), ConfigFacts(c, role));
    r := AddUseCases(Names(Prefix(c), stacks), Prefix(c), ConfigFacts(c, role), site, sorted);
    forall n | n in site.useCases
      ensures Met(n, ConfigFacts(c, role), site.manifests) <==> MetBy(n, Names(Prefix(c), stacks), Prefix(c), site)
    {
      MetIsNamed(Prefix(c), n, ConfigFacts(c, role), site.manifests);
    }
  }

  // Every need of the use case is the name of one of these stacks.
  ghost predicate MetBy(useCase: string, core: seq<string>, prefix: string, site: Site)
    requires useCase in site.manifests
  {
    forall x :: x in site.manifests[useCase].needs ==> prefix + "-" + x in core
  }

  // The first half: the core stacks, in order.
  method CoreList(networking: bool, security: bool, a2a: bool, role: Role) returns (stacks: seq<Stack>)
    ensures stacks == Core(Facts(networking, security, a2a, role))
  {
    ghost var f := Facts(networking, security, a2a, role);
    stacks := [];
    stacks := Append(stacks, f, NetworkingStack, 0, networking);
    stacks := Append(stacks, f, SecurityStack, 1, security);
    stacks := Append(stacks, f, AuthStack, 2, role != WorkloadRole);
    stacks := Append(stacks, f, IdentityStack, 3, true);
    stacks := Append(stacks, f, MemoryStack, 4, role != PlatformRole);
    stacks := Append(stacks, f, GatewayStack, 5, role != WorkloadRole);
    stacks := Append(stacks, f, OrchestratorStack, 6, role != PlatformRole);
    stacks := Append(stacks, f, CodeAgentStack, 7, role != PlatformRole && a2a);
    stacks := Append(stacks, f, ResearchAgentStack, 8, role != PlatformRole && a2a);
    stacks := Append(stacks, f, ObservabilityStack, 9, true);
  }

  // In a sorted list, what is less stands earlier.
  lemma EarlierNames(sorted: seq<string>, i: nat)
    requires i < |sorted| && forall j, k :: 0 <= j < k < |sorted| ==> Lt(sorted[j], sorted[k])
    ensures forall n :: n in sorted && Lt(n, sorted[i]) ==> exists k :: 0 <= k < i && sorted[k] == n
  {
    forall n | n in sorted && Lt(n, sorted[i])
      ensures exists k :: 0 <= k < i && sorted[k] == n
    {
      var k :| 0 <= k < |sorted| && sorted[k] == n;
      if k > i {
        LeAntisymmetric(n, sorted[i]);
      }
    }
  }

  // The second half: use cases in sorted order, each checked against the core
  // footprint first.
  method AddUseCases(core: seq<string>, prefix: string, f: Facts, site: Site, sorted: seq<string>) returns (r: Plan)
    requires ValidSite(site) && SortedNames(sorted, site.useCases)
    ensures r.Listed? || r.Unmet?
    ensures r.Listed? ==> r.names == core + UseCaseNames(prefix, sorted, site.manifests)
                          && forall n :: n in sorted ==> Met(n, f, site.manifests)
    ensures r.Unmet? ==> r.useCase in sorted && !Met(r.useCase, f, site.manifests)
                         && forall n :: n in sorted && Lt(n, r.useCase) ==> Met(n, f, site.manifests)
  {
    var stacks := core;
    var i := 0;
    assert sorted[..0] == [];
    while i < |sorted|
      invariant 0 <= i <= |sorted|
      invariant stacks == core + UseCaseNames(prefix, sorted[..i], site.manifests)
      invariant forall k :: 0 <= k < i ==> Met(sorted[k], f, site.manifests)
    {
      assert sorted[..i + 1][..i] == sorted[..i];
      var name := sorted[i];
      if !Met(name, f, site.manifests) {
        EarlierNames(sorted, i);
        return Unmet(name);
      }
      stacks := stacks + Suffixed(prefix, site.manifests[name].stacks);
      i := i + 1;
    }
    assert sorted[..|sorted|] == sorted;
    r := Listed(stacks);
  }

  // ---- app.py ---------------------------------------------------------------------------------------

  // environment > platform.yaml > legacy default; no context override is set.
  function Cfg(env: Environ, yaml: Environ, k: Key, default: string): string {
    if Given(env, k) then env[k] else if Given(yaml, k) then yaml[k] else default
  }

  predicate AppFlag(env: Environ, yaml: Environ, k: Key, default: string) { Cfg(env, yaml, k, default) == "true" }

  predicate NetworkingOn(env: Environ, yaml: Environ) { AppFlag(env, yaml, ENABLE_NETWORKING, "false") }

  predicate SecurityOn(env: Environ, yaml: Environ) { AppFlag(env, yaml, ENABLE_SECURITY, "false") }

  predicate A2aOn(env: Environ, yaml: Environ) { AppFlag(env, yaml, ENABLE_A2A, "true") }

  function AppFacts(env: Environ, yaml: Environ, role: Role): Facts {
    Facts(NetworkingOn(env, yaml), SecurityOn(env, yaml), A2aOn(env, yaml), role)
  }

  function AppPrefix(env: Environ, yaml: Environ): string {
    Cfg(env, yaml, PROJECT_NAME, "agentcore-workshop") + "-" + Cfg(env, yaml, ENVIRONMENT, "dev")
  }

  // Without a manifest there is only the environment, and what app.py falls back to.
  lemma WithoutAManifest(env: Environ, role: Role)
    ensures AppFacts(env, map[], role)
            == Facts(ENABLE_NETWORKING in env && env[ENABLE_NETWORKING] == "true",
                     ENABLE_SECURITY in env && env[ENABLE_SECURITY] == "true",
                     ENABLE_A2A !in env || env[ENABLE_A2A] == "" || env[ENABLE_A2A] == "true", role)
    ensures AppPrefix(env, map[])
            == (if PROJECT_NAME in env && env[PROJECT_NAME] != "" then env[PROJECT_NAME] else "agentcore-workshop")
               + "-" + (if ENVIRONMENT in env && env[ENVIRONMENT] != "" then env[ENVIRONMENT] else "dev")
  {
    assert "true"[0] == 't' && "false"[0] == 'f';
  }

  // add_dependency calls: the first stack waits for the second.
  predicate DependsOn(a: Stack, b: Stack) {
    match a
    case IdentityStack => b == AuthStack
    case MemoryStack => b in {AuthStack, SecurityStack}
    case GatewayStack => b == AuthStack
    case OrchestratorStack => b in {GatewayStack, MemoryStack, NetworkingStack, IdentityStack}
    case CodeAgentStack => b in {AuthStack, NetworkingStack}
    case ResearchAgentStack => b in {AuthStack, GatewayStack, IdentityStack, NetworkingStack}
    case ObservabilityStack => b in {OrchestratorStack, GatewayStack, MemoryStack, CodeAgentStack, ResearchAgentStack}
    case _ => false
  }

  // Pair by pair.
  lemma DependencyPairs(a: Stack, b: Stack)
    ensures DependsOn(a, b)
            <==> (a, b) in {
                   (IdentityStack, AuthStack), (MemoryStack, AuthStack), (GatewayStack, AuthStack),
                   (CodeAgentStack, AuthStack), (ResearchAgentStack, AuthStack), (MemoryStack, SecurityStack),
                   (OrchestratorStack, NetworkingStack), (CodeAgentStack, NetworkingStack),
                   (ResearchAgentStack, NetworkingStack), (OrchestratorStack, IdentityStack),
                   (ResearchAgentStack, IdentityStack), (OrchestratorStack, GatewayStack),
                   (ResearchAgentStack, GatewayStack), (ObservabilityStack, GatewayStack),
                   (OrchestratorStack, MemoryStack), (ObservabilityStack, MemoryStack),
                   (ObservabilityStack, OrchestratorStack), (ObservabilityStack, CodeAgentStack),
                   (ObservabilityStack, ResearchAgentStack)}
  {
  }

  datatype Refusal = BadOverride | UnknownMode | UndeclaredProduction | UnknownAccount | IncompleteFederation

  datatype Build = Built(stacks: seq<string>, edges: set<(Stack, Stack)>) | Refused(why: Refusal)

  method AddDependency(edges: set<(Stack, Stack)>, a: Stack, b: Stack, when: bool) returns (more: set<(Stack, Stack)>)
    ensures forall x, y :: (x, y) in more <==> (x, y) in edges || (when && x == a && y == b)
  {
    more := if when then edges + {(a, b)} else edges;
  }

  // The edges out of one stack are the table's, between stacks that exist.
  ghost predicate Wired(edges: set<(Stack, Stack)>, f: Facts, upTo: nat) {
    forall a, b :: (a, b) in edges <==> Rank(a) < upTo && DependsOn(a, b) && Has(f, a) && Has(f, b)
  }

  method WireServices(f: Facts) returns (edges: set<(Stack, Stack)>)
    ensures Wired(edges, f, 6)
  {
    var auth, memory, gateway := f.role != WorkloadRole, f.role != PlatformRole, f.role != WorkloadRole;
    edges := {};
    edges := AddDependency(edges, IdentityStack, AuthStack, auth);
    edges := AddDependency(edges, MemoryStack, AuthStack, memory && auth);
    edges := AddDependency(edges, MemoryStack, SecurityStack, memory && f.security);
    edges := AddDependency(edges, GatewayStack, AuthStack, gateway);
  }

  method WireRuntimes(f: Facts, before: set<(Stack, Stack)>) returns (edges: set<(Stack, Stack)>)
    requires Wired(before, f, 6)
    ensures Wired(edges, f, 9)
  {
    var auth, gateway, orchestrator := f.role != WorkloadRole, f.role != WorkloadRole, f.role != PlatformRole;
    edges := before;
    edges := AddDependency(edges, OrchestratorStack, GatewayStack, orchestrator && gateway);
    edges := AddDependency(edges, OrchestratorStack, MemoryStack, orchestrator);
    edges := AddDependency(edges, OrchestratorStack, NetworkingStack, orchestrator && f.networking);
    edges := AddDependency(edges, OrchestratorStack, IdentityStack, orchestrator);
    var a2a := f.a2a && f.role != PlatformRole;
    edges := AddDependency(edges, CodeAgentStack, AuthStack, a2a && auth);
    edges := AddDependency(edges, CodeAgentStack, NetworkingStack, a2a && f.networking);
    edges := AddDependency(edges, ResearchAgentStack, AuthStack, a2a && auth);
    edges := AddDependency(edges, ResearchAgentStack, GatewayStack, a2a && gateway);
    edges := AddDependency(edges, ResearchAgentStack, IdentityStack, a2a);
    edges := AddDependency(edges, ResearchAgentStack, NetworkingStack, a2a && f.networking);
  }

  method WireObservability(f: Facts, before: set<(Stack, Stack)>) returns (edges: set<(Stack, Stack)>)
    requires Wired(before, f, 9)
    ensures Wired(edges, f, 10)
  {
    edges := before;
    edges := AddDependency(edges, ObservabilityStack, OrchestratorStack, f.role != PlatformRole);
    edges := AddDependency(edges, ObservabilityStack, GatewayStack, f.role != WorkloadRole);
    edges := AddDependency(edges, ObservabilityStack, MemoryStack, f.role != PlatformRole);
    edges := AddDependency(edges, ObservabilityStack, CodeAgentStack, f.a2a && f.role != PlatformRole);
    edges := AddDependency(edges, ObservabilityStack, ResearchAgentStack, f.a2a && f.role != PlatformRole);
  }

  // The core stacks app.py makes, in the order it makes them.
  method MakeCore(f: Facts) returns (stacks: seq<Stack>)
    ensures stacks == Core(f)
  {
    stacks := [];
    stacks := Append(stacks, f, NetworkingStack, 0, f.networking);
    stacks := Append(stacks, f, SecurityStack, 1, f.security);
    var fedPlatform, fedWorkload := f.role == PlatformRole, f.role == WorkloadRole;
    stacks := Append(stacks, f, AuthStack, 2, !fedWorkload);
    stacks := Append(stacks, f, IdentityStack, 3, true);
    stacks := Append(stacks, f, MemoryStack, 4, !fedPlatform);
    stacks := Append(stacks, f, GatewayStack, 5, !fedWorkload);
    stacks := Append(stacks, f, OrchestratorStack, 6, !fedPlatform);
    stacks := Append(stacks, f, CodeAgentStack, 7, f.a2a && !fedPlatform);
    stacks := Append(stacks, f, ResearchAgentStack, 8, f.a2a && !fedPlatform);
    stacks := Append(stacks, f, ObservabilityStack, 9, true);
  }

  // Each enabled use case's build(), taken to make the stacks it declares.
  method MakeUseCases(core: seq<string>, prefix: string, site: Site, sorted: seq<string>) returns (stacks: seq<string>)
    requires ValidSite(site) && SortedNames(sorted, site.useCases)
    ensures stacks == core + UseCaseNames(prefix, sorted, site.manifests)
  {
    stacks := core;
    var i := 0;
    assert sorted[..0] == [];
    while i < |sorted|
      invariant 0 <= i <= |sorted|
      invariant stacks == core + UseCaseNames(prefix, sorted[..i], site.manifests)
    {
      assert sorted[..i + 1][..i] == sorted[..i];
      stacks := stacks + Suffixed(prefix, site.manifests[sorted[i]].stacks);
      i := i + 1;
    }
    assert sorted[..|sorted|] == sorted;
  }

  method BuildApp(loaded: Config, env: Environ, z: Schema, site: Site, account: string, sorted: seq<string>)
    returns (r: Build, ghost c: Config)
    requires Total(loaded) && ValidSite(site) && SortedNames(sorted, site.useCases)
    ensures r == Refused(BadOverride) <==> !Apply(loaded, env, z).Applied?
    ensures r != Refused(BadOverride) ==> Total(c) && Apply(loaded, env, z) == Applied(c)
    ensures r.Built? ==> FederatedRole(c, site, account).Some?
    ensures r.Built? ==>
      var f := AppFacts(env, ToEnv(c, z), FederatedRole(c, site, account).value);
      && r.stacks == FullNames(AppPrefix(env, ToEnv(c, z)), f, sorted, site)
      && (forall a, b :: (a, b) in r.edges <==> DependsOn(a, b) && Has(f, a) && Has(f, b))
      && (f.role == WorkloadRole ==> site.federationComplete)
    ensures r != Refused(UndeclaredProduction)
  {
    var applied := ApplyOverrides(loaded, env, z);
    if !applied.Applied? {
      c := loaded;
      return Refused(BadOverride), c;
    }
    var config := applied.c;
    c := config;
    AppliedIsTotal(loaded, env, z, config);
    var yaml := ToEnv(config, z);
    var mode := Cfg(env, yaml, DEPLOYMENT_MODE, "workshop");
    if mode != "workshop" && mode != "production" {
      return Refused(UnknownMode), c;
    }
    if mode == "production" && config[DeploymentMode].s != "production" {
      CfgIsConfig(loaded, env, z, config, DEPLOYMENT_MODE, "workshop");
      assert false;
    }
    var found := FederatedRole(config, site, account);
    if found.None? {
      return Refused(UnknownAccount), c;
    }
    if found.value == WorkloadRole && !site.federationComplete {
      return Refused(IncompleteFederation), c;
    }
    var f := AppFacts(env, yaml, found.value);
    var core := MakeCore(f);
    var prefix := AppPrefix(env, yaml);
    var stacks := MakeUseCases(Names(prefix, core), prefix, site, sorted);
    var edges := WireServices(f);
    edges := WireRuntimes(f, edges);
    edges := WireObservability(f, edges);
    r := Built(stacks, edges);
  }

  // ---- The two agree ----------------------------------------------------------------------------------

  // A text setting reaches app.py as the configuration has it.
  lemma CfgIsConfig(loaded: Config, env: Environ, z: Schema, c: Config, k: Key, default: string)
    requires Total(loaded) && Apply(loaded, env, z) == Applied(c)
    requires KindAt(Read(k)) == CharsKind && k != ENABLE_WEB_SEARCH
    ensures Total(c)
    ensures Cfg(env, ToEnv(c, z), k, default) == if c[Read(k)].s != "" then c[Read(k)].s else default
  {
    AppliedIsTotal(loaded, env, z, c);
    TextIsPrinted(c, z, k);
    if Given(env, k) {
      TablesAgree(k);
      PutGet(loaded, env, z, c, k);
      NormalText(k, env[k], z);
    }
  }

  // A flag reaches app.py as the configuration has it, unless it is given in a
  // spelling of true that app.py does not read as true.
  predicate FlagAgrees(env: Environ, k: Key) {
    Given(env, k) && Lower(env[k]) == "true" ==> env[k] == "true"
  }

  lemma ShowFlagReads(b: bool)
    ensures (ShowFlag(b) == "true") == b && ShowFlag(b) != ""
  {
    assert "false"[0] == 'f' && "true"[0] == 't';
  }

  lemma GivenFlag(loaded: Config, env: Environ, z: Schema, c: Config, k: Key)
    requires Total(loaded) && Apply(loaded, env, z) == Applied(c) && KindAt(Read(k)) == FlagKind && Given(env, k)
    ensures Total(c) && c[Read(k)].b == (Lower(env[k]) == "true")
  {
    AppliedIsTotal(loaded, env, z, c);
    TablesAgree(k);
    PutGet(loaded, env, z, c, k);
    NotSearch(k);
    ShowFlagReads(c[Read(k)].b);
  }

  lemma NotSearch(k: Key)
    requires KindAt(Read(k)) == FlagKind
    ensures k != ENABLE_WEB_SEARCH
  {
  }

  lemma LowerTrue()
    ensures Lower("true") == "true"
  {
  }

  lemma FlagIsConfig(loaded: Config, env: Environ, z: Schema, c: Config, k: Key, default: string)
    requires Total(loaded) && Apply(loaded, env, z) == Applied(c) && KindAt(Read(k)) == FlagKind
    ensures Total(c)
    ensures AppFlag(env, ToEnv(c, z), k, default) <==> c[Read(k)].b && FlagAgrees(env, k)
  {
    AppliedIsTotal(loaded, env, z, c);
    if Given(env, k) {
      GivenFlag(loaded, env, z, c, k);
      LowerTrue();
    } else {
      FlagIsPrinted(c, z, k);
      ShowFlagReads(c[Read(k)].b);
    }
  }

  lemma FlagIsPrinted(c: Config, z: Schema, k: Key)
    requires Total(c) && KindAt(Read(k)) == FlagKind
    ensures Given(ToEnv(c, z), k) && ToEnv(c, z)[k] == ShowFlag(c[Read(k)].b)
  {
    NotSearch(k);
    ShowFlagReads(c[Read(k)].b);
  }

  // A flag that app.py misreads is a flag that is on.
  predicate Misread(c: Config, env: Environ, k: Key)
    requires Total(c)
  {
    var v := c[Read(k)];
    v.Flag? && v.b && !FlagAgrees(env, k)
  }

  lemma NetworkingIs(loaded: Config, env: Environ, z: Schema, c: Config)
    requires Total(loaded) && Apply(loaded, env, z) == Applied(c)
    ensures Total(c) && (NetworkingOn(env, ToEnv(c, z)) <==> c[Networking].b && !Misread(c, env, ENABLE_NETWORKING))
    ensures Misread(c, env, ENABLE_NETWORKING) ==> c[Networking].b
  {
    FlagIsConfig(loaded, env, z, c, ENABLE_NETWORKING, "false");
  }

  lemma SecurityIs(loaded: Config, env: Environ, z: Schema, c: Config)
    requires Total(loaded) && Apply(loaded, env, z) == Applied(c)
    ensures Total(c) && (SecurityOn(env, ToEnv(c, z)) <==> c[CloudtrailAlerting].b && !Misread(c, env, ENABLE_SECURITY))
    ensures Misread(c, env, ENABLE_SECURITY) ==> c[CloudtrailAlerting].b
  {
    FlagIsConfig(loaded, env, z, c, ENABLE_SECURITY, "false");
  }

  lemma A2aIs(loaded: Config, env: Environ, z: Schema, c: Config)
    requires Total(loaded) && Apply(loaded, env, z) == Applied(c)
    ensures Total(c) && (A2aOn(env, ToEnv(c, z)) <==> c[A2a].b && !Misread(c, env, ENABLE_A2A))
    ensures Misread(c, env, ENABLE_A2A) ==> c[A2a].b
  {
    FlagIsConfig(loaded, env, z, c, ENABLE_A2A, "true");
  }

  // Fewer facts make fewer stacks.
  lemma {:induction false} KeepFewer(n: nat, f: Facts, g: Facts)
    requires n <= STACKS && forall s :: Has(f, s) ==> Has(g, s)
    ensures |Keep(n, f)| <= |Keep(n, g)|
    ensures |Keep(n, f)| == |Keep(n, g)| ==> forall i :: 0 <= i < n ==> Has(f, At(i)) == Has(g, At(i))
  {
    if n > 0 {
      KeepFewer(n - 1, f, g);
    }
  }

  lemma {:induction false} KeepAlike(n: nat, f: Facts, g: Facts)
    requires n <= STACKS && forall s :: Has(f, s) == Has(g, s)
    ensures Keep(n, f) == Keep(n, g)
  {
    if n > 0 {
      KeepAlike(n - 1, f, g);
    }
  }

  lemma SameLists(prefix: string, f: Facts, g: Facts, sorted: seq<string>, site: Site)
    requires forall n :: n in sorted ==> n in site.manifests
    requires forall s :: Has(f, s) ==> Has(g, s)
    ensures FullNames(prefix, f, sorted, site) == FullNames(prefix, g, sorted, site)
            <==> forall s :: Has(f, s) == Has(g, s)
  {
    if forall s :: Has(f, s) == Has(g, s) {
      KeepAlike(STACKS, f, g);
    } else {
      var s :| Has(f, s) != Has(g, s);
      assert At(Rank(s)) == s;
      KeepFewer(STACKS, f, g);
      NamesAt(prefix, Core(f));
      NamesAt(prefix, Core(g));
      assert |FullNames(prefix, f, sorted, site)| != |FullNames(prefix, g, sorted, site)|;
    }
  }

  lemma SameStacks(f: Facts, g: Facts)
    requires f.role == g.role
    ensures (forall s :: Has(f, s) == Has(g, s))
            <==> f.networking == g.networking && f.security == g.security && (f.role == PlatformRole || f.a2a == g.a2a)
  {
    assert Has(f, NetworkingStack) == f.networking && Has(g, NetworkingStack) == g.networking;
    assert Has(f, SecurityStack) == f.security && Has(g, SecurityStack) == g.security;
    assert f.role != PlatformRole ==> Has(f, CodeAgentStack) == f.a2a && Has(g, CodeAgentStack) == g.a2a;
  }

  // Two lists of one role, the first made from fewer facts, are the same exactly
  // when no fact that matters to the role was lost.
  lemma FactsDecide(prefix: string, f: Facts, g: Facts, sorted: seq<string>, site: Site)
    requires forall n :: n in sorted ==> n in site.manifests
    requires f.role == g.role && (f.networking ==> g.networking) && (f.security ==> g.security) && (f.a2a ==> g.a2a)
    ensures FullNames(prefix, f, sorted, site) == FullNames(prefix, g, sorted, site)
            <==> f.networking == g.networking && f.security == g.security && (f.role == PlatformRole || f.a2a == g.a2a)
  {
    SameLists(prefix, f, g, sorted, site);
    SameStacks(f, g);
  }

  lemma AppPrefixIs(loaded: Config, env: Environ, z: Schema, c: Config)
    requires Total(loaded) && Apply(loaded, env, z) == Applied(c) && Total(c)
    requires c[Project].s != "" && c[Environment].s != ""
    ensures AppPrefix(env, ToEnv(c, z)) == Prefix(c)
  {
    CfgIsConfig(loaded, env, z, c, PROJECT_NAME, "agentcore-workshop");
    CfgIsConfig(loaded, env, z, c, ENVIRONMENT, "dev");
  }

  // What app.py builds is what expected_stacks lists, in the same order, exactly
  // when no flag that matters to this role is misread.
  lemma ContractParity(loaded: Config, env: Environ, z: Schema, c: Config, site: Site, role: Role, sorted: seq<string>)
    requires Total(loaded) && Apply(loaded, env, z) == Applied(c) && Total(c)
    requires c[Project].s != "" && c[Environment].s != ""
    requires forall n :: n in sorted ==> n in site.manifests
    ensures FullNames(AppPrefix(env, ToEnv(c, z)), AppFacts(env, ToEnv(c, z), role), sorted, site)
            == FullNames(Prefix(c), ConfigFacts(c, role), sorted, site)
            <==> && !Misread(c, env, ENABLE_NETWORKING) && !Misread(c, env, ENABLE_SECURITY)
                 && (role == PlatformRole || !Misread(c, env, ENABLE_A2A))
  {
    AppPrefixIs(loaded, env, z, c);
    NetworkingIs(loaded, env, z, c);
    SecurityIs(loaded, env, z, c);
    A2aIs(loaded, env, z, c);
    FactsDecide(Prefix(c), AppFacts(env, ToEnv(c, z), role), ConfigFacts(c, role), sorted, site);
  }

  // A misread flag is one given as, say, "True": on in the configuration, off in
  // app.py.
  lemma MisreadMeans(loaded: Config, env: Environ, z: Schema, c: Config, k: Key)
    requires Total(loaded) && Apply(loaded, env, z) == Applied(c) && KindAt(Read(k)) == FlagKind
    ensures Total(c) && (Misread(c, env, k) <==> Given(env, k) && Lower(env[k]) == "true" && env[k] != "true")
  {
    AppliedIsTotal(loaded, env, z, c);
    if Given(env, k) {
      GivenFlag(loaded, env, z, c, k);
    }
  }

  // "True" is such a spelling, whatever the configuration.
  lemma TrueIsMisread(loaded: Config, z: Schema, c: Config, k: Key)
    requires var env: Environ := map[k := "True"]; Total(loaded) && Apply(loaded, env, z) == Applied(c)
    requires KindAt(Read(k)) == FlagKind
    ensures Total(c) && Misread(c, map[k := "True"], k)
  {
    var env: Environ := map[k := "True"];
    Capitalised();
    assert Given(env, k) && env[k] == "True";
    MisreadMeans(loaded, env, z, c, k);
  }

  lemma Capitalised()
    ensures Lower("True") == "true" && "True" != "true" && "True" != ""
  {
    assert "True"[0] != "true"[0];
  }

  // ---- Deploy order -------------------------------------------------------------------------------------

  lemma DependenciesPointBack(a: Stack, b: Stack)
    requires DependsOn(a, b)
    ensures Rank(b) < Rank(a)
  {
  }

  // The list places every stack after all stacks app.py makes it wait for.
  lemma ListIsADeployOrder(prefix: string, f: Facts, sorted: seq<string>, site: Site, a: Stack, b: Stack)
    requires forall n :: n in sorted ==> n in site.manifests
    requires DependsOn(a, b) && Has(f, a) && Has(f, b)
    ensures exists i, j :: 0 <= i < j < |FullNames(prefix, f, sorted, site)|
                           && FullNames(prefix, f, sorted, site)[i] == NameOf(prefix, Suffix(b))
                           && FullNames(prefix, f, sorted, site)[j] == NameOf(prefix, Suffix(a))
  {
    DependenciesPointBack(a, b);
    KeepPosition(f, a);
    KeepPosition(f, b);
    KeepPrefix(Rank(b) + 1, Rank(a), f);
    var i, j := |Keep(Rank(b), f)|, |Keep(Rank(a), f)|;
    assert |Keep(Rank(b) + 1, f)| == i + 1;
    NamesAt(prefix, Core(f));
    var core := Names(prefix, Core(f));
    assert core[i] == NameOf(prefix, Suffix(b)) && core[j] == NameOf(prefix, Suffix(a));
    assert FullNames(prefix, f, sorted, site)[i] == core[i] && FullNames(prefix, f, sorted, site)[j] == core[j];
  }

  // ---- Names do not collide --------------------------------------------------------------------------------

  lemma SuffixInjective(a: Stack, b: Stack)
    requires Suffix(a) == Suffix(b)
    ensures a == b
  {
    assert Suffix(a)[0] == Suffix(b)[0];
    if Suffix(a)[0] == 'r' {
      assert Suffix(a)[8] == Suffix(b)[8];
    }
  }

  lemma NameInjective(prefix: string, x: string, y: string)
    requires NameOf(prefix, x) == NameOf(prefix, y)
    ensures x == y
  {
    assert NameOf(prefix, x)[|prefix| + 1..] == x && NameOf(prefix, y)[|prefix| + 1..] == y;
  }

  lemma {:induction false} SuffixedAre(prefix: string, suffixes: seq<string>, name: string)
    requires name in Suffixed(prefix, suffixes)
    ensures exists i :: 0 <= i < |suffixes| && name == NameOf(prefix, suffixes[i])
  {
    if name !in Suffixed(prefix, suffixes[..|suffixes| - 1]) {
      assert name == NameOf(prefix, suffixes[|suffixes| - 1]);
    } else {
      SuffixedAre(prefix, suffixes[..|suffixes| - 1], name);
    }
  }

  // No use case can add a stack with a core stack's name.
  lemma {:induction false} UseCasesCannotPoseAsCore(prefix: string, sorted: seq<string>, site: Site, s: Stack)
    requires ValidSite(site) && forall n :: n in sorted ==> n in site.manifests
    ensures NameOf(prefix, Suffix(s)) !in UseCaseNames(prefix, sorted, site.manifests)
  {
    if sorted != [] {
      var name, stacks := NameOf(prefix, Suffix(s)), site.manifests[sorted[|sorted| - 1]].stacks;
      UseCasesCannotPoseAsCore(prefix, sorted[..|sorted| - 1], site, s);
      if name in Suffixed(prefix, stacks) {
        SuffixedAre(prefix, stacks, name);
        var i :| 0 <= i < |stacks| && name == NameOf(prefix, stacks[i]);
        NameInjective(prefix, Suffix(s), stacks[i]);
        NotNamespaced(s);
      }
    }
  }

  lemma NotNamespaced(s: Stack)
    ensures !("uc-" <= Suffix(s))
  {
    assert Suffix(s)[0] != 'u';
  }

  predicate Distinct(names: seq<string>) {
    forall i, j :: 0 <= i < j < |names| ==> names[i] != names[j]
  }

  // The suffixes all enabled use cases declare, one after the other.
  function UseCaseSuffixes(names: seq<string>, manifests: map<string, Manifest>): seq<string>
    requires forall n :: n in names ==> n in manifests
  {
    if names == [] then []
    else UseCaseSuffixes(names[..|names| - 1], manifests) + manifests[names[|names| - 1]].stacks
  }

  lemma {:induction false} SuffixedAt(prefix: string, suffixes: seq<string>)
    ensures |Suffixed(prefix, suffixes)| == |suffixes|
    ensures forall i :: 0 <= i < |suffixes| ==> Suffixed(prefix, suffixes)[i] == NameOf(prefix, suffixes[i])
  {
    if suffixes != [] {
      SuffixedAt(prefix, suffixes[..|suffixes| - 1]);
    }
  }

  lemma {:induction false} UseCaseNamesAt(prefix: string, names: seq<string>, manifests: map<string, Manifest>)
    requires forall n :: n in names ==> n in manifests
    ensures |UseCaseNames(prefix, names, manifests)| == |UseCaseSuffixes(names, manifests)|
    ensures forall i :: 0 <= i < |UseCaseSuffixes(names, manifests)| ==>
              UseCaseNames(prefix, names, manifests)[i] == NameOf(prefix, UseCaseSuffixes(names, manifests)[i])
  {
    if names != [] {
      var init := names[..|names| - 1];
      UseCaseNamesAt(prefix, init, manifests);
      SuffixedAt(prefix, manifests[names[|names| - 1]].stacks);
    }
  }

  lemma {:induction false} KeepRises(n: nat, f: Facts)
    requires n <= STACKS
    ensures forall i :: 0 <= i < |Keep(n, f)| ==> Rank(Keep(n, f)[i]) < n
    ensures forall i, j :: 0 <= i < j < |Keep(n, f)| ==> Rank(Keep(n, f)[i]) < Rank(Keep(n, f)[j])
  {
    if n > 0 {
      KeepRises(n - 1, f);
    }
  }

  lemma CoreNamesAreDistinct(prefix: string, f: Facts)
    ensures Distinct(Names(prefix, Core(f)))
  {
    var core := Core(f);
    KeepRises(STACKS, f);
    NamesAt(prefix, core);
    forall i, j | 0 <= i < j < |core|
      ensures Names(prefix, core)[i] != Names(prefix, core)[j]
    {
      if Names(prefix, core)[i] == Names(prefix, core)[j] {
        NameInjective(prefix, Suffix(core[i]), Suffix(core[j]));
        SuffixInjective(core[i], core[j]);
      }
    }
  }

  lemma DistinctMapped(prefix: string, suffixes: seq<string>, names: seq<string>)
    requires |names| == |suffixes| && forall i :: 0 <= i < |names| ==> names[i] == NameOf(prefix, suffixes[i])
    ensures Distinct(names) <==> Distinct(suffixes)
  {
    forall i, j | 0 <= i < j < |names|
      ensures names[i] == names[j] <==> suffixes[i] == suffixes[j]
    {
      if names[i] == names[j] {
        NameInjective(prefix, suffixes[i], suffixes[j]);
      }
    }
  }

  lemma DistinctConcat(a: seq<string>, b: seq<string>)
    requires Distinct(a) && forall x :: x in a ==> x !in b
    ensures Distinct(a + b) <==> Distinct(b)
  {
    forall i, j | 0 <= i < j < |b|
      ensures (a + b)[|a| + i] == b[i] && (a + b)[|a| + j] == b[j]
    {
    }
    if Distinct(a + b) {
      forall i, j | 0 <= i < j < |b|
        ensures b[i] != b[j]
      {
        assert (a + b)[|a| + i] != (a + b)[|a| + j];
      }
    }
    if Distinct(b) {
      forall i, j | 0 <= i < j < |a + b|
        ensures (a + b)[i] != (a + b)[j]
      {
        if i < |a| {
          assert a[i] in a;
        }
      }
    }
  }

  // All names of the list differ if and only if no stack suffix is declared twice
  // by the enabled use cases: nothing else checks that.
  lemma NamesAreDistinctIff(prefix: string, f: Facts, sorted: seq<string>, site: Site)
    requires ValidSite(site) && forall n :: n in sorted ==> n in site.manifests
    ensures Distinct(FullNames(prefix, f, sorted, site)) <==> Distinct(UseCaseSuffixes(sorted, site.manifests))
  {
    var core := Names(prefix, Core(f));
    var more := UseCaseNames(prefix, sorted, site.manifests);
    CoreNamesAreDistinct(prefix, f);
    NamesAt(prefix, Core(f));
    forall x | x in core
      ensures x !in more
    {
      var i :| 0 <= i < |core| && core[i] == x;
      UseCasesCannotPoseAsCore(prefix, sorted, site, Core(f)[i]);
    }
    DistinctConcat(core, more);
    UseCaseNamesAt(prefix, sorted, site.manifests);
    DistinctMapped(prefix, UseCaseSuffixes(sorted, site.manifests), more);
  }

  // Two use cases that declare one suffix validate and clash.
  lemma NamesCanClash(prefix: string, f: Facts, a: string, b: string, suffix: string)
    requires a != b && "uc-" <= suffix
    ensures var site := Site([], true, {a, b}, map[a := Manifest({}, [suffix]), b := Manifest({}, [suffix])]);
            ValidSite(site) && !Distinct(FullNames(prefix, f, [a, b], site))
  {
    var manifests := map[a := Manifest({}, [suffix]), b := Manifest({}, [suffix])];
    var site := Site([], true, {a, b}, manifests);
    assert [a, b][..1] == [a] && [a][..0] == [];
    var twice := UseCaseSuffixes([a, b], manifests);
    assert UseCaseSuffixes([a], manifests) == [suffix];
    assert twice == [suffix] + [suffix];
    assert twice[0] == twice[1];
    NamesAreDistinctIff(prefix, f, [a, b], site);
  }
}
