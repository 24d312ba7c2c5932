// Configuration across the shell boundary.

module EnvTransport {
  // to_env prints a configuration as environment variables,
  // apply_environment_overrides updates one from them. The two keep separate
  // tables of which variable is which setting.

  import opened Text

  // The variables both sides know.
  datatype Key =
    | PROJECT_NAME | ENVIRONMENT | AWS_REGION | DEPLOYMENT_MODE | DEPLOYMENT_STRATEGY | PLATFORM_ACCOUNT
    | IDP_TYPE | IDP_MODE | IDP_TENANT_ID | IDP_CLIENT_ID | IDP_ISSUER_URL | IDP_CLIENT_SECRET_NAME
    | AGENT_PATTERN | MODEL_ID | CEDAR_MODE | ORG_ID | ALARM_EMAIL
    | ENABLE_A2A | USE_LONG_TERM_MEMORY | ENABLE_NETWORKING | ENABLE_SECURITY | ENABLE_RESOURCE_POLICIES
    | ENABLE_EGRESS_FILTER | REQUIRE_GUARDRAILS | ENABLE_CEDAR | ENABLE_TRACEABILITY
    | ENABLE_TRANSACTION_SEARCH | ENABLE_ALARMS
    | ENABLE_WEB_SEARCH | ALLOWED_MODELS
    | ORCHESTRATOR_RUNTIME_GENERATION | LTM_TOP_K | LTM_RELEVANCE_SCORE | MEMORY_EVENT_EXPIRY_DAYS | LOG_RETENTION_DAYS

  // The leaves of the configuration they set.
  datatype Path =
    | Project | Environment | Region | DeploymentMode | DeploymentStrategy | PlatformAccount
    | IdentityIdp | IdentityMode | TenantId | ClientId | IssuerUrl | ClientSecretName
    | Pattern | ModelId | CedarMode | OrgId | AlarmEmail
    | A2a | LongTerm | Networking | CloudtrailAlerting | ResourcePolicies
    | EgressFilter | RequireGuardrails | CedarEnabled | Traceability
    | TransactionSearch | Alarms
    | WebSearch | AllowedModels
    | RuntimeGeneration | TopK | RelevanceScore | EventExpiryDays | LogRetentionDays

  datatype Value =
    | Chars(s: string)
    | Flag(b: bool)
    | Count(n: int)
    | Score(x: real)
    | Names(list: seq<string>)

  datatype Kind = CharsKind | FlagKind | CountKind | ScoreKind | NamesKind

  function KindAt(p: Path): Kind {
    match p
    case A2a | LongTerm | Networking | CloudtrailAlerting | ResourcePolicies | EgressFilter
       | RequireGuardrails | CedarEnabled | Traceability | TransactionSearch | Alarms => FlagKind
    case AllowedModels => NamesKind
    case RuntimeGeneration | TopK | EventExpiryDays | LogRetentionDays => CountKind
    case RelevanceScore => ScoreKind
    case _ => CharsKind
  }

  predicate Fits(v: Value, k: Kind) {
    match k
    case CharsKind => v.Chars?
    case FlagKind => v.Flag?
    case CountKind => v.Count?
    case ScoreKind => v.Score?
    case NamesKind => v.Names?
  }

  type Config = map<Path, Value>

  type Environ = map<Key, string>

  // Validation, as far as these settings go: how strings become numbers, and the
  // field and cross-field rules as one predicate over the settings they look at.
  // Only two rules look at the web search setting; they are below.
  datatype Schema = Schema(
    parseInt: string -> Option<int>,
    parseScore: string -> Option<real>,
    showScore: real -> string,
    webSearchRegions: set<string>,
    rules: Config -> bool)

  // The numbers of this configuration are read back from what is printed of them.
  ghost predicate Faithful(z: Schema, c: Config) {
    forall p :: p in c ==>
      && (c[p].Count? ==> z.parseInt(Number(c[p].n)) == Some(c[p].n))
      && (c[p].Score? ==> z.parseScore(z.showScore(c[p].x)) == Some(c[p].x) && z.showScore(c[p].x) != "")
  }

  ghost predicate Total(c: Config) { forall p: Path :: p in c && Fits(c[p], KindAt(p)) }

  // What a model id in a legal allow-list looks like, as far as transport goes.
  predicate ModelName(m: string) { m != "" && ',' !in m && Strip(m) == m }

  ghost predicate ModelNames(c: Config)
    requires Total(c)
  {
    forall i :: 0 <= i < |c[AllowedModels].list| ==> ModelName(c[AllowedModels].list[i])
  }

  // The setting is one of three words, and in production not `auto`.
  predicate SearchAllowed(mode: Value, search: Value) {
    && search in {Chars("auto"), Chars("on"), Chars("off")}
    && (mode == Chars("production") ==> search != Chars("auto"))
  }

  predicate Legal(c: Config, z: Schema) {
    && z.rules(c - {WebSearch})
    && WebSearch in c && DeploymentMode in c && SearchAllowed(c[DeploymentMode], c[WebSearch])
  }

  // A configuration that exists: it has passed validation.
  ghost predicate Valid(c: Config, z: Schema) { Total(c) && Legal(c, z) && ModelNames(c) }

  // ---- to_env ---------------------------------------------------------------------

  function Read(k: Key): Path {
    match k
    case PROJECT_NAME => Project
    case ENVIRONMENT => Environment
    case AWS_REGION => Region
    case DEPLOYMENT_MODE => DeploymentMode
    case DEPLOYMENT_STRATEGY => DeploymentStrategy
    case PLATFORM_ACCOUNT => PlatformAccount
    case IDP_TYPE => IdentityIdp
    case IDP_MODE => IdentityMode
    case IDP_TENANT_ID => TenantId
    case IDP_CLIENT_ID => ClientId
    case IDP_ISSUER_URL => IssuerUrl
    case IDP_CLIENT_SECRET_NAME => ClientSecretName
    case AGENT_PATTERN => Pattern
    case ORCHESTRATOR_RUNTIME_GENERATION => RuntimeGeneration
    case MODEL_ID => ModelId
    case ALLOWED_MODELS => AllowedModels
    case ENABLE_A2A => A2a
    case USE_LONG_TERM_MEMORY => LongTerm
    case MEMORY_EVENT_EXPIRY_DAYS => EventExpiryDays
    case LTM_TOP_K => TopK
    case LTM_RELEVANCE_SCORE => RelevanceScore
    case ENABLE_WEB_SEARCH => WebSearch
    case ENABLE_NETWORKING => Networking
    case ENABLE_SECURITY => CloudtrailAlerting
    case ENABLE_RESOURCE_POLICIES => ResourcePolicies
    case ENABLE_EGRESS_FILTER => EgressFilter
    case REQUIRE_GUARDRAILS => RequireGuardrails
    case ENABLE_CEDAR => CedarEnabled
    case CEDAR_MODE => CedarMode
    case ENABLE_TRACEABILITY => Traceability
    case ORG_ID => OrgId
    case ENABLE_TRANSACTION_SEARCH => TransactionSearch
    case ENABLE_ALARMS => Alarms
    case ALARM_EMAIL => AlarmEmail
    case LOG_RETENTION_DAYS => LogRetentionDays
  }

  function ShowFlag(b: bool): string { if b then "true" else "false" }

  function Show(v: Value, z: Schema): string {
    match v
    case Chars(s) => s
    case Flag(b) => ShowFlag(b)
    case Count(n) => Number(n)
    case Score(x) => z.showScore(x)
    case Names(list) => Join(list, ",")
  }

  // web_search `auto` means: where the connector exists.
  predicate WebSearchOn(c: Config, z: Schema)
    requires Total(c)
  {
    if c[WebSearch].s == "auto" then c[Region].s in z.webSearchRegions else c[WebSearch].s == "on"
  }

  function Shown(c: Config, k: Key, z: Schema): string
    requires Total(c)
  {
    if k == ENABLE_WEB_SEARCH then ShowFlag(WebSearchOn(c, z)) else Show(c[Read(k)], z)
  }

  // Empty values are omitted.
  function ToEnv(c: Config, z: Schema): Environ
    requires Total(c)
  {
    map k: Key | Shown(c, k, z) != "" :: Shown(c, k, z)
  }

  // ---- apply_environment_overrides ---------------------------------------------------

  const SCALAR_KEYS: seq<Key> :=
    [PROJECT_NAME, ENVIRONMENT, AWS_REGION, DEPLOYMENT_MODE, DEPLOYMENT_STRATEGY, PLATFORM_ACCOUNT,
     IDP_TYPE, IDP_MODE, IDP_TENANT_ID, IDP_CLIENT_ID, IDP_ISSUER_URL, IDP_CLIENT_SECRET_NAME,
     AGENT_PATTERN, MODEL_ID, CEDAR_MODE, ORG_ID, ALARM_EMAIL]

  const BOOL_KEYS: seq<Key> :=
    [ENABLE_A2A, USE_LONG_TERM_MEMORY, ENABLE_NETWORKING, ENABLE_SECURITY, ENABLE_RESOURCE_POLICIES,
     ENABLE_EGRESS_FILTER, REQUIRE_GUARDRAILS, ENABLE_CEDAR, ENABLE_TRACEABILITY,
     ENABLE_TRANSACTION_SEARCH, ENABLE_ALARMS]

  const NUMERIC_KEYS: seq<Key> :=
    [ORCHESTRATOR_RUNTIME_GENERATION, LTM_TOP_K, LTM_RELEVANCE_SCORE, MEMORY_EVENT_EXPIRY_DAYS, LOG_RETENTION_DAYS]

  // The path each variable is put at.
  function Target(k: Key): Path {
    match k
    case PROJECT_NAME => Project
    case ENVIRONMENT => Environment
    case AWS_REGION => Region
    case DEPLOYMENT_MODE => DeploymentMode
    case DEPLOYMENT_STRATEGY => DeploymentStrategy
    case PLATFORM_ACCOUNT => PlatformAccount
    case IDP_TYPE => IdentityIdp
    case IDP_MODE => IdentityMode
    case IDP_TENANT_ID => TenantId
    case IDP_CLIENT_ID => ClientId
    case IDP_ISSUER_URL => IssuerUrl
    case IDP_CLIENT_SECRET_NAME => ClientSecretName
    case AGENT_PATTERN => Pattern
    case MODEL_ID => ModelId
    case CEDAR_MODE => CedarMode
    case ORG_ID => OrgId
    case ALARM_EMAIL => AlarmEmail
    case ENABLE_A2A => A2a
    case USE_LONG_TERM_MEMORY => LongTerm
    case ENABLE_NETWORKING => Networking
    case ENABLE_SECURITY => CloudtrailAlerting
    case ENABLE_RESOURCE_POLICIES => ResourcePolicies
    case ENABLE_EGRESS_FILTER => EgressFilter
    case REQUIRE_GUARDRAILS => RequireGuardrails
    case ENABLE_CEDAR => CedarEnabled
    case ENABLE_TRACEABILITY => Traceability
    case ENABLE_TRANSACTION_SEARCH => TransactionSearch
    case ENABLE_ALARMS => Alarms
    case ENABLE_WEB_SEARCH => WebSearch
    case ALLOWED_MODELS => AllowedModels
    case ORCHESTRATOR_RUNTIME_GENERATION => RuntimeGeneration
    case LTM_TOP_K => TopK
    case LTM_RELEVANCE_SCORE => RelevanceScore
    case MEMORY_EVENT_EXPIRY_DAYS => EventExpiryDays
    case LOG_RETENTION_DAYS => LogRetentionDays
  }

  // env.get(key) is truthy.
  predicate Given(env: Environ, k: Key) { k in env && env[k] != "" }

  predicate IsFlag(k: Key) { KindAt(Target(k)) == FlagKind || k == ENABLE_WEB_SEARCH }

  predicate FlagText(s: string) { Lower(s) == "true" || Lower(s) == "false" }

  function Pieces(s: string): seq<string> { KeepSome(Split(s, ',')) }

  // [item.strip() for item in ... if item.strip()]
  function KeepSome(items: seq<string>): seq<string> {
    if items == [] then []
    else (if Strip(items[0]) == "" then [] else [Strip(items[0])]) + KeepSome(items[1..])
  }

  // What is put for one given value; numbers stay text until validation.
  function Written(k: Key, s: string): Value {
    if k == ENABLE_WEB_SEARCH then Chars(if Lower(s) == "true" then "on" else "off")
    else if IsFlag(k) then Flag(Lower(s) == "true")
    else if k == ALLOWED_MODELS then Names(Pieces(s))
    else Chars(s)
  }

  // Validation of one leaf: text where a number is wanted is parsed.
  function Coerce(p: Path, v: Value, z: Schema): Option<Value> {
    if Fits(v, KindAt(p)) then Some(v)
    else if v.Chars? && KindAt(p) == CountKind then
      (var n := z.parseInt(v.s); if n.Some? then Some(Count(n.value)) else None)
    else if v.Chars? && KindAt(p) == ScoreKind then
      (var x := z.parseScore(v.s); if x.Some? then Some(Score(x.value)) else None)
    else None
  }

  function Validate(raw: Config, z: Schema): Option<Config>
    requires forall p: Path :: p in raw
  {
    if forall p: Path :: Coerce(p, raw[p], z).Some? then
      var c := map p: Path | true :: Coerce(p, raw[p], z).value;
      if Legal(c, z) then Some(c) else None
    else None
  }

  datatype Outcome = Applied(c: Config) | BadFlag(k: Key) | Invalid

  // One more variable overlaid.
  function PutOne(raw: Config, env: Environ, k: Key): Config {
    if Given(env, k) then raw[Target(k) := Written(k, env[k])] else raw
  }

  function PutAll(raw: Config, env: Environ, keys: seq<Key>): Config {
    if keys == [] then raw else PutOne(PutAll(raw, env, keys[..|keys| - 1]), env, keys[|keys| - 1])
  }

  predicate BadAt(env: Environ, k: Key) { Given(env, k) && IsFlag(k) && !FlagText(env[k]) }

  // The first given flag in `keys` that is neither true nor false.
  function FirstBad(env: Environ, keys: seq<Key>): (r: Option<Key>)
    ensures r.Some? ==> r.value in keys && BadAt(env, r.value)
    ensures r.None? ==> forall i :: 0 <= i < |keys| ==> !BadAt(env, keys[i])
  {
    if keys == [] then None
    else if BadAt(env, keys[0]) then Some(keys[0])
    else FirstBad(env, keys[1..])
  }

  const SPECIAL_KEYS: seq<Key> := [ENABLE_WEB_SEARCH, ALLOWED_MODELS]

  const FLAG_KEYS: seq<Key> := BOOL_KEYS + [ENABLE_WEB_SEARCH]

  const ALL_KEYS: seq<Key> := SCALAR_KEYS + BOOL_KEYS + SPECIAL_KEYS + NUMERIC_KEYS

  ghost function Apply(c: Config, env: Environ, z: Schema): Outcome
    requires Total(c)
  {
    var bad := FirstBad(env, FLAG_KEYS);
    if bad.Some? then BadFlag(bad.value)
    else
      var v := Validate(Overlaid(c, env), z);
      if v.Some? then Applied(v.value) else Invalid
  }

  // The settings with every given variable written over them.
  ghost function Overlaid(c: Config, env: Environ): (raw: Config)
    requires Total(c)
  {
    map p: Path | true :: if Given(env, KeyAt(p)) then Written(KeyAt(p), env[KeyAt(p)]) else c[p]
  }

  // The variable that is put at a path.
  function KeyAt(p: Path): (k: Key)
    ensures Target(k) == p
  {
    match p
    case Project => PROJECT_NAME
    case Environment => ENVIRONMENT
    case Region => AWS_REGION
    case DeploymentMode => DEPLOYMENT_MODE
    case DeploymentStrategy => DEPLOYMENT_STRATEGY
    case PlatformAccount => PLATFORM_ACCOUNT
    case IdentityIdp => IDP_TYPE
    case IdentityMode => IDP_MODE
    case TenantId => IDP_TENANT_ID
    case ClientId => IDP_CLIENT_ID
    case IssuerUrl => IDP_ISSUER_URL
    case ClientSecretName => IDP_CLIENT_SECRET_NAME
    case Pattern => AGENT_PATTERN
    case ModelId => MODEL_ID
    case CedarMode => CEDAR_MODE
    case OrgId => ORG_ID
    case AlarmEmail => ALARM_EMAIL
    case A2a => ENABLE_A2A
    case LongTerm => USE_LONG_TERM_MEMORY
    case Networking => ENABLE_NETWORKING
    case CloudtrailAlerting => ENABLE_SECURITY
    case ResourcePolicies => ENABLE_RESOURCE_POLICIES
    case EgressFilter => ENABLE_EGRESS_FILTER
    case RequireGuardrails => REQUIRE_GUARDRAILS
    case CedarEnabled => ENABLE_CEDAR
    case Traceability => ENABLE_TRACEABILITY
    case TransactionSearch => ENABLE_TRANSACTION_SEARCH
    case Alarms => ENABLE_ALARMS
    case WebSearch => ENABLE_WEB_SEARCH
    case AllowedModels => ALLOWED_MODELS
    case RuntimeGeneration => ORCHESTRATOR_RUNTIME_GENERATION
    case TopK => LTM_TOP_K
    case RelevanceScore => LTM_RELEVANCE_SCORE
    case EventExpiryDays => MEMORY_EVENT_EXPIRY_DAYS
    case LogRetentionDays => LOG_RETENTION_DAYS
  }

  lemma TargetInjective(k: Key)
    ensures KeyAt(Target(k)) == k
  {
  }

  // The two tables agree.
  lemma TablesAgree(k: Key)
    ensures Read(k) == Target(k)
  {
  }

  lemma {:induction false} PutAllAt(raw: Config, env: Environ, keys: seq<Key>, p: Path)
    requires p in raw
    ensures p in PutAll(raw, env, keys)
    ensures PutAll(raw, env, keys)[p]
            == if KeyAt(p) in keys && Given(env, KeyAt(p)) then Written(KeyAt(p), env[KeyAt(p)]) else raw[p]
  {
    if keys != [] {
      var last := keys[|keys| - 1];
      PutAllAt(raw, env, keys[..|keys| - 1], p);
      assert keys == keys[..|keys| - 1] + [last];
      TargetInjective(last);
    }
  }

  lemma {:induction false} PutAllConcat(raw: Config, env: Environ, a: seq<Key>, b: seq<Key>)
    ensures PutAll(raw, env, a + b) == PutAll(PutAll(raw, env, a), env, b)
  {
    if b == [] {
      assert a + b == a;
    } else {
      assert (a + b)[..|a + b| - 1] == a + b[..|b| - 1];
      PutAllConcat(raw, env, a, b[..|b| - 1]);
    }
  }

  // One table's loop.
  method PutTable(raw: Config, env: Environ, keys: seq<Key>) returns (out: Config)
    requires forall i :: 0 <= i < |keys| ==> !IsFlag(keys[i]) && keys[i] != ALLOWED_MODELS
    ensures out == PutAll(raw, env, keys)
  {
    out := raw;
    var i := 0;
    assert keys[..0] == [];
    while i < |keys|
      invariant 0 <= i <= |keys|
      invariant out == PutAll(raw, env, keys[..i])
    {
      assert keys[..i + 1][..i] == keys[..i];
      if Given(env, keys[i]) {
        out := out[Target(keys[i]) := Chars(env[keys[i]])];
      }
      i := i + 1;
    }
    assert keys[..|keys|] == keys;
  }

  predicate PlainFlag(k: Key) { KindAt(Target(k)) == FlagKind && k != ENABLE_WEB_SEARCH }

  lemma PlainFlagIs(k: Key, s: string)
    requires PlainFlag(k)
    ensures IsFlag(k) && Written(k, s) == Flag(Lower(s) == "true")
  {
  }

  // One flag put, unless it is neither true nor false.
  method PutFlag(raw: Config, env: Environ, key: Key) returns (bad: bool, out: Config)
    requires PlainFlag(key)
    ensures bad == BadAt(env, key) && (!bad ==> out == PutOne(raw, env, key))
  {
    out := raw;
    bad := false;
    if Given(env, key) {
      PlainFlagIs(key, env[key]);
      var normalized := Lower(env[key]);
      if normalized != "true" && normalized != "false" {
        return true, out;
      }
      out := raw[Target(key) := Flag(normalized == "true")];
    }
  }

  lemma FirstBadStep(env: Environ, keys: seq<Key>, i: nat)
    requires i < |keys|
    ensures FirstBad(env, keys[i..]) == if BadAt(env, keys[i]) then Some(keys[i]) else FirstBad(env, keys[i + 1..])
  {
    assert keys[i..][1..] == keys[i + 1..];
  }

  lemma PutAllStep(raw: Config, env: Environ, keys: seq<Key>, i: nat)
    requires i < |keys|
    ensures PutAll(raw, env, keys[..i + 1]) == PutOne(PutAll(raw, env, keys[..i]), env, keys[i])
  {
    assert keys[..i + 1][..i] == keys[..i];
  }

  // The flags' loop, which stops at the first that is neither true nor false.
  method PutFlags(raw: Config, env: Environ, keys: seq<Key>) returns (bad: Option<Key>, out: Config)
    requires forall i :: 0 <= i < |keys| ==> PlainFlag(keys[i])
    ensures bad == FirstBad(env, keys)
    ensures bad.None? ==> out == PutAll(raw, env, keys)
  {
    out := raw;
    var i := 0;
    assert keys[..0] == [] && keys[0..] == keys;
    while i < |keys|
      invariant 0 <= i <= |keys|
      invariant FirstBad(env, keys) == FirstBad(env, keys[i..])
      invariant out == PutAll(raw, env, keys[..i])
    {
      FirstBadStep(env, keys, i);
      PutAllStep(raw, env, keys, i);
      var wrong, next := PutFlag(out, env, keys[i]);
      if wrong {
        return Some(keys[i]), out;
      }
      out := next;
      i := i + 1;
    }
    assert keys[..|keys|] == keys;
    bad := None;
  }

  // The two variables with a rule of their own.
  method PutSpecials(raw: Config, env: Environ) returns (bad: bool, out: Config)
    ensures bad == BadAt(env, ENABLE_WEB_SEARCH)
    ensures !bad ==> out == PutAll(raw, env, SPECIAL_KEYS)
  {
    out := raw;
    if Given(env, ENABLE_WEB_SEARCH) {
      var normalized := Lower(env[ENABLE_WEB_SEARCH]);
      if normalized != "true" && normalized != "false" {
        return true, out;
      }
      out := out[WebSearch := Chars(if normalized == "true" then "on" else "off")];
    }
    if Given(env, ALLOWED_MODELS) {
      out := out[AllowedModels := Names(Pieces(env[ALLOWED_MODELS]))];
    }
    TwoPuts(raw, env);
    bad := false;
  }

  lemma TwoPuts(before: Config, env: Environ)
    ensures PutAll(before, env, SPECIAL_KEYS)
            == PutOne(PutOne(before, env, ENABLE_WEB_SEARCH), env, ALLOWED_MODELS)
  {
    var two := SPECIAL_KEYS;
    assert two[..1] == [ENABLE_WEB_SEARCH] && two[..1][..0] == [];
    assert PutAll(before, env, two[..1][..0]) == before;
    assert PutAll(before, env, two[..1]) == PutOne(before, env, ENABLE_WEB_SEARCH);
  }

  lemma TextTables()
    ensures forall i :: 0 <= i < |SCALAR_KEYS| ==> !IsFlag(SCALAR_KEYS[i]) && SCALAR_KEYS[i] != ALLOWED_MODELS
    ensures forall i :: 0 <= i < |NUMERIC_KEYS| ==> !IsFlag(NUMERIC_KEYS[i]) && NUMERIC_KEYS[i] != ALLOWED_MODELS
  {
  }

  lemma FlagTable()
    ensures forall i :: 0 <= i < |BOOL_KEYS| ==> PlainFlag(BOOL_KEYS[i])
  {
  }

  // The whole update, variable by variable, then validation.
  method ApplyOverrides(c: Config, env: Environ, z: Schema) returns (r: Outcome)
    requires Total(c)
    ensures r == Apply(c, env, z)
  {
    TextTables();
    FlagTable();
    var raw := PutTable(c, env, SCALAR_KEYS);
    var bad, flagged := PutFlags(raw, env, BOOL_KEYS);
    FlagOrder(env);
    if bad.Some? {
      return BadFlag(bad.value);
    }
    var badSearch, special := PutSpecials(flagged, env);
    if badSearch {
      return BadFlag(ENABLE_WEB_SEARCH);
    }
    raw := PutTable(special, env, NUMERIC_KEYS);
    forall k
      ensures k in SCALAR_KEYS + BOOL_KEYS + SPECIAL_KEYS + NUMERIC_KEYS
    {
      EveryKeyIsListed(k);
    }
    InOrder(c, env, SCALAR_KEYS, BOOL_KEYS, SPECIAL_KEYS, NUMERIC_KEYS);
    var v := Validate(raw, z);
    r := if v.Some? then Applied(v.value) else Invalid;
  }

  lemma {:induction false} FirstBadConcat(env: Environ, a: seq<Key>, b: seq<Key>)
    ensures FirstBad(env, a + b) == if FirstBad(env, a).Some? then FirstBad(env, a) else FirstBad(env, b)
  {
    if a == [] {
      assert a + b == b;
    } else {
      assert (a + b)[1..] == a[1..] + b;
      FirstBadConcat(env, a[1..], b);
    }
  }

  lemma FlagOrder(env: Environ)
    ensures FirstBad(env, FLAG_KEYS)
            == if FirstBad(env, BOOL_KEYS).Some? then FirstBad(env, BOOL_KEYS)
               else if BadAt(env, ENABLE_WEB_SEARCH) then Some(ENABLE_WEB_SEARCH) else None
  {
    FirstBadConcat(env, BOOL_KEYS, [ENABLE_WEB_SEARCH]);
    assert [ENABLE_WEB_SEARCH][1..] == [];
  }

  // Every variable is in one of the tables.
  lemma EveryKeyIsListed(k: Key)
    ensures k in ALL_KEYS
  {
    var i := match k
      case PROJECT_NAME => 0 case ENVIRONMENT => 1 case AWS_REGION => 2 case DEPLOYMENT_MODE => 3
      case DEPLOYMENT_STRATEGY => 4 case PLATFORM_ACCOUNT => 5 case IDP_TYPE => 6 case IDP_MODE => 7
      case IDP_TENANT_ID => 8 case IDP_CLIENT_ID => 9 case IDP_ISSUER_URL => 10 case IDP_CLIENT_SECRET_NAME => 11
      case AGENT_PATTERN => 12 case MODEL_ID => 13 case CEDAR_MODE => 14 case ORG_ID => 15 case ALARM_EMAIL => 16
      case ENABLE_A2A => 17 case USE_LONG_TERM_MEMORY => 18 case ENABLE_NETWORKING => 19 case ENABLE_SECURITY => 20
      case ENABLE_RESOURCE_POLICIES => 21 case ENABLE_EGRESS_FILTER => 22 case REQUIRE_GUARDRAILS => 23
      case ENABLE_CEDAR => 24 case ENABLE_TRACEABILITY => 25 case ENABLE_TRANSACTION_SEARCH => 26
      case ENABLE_ALARMS => 27 case ENABLE_WEB_SEARCH => 28 case ALLOWED_MODELS => 29
      case ORCHESTRATOR_RUNTIME_GENERATION => 30 case LTM_TOP_K => 31 case LTM_RELEVANCE_SCORE => 32
      case MEMORY_EVENT_EXPIRY_DAYS => 33 case LOG_RETENTION_DAYS => 34;
    assert ALL_KEYS[i] == k;
  }

  lemma PutAllIsOverlay(c: Config, env: Environ, keys: seq<Key>)
    requires Total(c) && forall k :: k in keys
    ensures PutAll(c, env, keys) == Overlaid(c, env)
  {
    var out := PutAll(c, env, keys);
    forall p: Path
      ensures p in out && out[p] == Overlaid(c, env)[p]
    {
      PutAllAt(c, env, keys, p);
    }
    assert out.Keys == Overlaid(c, env).Keys;
  }

  // ---- Laws ----------------------------------------------------------------------------

  // The form in which a given value comes back.
  function Normal(k: Key, s: string, z: Schema): string {
    if IsFlag(k) then Lower(s)
    else if k == ALLOWED_MODELS then Join(Pieces(s), ",")
    else if KindAt(Target(k)) == CountKind then
      (var n := z.parseInt(s); if n.Some? then Number(n.value) else s)
    else if KindAt(Target(k)) == ScoreKind then
      (var x := z.parseScore(s); if x.Some? then z.showScore(x.value) else s)
    else s
  }

  lemma AppliedLeaf(c: Config, env: Environ, z: Schema, c': Config, p: Path)
    requires Total(c) && Apply(c, env, z) == Applied(c')
    ensures p in c' && Legal(c', z)
    ensures Coerce(p, Overlaid(c, env)[p], z) == Some(c'[p])
  {
    assert forall q: Path :: Coerce(q, Overlaid(c, env)[q], z).Some?;
  }

  lemma NoBadFlag(env: Environ, k: Key)
    requires FirstBad(env, FLAG_KEYS).None?
    ensures !BadAt(env, k)
  {
    if IsFlag(k) {
      FlagIsListed(k);
      var i :| 0 <= i < |FLAG_KEYS| && FLAG_KEYS[i] == k;
    }
  }

  lemma FlagIsListed(k: Key)
    requires IsFlag(k)
    ensures k in FLAG_KEYS
  {
    var i := match k
      case ENABLE_A2A => 0 case USE_LONG_TERM_MEMORY => 1 case ENABLE_NETWORKING => 2 case ENABLE_SECURITY => 3
      case ENABLE_RESOURCE_POLICIES => 4 case ENABLE_EGRESS_FILTER => 5 case REQUIRE_GUARDRAILS => 6
      case ENABLE_CEDAR => 7 case ENABLE_TRACEABILITY => 8 case ENABLE_TRANSACTION_SEARCH => 9
      case ENABLE_ALARMS => 10 case _ => 11;
    assert FLAG_KEYS[i] == k;
  }

  lemma AppliedIsTotal(c: Config, env: Environ, z: Schema, c': Config)
    requires Total(c) && Apply(c, env, z) == Applied(c')
    ensures Total(c') && Legal(c', z)
  {
    forall p: Path
      ensures p in c' && Fits(c'[p], KindAt(p))
    {
      AppliedLeaf(c, env, z, c', p);
    }
  }

  lemma FlagTextIsShown(s: string)
    ensures FlagText(s) ==> ShowFlag(Lower(s) == "true") == Lower(s)
  {
  }

  lemma ShownFlagIsText(b: bool)
    ensures FlagText(ShowFlag(b)) && Lower(ShowFlag(b)) == ShowFlag(b) && ShowFlag(b) != ""
    ensures (Lower(ShowFlag(b)) == "true") == b
  {
    assert Lower("true") == "true" && Lower("false") == "false";
    assert "false"[0] == 'f' && "true"[0] == 't';
  }

  // One value, written, validated and shown.
  lemma WrittenShown(k: Key, s: string, z: Schema)
    requires k != ENABLE_WEB_SEARCH && (IsFlag(k) ==> FlagText(s)) && Coerce(Target(k), Written(k, s), z).Some?
    ensures Show(Coerce(Target(k), Written(k, s), z).value, z) == Normal(k, s, z)
  {
    if PlainFlag(k) {
      PlainFlagIs(k, s);
      FlagTextIsShown(s);
    } else {
      TextIsPut(k, s);
    }
  }

  lemma TextIsPut(k: Key, s: string)
    requires !IsFlag(k)
    ensures Written(k, s) == if k == ALLOWED_MODELS then Names(Pieces(s)) else Chars(s)
    ensures KindAt(Target(k)) != FlagKind && (KindAt(Target(k)) == NamesKind <==> k == ALLOWED_MODELS)
  {
  }

  lemma PutSearch(c: Config, env: Environ, z: Schema, c': Config)
    requires Total(c) && Apply(c, env, z) == Applied(c') && Given(env, ENABLE_WEB_SEARCH)
    ensures Total(c') && Shown(c', ENABLE_WEB_SEARCH, z) == Lower(env[ENABLE_WEB_SEARCH])
  {
    AppliedIsTotal(c, env, z, c');
    AppliedLeaf(c, env, z, c', WebSearch);
    NoBadFlag(env, ENABLE_WEB_SEARCH);
    FlagTextIsShown(env[ENABLE_WEB_SEARCH]);
    assert "on" != "off" && "on" != "auto" && "off" != "auto" by {
      assert "on"[0] == 'o' && "auto"[0] == 'a' && "off"[1] == 'f' && "on"[1] == 'n';
    }
  }

  // What was put is what is read: every given variable shows its normal form.
  lemma PutGet(c: Config, env: Environ, z: Schema, c': Config, k: Key)
    requires Total(c) && Apply(c, env, z) == Applied(c') && Given(env, k)
    ensures Total(c') && Shown(c', k, z) == Normal(k, env[k], z)
    ensures if Normal(k, env[k], z) == "" then k !in ToEnv(c', z)
            else k in ToEnv(c', z) && ToEnv(c', z)[k] == Normal(k, env[k], z)
  {
    AppliedIsTotal(c, env, z, c');
    if k == ENABLE_WEB_SEARCH {
      PutSearch(c, env, z, c');
    } else {
      AppliedLeaf(c, env, z, c', Target(k));
      TargetInjective(k);
      TablesAgree(k);
      NoBadFlag(env, k);
      WrittenShown(k, env[k], z);
    }
  }

  // A text setting comes back as given, or as the configuration had it.
  lemma NormalText(k: Key, s: string, z: Schema)
    requires KindAt(Target(k)) == CharsKind && k != ENABLE_WEB_SEARCH
    ensures Normal(k, s, z) == s
  {
  }

  lemma TextIsPrinted(c: Config, z: Schema, k: Key)
    requires Total(c) && KindAt(Read(k)) == CharsKind && k != ENABLE_WEB_SEARCH
    ensures Shown(c, k, z) == c[Read(k)].s
    ensures if c[Read(k)].s == "" then k !in ToEnv(c, z) else Given(ToEnv(c, z), k) && ToEnv(c, z)[k] == c[Read(k)].s
  {
  }

  // A flag that is given always shows, as true or false.
  lemma FlagsComeBack(c: Config, env: Environ, z: Schema, c': Config, k: Key)
    requires Total(c) && Apply(c, env, z) == Applied(c') && Given(env, k) && IsFlag(k)
    ensures Total(c') && k in ToEnv(c', z) && ToEnv(c', z)[k] == Lower(env[k])
  {
    PutGet(c, env, z, c', k);
  }

  // Nothing else moves, except that an `auto` web search follows the region.
  lemma PutFrame(c: Config, env: Environ, z: Schema, c': Config, k: Key)
    requires Total(c) && Apply(c, env, z) == Applied(c') && !Given(env, k)
    ensures Total(c')
    ensures k != ENABLE_WEB_SEARCH || c[WebSearch] != Chars("auto") || !Given(env, AWS_REGION)
            ==> Shown(c', k, z) == Shown(c, k, z)
    ensures k == ENABLE_WEB_SEARCH && c[WebSearch] == Chars("auto") && Given(env, AWS_REGION)
            ==> Shown(c', k, z) == ShowFlag(env[AWS_REGION] in z.webSearchRegions)
  {
    AppliedIsTotal(c, env, z, c');
    AppliedLeaf(c, env, z, c', Target(k));
    AppliedLeaf(c, env, z, c', Region);
    TargetInjective(k);
    TablesAgree(k);
  }

  lemma {:induction false} KeepAll(items: seq<string>)
    requires forall i :: 0 <= i < |items| ==> items[i] != "" && Strip(items[i]) == items[i]
    ensures KeepSome(items) == items
  {
    if items != [] {
      KeepAll(items[1..]);
      assert items == [items[0]] + items[1..];
    }
  }

  lemma ModelsSurvive(list: seq<string>)
    requires list != [] && forall i :: 0 <= i < |list| ==> ModelName(list[i])
    ensures Join(list, ",") != "" && Pieces(Join(list, ",")) == list
  {
    forall m | m in list
      ensures ',' !in m
    {
      assert ModelName(m);
    }
    SplitJoin(list, ',');
    KeepAll(list);
    assert list[0] != "";
  }

  lemma NumberNotEmpty(n: int)
    ensures Number(n) != ""
  {
  }

  // The configuration with `auto` settled.
  function Resolved(c: Config, z: Schema): Config
    requires Total(c)
  {
    c[WebSearch := Chars(if WebSearchOn(c, z) then "on" else "off")]
  }

  lemma OwnText(c: Config, z: Schema, p: Path)
    requires Total(c) && p != WebSearch
    ensures Overlaid(c, ToEnv(c, z))[p] == if Show(c[p], z) == "" then c[p] else Written(KeyAt(p), Show(c[p], z))
  {
    TablesAgree(KeyAt(p));
  }

  lemma OwnModels(c: Config, z: Schema)
    requires Valid(c, z)
    ensures Overlaid(c, ToEnv(c, z))[AllowedModels] == c[AllowedModels]
  {
    var list := c[AllowedModels].list;
    ModelsArePrinted(c, z, list);
    TextIsWritten(Join(list, ","));
    if list != [] {
      ModelsSurvive(list);
    }
  }

  lemma ModelsArePrinted(c: Config, z: Schema, list: seq<string>)
    requires Valid(c, z) && c[AllowedModels] == Names(list)
    ensures Overlaid(c, ToEnv(c, z))[AllowedModels]
            == if Join(list, ",") == "" then Names(list) else Written(KeyAt(AllowedModels), Join(list, ","))
  {
    OwnText(c, z, AllowedModels);
  }

  lemma TextIsWritten(s: string)
    ensures KeyAt(AllowedModels) == ALLOWED_MODELS && Written(ALLOWED_MODELS, s) == Names(Pieces(s))
  {
  }

  lemma OwnFlag(c: Config, z: Schema, p: Path)
    requires Valid(c, z) && KindAt(p) == FlagKind
    ensures Overlaid(c, ToEnv(c, z))[p] == c[p]
  {
    OwnText(c, z, p);
    FlagIsPut(p);
    PlainFlagIs(KeyAt(p), Show(c[p], z));
    ShownFlagIsText(c[p].b);
  }

  lemma FlagIsPut(p: Path)
    requires KindAt(p) == FlagKind
    ensures PlainFlag(KeyAt(p))
  {
  }

  lemma OwnSearch(c: Config, z: Schema)
    requires Valid(c, z)
    ensures Overlaid(c, ToEnv(c, z))[WebSearch] == Resolved(c, z)[WebSearch]
  {
    ShownFlagIsText(WebSearchOn(c, z));
  }

  lemma OwnChars(c: Config, z: Schema, p: Path)
    requires Total(c) && KindAt(p) == CharsKind && p != WebSearch
    ensures Overlaid(c, ToEnv(c, z))[p] == c[p]
  {
    assert Fits(c[p], CharsKind);
    OwnText(c, z, p);
    CharsArePut(p, c[p].s);
  }

  lemma CharsArePut(p: Path, s: string)
    requires KindAt(p) == CharsKind && p != WebSearch
    ensures Written(KeyAt(p), s) == Chars(s)
  {
  }

  lemma OwnNumber(c: Config, z: Schema, p: Path)
    requires Total(c) && Faithful(z, c) && (KindAt(p) == CountKind || KindAt(p) == ScoreKind)
    ensures Coerce(p, Overlaid(c, ToEnv(c, z))[p], z) == Some(c[p])
  {
    OwnText(c, z, p);
    NumberIsPut(p);
    if c[p].Count? {
      NumberNotEmpty(c[p].n);
    }
  }

  lemma NumberIsPut(p: Path)
    requires KindAt(p) == CountKind || KindAt(p) == ScoreKind
    ensures !IsFlag(KeyAt(p)) && KeyAt(p) != ALLOWED_MODELS && KeyAt(p) != ENABLE_WEB_SEARCH
  {
  }

  lemma OwnLeaf(c: Config, z: Schema, p: Path)
    requires Valid(c, z) && Faithful(z, c)
    ensures Coerce(p, Overlaid(c, ToEnv(c, z))[p], z) == Some(Resolved(c, z)[p])
  {
    assert Fits(c[p], KindAt(p));
    if p == WebSearch {
      OwnSearch(c, z);
    } else {
      match KindAt(p)
      case CharsKind => OwnChars(c, z, p);
      case FlagKind => OwnFlag(c, z, p);
      case NamesKind => OwnModels(c, z);
      case CountKind => OwnNumber(c, z, p);
      case ScoreKind => OwnNumber(c, z, p);
    }
  }

  lemma OwnFlagIsGood(c: Config, z: Schema, k: Key)
    requires Valid(c, z) && IsFlag(k)
    ensures !BadAt(ToEnv(c, z), k)
  {
    TablesAgree(k);
    if k == ENABLE_WEB_SEARCH {
      ShownFlagIsText(WebSearchOn(c, z));
    } else {
      ShownFlagIsText(c[Read(k)].b);
    }
  }

  lemma OwnFlagsAreGood(c: Config, z: Schema)
    requires Valid(c, z)
    ensures FirstBad(ToEnv(c, z), FLAG_KEYS).None?
  {
    var bad := FirstBad(ToEnv(c, z), FLAG_KEYS);
    if bad.Some? {
      OwnFlagIsGood(c, z, bad.value);
    }
  }

  // A settled web search is allowed wherever the unsettled one was.
  lemma ResolvedIsLegal(c: Config, z: Schema)
    requires Valid(c, z)
    ensures Legal(Resolved(c, z), z)
  {
    var d := Resolved(c, z);
    assert d - {WebSearch} == c - {WebSearch};
    assert d[DeploymentMode] == c[DeploymentMode];
    assert Chars("on") != Chars("auto") && Chars("off") != Chars("auto") by {
      assert "on"[0] != "auto"[0] && "off"[0] != "auto"[0];
    }
  }

  // A configuration's own environment changes nothing but settles web search.
  lemma GetPut(c: Config, z: Schema)
    requires Valid(c, z) && Faithful(z, c)
    ensures Apply(c, ToEnv(c, z), z) == Applied(Resolved(c, z))
  {
    OwnFlagsAreGood(c, z);
    var raw := Overlaid(c, ToEnv(c, z));
    forall p: Path
      ensures Coerce(p, raw[p], z) == Some(Resolved(c, z)[p])
    {
      OwnLeaf(c, z, p);
    }
    var v := map p: Path | true :: Coerce(p, raw[p], z).value;
    assert v == Resolved(c, z);
    ResolvedIsLegal(c, z);
  }

  // ... and prints the same environment again.
  lemma ResolvedPrintsAlike(c: Config, z: Schema)
    requires Valid(c, z)
    ensures Total(Resolved(c, z)) && ToEnv(Resolved(c, z), z) == ToEnv(c, z)
  {
    var d := Resolved(c, z);
    forall k: Key
      ensures Shown(d, k, z) == Shown(c, k, z)
    {
      TablesAgree(k);
      TargetInjective(k);
      ReadIsWebSearch(k);
    }
  }

  lemma ReadIsWebSearch(k: Key)
    ensures Read(k) == WebSearch <==> k == ENABLE_WEB_SEARCH
  {
  }

  // e2 over e1; an empty value leaves what was there.
  function Merge(e1: Environ, e2: Environ): Environ {
    e1 + (map k | k in e2 && e2[k] != "" :: e2[k])
  }

  lemma {:induction false} FirstBadMerge(e1: Environ, e2: Environ, keys: seq<Key>)
    requires forall i :: 0 <= i < |keys| ==> !BadAt(e1, keys[i])
    ensures FirstBad(Merge(e1, e2), keys) == FirstBad(e2, keys)
  {
    if keys != [] {
      FirstBadMerge(e1, e2, keys[1..]);
      assert !BadAt(e1, keys[0]);
    }
  }

  lemma CoerceStays(p: Path, v: Value, z: Schema)
    requires Coerce(p, v, z).Some?
    ensures Coerce(p, Coerce(p, v, z).value, z) == Coerce(p, v, z)
  {
  }

  lemma ValidateAlike(a: Config, b: Config, z: Schema)
    requires forall p: Path :: p in a && p in b && Coerce(p, a[p], z) == Coerce(p, b[p], z)
    ensures Validate(a, z) == Validate(b, z)
  {
    if forall p: Path :: Coerce(p, a[p], z).Some? {
      var c := map p: Path | true :: Coerce(p, a[p], z).value;
      var d := map p: Path | true :: Coerce(p, b[p], z).value;
      assert c == d;
    }
  }

  // Applying e1 and then e2 is applying their merge, e2 winning: the same
  // configuration, or the same refusal.
  lemma PutPut(c: Config, e1: Environ, e2: Environ, z: Schema, c1: Config)
    requires Total(c) && Apply(c, e1, z) == Applied(c1)
    ensures Total(c1) && Apply(c1, e2, z) == Apply(c, Merge(e1, e2), z)
  {
    AppliedIsTotal(c, e1, z, c1);
    FirstBadMerge(e1, e2, FLAG_KEYS);
    var a, b := Overlaid(c1, e2), Overlaid(c, Merge(e1, e2));
    forall p: Path
      ensures Coerce(p, a[p], z) == Coerce(p, b[p], z)
    {
      AppliedLeaf(c, e1, z, c1, p);
      CoerceStays(p, Overlaid(c, e1)[p], z);
    }
    ValidateAlike(a, b, z);
  }

  // An empty value is as good as an absent one.
  lemma EmptyIsAbsent(c: Config, env: Environ, z: Schema)
    requires Total(c)
    ensures Apply(c, map k | k in env && env[k] != "" :: env[k], z) == Apply(c, env, z)
  {
    var given := map k | k in env && env[k] != "" :: env[k];
    assert Merge(map[], env) == given;
    FirstBadMerge(map[], env, FLAG_KEYS);
    assert Overlaid(c, given) == Overlaid(c, env);
  }

  // Table after table is one overlay, when the tables name every variable.
  lemma InOrder(c: Config, env: Environ, a: seq<Key>, b: seq<Key>, s: seq<Key>, d: seq<Key>)
    requires Total(c) && forall k :: k in a + b + s + d
    ensures PutAll(PutAll(PutAll(PutAll(c, env, a), env, b), env, s), env, d) == Overlaid(c, env)
  {
    PutAllIsOverlay(c, env, a + b + s + d);
    PutAllConcat(c, env, a + b + s, d);
    PutAllConcat(c, env, a + b, s);
    PutAllConcat(c, env, a, b);
  }
}
