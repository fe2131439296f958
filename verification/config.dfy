/** internal/config: reading the environment, validating it, and accepting or rejecting it as a whole. */
module Config {
  import opened Prelude
  import opened Text

  /** The variables the package reads. */
  datatype Setting =
    | ServiceNameVar
    | VersionVar
    | EnvironmentVar
    | HttpPortVar
    | ShutdownGracePeriodVar
    | LogLevelVar
    | KafkaBrokersVar
    | ClickHouseAddrVar
    | ClickHouseDatabaseVar
    | ClickHouseUserVar
    | ClickHousePasswordVar
    | RedisAddrVar
    | RedisPasswordVar
    | HealthCheckTimeoutVar
    | HealthCacheTTLVar

  /** What would have been acceptable. */
  datatype Want =
    | AnInteger
    | ADuration
    | OneEntry
    | SomethingVisible
    | OneOfThese(allowed: seq<string>)
    | IntBetween(minimum: int, maximum: int)
    | SpanUpTo(maximum: Time, allowZero: bool)
    | OneBroker
    | HostAndPort
    | LessThanTimeout(limit: Time)

  /** internal/config/parse.go: one failure, by variable, with what was received and what is wanted. */
  datatype Problem = Problem(variable: Setting, got: string, want: Want)

  /** The conversions of the standard library that the package calls. */
  datatype Lib = Lib(
    atoi: string -> Option<int>,
    parseDuration: string -> Option<Time>,
    splitHostPort: string -> Option<(string, string)>,
    showInt: int -> string,
    showDuration: Time -> string)

  /** The process environment, by setting: what the variable behind each setting holds, if it is set. */
  type Env = map<Setting, string>

  const SECOND: Time := 1_000_000_000
  const MIN_PORT := 1
  const MAX_PORT := 65535
  const MAX_GRACE_PERIOD: Time := 300 * SECOND
  const MAX_HEALTH_TIMEOUT: Time := 30 * SECOND
  const VALID_ENVIRONMENTS: seq<string> := ["local", "ci", "benchmark"]
  const VALID_LOG_LEVELS: seq<string> := ["debug", "info", "warn", "error"]

  datatype ServiceDefaults = ServiceDefaults(serviceName: string, httpPort: int)

  datatype Config = Config(
    serviceName: string,
    version: string,
    environment: string,
    httpPort: int,
    shutdownGracePeriod: Time,
    logLevel: string,
    kafkaBrokers: seq<string>,
    clickHouseAddr: string,
    clickHouseDatabase: string,
    clickHouseUser: string,
    clickHousePassword: string,
    redisAddr: string,
    redisPassword: string,
    healthCheckTimeout: Time,
    healthCacheTTL: Time)

  datatype Loaded = Accepted(config: Config) | Rejected(problems: seq<Problem>)

  // ---- parsing ----

  /** The value of a variable that is set and not empty. */
  function Lookup(env: Env, name: Setting): Option<string> {
    if name !in env || env[name] == "" then None else Some(env[name])
  }

  /** What a getter yields: a value, and the failure it reports if the variable does not parse. */
  datatype Got<T> = Got(value: T, problem: Option<Problem>)

  function GotStr(env: Env, name: Setting, def: string): string {
    if Lookup(env, name).Some? then Lookup(env, name).value else def
  }

  /** A getter over one of the library's parsers. */
  function GotParsed(env: Env, name: Setting, def: int, parse: string -> Option<int>, want: Want): Got<int> {
    var raw := Lookup(env, name);
    if raw.None? then Got(def, None)
    else if parse(raw.value).None? then Got(def, Some(Problem(name, raw.value, want)))
    else Got(parse(raw.value).value, None)
  }

  /** The non-empty trimmed segments, in order. */
  function Cleaned(parts: seq<string>): seq<string> {
    if parts == [] then []
    else
      var p := TrimSpace(parts[0]);
      (if p == "" then [] else [p]) + Cleaned(parts[1..])
  }

  function ParseList(raw: string): seq<string> {
    Cleaned(Split(raw, ','))
  }

  function GotList(env: Env, name: Setting, def: seq<string>): Got<seq<string>> {
    var raw := Lookup(env, name);
    if raw.None? then Got(def, None)
    else if ParseList(raw.value) == [] then Got(def, Some(Problem(name, raw.value, OneEntry)))
    else Got(ParseList(raw.value), None)
  }

  function GotPort(env: Env, d: ServiceDefaults, lib: Lib): Got<int> {
    GotParsed(env, HttpPortVar, d.httpPort, lib.atoi, AnInteger)
  }

  function GotGrace(env: Env, lib: Lib): Got<Time> {
    GotParsed(env, ShutdownGracePeriodVar, 30 * SECOND, lib.parseDuration, ADuration)
  }

  function GotBrokers(env: Env): Got<seq<string>> {
    GotList(env, KafkaBrokersVar, ["localhost:9092"])
  }

  function GotTimeout(env: Env, lib: Lib): Got<Time> {
    GotParsed(env, HealthCheckTimeoutVar, 2 * SECOND, lib.parseDuration, ADuration)
  }

  function GotTTL(env: Env, lib: Lib): Got<Time> {
    GotParsed(env, HealthCacheTTLVar, SECOND, lib.parseDuration, ADuration)
  }

  /** The configuration with a default wherever the environment gives nothing that parses. */
  function Parsed(env: Env, d: ServiceDefaults, lib: Lib): Config {
    Config(
      GotStr(env, ServiceNameVar, d.serviceName),
      GotStr(env, VersionVar, "dev"),
      GotStr(env, EnvironmentVar, "local"),
      GotPort(env, d, lib).value,
      GotGrace(env, lib).value,
      GotStr(env, LogLevelVar, "info"),
      GotBrokers(env).value,
      GotStr(env, ClickHouseAddrVar, "localhost:9000"),
      GotStr(env, ClickHouseDatabaseVar, "pulseflow"),
      GotStr(env, ClickHouseUserVar, "default"),
      GotStr(env, ClickHousePasswordVar, ""),
      GotStr(env, RedisAddrVar, "localhost:6379"),
      GotStr(env, RedisPasswordVar, ""),
      GotTimeout(env, lib).value,
      GotTTL(env, lib).value)
  }

  function Listed(p: Option<Problem>): seq<Problem> {
    if p.Some? then [p.value] else []
  }

  /** The variables that are set and do not parse, in the order of the fields. */
  function ParseFailures(env: Env, d: ServiceDefaults, lib: Lib): seq<Problem> {
    Listed(GotPort(env, d, lib).problem) + Listed(GotGrace(env, lib).problem) + Listed(GotBrokers(env).problem)
    + Listed(GotTimeout(env, lib).problem) + Listed(GotTTL(env, lib).problem)
  }

  // ---- what is read, field by field ----

  predicate IsSet(env: Env, v: Setting) {
    v in env && env[v] != ""
  }

  /** The value of the field's own variable, if that is set and not empty, or else the default. */
  predicate ReadsText(env: Env, v: Setting, def: string, field: string) {
    field == if IsSet(env, v) then env[v] else def
  }

  /** The same, converted; a value that cannot be converted leaves the default. */
  predicate ReadsNumber(env: Env, v: Setting, def: int, parse: string -> Option<int>, field: int) {
    field == if IsSet(env, v) && parse(env[v]).Some? then parse(env[v]).value else def
  }

  predicate ReadsBrokers(env: Env, field: seq<string>) {
    field == if IsSet(env, KafkaBrokersVar) && ParseList(env[KafkaBrokersVar]) != []
             then ParseList(env[KafkaBrokersVar]) else ["localhost:9092"]
  }

  ghost predicate ReadsStores(env: Env, c: Config) {
    && ReadsText(env, ClickHouseAddrVar, "localhost:9000", c.clickHouseAddr)
    && ReadsText(env, ClickHouseDatabaseVar, "pulseflow", c.clickHouseDatabase)
    && ReadsText(env, ClickHouseUserVar, "default", c.clickHouseUser)
    && ReadsText(env, ClickHousePasswordVar, "", c.clickHousePassword)
    && ReadsText(env, RedisAddrVar, "localhost:6379", c.redisAddr)
    && ReadsText(env, RedisPasswordVar, "", c.redisPassword)
  }

  ghost predicate ReadsService(env: Env, d: ServiceDefaults, c: Config) {
    && ReadsText(env, ServiceNameVar, d.serviceName, c.serviceName)
    && ReadsText(env, VersionVar, "dev", c.version)
    && ReadsText(env, EnvironmentVar, "local", c.environment)
    && ReadsText(env, LogLevelVar, "info", c.logLevel)
  }

  /** Every field is read from its own variable, with its own default; times are in nanoseconds. */
  ghost predicate ReadsItsFields(env: Env, d: ServiceDefaults, lib: Lib, c: Config) {
    && ReadsService(env, d, c) && ReadsStores(env, c) && ReadsBrokers(env, c.kafkaBrokers)
    && ReadsNumber(env, HttpPortVar, d.httpPort, lib.atoi, c.httpPort)
    && ReadsNumber(env, ShutdownGracePeriodVar, 30_000_000_000, lib.parseDuration, c.shutdownGracePeriod)
    && ReadsNumber(env, HealthCheckTimeoutVar, 2_000_000_000, lib.parseDuration, c.healthCheckTimeout)
    && ReadsNumber(env, HealthCacheTTLVar, 1_000_000_000, lib.parseDuration, c.healthCacheTTL)
  }

  lemma ParsedReadsItsFields(env: Env, d: ServiceDefaults, lib: Lib)
    ensures ReadsItsFields(env, d, lib, Parsed(env, d, lib))
  {}

  // ---- the rules ----

  datatype Rule =
    | NonEmpty(name: Setting, text: string)
    | OneOf(name: Setting, text: string, allowed: seq<string>)
    | IntRange(name: Setting, number: int, minimum: int, maximum: int)
    | DurationRange(name: Setting, span: Time, maximum: Time, allowZero: bool)
    | SomeEntry(name: Setting, entries: seq<string>)
    | HostPort(name: Setting, text: string)
    | Below(name: Setting, span: Time, limit: Time)

  /** A host, and a numeric port in range. */
  predicate IsHostPort(lib: Lib, text: string) {
    match lib.splitHostPort(text)
    case None => false
    case Some((host, port)) =>
      host != "" && port != "" && lib.atoi(port).Some? && MIN_PORT <= lib.atoi(port).value <= MAX_PORT
  }

  predicate Holds(lib: Lib, r: Rule) {
    match r
    case NonEmpty(_, text) => !Blank(text)
    case OneOf(_, text, allowed) => text in allowed
    case IntRange(_, n, lo, hi) => lo <= n <= hi
    case DurationRange(_, d, hi, allowZero) => 0 <= d <= hi && (d == 0 ==> allowZero)
    case SomeEntry(_, entries) => entries != []
    case HostPort(_, text) => IsHostPort(lib, text)
    case Below(_, d, limit) => d < limit
  }

  function Complaint(lib: Lib, r: Rule): Problem {
    match r
    case NonEmpty(name, text) => Problem(name, text, SomethingVisible)
    case OneOf(name, text, allowed) => Problem(name, text, OneOfThese(allowed))
    case IntRange(name, n, lo, hi) => Problem(name, lib.showInt(n), IntBetween(lo, hi))
    case DurationRange(name, d, hi, allowZero) => Problem(name, lib.showDuration(d), SpanUpTo(hi, allowZero))
    case SomeEntry(name, _) => Problem(name, "", OneBroker)
    case HostPort(name, text) => Problem(name, text, HostAndPort)
    case Below(name, d, limit) => Problem(name, lib.showDuration(d), LessThanTimeout(limit))
  }

  function BrokerRules(brokers: seq<string>): seq<Rule> {
    seq(|brokers|, i requires 0 <= i < |brokers| => HostPort(KafkaBrokersVar, brokers[i]))
  }

  function BrokersRules(brokers: seq<string>): seq<Rule> {
    [SomeEntry(KafkaBrokersVar, brokers)] + BrokerRules(brokers)
  }

  function IdentityRules(c: Config): seq<Rule> {
    [NonEmpty(ServiceNameVar, c.serviceName),
     NonEmpty(VersionVar, c.version),
     OneOf(EnvironmentVar, c.environment, VALID_ENVIRONMENTS)]
  }

  function ServerRules(c: Config): seq<Rule> {
    [IntRange(HttpPortVar, c.httpPort, MIN_PORT, MAX_PORT),
     DurationRange(ShutdownGracePeriodVar, c.shutdownGracePeriod, MAX_GRACE_PERIOD, false),
     OneOf(LogLevelVar, c.logLevel, VALID_LOG_LEVELS)]
  }

  function StoreRules(c: Config): seq<Rule> {
    [HostPort(ClickHouseAddrVar, c.clickHouseAddr),
     NonEmpty(ClickHouseDatabaseVar, c.clickHouseDatabase),
     NonEmpty(ClickHouseUserVar, c.clickHouseUser),
     HostPort(RedisAddrVar, c.redisAddr)]
  }

  function HealthRules(c: Config): seq<Rule> {
    [DurationRange(HealthCheckTimeoutVar, c.healthCheckTimeout, MAX_HEALTH_TIMEOUT, false),
     DurationRange(HealthCacheTTLVar, c.healthCacheTTL, MAX_HEALTH_TIMEOUT, true),
     Below(HealthCacheTTLVar, c.healthCacheTTL, c.healthCheckTimeout)]
  }

  /** Every rule, in the order validate checks them. */
  function Rules(c: Config): seq<Rule> {
    IdentityRules(c) + ServerRules(c) + BrokersRules(c.kafkaBrokers) + StoreRules(c) + HealthRules(c)
  }

  /** The complaints of the rules that do not hold, in order. */
  function Violations(lib: Lib, rules: seq<Rule>): seq<Problem> {
    if rules == [] then []
    else
      var last := rules[|rules| - 1];
      Violations(lib, rules[..|rules| - 1]) + (if Holds(lib, last) then [] else [Complaint(lib, last)])
  }

  lemma {:induction false} ViolationsAppend(lib: Lib, a: seq<Rule>, b: seq<Rule>)
    ensures Violations(lib, a + b) == Violations(lib, a) + Violations(lib, b)
  {
    if b == [] {
      assert a + b == a;
    } else {
      ViolationsAppend(lib, a, b[..|b| - 1]);
      assert (a + b)[..|a + b| - 1] == a + b[..|b| - 1];
    }
  }

  lemma Regroup<T>(base: seq<T>, a: seq<T>, b: seq<T>, c: seq<T>, d: seq<T>, e: seq<T>)
    ensures base + a + b + c + d + e == base + (a + b + c + d + e)
  {}

  // ---- the collector ----

  class Collector {
    const env: Env
    const lib: Lib
    var problems: seq<Problem>

    constructor (env: Env, lib: Lib)
      ensures this.env == env && this.lib == lib && problems == []
    {
      this.env, this.lib := env, lib;
      problems := [];
    }

    method Add(name: Setting, got: string, want: Want)
      modifies this
      ensures problems == old(problems) + [Problem(name, got, want)]
    {
      problems := problems + [Problem(name, got, want)];
    }

    function Str(name: Setting, def: string): string {
      GotStr(env, name, def)
    }

    method IntVal(name: Setting, def: int) returns (n: int)
      modifies this
      ensures var got := GotParsed(env, name, def, lib.atoi, AnInteger);
              n == got.value && problems == old(problems) + Listed(got.problem)
    {
      var raw := Lookup(env, name);
      if raw.None? {
        return def;
      }
      var parsed := lib.atoi(raw.value);
      if parsed.None? {
        Add(name, raw.value, AnInteger);
        return def;
      }
      return parsed.value;
    }

    method Duration(name: Setting, def: Time) returns (d: Time)
      modifies this
      ensures var got := GotParsed(env, name, def, lib.parseDuration, ADuration);
              d == got.value && problems == old(problems) + Listed(got.problem)
    {
      var raw := Lookup(env, name);
      if raw.None? {
        return def;
      }
      var parsed := lib.parseDuration(raw.value);
      if parsed.None? {
        Add(name, raw.value, ADuration);
        return def;
      }
      return parsed.value;
    }

    method List(name: Setting, def: seq<string>) returns (out: seq<string>)
      modifies this
      ensures var got := GotList(env, name, def);
              out == got.value && problems == old(problems) + Listed(got.problem)
    {
      var raw := Lookup(env, name);
      if raw.None? {
        return def;
      }
      var parts := Split(raw.value, ',');
      out := [];
      for k := 0 to |parts|
        invariant problems == old(problems)
        invariant out == Cleaned(parts[..k])
      {
        CleanedOneMore(parts, k);
        var p := TrimSpace(parts[k]);
        if p != "" {
          out := out + [p];
        }
      }
      assert parts[..|parts|] == parts;
      if out == [] {
        Add(name, raw.value, OneEntry);
        return def;
      }
    }

    method RequireNonEmpty(name: Setting, value: string)
      modifies this
      ensures problems == old(problems) + Violations(lib, [NonEmpty(name, value)])
    {
      BlankTrimsAway(value);
      if TrimSpace(value) == "" {
        Add(name, value, SomethingVisible);
      }
    }

    method RequireOneOf(name: Setting, value: string, allowed: seq<string>)
      modifies this
      ensures problems == old(problems) + Violations(lib, [OneOf(name, value, allowed)])
    {
      for k := 0 to |allowed|
        invariant problems == old(problems)
        invariant value !in allowed[..k]
      {
        if value == allowed[k] {
          return;
        }
      }
      assert allowed[..|allowed|] == allowed;
      Add(name, value, OneOfThese(allowed));
    }

    method RequireIntRange(name: Setting, value: int, minimum: int, maximum: int)
      modifies this
      ensures problems == old(problems) + Violations(lib, [IntRange(name, value, minimum, maximum)])
    {
      if value < minimum || value > maximum {
        Add(name, lib.showInt(value), IntBetween(minimum, maximum));
      }
    }

    method RequireDurationRange(name: Setting, value: Time, maximum: Time, allowZero: bool)
      modifies this
      ensures problems == old(problems) + Violations(lib, [DurationRange(name, value, maximum, allowZero)])
    {
      if value < 0 || (!allowZero && value == 0) || value > maximum {
        Add(name, lib.showDuration(value), SpanUpTo(maximum, allowZero));
      }
    }

    method RequireHostPort(name: Setting, value: string)
      modifies this
      ensures problems == old(problems) + Violations(lib, [HostPort(name, value)])
    {
      var split := lib.splitHostPort(value);
      if split.None? || split.value.0 == "" || split.value.1 == "" {
        Add(name, value, HostAndPort);
        return;
      }
      var n := lib.atoi(split.value.1);
      if n.None? || n.value < MIN_PORT || n.value > MAX_PORT {
        Add(name, value, HostAndPort);
      }
    }

    method RequireBrokers(brokers: seq<string>)
      modifies this
      ensures problems == old(problems) + Violations(lib, BrokersRules(brokers))
      ensures problems == old(problems) + if brokers == [] then [Problem(KafkaBrokersVar, "", OneBroker)]
                                          else BadAddresses(lib, brokers)
    {
      if |brokers| == 0 {
        Add(KafkaBrokersVar, "", OneBroker);
      }
      ghost var rules := BrokersRules(brokers);
      assert problems == old(problems) + Violations(lib, [rules[0]]);
      assert rules[..1] == [rules[0]];
      for k := 0 to |brokers|
        invariant problems == old(problems) + Violations(lib, rules[..k + 1])
      {
        RequireHostPort(KafkaBrokersVar, brokers[k]);
        OneMoreRule(lib, rules, k + 1);
      }
      assert rules[..|brokers| + 1] == rules;
      BrokersComplaints(lib, brokers);
    }

    method ValidateIdentity(c: Config)
      modifies this
      ensures problems == old(problems) + Violations(lib, IdentityRules(c))
    {
      RequireNonEmpty(ServiceNameVar, c.serviceName);
      RequireNonEmpty(VersionVar, c.version);
      RequireOneOf(EnvironmentVar, c.environment, VALID_ENVIRONMENTS);
      ghost var rules := IdentityRules(c);
      ViolationsOfThree(lib, rules[0], rules[1], rules[2]);
    }

    method ValidateServer(c: Config)
      modifies this
      ensures problems == old(problems) + Violations(lib, ServerRules(c))
    {
      RequireIntRange(HttpPortVar, c.httpPort, MIN_PORT, MAX_PORT);
      RequireDurationRange(ShutdownGracePeriodVar, c.shutdownGracePeriod, MAX_GRACE_PERIOD, false);
      RequireOneOf(LogLevelVar, c.logLevel, VALID_LOG_LEVELS);
      ghost var rules := ServerRules(c);
      ViolationsOfThree(lib, rules[0], rules[1], rules[2]);
    }

    method ValidateStores(c: Config)
      modifies this
      ensures problems == old(problems) + Violations(lib, StoreRules(c))
    {
      RequireHostPort(ClickHouseAddrVar, c.clickHouseAddr);
      RequireNonEmpty(ClickHouseDatabaseVar, c.clickHouseDatabase);
      RequireNonEmpty(ClickHouseUserVar, c.clickHouseUser);
      RequireHostPort(RedisAddrVar, c.redisAddr);
      ghost var rules := StoreRules(c);
      ViolationsOfThree(lib, rules[0], rules[1], rules[2]);
      ViolationsAppend(lib, [rules[0], rules[1], rules[2]], [rules[3]]);
      assert rules == [rules[0], rules[1], rules[2]] + [rules[3]];
    }

    method ValidateHealth(c: Config)
      modifies this
      ensures problems == old(problems) + Violations(lib, HealthRules(c))
    {
      RequireDurationRange(HealthCheckTimeoutVar, c.healthCheckTimeout, MAX_HEALTH_TIMEOUT, false);
      RequireDurationRange(HealthCacheTTLVar, c.healthCacheTTL, MAX_HEALTH_TIMEOUT, true);
      ghost var before := problems;
      ghost var rules := HealthRules(c);
      if c.healthCacheTTL >= c.healthCheckTimeout {
        Add(HealthCacheTTLVar, lib.showDuration(c.healthCacheTTL), LessThanTimeout(c.healthCheckTimeout));
      }
      assert problems == before + Violations(lib, [rules[2]]);
      ViolationsOfThree(lib, rules[0], rules[1], rules[2]);
    }

    /** internal/config/validate.go: every rule is checked, and every one that fails is reported. */
    method Validate(c: Config)
      modifies this
      ensures problems == old(problems) + Violations(lib, Rules(c))
    {
      ValidateIdentity(c);
      ValidateServer(c);
      RequireBrokers(c.kafkaBrokers);
      ValidateStores(c);
      ValidateHealth(c);
      RulesInGroups(lib, c);
      Regroup(old(problems), Violations(lib, IdentityRules(c)), Violations(lib, ServerRules(c)),
              Violations(lib, BrokersRules(c.kafkaBrokers)), Violations(lib, StoreRules(c)),
              Violations(lib, HealthRules(c)));
    }
  }

  /** One complaint for each text that is no address, in their order. */
  ghost function BadAddresses(lib: Lib, texts: seq<string>): seq<Problem> {
    if texts == [] then [] else BadAddress(lib, texts[0]) + BadAddresses(lib, texts[1..])
  }

  ghost function BadAddress(lib: Lib, text: string): seq<Problem> {
    if IsAddress(lib, text) then [] else [Problem(KafkaBrokersVar, text, HostAndPort)]
  }

  lemma {:induction false} BrokerComplaints(lib: Lib, brokers: seq<string>)
    ensures Violations(lib, BrokerRules(brokers)) == BadAddresses(lib, brokers)
  {
    if brokers != [] {
      var first := HostPort(KafkaBrokersVar, brokers[0]);
      BrokerComplaints(lib, brokers[1..]);
      ViolationsAppend(lib, [first], BrokerRules(brokers[1..]));
      assert BrokerRules(brokers) == [first] + BrokerRules(brokers[1..]);
      OneComplaint(lib, first);
      AddressesAreHostPorts(lib, brokers[0]);
    }
  }

  lemma BrokersComplaints(lib: Lib, brokers: seq<string>)
    ensures Violations(lib, BrokersRules(brokers)) ==
            if brokers == [] then [Problem(KafkaBrokersVar, "", OneBroker)] else BadAddresses(lib, brokers)
  {
    ViolationsAppend(lib, [SomeEntry(KafkaBrokersVar, brokers)], BrokerRules(brokers));
    OneComplaint(lib, SomeEntry(KafkaBrokersVar, brokers));
    BrokerComplaints(lib, brokers);
  }

  lemma OneComplaint(lib: Lib, r: Rule)
    ensures Violations(lib, [r]) == if Holds(lib, r) then [] else [Complaint(lib, r)]
  {
    assert [r][..0] == [];
  }

  lemma OneMoreRule(lib: Lib, rules: seq<Rule>, k: nat)
    requires k < |rules|
    ensures Violations(lib, rules[..k + 1]) == Violations(lib, rules[..k]) + Violations(lib, [rules[k]])
  {
    ViolationsAppend(lib, rules[..k], [rules[k]]);
    assert rules[..k + 1] == rules[..k] + [rules[k]];
  }

  lemma ViolationsOfThree(lib: Lib, a: Rule, b: Rule, c: Rule)
    ensures Violations(lib, [a, b, c]) == Violations(lib, [a]) + Violations(lib, [b]) + Violations(lib, [c])
  {
    ViolationsAppend(lib, [a], [b]);
    ViolationsAppend(lib, [a, b], [c]);
    assert [a, b, c] == [a, b] + [c] && [a, b] == [a] + [b];
  }

  lemma RulesInGroups(lib: Lib, c: Config)
    ensures Violations(lib, Rules(c)) ==
            Violations(lib, IdentityRules(c)) + Violations(lib, ServerRules(c))
            + Violations(lib, BrokersRules(c.kafkaBrokers)) + Violations(lib, StoreRules(c))
            + Violations(lib, HealthRules(c))
  {
    var a, b, k, st, h := IdentityRules(c), ServerRules(c), BrokersRules(c.kafkaBrokers), StoreRules(c), HealthRules(c);
    ViolationsAppend(lib, a, b);
    ViolationsAppend(lib, a + b, k);
    ViolationsAppend(lib, a + b + k, st);
    ViolationsAppend(lib, a + b + k + st, h);
  }

  lemma CleanedOneMore(parts: seq<string>, k: nat)
    requires k < |parts|
    ensures var p := TrimSpace(parts[k]);
            Cleaned(parts[..k + 1]) == Cleaned(parts[..k]) + (if p == "" then [] else [p])
  {
    CleanedAppend(parts[..k], [parts[k]]);
    assert parts[..k + 1] == parts[..k] + [parts[k]];
  }

  lemma BlankTrimsAway(s: string)
    ensures TrimSpace(s) == "" <==> Blank(s)
  {
    if Blank(s) {
      TrimLeftSkips(s, "");
      assert s + "" == s;
    } else {
      VisibleSurvives(s);
    }
  }

  lemma {:induction false} VisibleSurvives(s: string)
    requires !Blank(s)
    ensures TrimSpace(s) != ""
  {
    if IsSpace(s[0]) {
      VisibleSurvives(s[1..]);
    } else {
      TrimRightKeeps(s[..1], s[1..]);
      assert s[..1] + s[1..] == s;
    }
  }

  // ---- loading ----

  /** Every problem of an environment: what does not parse, then what the defaulted configuration violates. */
  function Problems(env: Env, d: ServiceDefaults, lib: Lib): seq<Problem> {
    ParseFailures(env, d, lib) + Violations(lib, Rules(Parsed(env, d, lib)))
  }

  /** The getters, in the order of the fields. */
  method Read(c: Collector, d: ServiceDefaults) returns (cfg: Config)
    modifies c
    ensures cfg == Parsed(c.env, d, c.lib)
    ensures c.problems == old(c.problems) + ParseFailures(c.env, d, c.lib)
  {
    var httpPort := c.IntVal(HttpPortVar, d.httpPort);
    var grace := c.Duration(ShutdownGracePeriodVar, 30 * SECOND);
    var brokers := c.List(KafkaBrokersVar, ["localhost:9092"]);
    var timeout := c.Duration(HealthCheckTimeoutVar, 2 * SECOND);
    var ttl := c.Duration(HealthCacheTTLVar, SECOND);
    Regroup(old(c.problems), Listed(GotPort(c.env, d, c.lib).problem), Listed(GotGrace(c.env, c.lib).problem),
            Listed(GotBrokers(c.env).problem), Listed(GotTimeout(c.env, c.lib).problem),
            Listed(GotTTL(c.env, c.lib).problem));
    cfg := Config(
      c.Str(ServiceNameVar, d.serviceName),
      c.Str(VersionVar, "dev"),
      c.Str(EnvironmentVar, "local"),
      httpPort,
      grace,
      c.Str(LogLevelVar, "info"),
      brokers,
      c.Str(ClickHouseAddrVar, "localhost:9000"),
      c.Str(ClickHouseDatabaseVar, "pulseflow"),
      c.Str(ClickHouseUserVar, "default"),
      c.Str(ClickHousePasswordVar, ""),
      c.Str(RedisAddrVar, "localhost:6379"),
      c.Str(RedisPasswordVar, ""),
      timeout,
      ttl);
  }

  method Load(env: Env, d: ServiceDefaults, lib: Lib) returns (r: Loaded)
    ensures r.Accepted? <==> Problems(env, d, lib) == []
    ensures r == if r.Accepted? then Accepted(Parsed(env, d, lib)) else Rejected(Problems(env, d, lib))
    ensures IsExplained(env, d, lib, r)
  {
    var c := new Collector(env, lib);
    var cfg := Read(c, d);
    assert c.problems == ParseFailures(env, d, lib);
    c.Validate(cfg);
    assert c.problems == Problems(env, d, lib);
    LoadIsExplained(env, d, lib);
    LoadIsRejected(env, d, lib);
    if |c.problems| > 0 {
      return Rejected(c.problems);
    }
    return Accepted(cfg);
  }

  /**
   A configuration that is accepted has been read field by field from variables that parse, and is usable;
   every such configuration is accepted; and a rejection gives exactly the problems there are, in order.
   */
  ghost predicate IsExplained(env: Env, d: ServiceDefaults, lib: Lib, r: Loaded) {
    && (r.Accepted? ==> ReadsItsFields(env, d, lib, r.config) && Parses(env, lib) && IsUsable(r.config, lib))
    && (forall c | ReadsItsFields(env, d, lib, c) && Parses(env, lib) && IsUsable(c, lib) :: r == Accepted(c))
    && (r.Rejected? ==> r.problems != [] && InOrder(r.problems)
                        && forall p :: p in r.problems <==> IsReported(env, d, lib, p))
  }

  lemma LoadIsExplained(env: Env, d: ServiceDefaults, lib: Lib)
    ensures Problems(env, d, lib) == [] ==> IsExplained(env, d, lib, Accepted(Parsed(env, d, lib)))
  {
    ParsedReadsItsFields(env, d, lib);
    AcceptsExactlyTheUsable(env, d, lib);
    ParsedIsTheOnly(env, d, lib);
  }

  lemma LoadIsRejected(env: Env, d: ServiceDefaults, lib: Lib)
    ensures Problems(env, d, lib) != [] ==> IsExplained(env, d, lib, Rejected(Problems(env, d, lib)))
  {
    AcceptsExactlyTheUsable(env, d, lib);
    ParsedIsTheOnly(env, d, lib);
    ProblemsComeInOrder(env, d, lib);
    forall p ensures p in Problems(env, d, lib) <==> IsReported(env, d, lib, p) {
      ProblemsAreReported(env, d, lib, p);
    }
  }

  // ---- the problems, one by one ----

  /** A variable that is set and does not parse. */
  ghost predicate IsUnparsed(env: Env, lib: Lib, p: Problem) {
    || (SetAndUnparsable(env, HttpPortVar, lib.atoi) && p == Problem(HttpPortVar, env[HttpPortVar], AnInteger))
    || (SetAndUnparsable(env, ShutdownGracePeriodVar, lib.parseDuration)
        && p == Problem(ShutdownGracePeriodVar, env[ShutdownGracePeriodVar], ADuration))
    || (SetAndUnparsable(env, HealthCheckTimeoutVar, lib.parseDuration)
        && p == Problem(HealthCheckTimeoutVar, env[HealthCheckTimeoutVar], ADuration))
    || (SetAndUnparsable(env, HealthCacheTTLVar, lib.parseDuration)
        && p == Problem(HealthCacheTTLVar, env[HealthCacheTTLVar], ADuration))
    || (IsSet(env, KafkaBrokersVar) && (forall part | part in Split(env[KafkaBrokersVar], ',') :: Blank(part))
        && p == Problem(KafkaBrokersVar, env[KafkaBrokersVar], OneEntry))
  }

  predicate OfIdentity(c: Config, p: Problem) {
    || (Blank(c.serviceName) && p == Problem(ServiceNameVar, c.serviceName, SomethingVisible))
    || (Blank(c.version) && p == Problem(VersionVar, c.version, SomethingVisible))
    || (c.environment !in ["local", "ci", "benchmark"]
        && p == Problem(EnvironmentVar, c.environment, OneOfThese(["local", "ci", "benchmark"])))
  }

  predicate OfServer(lib: Lib, c: Config, p: Problem) {
    || (!(1 <= c.httpPort <= 65535) && p == Problem(HttpPortVar, lib.showInt(c.httpPort), IntBetween(1, 65535)))
    || (!(0 < c.shutdownGracePeriod <= 300_000_000_000)
        && p == Problem(ShutdownGracePeriodVar, lib.showDuration(c.shutdownGracePeriod),
                        SpanUpTo(300_000_000_000, false)))
    || (c.logLevel !in ["debug", "info", "warn", "error"]
        && p == Problem(LogLevelVar, c.logLevel, OneOfThese(["debug", "info", "warn", "error"])))
  }

  ghost predicate OfBrokers(lib: Lib, brokers: seq<string>, p: Problem) {
    || (brokers == [] && p == Problem(KafkaBrokersVar, "", OneBroker))
    || (exists b :: b in brokers && !IsAddress(lib, b) && p == Problem(KafkaBrokersVar, b, HostAndPort))
  }

  ghost predicate OfStores(lib: Lib, c: Config, p: Problem) {
    || (!IsAddress(lib, c.clickHouseAddr) && p == Problem(ClickHouseAddrVar, c.clickHouseAddr, HostAndPort))
    || (Blank(c.clickHouseDatabase) && p == Problem(ClickHouseDatabaseVar, c.clickHouseDatabase, SomethingVisible))
    || (Blank(c.clickHouseUser) && p == Problem(ClickHouseUserVar, c.clickHouseUser, SomethingVisible))
    || (!IsAddress(lib, c.redisAddr) && p == Problem(RedisAddrVar, c.redisAddr, HostAndPort))
  }

  predicate OfHealth(lib: Lib, c: Config, p: Problem) {
    || (!(0 < c.healthCheckTimeout <= 30_000_000_000)
        && p == Problem(HealthCheckTimeoutVar, lib.showDuration(c.healthCheckTimeout), SpanUpTo(30_000_000_000, false)))
    || (!(0 <= c.healthCacheTTL <= 30_000_000_000)
        && p == Problem(HealthCacheTTLVar, lib.showDuration(c.healthCacheTTL), SpanUpTo(30_000_000_000, true)))
    || (c.healthCheckTimeout <= c.healthCacheTTL
        && p == Problem(HealthCacheTTLVar, lib.showDuration(c.healthCacheTTL), LessThanTimeout(c.healthCheckTimeout)))
  }

  /** A complaint about the configuration with a default wherever the environment gives nothing that parses. */
  ghost predicate IsReported(env: Env, d: ServiceDefaults, lib: Lib, p: Problem) {
    || IsUnparsed(env, lib, p)
    || exists c :: ReadsItsFields(env, d, lib, c) && IsComplaint(lib, c, p)
  }

  ghost predicate IsComplaint(lib: Lib, c: Config, p: Problem) {
    || OfIdentity(c, p) || OfServer(lib, c, p) || OfBrokers(lib, c.kafkaBrokers, p)
    || OfStores(lib, c, p) || OfHealth(lib, c, p)
  }

  /** The failure of a variable that is set and does not parse. */
  function FailureOf(env: Env, name: Setting, parse: string -> Option<int>, want: Want): seq<Problem> {
    if SetAndUnparsable(env, name, parse) then [Problem(name, env[name], want)] else []
  }

  ghost function BrokersFailure(env: Env): seq<Problem> {
    if IsSet(env, KafkaBrokersVar) && forall part | part in Split(env[KafkaBrokersVar], ',') :: Blank(part)
    then [Problem(KafkaBrokersVar, env[KafkaBrokersVar], OneEntry)] else []
  }

  lemma GotParsedFails(env: Env, name: Setting, def: int, parse: string -> Option<int>, want: Want)
    ensures Listed(GotParsed(env, name, def, parse, want).problem) == FailureOf(env, name, parse, want)
  {}

  lemma GotBrokersFails(env: Env)
    ensures Listed(GotBrokers(env).problem) == BrokersFailure(env)
  {
    if IsSet(env, KafkaBrokersVar) {
      CleanedIsEmpty(Split(env[KafkaBrokersVar], ','));
    }
  }

  lemma ParseFailuresByField(env: Env, d: ServiceDefaults, lib: Lib)
    ensures ParseFailures(env, d, lib) ==
            FailureOf(env, HttpPortVar, lib.atoi, AnInteger)
            + FailureOf(env, ShutdownGracePeriodVar, lib.parseDuration, ADuration)
            + BrokersFailure(env)
            + FailureOf(env, HealthCheckTimeoutVar, lib.parseDuration, ADuration)
            + FailureOf(env, HealthCacheTTLVar, lib.parseDuration, ADuration)
  {
    GotParsedFails(env, HttpPortVar, d.httpPort, lib.atoi, AnInteger);
    GotParsedFails(env, ShutdownGracePeriodVar, 30 * SECOND, lib.parseDuration, ADuration);
    GotBrokersFails(env);
    GotParsedFails(env, HealthCheckTimeoutVar, 2 * SECOND, lib.parseDuration, ADuration);
    GotParsedFails(env, HealthCacheTTLVar, SECOND, lib.parseDuration, ADuration);
  }

  lemma ParseFailuresAre(env: Env, d: ServiceDefaults, lib: Lib, p: Problem)
    ensures p in ParseFailures(env, d, lib) <==> IsUnparsed(env, lib, p)
  {
    ParseFailuresByField(env, d, lib);
    InFive(
      FailureOf(env, HttpPortVar, lib.atoi, AnInteger),
      FailureOf(env, ShutdownGracePeriodVar, lib.parseDuration, ADuration),
      BrokersFailure(env),
      FailureOf(env, HealthCheckTimeoutVar, lib.parseDuration, ADuration),
      FailureOf(env, HealthCacheTTLVar, lib.parseDuration, ADuration), p);
  }

  lemma InFive<T>(a: seq<T>, b: seq<T>, c: seq<T>, d: seq<T>, e: seq<T>, x: T)
    ensures x in a + b + c + d + e <==> x in a || x in b || x in c || x in d || x in e
  {}

  lemma IdentityComplaints(lib: Lib, c: Config, p: Problem)
    ensures p in Violations(lib, IdentityRules(c)) <==> OfIdentity(c, p)
  {
    var rules := IdentityRules(c);
    ComplaintsOfThree(lib, rules[0], rules[1], rules[2]);
  }

  lemma ServerComplaints(lib: Lib, c: Config, p: Problem)
    ensures p in Violations(lib, ServerRules(c)) <==> OfServer(lib, c, p)
  {
    var rules := ServerRules(c);
    ComplaintsOfThree(lib, rules[0], rules[1], rules[2]);
  }

  lemma HealthComplaints(lib: Lib, c: Config, p: Problem)
    ensures p in Violations(lib, HealthRules(c)) <==> OfHealth(lib, c, p)
  {
    var rules := HealthRules(c);
    ComplaintsOfThree(lib, rules[0], rules[1], rules[2]);
  }

  lemma StoreComplaints(lib: Lib, c: Config, p: Problem)
    ensures p in Violations(lib, StoreRules(c)) <==> OfStores(lib, c, p)
  {
    var rules := StoreRules(c);
    ComplaintsOfFour(lib, rules[0], rules[1], rules[2], rules[3]);
    AddressesAreHostPorts(lib, c.clickHouseAddr);
    AddressesAreHostPorts(lib, c.redisAddr);
  }

  function Complaints(lib: Lib, r: Rule): seq<Problem> {
    if Holds(lib, r) then [] else [Complaint(lib, r)]
  }

  lemma ComplaintsOfThree(lib: Lib, a: Rule, b: Rule, c: Rule)
    ensures Violations(lib, [a, b, c]) == Complaints(lib, a) + Complaints(lib, b) + Complaints(lib, c)
  {
    ViolationsOfThree(lib, a, b, c);
    OneComplaint(lib, a);
    OneComplaint(lib, b);
    OneComplaint(lib, c);
  }

  lemma ComplaintsOfFour(lib: Lib, a: Rule, b: Rule, c: Rule, e: Rule)
    ensures Violations(lib, [a, b, c, e]) ==
            Complaints(lib, a) + Complaints(lib, b) + Complaints(lib, c) + Complaints(lib, e)
  {
    ComplaintsOfThree(lib, a, b, c);
    OneComplaint(lib, e);
    ViolationsAppend(lib, [a, b, c], [e]);
    assert [a, b, c, e] == [a, b, c] + [e];
  }

  lemma {:induction false} BadAddressesAre(lib: Lib, texts: seq<string>, p: Problem)
    ensures p in BadAddresses(lib, texts) <==>
            exists b :: b in texts && !IsAddress(lib, b) && p == Problem(KafkaBrokersVar, b, HostAndPort)
  {
    if texts != [] {
      BadAddressesAre(lib, texts[1..], p);
      assert texts == [texts[0]] + texts[1..];
    }
  }

  lemma BrokersComplaintsAre(lib: Lib, brokers: seq<string>, p: Problem)
    ensures p in Violations(lib, BrokersRules(brokers)) <==> OfBrokers(lib, brokers, p)
  {
    BrokersComplaints(lib, brokers);
    BadAddressesAre(lib, brokers, p);
  }

  lemma ProblemsAreReported(env: Env, d: ServiceDefaults, lib: Lib, p: Problem)
    ensures p in Problems(env, d, lib) <==> IsReported(env, d, lib, p)
  {
    var c := Parsed(env, d, lib);
    ParsedReadsItsFields(env, d, lib);
    ParseFailuresAre(env, d, lib, p);
    RulesInGroups(lib, c);
    IdentityComplaints(lib, c, p);
    ServerComplaints(lib, c, p);
    BrokersComplaintsAre(lib, c.kafkaBrokers, p);
    StoreComplaints(lib, c, p);
    HealthComplaints(lib, c, p);
    ParsedIsTheOnly(env, d, lib);
  }

  lemma ParsedIsTheOnly(env: Env, d: ServiceDefaults, lib: Lib)
    ensures forall c | ReadsItsFields(env, d, lib, c) :: c == Parsed(env, d, lib)
  {}

  // ---- the order of the problems ----

  /** The order of the rules. */
  function PlaceOf(v: Setting): nat {
    match v
    case ServiceNameVar => 0
    case VersionVar => 1
    case EnvironmentVar => 2
    case HttpPortVar => 3
    case ShutdownGracePeriodVar => 4
    case LogLevelVar => 5
    case KafkaBrokersVar => 6
    case ClickHouseAddrVar => 7
    case ClickHouseDatabaseVar => 8
    case ClickHouseUserVar => 9
    case ClickHousePasswordVar => 10
    case RedisAddrVar => 11
    case RedisPasswordVar => 12
    case HealthCheckTimeoutVar => 13
    case HealthCacheTTLVar => 14
  }

  /** What does not parse comes first; of the rest the rule across two fields last. */
  function Place(p: Problem): nat {
    if p.want.AnInteger? || p.want.ADuration? || p.want.OneEntry? then PlaceOf(p.variable)
    else if p.want.LessThanTimeout? then 200
    else 100 + PlaceOf(p.variable)
  }

  predicate InOrder(ps: seq<Problem>) {
    forall i, j | 0 <= i < j < |ps| :: Place(ps[i]) <= Place(ps[j])
  }

  predicate IsWithin(ps: seq<Problem>, lo: nat, hi: nat) {
    forall i | 0 <= i < |ps| :: lo <= Place(ps[i]) <= hi
  }

  lemma OrderedAppend(a: seq<Problem>, b: seq<Problem>, lo: nat, mid: nat, hi: nat)
    requires InOrder(a) && InOrder(b) && IsWithin(a, lo, mid) && IsWithin(b, mid, hi) && lo <= mid <= hi
    ensures InOrder(a + b) && IsWithin(a + b, lo, hi)
  {
    assert forall i | 0 <= i < |a| :: (a + b)[i] == a[i];
    assert forall i | |a| <= i < |a + b| :: (a + b)[i] == b[i - |a|];
  }

  lemma FiveInOrder(
      a: seq<Problem>, b: seq<Problem>, c: seq<Problem>, d: seq<Problem>, e: seq<Problem>,
      n0: nat, n1: nat, n2: nat, n3: nat, n4: nat, n5: nat)
    requires InOrder(a) && InOrder(b) && InOrder(c) && InOrder(d) && InOrder(e)
    requires n0 <= n1 <= n2 <= n3 <= n4 <= n5
    requires IsWithin(a, n0, n1) && IsWithin(b, n1, n2) && IsWithin(c, n2, n3)
    requires IsWithin(d, n3, n4) && IsWithin(e, n4, n5)
    ensures InOrder(a + b + c + d + e) && IsWithin(a + b + c + d + e, n0, n5)
  {
    OrderedAppend(a, b, n0, n1, n2);
    OrderedAppend(a + b, c, n0, n2, n3);
    OrderedAppend(a + b + c, d, n0, n3, n4);
    OrderedAppend(a + b + c + d, e, n0, n4, n5);
  }

  lemma FailureInOrder(env: Env, name: Setting, parse: string -> Option<int>, want: Want, lo: nat, hi: nat)
    requires (want.AnInteger? || want.ADuration?) && lo <= PlaceOf(name) <= hi
    ensures InOrder(FailureOf(env, name, parse, want)) && IsWithin(FailureOf(env, name, parse, want), lo, hi)
  {}

  lemma BrokersFailureInOrder(env: Env)
    ensures InOrder(BrokersFailure(env)) && IsWithin(BrokersFailure(env), 4, 6)
  {}

  lemma ParseFailuresInOrder(env: Env, d: ServiceDefaults, lib: Lib)
    ensures InOrder(ParseFailures(env, d, lib)) && IsWithin(ParseFailures(env, d, lib), 0, 14)
  {
    ParseFailuresByField(env, d, lib);
    FailureInOrder(env, HttpPortVar, lib.atoi, AnInteger, 0, 3);
    FailureInOrder(env, ShutdownGracePeriodVar, lib.parseDuration, ADuration, 3, 4);
    BrokersFailureInOrder(env);
    FailureInOrder(env, HealthCheckTimeoutVar, lib.parseDuration, ADuration, 6, 13);
    FailureInOrder(env, HealthCacheTTLVar, lib.parseDuration, ADuration, 13, 14);
    FiveInOrder(
      FailureOf(env, HttpPortVar, lib.atoi, AnInteger),
      FailureOf(env, ShutdownGracePeriodVar, lib.parseDuration, ADuration),
      BrokersFailure(env),
      FailureOf(env, HealthCheckTimeoutVar, lib.parseDuration, ADuration),
      FailureOf(env, HealthCacheTTLVar, lib.parseDuration, ADuration),
      0, 3, 4, 6, 13, 14);
  }

  lemma ThreeInOrder(lib: Lib, a: Rule, b: Rule, c: Rule, lo: nat, hi: nat)
    requires lo <= Place(Complaint(lib, a)) <= Place(Complaint(lib, b)) <= Place(Complaint(lib, c)) <= hi
    ensures InOrder(Violations(lib, [a, b, c])) && IsWithin(Violations(lib, [a, b, c]), lo, hi)
  {
    ComplaintsOfThree(lib, a, b, c);
    var pa, pb := Place(Complaint(lib, a)), Place(Complaint(lib, b));
    FiveInOrder(Complaints(lib, a), Complaints(lib, b), Complaints(lib, c), [], [], lo, pa, pb, hi, hi, hi);
    var all := Complaints(lib, a) + Complaints(lib, b) + Complaints(lib, c);
    assert all + [] + [] == all;
  }

  lemma {:induction false} BadAddressesInOrder(lib: Lib, texts: seq<string>)
    ensures InOrder(BadAddresses(lib, texts)) && IsWithin(BadAddresses(lib, texts), 106, 106)
  {
    if texts != [] {
      BadAddressesInOrder(lib, texts[1..]);
    }
  }

  lemma StoresInOrder(lib: Lib, c: Config)
    ensures InOrder(Violations(lib, StoreRules(c))) && IsWithin(Violations(lib, StoreRules(c)), 106, 111)
  {
    var rules := StoreRules(c);
    FourInOrder(lib, rules[0], rules[1], rules[2], rules[3], 107, 108, 109, 111);
  }

  lemma FourInOrder(lib: Lib, a: Rule, b: Rule, c: Rule, e: Rule, pa: nat, pb: nat, pc: nat, pe: nat)
    requires Place(Complaint(lib, a)) == pa <= Place(Complaint(lib, b)) == pb
    requires pb <= Place(Complaint(lib, c)) == pc <= Place(Complaint(lib, e)) == pe
    ensures InOrder(Violations(lib, [a, b, c, e])) && IsWithin(Violations(lib, [a, b, c, e]), pa, pe)
  {
    ComplaintsOfFour(lib, a, b, c, e);
    FiveInOrder(Complaints(lib, a), Complaints(lib, b), Complaints(lib, c), Complaints(lib, e), [],
                pa, pa, pb, pc, pe, pe);
    var all := Complaints(lib, a) + Complaints(lib, b) + Complaints(lib, c) + Complaints(lib, e);
    assert all + [] == all;
  }

  /** What does not parse comes first, in the order of the fields; then the rules' complaints, in theirs. */
  lemma ProblemsComeInOrder(env: Env, d: ServiceDefaults, lib: Lib)
    ensures InOrder(Problems(env, d, lib))
  {
    var c := Parsed(env, d, lib);
    ParseFailuresInOrder(env, d, lib);
    ViolationsInOrder(lib, c);
    OrderedAppend(ParseFailures(env, d, lib), Violations(lib, Rules(c)), 0, 100, 200);
  }

  lemma IdentityInOrder(lib: Lib, c: Config)
    ensures InOrder(Violations(lib, IdentityRules(c))) && IsWithin(Violations(lib, IdentityRules(c)), 100, 102)
  {
    var rules := IdentityRules(c);
    ThreeInOrder(lib, rules[0], rules[1], rules[2], 100, 102);
  }

  lemma ServerInOrder(lib: Lib, c: Config)
    ensures InOrder(Violations(lib, ServerRules(c))) && IsWithin(Violations(lib, ServerRules(c)), 102, 105)
  {
    var rules := ServerRules(c);
    ThreeInOrder(lib, rules[0], rules[1], rules[2], 102, 105);
  }

  lemma HealthInOrder(lib: Lib, c: Config)
    ensures InOrder(Violations(lib, HealthRules(c))) && IsWithin(Violations(lib, HealthRules(c)), 111, 200)
  {
    var rules := HealthRules(c);
    ThreeInOrder(lib, rules[0], rules[1], rules[2], 111, 200);
  }

  lemma BrokersInOrder(lib: Lib, brokers: seq<string>)
    ensures InOrder(Violations(lib, BrokersRules(brokers)))
    ensures IsWithin(Violations(lib, BrokersRules(brokers)), 105, 106)
  {
    BrokersComplaints(lib, brokers);
    BadAddressesInOrder(lib, brokers);
  }

  lemma ViolationsInOrder(lib: Lib, c: Config)
    ensures InOrder(Violations(lib, Rules(c))) && IsWithin(Violations(lib, Rules(c)), 100, 200)
  {
    RulesInGroups(lib, c);
    IdentityInOrder(lib, c);
    ServerInOrder(lib, c);
    BrokersInOrder(lib, c.kafkaBrokers);
    StoresInOrder(lib, c);
    HealthInOrder(lib, c);
    FiveInOrder(
      Violations(lib, IdentityRules(c)), Violations(lib, ServerRules(c)), Violations(lib, BrokersRules(c.kafkaBrokers)),
      Violations(lib, StoreRules(c)), Violations(lib, HealthRules(c)), 100, 102, 105, 106, 111, 200);
  }

  lemma {:induction false} ViolationsAreExact(lib: Lib, rules: seq<Rule>, p: Problem)
    ensures p in Violations(lib, rules) <==> exists r :: r in rules && !Holds(lib, r) && Complaint(lib, r) == p
  {
    if rules != [] {
      var n := |rules| - 1;
      ViolationsAreExact(lib, rules[..n], p);
      assert rules == rules[..n] + [rules[n]];
    }
  }

  lemma {:induction false} NoViolationsMeansAllHold(lib: Lib, rules: seq<Rule>)
    ensures Violations(lib, rules) == [] <==> forall r | r in rules :: Holds(lib, r)
  {
    if rules != [] {
      var n := |rules| - 1;
      NoViolationsMeansAllHold(lib, rules[..n]);
      assert rules == rules[..n] + [rules[n]];
      assert forall r :: r in rules <==> r in rules[..n] || r == rules[n];
    }
  }

  predicate SetAndUnparsable(env: Env, name: Setting, parse: string -> Option<int>) {
    IsSet(env, name) && parse(env[name]).None?
  }

  /** Every variable that is set parses. */
  predicate Parses(env: Env, lib: Lib) {
    && !SetAndUnparsable(env, HttpPortVar, lib.atoi)
    && !SetAndUnparsable(env, ShutdownGracePeriodVar, lib.parseDuration)
    && !SetAndUnparsable(env, HealthCheckTimeoutVar, lib.parseDuration)
    && !SetAndUnparsable(env, HealthCacheTTLVar, lib.parseDuration)
    && (IsSet(env, KafkaBrokersVar) ==> exists part :: part in Split(env[KafkaBrokersVar], ',') && !Blank(part))
  }

  /** A host, and a port from 1 to 65535. */
  ghost predicate IsAddress(lib: Lib, text: string) {
    exists host, port ::
      && lib.splitHostPort(text) == Some((host, port)) && host != "" && port != ""
      && lib.atoi(port).Some? && 1 <= lib.atoi(port).value <= 65535
  }

  lemma AddressesAreHostPorts(lib: Lib, text: string)
    ensures IsHostPort(lib, text) <==> IsAddress(lib, text)
  {}

  /** What validation promises about a configuration, read off field by field; times are in nanoseconds. */
  ghost predicate IsUsable(c: Config, lib: Lib) {
    && !Blank(c.serviceName) && !Blank(c.version)
    && c.environment in ["local", "ci", "benchmark"] && c.logLevel in ["debug", "info", "warn", "error"]
    && 1 <= c.httpPort <= 65535
    && 0 < c.shutdownGracePeriod <= 300_000_000_000
    && c.kafkaBrokers != [] && (forall b | b in c.kafkaBrokers :: IsAddress(lib, b))
    && IsAddress(lib, c.clickHouseAddr) && IsAddress(lib, c.redisAddr)
    && !Blank(c.clickHouseDatabase) && !Blank(c.clickHouseUser)
    && 0 <= c.healthCacheTTL < c.healthCheckTimeout <= 30_000_000_000
  }

  lemma {:induction false} CleanedIsEmpty(parts: seq<string>)
    ensures Cleaned(parts) == [] <==> forall p | p in parts :: Blank(p)
  {
    if parts != [] {
      CleanedIsEmpty(parts[1..]);
      BlankTrimsAway(parts[0]);
      assert parts == [parts[0]] + parts[1..];
    }
  }

  lemma NoFailuresMeansParses(env: Env, d: ServiceDefaults, lib: Lib)
    ensures ParseFailures(env, d, lib) == [] <==> Parses(env, lib)
  {
    if IsSet(env, KafkaBrokersVar) {
      CleanedIsEmpty(Split(env[KafkaBrokersVar], ','));
    }
  }

  predicate AllHold(lib: Lib, rules: seq<Rule>) {
    forall i | 0 <= i < |rules| :: Holds(lib, rules[i])
  }

  lemma AllHoldIsEach(lib: Lib, rules: seq<Rule>)
    ensures (forall r | r in rules :: Holds(lib, r)) <==> AllHold(lib, rules)
  {
    assert forall i | 0 <= i < |rules| :: rules[i] in rules;
  }

  lemma AllHoldAppend(lib: Lib, a: seq<Rule>, b: seq<Rule>)
    ensures AllHold(lib, a + b) <==> AllHold(lib, a) && AllHold(lib, b)
  {
    assert forall i | 0 <= i < |a| :: (a + b)[i] == a[i];
    assert forall i | 0 <= i < |b| :: (a + b)[|a| + i] == b[i];
  }

  lemma IdentityMeans(c: Config, lib: Lib)
    ensures AllHold(lib, IdentityRules(c)) <==>
            !Blank(c.serviceName) && !Blank(c.version) && c.environment in ["local", "ci", "benchmark"]
  {
    var rules := IdentityRules(c);
    assert AllHold(lib, rules) <==> Holds(lib, rules[0]) && Holds(lib, rules[1]) && Holds(lib, rules[2]);
  }

  lemma ServerMeans(c: Config, lib: Lib)
    ensures AllHold(lib, ServerRules(c)) <==>
            1 <= c.httpPort <= 65535 && 0 < c.shutdownGracePeriod <= 300_000_000_000
            && c.logLevel in ["debug", "info", "warn", "error"]
  {
    var rules := ServerRules(c);
    assert AllHold(lib, rules) <==> Holds(lib, rules[0]) && Holds(lib, rules[1]) && Holds(lib, rules[2]);
  }

  lemma StoresMean(c: Config, lib: Lib)
    ensures AllHold(lib, StoreRules(c)) <==>
            && IsAddress(lib, c.clickHouseAddr) && IsAddress(lib, c.redisAddr)
            && !Blank(c.clickHouseDatabase) && !Blank(c.clickHouseUser)
  {
    AddressesAreHostPorts(lib, c.clickHouseAddr);
    AddressesAreHostPorts(lib, c.redisAddr);
    var rules := StoreRules(c);
    assert AllHold(lib, rules) <==>
           Holds(lib, rules[0]) && Holds(lib, rules[1]) && Holds(lib, rules[2]) && Holds(lib, rules[3]);
  }

  lemma HealthMeans(c: Config, lib: Lib)
    ensures AllHold(lib, HealthRules(c)) <==>
            0 <= c.healthCacheTTL < c.healthCheckTimeout <= 30_000_000_000
  {
    var rules := HealthRules(c);
    assert AllHold(lib, rules) <==> Holds(lib, rules[0]) && Holds(lib, rules[1]) && Holds(lib, rules[2]);
  }

  lemma BrokersMean(brokers: seq<string>, lib: Lib)
    ensures AllHold(lib, BrokersRules(brokers)) <==> brokers != [] && forall b | b in brokers :: IsAddress(lib, b)
  {
    forall b ensures IsHostPort(lib, b) <==> IsAddress(lib, b) { AddressesAreHostPorts(lib, b); }
    var some := [SomeEntry(KafkaBrokersVar, brokers)];
    AllHoldAppend(lib, some, BrokerRules(brokers));
    assert AllHold(lib, some) <==> Holds(lib, some[0]);
    assert forall i | 0 <= i < |brokers| :: BrokerRules(brokers)[i] == HostPort(KafkaBrokersVar, brokers[i]);
    assert forall i | 0 <= i < |brokers| :: brokers[i] in brokers;
  }

  lemma RulesMeanUsable(c: Config, lib: Lib)
    ensures AllHold(lib, Rules(c)) <==> IsUsable(c, lib)
  {
    var a, b, k, st := IdentityRules(c), ServerRules(c), BrokersRules(c.kafkaBrokers), StoreRules(c);
    AllHoldAppend(lib, a, b);
    AllHoldAppend(lib, a + b, k);
    AllHoldAppend(lib, a + b + k, st);
    AllHoldAppend(lib, a + b + k + st, HealthRules(c));
    IdentityMeans(c, lib);
    ServerMeans(c, lib);
    BrokersMean(c.kafkaBrokers, lib);
    StoresMean(c, lib);
    HealthMeans(c, lib);
  }

  /** Load accepts exactly the environments in which everything parses and the result is usable. */
  lemma AcceptsExactlyTheUsable(env: Env, d: ServiceDefaults, lib: Lib)
    ensures Problems(env, d, lib) == [] <==> Parses(env, lib) && IsUsable(Parsed(env, d, lib), lib)
  {
    NoFailuresMeansParses(env, d, lib);
    NoViolationsMeansAllHold(lib, Rules(Parsed(env, d, lib)));
    AllHoldIsEach(lib, Rules(Parsed(env, d, lib)));
    RulesMeanUsable(Parsed(env, d, lib), lib);
  }

  /** No problem is lost and none is invented. */
  lemma ProblemsAreExact(env: Env, d: ServiceDefaults, lib: Lib, p: Problem)
    ensures p in Problems(env, d, lib) <==>
            || p in ParseFailures(env, d, lib)
            || exists r :: r in Rules(Parsed(env, d, lib)) && !Holds(lib, r) && Complaint(lib, r) == p
  {
    ViolationsAreExact(lib, Rules(Parsed(env, d, lib)), p);
  }

  // ---- the broker list ----

  /** A trimmed entry without a comma is read as it is, whatever white space is around it. */
  lemma EntriesAreRead(before: string, entry: string, after: string)
    requires Blank(before) && Blank(after) && ',' !in entry && Trimmed(entry) && entry != ""
    ensures ParseList(before + entry + after) == [entry]
  {
    BlankHasNoComma(before);
    BlankHasNoComma(after);
    SplitWithout(before + entry + after, ',');
    PaddingIsTrimmed(before, entry, after);
    TrimmedTextsStay(entry);
    assert [before + entry + after][1..] == [];
    assert Cleaned([before + entry + after]) == [entry] + Cleaned([]);
  }

  lemma BlankHasNoComma(s: string)
    requires Blank(s)
    ensures ',' !in s
  {}

  lemma {:induction false} CleanedAppend(a: seq<string>, b: seq<string>)
    ensures Cleaned(a + b) == Cleaned(a) + Cleaned(b)
  {
    if a == [] {
      assert a + b == b;
    } else {
      CleanedAppend(a[1..], b);
      assert (a + b)[0] == a[0] && (a + b)[1..] == a[1..] + b;
      var first := if TrimSpace(a[0]) == "" then [] else [TrimSpace(a[0])];
      assert Cleaned(a) == first + Cleaned(a[1..]);
      assert Cleaned(a + b) == first + Cleaned(a[1..] + b);
    }
  }

  lemma {:induction false} CleanedIsClean(parts: seq<string>)
    requires forall p | p in parts :: ',' !in p
    ensures forall e | e in Cleaned(parts) :: Trimmed(e) && e != "" && ',' !in e
  {
    if parts != [] {
      assert parts[0] in parts;
      CleanedIsClean(parts[1..]);
      TrimSpaceTrims(parts[0]);
    }
  }

  lemma {:induction false} CleanStays(parts: seq<string>)
    requires forall e | e in parts :: Trimmed(e) && e != ""
    ensures Cleaned(parts) == parts
  {
    if parts != [] {
      assert parts[0] in parts;
      CleanStays(parts[1..]);
      assert [parts[0]] + parts[1..] == parts;
    }
  }

  /** Whatever parsed, printing the list with commas and parsing it again gives the same list. */
  lemma ListSurvivesPrinting(raw: string)
    ensures ParseList(raw) != [] ==> ParseList(Join(ParseList(raw), ',')) == ParseList(raw)
  {
    PartsHaveNoSeparator(raw, ',');
    CleanedIsClean(Split(raw, ','));
    if ParseList(raw) != [] {
      SplitUndoesJoin(ParseList(raw), ',');
      CleanStays(ParseList(raw));
    }
  }

  /** Two texts with a comma between them parse to the one list after the other. */
  lemma ListsConcatenate(v: string, w: string)
    ensures ParseList(v + "," + w) == ParseList(v) + ParseList(w)
  {
    SplitAnySeparator(v, w, ',');
    CleanedAppend(Split(v, ','), Split(w, ','));
  }

  lemma BlankParsesToNothing(blank: string)
    requires Blank(blank)
    ensures ParseList(blank) == []
  {
    SplitWithout(blank, ',');
    BlankTrimsAway(blank);
  }

  /** Every segment with white space of its own before and after it. */
  function Padded(segments: seq<string>, before: seq<string>, after: seq<string>): seq<string>
    requires |before| == |after| == |segments|
  {
    seq(|segments|, i requires 0 <= i < |segments| => before[i] + segments[i] + after[i])
  }

  lemma {:induction false} PaddingIsCleaned(segments: seq<string>, before: seq<string>, after: seq<string>)
    requires |before| == |after| == |segments|
    requires forall i | 0 <= i < |segments| :: Blank(before[i]) && Blank(after[i])
    ensures Cleaned(Padded(segments, before, after)) == Cleaned(segments)
  {
    if segments != [] {
      PaddingIsCleaned(segments[1..], before[1..], after[1..]);
      PaddingIsTrimmed(before[0], segments[0], after[0]);
      assert Padded(segments, before, after)[1..] == Padded(segments[1..], before[1..], after[1..]);
    }
  }

  /** Padding any of the segments of any raw value never changes the list. */
  lemma PaddingIsIgnored(raw: string, before: seq<string>, after: seq<string>)
    requires |before| == |after| == |Split(raw, ',')|
    requires forall i | 0 <= i < |before| :: Blank(before[i]) && Blank(after[i])
    ensures ParseList(Join(Padded(Split(raw, ','), before, after), ',')) == ParseList(raw)
  {
    var segments := Split(raw, ',');
    var padded := Padded(segments, before, after);
    PartsHaveNoSeparator(raw, ',');
    forall i | 0 <= i < |segments| ensures ',' !in padded[i] {
      assert segments[i] in segments;
    }
    SplitUndoesJoin(padded, ',');
    PaddingIsCleaned(segments, before, after);
  }

  /** A blank segment first, last or between two others never changes the list. */
  lemma BlankSegmentsAreIgnored(v: string, blank: string, w: string)
    requires Blank(blank)
    ensures ParseList(v + "," + blank + "," + w) == ParseList(v + "," + w)
    ensures ParseList(blank + "," + v) == ParseList(v) == ParseList(v + "," + blank)
  {
    BlankParsesToNothing(blank);
    ListsConcatenate(v, w);
    ListsConcatenate(v, blank);
    ListsConcatenate(blank, v);
    ListsConcatenate(v + "," + blank, w);
  }
}
