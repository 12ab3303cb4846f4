/**
 * The RabbitMQ option set in both of its generations: RMQCLISpec (options
 * --host, --queue, ... stored in an RMQOptions record, with a --persistent
 * flag) and the older RMQCLIOptions (options --mqhost, --mqqueue, ... stored
 * in its own mq-prefixed fields, no persistent flag).  Their postParse code
 * is the same apart from those names, so one specification with the names as
 * a parameter describes both.
 */
module RmqCli {
  import opened JavaLang
  import opened Cli
  import opened HostPort
  import opened ExchangeTypes

  /** The fields of RMQOptions, which are also the mq-prefixed fields of RMQCLIOptions. */
  datatype RmqSettings = RmqSettings(
    host: Option<string>,
    port: Option<int>,
    queue: Option<string>,
    exchange: Option<string>,
    extype: Option<string>,
    routing: Option<string>,
    bindings: seq<string>,
    user: Option<string>,
    password: Option<string>,
    vhost: Option<string>,
    amqp: Option<string>,
    persistent: bool)

  /** RMQOptions' initial values: every string null, no bindings, not persistent. */
  const UNSET := RmqSettings(None, None, None, None, None, None, [], None, None, None, None, false)

  /** RMQCLIOptions' initial values: as RMQOptions, but mqrouting is "". */
  const LEGACY_UNSET := UNSET.(routing := Some(""))

  /** The option names one generation reads, and whether it keeps a persistent flag. */
  datatype OptionNames = OptionNames(
    host: string, queue: string, exchange: string, user: string, password: string,
    vhost: string, amqp: string, extype: string, routing: string,
    oneOfMessage: string, hasPersistent: bool)

  const SPEC_NAMES := OptionNames(
    "host", "queue", "exchange", "user", "password", "vhost", "amqp", "extype", "routing",
    "One of these options must be specified: --exchange, --queue, or --ampq", true)

  const LEGACY_NAMES := OptionNames(
    "mqhost", "mqqueue", "mqexchange", "mquser", "mqpassword", "mqvhost", "amqp", "mqextype", "mqrouting",
    "One of these options must be specified: --mqexchange, --mqqueue, or --ampq", false)

  const BINDING_OPTION := "mqbinding"
  const PERSISTENT_OPTION := "persistent"
  const DEFAULT_HOST := "localhost"

  const BAD_HOST := "Bad host specifier: "
  const EMPTY_EXCHANGE := "Exchange name is empty."
  const EMPTY_USER := "User name is empty."
  const EMPTY_VHOST := "Virtual host name is empty."
  const EMPTY_AMQP := "AMQP URI is empty."
  const EMPTY_EXTYPE := "Exchange type is empty."
  const INVALID_EXTYPE := "Invalid exchange type: "

  /** Which optional parts the factory method switched on. */
  datatype Features = Features(exType: bool, routingKey: bool, bindingKey: bool)

  const PRODUCER := Features(true, true, false)
  const CONSUMER := Features(false, false, true)

  /** The options after a stage of postParse, and the errors that stage added. */
  datatype Progress = Progress(s: RmqSettings, errors: seq<string>)

  function EmptyError(value: Option<string>, message: string): seq<string>
  {
    if value == Some("") then [message] else []
  }

  /** RMQCLISpec.java lines 199-211: the host specifier, "localhost" by default. */
  function HostSpec(names: OptionNames, cl: CommandLine, parse: HostParser, s: RmqSettings): Result<Progress>
  {
    var spec :- GetStringOr(cl, names.host, Some(DEFAULT_HOST));
    if spec.None? then Fail(Crash(NULL_POINTER))
    else
      match parse(spec.value)
      case Rejected(_) => Ok(Progress(s.(host := None, port := None), [BAD_HOST + Show(s.host)]))
      case Parsed(hp) => Ok(Progress(s.(host := Some(hp.host), port := if hp.port.Some? then hp.port else s.port), []))
  }

  /** RMQCLISpec.java lines 213-225: queue, exchange name and credentials. */
  function AccountSpec(names: OptionNames, cl: CommandLine, s: RmqSettings): Result<Progress>
  {
    var queue :- GetStringOr(cl, names.queue, s.queue);
    var exchange :- GetString(cl, names.exchange);
    var user :- GetString(cl, names.user);
    var password :- GetString(cl, names.password);
    Ok(Progress(
      s.(queue := queue, exchange := exchange, user := user, password := password),
      EmptyError(exchange, EMPTY_EXCHANGE) + EmptyError(user, EMPTY_USER)))
  }

  /** RMQCLISpec.java lines 227-236: virtual host and AMQP URI. */
  function UriSpec(names: OptionNames, cl: CommandLine, s: RmqSettings): Result<Progress>
  {
    var vhost :- GetString(cl, names.vhost);
    var amqp :- GetString(cl, names.amqp);
    Ok(Progress(s.(vhost := vhost, amqp := amqp), EmptyError(vhost, EMPTY_VHOST) + EmptyError(amqp, EMPTY_AMQP)))
  }

  /** RMQCLISpec.java lines 240-244: one of exchange, queue and AMQP URI is needed; then the persistent flag. */
  function ChoiceSpec(names: OptionNames, cl: CommandLine, s: RmqSettings): Result<Progress>
  {
    Ok(Progress(
      if names.hasPersistent then s.(persistent := GetBoolean(cl, PERSISTENT_OPTION)) else s,
      if s.exchange.None? && s.queue.None? && s.amqp.None? then [names.oneOfMessage] else []))
  }

  /**
   * RMQCLISpec.java lines 246-258: the exchange type, trimmed and lower-cased, then made
   * canonical.  getTrimmedString gives null for a blank value, which the
   * toLowerCase call dereferences.
   */
  function ExTypeSpec(names: OptionNames, features: Features, cl: CommandLine, s: RmqSettings): Result<Progress>
  {
    if !features.exType then Ok(Progress(s, []))
    else
      var trimmed :- GetTrimmedStringOr(cl, names.extype, s.extype);
      if trimmed.None? then Fail(Crash(NULL_POINTER))
      else
        var param := ToLower(trimmed.value);
        if param == [] then Ok(Progress(s, [EMPTY_EXTYPE]))
        else
          var t := Canonical(param);
          Ok(Progress(s.(extype := t), if t.None? then [INVALID_EXTYPE + param] else []))
  }

  /** RMQCLISpec.java lines 260-266: the routing key and the binding keys. */
  function KeysSpec(names: OptionNames, features: Features, cl: CommandLine, s: RmqSettings): Result<RmqSettings>
  {
    var routing :- if features.routingKey then GetStringOr(cl, names.routing, s.routing) else Ok(s.routing);
    var bindings :- if features.bindingKey then GetCommaSeparatedStrings(cl, BINDING_OPTION, []) else Ok(s.bindings);
    Ok(s.(routing := routing, bindings := bindings))
  }

  /** One stage run after another: the first failure stops, the errors accumulate. */
  function Compose(f: Result<Progress>, g: Result<Progress>): Result<Progress>
  {
    if f.Fail? then Fail(f.stop)
    else if g.Fail? then Fail(g.stop)
    else Ok(Progress(g.value.s, f.value.errors + g.value.errors))
  }

  /** RMQCLISpec.java lines 199-242: where and how to connect. */
  function ConnectionSpec(names: OptionNames, cl: CommandLine, parse: HostParser, s: RmqSettings): Result<Progress>
  {
    var a := HostSpec(names, cl, parse, s);
    var b := Compose(a, if a.Ok? then AccountSpec(names, cl, a.value.s) else a);
    var c := Compose(b, if b.Ok? then UriSpec(names, cl, b.value.s) else b);
    Compose(c, if c.Ok? then ChoiceSpec(names, cl, c.value.s) else c)
  }

  /** RMQCLISpec.java lines 246-266: the parts the factory method enabled. */
  function FeaturesSpec(names: OptionNames, features: Features, cl: CommandLine, s: RmqSettings): Result<Progress>
  {
    var d :- ExTypeSpec(names, features, cl, s);
    var e :- KeysSpec(names, features, cl, d.s);
    Ok(Progress(e, d.errors))
  }

  /** postParse: the options it leaves and the errors it adds, in order; or how it stops. */
  function PostParseSpec(names: OptionNames, features: Features, cl: CommandLine, parse: HostParser, s: RmqSettings): Result<Progress>
  {
    var f := ConnectionSpec(names, cl, parse, s);
    Compose(f, if f.Ok? then FeaturesSpec(names, features, cl, f.value.s) else f)
  }

  // ---------------------------------------------------------------------------
  // What postParse promises, across all of its stages.

  /** The connection stages fill the connection fields and leave the feature fields alone. */
  lemma ConnectionSettings(names: OptionNames, cl: CommandLine, parse: HostParser, s: RmqSettings)
    requires ConnectionSpec(names, cl, parse, s).Ok?
    ensures var t := ConnectionSpec(names, cl, parse, s).value.s;
      && GetStringOr(cl, names.queue, s.queue) == Ok(t.queue)
      && GetString(cl, names.exchange) == Ok(t.exchange)
      && GetString(cl, names.user) == Ok(t.user)
      && GetString(cl, names.password) == Ok(t.password)
      && GetString(cl, names.vhost) == Ok(t.vhost)
      && GetString(cl, names.amqp) == Ok(t.amqp)
      && t.persistent == (if names.hasPersistent then GetBoolean(cl, PERSISTENT_OPTION) else s.persistent)
      && t.extype == s.extype && t.routing == s.routing && t.bindings == s.bindings
  {
    var a := HostSpec(names, cl, parse, s);
    var b := AccountSpec(names, cl, a.value.s);
    var u := UriSpec(names, cl, b.value.s);
  }

  /** The enabled feature stages fill their fields and leave every other field alone. */
  lemma FeaturesSettings(names: OptionNames, features: Features, cl: CommandLine, s: RmqSettings)
    requires FeaturesSpec(names, features, cl, s).Ok?
    ensures var t := FeaturesSpec(names, features, cl, s).value.s;
      && t.(extype := s.extype, routing := s.routing, bindings := s.bindings) == s
      && (features.routingKey ==> GetStringOr(cl, names.routing, s.routing) == Ok(t.routing))
      && (!features.routingKey ==> t.routing == s.routing)
      && (features.bindingKey ==> GetCommaSeparatedStrings(cl, BINDING_OPTION, []) == Ok(t.bindings))
      && (!features.bindingKey ==> t.bindings == s.bindings)
      && (!features.exType ==> t.extype == s.extype)
  {
    var d := ExTypeSpec(names, features, cl, s);
  }

  /**
   * After a successful postParse every option-backed field holds what its
   * getter read, and a field whose part was not enabled keeps its old value.
   */
  lemma SettingsAfterPostParse(names: OptionNames, features: Features, cl: CommandLine, parse: HostParser, s: RmqSettings)
    requires PostParseSpec(names, features, cl, parse, s).Ok?
    ensures var t := PostParseSpec(names, features, cl, parse, s).value.s;
      && GetStringOr(cl, names.queue, s.queue) == Ok(t.queue)
      && GetString(cl, names.exchange) == Ok(t.exchange)
      && GetString(cl, names.user) == Ok(t.user)
      && GetString(cl, names.password) == Ok(t.password)
      && GetString(cl, names.vhost) == Ok(t.vhost)
      && GetString(cl, names.amqp) == Ok(t.amqp)
      && t.persistent == (if names.hasPersistent then GetBoolean(cl, PERSISTENT_OPTION) else s.persistent)
      && (features.routingKey ==> GetStringOr(cl, names.routing, s.routing) == Ok(t.routing))
      && (!features.routingKey ==> t.routing == s.routing)
      && (features.bindingKey ==> GetCommaSeparatedStrings(cl, BINDING_OPTION, []) == Ok(t.bindings))
      && (!features.bindingKey ==> t.bindings == s.bindings)
      && (!features.exType ==> t.extype == s.extype)
  {
    var c := ConnectionSpec(names, cl, parse, s);
    ConnectionSettings(names, cl, parse, s);
    FeaturesSettings(names, features, cl, c.value.s);
  }

  /** The exchange type value as postParse compares it: trimmed, then lower-cased. */
  ghost function ExTypeParam(names: OptionNames, cl: CommandLine, s: RmqSettings): string
  {
    match GetTrimmedStringOr(cl, names.extype, s.extype)
    case Ok(Some(v)) => ToLower(v)
    case _ => []
  }

  /** The connection stages' errors, read off the values they stored. */
  lemma ConnectionErrors(names: OptionNames, cl: CommandLine, parse: HostParser, s: RmqSettings)
    requires ConnectionSpec(names, cl, parse, s).Ok?
    ensures var p := ConnectionSpec(names, cl, parse, s).value; var t := p.s;
      p.errors ==
        (if t.host.None? then [BAD_HOST + Show(s.host)] else [])
        + EmptyError(t.exchange, EMPTY_EXCHANGE) + EmptyError(t.user, EMPTY_USER)
        + EmptyError(t.vhost, EMPTY_VHOST) + EmptyError(t.amqp, EMPTY_AMQP)
        + (if t.exchange.None? && t.queue.None? && t.amqp.None? then [names.oneOfMessage] else [])
  {
    var a := HostSpec(names, cl, parse, s);
    var b := AccountSpec(names, cl, a.value.s);
    var u := UriSpec(names, cl, b.value.s);
    var e := EmptyError(u.value.s.exchange, EMPTY_EXCHANGE) + EmptyError(u.value.s.user, EMPTY_USER);
    var v := EmptyError(u.value.s.vhost, EMPTY_VHOST) + EmptyError(u.value.s.amqp, EMPTY_AMQP);
    assert a.value.errors + e + v == a.value.errors + EmptyError(u.value.s.exchange, EMPTY_EXCHANGE)
      + EmptyError(u.value.s.user, EMPTY_USER) + EmptyError(u.value.s.vhost, EMPTY_VHOST) + EmptyError(u.value.s.amqp, EMPTY_AMQP);
  }

  /**
   * The exchange type stage: a non-blank value is required; the stored type
   * is the one of the four that the lowered value equals ignoring case, or
   * null, and then the one error added names the value.  Lowered text
   * without the characters that fold onto ASCII is stored as it is when it
   * names one of the four.
   */
  lemma FeaturesExType(names: OptionNames, features: Features, cl: CommandLine, s: RmqSettings)
    requires FeaturesSpec(names, features, cl, s).Ok?
    ensures var p := FeaturesSpec(names, features, cl, s).value; var t := p.s; var param := ExTypeParam(names, cl, s);
      && p.errors == (if features.exType && t.extype.None? then [INVALID_EXTYPE + param] else [])
      && (features.exType ==>
        && GetTrimmedStringOr(cl, names.extype, s.extype).Ok?
        && GetTrimmedStringOr(cl, names.extype, s.extype).value.Some?
        && param != []
        && (t.extype.Some? ==> t.extype.value in EXCHANGE_TYPES && EqualsIgnoreCase(param, t.extype.value))
        && (t.extype.None? <==> forall ty :: ty in EXCHANGE_TYPES ==> !EqualsIgnoreCase(param, ty))
        && ((forall k :: 0 <= k < |param| ==> !FoldsToAscii(param[k])) ==>
              t.extype == if param in EXCHANGE_TYPES then Some(param) else None))
  {
    if features.exType {
      var v := GetTrimmedStringOr(cl, names.extype, s.extype).value.value;
      CanonicalMeaning(ToLower(v));
      if forall k :: 0 <= k < |ToLower(v)| ==> !FoldsToAscii(ToLower(v)[k]) {
        CanonicalOfLower(ToLower(v));
      }
    }
  }

  /** The errors postParse adds, in order, each read off the value it stored. */
  lemma ErrorsAfterPostParse(names: OptionNames, features: Features, cl: CommandLine, parse: HostParser, s: RmqSettings)
    requires PostParseSpec(names, features, cl, parse, s).Ok?
    ensures var p := PostParseSpec(names, features, cl, parse, s).value; var t := p.s;
      p.errors ==
        (if t.host.None? then [BAD_HOST + Show(s.host)] else [])
        + EmptyError(t.exchange, EMPTY_EXCHANGE) + EmptyError(t.user, EMPTY_USER)
        + EmptyError(t.vhost, EMPTY_VHOST) + EmptyError(t.amqp, EMPTY_AMQP)
        + (if t.exchange.None? && t.queue.None? && t.amqp.None? then [names.oneOfMessage] else [])
        + (if features.exType && t.extype.None? then [INVALID_EXTYPE + ExTypeParam(names, cl, s)] else [])
  {
    var c := ConnectionSpec(names, cl, parse, s);
    ConnectionErrors(names, cl, parse, s);
    ConnectionSettings(names, cl, parse, s);
    FeaturesSettings(names, features, cl, c.value.s);
    FeaturesExType(names, features, cl, c.value.s);
    assert ExTypeParam(names, cl, c.value.s) == ExTypeParam(names, cl, s);
  }

  /**
   * With --extype enabled, a successful postParse stores the one of the four
   * types that the lowered value equals ignoring case, or null; plain
   * lower-cased text is stored as it is when it names one of the four.
   */
  lemma ExTypeAfterPostParse(names: OptionNames, features: Features, cl: CommandLine, parse: HostParser, s: RmqSettings)
    requires PostParseSpec(names, features, cl, parse, s).Ok? && features.exType
    ensures var t := PostParseSpec(names, features, cl, parse, s).value.s; var param := ExTypeParam(names, cl, s);
      && GetTrimmedStringOr(cl, names.extype, s.extype).Ok?
      && GetTrimmedStringOr(cl, names.extype, s.extype).value.Some?
      && (t.extype.Some? ==> t.extype.value in EXCHANGE_TYPES && EqualsIgnoreCase(param, t.extype.value))
      && (t.extype.None? <==> forall ty :: ty in EXCHANGE_TYPES ==> !EqualsIgnoreCase(param, ty))
      && ((forall k :: 0 <= k < |param| ==> !FoldsToAscii(param[k])) ==>
            t.extype == if param in EXCHANGE_TYPES then Some(param) else None)
  {
    var c := ConnectionSpec(names, cl, parse, s);
    ConnectionSettings(names, cl, parse, s);
    FeaturesExType(names, features, cl, c.value.s);
    assert ExTypeParam(names, cl, c.value.s) == ExTypeParam(names, cl, s);
  }

  /**
   * A blank --extype reaches toLowerCase as null, so postParse throws instead
   * of adding "Exchange type is empty."; that message is never added.
   */
  lemma BlankExType(names: OptionNames, features: Features, cl: CommandLine, parse: HostParser, s: RmqSettings)
    requires features.exType && ConnectionSpec(names, cl, parse, s).Ok?
    requires HasOption(cl, names.extype) && cl.options[names.extype].Text? && Trim(cl.options[names.extype].text) == []
    ensures PostParseSpec(names, features, cl, parse, s) == Fail(Crash(NULL_POINTER))
  {
  }

  lemma ExTypeNeverEmptyError(names: OptionNames, features: Features, cl: CommandLine, s: RmqSettings)
    requires FeaturesSpec(names, features, cl, s).Ok?
    ensures EMPTY_EXTYPE !in FeaturesSpec(names, features, cl, s).value.errors
  {
    FeaturesExType(names, features, cl, s);
    assert (INVALID_EXTYPE + ExTypeParam(names, cl, s))[0] != EMPTY_EXTYPE[0];
  }

  /**
   * The host specifier ("localhost" when absent) is parsed; its host and any
   * port it carries are stored, and a rejected one leaves host and port null.
   * Later stages keep both.
   */
  lemma HostAfterPostParse(names: OptionNames, features: Features, cl: CommandLine, parse: HostParser, s: RmqSettings)
    requires PostParseSpec(names, features, cl, parse, s).Ok?
    ensures var t := PostParseSpec(names, features, cl, parse, s).value.s;
      var spec := GetStringOr(cl, names.host, Some(DEFAULT_HOST));
      && spec.Ok? && spec.value.Some?
      && (!HasOption(cl, names.host) ==> spec.value.value == DEFAULT_HOST)
      && match parse(spec.value.value)
        case Rejected(_) => t.host.None? && t.port.None?
        case Parsed(hp) => t.host == Some(hp.host) && t.port == (if hp.port.Some? then hp.port else s.port)
  {
    var a := HostSpec(names, cl, parse, s);
    var b := AccountSpec(names, cl, a.value.s);
    var u := UriSpec(names, cl, b.value.s);
    var c := ConnectionSpec(names, cl, parse, s);
    FeaturesSettings(names, features, cl, c.value.s);
  }

  // ---------------------------------------------------------------------------
  // The option record and the stages of postParse, which update it in place.

  class RMQOptions {
    var host: Option<string>
    var port: Option<int>
    var queue: Option<string>
    var exchange: Option<string>
    var extype: Option<string>
    var routing: Option<string>
    var bindings: seq<string>
    var user: Option<string>
    var password: Option<string>
    var vhost: Option<string>
    var amqp: Option<string>
    var persistent: bool

    function Current(): RmqSettings
      reads this
    {
      RmqSettings(host, port, queue, exchange, extype, routing, bindings, user, password, vhost, amqp, persistent)
    }

    constructor(initial: RmqSettings)
      ensures Current() == initial
    {
      host, port, queue, exchange := initial.host, initial.port, initial.queue, initial.exchange;
      extype, routing, bindings := initial.extype, initial.routing, initial.bindings;
      user, password, vhost, amqp := initial.user, initial.password, initial.vhost, initial.amqp;
      persistent := initial.persistent;
    }
  }

  /** A stage's effect: the option record and the driver's errors follow the stage's specification. */
  ghost predicate Followed(spec: Result<Progress>, r: Result<()>, now: RmqSettings, errors: seq<string>, before: seq<string>)
  {
    && r.Ok? == spec.Ok?
    && (spec.Fail? ==> r.stop == spec.stop)
    && (spec.Ok? ==> now == spec.value.s && errors == before + spec.value.errors)
  }

  method HostPhase(o: RMQOptions, driver: CLIDriver, names: OptionNames, parse: HostParser) returns (r: Result<()>)
    modifies o, driver
    ensures Followed(HostSpec(names, driver.cmd, parse, old(o.Current())), r, o.Current(), driver.errors, old(driver.errors))
    ensures driver.cmd == old(driver.cmd)
  {
    var spec :- GetStringOr(driver.cmd, names.host, Some(DEFAULT_HOST));
    if spec.None? {
      return Fail(Crash(NULL_POINTER));
    }
    match parse(spec.value) {
      case Rejected(_) =>
        driver.AddError(BAD_HOST + Show(o.host));
        o.host := None;
        o.port := None;
      case Parsed(hp) =>
        o.host := Some(hp.host);
        if hp.port.Some? {
          o.port := hp.port;
        }
    }
    return Ok(());
  }

  /** Add message when value is the empty string. */
  method CheckEmpty(driver: CLIDriver, value: Option<string>, message: string)
    modifies driver
    ensures driver.errors == old(driver.errors) + EmptyError(value, message)
    ensures driver.cmd == old(driver.cmd)
  {
    if value.Some? && value.value == [] {
      driver.AddError(message);
    }
  }

  method AccountPhase(o: RMQOptions, driver: CLIDriver, names: OptionNames) returns (r: Result<()>)
    modifies o, driver
    ensures Followed(AccountSpec(names, driver.cmd, old(o.Current())), r, o.Current(), driver.errors, old(driver.errors))
    ensures driver.cmd == old(driver.cmd)
  {
    o.queue :- GetStringOr(driver.cmd, names.queue, o.queue);
    o.exchange :- GetString(driver.cmd, names.exchange);
    CheckEmpty(driver, o.exchange, EMPTY_EXCHANGE);
    o.user :- GetString(driver.cmd, names.user);
    CheckEmpty(driver, o.user, EMPTY_USER);
    o.password :- GetString(driver.cmd, names.password);
    return Ok(());
  }

  method UriPhase(o: RMQOptions, driver: CLIDriver, names: OptionNames) returns (r: Result<()>)
    modifies o, driver
    ensures Followed(UriSpec(names, driver.cmd, old(o.Current())), r, o.Current(), driver.errors, old(driver.errors))
    ensures driver.cmd == old(driver.cmd)
  {
    o.vhost :- GetString(driver.cmd, names.vhost);
    CheckEmpty(driver, o.vhost, EMPTY_VHOST);
    o.amqp :- GetString(driver.cmd, names.amqp);
    CheckEmpty(driver, o.amqp, EMPTY_AMQP);
    return Ok(());
  }

  method ChoicePhase(o: RMQOptions, driver: CLIDriver, names: OptionNames) returns (r: Result<()>)
    modifies o, driver
    ensures Followed(ChoiceSpec(names, driver.cmd, old(o.Current())), r, o.Current(), driver.errors, old(driver.errors))
    ensures driver.cmd == old(driver.cmd)
  {
    if o.exchange.None? && o.queue.None? && o.amqp.None? {
      driver.AddError(names.oneOfMessage);
    }
    if names.hasPersistent {
      o.persistent := GetBoolean(driver.cmd, PERSISTENT_OPTION);
    }
    return Ok(());
  }

  method ExTypePhase(o: RMQOptions, driver: CLIDriver, names: OptionNames, features: Features) returns (r: Result<()>)
    modifies o, driver
    ensures Followed(ExTypeSpec(names, features, driver.cmd, old(o.Current())), r, o.Current(), driver.errors, old(driver.errors))
    ensures driver.cmd == old(driver.cmd)
  {
    if features.exType {
      var trimmed :- GetTrimmedStringOr(driver.cmd, names.extype, o.extype);
      if trimmed.None? {
        return Fail(Crash(NULL_POINTER));
      }
      var param := ToLower(trimmed.value);
      if param == [] {
        // getTrimmedString never returns "", so RMQCLISpec.java lines 249-250 cannot run.
        assert false;
      } else {
        o.extype := CheckExchangeType(param);
        if o.extype.None? {
          driver.AddError(INVALID_EXTYPE + param);
        }
      }
    }
    return Ok(());
  }

  method KeysPhase(o: RMQOptions, driver: CLIDriver, names: OptionNames, features: Features) returns (r: Result<()>)
    modifies o
    ensures var spec := KeysSpec(names, features, driver.cmd, old(o.Current()));
      && r.Ok? == spec.Ok?
      && (spec.Fail? ==> r.stop == spec.stop)
      && (spec.Ok? ==> o.Current() == spec.value)
  {
    if features.routingKey {
      o.routing :- GetStringOr(driver.cmd, names.routing, o.routing);
    }
    if features.bindingKey {
      o.bindings :- GetCommaSeparatedStrings(driver.cmd, BINDING_OPTION, []);
    }
    return Ok(());
  }

  /** Running a stage after one that succeeded follows the composed specification. */
  lemma FollowedCompose(f: Result<Progress>, g: Result<Progress>, r: Result<()>, s1: RmqSettings, s2: RmqSettings,
                        e0: seq<string>, e1: seq<string>, e2: seq<string>)
    requires f.Ok? && Followed(f, Ok(()), s1, e1, e0)
    requires Followed(g, r, s2, e2, e1)
    ensures Followed(Compose(f, g), r, s2, e2, e0)
  {
  }

  method ConnectionPhase(o: RMQOptions, driver: CLIDriver, names: OptionNames, parse: HostParser) returns (r: Result<()>)
    modifies o, driver
    ensures Followed(ConnectionSpec(names, old(driver.cmd), parse, old(o.Current())), r, o.Current(), driver.errors, old(driver.errors))
    ensures driver.cmd == old(driver.cmd)
  {
    ghost var e0 := driver.errors;
    ghost var a := HostSpec(names, driver.cmd, parse, o.Current());
    r := HostPhase(o, driver, names, parse);
    if r.Fail? {
      return;
    }
    ghost var s1, e1 := o.Current(), driver.errors;
    ghost var b := AccountSpec(names, driver.cmd, s1);
    r := AccountPhase(o, driver, names);
    FollowedCompose(a, b, r, s1, o.Current(), e0, e1, driver.errors);
    if r.Fail? {
      return;
    }
    ghost var ab, s2, e2 := Compose(a, b), o.Current(), driver.errors;
    ghost var c := UriSpec(names, driver.cmd, s2);
    r := UriPhase(o, driver, names);
    FollowedCompose(ab, c, r, s2, o.Current(), e0, e2, driver.errors);
    if r.Fail? {
      return;
    }
    ghost var abc, s3, e3 := Compose(ab, c), o.Current(), driver.errors;
    ghost var d := ChoiceSpec(names, driver.cmd, s3);
    r := ChoicePhase(o, driver, names);
    FollowedCompose(abc, d, r, s3, o.Current(), e0, e3, driver.errors);
  }

  method FeaturesPhase(o: RMQOptions, driver: CLIDriver, names: OptionNames, features: Features) returns (r: Result<()>)
    modifies o, driver
    ensures Followed(FeaturesSpec(names, features, old(driver.cmd), old(o.Current())), r, o.Current(), driver.errors, old(driver.errors))
    ensures driver.cmd == old(driver.cmd)
  {
    r := ExTypePhase(o, driver, names, features);
    if r.Fail? {
      return;
    }
    r := KeysPhase(o, driver, names, features);
  }

  /** The whole postParse over a record, for either generation's names. */
  method RunPostParse(o: RMQOptions, driver: CLIDriver, names: OptionNames, features: Features, parse: HostParser)
    returns (r: Result<()>)
    modifies o, driver
    ensures Followed(PostParseSpec(names, features, old(driver.cmd), parse, old(o.Current())), r, o.Current(), driver.errors, old(driver.errors))
    ensures driver.cmd == old(driver.cmd)
  {
    ghost var e0 := driver.errors;
    ghost var f := ConnectionSpec(names, driver.cmd, parse, o.Current());
    r := ConnectionPhase(o, driver, names, parse);
    if r.Fail? {
      return;
    }
    ghost var s1, e1 := o.Current(), driver.errors;
    ghost var g := FeaturesSpec(names, features, driver.cmd, s1);
    r := FeaturesPhase(o, driver, names, features);
    FollowedCompose(f, g, r, s1, o.Current(), e0, e1, driver.errors);
  }

  // ---------------------------------------------------------------------------
  // The two generations.

  class RMQCLISpec {
    const opts: RMQOptions
    var enableExType: bool
    var enableRoutingKey: bool
    var enableBindingKey: bool
    var enablePersistentFlag: bool

    function Enabled(): Features
      reads this
    {
      Features(enableExType, enableRoutingKey, enableBindingKey)
    }

    constructor()
      ensures fresh(opts) && opts.Current() == UNSET
      ensures !enableExType && !enableRoutingKey && !enableBindingKey && !enablePersistentFlag
    {
      opts := new RMQOptions(UNSET);
      enableExType, enableRoutingKey, enableBindingKey, enablePersistentFlag := false, false, false, false;
    }

    /** createCLISpecForProducer: exchange type (with its default), routing key and persistent flag. */
    static method CreateForProducer(defExType: Option<string>) returns (spec: RMQCLISpec)
      ensures fresh(spec) && fresh(spec.opts)
      ensures spec.Enabled() == PRODUCER && spec.enablePersistentFlag
      ensures spec.opts.Current() == UNSET.(extype := defExType)
    {
      spec := new RMQCLISpec();
      spec.enableExType := true;
      spec.opts.extype := defExType;
      spec.enableRoutingKey := true;
      spec.enablePersistentFlag := true;
    }

    /** createCLISpecForConsumer: only the binding keys. */
    static method CreateForConsumer() returns (spec: RMQCLISpec)
      ensures fresh(spec) && fresh(spec.opts)
      ensures spec.Enabled() == CONSUMER && !spec.enablePersistentFlag
      ensures spec.opts.Current() == UNSET
    {
      spec := new RMQCLISpec();
      spec.enableBindingKey := true;
    }

    method PostParse(driver: CLIDriver, parse: HostParser) returns (r: Result<()>)
      modifies opts, driver
      ensures Followed(PostParseSpec(SPEC_NAMES, Enabled(), old(driver.cmd), parse, old(opts.Current())), r, opts.Current(), driver.errors, old(driver.errors))
    {
      r := RunPostParse(opts, driver, SPEC_NAMES, Enabled(), parse);
    }
  }

  /** RMQCLIOptions keeps its mq-prefixed fields in `fields`. */
  class RMQCLIOptions {
    const fields: RMQOptions
    var enableExType: bool
    var enableRoutingKey: bool
    var enableBindingKey: bool

    function Enabled(): Features
      reads this
    {
      Features(enableExType, enableRoutingKey, enableBindingKey)
    }

    constructor()
      ensures fresh(fields) && fields.Current() == LEGACY_UNSET
      ensures Enabled() == Features(false, false, false)
    {
      fields := new RMQOptions(LEGACY_UNSET);
      enableExType, enableRoutingKey, enableBindingKey := false, false, false;
    }

    /** createForProducer: exchange type (with its default) and routing key. */
    static method CreateForProducer(defExType: Option<string>) returns (spec: RMQCLIOptions)
      ensures fresh(spec) && fresh(spec.fields)
      ensures spec.Enabled() == PRODUCER
      ensures spec.fields.Current() == LEGACY_UNSET.(extype := defExType)
    {
      spec := new RMQCLIOptions();
      spec.enableExType := true;
      spec.fields.extype := defExType;
      spec.enableRoutingKey := true;
    }

    /** createForConsumer: only the binding keys. */
    static method CreateForConsumer() returns (spec: RMQCLIOptions)
      ensures fresh(spec) && fresh(spec.fields)
      ensures spec.Enabled() == CONSUMER
      ensures spec.fields.Current() == LEGACY_UNSET
    {
      spec := new RMQCLIOptions();
      spec.enableBindingKey := true;
    }

    method PostParse(driver: CLIDriver, parse: HostParser) returns (r: Result<()>)
      modifies fields, driver
      ensures Followed(PostParseSpec(LEGACY_NAMES, Enabled(), old(driver.cmd), parse, old(fields.Current())), r, fields.Current(), driver.errors, old(driver.errors))
    {
      r := RunPostParse(fields, driver, LEGACY_NAMES, Enabled(), parse);
    }
  }
}
