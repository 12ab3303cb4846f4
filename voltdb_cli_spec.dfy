/**
 * The VoltDB connection option set of the newer generation (VoltDBCLISpec):
 * a comma-separated server list, each entry "host[:port]", completed with a
 * default port, plus user and password.
 */
module VoltDbCliSpec {
  import opened JavaLang
  import opened Cli
  import opened HostPort

  /** Client.VOLTDB_SERVER_PORT, VoltDB's client port. */
  const VOLTDB_SERVER_PORT := 21212

  const DEFAULT_SERVER := "localhost"

  /** The error for a rejected server entry: the entry and the exception's message. */
  function BadServer(spec: string, reason: string): string
  {
    "Bad host[:port]: " + spec + ": " + reason
  }

  /** One server entry's slot in the array, and the error it added, if any. */
  datatype Slot = Slot(server: Option<HostAndPort>, errors: seq<string>)

  /**
   * VoltDBCLISpec.java lines 84-92 for one entry.  The slot holds fromString's value as soon as
   * it is parsed; a port-less one is replaced by fromParts with the default
   * port, truncated by intValue().  A rejection leaves the slot as it was.
   */
  function SlotSpec(parse: HostParser, spec: string, defaultPort: Option<int>): Result<Slot>
  {
    match parse(spec)
    case Rejected(reason) => Ok(Slot(None, [BadServer(spec, reason)]))
    case Parsed(hp) =>
      if hp.port.Some? then Ok(Slot(Some(hp), []))
      else if defaultPort.None? then Fail(Crash(NULL_POINTER))
      else
        match FromParts(parse, hp.host, Wrap32(defaultPort.value))
        case Rejected(reason) => Ok(Slot(Some(hp), [BadServer(spec, reason)]))
        case Parsed(full) => Ok(Slot(Some(full), []))
  }

  datatype Servers = Servers(slots: seq<Option<HostAndPort>>, errors: seq<string>)

  /** VoltDBCLISpec.java lines 83-93: the entries in order; a thrown NullPointerException ends the loop. */
  function ServersSpec(parse: HostParser, specs: seq<string>, defaultPort: Option<int>): Result<Servers>
    decreases |specs|
  {
    if specs == [] then Ok(Servers([], []))
    else
      var before :- ServersSpec(parse, specs[..|specs| - 1], defaultPort);
      var last :- SlotSpec(parse, specs[|specs| - 1], defaultPort);
      Ok(Servers(before.slots + [last.server], before.errors + last.errors))
  }

  datatype Settings = Settings(servers: seq<Option<HostAndPort>>, user: Option<string>, password: Option<string>)

  /** VoltDBCLISpec.java lines 80-81: the server entries and the default port. */
  function InputsSpec(cl: CommandLine): Result<(seq<string>, Option<int>)>
  {
    var specs :- GetCommaSeparatedStrings(cl, "servers", [DEFAULT_SERVER]);
    var port :- GetNumberOr(cl, "port", Some(VOLTDB_SERVER_PORT));
    Ok((specs, port))
  }

  /** postParse: the settings it stores and the errors it adds; or how it stops. */
  function PostParseSpec(cl: CommandLine, parse: HostParser): Result<(Settings, seq<string>)>
  {
    var inputs :- InputsSpec(cl);
    var servers :- ServersSpec(parse, inputs.0, inputs.1);
    var user :- GetString(cl, "user");
    var password :- GetString(cl, "password");
    Ok((Settings(servers.slots, user, password), servers.errors))
  }

  // ---------------------------------------------------------------------------
  // What postParse promises.

  /** One slot per server entry, each the entry's own slot, and the entries' errors in order. */
  lemma {:induction false} ServersBySlot(parse: HostParser, specs: seq<string>, defaultPort: Option<int>)
    requires ServersSpec(parse, specs, defaultPort).Ok?
    ensures var r := ServersSpec(parse, specs, defaultPort).value;
      && |r.slots| == |specs|
      && forall i :: 0 <= i < |specs| ==>
        SlotSpec(parse, specs[i], defaultPort).Ok? && r.slots[i] == SlotSpec(parse, specs[i], defaultPort).value.server
    decreases |specs|
  {
    if specs != [] {
      var init := specs[..|specs| - 1];
      ServersBySlot(parse, init, defaultPort);
      forall i | 0 <= i < |init| ensures init[i] == specs[i] { }
    }
  }

  /** The loop stops with a NullPointerException exactly when some entry needs the default port and it is null. */
  lemma {:induction false} ServersCrash(parse: HostParser, specs: seq<string>, defaultPort: Option<int>)
    ensures ServersSpec(parse, specs, defaultPort).Fail? <==>
      defaultPort.None? && exists i :: 0 <= i < |specs| && parse(specs[i]).Parsed? && parse(specs[i]).hp.port.None?
    ensures ServersSpec(parse, specs, defaultPort).Fail? ==> ServersSpec(parse, specs, defaultPort).stop == Crash(NULL_POINTER)
    decreases |specs|
  {
    if specs != [] {
      var init := specs[..|specs| - 1];
      ServersCrash(parse, init, defaultPort);
      if defaultPort.None? && exists i :: 0 <= i < |specs| && parse(specs[i]).Parsed? && parse(specs[i]).hp.port.None? {
        var i :| 0 <= i < |specs| && parse(specs[i]).Parsed? && parse(specs[i]).hp.port.None?;
        if i < |init| {
          assert init[i] == specs[i];
        }
      }
      if ServersSpec(parse, init, defaultPort).Fail? {
        var i :| 0 <= i < |init| && parse(init[i]).Parsed? && parse(init[i]).hp.port.None?;
        assert specs[i] == init[i];
      }
    }
  }

  /**
   * A slot: an entry with a port keeps it; a port-less one gets the default
   * port when that is a valid port; a rejected entry leaves the slot null and
   * adds one error naming it.
   */
  lemma SlotMeaning(parse: HostParser, spec: string, defaultPort: int)
    ensures var r := SlotSpec(parse, spec, Some(defaultPort));
      && r.Ok?
      && (parse(spec).Rejected? ==> r.value == Slot(None, [BadServer(spec, parse(spec).reason)]))
      && (parse(spec).Parsed? && parse(spec).hp.port.Some? ==> r.value == Slot(Some(parse(spec).hp), []))
      && (parse(spec).Parsed? && parse(spec).hp.port.None? && IsValidPort(defaultPort)
          && parse(parse(spec).hp.host) == HostParse.Parsed(HostAndPort(parse(spec).hp.host, None)) ==>
          r.value == Slot(Some(HostAndPort(parse(spec).hp.host, Some(defaultPort))), []))
      && (parse(spec).Parsed? && parse(spec).hp.port.None? && !IsValidPort(Wrap32(defaultPort)) ==>
          r.value == Slot(Some(parse(spec).hp), [BadServer(spec, "Port out of range: " + ShowInt(Wrap32(defaultPort)))]))
      && |r.value.errors| <= 1
      && forall e :: e in r.value.errors ==> "Bad host[:port]: " + spec + ": " <= e
  {
  }

  /**
   * intValue() keeps the low 32 bits of the --port value, so a port far out
   * of range can land on a valid one.
   */
  lemma PortTruncation(parse: HostParser, spec: string, host: string)
    requires parse(spec) == HostParse.Parsed(HostAndPort(host, None))
    requires parse(host) == HostParse.Parsed(HostAndPort(host, None))
    ensures SlotSpec(parse, spec, Some(0x1_0000_0000 + VOLTDB_SERVER_PORT))
      == Ok(Slot(Some(HostAndPort(host, Some(VOLTDB_SERVER_PORT))), []))
  {
    assert Wrap32(0x1_0000_0000 + VOLTDB_SERVER_PORT) == VOLTDB_SERVER_PORT;
  }

  /** Without options the list is ["localhost"] on the VoltDB client port. */
  lemma Defaults(cl: CommandLine)
    requires !HasOption(cl, "servers") && !HasOption(cl, "port")
    ensures InputsSpec(cl) == Ok(([DEFAULT_SERVER], Some(VOLTDB_SERVER_PORT)))
  {
  }

  // ---------------------------------------------------------------------------
  // The option record and postParse.

  /** VoltDBOptions: the server array, user and password. */
  class VoltDBOptions {
    var servers: array<Option<HostAndPort>>
    var user: Option<string>
    var password: Option<string>

    constructor()
      ensures servers.Length == 0 && user.None? && password.None?
    {
      servers := new Option<HostAndPort>[0];
      user, password := None, None;
    }
  }

  /** Once an entry throws, the entries after it do not matter. */
  lemma {:induction false} ServersPrefixFail(parse: HostParser, specs: seq<string>, j: nat, defaultPort: Option<int>)
    requires j <= |specs| && ServersSpec(parse, specs[..j], defaultPort).Fail?
    ensures ServersSpec(parse, specs, defaultPort) == ServersSpec(parse, specs[..j], defaultPort)
    decreases |specs|
  {
    if j < |specs| {
      var init := specs[..|specs| - 1];
      assert init[..j] == specs[..j];
      ServersPrefixFail(parse, init, j, defaultPort);
    } else {
      assert specs[..j] == specs;
    }
  }

  /** VoltDBCLISpec.java lines 84-92: the slot of entry i, written in place. */
  method FillSlot(servers: array<Option<HostAndPort>>, i: nat, driver: CLIDriver, parse: HostParser,
                  spec: string, defaultPort: Option<int>) returns (r: Result<()>)
    requires i < servers.Length && servers[i].None?
    modifies servers, driver
    ensures var slot := SlotSpec(parse, spec, defaultPort);
      && r.Ok? == slot.Ok?
      && (slot.Fail? ==> r.stop == slot.stop)
      && (slot.Ok? ==>
        && servers[..] == old(servers[..])[i := slot.value.server]
        && driver.errors == old(driver.errors) + slot.value.errors)
    ensures driver.cmd == old(driver.cmd)
  {
    match parse(spec) {
      case Rejected(reason) =>
        driver.AddError(BadServer(spec, reason));
      case Parsed(hp) =>
        servers[i] := Some(hp);
        if hp.port.None? {
          if defaultPort.None? {
            return Fail(Crash(NULL_POINTER));
          }
          match FromParts(parse, hp.host, Wrap32(defaultPort.value)) {
            case Rejected(reason) =>
              driver.AddError(BadServer(spec, reason));
            case Parsed(full) =>
              servers[i] := Some(full);
          }
        }
    }
    return Ok(());
  }

  /**
   * The loop of VoltDBCLISpec.java lines 83-93 over a fresh array of nulls: each slot is written
   * from its own entry and each rejected entry adds its error.
   */
  method FillServers(servers: array<Option<HostAndPort>>, driver: CLIDriver, parse: HostParser,
                     specs: seq<string>, defaultPort: Option<int>) returns (r: Result<()>)
    requires servers.Length == |specs| && forall k :: 0 <= k < servers.Length ==> servers[k].None?
    modifies servers, driver
    ensures var spec := ServersSpec(parse, specs, defaultPort);
      && r.Ok? == spec.Ok?
      && (spec.Fail? ==> r.stop == spec.stop)
      && (spec.Ok? ==> servers[..] == spec.value.slots && driver.errors == old(driver.errors) + spec.value.errors)
    ensures driver.cmd == old(driver.cmd)
  {
    for i := 0 to |specs|
      invariant driver.cmd == old(driver.cmd)
      invariant ServersSpec(parse, specs[..i], defaultPort).Ok?
      invariant servers[..i] == ServersSpec(parse, specs[..i], defaultPort).value.slots
      invariant driver.errors == old(driver.errors) + ServersSpec(parse, specs[..i], defaultPort).value.errors
      invariant forall k :: i <= k < servers.Length ==> servers[k].None?
    {
      assert specs[..i + 1][..i] == specs[..i];
      r := FillSlot(servers, i, driver, parse, specs[i], defaultPort);
      if r.Fail? {
        ServersPrefixFail(parse, specs, i + 1, defaultPort);
        return;
      }
      assert servers[..i + 1] == servers[..i] + [servers[i]];
    }
    assert specs[..|specs|] == specs;
    assert servers[..] == servers[..|specs|];
    return Ok(());
  }

  class VoltDBCLISpec {
    const opts: VoltDBOptions

    constructor()
      ensures fresh(opts) && opts.servers.Length == 0 && opts.user.None? && opts.password.None?
    {
      opts := new VoltDBOptions();
    }

    /** postParse: the stored settings and the driver's errors follow PostParseSpec. */
    method PostParse(driver: CLIDriver, parse: HostParser) returns (r: Result<()>)
      modifies opts, driver
      ensures var spec := PostParseSpec(old(driver.cmd), parse);
        && r.Ok? == spec.Ok?
        && (spec.Fail? ==> r.stop == spec.stop)
        && (spec.Ok? ==>
          && fresh(opts.servers)
          && Settings(opts.servers[..], opts.user, opts.password) == spec.value.0
          && driver.errors == old(driver.errors) + spec.value.1)
    {
      var inputs :- InputsSpec(driver.cmd);
      var servers := new Option<HostAndPort>[|inputs.0|](_ => None);
      opts.servers := servers;
      r := FillServers(servers, driver, parse, inputs.0, inputs.1);
      if r.Fail? {
        return;
      }
      opts.user :- GetString(driver.cmd, "user");
      opts.password :- GetString(driver.cmd, "password");
      return Ok(());
    }
  }
}
