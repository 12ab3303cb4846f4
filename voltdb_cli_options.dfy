/**
 * The VoltDB connection option set of the older generation
 * (VoltDBCLIOptions): server names, one port for all of them, user and
 * password, and a check that the port is not negative.
 */
module VoltDbCliOptions {
  import opened JavaLang
  import opened Cli
  import VoltDbCliSpec

  const NEGATIVE_PORT := "VoltDB port must be >= 0"

  datatype Settings = Settings(servers: Option<seq<string>>, port: Option<int>, user: Option<string>, password: Option<string>)

  const UNSET := Settings(None, None, None, None)

  /**
   * postParse: the four fields in order, then the port check, which unboxes
   * the Long (null throws) and aborts on a negative value.
   */
  function PostParseSpec(cl: CommandLine): Result<Settings>
  {
    var servers :- GetCommaSeparatedStrings(cl, "servers", [VoltDbCliSpec.DEFAULT_SERVER]);
    var port :- GetNumberOr(cl, "port", Some(VoltDbCliSpec.VOLTDB_SERVER_PORT));
    var user :- GetString(cl, "user");
    var password :- GetString(cl, "password");
    if port.None? then Fail(Crash(NULL_POINTER))
    else if port.value < 0 then Abort(NEGATIVE_PORT)
    else Ok(Settings(Some(servers), port, user, password))
  }

  class VoltDBCLIOptions {
    var servers: Option<seq<string>>
    var port: Option<int>
    var user: Option<string>
    var password: Option<string>

    function Current(): Settings
      reads this
    {
      Settings(servers, port, user, password)
    }

    constructor()
      ensures Current() == UNSET
    {
      servers, port, user, password := None, None, None, None;
    }

    /** postParse: on success the fields are PostParseSpec's; a failure is the one it names. */
    method PostParse(driver: CLIDriver) returns (r: Result<()>)
      modifies this
      ensures var spec := PostParseSpec(driver.cmd);
        && r.Ok? == spec.Ok?
        && (spec.Fail? ==> r.stop == spec.stop)
        && (spec.Ok? ==> Current() == spec.value)
    {
      var names :- GetCommaSeparatedStrings(driver.cmd, "servers", [VoltDbCliSpec.DEFAULT_SERVER]);
      servers := Some(names);
      port :- GetNumberOr(driver.cmd, "port", Some(VoltDbCliSpec.VOLTDB_SERVER_PORT));
      user :- GetString(driver.cmd, "user");
      password :- GetString(driver.cmd, "password");
      if port.None? {
        return Fail(Crash(NULL_POINTER));
      }
      if port.value < 0 {
        return Abort(NEGATIVE_PORT);
      }
      return Ok(());
    }
  }

  // ---------------------------------------------------------------------------
  // What postParse promises.

  /** Without options: the one server "localhost" on the VoltDB client port, no credentials. */
  lemma Defaults(cl: CommandLine)
    requires !HasOption(cl, "servers") && !HasOption(cl, "port")
    requires !HasOption(cl, "user") && !HasOption(cl, "password")
    ensures PostParseSpec(cl) == Ok(Settings(Some([VoltDbCliSpec.DEFAULT_SERVER]), Some(VoltDbCliSpec.VOLTDB_SERVER_PORT), None, None))
  {
  }

  /**
   * A successful postParse stores the split --servers value (or "localhost"),
   * a port that is not negative, and user and password as given.
   */
  lemma SuccessSettings(cl: CommandLine)
    requires PostParseSpec(cl).Ok?
    ensures var s := PostParseSpec(cl).value;
      && s.servers.Some? && GetCommaSeparatedStrings(cl, "servers", [VoltDbCliSpec.DEFAULT_SERVER]) == Ok(s.servers.value)
      && s.port.Some? && s.port.value >= 0
      && GetNumberOr(cl, "port", Some(VoltDbCliSpec.VOLTDB_SERVER_PORT)) == Ok(s.port)
      && GetString(cl, "user") == Ok(s.user) && GetString(cl, "password") == Ok(s.password)
  {
  }

  /** A negative --port aborts once the other options read cleanly. */
  lemma NegativePort(cl: CommandLine, n: int)
    requires n < 0 && HasOption(cl, "port") && cl.options["port"] == Whole(n)
    requires GetCommaSeparatedStrings(cl, "servers", [VoltDbCliSpec.DEFAULT_SERVER]).Ok?
    requires GetString(cl, "user").Ok? && GetString(cl, "password").Ok?
    ensures PostParseSpec(cl) == Abort(NEGATIVE_PORT)
  {
  }
}
