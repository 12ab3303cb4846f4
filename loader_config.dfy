/**
 * The stand-alone loader's configuration (RabbitMQBulkLoader.CLIConfigImpl):
 * its defaults and validate(), a chain of checks where the first failure
 * exits with its message, followed by the choice of procedure or table.
 */
module LoaderConfig {
  import opened JavaLang

  const DEFAULT_SERVERS := "localhost"
  const DEFAULT_PORT := 21212
  const DEFAULT_MAX_ERRORS := 100
  const DEFAULT_FLUSH := 10
  const DEFAULT_BATCH := 200

  const BAD_BATCH := "Batch size must be >= 0"
  const BAD_FLUSH := "Periodic flush interval must be > 0"
  const NO_QUEUE := "RabbitMQ message queue name must be specified."
  const NO_SERVER := "RabbitMQ server must be specified."
  const BAD_PORT := "VoltDB port must be >= 0"
  const NO_TARGET := "Either a procedure name or a table name is required"
  const TWO_TARGETS := "Either a procedure name or a table name is required, but not both"

  /** The option fields; procedure and table become null once the other is chosen. */
  datatype Config = Config(
    servers: string, port: int, user: string, password: string,
    mqserver: string, mqqueue: string,
    procedure: Option<string>, table: Option<string>,
    maxerrors: int, flush: int, batch: int)

  /** RabbitMQBulkLoader.java lines 43-76. */
  const DEFAULTS := Config(DEFAULT_SERVERS, DEFAULT_PORT, "", "", "", "", Some(""), Some(""), DEFAULT_MAX_ERRORS, DEFAULT_FLUSH, DEFAULT_BATCH)

  /** How validate() ends: normally, or by exitWithMessageAndUsage. */
  datatype Validation = Valid(config: Config) | Exit(message: string)

  /** RabbitMQBulkLoader.java lines 84-98: the first range or presence check that fails, if any. */
  function FirstProblem(c: Config): Option<string>
  {
    if c.batch < 0 then Some(BAD_BATCH)
    else if c.flush <= 0 then Some(BAD_FLUSH)
    else if |c.mqqueue| <= 0 then Some(NO_QUEUE)
    else if |c.mqserver| <= 0 then Some(NO_SERVER)
    else if c.port < 0 then Some(BAD_PORT)
    else None
  }

  /** RabbitMQBulkLoader.java lines 99-112: trim both names, then keep exactly one of them. */
  function TargetSpec(procedure: string, table: string, c: Config): Validation
  {
    var p := Trim(procedure);
    var t := Trim(table);
    if p == [] then
      if t == [] then Exit(NO_TARGET) else Valid(c.(procedure := None, table := Some(t)))
    else
      if t != [] then Exit(TWO_TARGETS) else Valid(c.(procedure := Some(p), table := None))
  }

  /** validate(). */
  function ValidateSpec(c: Config): Validation
    requires c.procedure.Some? && c.table.Some?
  {
    match FirstProblem(c)
    case Some(message) => Exit(message)
    case None => TargetSpec(c.procedure.value, c.table.value, c)
  }

  class CLIConfigImpl {
    var servers: string
    var port: int
    var user: string
    var password: string
    var mqserver: string
    var mqqueue: string
    var procedure: Option<string>
    var table: Option<string>
    var maxerrors: int
    var flush: int
    var batch: int

    function Current(): Config
      reads this
    {
      Config(servers, port, user, password, mqserver, mqqueue, procedure, table, maxerrors, flush, batch)
    }

    constructor()
      ensures Current() == DEFAULTS
    {
      servers, port, user, password := DEFAULT_SERVERS, DEFAULT_PORT, "", "";
      mqserver, mqqueue, procedure, table := "", "", Some(""), Some("");
      maxerrors, flush, batch := DEFAULT_MAX_ERRORS, DEFAULT_FLUSH, DEFAULT_BATCH;
    }

    /**
     * validate(): the checks in order; String.trim() needs both names to be
     * non-null, which they are from construction on.
     */
    method Validate() returns (v: Validation)
      requires procedure.Some? && table.Some?
      modifies this
      ensures v == ValidateSpec(old(Current()))
      ensures v.Valid? ==> Current() == v.config
    {
      if batch < 0 {
        return Exit(BAD_BATCH);
      }
      if flush <= 0 {
        return Exit(BAD_FLUSH);
      }
      if |mqqueue| <= 0 {
        return Exit(NO_QUEUE);
      }
      if |mqserver| <= 0 {
        return Exit(NO_SERVER);
      }
      if port < 0 {
        return Exit(BAD_PORT);
      }
      procedure := Some(Trim(procedure.value));
      table := Some(Trim(table.value));
      if procedure.value == [] {
        if table.value == [] {
          return Exit(NO_TARGET);
        }
        procedure := None;
      } else {
        if table.value != [] {
          return Exit(TWO_TARGETS);
        }
        table := None;
      }
      return Valid(Current());
    }
  }

  // ---------------------------------------------------------------------------
  // What validate() promises.

  /** The defaults alone do not validate: no queue is named. */
  lemma DefaultsNeedQueue()
    ensures ValidateSpec(DEFAULTS) == Exit(NO_QUEUE)
  {
  }

  /** The checks run in order: each check's message is reported only when every earlier check passed. */
  lemma CheckOrder(c: Config)
    requires c.procedure.Some? && c.table.Some?
    ensures ValidateSpec(c) == Exit(BAD_BATCH) <==> c.batch < 0
    ensures ValidateSpec(c) == Exit(BAD_FLUSH) <==> c.batch >= 0 && c.flush <= 0
    ensures ValidateSpec(c) == Exit(NO_QUEUE) <==> c.batch >= 0 && c.flush > 0 && c.mqqueue == []
    ensures ValidateSpec(c) == Exit(NO_SERVER) <==> c.batch >= 0 && c.flush > 0 && c.mqqueue != [] && c.mqserver == []
    ensures ValidateSpec(c) == Exit(BAD_PORT) <==>
      c.batch >= 0 && c.flush > 0 && c.mqqueue != [] && c.mqserver != [] && c.port < 0
  {
    assert |BAD_BATCH| == 23 && |BAD_FLUSH| == 35 && |NO_QUEUE| == 46 && |NO_SERVER| == 34 && |BAD_PORT| == 24;
    assert |NO_TARGET| == 51 && |TWO_TARGETS| == 65;
  }

  /**
   * A configuration that validates keeps its other fields and names exactly
   * one target, non-empty and trimmed: the procedure when its trimmed name is
   * non-empty, otherwise the table.
   */
  lemma ValidHasOneTarget(c: Config)
    requires c.procedure.Some? && c.table.Some?
    requires ValidateSpec(c).Valid?
    ensures var d := ValidateSpec(c).config;
      && d.(procedure := c.procedure, table := c.table) == c
      && c.batch >= 0 && c.flush > 0 && c.mqqueue != [] && c.mqserver != [] && c.port >= 0
      && (d.procedure.Some? <==> d.table.None?)
      && (d.procedure.Some? ==> d.procedure.value == Trim(c.procedure.value) && d.procedure.value != [] && Trim(c.table.value) == [])
      && (d.table.Some? ==> d.table.value == Trim(c.table.value) && d.table.value != [] && Trim(c.procedure.value) == [])
  {
  }

  /** After the other checks pass, the names decide: both blank or both given exits. */
  lemma TargetChoice(c: Config)
    requires c.procedure.Some? && c.table.Some? && FirstProblem(c).None?
    ensures ValidateSpec(c) == Exit(NO_TARGET) <==> Trim(c.procedure.value) == [] && Trim(c.table.value) == []
    ensures ValidateSpec(c) == Exit(TWO_TARGETS) <==> Trim(c.procedure.value) != [] && Trim(c.table.value) != []
  {
    assert |NO_TARGET| != |TWO_TARGETS|;
  }
}
