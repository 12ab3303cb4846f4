/**
 * The bulk-loader option set: one optional positional table name, or a
 * --procedure, plus the batch size and flush interval.
 */
module LoaderCli {
  import opened JavaLang
  import opened Cli

  datatype DBObjType = Table | Procedure

  const DEFAULT_MAX_ERRORS := 100
  const DEFAULT_FLUSH_INTERVAL := 10
  const DEFAULT_BATCH_SIZE := 200

  const ONE_ARGUMENT := "Only one argument is allowed."
  const NOT_BOTH := "Either a table or a procedure name is required, but not both."
  const TARGET_REQUIRED := "Either a table or a procedure name is required."
  const BAD_BATCH := "Batch size must be >= 0."
  const BAD_FLUSH := "Periodic flush interval must be > 0"

  /** The option values of a BulkLoaderOptions object. */
  datatype Settings = Settings(
    dbObjType: Option<DBObjType>,
    dbObjName: Option<string>,
    maxerrors: Option<int>,
    flush: Option<int>,
    batch: Option<int>)

  const DEFAULTS := Settings(None, None, Some(DEFAULT_MAX_ERRORS), Some(DEFAULT_FLUSH_INTERVAL), Some(DEFAULT_BATCH_SIZE))

  /** The target a positional argument selects: a non-blank one names a table. */
  function WithArgument(args: seq<string>, s: Settings): Settings
  {
    if |args| == 0 then s
    else
      var name := Trim(args[0]);
      if name == [] then s.(dbObjName := None)
      else s.(dbObjName := Some(name), dbObjType := Some(Table))
  }

  /** A Long option compared against its bound: unboxing null throws. */
  function Checked(n: Option<int>, ok: int -> bool, message: string): Result<int>
  {
    if n.None? then Fail(Crash(NULL_POINTER))
    else if !ok(n.value) then Abort(message)
    else Ok(n.value)
  }

  /** The table or procedure that postParse settles on. */
  function TargetSpec(args: seq<string>, cl: CommandLine, s: Settings): Result<Settings>
  {
    if |args| > 1 then Abort(ONE_ARGUMENT)
    else
      var s1 := WithArgument(args, s);
      var procedure :- GetTrimmedString(cl, "procedure");
      if procedure.Some? && s1.dbObjType.Some? then Abort(NOT_BOTH)
      else
        var s2 := if procedure.Some? then s1.(dbObjType := Some(Procedure), dbObjName := procedure) else s1;
        if s2.dbObjType.None? then Abort(TARGET_REQUIRED) else Ok(s2)
  }

  /** The batch size and flush interval, each checked right after it is read. */
  function NumbersSpec(cl: CommandLine, s: Settings): Result<Settings>
  {
    var batch :- GetNumberOr(cl, "batch", s.batch);
    var b :- Checked(batch, n => n >= 0, BAD_BATCH);
    var flush :- GetNumberOr(cl, "flush", s.flush);
    var f :- Checked(flush, n => n > 0, BAD_FLUSH);
    Ok(s.(batch := Some(b), flush := Some(f)))
  }

  /** What postParse makes of the options; a failure ends the process. */
  function PostParseSpec(args: seq<string>, cl: CommandLine, s: Settings): Result<Settings>
  {
    var s2 :- TargetSpec(args, cl, s);
    NumbersSpec(cl, s2)
  }

  class BulkLoaderOptions {
    var dbObjType: Option<DBObjType>
    var dbObjName: Option<string>
    var maxerrors: Option<int>
    var flush: Option<int>
    var batch: Option<int>

    function Current(): Settings
      reads this
    {
      Settings(dbObjType, dbObjName, maxerrors, flush, batch)
    }

    constructor()
      ensures Current() == DEFAULTS
    {
      dbObjType := None;
      dbObjName := None;
      maxerrors := Some(DEFAULT_MAX_ERRORS);
      flush := Some(DEFAULT_FLUSH_INTERVAL);
      batch := Some(DEFAULT_BATCH_SIZE);
    }
  }

  class BulkLoaderCLI {
    const opts: BulkLoaderOptions

    constructor()
      ensures fresh(opts) && opts.Current() == DEFAULTS
    {
      opts := new BulkLoaderOptions();
    }

    /**
     * postParse: validate the target and the numbers step by step; the
     * options reached on success are those of PostParseSpec, and a failure
     * is the one PostParseSpec names (the process then ends).
     */
    method PostParse(driver: CLIDriver) returns (r: Result<()>)
      modifies opts
      ensures var spec := PostParseSpec(driver.args, driver.cmd, old(opts.Current()));
        && r.Ok? == spec.Ok?
        && (spec.Ok? ==> opts.Current() == spec.value)
        && (spec.Fail? ==> r.stop == spec.stop)
    {
      r := SelectTarget(driver);
      if r.Ok? {
        r := ReadNumbers(driver);
      }
    }

    /** BulkLoaderCLI.java lines 82-104: the positional argument and --procedure. */
    method SelectTarget(driver: CLIDriver) returns (r: Result<()>)
      modifies opts
      ensures var spec := TargetSpec(driver.args, driver.cmd, old(opts.Current()));
        && r.Ok? == spec.Ok?
        && (spec.Ok? ==> opts.Current() == spec.value)
        && (spec.Fail? ==> r.stop == spec.stop)
    {
      if |driver.args| > 1 {
        return Abort(ONE_ARGUMENT);
      }
      if |driver.args| > 0 {
        opts.dbObjName := Some(Trim(driver.args[0]));
        if opts.dbObjName.value == [] {
          opts.dbObjName := None;
        } else {
          opts.dbObjType := Some(Table);
        }
      }
      var procedure :- GetTrimmedString(driver.cmd, "procedure");
      if procedure.Some? {
        if opts.dbObjType.Some? {
          return Abort(NOT_BOTH);
        }
        opts.dbObjType := Some(Procedure);
        opts.dbObjName := procedure;
      }
      if opts.dbObjType.None? {
        return Abort(TARGET_REQUIRED);
      }
      return Ok(());
    }

    /** BulkLoaderCLI.java lines 105-112: --batch and --flush over the current values. */
    method ReadNumbers(driver: CLIDriver) returns (r: Result<()>)
      modifies opts
      ensures var spec := NumbersSpec(driver.cmd, old(opts.Current()));
        && r.Ok? == spec.Ok?
        && (spec.Ok? ==> opts.Current() == spec.value)
        && (spec.Fail? ==> r.stop == spec.stop)
    {
      opts.batch :- GetNumberOr(driver.cmd, "batch", opts.batch);
      var b :- Checked(opts.batch, n => n >= 0, BAD_BATCH);
      opts.flush :- GetNumberOr(driver.cmd, "flush", opts.flush);
      var f :- Checked(opts.flush, n => n > 0, BAD_FLUSH);
      return Ok(());
    }
  }

  // ---------------------------------------------------------------------------
  // What postParse promises.

  lemma TooManyArguments(args: seq<string>, cl: CommandLine, s: Settings)
    requires |args| > 1
    ensures PostParseSpec(args, cl, s) == Abort(ONE_ARGUMENT)
  {
  }

  /**
   * On success exactly one target type is chosen.  A table comes from a
   * non-blank positional argument and is named by it trimmed; a procedure is
   * named by the trimmed --procedure value, which may be empty.
   */
  lemma SuccessHasTarget(args: seq<string>, cl: CommandLine)
    requires PostParseSpec(args, cl, DEFAULTS).Ok?
    ensures var s := PostParseSpec(args, cl, DEFAULTS).value;
      && s.dbObjType.Some? && s.dbObjName.Some?
      && Trim(s.dbObjName.value) == s.dbObjName.value
      && (s.dbObjType == Some(Table) <==> |args| == 1 && Trim(args[0]) != [])
      && (s.dbObjType == Some(Table) ==> s.dbObjName == Some(Trim(args[0])) && s.dbObjName.value != [])
      && (s.dbObjType == Some(Procedure) ==> GetTrimmedString(cl, "procedure") == Ok(s.dbObjName))
      && s.batch.Some? && s.batch.value >= 0 && s.flush.Some? && s.flush.value > 0
      && s.maxerrors == Some(DEFAULT_MAX_ERRORS)
  {
    var t := TargetSpec(args, cl, DEFAULTS);
    assert t.Ok?;
    if |args| == 1 {
      TrimIdempotent(args[0]);
    }
  }

  /** A blank --procedure value is accepted and names the empty procedure. */
  lemma BlankProcedure(cl: CommandLine)
    requires HasOption(cl, "procedure") && cl.options["procedure"] == Text(" ")
    requires !HasOption(cl, "batch") && !HasOption(cl, "flush")
    ensures PostParseSpec([], cl, DEFAULTS) == Ok(DEFAULTS.(dbObjType := Some(Procedure), dbObjName := Some("")))
  {
    assert Trim(" ") == "" by {
      assert IsBlank(' ');
      assert Leading(" ") == 1;
    }
  }

  /** A non-blank positional table together with --procedure is refused. */
  lemma TableAndProcedure(arg: string, cl: CommandLine, s: Settings)
    requires Trim(arg) != []
    requires GetTrimmedString(cl, "procedure").Ok? && GetTrimmedString(cl, "procedure").value.Some?
    ensures PostParseSpec([arg], cl, s) == Abort(NOT_BOTH)
  {
  }

  /** Neither a non-blank table argument nor a procedure is refused. */
  lemma NoTarget(args: seq<string>, cl: CommandLine)
    requires |args| <= 1 && (|args| == 1 ==> Trim(args[0]) == [])
    requires GetTrimmedString(cl, "procedure") == Ok(None)
    ensures PostParseSpec(args, cl, DEFAULTS) == Abort(TARGET_REQUIRED)
  {
  }

  /** Without --batch and --flush a valid target gets the default numbers. */
  lemma DefaultNumbers(args: seq<string>, cl: CommandLine)
    requires !HasOption(cl, "batch") && !HasOption(cl, "flush")
    requires PostParseSpec(args, cl, DEFAULTS).Ok?
    ensures PostParseSpec(args, cl, DEFAULTS).value.batch == Some(DEFAULT_BATCH_SIZE)
    ensures PostParseSpec(args, cl, DEFAULTS).value.flush == Some(DEFAULT_FLUSH_INTERVAL)
  {
  }

  /**
   * Starting from options that pass, a negative --batch value is refused, and
   * so is a --flush value that is not positive.
   */
  lemma NumberChecks(args: seq<string>, cl: CommandLine, s: Settings)
    requires |args| <= 1 && PostParseSpec(args, cl, s).Ok?
    ensures forall n :: n < 0 ==>
      PostParseSpec(args, cl.(options := cl.options["batch" := Whole(n)]), s) == Abort(BAD_BATCH)
    ensures forall n :: n <= 0 ==>
      PostParseSpec(args, cl.(options := cl.options["flush" := Whole(n)]), s) == Abort(BAD_FLUSH)
  {
    BatchCheck(args, cl, s);
    FlushCheck(args, cl, s);
  }

  /** From options that pass, a negative --batch value is refused. */
  lemma BatchCheck(args: seq<string>, cl: CommandLine, s: Settings)
    requires |args| <= 1 && PostParseSpec(args, cl, s).Ok?
    ensures forall n :: n < 0 ==>
      PostParseSpec(args, cl.(options := cl.options["batch" := Whole(n)]), s) == Abort(BAD_BATCH)
  {
    forall n | n < 0
      ensures PostParseSpec(args, cl.(options := cl.options["batch" := Whole(n)]), s) == Abort(BAD_BATCH)
    {
      var cl' := cl.(options := cl.options["batch" := Whole(n)]);
      assert GetTrimmedString(cl', "procedure") == GetTrimmedString(cl, "procedure");
    }
  }

  /** From options that pass, a --flush value that is not positive is refused. */
  lemma FlushCheck(args: seq<string>, cl: CommandLine, s: Settings)
    requires |args| <= 1 && PostParseSpec(args, cl, s).Ok?
    ensures forall n :: n <= 0 ==>
      PostParseSpec(args, cl.(options := cl.options["flush" := Whole(n)]), s) == Abort(BAD_FLUSH)
  {
    forall n | n <= 0
      ensures PostParseSpec(args, cl.(options := cl.options["flush" := Whole(n)]), s) == Abort(BAD_FLUSH)
    {
      var cl' := cl.(options := cl.options["flush" := Whole(n)]);
      var t := TargetSpec(args, cl, s).value;
      assert GetTrimmedString(cl', "procedure") == GetTrimmedString(cl, "procedure");
      assert TargetSpec(args, cl', s) == Ok(t);
      var batch := GetNumberOr(cl, "batch", t.batch);
      assert GetNumberOr(cl', "batch", t.batch) == batch;
      assert batch.Ok? && Checked(batch.value, n => n >= 0, BAD_BATCH).Ok?;
      assert GetNumberOr(cl', "flush", t.flush) == Ok(Some(n));
      assert NumbersSpec(cl', t) == Abort(BAD_FLUSH);
    }
  }
}
