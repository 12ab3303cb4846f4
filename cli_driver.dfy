/**
 * The command-line driver shared by every tool of the bulk loader: typed
 * getters over a parsed command line, the error list that option sets append
 * to, the order in which option sets are run around the single parse, and the
 * combined error report that ends the process.
 */
module Cli {
  import opened JavaLang

  /**
   * What commons-cli's getParsedOptionValue yields for an option that is on
   * the command line: a String, a Long or a Double (a Number-typed option with
   * a '.' in it), null (a flag, or a type it cannot convert), or a
   * ParseException with its message.
   */
  datatype Value = Text(text: string) | Whole(n: int) | Fractional | NoValue | Unparsable(message: string)

  /** A parsed command line: the options present, and the positional arguments. */
  datatype CommandLine = CommandLine(options: map<string, Value>, args: seq<string>)

  /** The ways a tool ends instead of going on. */
  datatype Stop =
    | Aborted(printed: string)     // abort(): the formatted message and the usage printed, exit 255
    | HelpShown                    // --help: usage printed, exit 0
    | Crash(exception: string)     // an uncaught runtime exception

  const CLASS_CAST := "ClassCastException"
  const NULL_POINTER := "NullPointerException"

  function ExitStatus(s: Stop): int
  {
    match s
    case Aborted(_) => 255
    case HelpShown => 0
    case Crash(_) => 1
  }

  datatype Result<T> = Ok(value: T) | Fail(stop: Stop)
  {
    predicate IsFailure() { Fail? }

    function PropagateFailure<U>(): Result<U>
      requires Fail?
    {
      Fail(stop)
    }

    function Extract(): T
      requires Ok?
    {
      value
    }
  }

  const ILLEGAL_FORMAT := "IllegalFormatException"

  /**
   * java.util.Formatter over a format given no arguments: "%%" prints '%' and
   * "%n" the line separator; any other '%' needs an argument or is no
   * conversion at all, and the formatter throws an IllegalFormatException.
   */
  function FormatNoArgs(fmt: string): (r: Option<string>)
    ensures (forall k :: 0 <= k < |fmt| ==> fmt[k] != '%') ==> r == Some(fmt)
    decreases |fmt|
  {
    if fmt == [] then Some([])
    else if fmt[0] != '%' then
      assert fmt == [fmt[0]] + fmt[1..];
      Prepend([fmt[0]], FormatNoArgs(fmt[1..]))
    else if |fmt| >= 2 && fmt[1] == '%' then Prepend("%", FormatNoArgs(fmt[2..]))
    else if |fmt| >= 2 && fmt[1] == 'n' then Prepend("\n", FormatNoArgs(fmt[2..]))
    else None
  }

  function Prepend(head: string, tail: Option<string>): Option<string>
  {
    if tail.None? then None else Some(head + tail.value)
  }

  /** Text without a '%' followed by a lone '%' cannot be formatted. */
  lemma {:induction false} TrailingPercentThrows(s: string)
    requires forall k :: 0 <= k < |s| ==> s[k] != '%'
    ensures FormatNoArgs(s + "%") == None
    decreases |s|
  {
    if s != [] {
      assert (s + "%")[1..] == s[1..] + "%";
      TrailingPercentThrows(s[1..]);
    }
  }

  /**
   * abort(true, message): the message is the printf format; printed with the
   * usage, the process exits with 255.  A message the formatter refuses
   * throws out of abort instead, and the JVM exits with 1.
   */
  function Abort<T>(message: string): (r: Result<T>)
    ensures r.Fail?
    ensures FormatNoArgs(message).Some? ==> r.stop == Aborted(FormatNoArgs(message).value) && ExitStatus(r.stop) == 255
    ensures FormatNoArgs(message).None? ==> r.stop == Crash(ILLEGAL_FORMAT) && ExitStatus(r.stop) == 1
  {
    var printed := FormatNoArgs(message);
    if printed.Some? then Fail(Aborted(printed.value)) else Fail(Crash(ILLEGAL_FORMAT))
  }

  /** A message without '%' is printed as it is, and the exit status is 255. */
  lemma AbortVerbatim<T>(message: string)
    requires forall k :: 0 <= k < |message| ==> message[k] != '%'
    ensures var r: Result<T> := Abort(message); r.stop == Aborted(message) && ExitStatus(r.stop) == 255
  {
  }

  /** A report that ends in a stray '%', such as "Error: Invalid exchange type: x%", crashes the abort. */
  lemma StrayPercentCrashes<T>(s: string)
    requires forall k :: 0 <= k < |s| ==> s[k] != '%'
    ensures var r: Result<T> := Abort(s + "%"); r.stop == Crash(ILLEGAL_FORMAT) && ExitStatus(r.stop) == 1
  {
    TrailingPercentThrows(s);
  }

  // ---------------------------------------------------------------------------
  // Getters.  They only read the command line, which parseArgs sets once.

  predicate HasOption(cl: CommandLine, name: string)
  {
    name in cl.options
  }

  /** getString(name): the option's String value; a parse error aborts. */
  function GetString(cl: CommandLine, name: string): (r: Result<Option<string>>)
    ensures !HasOption(cl, name) ==> r == Ok(None)
    ensures r.Ok? && r.value.Some? ==> HasOption(cl, name) && cl.options[name] == Text(r.value.value)
    ensures r.Fail? <==> HasOption(cl, name) && !cl.options[name].Text? && !cl.options[name].NoValue?
    ensures r.Fail? && !r.stop.Crash? ==> cl.options[name].Unparsable? && r == Abort(cl.options[name].message)
  {
    if !HasOption(cl, name) then Ok(None)
    else
      match cl.options[name]
      case Text(s) => Ok(Some(s))
      case NoValue => Ok(None)
      case Unparsable(m) => Abort(m)
      case _ => Fail(Crash(CLASS_CAST))
  }

  /** getString(name, default): the default exactly when the option is absent. */
  function GetStringOr(cl: CommandLine, name: string, default: Option<string>): (r: Result<Option<string>>)
    ensures !HasOption(cl, name) ==> r == Ok(default)
    ensures HasOption(cl, name) ==> r == GetString(cl, name)
  {
    if !HasOption(cl, name) then Ok(default) else GetString(cl, name)
  }

  /** getTrimmedString(name): trimmed; null stays null and a blank value becomes "". */
  function GetTrimmedString(cl: CommandLine, name: string): (r: Result<Option<string>>)
    ensures GetString(cl, name).Fail? ==> r == GetString(cl, name)
    ensures GetString(cl, name) == Ok(None) ==> r == Ok(None)
    ensures forall s :: GetString(cl, name) == Ok(Some(s)) ==> r == Ok(Some(Trim(s)))
    ensures r.Ok? && r.value.Some? ==> Trim(r.value.value) == r.value.value
  {
    match GetString(cl, name)
    case Fail(stop) => Fail(stop)
    case Ok(None) => Ok(None)
    case Ok(Some(s)) => TrimIdempotent(s); Ok(Some(Trim(s)))
  }

  /**
   * getTrimmedString(name, default): trimmed, with an empty result turned into
   * null.  A null value (absent option with a null default, or a flag) is
   * dereferenced and throws.
   */
  function GetTrimmedStringOr(cl: CommandLine, name: string, default: Option<string>): (r: Result<Option<string>>)
    ensures GetStringOr(cl, name, default).Fail? ==> r == GetStringOr(cl, name, default)
    ensures GetStringOr(cl, name, default) == Ok(None) ==> r == Fail(Crash(NULL_POINTER))
    ensures forall s :: GetStringOr(cl, name, default) == Ok(Some(s)) ==>
      r == Ok(if Trim(s) == [] then None else Some(Trim(s)))
    ensures r.Ok? && r.value.Some? ==> r.value.value != [] && Trim(r.value.value) == r.value.value
  {
    match GetStringOr(cl, name, default)
    case Fail(stop) => Fail(stop)
    case Ok(None) => Fail(Crash(NULL_POINTER))
    case Ok(Some(s)) => TrimIdempotent(s); Ok(if Trim(s) == [] then None else Some(Trim(s)))
  }

  /**
   * getCommaSeparatedStrings(name, defaults...): the defaults when the option
   * is absent, otherwise its value cut by split(","), which drops trailing
   * empty pieces; nothing but commas is lost.
   */
  function GetCommaSeparatedStrings(cl: CommandLine, name: string, defaults: seq<string>): (r: Result<seq<string>>)
    ensures !HasOption(cl, name) ==> r == Ok(defaults)
    ensures HasOption(cl, name) && cl.options[name].Text? ==>
      var s := cl.options[name].text;
      r.Ok? && (forall i, k :: 0 <= i < |r.value| && 0 <= k < |r.value[i]| ==> r.value[i][k] != ',')
      && var j := Join(r.value, ","); |j| <= |s| && s == j + Commas(|s| - |j|)
    ensures HasOption(cl, name) && cl.options[name].Unparsable? ==> r == Abort(cl.options[name].message)
    ensures HasOption(cl, name) && cl.options[name].NoValue? ==> r == Fail(Crash(NULL_POINTER))
  {
    if !HasOption(cl, name) then Ok(defaults)
    else
      match cl.options[name]
      case Text(s) => SplitCommaRoundTrip(s); Ok(SplitComma(s))
      case NoValue => Fail(Crash(NULL_POINTER))
      case Unparsable(m) => Abort(m)
      case _ => Fail(Crash(CLASS_CAST))
  }

  /** getNumber(name): the option's Long value; a parse error aborts. */
  function GetNumber(cl: CommandLine, name: string): (r: Result<Option<int>>)
    ensures !HasOption(cl, name) ==> r == Ok(None)
    ensures r.Ok? && r.value.Some? ==> HasOption(cl, name) && cl.options[name] == Whole(r.value.value)
    ensures r.Fail? <==> HasOption(cl, name) && !cl.options[name].Whole? && !cl.options[name].NoValue?
    ensures r.Fail? && !r.stop.Crash? ==> cl.options[name].Unparsable? && r == Abort(cl.options[name].message)
  {
    if !HasOption(cl, name) then Ok(None)
    else
      match cl.options[name]
      case Whole(n) => Ok(Some(n))
      case NoValue => Ok(None)
      case Unparsable(m) => Abort(m)
      case _ => Fail(Crash(CLASS_CAST))
  }

  /** getNumber(name, default): the default exactly when the option is absent. */
  function GetNumberOr(cl: CommandLine, name: string, default: Option<int>): (r: Result<Option<int>>)
    ensures !HasOption(cl, name) ==> r == Ok(default)
    ensures HasOption(cl, name) ==> r == GetNumber(cl, name)
  {
    if !HasOption(cl, name) then Ok(default) else GetNumber(cl, name)
  }

  /** getBoolean(name): whether the option is present. */
  predicate GetBoolean(cl: CommandLine, name: string)
  {
    HasOption(cl, name)
  }

  // ---------------------------------------------------------------------------
  // The error report.

  function ReportHeader(errors: seq<string>): string
  {
    if |errors| > 1 then "Errors:\n" else "Error: "
  }

  /** The message of the abort that a non-empty error list causes. */
  function ReportText(errors: seq<string>): string
  {
    ReportHeader(errors) + Join(errors, "\n")
  }

  /** The StringBuilder loop of parseArgs. */
  method ComposeErrorReport(errors: seq<string>) returns (text: string)
    requires errors != []
    ensures text == ReportText(errors)
  {
    text := AppendJoined(ReportHeader(errors), errors, "\n");
  }

  /** One error: "Error: " and the error itself. */
  lemma ReportSingle(e: string)
    ensures ReportText([e]) == "Error: " + e
  {
  }

  /**
   * Several errors: the "Errors:" line, then one line per error in the order
   * they were added, and no newline after the last one.
   */
  lemma ReportLines(errors: seq<string>)
    requires |errors| > 1
    requires forall i, k :: 0 <= i < |errors| && 0 <= k < |errors[i]| ==> errors[i][k] != '\n'
    ensures var text := ReportText(errors);
      text[..8] == "Errors:\n" && Pieces(text[8..], '\n') == errors
  {
    var text := ReportText(errors);
    assert text[8..] == Join(errors, "\n");
    PiecesJoin(errors, '\n');
  }

  // ---------------------------------------------------------------------------
  // The driver object and parseArgs.

  /** The phases an option set goes through; set i is the i-th in run order. */
  datatype Phase = PreParse(index: nat) | Parse | PostParse(index: nat)

  /** What one user option set's postParse does with the command line. */
  datatype PostParseEffect = AddsErrors(added: seq<string>) | Halts(stop: Stop)

  /** The outcome of PosixParser.parse. */
  datatype ParseOutcome = Parsed(cl: CommandLine) | ParseError(message: string)

  function PreParses(n: nat): (ps: seq<Phase>)
    ensures |ps| == n && forall i :: 0 <= i < n ==> ps[i] == PreParse(i)
  {
    if n == 0 then [] else PreParses(n - 1) + [PreParse(n - 1)]
  }

  function PostParses(n: nat): (ps: seq<Phase>)
    ensures |ps| == n && forall i :: 0 <= i < n ==> ps[i] == PostParse(i)
  {
    if n == 0 then [] else PostParses(n - 1) + [PostParse(n - 1)]
  }

  /** How many user option sets run their postParse without stopping the process. */
  function FirstHalt(sets: seq<CommandLine -> PostParseEffect>, cl: CommandLine): (k: nat)
    ensures k <= |sets|
    ensures forall i :: 0 <= i < k ==> sets[i](cl).AddsErrors?
    ensures k < |sets| ==> sets[k](cl).Halts?
  {
    if sets == [] then 0
    else if sets[0](cl).Halts? then 0
    else 1 + FirstHalt(sets[1..], cl)
  }

  /** The errors the first k option sets add, in order. */
  function AddedErrors(sets: seq<CommandLine -> PostParseEffect>, cl: CommandLine, k: nat): seq<string>
    requires k <= |sets|
  {
    if k == 0 then []
    else
      var e := sets[k - 1](cl);
      AddedErrors(sets, cl, k - 1) + (if e.AddsErrors? then e.added else [])
  }

  /** The help option set's postParse: --help prints the usage and exits with 0. */
  function HelpPostParse(cl: CommandLine): (r: Result<()>)
    ensures r.Fail? <==> GetBoolean(cl, "help")
    ensures r.Fail? ==> r.stop == HelpShown && ExitStatus(r.stop) == 0
  {
    if GetBoolean(cl, "help") then Fail(HelpShown) else Ok(())
  }

  /** How many postParse calls run: up to the halting user set, or all sets with help. */
  function PostParsesRun(sets: seq<CommandLine -> PostParseEffect>, cl: CommandLine): nat
  {
    var k := FirstHalt(sets, cl);
    if k < |sets| then k + 1 else |sets| + 1
  }

  /** The phases of one parseArgs that gets past the parse. */
  function PhasesRun(sets: seq<CommandLine -> PostParseEffect>, cl: CommandLine): seq<Phase>
  {
    PreParses(|sets| + 1) + [Parse] + PostParses(PostParsesRun(sets, cl))
  }

  /** The outcome of parseArgs once the command line is parsed, given the errors before it. */
  function ParseArgsResult(sets: seq<CommandLine -> PostParseEffect>, cl: CommandLine, prior: seq<string>): Result<()>
  {
    var k := FirstHalt(sets, cl);
    var errors := prior + AddedErrors(sets, cl, k);
    if k < |sets| then Fail(sets[k](cl).stop)
    else if GetBoolean(cl, "help") then Fail(HelpShown)
    else if errors != [] then Abort(ReportText(errors))
    else Ok(())
  }

  function Rank(p: Phase): int
  {
    match p
    case PreParse(_) => 0
    case Parse => 1
    case PostParse(_) => 2
  }

  /** Phase p comes strictly before phase q in the required order. */
  predicate Precedes(p: Phase, q: Phase)
  {
    Rank(p) < Rank(q) || (Rank(p) == Rank(q) != 1 && p.index < q.index)
  }

  /**
   * In parseArgs every preParse (help set last) comes before the one parse,
   * and the postParse calls come after it in set order, each set once.
   */
  lemma PhaseOrder(sets: seq<CommandLine -> PostParseEffect>, cl: CommandLine)
    ensures var ph := PhasesRun(sets, cl);
      && (forall p, q :: 0 <= p < q < |ph| ==> Precedes(ph[p], ph[q]))
      && ph[|sets|] == PreParse(|sets|) && ph[|sets| + 1] == Parse
      && (FirstHalt(sets, cl) == |sets| ==> ph[|ph| - 1] == PostParse(|sets|))
  {
    var ph := PhasesRun(sets, cl);
    var n := |sets| + 1;
    forall p, q | 0 <= p < q < |ph| ensures Precedes(ph[p], ph[q]) {
      if q < n {
        assert ph[p] == PreParse(p) && ph[q] == PreParse(q);
      } else if q > n && p > n {
        assert ph[p] == PostParse(p - n - 1) && ph[q] == PostParse(q - n - 1);
      } else if q > n && p < n {
        assert ph[p] == PreParse(p) && ph[q] == PostParse(q - n - 1);
      } else if q > n {
        assert ph[p] == Parse && ph[q] == PostParse(q - n - 1);
      } else {
        assert ph[p] == PreParse(p) && ph[q] == Parse;
      }
    }
  }

  class CLIDriver {
    var cmd: CommandLine
    var args: seq<string>
    var errors: seq<string>
    ghost var phases: seq<Phase>

    constructor()
      ensures cmd == CommandLine(map[], []) && args == [] && errors == [] && phases == []
    {
      cmd := CommandLine(map[], []);
      args := [];
      errors := [];
      phases := [];
    }

    /** addError: the message goes at the end of the list. */
    method AddError(message: string)
      modifies this
      ensures errors == old(errors) + [message]
      ensures cmd == old(cmd) && args == old(args) && phases == old(phases)
    {
      errors := errors + [message];
    }

    /** The preParse loop: each set, in order, registers its options. */
    method PreParseAll(n: nat)
      modifies this`phases
      ensures phases == old(phases) + PreParses(n)
    {
      for i := 0 to n
        invariant phases == old(phases) + PreParses(i)
      {
        phases := phases + [PreParse(i)];
      }
    }

    /** The user sets' postParse calls, in order, up to the first one that stops the process. */
    method RunUserSets(sets: seq<CommandLine -> PostParseEffect>) returns (k: nat)
      modifies this`phases, this`errors
      ensures k == FirstHalt(sets, cmd)
      ensures errors == old(errors) + AddedErrors(sets, cmd, k)
      ensures phases == old(phases) + PostParses(k)
    {
      var i := 0;
      while i < |sets| && sets[i](cmd).AddsErrors?
        invariant 0 <= i <= FirstHalt(sets, cmd)
        invariant errors == old(errors) + AddedErrors(sets, cmd, i)
        invariant phases == old(phases) + PostParses(i)
      {
        phases := phases + [PostParse(i)];
        errors := errors + sets[i](cmd).added;
        i := i + 1;
      }
      return i;
    }

    /**
     * The postParse loop: each user set adds its errors in turn until one
     * stops the process; if none does, the help set runs last.
     */
    method PostParseAll(sets: seq<CommandLine -> PostParseEffect>) returns (stop: Option<Stop>)
      modifies this`phases, this`errors
      ensures var k := FirstHalt(sets, cmd);
        && errors == old(errors) + AddedErrors(sets, cmd, k)
        && phases == old(phases) + PostParses(PostParsesRun(sets, cmd))
        && stop == if k < |sets| then Some(sets[k](cmd).stop)
                   else if GetBoolean(cmd, "help") then Some(HelpShown)
                   else None
    {
      var i := RunUserSets(sets);
      phases := phases + [PostParse(i)];
      if i < |sets| {
        return Some(sets[i](cmd).stop);
      }
      var help := HelpPostParse(cmd);
      return if help.Fail? then Some(help.stop) else None;
    }

    /**
     * parseArgs with the user option sets' postParse behaviour given as
     * functions of the command line; the help set runs after them.  Every
     * preParse runs before the parse and every postParse after it, each in
     * set order, until one of them stops the process; a non-empty error list
     * then ends it with one abort carrying the report.
     */
    method ParseArgs(parsed: ParseOutcome, sets: seq<CommandLine -> PostParseEffect>) returns (r: Result<()>)
      modifies this
      ensures parsed.ParseError? ==>
        && r == Abort(parsed.message)
        && phases == old(phases) + PreParses(|sets| + 1) + [Parse]
        && cmd == old(cmd) && args == old(args) && errors == old(errors)
      ensures parsed.Parsed? ==>
        && cmd == parsed.cl && args == parsed.cl.args
        && errors == old(errors) + AddedErrors(sets, parsed.cl, FirstHalt(sets, parsed.cl))
        && phases == old(phases) + PhasesRun(sets, parsed.cl)
        && r == ParseArgsResult(sets, parsed.cl, old(errors))
    {
      PreParseAll(|sets| + 1);
      phases := phases + [Parse];
      if parsed.ParseError? {
        return Abort(parsed.message);
      }
      cmd := parsed.cl;
      args := cmd.args;
      ghost var before := phases;
      var stop := PostParseAll(sets);
      assert phases == old(phases) + PhasesRun(sets, cmd) by {
        assert phases == before + PostParses(PostParsesRun(sets, cmd));
      }
      if stop.Some? {
        return Fail(stop.value);
      }
      if errors != [] {
        var text := ComposeErrorReport(errors);
        r := Abort(text);
      } else {
        r := Ok(());
      }
    }
  }
}
