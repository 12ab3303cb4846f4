/**
 * RandomSleeper: the --sleepmin / --sleepmax option pair, normalised so that
 * both are set or neither, and the randomised pause taken between messages.
 */
module Sleeper {
  import opened JavaLang
  import opened Cli

  const NEGATIVE_SLEEP := "Sleep milliseconds must be >= 0"
  const INVERTED_RANGE := "Maximum sleep milliseconds must be >= minimum"
  const ILLEGAL_ARGUMENT := "IllegalArgumentException"

  /** The two Long fields of RandomSleeper.OptionSet. */
  datatype Range = Range(min: Option<int>, max: Option<int>)

  /** RandomSleeper.java lines 69-75: a lone maximum gets minimum 0, a lone minimum is also the maximum. */
  function Normalised(min: Option<int>, max: Option<int>): (r: Range)
    ensures r.min.Some? <==> r.max.Some?
    ensures r.min.Some? <==> min.Some? || max.Some?
    ensures min.Some? ==> r.min == min
    ensures max.Some? ==> r.max == max
    ensures min.None? && max.Some? ==> r.min == Some(0)
    ensures min.Some? && max.None? ==> r.max == min
  {
    var min1 := if min.None? && max.Some? then Some(0) else min;
    var max1 := if max.None? && min1.Some? then min1 else max;
    Range(min1, max1)
  }

  /** RandomSleeper.java lines 76-84: the range checks, applied only when the range is set. */
  function RangeErrors(r: Range): seq<string>
    requires r.min.Some? <==> r.max.Some?
  {
    if r.min.None? then []
    else
      (if r.min.value < 0 then [NEGATIVE_SLEEP] else [])
      + (if r.max.value < r.min.value then [INVERTED_RANGE] else [])
  }

  /** postParse: the range it stores and the errors it adds; or how it stops. */
  function PostParseSpec(cl: CommandLine, r: Range): Result<(Range, seq<string>)>
  {
    var min :- GetNumberOr(cl, "sleepmin", r.min);
    var max :- GetNumberOr(cl, "sleepmax", r.max);
    var n := Normalised(min, max);
    Ok((n, RangeErrors(n)))
  }

  /** What sleep() does. */
  datatype Pause = NoPause | Pause(millis: int) | Throws(exception: string)

  /** Thread.sleep(millis): a negative timeout is refused. */
  function SleepFor(millis: int): Pause
  {
    if millis < 0 then Throws(ILLEGAL_ARGUMENT) else Pause(millis)
  }

  /**
   * sleep(), with the value random.nextInt(delta) would return as `draw`.
   * delta is the int difference of the two intValue()s; nextInt refuses a
   * negative bound, and the sum is long arithmetic.
   */
  function SleepSpec(r: Range, draw: int): (p: Pause)
    ensures p.Pause? ==> r.min.Some? && r.max.Some? && r.max.value > 0 && p.millis >= 0
    ensures p.NoPause? <==> r.min.None? || (r.max.Some? && r.max.value <= 0)
  {
    if r.min.None? then NoPause
    else if r.max.None? then Throws(NULL_POINTER)
    else if r.max.value <= 0 then NoPause
    else
      var delta := Wrap32(Wrap32(r.max.value) - Wrap32(r.min.value));
      if delta == 0 then SleepFor(r.min.value)
      else if delta < 0 then Throws(ILLEGAL_ARGUMENT)
      else SleepFor(Wrap64(r.min.value + draw))
  }

  class OptionSet {
    var sleepmin: Option<int>
    var sleepmax: Option<int>

    function Current(): Range
      reads this
    {
      Range(sleepmin, sleepmax)
    }

    constructor()
      ensures Current() == Range(None, None)
    {
      sleepmin, sleepmax := None, None;
    }

    /** postParse: the stored range and the driver's errors follow PostParseSpec. */
    method PostParse(driver: CLIDriver) returns (r: Result<()>)
      modifies this, driver
      ensures var spec := PostParseSpec(old(driver.cmd), old(Current()));
        && r.Ok? == spec.Ok?
        && (spec.Fail? ==> r.stop == spec.stop)
        && (spec.Ok? ==> Current() == spec.value.0 && driver.errors == old(driver.errors) + spec.value.1)
    {
      sleepmin :- GetNumberOr(driver.cmd, "sleepmin", sleepmin);
      sleepmax :- GetNumberOr(driver.cmd, "sleepmax", sleepmax);
      if sleepmin.None? && sleepmax.Some? {
        sleepmin := Some(0);
      }
      if sleepmax.None? && sleepmin.Some? {
        sleepmax := sleepmin;
      }
      if sleepmin.Some? {
        if sleepmin.value < 0 {
          driver.AddError(NEGATIVE_SLEEP);
        }
        if sleepmax.value < sleepmin.value {
          driver.AddError(INVERTED_RANGE);
        }
      }
      return Ok(());
    }
  }

  class RandomSleeper {
    const opts: OptionSet
    var verbose: bool

    constructor()
      ensures fresh(opts) && opts.Current() == Range(None, None) && !verbose
    {
      opts := new OptionSet();
      verbose := false;
    }

    /** setDefaultRange: the two range fields and nothing else. */
    method SetDefaultRange(sleepmin: Option<int>, sleepmax: Option<int>)
      modifies opts
      ensures opts.Current() == Range(sleepmin, sleepmax)
      ensures verbose == old(verbose)
    {
      opts.sleepmin := sleepmin;
      opts.sleepmax := sleepmax;
    }

    /** setVerbose: only the verbose flag. */
    method SetVerbose(verbose: bool)
      modifies this
      ensures this.verbose == verbose
    {
      this.verbose := verbose;
    }
  }

  // ---------------------------------------------------------------------------
  // What the option set and sleep() promise.

  /** After postParse the range is set exactly when either option or old value was, and errors name the bad range. */
  lemma PostParseRange(cl: CommandLine, r: Range)
    requires PostParseSpec(cl, r).Ok?
    ensures var (n, errors) := PostParseSpec(cl, r).value;
      && (n.min.Some? <==> n.max.Some?)
      && (NEGATIVE_SLEEP in errors <==> n.min.Some? && n.min.value < 0)
      && (INVERTED_RANGE in errors <==> n.min.Some? && n.max.value < n.min.value)
      && (errors == [] <==> n.min.None? || 0 <= n.min.value <= n.max.value)
  {
    assert |NEGATIVE_SLEEP| != |INVERTED_RANGE|;
  }

  /** Only --sleepmax given: the pause starts at 0.  Only --sleepmin given: the pause is fixed. */
  lemma LoneBounds(cl: CommandLine, n: int)
    ensures !HasOption(cl, "sleepmin") && HasOption(cl, "sleepmax") && cl.options["sleepmax"] == Whole(n) ==>
      PostParseSpec(cl, Range(None, None)).Ok? && PostParseSpec(cl, Range(None, None)).value.0 == Range(Some(0), Some(n))
    ensures HasOption(cl, "sleepmin") && cl.options["sleepmin"] == Whole(n) && !HasOption(cl, "sleepmax") ==>
      PostParseSpec(cl, Range(None, None)).Ok? && PostParseSpec(cl, Range(None, None)).value.0 == Range(Some(n), Some(n))
  {
  }

  /** sleep() does nothing unless the minimum is set and the maximum is positive. */
  lemma NoPauseUnlessSet(r: Range, draw: int)
    requires r.min.None? || (r.max.Some? && r.max.value <= 0)
    ensures SleepSpec(r, draw) == NoPause
  {
  }

  /**
   * A range that passed postParse's checks, within int range: the pause is
   * the minimum when the bounds agree, and otherwise the minimum plus the
   * draw, which nextInt keeps in [0, max - min), so it lies in [min, max).
   */
  lemma PauseBounds(r: Range, draw: int)
    requires r.min.Some? && r.max.Some? && 0 <= r.min.value <= r.max.value <= INT_MAX
    requires 0 < r.max.value
    requires r.min.value < r.max.value ==> 0 <= draw < r.max.value - r.min.value
    ensures SleepSpec(r, draw).Pause?
    ensures r.min.value == r.max.value ==> SleepSpec(r, draw).millis == r.min.value
    ensures r.min.value < r.max.value ==> r.min.value <= SleepSpec(r, draw).millis < r.max.value
  {
    assert Wrap32(r.max.value) - Wrap32(r.min.value) == r.max.value - r.min.value;
  }

  /**
   * A range set directly with a negative minimum and a positive maximum:
   * a draw that leaves the sum negative makes Thread.sleep throw.
   */
  lemma NegativeMinimumThrows(min: int, max: int, draw: int)
    requires INT_MIN <= min < 0 < max <= INT_MAX && max - min <= INT_MAX
    requires 0 <= draw < -min
    ensures SleepSpec(Range(Some(min), Some(max)), draw) == Throws(ILLEGAL_ARGUMENT)
  {
  }

  /** A range set directly with a minimum above the maximum makes nextInt throw. */
  lemma InvertedRangeThrows(min: int, max: int, draw: int)
    requires 0 < max < min <= INT_MAX
    ensures SleepSpec(Range(Some(min), Some(max)), draw) == Throws(ILLEGAL_ARGUMENT)
  {
  }
}
