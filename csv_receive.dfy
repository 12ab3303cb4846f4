/**
 * The test receiver's handling of one delivery: ack it, strip the trailing
 * dots of the message, report it and pause one second per dot.
 */
module CsvReceive {
  import opened JavaLang

  /** The number of '.' characters that end s. */
  function TrailingDots(s: string): (n: nat)
    ensures n <= |s|
    ensures forall k :: |s| - n <= k < |s| ==> s[k] == '.'
    ensures n < |s| ==> s[|s| - 1 - n] != '.'
  {
    if s != [] && s[|s| - 1] == '.' then 1 + TrailingDots(s[..|s| - 1]) else 0
  }

  function Dots(n: nat): (r: string)
    ensures |r| == n && forall k :: 0 <= k < n ==> r[k] == '.'
  {
    seq(n, _ => '.')
  }

  /**
   * RMQCSVReceive.java lines 70-78: the descending scan from the last character, stopped by the
   * first character that is not a dot.  A Java string is shorter than 2^31,
   * so dotCount++ does not overflow.
   */
  method DotCount(message: string) returns (dotCount: int)
    ensures dotCount == TrailingDots(message)
  {
    dotCount := 0;
    var i := |message| - 1;
    while i >= 0
      invariant -1 <= i < |message|
      invariant dotCount == |message| - 1 - i
      invariant forall k :: i < k < |message| ==> message[k] == '.'
      decreases i + 1
    {
      if message[i] == '.' {
        dotCount := dotCount + 1;
      } else {
        break;
      }
      i := i - 1;
    }
    TrailingDotsExact(message, dotCount);
  }

  /** A run of dots that ends s and is not preceded by a dot is the trailing run. */
  lemma TrailingDotsExact(s: string, n: nat)
    requires n <= |s|
    requires forall k :: |s| - n <= k < |s| ==> s[k] == '.'
    requires n < |s| ==> s[|s| - 1 - n] != '.'
    ensures TrailingDots(s) == n
  {
  }

  /** RMQCSVReceive.java lines 70-81: the dot count and the message without its trailing dots. */
  method Strip(message: string) returns (stripped: string, dotCount: int)
    ensures dotCount == TrailingDots(message)
    ensures stripped == message[..|message| - dotCount]
  {
    dotCount := DotCount(message);
    stripped := message;
    if dotCount > 0 {
      stripped := message[..|message| - dotCount];
    }
  }

  /** RMQCSVReceive.java line 83: dotCount * 1000 is int arithmetic. */
  function PauseMillis(dotCount: int): int
  {
    Wrap32(dotCount * 1000)
  }

  // ---------------------------------------------------------------------------
  // What the stripping promises.

  /** The stripped message followed by the dots is the message, and it does not end in a dot. */
  lemma StripRoundTrip(message: string)
    ensures var n := TrailingDots(message); var stripped := message[..|message| - n];
      && stripped + Dots(n) == message
      && (stripped == [] || stripped[|stripped| - 1] != '.')
  {
    var n := TrailingDots(message);
    var stripped := message[..|message| - n];
    assert forall k :: 0 <= k < |message| ==> (stripped + Dots(n))[k] == message[k];
  }

  /** A message that does not end in a dot is left as it is, with no pause. */
  lemma NoTrailingDot(message: string)
    requires message == [] || message[|message| - 1] != '.'
    ensures TrailingDots(message) == 0 && PauseMillis(TrailingDots(message)) == 0
  {
  }

  /** A message of dots only becomes empty, and every dot counts. */
  lemma AllDots(n: nat)
    ensures TrailingDots(Dots(n)) == n && Dots(n)[..|Dots(n)| - n] == []
  {
    TrailingDotsExact(Dots(n), n);
  }

  /**
   * The pause is one second per dot for up to 2147483 dots; from 2147484 to
   * 4294967 dots the int product is negative, and past that it wraps round
   * to positive values again.
   */
  lemma PauseLength(dotCount: nat)
    ensures dotCount <= 2147483 ==> PauseMillis(dotCount) == dotCount * 1000
    ensures 2147484 <= dotCount <= 4294967 ==> PauseMillis(dotCount) == dotCount * 1000 - 0x1_0000_0000 < 0
    ensures PauseMillis(4294968) == 704
  {
  }

  // ---------------------------------------------------------------------------
  // One delivery.

  /** What the receiver does to the broker, the console and the clock, in order. */
  datatype Action =
    | Acked(tag: int)
    | Reported(message: string)
    | Paused(millis: int)
    | SleepRefused(millis: int)   // Thread.sleep's IllegalArgumentException for a negative timeout

  class Receiver {
    /** The actions taken, in order. */
    var log: seq<Action>

    constructor()
      ensures log == []
    {
      log := [];
    }

    /**
     * RMQCSVReceive.java lines 66-83: the delivery is acked before its text is looked at; the
     * receive loop goes on (`ok`) unless the pause is negative, when
     * Thread.sleep throws and ends the receiver.
     */
    method Handle(tag: int, body: string) returns (ok: bool)
      modifies this
      ensures var n := TrailingDots(body); var millis := PauseMillis(n);
        && ok == (millis >= 0)
        && log == old(log) + [Acked(tag), Reported(body[..|body| - n]), if ok then Paused(millis) else SleepRefused(millis)]
    {
      log := log + [Acked(tag)];
      var stripped, dotCount := Strip(body);
      log := log + [Reported(stripped)];
      var millis := PauseMillis(dotCount);
      if millis < 0 {
        log := log + [SleepRefused(millis)];
        return false;
      }
      log := log + [Paused(millis)];
      return true;
    }
  }
}
