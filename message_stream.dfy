/**
 * RMQMessageReader: a java.io.Reader that fills a caller's char[] from the
 * deliveries of a RabbitMQ queue consumer.
 *
 * The broker is abstracted as the sequence of things its blocking
 * nextDelivery() hands out: a delivery (tag and body), an interrupt of the
 * waiting thread, or a shutdown/cancellation signal. Bodies are already
 * decoded text.
 */
module MessageStream {
  import opened JavaLang

  /** One result of the consumer's blocking nextDelivery(). */
  datatype Event =
    | Delivery(tag: int, body: string)
    | Interrupted      // InterruptedException while waiting
    | ShutdownSignal   // ShutdownSignalException or ConsumerCancelledException

  /** How initRabbitMQ() ends: all broker calls succeed, newConnection() fails,
      createChannel() fails once the connection exists, or a later call
      (declare, bind, QoS, basicConsume) fails once both exist. */
  datatype InitResult = Opened | ConnectFailed | ChannelFailed | SetupFailed

  /** What the reader does to the outside world, in order. */
  datatype Action =
    | Initialised
    | Acked(tag: int)
    | Served(tag: int, count: nat)   // `count` characters of the delivery `tag` copied out
    | ChannelClosed
    | ConnectionClosed

  /** Why the copy loop of read() stops. */
  datatype Ending =
    | Satisfied   // `len` characters were copied
    | Interrupt   // the wait was interrupted
    | Failure     // shutdown or cancellation while waiting
    | Starved     // nothing more arrives: the real call would wait forever

  /** The outcome of one run of read()'s copy loop: the characters copied, the
      message left current, how many events have been taken in all, and why it stopped. */
  datatype Fill = Fill(text: string, current: string, next: nat, ending: Ending)

  /**
   * The copy loop of read(), starting from the current message with `need`
   * characters still wanted and `events[at..]` still to come: while the
   * message has characters, copy the first min(need, |message|) of them (the
   * read position is always 0); stop when `need` is met; otherwise take the
   * next event.
   */
  function FillFrom(message: string, events: seq<Event>, at: nat, need: nat): (f: Fill)
    requires at <= |events|
    ensures at <= f.next <= |events|
    decreases |events| - at
  {
    if message != [] && need <= |message| then
      Fill(message[..need], message, at, Satisfied)
    else if at == |events| then
      Fill(message, message, at, Starved)
    else
      match events[at]
      case Delivery(_, body) =>
        var f := FillFrom(body, events, at + 1, need - |message|);
        f.(text := message + f.text)
      case Interrupted => Fill(message, message, at + 1, Interrupt)
      case ShutdownSignal => Fill(message, message, at + 1, Failure)
  }

  /** The IOException message of a failed wait. */
  const READ_FAILURE: string := "Failed to read from the RabbitMQ stream."
  /** Stands for the IOException raised by the broker's own calls in initRabbitMQ(). */
  const INIT_FAILURE: string := "initRabbitMQ failed"

  /** What read() returns or throws; Waiting means it blocks forever. */
  datatype ReadResult = Returned(count: int) | Raised(message: string) | Waiting

  function ResultOf(ending: Ending, len: int): ReadResult
  {
    match ending
    case Satisfied => Returned(len)
    case Interrupt => Returned(-1)
    case Failure => Raised(READ_FAILURE)
    case Starved => Waiting
  }

  /** Tags of the deliveries among `events`, in order. */
  function DeliveryTags(events: seq<Event>): seq<int>
  {
    if events == [] then []
    else
      var last := events[|events| - 1];
      DeliveryTags(events[..|events| - 1]) + (if last.Delivery? then [last.tag] else [])
  }

  /** Tags acknowledged in `trace`, in order. */
  function AckedTags(trace: seq<Action>): seq<int>
  {
    if trace == [] then []
    else
      var last := trace[|trace| - 1];
      AckedTags(trace[..|trace| - 1]) + (if last.Acked? then [last.tag] else [])
  }

  /** Tags acknowledged in `trace`, as a set. */
  function AckSet(trace: seq<Action>): set<int>
  {
    if trace == [] then {}
    else
      var last := trace[|trace| - 1];
      AckSet(trace[..|trace| - 1]) + (if last.Acked? then {last.tag} else {})
  }

  /** Every copy from a delivery comes after that delivery's acknowledgement. */
  predicate AckedBeforeServed(trace: seq<Action>)
  {
    trace == [] ||
    var prefix, last := trace[..|trace| - 1], trace[|trace| - 1];
    AckedBeforeServed(prefix) && (last.Served? ==> last.tag in AckSet(prefix))
  }

  /** Concatenated bodies of the deliveries among events[from..to]. */
  function Bodies(events: seq<Event>, from: nat, to: nat): string
    requires from <= to <= |events|
    decreases |events| - from
  {
    if from == to then []
    else (if events[from].Delivery? then events[from].body else []) + Bodies(events, from + 1, to)
  }

  /**
   * The reader's record keeping: every delivery taken has been acknowledged,
   * in order; every copy from a delivery comes after its acknowledgement; a
   * non-empty current message is the body of an acknowledged delivery.
   */
  predicate Coherent(taken: seq<Event>, trace: seq<Action>, message: string, currentTag: Option<int>)
  {
    && AckedTags(trace) == DeliveryTags(taken)
    && AckedBeforeServed(trace)
    && (message != [] ==> currentTag.Some? && currentTag.value in AckSet(trace))
  }

  /** Logging anything but an acknowledgement keeps the records coherent;
      a copy must come from the current message. */
  lemma LogAction(taken: seq<Event>, trace: seq<Action>, message: string, currentTag: Option<int>, a: Action)
    requires Coherent(taken, trace, message, currentTag)
    requires !a.Acked?
    requires a.Served? ==> message != [] && a.tag == currentTag.value
    ensures Coherent(taken, trace + [a], message, currentTag)
  {
    assert (trace + [a])[..|trace|] == trace;
  }

  /** Taking a delivery, making its body current and acknowledging it keeps the records coherent. */
  lemma LogDelivery(taken: seq<Event>, trace: seq<Action>, message: string, currentTag: Option<int>, tag: int, body: string)
    requires Coherent(taken, trace, message, currentTag)
    ensures Coherent(taken + [Delivery(tag, body)], trace + [Acked(tag)], body, Some(tag))
  {
    assert (trace + [Acked(tag)])[..|trace|] == trace;
    assert (taken + [Delivery(tag, body)])[..|taken|] == taken;
  }

  /** Taking an interrupt or a shutdown signal keeps the records coherent. */
  lemma LogSignal(taken: seq<Event>, trace: seq<Action>, message: string, currentTag: Option<int>, e: Event)
    requires Coherent(taken, trace, message, currentTag)
    requires !e.Delivery?
    ensures Coherent(taken + [e], trace, message, currentTag)
  {
    assert (taken + [e])[..|taken|] == taken;
  }

  /** The records of the events taken so far gain one event. */
  lemma TakeOne(events: seq<Event>, n: nat)
    requires n < |events|
    ensures events[..n + 1] == events[..n] + [events[n]]
  {
  }

  // ---------------------------------------------------------------------------
  // Properties of the copy loop.

  /** A read never copies more than asked, and a satisfied read copies exactly `len`. */
  lemma {:induction false} FillLength(message: string, events: seq<Event>, at: nat, need: nat)
    requires at <= |events|
    ensures |FillFrom(message, events, at, need).text| <= need
    ensures FillFrom(message, events, at, need).ending == Satisfied ==>
      |FillFrom(message, events, at, need).text| == need
    decreases |events| - at
  {
    if !(message != [] && need <= |message|) && at < |events| && events[at].Delivery? {
      FillLength(events[at].body, events, at + 1, need - |message|);
    }
  }

  /**
   * Events are taken in order and none is skipped; the message left current
   * is the one the read started with if it took nothing, and otherwise the
   * body of the last event taken when that was a delivery.
   */
  lemma {:induction false} FillNext(message: string, events: seq<Event>, at: nat, need: nat)
    requires at <= |events|
    ensures var f := FillFrom(message, events, at, need);
      && (f.next == at ==> f.current == message)
      && (f.next > at && events[f.next - 1].Delivery? ==> f.current == events[f.next - 1].body)
    decreases |events| - at
  {
    if !(message != [] && need <= |message|) && at < |events| && events[at].Delivery? {
      FillNext(events[at].body, events, at + 1, need - |message|);
    }
  }

  /** A satisfied read ends on a non-empty current message. */
  lemma {:induction false} FillSatisfiedCurrent(message: string, events: seq<Event>, at: nat, need: nat)
    requires at <= |events|
    ensures FillFrom(message, events, at, need).ending == Satisfied ==>
      FillFrom(message, events, at, need).current != []
    decreases |events| - at
  {
    if !(message != [] && need <= |message|) && at < |events| && events[at].Delivery? {
      FillSatisfiedCurrent(events[at].body, events, at + 1, need - |message|);
    }
  }

  lemma PrefixExtend(a: string, b: string, c: string)
    requires b <= c
    ensures a + b <= a + c
  {
    assert (a + c)[..|a + b|] == a + b;
  }

  /**
   * No line terminator or other character is added: what a read copies is a
   * prefix of the current message followed by the bodies of the deliveries it
   * took, in delivery order.
   */
  lemma {:induction false} FillIsPrefixOfStream(message: string, events: seq<Event>, at: nat, need: nat)
    requires at <= |events|
    ensures var f := FillFrom(message, events, at, need);
      f.text <= message + Bodies(events, at, f.next)
    decreases |events| - at
  {
    FillNext(message, events, at, need);
    if !(message != [] && need <= |message|) && at < |events| && events[at].Delivery? {
      var body := events[at].body;
      var g := FillFrom(body, events, at + 1, need - |message|);
      FillIsPrefixOfStream(body, events, at + 1, need - |message|);
      assert Bodies(events, at, g.next) == body + Bodies(events, at + 1, g.next);
      PrefixExtend(message, g.text, body + Bodies(events, at + 1, g.next));
      assert message + (body + Bodies(events, at + 1, g.next)) == message + Bodies(events, at, g.next);
    }
  }

  /**
   * Because the read position is never advanced, a read that is satisfied
   * leaves its last message current, and the next read copies that message
   * again from its first character, taking no event.
   */
  lemma ReadAgainFromStart(message: string, events: seq<Event>, at: nat, need: nat, need': nat)
    requires at <= |events|
    requires FillFrom(message, events, at, need).ending == Satisfied
    requires need' <= |FillFrom(message, events, at, need).current|
    ensures var f := FillFrom(message, events, at, need);
      FillFrom(f.current, events, f.next, need') == Fill(f.current[..need'], f.current, f.next, Satisfied)
  {
    FillNext(message, events, at, need);
    FillSatisfiedCurrent(message, events, at, need);
  }

  /** Whatever else happens, a read starts by copying the head of the current message. */
  lemma StartsWithCurrent(message: string, events: seq<Event>, at: nat, need: nat)
    requires at <= |events|
    ensures var k := if need < |message| then need else |message|;
      var t := FillFrom(message, events, at, need).text;
      |t| >= k && t[..k] == message[..k]
  {
  }

  /** `g` is what remains of the read `f` once its first `done` characters are copied. */
  predicate Rest(g: Fill, f: Fill, done: nat)
  {
    && g.current == f.current && g.next == f.next && g.ending == f.ending
    && done + |g.text| == |f.text|
    && forall i :: 0 <= i < |g.text| ==> g.text[i] == f.text[done + i]
  }

  /** One copy step of the loop: the next `k` characters of the read are the head of the message. */
  lemma CopyStep(message: string, events: seq<Event>, at: nat, need: nat, f: Fill, done: nat)
    requires at <= |events| && message != []
    requires Rest(FillFrom(message, events, at, need), f, done)
    ensures var k := if need < |message| then need else |message|;
      && done + k <= |f.text|
      && (forall i :: done <= i < done + k ==> f.text[i] == message[i - done])
      && (k == need ==>
            f.ending == Satisfied && f.next == at && f.current == message && done + k == |f.text|)
  {
    StartsWithCurrent(message, events, at, need);
  }

  /** One fetch step of the loop, after the whole message has been copied. */
  lemma FetchStep(message: string, events: seq<Event>, at: nat, need: nat, f: Fill, done: nat)
    requires at <= |events| && !(message != [] && need <= |message|)
    requires Rest(FillFrom(message, events, at, need), f, done)
    ensures done + |message| <= |f.text|
    ensures at == |events| ==>
      f.ending == Starved && f.next == at && f.current == message && |f.text| == done + |message|
    ensures at < |events| && events[at].Delivery? ==>
      Rest(FillFrom(events[at].body, events, at + 1, need - |message|), f, done + |message|)
    ensures at < |events| && !events[at].Delivery? ==>
      && f.ending == (if events[at].Interrupted? then Interrupt else Failure)
      && f.next == at + 1 && f.current == message && |f.text| == done + |message|
  {
    if at < |events| && events[at].Delivery? {
      var g := FillFrom(events[at].body, events, at + 1, need - |message|);
      var h := FillFrom(message, events, at, need);
      assert h.text == message + g.text;
      forall i | 0 <= i < |g.text|
        ensures g.text[i] == f.text[done + |message| + i]
      {
        assert h.text[|message| + i] == g.text[i];
      }
    }
  }

  // ---------------------------------------------------------------------------
  // The reader.

  /**
   * `a` holds `before`, except that its cells from `at` on hold the first
   * `n` characters of `text`.
   */
  ghost predicate Placed(a: array<char>, before: seq<char>, at: int, text: string, n: int)
    reads a
  {
    && a.Length == |before| && 0 <= at && 0 <= n <= |text| && at + n <= a.Length
    && forall i :: 0 <= i < a.Length ==>
      a[i] == if at <= i < at + n then text[i - at] else before[i]
  }

  /**
   * String.getChars(srcBegin, srcEnd, dst, dstBegin): copies src[srcBegin..srcEnd]
   * to dst[dstBegin..] and touches nothing else.
   */
  method GetChars(src: string, srcBegin: int, srcEnd: int, dst: array<char>, dstBegin: int)
    requires 0 <= srcBegin <= srcEnd <= |src|
    requires 0 <= dstBegin && dstBegin + (srcEnd - srcBegin) <= dst.Length
    modifies dst
    ensures Placed(dst, old(dst[..]), dstBegin, src[srcBegin..], srcEnd - srcBegin)
  {
    forall i | dstBegin <= i < dstBegin + (srcEnd - srcBegin) {
      dst[i] := src[srcBegin + i - dstBegin];
    }
  }

  /** Writing `k` more characters of `text` right after the first `n`. */
  lemma PlaceMore(a: array<char>, before: seq<char>, mid: seq<char>, at: int, text: string, n: int, piece: string, k: int)
    requires a.Length == |mid| == |before| && 0 <= at && 0 <= n && 0 <= k && n <= |text| && at + n <= |mid|
    requires forall i :: 0 <= i < |mid| ==> mid[i] == if at <= i < at + n then text[i - at] else before[i]
    requires Placed(a, mid, at + n, piece, k)
    requires n + k <= |text| && forall i :: n <= i < n + k ==> text[i] == piece[i - n]
    ensures Placed(a, before, at, text, n + k)
  {
  }

  class RMQMessageReader {
    // Non-null-ness of the broker handles.
    var factory: bool
    var connection: bool
    var channel: bool
    var consumer: bool
    /** Current message (never null). */
    var message: string
    /** Position to continue character extraction. */
    var messagePos: int
    /** Everything the consumer's nextDelivery() hands out over the reader's life, in order. */
    const events: seq<Event>
    /** How many of `events` have been handed out. */
    var next: nat

    ghost var trace: seq<Action>
    /** Tag of the delivery whose body is `message`. */
    ghost var currentTag: Option<int>
    /** How many times initRabbitMQ() ran. */
    ghost var inits: nat

    ghost predicate Valid()
      reads this
    {
      && next <= |events|
      && messagePos == 0 && messagePos <= |message|
      && channel == connection == consumer == factory
      && Coherent(events[..next], trace, message, currentTag)
    }

    constructor (events: seq<Event>)
      ensures Valid()
      ensures this.events == events && next == 0
      ensures !factory && message == [] && messagePos == 0
      ensures trace == [] && inits == 0
    {
      this.events := events;
      next := 0;
      factory, connection, channel, consumer := false, false, false, false;
      message, messagePos := [], 0;
      trace, currentTag, inits := [], None, 0;
    }

    /** close(): release channel and connection (each only if held), forget the factory and consumer. */
    method Close()
      requires Valid()
      modifies this
      ensures Valid()
      ensures !factory && !connection && !channel && !consumer
      ensures trace == old(trace)
        + (if old(channel) then [ChannelClosed] else [])
        + (if old(connection) then [ConnectionClosed] else [])
      ensures message == old(message) && messagePos == old(messagePos) && next == old(next)
      ensures currentTag == old(currentTag) && inits == old(inits)
    {
      if channel {
        LogAction(events[..next], trace, message, currentTag, ChannelClosed);
        trace := trace + [ChannelClosed];
        channel := false;
      }
      if connection {
        LogAction(events[..next], trace, message, currentTag, ConnectionClosed);
        trace := trace + [ConnectionClosed];
        connection := false;
      }
      factory := false;
      consumer := false;
    }

    /** The one-time initialisation guard of read(): initRabbitMQ() runs only while the factory is null. */
    method EnsureInitialised(init: InitResult) returns (ok: bool)
      requires Valid()
      modifies this
      ensures Valid()
      ensures ok <==> old(factory) || init == Opened
      ensures ok ==> factory
      ensures !ok ==> !factory
      ensures inits == old(inits) + (if old(factory) then 0 else 1)
      ensures trace == old(trace) + (
        if old(factory) then []
        else match init
          case Opened => [Initialised]
          case ConnectFailed => []
          case ChannelFailed => [ConnectionClosed]
          case SetupFailed => [ChannelClosed, ConnectionClosed])
      ensures message == old(message) && next == old(next) && currentTag == old(currentTag)
    {
      ok := true;
      if !factory {
        inits := inits + 1;
        match init {
          case Opened =>
            LogAction(events[..next], trace, message, currentTag, Initialised);
            trace := trace + [Initialised];
            factory, connection, channel, consumer := true, true, true, true;
          case ConnectFailed =>
            // newConnection() threw: close() finds nothing to release.
            Close();
            ok := false;
          case ChannelFailed =>
            // createChannel() threw: close() finds the connection only and releases it.
            LogAction(events[..next], trace, message, currentTag, ConnectionClosed);
            trace := trace + [ConnectionClosed];
            ok := false;
          case SetupFailed =>
            // A broker call after createChannel() threw: close() releases both.
            factory, connection, channel := true, true, true;
            consumer := true;
            Close();
            ok := false;
        }
      }
    }

    /**
     * consumer.nextDelivery() and, for a delivery, new String(body) as the
     * current message and basicAck of its tag. Java's exceptions out of
     * nextDelivery() leave the message as it was.
     */
    method NextDelivery() returns (e: Event)
      requires Valid() && factory && next < |events|
      modifies this
      ensures Valid() && factory && connection == old(connection)
      ensures e == events[old(next)] && next == old(next) + 1
      ensures e.Delivery? ==>
        message == e.body && trace == old(trace) + [Acked(e.tag)] && currentTag == Some(e.tag)
      ensures !e.Delivery? ==>
        message == old(message) && trace == old(trace) && currentTag == old(currentTag)
      ensures messagePos == 0 && inits == old(inits)
    {
      e := events[next];
      TakeOne(events, next);
      if e.Delivery? {
        LogDelivery(events[..next], trace, message, currentTag, e.tag, e.body);
        next := next + 1;
        message := e.body;
        messagePos := 0;
        trace := trace + [Acked(e.tag)];
        currentTag := Some(e.tag);
      } else {
        LogSignal(events[..next], trace, message, currentTag, e);
        next := next + 1;
      }
    }

    /**
     * read(cbuf, off, len). `init` is how initRabbitMQ() would end if it runs.
     * Characters go to cbuf[off..]; nothing outside cbuf[off, off + len) is
     * written.
     */
    method Read(cbuf: array<char>, off: int, len: int, init: InitResult) returns (r: ReadResult)
      requires Valid()
      requires 0 <= off && 0 <= len && off + len <= cbuf.Length
      modifies this, cbuf
      ensures Valid()
      ensures old(trace) <= trace
      ensures inits == old(inits) + (if old(factory) then 0 else 1)
      ensures !old(factory) && init != Opened ==>
        && r == Raised(INIT_FAILURE) && !factory
        && cbuf[..] == old(cbuf[..]) && message == old(message) && next == old(next)
      ensures old(factory) || init == Opened ==>
        var f := FillFrom(old(message), events, old(next), len);
        && |f.text| <= len
        && (forall i :: off <= i < off + |f.text| ==> cbuf[i] == f.text[i - off])
        && (forall i :: 0 <= i < cbuf.Length && !(off <= i < off + |f.text|) ==> cbuf[i] == old(cbuf[i]))
        && message == f.current && next == f.next
        && r == ResultOf(f.ending, len)
        && (f.ending == Satisfied || f.ending == Starved <==> factory)
    {
      // One time initialisation of the stream.
      var ok := EnsureInitialised(init);
      if !ok {
        return Raised(INIT_FAILURE);
      }
      r := Transfer(cbuf, off, len);
    }

    /** Copy the rest of the current message, at most `room` characters of it, to cbuf[at..]. */
    method CopyOut(cbuf: array<char>, at: int, room: int) returns (toRead: int)
      requires Valid() && factory && messagePos < |message|
      requires 0 <= at && 0 <= room && at + room <= cbuf.Length
      modifies this`trace, cbuf
      ensures Valid()
      ensures toRead == if room < |message| then room else |message|
      ensures trace == old(trace) + [Served(currentTag.value, toRead)]
      ensures Placed(cbuf, old(cbuf[..]), at, message, toRead)
    {
      toRead := if room < |message| - messagePos then room else |message| - messagePos;
      GetChars(message, messagePos, toRead, cbuf, at);
      LogAction(events[..next], trace, message, currentTag, Served(currentTag.value, toRead));
      trace := trace + [Served(currentTag.value, toRead)];
    }

    /**
     * The copy block of read()'s loop body: pull some or all remaining
     * characters from the current message into cbuf[off + wasRead..].
     */
    method CopyPhase(cbuf: array<char>, off: int, len: int, wasRead: int, ghost f0: Fill, ghost c0: seq<char>)
      returns (w: int)
      requires Valid() && factory && messagePos < |message|
      requires 0 <= off && 0 <= wasRead <= len && off + len <= cbuf.Length && wasRead <= |f0.text|
      requires Rest(FillFrom(message, events, next, len - wasRead), f0, wasRead)
      requires Placed(cbuf, c0, off, f0.text, wasRead)
      modifies this`trace, cbuf
      ensures Valid() && old(trace) <= trace
      ensures w == wasRead + (if len - wasRead < |message| then len - wasRead else |message|)
      ensures w <= |f0.text| && Placed(cbuf, c0, off, f0.text, w)
      ensures w == len ==> f0.ending == Satisfied && f0.next == next && f0.current == message && w == |f0.text|
    {
      CopyStep(message, events, next, len - wasRead, f0, wasRead);
      ghost var c1 := cbuf[..];
      var toRead := CopyOut(cbuf, off + wasRead, len - wasRead);
      PlaceMore(cbuf, c0, c1, off, f0.text, wasRead, message, toRead);
      w := wasRead + toRead;
    }

    /** The try block around nextDelivery(): a signal closes the reader. */
    method Fetch() returns (e: Event)
      requires Valid() && factory && next < |events|
      modifies this
      ensures Valid() && inits == old(inits) && old(trace) <= trace
      ensures e == events[old(next)] && next == old(next) + 1
      ensures e.Delivery? ==> message == e.body && factory
      ensures !e.Delivery? ==> message == old(message) && !factory
    {
      e := NextDelivery();
      if !e.Delivery? {
        Close();
      }
    }

    /**
     * The try block of read()'s loop body, with the current message used up
     * and `need` characters still wanted: take the next delivery, or end the
     * read on a signal (Some(Returned(-1)) is the `wasRead = -1` exit).
     * With nothing left in `events` the consumer would block: Waiting.
     */
    method FetchPhase(ghost f0: Fill, ghost need: int, ghost done: int) returns (stop: Option<ReadResult>)
      requires Valid() && factory && 0 <= need && 0 <= done
      requires !(message != [] && need <= |message|)
      requires Rest(FillFrom(message, events, next, need), f0, done)
      modifies this
      ensures Valid() && old(trace) <= trace && inits == old(inits)
      ensures done + |old(message)| <= |f0.text|
      ensures stop.None? ==>
        && factory && next == old(next) + 1
        && Rest(FillFrom(message, events, next, need - |old(message)|), f0, done + |old(message)|)
      ensures stop.Some? ==>
        && f0.ending != Satisfied && |f0.text| == done + |old(message)|
        && message == f0.current && next == f0.next
        && stop.value == ResultOf(f0.ending, need)
        && (f0.ending == Starved <==> factory)
    {
      FetchStep(message, events, next, need, f0, done);
      if next == |events| {
        return Some(Waiting);
      }
      var event := Fetch();
      match event {
        case Delivery(_, _) =>
          stop := None;
        case ShutdownSignal =>
          stop := Some(Raised(READ_FAILURE));
        case Interrupted =>
          stop := Some(Returned(-1));
      }
    }

    /**
     * One pass of read()'s loop body, with `wasRead` characters already in
     * cbuf[off..]: copy from the current message and, if the request is
     * still open, take the next delivery. `stop` is what read() then
     * returns, or None when the loop goes round again.
     */
    method Step(cbuf: array<char>, off: int, len: int, wasRead: int, ghost f0: Fill, ghost c0: seq<char>)
      returns (w: int, stop: Option<ReadResult>)
      requires Valid() && factory
      requires 0 <= off && 0 <= wasRead <= len && off + len <= cbuf.Length && wasRead <= |f0.text|
      requires Rest(FillFrom(message, events, next, len - wasRead), f0, wasRead)
      requires Placed(cbuf, c0, off, f0.text, wasRead)
      modifies this, cbuf
      ensures Valid() && old(trace) <= trace && inits == old(inits)
      ensures stop.None? ==>
        && factory && next == old(next) + 1 && 0 <= w <= len && w <= |f0.text|
        && Rest(FillFrom(message, events, next, len - w), f0, w)
        && Placed(cbuf, c0, off, f0.text, w)
      ensures stop.Some? ==>
        && Placed(cbuf, c0, off, f0.text, |f0.text|)
        && message == f0.current && next == f0.next
        && stop.value == ResultOf(f0.ending, len)
        && (f0.ending == Satisfied || f0.ending == Starved <==> factory)
    {
      w := wasRead;
      if messagePos < |message| {
        w := CopyPhase(cbuf, off, len, wasRead, f0, c0);
        if w == len {
          return w, Some(Returned(w));
        }
      }
      // Buffer still needs feeding: get another message.
      stop := FetchPhase(f0, len - wasRead, wasRead);
    }

    /**
     * The copy loop of read(): move characters into the buffer and take new
     * messages until the request is satisfied. Each delivery is acknowledged
     * as soon as it is received, before any of its characters are copied.
     */
    method Transfer(cbuf: array<char>, off: int, len: int) returns (r: ReadResult)
      requires Valid() && factory
      requires 0 <= off && 0 <= len && off + len <= cbuf.Length
      modifies this, cbuf
      ensures Valid() && old(trace) <= trace && inits == old(inits)
      ensures var f := FillFrom(old(message), events, old(next), len);
        && |f.text| <= len
        && Placed(cbuf, old(cbuf[..]), off, f.text, |f.text|)
        && message == f.current && next == f.next
        && r == ResultOf(f.ending, len)
        && (f.ending == Satisfied || f.ending == Starved <==> factory)
    {
      ghost var f0 := FillFrom(message, events, next, len);
      FillLength(message, events, next, len);
      ghost var c0 := cbuf[..];
      var wasRead := 0;
      while true
        invariant Valid() && factory && 0 <= wasRead <= len && wasRead <= |f0.text|
        invariant Rest(FillFrom(message, events, next, len - wasRead), f0, wasRead)
        invariant Placed(cbuf, c0, off, f0.text, wasRead)
        invariant old(trace) <= trace && inits == old(inits)
        decreases |events| - next
      {
        var stop;
        wasRead, stop := Step(cbuf, off, len, wasRead, f0, c0);
        if stop.Some? {
          return stop.value;
        }
      }
    }
  }

  /** Closing twice releases nothing the second time. */
  method CloseTwice(reader: RMQMessageReader)
    requires reader.Valid()
    modifies reader
    ensures reader.Valid() && !reader.factory
    ensures reader.trace == old(reader.trace)
      + (if old(reader.channel) then [ChannelClosed] else [])
      + (if old(reader.connection) then [ConnectionClosed] else [])
  {
    reader.Close();
    reader.Close();
  }
}
