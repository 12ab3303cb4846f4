/**
 * RMQBulkLoader: the consumer side of the bulk loader. CSV rows parsed from
 * the message stream are handed out by a look-ahead iterator, each row goes to
 * the VoltDB loader, failed inserts are counted against an error budget, and
 * shutdown releases consumer, loader and client in that order.
 *
 * The CSV tokenizer is abstracted as the sequence of results its read()
 * returns call after call; beyond that sequence it reports end of input.
 */
module BulkLoad {
  import opened JavaLang

  /** One result of CsvListReader.read(): a row (its fields and its untokenized text), end of input, or an IOException. */
  datatype CsvRead =
    | Row(fields: seq<string>, rawText: string)
    | EndOfInput
    | ReadError

  /** org.voltdb.utils.RowWithMetaData: the raw line and its 1-based number. */
  datatype RowWithMetaData = RowWithMetaData(rawLine: string, lineNumber: int)

  /** BulkLoaderData: a row's metadata and its values. */
  datatype BulkLoaderData = BulkLoaderData(metaData: RowWithMetaData, rowData: seq<string>)

  /** What the tokenizer's `calls`-th read() returns. */
  function ReadAt(source: seq<CsvRead>, calls: nat): CsvRead
  {
    if calls < |source| then source[calls] else EndOfInput
  }

  // ---------------------------------------------------------------------------
  // ConnectorDataIterator, on values.

  /** The iterator's fields (m_rowCache, m_count, m_done) and how many rows the tokenizer has been asked for. */
  datatype IterState = IterState(calls: nat, cache: Option<BulkLoaderData>, count: int, done: bool)

  /** The row the iterator caches for the result `item` of the tokenizer, numbered `number`. */
  function RowOf(item: CsvRead, number: int): BulkLoaderData
    requires item.Row?
  {
    BulkLoaderData(RowWithMetaData(item.rawText, number), item.fields)
  }

  /** The state after cacheRowAsNeeded(). */
  function Cached(source: seq<CsvRead>, s: IterState): IterState
  {
    if !s.done && s.cache.None? then
      var item := ReadAt(source, s.calls);
      if item.Row? then
        var count := Int32Inc(s.count);
        IterState(s.calls + 1, Some(RowOf(item, count)), count, false)
      else
        IterState(s.calls + 1, None, s.count, true)
    else s
  }

  /** The state after next(): the cached row is handed out and dropped. */
  function Taken(source: seq<CsvRead>, s: IterState): IterState
  {
    Cached(source, s).(cache := None)
  }

  /** The iterator's own invariant: once done, nothing is cached. */
  predicate Sane(s: IterState)
  {
    s.done ==> s.cache.None?
  }

  /** Calling hasNext() `k` times in a row. */
  function CachedTimes(source: seq<CsvRead>, s: IterState, k: nat): IterState
  {
    if k == 0 then s else Cached(source, CachedTimes(source, s, k - 1))
  }

  /** Both operations keep the invariant; hasNext() answers true exactly when a row is cached. */
  lemma CachedSane(source: seq<CsvRead>, s: IterState)
    requires Sane(s)
    ensures Sane(Cached(source, s)) && Sane(Taken(source, s))
    ensures !Cached(source, s).done <==> Cached(source, s).cache.Some?
  {
  }

  /** hasNext() never consumes: asking again changes nothing and gives the same answer. */
  lemma CachedIdempotent(source: seq<CsvRead>, s: IterState)
    requires Sane(s)
    ensures Cached(source, Cached(source, s)) == Cached(source, s)
  {
  }

  /** Any number of hasNext() calls read the tokenizer at most once and agree with the first. */
  lemma {:induction false} CachedTimesOnce(source: seq<CsvRead>, s: IterState, k: nat)
    requires Sane(s) && k >= 1
    ensures CachedTimes(source, s, k) == Cached(source, s)
    ensures CachedTimes(source, s, k).calls <= s.calls + 1
  {
    if k > 1 {
      CachedTimesOnce(source, s, k - 1);
      CachedIdempotent(source, s);
    }
  }

  /** next() hands out the row hasNext() would have cached, and leaves the cache empty. */
  lemma TakenEmptiesCache(source: seq<CsvRead>, s: IterState)
    ensures Taken(source, s).cache.None?
    ensures Taken(source, s).calls == Cached(source, s).calls
    ensures s.cache.Some? ==> Taken(source, s) == s.(cache := None)
  {
  }

  /** A successful read raises the count by one (Java int arithmetic) and numbers the row with the new count. */
  lemma RowNumbering(source: seq<CsvRead>, s: IterState)
    requires !s.done && s.cache.None? && ReadAt(source, s.calls).Row?
    ensures var t := Cached(source, s);
      && t.calls == s.calls + 1 && t.count == Int32Inc(s.count) && !t.done
      && t.cache.Some?
      && t.cache.value.metaData == RowWithMetaData(source[s.calls].rawText, t.count)
      && t.cache.value.rowData == source[s.calls].fields
  {
  }

  /** End of input or a read error ends the iteration at that point: the bad row is not skipped. */
  lemma FailureEnds(source: seq<CsvRead>, s: IterState)
    requires !s.done && s.cache.None? && !ReadAt(source, s.calls).Row?
    ensures Cached(source, s) == IterState(s.calls + 1, None, s.count, true)
  {
  }

  /** Once done, no further reads happen, hasNext() is false for ever and next() returns null. */
  lemma DoneForever(source: seq<CsvRead>, s: IterState, k: nat)
    requires Sane(s) && s.done
    ensures CachedTimes(source, s, k) == s
    ensures Taken(source, s) == s && Cached(source, s).cache.None?
  {
  }

  // ---------------------------------------------------------------------------
  // What a full iteration yields.

  /**
   * The rows the iterator hands out when the tokenizer is at call `from` and
   * the count is `count`: every row up to the first end or error.
   */
  function RowsFrom(source: seq<CsvRead>, from: nat, count: int): seq<BulkLoaderData>
    decreases |source| - from
  {
    if from < |source| && source[from].Row? then
      [RowOf(source[from], Int32Inc(count))] + RowsFrom(source, from + 1, Int32Inc(count))
    else []
  }

  /** How many results from call `from` on are rows: the run that ends at the first end or error. */
  function RowRun(source: seq<CsvRead>, from: nat): (n: nat)
    requires from <= |source|
    ensures from + n <= |source|
    ensures forall i :: from <= i < from + n ==> source[i].Row?
    ensures from + n < |source| ==> !source[from + n].Row?
    decreases |source| - from
  {
    if from < |source| && source[from].Row? then 1 + RowRun(source, from + 1) else 0
  }

  /**
   * The iteration from call `from` yields one row per result of the run of
   * rows there, the k-th being that result numbered from the starting count
   * on: with no int overflow, count + 1, count + 2, ...
   */
  lemma {:induction false} RowsFromNumbered(source: seq<CsvRead>, from: nat, count: int)
    requires from <= |source| && IsInt32(count) && count + (|source| - from) <= INT_MAX
    ensures |RowsFrom(source, from, count)| == RowRun(source, from)
    ensures forall k :: 0 <= k < RowRun(source, from) ==>
      RowsFrom(source, from, count)[k] == RowOf(source[from + k], count + k + 1)
    decreases |source| - from
  {
    if from < |source| && source[from].Row? {
      RowsFromNumbered(source, from + 1, count + 1);
      var rest := RowsFrom(source, from + 1, count + 1);
      forall k | 1 <= k < 1 + |rest|
        ensures RowsFrom(source, from, count)[k] == rest[k - 1]
      {
      }
    }
  }

  /**
   * One turn of the for loop from a state with nothing cached: hasNext() is
   * false exactly when no rows remain; otherwise next() hands out the first
   * remaining row without a second read, and the rest remain.
   */
  lemma ForLoopStep(source: seq<CsvRead>, s: IterState)
    requires !s.done && s.cache.None?
    ensures var t := Cached(source, s);
      && (t.done <==> RowsFrom(source, s.calls, s.count) == [])
      && (!t.done ==>
            && s.calls < |source| && t.cache.Some?
            && Cached(source, t).cache == t.cache && Taken(source, t) == t.(cache := None)
            && RowsFrom(source, s.calls, s.count) == [t.cache.value] + RowsFrom(source, t.calls, t.count))
  {
    if ReadAt(source, s.calls).Row? {
      RowNumbering(source, s);
      TakenEmptiesCache(source, Cached(source, s));
    } else {
      FailureEnds(source, s);
    }
  }

  /** From the start, the iteration yields exactly the leading rows, numbered 1, 2, ... */
  lemma IterationYieldsLeadingRows(source: seq<CsvRead>)
    requires |source| <= INT_MAX
    ensures |RowsFrom(source, 0, 0)| == RowRun(source, 0)
    ensures forall k :: 0 <= k < RowRun(source, 0) ==>
      RowsFrom(source, 0, 0)[k] == BulkLoaderData(RowWithMetaData(source[k].rawText, k + 1), source[k].fields)
  {
    RowsFromNumbered(source, 0, 0);
  }

  // ---------------------------------------------------------------------------
  // The iterator object.

  class ConnectorDataIterator {
    /** What the tokenizer's read() returns, call after call. */
    const source: seq<CsvRead>
    var calls: nat
    /** Caching the data for one row allows hasNext() to look ahead. */
    var rowCache: Option<BulkLoaderData>
    /** Row count. */
    var count: int
    /** Set when done. */
    var done: bool

    function State(): IterState
      reads this
    {
      IterState(calls, rowCache, count, done)
    }

    constructor (source: seq<CsvRead>)
      ensures this.source == source && State() == IterState(0, None, 0, false)
    {
      this.source := source;
      calls, rowCache, count, done := 0, None, 0, false;
    }

    /** Check if a row is already cached or attempt to cache the next one. */
    method CacheRowAsNeeded() returns (available: bool)
      modifies this
      ensures State() == Cached(source, old(State()))
      ensures available == !done
    {
      if !done && rowCache.None? {
        var item := ReadAt(source, calls);
        calls := calls + 1;
        match item {
          case Row(fields, rawText) =>
            count := Int32Inc(count);
            rowCache := Some(BulkLoaderData(RowWithMetaData(rawText, count), fields));
          case EndOfInput =>
          case ReadError =>
            // The IOException is printed and swallowed.
            rowCache := None;
        }
        done := rowCache.None?;
      }
      available := !done;
    }

    method HasNext() returns (b: bool)
      modifies this
      ensures State() == Cached(source, old(State()))
      ensures b == !done
    {
      b := CacheRowAsNeeded();
    }

    method Next() returns (row: Option<BulkLoaderData>)
      modifies this
      ensures row == Cached(source, old(State())).cache
      ensures State() == Taken(source, old(State()))
    {
      // Cache a row if hasNext() wasn't previously called.
      var _ := CacheRowAsNeeded();
      // Return the row and drop it from the cache.
      row := rowCache;
      rowCache := None;
    }
  }

  // ---------------------------------------------------------------------------
  // Error handling.

  /** org.voltdb.client.ClientResponse status codes. */
  const SUCCESS: int := 1
  const USER_ABORT: int := -1
  const GRACEFUL_FAILURE: int := -2

  /** isFatalStatus: only a user abort and a graceful failure leave the load going. */
  predicate IsFatalStatus(status: int)
  {
    status != USER_ABORT && status != GRACEFUL_FAILURE
  }

  /** tooManyErrors: a positive limit is exceeded. */
  predicate TooManyErrors(maxerrors: int, errorCount: int)
  {
    maxerrors > 0 && errorCount > maxerrors
  }

  /** The budget gate: a limit of 0 or less never trips; once tripped, more errors keep it tripped. */
  lemma TooManyErrorsGate(maxerrors: int, n: int, n': int)
    ensures maxerrors <= 0 ==> !TooManyErrors(maxerrors, n)
    ensures maxerrors > 0 ==> (TooManyErrors(maxerrors, n) <==> n >= maxerrors + 1)
    ensures TooManyErrors(maxerrors, n) && n <= n' ==> TooManyErrors(maxerrors, n')
  {
  }

  /** Whether handleError stops the consumer for a failed response, the count including it. */
  predicate StopsConsumer(maxerrors: int, errorCount: int, status: int)
  {
    TooManyErrors(maxerrors, errorCount) || IsFatalStatus(status)
  }

  /**
   * The two gates together: a user abort or a graceful failure stops the
   * load only once a positive limit is exceeded, and so never without a
   * limit; any other failure status stops it at once, whatever the count.
   */
  lemma StatusGate(maxerrors: int, errorCount: int, status: int)
    requires status != SUCCESS
    ensures status in {USER_ABORT, GRACEFUL_FAILURE} ==>
      (StopsConsumer(maxerrors, errorCount, status) <==> maxerrors > 0 && errorCount > maxerrors)
    ensures status in {USER_ABORT, GRACEFUL_FAILURE} && maxerrors <= 0 ==> !StopsConsumer(maxerrors, errorCount, status)
    ensures status !in {USER_ABORT, GRACEFUL_FAILURE} ==> StopsConsumer(maxerrors, errorCount, status)
  {
  }

  /** How bulkLoad() ends: normally, or by System.exit(-1) after a failed insertRow(). */
  datatype LoadEnd = Finished | Exited(status: int)

  /** What shutdown does to the outside world, in order. */
  datatype Shutdown = ConsumerStopped | ExecutorShutDown | LoaderClosed | ClientClosed

  /** The process-wide AtomicLong m_errorCount. */
  class ErrorCount {
    var value: int

    constructor ()
      ensures value == 0
    {
      value := 0;
    }
  }

  class RMQBulkLoader {
    // Non-null-ness of m_consumer, m_es, m_loader, m_client.
    var consumer: bool
    var es: bool
    var loader: bool
    var client: bool
    ghost var log: seq<Shutdown>

    constructor ()
      ensures !consumer && !es && !loader && !client && log == []
    {
      consumer, es, loader, client := false, false, false, false;
      log := [];
    }

    /**
     * closeConsumer(): stop the consumer if there is one, then shut the
     * executor down if there is one. `interrupt` says whether the wait for
     * its termination is interrupted; `interrupted` reports the exception.
     */
    method CloseConsumer(interrupt: bool) returns (interrupted: bool)
      modifies this
      ensures interrupted <==> old(es) && interrupt
      ensures !consumer && es == interrupted
      ensures loader == old(loader) && client == old(client)
      ensures log == old(log)
        + (if old(consumer) then [ConsumerStopped] else [])
        + (if old(es) then [ExecutorShutDown] else [])
    {
      if consumer {
        log := log + [ConsumerStopped];
        consumer := false;
      }
      interrupted := false;
      if es {
        log := log + [ExecutorShutDown];
        if interrupt {
          return true;
        }
        es := false;
      }
    }

    /**
     * close(): closeConsumer(), then the loader, then the client; any
     * exception (the interrupt, or the NullPointerException of a missing
     * loader) is swallowed and skips the rest. The loader is never forgotten.
     */
    method Close(interrupt: bool)
      modifies this
      ensures !consumer && es == (old(es) && interrupt) && loader == old(loader)
      ensures var proceeds := !(old(es) && interrupt) && old(loader);
        && client == (old(client) && !proceeds)
        && log == old(log)
          + (if old(consumer) then [ConsumerStopped] else [])
          + (if old(es) then [ExecutorShutDown] else [])
          + (if proceeds then [LoaderClosed] + (if old(client) then [ClientClosed] else []) else [])
    {
      var interrupted := CloseConsumer(interrupt);
      if interrupted {
        return;
      }
      if !loader {
        return;
      }
      log := log + [LoaderClosed];
      if client {
        log := log + [ClientClosed];
        client := false;
      }
    }

    /**
     * bulkLoad(): connect, create the loader and the consumer, hand every
     * row the iterator yields to insertRow() in order, then close().  The
     * rows handed over are returned.  `failAt` is the position of the first
     * row whose insertRow() throws, if any: the load then ends with
     * System.exit(-1), status 255, without closing anything.
     */
    method BulkLoad(source: seq<CsvRead>, failAt: Option<nat>, interrupt: bool) returns (handed: seq<BulkLoaderData>, end: LoadEnd)
      modifies this
      ensures var rows := RowsFrom(source, 0, 0);
        if failAt.Some? && failAt.value < |rows| then
          && handed == rows[..failAt.value + 1] && end == Exited(255)
          && consumer && loader && client && es == old(es) && log == old(log)
        else
          && handed == rows && end == Finished
          && !consumer && loader && client == (old(es) && interrupt) && es == (old(es) && interrupt)
          && log == old(log) + [ConsumerStopped]
            + (if old(es) then [ExecutorShutDown] else [])
            + (if old(es) && interrupt then [] else [LoaderClosed, ClientClosed])
    {
      client := true;
      loader := true;
      consumer := true;
      var failed;
      handed, failed := Consume(source, failAt);
      if failed {
        return handed, Exited(255);
      }
      Close(interrupt);
      end := Finished;
    }

    /**
     * The consumer loop: each row the iterator yields goes to insertRow;
     * when the insert at position failAt throws, the loop ends there.
     */
    method Consume(source: seq<CsvRead>, failAt: Option<nat>) returns (handed: seq<BulkLoaderData>, failed: bool)
      ensures var rows := RowsFrom(source, 0, 0);
        && (failed <==> failAt.Some? && failAt.value < |rows|)
        && handed == (if failed then rows[..failAt.value + 1] else rows)
    {
      var it := new ConnectorDataIterator(source);
      handed := [];
      while true
        invariant it.source == source && !it.done && it.rowCache.None? && it.calls <= |source|
        invariant handed + RowsFrom(source, it.calls, it.count) == RowsFrom(source, 0, 0)
        invariant failAt.Some? ==> |handed| <= failAt.value
        decreases |source| - it.calls
      {
        ghost var s := it.State();
        ForLoopStep(source, s);
        var more := it.HasNext();
        if !more {
          return handed, false;
        }
        var data := it.Next();
        handed := handed + [data.value];
        if failAt == Some(|handed| - 1) {
          return handed, true;
        }
      }
    }
  }

  /** Closing twice: the second close stops no consumer and closes no client, but closes the loader again. */
  method CloseTwice(loader: RMQBulkLoader)
    requires !loader.es && loader.loader
    modifies loader
    ensures loader.log == old(loader.log)
      + (if old(loader.consumer) then [ConsumerStopped] else [])
      + [LoaderClosed]
      + (if old(loader.client) then [ClientClosed] else [])
      + [LoaderClosed]
  {
    loader.Close(false);
    loader.Close(false);
  }

  class ErrorHandler {
    const maxerrors: int
    /** The shared m_errorCount. */
    const errorCount: ErrorCount
    /** The enclosing RMQBulkLoader. */
    const owner: RMQBulkLoader

    constructor (maxerrors: int, errorCount: ErrorCount, owner: RMQBulkLoader)
      ensures this.maxerrors == maxerrors && this.errorCount == errorCount && this.owner == owner
    {
      this.maxerrors := maxerrors;
      this.errorCount := errorCount;
      this.owner := owner;
    }

    /**
     * handleError(): `response` is the status of the response, None for a
     * null response. A failed insert counts as one more error; when that puts
     * the count over the limit, or the status is fatal, the consumer is
     * closed and the answer is true unless that close is interrupted.
     */
    method HandleError(metaData: RowWithMetaData, response: Option<int>, error: string, interrupt: bool)
      returns (okay: bool)
      modifies errorCount, owner
      ensures response.None? || response.value == SUCCESS ==>
        && !okay && errorCount.value == old(errorCount.value)
        && owner.consumer == old(owner.consumer) && owner.es == old(owner.es) && owner.log == old(owner.log)
      ensures response.Some? && response.value != SUCCESS ==>
        && errorCount.value == old(errorCount.value) + 1
        && var trips := StopsConsumer(maxerrors, errorCount.value, response.value);
          && (okay <==> trips && !(old(owner.es) && interrupt))
          && (trips ==>
                && !owner.consumer && owner.es == (old(owner.es) && interrupt)
                && owner.log == old(owner.log)
                  + (if old(owner.consumer) then [ConsumerStopped] else [])
                  + (if old(owner.es) then [ExecutorShutDown] else []))
          && (!trips ==> owner.consumer == old(owner.consumer) && owner.es == old(owner.es) && owner.log == old(owner.log))
      ensures owner.loader == old(owner.loader) && owner.client == old(owner.client)
    {
      okay := false;
      if response.Some? {
        var status := response.value;
        if status != SUCCESS {
          errorCount.value := errorCount.value + 1;
          if TooManyErrors(maxerrors, errorCount.value) || IsFatalStatus(status) {
            var interrupted := owner.CloseConsumer(interrupt);
            okay := !interrupted;
          }
        }
      }
    }

    method HasReachedErrorLimit() returns (reached: bool)
      ensures reached <==> maxerrors > 0 && errorCount.value > maxerrors
    {
      reached := TooManyErrors(maxerrors, errorCount.value);
    }
  }
}
