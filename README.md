# RabbitMQ bulk loader for VoltDB: a verified model

The bulk loader reads CSV lines from a RabbitMQ queue and inserts them into a
VoltDB table or passes them to a stored procedure. This project models its core
in Dafny and proves properties of that model:

- **Command-line driver (`Cli`).** The `CLIDriver` runs every option set's
  preParse, parses once, runs the postParse calls in order, and collects the
  errors into a single abort. It also has the typed option getters, whose
  failures are modelled as Java throws (`NullPointerException`,
  `ClassCastException`) or aborts.
- **Option sets.**
  - `RMQCLISpec` and `RMQCLIOptions` cover the RabbitMQ connection and its
    exchange, routing and binding features (`RmqCli`, `ExchangeTypes`).
  - `VoltDBCLISpec` and `VoltDBCLIOptions` cover the VoltDB servers and port
    (`VoltDbCliSpec`, `VoltDbCliOptions`, `HostPort`).
  - `BulkLoaderCLI` covers the target table or procedure, the batch size and
    the flush interval (`LoaderCli`).
  - `RandomSleeper` covers the pause range (`Sleeper`).
  - `CLIConfigImpl.validate()` is the stand-alone entry point's configuration
    check (`LoaderConfig`).
- **Message stream (`MessageStream`).** `RMQMessageReader` is the
  `java.io.Reader` that turns deliveries into characters for the CSV
  tokenizer. It acknowledges every delivery when it takes it.
- **Loading (`BulkLoad`).**
  - `ConnectorDataIterator` has a one-row look-ahead cache and numbers the
    rows.
  - `RMQBulkLoader` runs the load loop and `close()`.
  - `ErrorHandler` counts failed inserts against `maxerrors` and stops the
    consumer.
- **Test receiver (`CsvReceive`).** It acknowledges a message, removes the
  trailing dots, prints the rest, and sleeps one second per dot.
- **Java's semantics (`JavaLang`).** These are written out here, and the
  other modules use them:
  - `String.trim` and `split(",")`;
  - `int` and `long` wrap-around;
  - the case mapping behind `toLowerCase` and `equalsIgnoreCase`. It is exact
    on ASCII and on the four letters whose case mapping reaches an ASCII
    letter (ı, ſ, İ and the Kelvin sign K). See "## Left out" for the rest.
- **Abort output (`Cli`).** `abort()` passes its message to `printf` as the
  format. A zero-argument `java.util.Formatter` is modelled for this.

Mutable Java objects are Dafny classes. Each method's new state is tied to a
specification function of the old state. The properties are proved as lemmas
about those functions.

Some behaviours of the code differ from what its messages and the
documentation suggest. The model keeps what the code does:

- **Bad host specifier.** The "Bad host specifier" error names the *old* host
  field, not the text that was rejected. A null host prints as `null`.
- **Blank exchange type.** A blank `--extype` is turned into null by the
  trimmed getter. `toLowerCase` is then called on it, so postParse throws
  `NullPointerException`. The "Exchange type is empty." error is therefore
  never added (`RmqCli.BlankExType`, `RmqCli.ExTypeNeverEmptyError`).
- **Persistent flag.** `RMQCLISpec` sets `persistent` even when the persistent
  option is not enabled. `RMQCLIOptions` has no persistent flag at all.
- **Port truncation.** `VoltDBCLISpec` turns `--port` into an int with
  `intValue()`, so only its low 32 bits are kept (`VoltDbCliSpec.PortTruncation`).
- **Unused maxerrors.** `BulkLoaderCLI` never reads `--maxerrors`.
- **Blank procedure.** `BulkLoaderCLI` accepts a blank `--procedure`, which
  names the empty procedure (`LoaderCli.BlankProcedure`).
- **Repeated message.** `RMQMessageReader.read` copies from position 0 of the
  current message every time and never advances the position. A satisfied read
  is therefore followed by the same text again (`MessageStream.ReadAgainFromStart`).
- **`close()` and the current message.** `close()` does not clear the current
  message.
- **Second `close()`.** The executor field `m_es` is never assigned. A second
  `RMQBulkLoader.close()` closes the CSV loader again (`BulkLoad.CloseTwice`).
- **Pause overflow.** The receiver's `dotCount * 1000` is int arithmetic.
  From 2147484 to 4294967 trailing dots it is negative, and `Thread.sleep`
  refuses a negative value. Larger counts wrap round to positive pauses
  again (`CsvReceive.PauseLength`, `CsvReceive.Receiver.Handle`).
- **Format crash.** `abort()` uses the error report as a `printf` format, and
  the report contains what the user typed. A report such as "Error: Invalid
  exchange type: x%" therefore makes `printf` throw. The process then exits
  with 1 instead of 255 (`Cli.StrayPercentCrashes`).
- **Folded exchange types.** `equalsIgnoreCase` folds the dotless ı onto i and
  the long ſ onto s. So `--extype dırect` is accepted and stored as `direct`
  (`ExchangeTypes.FoldedSpellings`).
- **Failed insert.** A failed `insertRow` ends the load with
  `System.exit(-1)`, exit status 255. `close()` is not called on that path
  (`BulkLoad.RMQBulkLoader.BulkLoad`).
- **Negative ranges.** A `RandomSleeper` range set directly with a negative
  minimum, or with the minimum above the maximum, makes `sleep()` throw
  (`Sleeper.NegativeMinimumThrows`, `Sleeper.InvertedRangeThrows`).

Where the documentation and the code disagree, the model follows the code.

## Model

| member | source | states |
|---|---|---|
| JavaLang.Wrap32 | rabbitmq-utility/src/main/java/org/voltdb/bulkloader/VoltDBCLISpec.java:87 | Long.intValue() and int overflow: the result is a 32-bit int congruent to the input modulo 2^32, and is the input itself when that already fits |
| JavaLang.Wrap64 | rabbitmq-utility/src/main/java/org/voltdb/bulkloader/RandomSleeper.java:114 | long overflow: the result is a 64-bit long congruent to the input modulo 2^64, and is the input itself when that already fits |
| JavaLang.Int32Inc | rabbitmq-bulk-loader/src/main/java/org/voltdb/bulkloader/RMQBulkLoader.java:256 | `m_count++` on an int: one more, except that INT_MAX wraps to INT_MIN |
| JavaLang.Trim | rabbitmq-utility/src/main/java/org/voltdb/bulkloader/CLIDriver.java:77-84 | String.trim(): no blank character at either end, empty exactly when every character is blank, otherwise the slice between the leading and the trailing blanks |
| JavaLang.TrimIdempotent | rabbitmq-utility/src/main/java/org/voltdb/bulkloader/CLIDriver.java:86-94 | trimming a trimmed string changes nothing |
| JavaLang.ToLower | rabbitmq-utility/src/main/java/org/voltdb/bulkloader/RMQCLISpec.java:247-248 | toLowerCase(): no capital ASCII letter is left and nothing gets shorter; text without a dotted capital I keeps its length and is lowered character by character, while that letter becomes an i and a combining dot |
| JavaLang.MatchesLowerLetter | rabbitmq-utility/src/main/java/org/voltdb/bulkloader/RMQCLISpec.java:89 | the characters equalsIgnoreCase matches against a lower-case ASCII letter: the letter, its capital, and the Unicode letters that fold onto it (dotless i and dotted capital I onto i, long s onto s, the Kelvin sign onto k) |
| JavaLang.EqualsIgnoreCaseLower | rabbitmq-utility/src/main/java/org/voltdb/bulkloader/RMQCLISpec.java:86-94 | for text without those four folding letters, equalsIgnoreCase against lower-case ASCII letters holds exactly when the lowered text equals them |
| JavaLang.DotlessIMatches | rabbitmq-utility/src/main/java/org/voltdb/bulkloader/RMQCLISpec.java:89 | a dotless i equals i ignoring case although lowering leaves it unchanged, so matching is more than comparing lowered texts |
| JavaLang.Pieces | rabbitmq-utility/src/main/java/org/voltdb/bulkloader/CLIDriver.java:102 | cutting at every separator gives at least one piece, no piece holds the separator, and a text without it is its own only piece |
| JavaLang.DropTrailingEmpty | rabbitmq-utility/src/main/java/org/voltdb/bulkloader/CLIDriver.java:102 | the result is a prefix of the pieces that ends in a non-empty piece, and everything dropped is empty |
| JavaLang.SplitComma | rabbitmq-utility/src/main/java/org/voltdb/bulkloader/CLIDriver.java:102 | split(","): no element holds a comma; a text without a comma gives itself; otherwise the last element, if any, is non-empty |
| JavaLang.JoinPieces | rabbitmq-utility/src/main/java/org/voltdb/bulkloader/CLIDriver.java:102 | joining the pieces with the separator gives the text back |
| JavaLang.PiecesJoin | rabbitmq-utility/src/main/java/org/voltdb/bulkloader/CLIDriver.java:237-242 | cutting a join of separator-free parts gives the parts back |
| JavaLang.SplitCommaRoundTrip | rabbitmq-utility/src/main/java/org/voltdb/bulkloader/CLIDriver.java:102 | split(",") loses nothing but trailing commas: the input is the join of the result followed by commas only |
| JavaLang.SplitCommaJoin | rabbitmq-utility/src/main/java/org/voltdb/bulkloader/CLIDriver.java:102 | split(",") of a join of two or more comma-free parts whose last part is non-empty gives the parts back |
| JavaLang.AppendJoined | rabbitmq-utility/src/main/java/org/voltdb/bulkloader/CLIDriver.java:235-242 | the StringBuilder loop (part, then a separator after all but the last) builds the head followed by the join of the parts |
| Cli.FormatNoArgs | rabbitmq-utility/src/main/java/org/voltdb/bulkloader/CLIDriver.java:269 | printf with no arguments: text without a % is printed unchanged; %% and %n print a percent sign and a newline; any other specifier throws |
| Cli.TrailingPercentThrows | rabbitmq-utility/src/main/java/org/voltdb/bulkloader/CLIDriver.java:269 | a message that ends in a lone %, with no other %, cannot be formatted |
| Cli.Abort | rabbitmq-utility/src/main/java/org/voltdb/bulkloader/CLIDriver.java:266-276 | abort(true, message) uses the message as the printf format: when it formats, the tool stops with the printed text and exit status 255; otherwise the call throws and the JVM exits with 1 |
| Cli.AbortVerbatim | rabbitmq-utility/src/main/java/org/voltdb/bulkloader/CLIDriver.java:266-276 | a message holding no % is printed as it is, and the exit status is 255 |
| Cli.StrayPercentCrashes | rabbitmq-utility/src/main/java/org/voltdb/bulkloader/CLIDriver.java:266-276 | an error report ending in a stray %, such as "Error: Invalid exchange type: x%", ends the process with the format exception and exit status 1 instead of 255 |
| Cli.GetString | rabbitmq-utility/src/main/java/org/voltdb/bulkloader/CLIDriver.java:58-67 | an absent option reads as null; a value is returned only for a String option; the call fails exactly when the option holds neither a String nor nothing, and a parse error aborts with its own message |
| Cli.GetStringOr | rabbitmq-utility/src/main/java/org/voltdb/bulkloader/CLIDriver.java:69-75 | the default exactly when the option is absent, otherwise getString |
| Cli.GetTrimmedString | rabbitmq-utility/src/main/java/org/voltdb/bulkloader/CLIDriver.java:77-84 | getString with the value trimmed; null stays null, failures pass through, and the result is already trimmed |
| Cli.GetTrimmedStringOr | rabbitmq-utility/src/main/java/org/voltdb/bulkloader/CLIDriver.java:86-94 | the defaulted value trimmed, with a blank one turned into null; a null value throws NullPointerException; a returned value is non-empty and trimmed |
| Cli.GetCommaSeparatedStrings | rabbitmq-utility/src/main/java/org/voltdb/bulkloader/CLIDriver.java:96-108 | the defaults when the option is absent; otherwise comma-free pieces whose join, followed by commas only, is the option text; a parse error aborts and a valueless option throws |
| Cli.GetNumber | rabbitmq-utility/src/main/java/org/voltdb/bulkloader/CLIDriver.java:110-119 | an absent option reads as null; a value is returned only for a Long option; the call fails exactly when the option holds neither a Long nor nothing, and a parse error aborts with its own message |
| Cli.GetNumberOr | rabbitmq-utility/src/main/java/org/voltdb/bulkloader/CLIDriver.java:121-127 | the default exactly when the option is absent, otherwise getNumber |
| Cli.GetBoolean | rabbitmq-utility/src/main/java/org/voltdb/bulkloader/CLIDriver.java:129-132 | getBoolean: whether the option is on the command line |
| Cli.ComposeErrorReport | rabbitmq-utility/src/main/java/org/voltdb/bulkloader/CLIDriver.java:234-243 | the StringBuilder loop builds the one report text for the collected errors |
| Cli.ReportSingle | rabbitmq-utility/src/main/java/org/voltdb/bulkloader/CLIDriver.java:235-236 | one error is reported as "Error: " followed by the error |
| Cli.ReportLines | rabbitmq-utility/src/main/java/org/voltdb/bulkloader/CLIDriver.java:235-242 | several errors are reported as an "Errors:" line followed by one line per error, in the order added, with no newline after the last |
| Cli.FirstHalt | rabbitmq-utility/src/main/java/org/voltdb/bulkloader/CLIDriver.java:230-232 | how many user option sets run their postParse before one stops the process: every set before it only adds errors, and the set at that index stops |
| Cli.HelpPostParse | rabbitmq-utility/src/main/java/org/voltdb/bulkloader/CLIDriver.java:190-197 | the help option set stops the process exactly when --help is given, and then with exit status 0 |
| Cli.PhaseOrder | rabbitmq-utility/src/main/java/org/voltdb/bulkloader/CLIDriver.java:216-232 | every preParse (the help set last) comes before the single parse, and the postParse calls come after it in set order, each set at most once |
| Cli.CLIDriver.constructor | rabbitmq-utility/src/main/java/org/voltdb/bulkloader/CLIDriver.java:46-56 | a new driver has no command line, no arguments and no errors |
| Cli.CLIDriver.AddError | rabbitmq-utility/src/main/java/org/voltdb/bulkloader/CLIDriver.java:247-250 | the message is appended to the error list and nothing else changes |
| Cli.CLIDriver.PreParseAll | rabbitmq-utility/src/main/java/org/voltdb/bulkloader/CLIDriver.java:222-224 | one preParse per option set, in set order |
| Cli.CLIDriver.RunUserSets | rabbitmq-utility/src/main/java/org/voltdb/bulkloader/CLIDriver.java:230-232 | the user sets run in order up to the first that stops, each adding its errors |
| Cli.CLIDriver.PostParseAll | rabbitmq-utility/src/main/java/org/voltdb/bulkloader/CLIDriver.java:230-232 | the errors added are those of the user sets before the first that stops; that set, or the help set after all of them, decides how the process stops |
| Cli.CLIDriver.ParseArgs | rabbitmq-utility/src/main/java/org/voltdb/bulkloader/CLIDriver.java:210-245 | a parse error aborts after every preParse and before any postParse; otherwise the command line and its arguments are stored, the postParse calls run in order, and a non-empty error list ends the process with one abort carrying the report, formatted as a printf format |
| MessageStream.FillFrom | rabbitmq-utility/src/main/java/org/voltdb/bulkloader/RMQMessageReader.java:111-146 | the copy loop of read() takes events only in order and never past the last one |
| MessageStream.LogAction | rabbitmq-utility/src/main/java/org/voltdb/bulkloader/RMQMessageReader.java:114-125 | serving from the current acknowledged delivery, or closing, keeps the record that every delivery taken was acknowledged in order and before any of its characters were served |
| MessageStream.LogDelivery | rabbitmq-utility/src/main/java/org/voltdb/bulkloader/RMQMessageReader.java:130-133 | taking a delivery, making its body current and acknowledging it keeps that record |
| MessageStream.LogSignal | rabbitmq-utility/src/main/java/org/voltdb/bulkloader/RMQMessageReader.java:135-143 | taking a shutdown signal or an interrupt keeps that record |
| MessageStream.FillLength | rabbitmq-utility/src/main/java/org/voltdb/bulkloader/RMQMessageReader.java:117-124 | a read never copies more than asked, and a satisfied read copies exactly len characters |
| MessageStream.FillNext | rabbitmq-utility/src/main/java/org/voltdb/bulkloader/RMQMessageReader.java:128-133 | the message left current is the one the read started with when it took nothing, and otherwise the body of the last delivery taken |
| MessageStream.FillSatisfiedCurrent | rabbitmq-utility/src/main/java/org/voltdb/bulkloader/RMQMessageReader.java:121-124 | a satisfied read ends on a non-empty current message |
| MessageStream.FillIsPrefixOfStream | rabbitmq-utility/src/main/java/org/voltdb/bulkloader/RMQMessageReader.java:114-133 | what a read copies is a prefix of the current message followed by the bodies of the deliveries it took, in order |
| MessageStream.ReadAgainFromStart | rabbitmq-utility/src/main/java/org/voltdb/bulkloader/RMQMessageReader.java:117-118 | because getChars always copies from position 0, the next read after a satisfied one copies the same message again from its first character, taking no delivery |
| MessageStream.StartsWithCurrent | rabbitmq-utility/src/main/java/org/voltdb/bulkloader/RMQMessageReader.java:114-119 | a read starts by copying the first min(len, length) characters of the current message |
| MessageStream.CopyStep | rabbitmq-utility/src/main/java/org/voltdb/bulkloader/RMQMessageReader.java:114-125 | one copy step puts the head of the current message next in the read's output |
| MessageStream.FetchStep | rabbitmq-utility/src/main/java/org/voltdb/bulkloader/RMQMessageReader.java:127-143 | one fetch step: the next event decides whether the read goes on with the new body, ends with -1 on an interrupt, or throws on a shutdown |
| MessageStream.GetChars | rabbitmq-utility/src/main/java/org/voltdb/bulkloader/RMQMessageReader.java:118 | String.getChars copies src[srcBegin..srcEnd] to dst from dstBegin and touches nothing else |
| MessageStream.RMQMessageReader.constructor | rabbitmq-utility/src/main/java/org/voltdb/bulkloader/RMQMessageReader.java:59-62 | a new reader holds no broker handles, an empty current message and position 0 |
| MessageStream.RMQMessageReader.Close | rabbitmq-utility/src/main/java/org/voltdb/bulkloader/RMQMessageReader.java:149-162 | close() releases the channel and then the connection, each only if held, clears all handles, and leaves the current message as it was |
| MessageStream.RMQMessageReader.EnsureInitialised | rabbitmq-utility/src/main/java/org/voltdb/bulkloader/RMQMessageReader.java:99-102 | initRabbitMQ() runs exactly when the factory is null; a failed initialisation closes what it opened (nothing, the connection, or the channel and the connection) and reports the failure |
| MessageStream.RMQMessageReader.NextDelivery | rabbitmq-utility/src/main/java/org/voltdb/bulkloader/RMQMessageReader.java:130-133 | the next event is taken; a delivery becomes the current message at position 0 and is acknowledged at once |
| MessageStream.RMQMessageReader.Read | rabbitmq-utility/src/main/java/org/voltdb/bulkloader/RMQMessageReader.java:96-147 | read(): a failed initialisation throws and leaves the buffer and the current message untouched; otherwise cbuf[off..] receives exactly the text of the copy loop, no other cell changes, and the result is len, -1 on an interrupt, or an IOException on a shutdown |
| MessageStream.RMQMessageReader.CopyOut | rabbitmq-utility/src/main/java/org/voltdb/bulkloader/RMQMessageReader.java:117-119 | min(room, length) characters of the current message go to cbuf from `at`, served after their delivery was acknowledged |
| MessageStream.RMQMessageReader.CopyPhase | rabbitmq-utility/src/main/java/org/voltdb/bulkloader/RMQMessageReader.java:114-125 | the copy block advances wasRead by min(len - wasRead, length) and stops the loop only when len is reached |
| MessageStream.RMQMessageReader.Fetch | rabbitmq-utility/src/main/java/org/voltdb/bulkloader/RMQMessageReader.java:129-138 | a delivery becomes current; a shutdown signal or an interrupt closes the reader |
| MessageStream.RMQMessageReader.FetchPhase | rabbitmq-utility/src/main/java/org/voltdb/bulkloader/RMQMessageReader.java:127-143 | the try block: the loop goes on with the next delivery, or the read ends as the copy loop says |
| MessageStream.RMQMessageReader.Step | rabbitmq-utility/src/main/java/org/voltdb/bulkloader/RMQMessageReader.java:112-144 | one pass of the loop body keeps the buffer and the reader in step with the copy loop's specification |
| MessageStream.RMQMessageReader.Transfer | rabbitmq-utility/src/main/java/org/voltdb/bulkloader/RMQMessageReader.java:111-146 | the while(true) loop: the buffer receives the copy loop's text and the result is the one it names |
| MessageStream.CloseTwice | rabbitmq-utility/src/main/java/org/voltdb/bulkloader/RMQMessageReader.java:149-162 | a second close() releases nothing more |
| BulkLoad.CachedSane | rabbitmq-bulk-loader/src/main/java/org/voltdb/bulkloader/RMQBulkLoader.java:248-270 | cacheRowAsNeeded and next keep "done means nothing cached", and hasNext is true exactly when a row is cached |
| BulkLoad.CachedIdempotent | rabbitmq-bulk-loader/src/main/java/org/voltdb/bulkloader/RMQBulkLoader.java:218-222 | a second hasNext() changes nothing |
| BulkLoad.CachedTimesOnce | rabbitmq-bulk-loader/src/main/java/org/voltdb/bulkloader/RMQBulkLoader.java:218-222 | any number of hasNext() calls in a row read the tokenizer at most once and agree with the first |
| BulkLoad.TakenEmptiesCache | rabbitmq-bulk-loader/src/main/java/org/voltdb/bulkloader/RMQBulkLoader.java:224-233 | next() hands out the row hasNext() would cache and empties the cache, without a second read |
| BulkLoad.RowNumbering | rabbitmq-bulk-loader/src/main/java/org/voltdb/bulkloader/RMQBulkLoader.java:253-261 | a successful read raises the count by one (int arithmetic) and numbers the cached row with the new count, keeping its raw text and fields |
| BulkLoad.FailureEnds | rabbitmq-bulk-loader/src/main/java/org/voltdb/bulkloader/RMQBulkLoader.java:263-267 | end of input or a read error ends the iteration at once |
| BulkLoad.DoneForever | rabbitmq-bulk-loader/src/main/java/org/voltdb/bulkloader/RMQBulkLoader.java:250-269 | once done, no further reads happen, hasNext() stays false and next() returns null |
| BulkLoad.ForLoopStep | rabbitmq-bulk-loader/src/main/java/org/voltdb/bulkloader/RMQBulkLoader.java:218-233 | one turn of the for loop over an empty cache: hasNext() is false exactly when no rows remain; otherwise next() hands out the first remaining row without reading again, and the remaining rows follow |
| BulkLoad.RowRun | rabbitmq-bulk-loader/src/main/java/org/voltdb/bulkloader/RMQBulkLoader.java:135-143 | the length of the run of rows from a call on, up to the first end or error |
| BulkLoad.RowsFromNumbered | rabbitmq-bulk-loader/src/main/java/org/voltdb/bulkloader/RMQBulkLoader.java:135-143 | the iteration from any point yields that run of rows in order, numbered on from the current count |
| BulkLoad.IterationYieldsLeadingRows | rabbitmq-bulk-loader/src/main/java/org/voltdb/bulkloader/RMQBulkLoader.java:135-143 | from the start the iteration yields exactly the leading rows, numbered 1, 2, ... |
| BulkLoad.ConnectorDataIterator.constructor | rabbitmq-bulk-loader/src/main/java/org/voltdb/bulkloader/RMQBulkLoader.java:210-214 | a new iterator caches nothing, has count 0 and is not done |
| BulkLoad.ConnectorDataIterator.CacheRowAsNeeded | rabbitmq-bulk-loader/src/main/java/org/voltdb/bulkloader/RMQBulkLoader.java:248-270 | the new state is the look-ahead step of the iterator specification, and the answer is "not done" |
| BulkLoad.ConnectorDataIterator.HasNext | rabbitmq-bulk-loader/src/main/java/org/voltdb/bulkloader/RMQBulkLoader.java:218-222 | hasNext() is cacheRowAsNeeded() |
| BulkLoad.ConnectorDataIterator.Next | rabbitmq-bulk-loader/src/main/java/org/voltdb/bulkloader/RMQBulkLoader.java:224-233 | next() returns the row the look-ahead caches and leaves the cache empty |
| BulkLoad.IsFatalStatus | rabbitmq-bulk-loader/src/main/java/org/voltdb/bulkloader/RMQBulkLoader.java:274-277 | isFatalStatus: every status except a user abort and a graceful failure |
| BulkLoad.TooManyErrors | rabbitmq-bulk-loader/src/main/java/org/voltdb/bulkloader/RMQBulkLoader.java:312-315 | tooManyErrors: a positive limit exceeded by the count |
| BulkLoad.StatusGate | rabbitmq-bulk-loader/src/main/java/org/voltdb/bulkloader/RMQBulkLoader.java:297 | for a failed response, a user abort or a graceful failure stops the consumer exactly when a positive limit is exceeded, and so never without a limit; any other status stops it whatever the count |
| BulkLoad.TooManyErrorsGate | rabbitmq-bulk-loader/src/main/java/org/voltdb/bulkloader/RMQBulkLoader.java:312-315 | a limit of 0 or less never trips; otherwise it trips from limit + 1 errors on, and stays tripped as errors grow |
| BulkLoad.ErrorCount.constructor | rabbitmq-bulk-loader/src/main/java/org/voltdb/bulkloader/RMQBulkLoader.java:63 | the shared error count starts at 0 |
| BulkLoad.RMQBulkLoader.constructor | rabbitmq-bulk-loader/src/main/java/org/voltdb/bulkloader/RMQBulkLoader.java:63-74 | a new loader holds no consumer, executor, CSV loader or client |
| BulkLoad.RMQBulkLoader.CloseConsumer | rabbitmq-bulk-loader/src/main/java/org/voltdb/bulkloader/RMQBulkLoader.java:80-91 | the consumer is stopped if present, then the executor shut down if present; an interrupted wait leaves the executor set and is reported |
| BulkLoad.RMQBulkLoader.Close | rabbitmq-bulk-loader/src/main/java/org/voltdb/bulkloader/RMQBulkLoader.java:96-108 | closeConsumer, then the CSV loader, then the client; an interrupt or a missing loader skips the rest silently, and the loader is never forgotten |
| BulkLoad.RMQBulkLoader.BulkLoad | rabbitmq-bulk-loader/src/main/java/org/voltdb/bulkloader/RMQBulkLoader.java:114-145 | every row the iterator yields is handed to insertRow in order, and then close() runs; when an insert throws, the rows up to and including that one have been handed over and the process exits with status 255 without closing anything |
| BulkLoad.RMQBulkLoader.Consume | rabbitmq-bulk-loader/src/main/java/org/voltdb/bulkloader/RMQBulkLoader.java:135-143 | the for loop hands insertRow exactly the rows the iterator yields, in order; it stops early exactly when an insert within those rows throws, and then that row was the last one handed over |
| BulkLoad.CloseTwice | rabbitmq-bulk-loader/src/main/java/org/voltdb/bulkloader/RMQBulkLoader.java:96-108 | a second close() stops no consumer and closes no client, but closes the CSV loader again |
| BulkLoad.ErrorHandler.constructor | rabbitmq-bulk-loader/src/main/java/org/voltdb/bulkloader/RMQBulkLoader.java:284-287 | the handler keeps its limit, the shared count and its loader |
| BulkLoad.ErrorHandler.HandleError | rabbitmq-bulk-loader/src/main/java/org/voltdb/bulkloader/RMQBulkLoader.java:290-310 | a null or successful response changes nothing and answers false; a failure counts one more error, and when that trips the limit or the status is fatal the consumer is closed and the answer is true unless that close is interrupted; loader and client never change, and the executor only through that close |
| BulkLoad.ErrorHandler.HasReachedErrorLimit | rabbitmq-bulk-loader/src/main/java/org/voltdb/bulkloader/RMQBulkLoader.java:318-321 | true exactly when the limit is positive and the count exceeds it |
| ExchangeTypes.FirstMatch | rabbitmq-utility/src/main/java/org/voltdb/bulkloader/RMQCLISpec.java:88-93 | a match found is one of the entries from the starting index on |
| ExchangeTypes.CheckExchangeType | rabbitmq-utility/src/main/java/org/voltdb/bulkloader/RMQCLISpec.java:86-94 | the search loop answers the first entry equal to the input ignoring case, or null |
| ExchangeTypes.FirstMatchMeaning | rabbitmq-utility/src/main/java/org/voltdb/bulkloader/RMQCLISpec.java:88-93 | a match equals the input ignoring case, and there is none exactly when no remaining entry does |
| ExchangeTypes.CanonicalMeaning | rabbitmq-utility/src/main/java/org/voltdb/bulkloader/RMQCLISpec.java:86-94 | checkExchangeType answers an entry of the list that equals the input ignoring case, and null exactly when no entry does |
| ExchangeTypes.CanonicalUnique | rabbitmq-utility/src/main/java/org/voltdb/bulkloader/RMQCLISpec.java:86-94 | no text matches two of the types, so the answer is a given type exactly when the input equals it ignoring case |
| ExchangeTypes.CanonicalOfLower | rabbitmq-utility/src/main/java/org/voltdb/bulkloader/RMQCLISpec.java:37-42 | lower-case text without the four folding letters is accepted exactly when it is one of direct, topic, headers and fanout, and is then returned unchanged |
| ExchangeTypes.FoldedSpellings | rabbitmq-utility/src/main/java/org/voltdb/bulkloader/RMQCLISpec.java:86-94 | dırect (with a dotless i) is answered direct and headerſ (with a long s) headers, as Java folds them |
| ExchangeTypes.LoweredDottedCapitalI | rabbitmq-utility/src/main/java/org/voltdb/bulkloader/RMQCLISpec.java:247-252 | dİrect (with a dotted capital I) matches direct ignoring case, but toLowerCase turns it into seven characters that match nothing |
| ExchangeTypes.SevenFromD | rabbitmq-utility/src/main/java/org/voltdb/bulkloader/RMQCLISpec.java:86-94 | no exchange type matches seven characters starting with d, ignoring case |
| ExchangeTypes.BuildTypeList | rabbitmq-utility/src/main/java/org/voltdb/bulkloader/RMQCLISpec.java:53-63 | the initialiser builds the types joined with "/" |
| ExchangeTypes.TypeListText | rabbitmq-utility/src/main/java/org/voltdb/bulkloader/RMQCLISpec.java:53-63 | EXCHANGE_TYPE_LIST is "direct/topic/headers/fanout" |
| ExchangeTypes.TypeListPieces | rabbitmq-utility/src/main/java/org/voltdb/bulkloader/RMQCLISpec.java:53-63 | the list splits at "/" back into the four types |
| HostPort.FromParts | rabbitmq-utility/src/main/java/org/voltdb/bulkloader/VoltDBCLISpec.java:87 | HostAndPort.fromParts succeeds exactly when the port is in 0..65535 and the host text parses without a port of its own, and then pairs that host with the port |
| RmqCli.ConnectionSettings | rabbitmq-utility/src/main/java/org/voltdb/bulkloader/RMQCLISpec.java:199-244 | after the connection stages, queue, exchange, user, password, vhost and amqp hold what their getters read, persistent is the flag (in the generation that has one), and the feature fields are untouched |
| RmqCli.FeaturesSettings | rabbitmq-utility/src/main/java/org/voltdb/bulkloader/RMQCLISpec.java:246-266 | the enabled feature stages fill routing and bindings from their getters; a part that is not enabled keeps its field, and no other field changes |
| RmqCli.SettingsAfterPostParse | rabbitmq-utility/src/main/java/org/voltdb/bulkloader/RMQCLISpec.java:197-267 | after a successful postParse every option-backed field holds what its getter read, and a field whose part is not enabled keeps its old value |
| RmqCli.ConnectionErrors | rabbitmq-utility/src/main/java/org/voltdb/bulkloader/RMQCLISpec.java:207-242 | the connection stages add, in order: the bad host error (naming the old host), one error per empty exchange, user, vhost and AMQP URI, and the one-of error when exchange, queue and AMQP URI are all null |
| RmqCli.FeaturesExType | rabbitmq-utility/src/main/java/org/voltdb/bulkloader/RMQCLISpec.java:246-258 | with the exchange type enabled, its trimmed value is non-null and its lowered value non-empty; the type stored is the one of the four that the lowered value equals ignoring case, or null, and then the only error added names the value; lowered text without folding letters is stored as it is when it is one of the four |
| RmqCli.ErrorsAfterPostParse | rabbitmq-utility/src/main/java/org/voltdb/bulkloader/RMQCLISpec.java:197-267 | the errors postParse adds, in order, each read off the value it stored |
| RmqCli.ExTypeAfterPostParse | rabbitmq-utility/src/main/java/org/voltdb/bulkloader/RMQCLISpec.java:246-258 | with the exchange type enabled, a successful postParse stores the one of the four types that the lowered value equals ignoring case, or null when there is none |
| RmqCli.BlankExType | rabbitmq-utility/src/main/java/org/voltdb/bulkloader/RMQCLISpec.java:247-248 | a blank --extype reaches toLowerCase as null, so postParse throws NullPointerException |
| RmqCli.ExTypeNeverEmptyError | rabbitmq-utility/src/main/java/org/voltdb/bulkloader/RMQCLISpec.java:249-251 | "Exchange type is empty." is never added |
| RmqCli.HostAfterPostParse | rabbitmq-utility/src/main/java/org/voltdb/bulkloader/RMQCLISpec.java:199-211 | the host specifier ("localhost" when absent) is parsed; its host is stored, a port it carries replaces the old port, and a rejected one leaves host and port null |
| RmqCli.RMQOptions.constructor | rabbitmq-utility/src/main/java/org/voltdb/bulkloader/RMQOptions.java:30-67 | the record starts from the given field values |
| RmqCli.HostPhase | rabbitmq-utility/src/main/java/org/voltdb/bulkloader/RMQCLISpec.java:199-211 | the host stage updates the record and the error list as its specification says |
| RmqCli.CheckEmpty | rabbitmq-utility/src/main/java/org/voltdb/bulkloader/RMQCLISpec.java:216-218 | the message is added exactly when the value is the empty string |
| RmqCli.AccountPhase | rabbitmq-utility/src/main/java/org/voltdb/bulkloader/RMQCLISpec.java:213-225 | the queue, exchange and credential stage follows its specification |
| RmqCli.UriPhase | rabbitmq-utility/src/main/java/org/voltdb/bulkloader/RMQCLISpec.java:227-238 | the vhost and AMQP URI stage follows its specification |
| RmqCli.ChoicePhase | rabbitmq-utility/src/main/java/org/voltdb/bulkloader/RMQCLISpec.java:240-244 | the one-of check and the persistent flag follow their specification |
| RmqCli.ExTypePhase | rabbitmq-utility/src/main/java/org/voltdb/bulkloader/RMQCLISpec.java:246-258 | the exchange type stage follows its specification |
| RmqCli.KeysPhase | rabbitmq-utility/src/main/java/org/voltdb/bulkloader/RMQCLISpec.java:260-266 | the routing and binding keys follow their specification |
| RmqCli.ConnectionPhase | rabbitmq-utility/src/main/java/org/voltdb/bulkloader/RMQCLISpec.java:199-244 | the connection stages, run in order, follow their composed specification |
| RmqCli.FeaturesPhase | rabbitmq-utility/src/main/java/org/voltdb/bulkloader/RMQCLISpec.java:246-266 | the feature stages, run in order, follow their composed specification |
| RmqCli.RunPostParse | rabbitmq-utility/src/main/java/org/voltdb/bulkloader/RMQCLISpec.java:197-267 | the whole postParse over a record follows the postParse specification for the given option names |
| RmqCli.RMQCLISpec.constructor | rabbitmq-utility/src/main/java/org/voltdb/bulkloader/RMQCLISpec.java:45-67 | a new option set has an unset record and no part enabled |
| RmqCli.RMQCLISpec.CreateForProducer | rabbitmq-utility/src/main/java/org/voltdb/bulkloader/RMQCLISpec.java:69-77 | the producer enables the exchange type (with its default), the routing key and the persistent flag |
| RmqCli.RMQCLISpec.CreateForConsumer | rabbitmq-utility/src/main/java/org/voltdb/bulkloader/RMQCLISpec.java:79-84 | the consumer enables only the binding keys |
| RmqCli.RMQCLISpec.PostParse | rabbitmq-utility/src/main/java/org/voltdb/bulkloader/RMQCLISpec.java:197-267 | postParse with the --host, --queue, ... names follows the postParse specification |
| RmqCli.RMQCLIOptions.constructor | rabbitmq-utility/src/main/java/org/voltdb/bulkloader/RMQCLIOptions.java:44-75 | a new option set has unset fields (mqrouting "") and no part enabled |
| RmqCli.RMQCLIOptions.CreateForProducer | rabbitmq-utility/src/main/java/org/voltdb/bulkloader/RMQCLIOptions.java:77-84 | the producer enables the exchange type (with its default) and the routing key |
| RmqCli.RMQCLIOptions.CreateForConsumer | rabbitmq-utility/src/main/java/org/voltdb/bulkloader/RMQCLIOptions.java:86-91 | the consumer enables only the binding keys |
| RmqCli.RMQCLIOptions.PostParse | rabbitmq-utility/src/main/java/org/voltdb/bulkloader/RMQCLIOptions.java:197-265 | postParse with the --mqhost, --mqqueue, ... names and no persistent flag follows the same specification |
| VoltDbCliSpec.ServersBySlot | rabbitmq-utility/src/main/java/org/voltdb/bulkloader/VoltDBCLISpec.java:83-93 | one slot per server entry, each the entry's own slot |
| VoltDbCliSpec.ServersCrash | rabbitmq-utility/src/main/java/org/voltdb/bulkloader/VoltDBCLISpec.java:86-87 | the loop throws exactly when the default port is null and some entry parses without a port, and then with NullPointerException |
| VoltDbCliSpec.SlotMeaning | rabbitmq-utility/src/main/java/org/voltdb/bulkloader/VoltDBCLISpec.java:84-92 | an entry with a port keeps it; a port-less one gets the default port when that is valid; a rejected entry leaves its slot null; at most one error per entry, naming the entry |
| VoltDbCliSpec.PortTruncation | rabbitmq-utility/src/main/java/org/voltdb/bulkloader/VoltDBCLISpec.java:87 | intValue() keeps the low 32 bits of --port, so 2^32 + 21212 connects on 21212 |
| VoltDbCliSpec.Defaults | rabbitmq-utility/src/main/java/org/voltdb/bulkloader/VoltDBCLISpec.java:80-81 | without options the entries are ["localhost"] and the default port is 21212 |
| VoltDbCliSpec.VoltDBOptions.constructor | rabbitmq-utility/src/main/java/org/voltdb/bulkloader/VoltDBCLISpec.java:36 | the options start with no servers and no credentials |
| VoltDbCliSpec.FillSlot | rabbitmq-utility/src/main/java/org/voltdb/bulkloader/VoltDBCLISpec.java:84-92 | slot i and the error list change as the entry's slot specification says, and no other slot changes |
| VoltDbCliSpec.FillServers | rabbitmq-utility/src/main/java/org/voltdb/bulkloader/VoltDBCLISpec.java:82-93 | the array of nulls ends up holding the slots of the server specification and the errors are appended in entry order; a NullPointerException stops the loop |
| VoltDbCliSpec.VoltDBCLISpec.constructor | rabbitmq-utility/src/main/java/org/voltdb/bulkloader/VoltDBCLISpec.java:36 | the option set starts with empty options |
| VoltDbCliSpec.VoltDBCLISpec.PostParse | rabbitmq-utility/src/main/java/org/voltdb/bulkloader/VoltDBCLISpec.java:78-96 | postParse stores a fresh server array, user and password, and adds the errors, all as the postParse specification says |
| VoltDbCliOptions.VoltDBCLIOptions.constructor | rabbitmq-utility/src/main/java/org/voltdb/bulkloader/VoltDBCLIOptions.java:33-36 | all four fields start null |
| VoltDbCliOptions.VoltDBCLIOptions.PostParse | rabbitmq-utility/src/main/java/org/voltdb/bulkloader/VoltDBCLIOptions.java:73-83 | the four fields are read in order, then a null port throws and a negative one aborts, as the postParse specification says |
| VoltDbCliOptions.Defaults | rabbitmq-utility/src/main/java/org/voltdb/bulkloader/VoltDBCLIOptions.java:75-76 | without options: the one server "localhost", port 21212, no credentials |
| VoltDbCliOptions.SuccessSettings | rabbitmq-utility/src/main/java/org/voltdb/bulkloader/VoltDBCLIOptions.java:75-82 | a successful postParse stores what the getters read, with a non-negative port |
| VoltDbCliOptions.NegativePort | rabbitmq-utility/src/main/java/org/voltdb/bulkloader/VoltDBCLIOptions.java:80-82 | a negative --port aborts with "VoltDB port must be >= 0" |
| Sleeper.Normalised | rabbitmq-utility/src/main/java/org/voltdb/bulkloader/RandomSleeper.java:69-75 | both bounds set or neither; a lone maximum gets minimum 0 and a lone minimum is also the maximum; a bound given is kept |
| Sleeper.OptionSet.constructor | rabbitmq-utility/src/main/java/org/voltdb/bulkloader/RandomSleeper.java:41-42 | both bounds start null |
| Sleeper.OptionSet.PostParse | rabbitmq-utility/src/main/java/org/voltdb/bulkloader/RandomSleeper.java:65-85 | the stored range and the added errors are those of the postParse specification |
| Sleeper.RandomSleeper.constructor | rabbitmq-utility/src/main/java/org/voltdb/bulkloader/RandomSleeper.java:35-37 | the range is unset and verbose is off |
| Sleeper.RandomSleeper.SetDefaultRange | rabbitmq-utility/src/main/java/org/voltdb/bulkloader/RandomSleeper.java:98-102 | the two bounds are set as given and nothing else changes |
| Sleeper.RandomSleeper.SetVerbose | rabbitmq-utility/src/main/java/org/voltdb/bulkloader/RandomSleeper.java:104-107 | only the verbose flag changes |
| Sleeper.PostParseRange | rabbitmq-utility/src/main/java/org/voltdb/bulkloader/RandomSleeper.java:76-84 | after postParse the bounds are both set or both null; each error is added exactly when its condition holds; there are no errors exactly when the range is unset or 0 <= min <= max |
| Sleeper.LoneBounds | rabbitmq-utility/src/main/java/org/voltdb/bulkloader/RandomSleeper.java:69-75 | only --sleepmax n gives the range [0, n]; only --sleepmin n gives the fixed pause n |
| Sleeper.SleepSpec | rabbitmq-utility/src/main/java/org/voltdb/bulkloader/RandomSleeper.java:109-120 | sleep(): a pause happens only when both bounds are set and the maximum is positive, and no pause is ever negative; it is skipped exactly when the minimum is unset or the maximum is not positive |
| Sleeper.NoPauseUnlessSet | rabbitmq-utility/src/main/java/org/voltdb/bulkloader/RandomSleeper.java:111 | sleep() does nothing unless the minimum is set and the maximum is positive |
| Sleeper.PauseBounds | rabbitmq-utility/src/main/java/org/voltdb/bulkloader/RandomSleeper.java:111-118 | for a range that passed the checks, the pause is the minimum when the bounds agree, and otherwise lies in [min, max) |
| Sleeper.NegativeMinimumThrows | rabbitmq-utility/src/main/java/org/voltdb/bulkloader/RandomSleeper.java:114-118 | a range set directly with a negative minimum can give a negative timeout, which Thread.sleep refuses |
| Sleeper.InvertedRangeThrows | rabbitmq-utility/src/main/java/org/voltdb/bulkloader/RandomSleeper.java:112-113 | a range set directly with the minimum above the maximum makes nextInt throw IllegalArgumentException |
| LoaderConfig.CLIConfigImpl.constructor | src/main/java/org/voltdb/bulkloader/RabbitMQBulkLoader.java:43-76 | the option fields start at their declared defaults |
| LoaderConfig.CLIConfigImpl.Validate | src/main/java/org/voltdb/bulkloader/RabbitMQBulkLoader.java:82-113 | validate() ends as the validation specification says, and a configuration that validates is the one stored |
| LoaderConfig.DefaultsNeedQueue | src/main/java/org/voltdb/bulkloader/RabbitMQBulkLoader.java:90-92 | the defaults alone exit: no queue is named |
| LoaderConfig.CheckOrder | src/main/java/org/voltdb/bulkloader/RabbitMQBulkLoader.java:84-98 | each check's message is the outcome exactly when every earlier check passed and that one fails |
| LoaderConfig.ValidHasOneTarget | src/main/java/org/voltdb/bulkloader/RabbitMQBulkLoader.java:99-112 | a configuration that validates passed every check, keeps its other fields, and names exactly one non-empty trimmed target: the procedure when its trimmed name is non-empty, otherwise the table |
| LoaderConfig.TargetChoice | src/main/java/org/voltdb/bulkloader/RabbitMQBulkLoader.java:101-112 | once the other checks pass, both names blank exits with one message and both given exits with the other |
| LoaderCli.BulkLoaderOptions.constructor | rabbitmq-utility/src/main/java/org/voltdb/bulkloader/BulkLoaderOptions.java:60-65 | no target yet; maxerrors 100, flush 10, batch 200 |
| LoaderCli.BulkLoaderCLI.constructor | rabbitmq-utility/src/main/java/org/voltdb/bulkloader/BulkLoaderCLI.java:34 | the option set starts from fresh default options |
| LoaderCli.BulkLoaderCLI.PostParse | rabbitmq-utility/src/main/java/org/voltdb/bulkloader/BulkLoaderCLI.java:80-113 | the stored options, or the abort, are those of the postParse specification |
| LoaderCli.BulkLoaderCLI.SelectTarget | rabbitmq-utility/src/main/java/org/voltdb/bulkloader/BulkLoaderCLI.java:82-104 | the target from the positional argument and --procedure follows the target specification |
| LoaderCli.BulkLoaderCLI.ReadNumbers | rabbitmq-utility/src/main/java/org/voltdb/bulkloader/BulkLoaderCLI.java:105-112 | --batch and --flush follow the number specification, each checked right after it is read |
| LoaderCli.TooManyArguments | rabbitmq-utility/src/main/java/org/voltdb/bulkloader/BulkLoaderCLI.java:82-84 | more than one positional argument aborts first |
| LoaderCli.SuccessHasTarget | rabbitmq-utility/src/main/java/org/voltdb/bulkloader/BulkLoaderCLI.java:85-112 | on success exactly one target type is set, with a trimmed name: a table exactly when the one argument is not blank, and then named by it; a procedure named by the trimmed --procedure; batch >= 0, flush > 0, maxerrors untouched |
| LoaderCli.BlankProcedure | rabbitmq-utility/src/main/java/org/voltdb/bulkloader/BulkLoaderCLI.java:94-101 | a blank --procedure is accepted and names the empty procedure |
| LoaderCli.TableAndProcedure | rabbitmq-utility/src/main/java/org/voltdb/bulkloader/BulkLoaderCLI.java:96-98 | a non-blank table argument together with --procedure aborts |
| LoaderCli.NoTarget | rabbitmq-utility/src/main/java/org/voltdb/bulkloader/BulkLoaderCLI.java:102-104 | neither a non-blank table argument nor a procedure aborts |
| LoaderCli.DefaultNumbers | rabbitmq-utility/src/main/java/org/voltdb/bulkloader/BulkLoaderCLI.java:105-109 | without --batch and --flush the defaults 200 and 10 are kept |
| LoaderCli.NumberChecks | rabbitmq-utility/src/main/java/org/voltdb/bulkloader/BulkLoaderCLI.java:105-112 | starting from options that pass, a negative --batch aborts, and so does a --flush that is not positive |
| LoaderCli.BatchCheck | rabbitmq-utility/src/main/java/org/voltdb/bulkloader/BulkLoaderCLI.java:105-108 | starting from options that pass, replacing --batch by a negative number aborts with the batch-size message |
| LoaderCli.FlushCheck | rabbitmq-utility/src/main/java/org/voltdb/bulkloader/BulkLoaderCLI.java:109-112 | starting from options that pass, replacing --flush by a number that is not positive aborts with the flush-interval message |
| CsvReceive.TrailingDots | test-rabbitmq-csv-receive/src/main/java/org/voltdb/bulkloader/RMQCSVReceive.java:70-78 | the count covers only dots at the end of the message, and the character before them, if any, is not a dot |
| CsvReceive.DotCount | test-rabbitmq-csv-receive/src/main/java/org/voltdb/bulkloader/RMQCSVReceive.java:70-78 | the descending scan counts exactly the trailing dots |
| CsvReceive.TrailingDotsExact | test-rabbitmq-csv-receive/src/main/java/org/voltdb/bulkloader/RMQCSVReceive.java:71-78 | a run of dots ending the message and not preceded by a dot is the trailing run |
| CsvReceive.Strip | test-rabbitmq-csv-receive/src/main/java/org/voltdb/bulkloader/RMQCSVReceive.java:79-81 | the message loses exactly its trailing dots |
| CsvReceive.StripRoundTrip | test-rabbitmq-csv-receive/src/main/java/org/voltdb/bulkloader/RMQCSVReceive.java:79-81 | the stripped message followed by the dots is the message, and it does not end in a dot |
| CsvReceive.NoTrailingDot | test-rabbitmq-csv-receive/src/main/java/org/voltdb/bulkloader/RMQCSVReceive.java:69-81 | a message that does not end in a dot is left as it is, with no pause |
| CsvReceive.AllDots | test-rabbitmq-csv-receive/src/main/java/org/voltdb/bulkloader/RMQCSVReceive.java:69-81 | a message of n dots counts n and becomes empty |
| CsvReceive.PauseLength | test-rabbitmq-csv-receive/src/main/java/org/voltdb/bulkloader/RMQCSVReceive.java:83 | the pause is one second per dot up to 2147483 dots; from 2147484 to 4294967 dots the int product is negative, and beyond that it wraps round (4294968 dots give 704 ms) |
| CsvReceive.Receiver.Handle | test-rabbitmq-csv-receive/src/main/java/org/voltdb/bulkloader/RMQCSVReceive.java:66-83 | the delivery is acked first, then the stripped message is reported, then the pause is taken, or refused (ending the receiver) when it is negative |

## Left out

- **Broker I/O.** The RabbitMQ connection, channel and consumer are not modelled.
  - `initRabbitMQ()` becomes its outcome: an `InitResult` parameter of `read`.
  - The deliveries, shutdown signals and interrupts it would produce become a
    sequence of events.
  - The handle releases of `close()` are logged, not performed.
- **Decoding.** The decoding of a delivery's bytes into a `String` is not
  modelled. A delivery carries its text.
- **CSV tokenizing.** The tokenizer behind `ConnectorDataIterator` is a
  sequence of read results (a row, end of input, or an error). Quoting,
  separators and line splitting are not modelled.
- **Calls into VoltDB.** `CSVDataLoader`, `insertRow`, `getClient` and
  `createCSVLoader` are external. They appear as:
  - the rows handed to the loader;
  - the position of the first insert that throws;
  - the loader and client flags;
  - the responses given to `handleError`.
- **Concurrency.** VoltDB runs `ErrorHandler` on callback threads. The model
  runs it sequentially, and the `AtomicLong` error count is a plain shared
  counter.
- **`ExecutorService`.** `awaitTermination` is reduced to whether an executor
  is present and whether the wait is interrupted, which is a parameter.
- **Help and output.** Option registration (`preParse`), usage text,
  `HelpFormatter`, and all printing and logging are not modelled. A preParse
  appears only as its place in the call order.
- **`System.exit`.** An exit becomes a `Stop` outcome that carries the exit
  status and the message.
- **Cli.FormatNoArgs, Cli.Abort:** a width or an argument index before `%%`
  is taken to throw, as in `%5%`. `java.util.Formatter` accepts that form
  and pads the percent sign. `%n` is taken to print "\n", the line separator
  on Unix.
- **`exitWithMessageAndUsage`.** It becomes the `Exit` outcome of `validate()`.
- **Randomness and sleeping.** `Random.nextInt` is the `draw` parameter.
  `Thread.sleep` is the `Pause` result: a pause, or
  IllegalArgumentException for a negative timeout.
- **Host parsing.** `HostAndPort.fromString` is a parameter (`HostParser`)
  that gives a host and an optional port, or a rejection. `fromParts` is
  modelled.
- **Missing sources.**
  - `VoltDBOptions.java` is not part of this model; its fields are taken from
    their use in `VoltDBCLISpec`.
  - `Client.VOLTDB_SERVER_PORT` is taken to be 21212.
  - `CLIConfig.parse` is not part of this model.
- **Receive loop.** The test receiver's blocking wait for deliveries is not
  modelled. `Receiver.Handle` is one delivery.
- **Entry points.** The `main` methods only wire the modelled parts together
  and are not modelled.
- **After an exception.** When a member models a Java exception, its contract
  names the exception. It does not say what state the object is left in
  afterwards.
- **JavaLang.UpperChar, JavaLang.LowerChar:** the case mapping is exact on
  ASCII and on ı, ſ, İ and the Kelvin sign, the only characters whose case
  mapping reaches an ASCII letter. Every other character is left unchanged.
  - So comparisons against the exchange type names, which are lower-case
    ASCII, match Java's.
  - Two other letters that differ only in case (é and É) are not matched, and
    their case is not changed in an error message. Java would match them and
    lower them.
- **JavaLang.ToLower:** this is `toLowerCase()` in a locale without special
  rules.
  - In a Turkish or Azeri default locale, Java lowers I to ı and İ to i.
  - Java also lowers a final Σ to ς.
  - Neither is modelled.
  - With the exchange type names, a Turkish locale still stores the same type;
    only the text of the invalid-type error differs. Under such a locale an
    İ would match where the model rejects it.
