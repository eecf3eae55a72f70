# InfluxDB line-protocol writers of jmxtrans-agent, in Dafny

jmxtrans-agent polls JMX attributes and hands each value to an output writer. This
project models the two InfluxDB writers of the repository:

- `LineProtocolOutputWriter`, the newer one. It turns one metric into one line of InfluxDB
  line protocol, `measurement,tags value=<value> <timestamp>\n`. It writes the line to an
  HTTP POST stream that it keeps open across writes and closes in `postCollect` at the end
  of each collection. It also subscribes to two HBase exception MBeans and forwards each
  JMX exception notification as a metric line.
- `LineProtocalOutputWriter`, the older one. It builds a slightly different line and
  opens a new HTTP connection for every write.

The project has these modules:

- `Text`: the Java string operations the writers use (`replace`, `replaceAll` of a single
  character, `null` in string concatenation, `Long.toString`), with a decimal reader to
  state round trips.
- `LineFormat`: the exact text of both writers' lines, with lemmas on field layout,
  character content, single-line shape, the nanosecond timestamp and how the two formats
  differ.
- `Responses`: the 200/204 success test and the `createDatabase` log guard.
- `MetricPrefix`: the `servers.<host>.` metric path prefix.
- `Subscriptions`: the pending-subscription scan (`registException`). It is a loop over
  the list, specified by two functions that say which names stay and which get a
  listener.
- `LineProtocolWriter`: the newer writer as a class. It holds three nullable handle
  fields (connection, stream, stream writer) and the lines written to the open stream.
  Each method states the new handles and the abstract state, `Closed` or
  `Open(lines sent)`. The invariant `Valid()` says that either all three handles are
  null or none is.
- `LegacyWriter`: the older writer as a class. Its `writeQueryResult` changes none of
  the modelled fields; the only field the code writes is `url`, rebuilt on every call.
  It reports which line was written to the stream, how the `try` block ended, whether the `finally`
  threw, and whether success is logged, both as the code decides it and as evidently
  intended.

The environment is passed in as parameters:

- HTTP and stream calls become outcome flags (`OpenIo`, `ReleaseIo`, `SendIo`).
- The response code is a parameter, or `None` when reading it throws.
- The MBean server becomes a pair of oracle functions (`isRegistered`, `subscribeOk`).
- The clock is a `millis: int` parameter.
- The host-name lookup is an `Option<string>`, `None` when it fails.
- The code that `createDatabase` returned is a parameter.
- The parsed `host`, `port` and timeout settings are parameters of `PostConstruct`.

## Model

| member | source | states |
|---|---|---|
| `Text.ReplaceChar` | src/main/java/org/jmxtrans/agent/LineProtocolOutputWriter.java:160 | `String.replace(char, char)`: same length, each occurrence of `from` becomes `to`, every other character stays in place, and no `from` is left |
| `Text.RemoveChar` | src/main/java/org/jmxtrans/agent/LineProtocolOutputWriter.java:160 | `replaceAll(" ", "")`: no occurrence of the character is left, and every other character keeps its multiplicity; the order of the kept characters follows with `Text.RemoveCharAppend` and `Text.RemoveCharAbsent` |
| `Text.ReplaceCharAppend` | src/main/java/org/jmxtrans/agent/LineProtocolOutputWriter.java:160 | replacing a character distributes over concatenation, so sanitising `"," + tags` sanitises the tags after the comma |
| `Text.RemoveCharAppend` | src/main/java/org/jmxtrans/agent/LineProtocolOutputWriter.java:160 | removing a character distributes over concatenation |
| `Text.RemoveCharAbsent` | src/main/java/org/jmxtrans/agent/LineProtocolOutputWriter.java:160 | a string without spaces is left unchanged by the space removal |
| `Text.NatToString` | src/main/java/org/jmxtrans/agent/LineProtocolOutputWriter.java:161 | decimal digits of a non-negative number, at least one and without a leading zero |
| `Text.LongToString` | src/main/java/org/jmxtrans/agent/LineProtocolOutputWriter.java:161 | `Long.toString`: non-empty, no space or line break, and all digits exactly when the number is not negative |
| `Text.ParseNatToString` | src/main/java/org/jmxtrans/agent/LineProtocolOutputWriter.java:161 | reading the digits of a natural number back gives the number |
| `Text.ParseNatAppendSixZeros` | src/main/java/org/jmxtrans/agent/LineProtocolOutputWriter.java:161 | appending `000000` to digits multiplies the value read by one million |
| `Text.LongToStringRoundTrip` | src/main/java/org/jmxtrans/agent/LineProtocolOutputWriter.java:161 | reading `Long.toString(n)` back gives `n`, negative numbers included |
| `LineFormat.RenderValue` | src/main/java/org/jmxtrans/agent/LineProtocolOutputWriter.java:154-159 | a `String` value is wrapped in double quotes, so unquoting gives it back; any other value is its `toString()` text unchanged |
| `LineFormat.MeasurementName` | src/main/java/org/jmxtrans/agent/LineProtocolOutputWriter.java:160 | the measurement has the metric name's length, holds no `.`, has `_` where the name had `.`, and keeps every other character |
| `LineFormat.TagSegment` | src/main/java/org/jmxtrans/agent/LineProtocolOutputWriter.java:153-160 | the tag segment is a comma followed by the tag setting with `.` turned into `_` and spaces removed, and it holds neither `.` nor a space; an absent `tags` setting prints as `null` |
| `LineFormat.AbsentTagSegment` | src/main/java/org/jmxtrans/agent/LineProtocolOutputWriter.java:153-160 | an absent `tags` setting, which string concatenation prints as `null`, gives the tag segment `,null` |
| `LineFormat.CleanTagsVerbatim` | src/main/java/org/jmxtrans/agent/LineProtocolOutputWriter.java:153-160 | a tag setting without dots or spaces comes out after the comma unchanged |
| `LineFormat.TagSegmentNewlineFree` | src/main/java/org/jmxtrans/agent/LineProtocolOutputWriter.java:153-160 | sanitising the tags introduces no line break |
| `LineFormat.TimestampText` | src/main/java/org/jmxtrans/agent/LineProtocolOutputWriter.java:160-161 | the timestamp field has at least seven characters, no space or line break, and ends in `000000` |
| `LineFormat.TimestampIsNanoseconds` | src/main/java/org/jmxtrans/agent/LineProtocolOutputWriter.java:160-161 | read as a decimal number, the timestamp field is the clock's milliseconds times 1000000, i.e. nanoseconds |
| `LineFormat.ProtocolLine` | src/main/java/org/jmxtrans/agent/LineProtocolOutputWriter.java:160-161 | the newer writer's line is non-empty and ends with a line break |
| `LineFormat.ProtocolLineLayout` | src/main/java/org/jmxtrans/agent/LineProtocolOutputWriter.java:153-161 | the line is the measurement, then the tag segment, then ` value=`, the rendered value, a space, the timestamp field and `\n`, each at the position the lengths before it give |
| `LineFormat.ProtocolLineIsOneLine` | src/main/java/org/jmxtrans/agent/LineProtocolOutputWriter.java:160-161 | when the name, the tags and the value hold no line break, the line's only line break is its last character |
| `LineFormat.MangleMessage` | src/main/java/org/jmxtrans/agent/LineProtocolOutputWriter.java:266 | a notification message keeps its length, each line break becomes `#`, every other character stays in place, and no line break is left |
| `LineFormat.NotificationLine` | src/main/java/org/jmxtrans/agent/LineProtocolOutputWriter.java:264-269 | the line for a notification is a newer-writer line, non-empty and ending with a line break |
| `LineFormat.NotificationWithoutBreakVerbatim` | src/main/java/org/jmxtrans/agent/LineProtocolOutputWriter.java:264-269 | a message without a line break is sent as it is: the notification line is the newer line for the message itself |
| `LineFormat.NotificationLineIsOneLine` | src/main/java/org/jmxtrans/agent/LineProtocolOutputWriter.java:264-269 | a notification line is a single line whatever its message holds |
| `LineFormat.NotificationValueQuoted` | src/main/java/org/jmxtrans/agent/LineProtocolOutputWriter.java:264-269 | the field of a notification line is ` value=` followed by the mangled message in double quotes |
| `LineFormat.LegacyLine` | src/main/java/org/jmxtrans/agent/LineProtocalOutputWriter.java:139-147 | the older writer's line is non-empty and ends with a line break |
| `LineFormat.LegacyLineLayout` | src/main/java/org/jmxtrans/agent/LineProtocalOutputWriter.java:139-147 | the older line is the measurement, a comma and the tag setting verbatim, `  value=` with two spaces, the rendered value and `\n`, without a timestamp; an absent `tags` setting prints as `null`, so the comma is followed by `null` |
| `LineFormat.LegacyAndProtocolLineDiffer` | src/main/java/org/jmxtrans/agent/LineProtocalOutputWriter.java:139-147 | for clean tags the two lines share measurement, tags and field; the older one has an extra space before the field, and the newer one ends with ` <timestamp>` |
| `Responses.DatabaseFailureLoggedAsWritten` | src/main/java/org/jmxtrans/agent/LineProtocolOutputWriter.java:97 | the failure guard as written, `code != 200 || code != 204`, holds for every code |
| `Responses.DatabaseFailureAlwaysLogged` | src/main/java/org/jmxtrans/agent/LineProtocolOutputWriter.java:96-100 | the `createDatabase` failure guard as written holds for every code, 200 and 204 included |
| `Responses.DatabaseFailureLogged` | src/main/java/org/jmxtrans/agent/LineProtocolOutputWriter.java:96-100 | the intended guard: a failure is logged exactly when the code is neither 200 nor 204 |
| `MetricPrefix.HostSegment` | src/main/java/org/jmxtrans/agent/LineProtocolOutputWriter.java:134-139 | the host part is the looked-up name with `.` turned into `_`, or `#unknown#` when the lookup fails, and holds no `.` |
| `MetricPrefix.DerivedPrefix` | src/main/java/org/jmxtrans/agent/LineProtocolOutputWriter.java:140 | the derived prefix starts with `servers.` and ends with `.`; a failed host lookup gives `servers.#unknown#.` |
| `MetricPrefix.DerivedPrefixShape` | src/main/java/org/jmxtrans/agent/LineProtocolOutputWriter.java:140 | a derived prefix is `servers.`, the host part, and `.`, with exactly two dots |
| `Subscriptions.StillPending` | src/main/java/org/jmxtrans/agent/LineProtocolOutputWriter.java:245-258 | a name stays on the pending list exactly when it was on it and is not both registered and successfully subscribed |
| `Subscriptions.Subscribed` | src/main/java/org/jmxtrans/agent/LineProtocolOutputWriter.java:245-258 | a listener is attached exactly to the names on the list that are registered and accept it |
| `Subscriptions.StillPendingIsSubsequence` | src/main/java/org/jmxtrans/agent/LineProtocolOutputWriter.java:245-258 | the scan only removes entries; the remaining ones keep their relative order |
| `Subscriptions.ScanPartitions` | src/main/java/org/jmxtrans/agent/LineProtocolOutputWriter.java:245-258 | every scanned name is either kept or subscribed: the two lists split the original list, counting duplicates |
| `Subscriptions.StillPendingIdempotent` | src/main/java/org/jmxtrans/agent/LineProtocolOutputWriter.java:245-258 | a second scan against the same server state removes nothing more |
| `Subscriptions.PruneSubscribed` | src/main/java/org/jmxtrans/agent/LineProtocolOutputWriter.java:245-258 | the iterator loop leaves exactly the still-pending names, in order, and attaches listeners to exactly the subscribed ones |
| `LineProtocolWriter.LineProtocolOutputWriter.constructor` | src/main/java/org/jmxtrans/agent/LineProtocolOutputWriter.java:66-85 | a new writer is closed and holds the two HBase exception MBean names as pending |
| `LineProtocolWriter.LineProtocolOutputWriter.PostConstruct` | src/main/java/org/jmxtrans/agent/LineProtocolOutputWriter.java:87-102 | stores the settings, port default 8086 and timeout default 10000, stores `namePrefix` or none, runs one scan and leaves the connection untouched; the failure log as written fires for every code, the intended one exactly for a non-success code |
| `LineProtocolWriter.LineProtocolOutputWriter.BuildMetricPathPrefix` | src/main/java/org/jmxtrans/agent/LineProtocolOutputWriter.java:130-142 | returns a stored prefix unchanged; otherwise stores and returns the derived prefix, so a later call returns the same value |
| `LineProtocolWriter.LineProtocolOutputWriter.RegistException` | src/main/java/org/jmxtrans/agent/LineProtocolOutputWriter.java:245-258 | the pending list becomes the still-pending part of itself and never grows |
| `LineProtocolWriter.LineProtocolOutputWriter.EnsureLineProtocalConnection` | src/main/java/org/jmxtrans/agent/LineProtocolOutputWriter.java:201-218 | with a connection present nothing changes; otherwise success opens three fresh handles, a connect failure leaves none, and a stream failure leaves only the connection |
| `LineProtocolWriter.LineProtocolOutputWriter.ReleaseLineProtocalConnection` | src/main/java/org/jmxtrans/agent/LineProtocolOutputWriter.java:174-199 | every handle ends null and the state is `Closed` whatever fails; a code other than 200 or 204 is only reported, and only when the writer was open, closed normally and the code could be read |
| `LineProtocolWriter.LineProtocolOutputWriter.SendLine` | src/main/java/org/jmxtrans/agent/LineProtocolOutputWriter.java:163-171 | the line is appended to the open connection, reusing an existing one; any failure releases the connection and is rethrown as the same error |
| `LineProtocolWriter.LineProtocolOutputWriter.WriteQueryResult` | src/main/java/org/jmxtrans/agent/LineProtocolOutputWriter.java:150-172 | runs one scan, then the newer line is appended to the open connection or the failing call's error is thrown with the connection closed |
| `LineProtocolWriter.LineProtocolOutputWriter.PostCollect` | src/main/java/org/jmxtrans/agent/LineProtocolOutputWriter.java:220-234 | nothing happens without an open writer; otherwise the connection is released whether or not the flush throws, and a flush failure is passed on |
| `LineProtocolWriter.LineProtocolOutputWriter.HandleNotification` | src/main/java/org/jmxtrans/agent/LineProtocolOutputWriter.java:262-273 | a delivered notification appends its notification line; an undelivered one leaves the writer closed and throws nothing |
| `LineProtocolWriter.ReuseScenario` | src/main/java/org/jmxtrans/agent/LineProtocolOutputWriter.java:201-204 | two successful writes on a closed writer share the connection the first one opened, which then carries both lines in order |
| `LineProtocolWriter.ReopenScenario` | src/main/java/org/jmxtrans/agent/LineProtocolOutputWriter.java:220-234 | after `postCollect` the next successful write is on a new connection carrying only its own line |
| `LegacyWriter.SuccessLoggedAfterCaughtFailure` | src/main/java/org/jmxtrans/agent/LineProtocalOutputWriter.java:176-191 | as written, a `try` that ended in a caught `IOException` still reaches the success log, which the intended log does not |
| `LegacyWriter.SuccessLogged` | src/main/java/org/jmxtrans/agent/LineProtocalOutputWriter.java:171-191 | the intended success log fires only on a completed `try`, and only where the log as written fires too |
| `LegacyWriter.LineProtocalOutputWriter.constructor` | src/main/java/org/jmxtrans/agent/LineProtocalOutputWriter.java:52-60 | a new writer has no settings, no prefix, port 8086 and timeout 500 |
| `LegacyWriter.LineProtocalOutputWriter.PostConstruct` | src/main/java/org/jmxtrans/agent/LineProtocalOutputWriter.java:62-81 | stores the settings, port default 8086 and timeout default 500, and stores `namePrefix` or none; the failure log as written fires for every code, the intended one exactly for a non-success code |
| `LegacyWriter.LineProtocalOutputWriter.BuildMetricPathPrefix` | src/main/java/org/jmxtrans/agent/LineProtocalOutputWriter.java:110-124 | returns a stored prefix unchanged; otherwise stores and returns the derived prefix |
| `LegacyWriter.LineProtocalOutputWriter.WriteQueryResult` | src/main/java/org/jmxtrans/agent/LineProtocalOutputWriter.java:131-194 | the older line is written to the stream, with the writer closed, exactly when connect, stream and send succeed; a code other than 200/204 returns early; a close in the `finally` can throw only after a failed send; the success log as written fires whenever nothing was thrown and the `try` did not return early, a failed connect included; the intended one only for an accepted line |

## Left out

- HTTP, streams and `disconnect` are not modelled. Each call that can throw is an outcome
  flag. Neither writer turns on streaming mode, so the connection buffers the request
  body and sends it only when the response code is read. What the model calls written is
  the text handed to the stream, not text the server is known to have received. The URL strings (`/write?db=…`, `/query?q=CREATE+DATABASE+…`), request headers
  and the `Content-Length` value are not modelled.
- `createDatabase` is not modelled; it is a single network call. Its result code is a
  parameter of `PostConstruct`, and the older writer's hard-coded server address in it is
  not modelled either.
- The malformed-URL path of both `writeQueryResult`/`ensureLineProtocalConnection` is not
  modelled. After a swallowed `MalformedURLException` the code goes on with a stale or
  null `url`, and that depends on Java null semantics. Likewise in `createDatabase`: when
  `new URL` or `openConnection` throws, its `finally` calls `disconnect()` on a null
  connection, and the `NullPointerException` leaves `postConstruct` before the failure
  log (and, in the newer writer, before the first subscription scan). `PostConstruct`
  models only the paths on which `createDatabase` returns a code.
- A `null` value is ruled out by the `Value` type. The code dereferences it with
  `value.toString()` and throws `NullPointerException`. Nothing suppresses output for it.
- Calls made before `postConstruct` are not modelled. In the code the settings map is
  still null and the write throws `NullPointerException`. The model starts from an empty
  settings map. Likewise the constructors' host `""` and port 8086 are placeholders: the
  code holds no host or port until `postConstruct`, where 8086 is only the default of the
  port setting.
- Concurrency is not modelled. The notification callback runs on the MBean server's
  thread and shares the unsynchronised connection fields.
- Logging is not modelled, except for the two log decisions that are results (each both
  as written and as intended), and neither is `System.out` printing or `toString`.
- The reads of `getString`/`getInt` and the `HostAndPort` object are not modelled.
  `PostConstruct` takes the host and the parsed port and timeout as parameters.
- The unused `type` argument of `writeQueryResult` and `writeInvocationResult` is
  dropped.
- `writeInvocationResult` is not modelled separately; it only forwards to
  `writeQueryResult`.
- The connect-timeout setting is stored but never applied to a connection, in both
  writers.
- The `namePrefix` setting and `buildMetricPathPrefix` are never used when building a
  line.
- `registException` removes entries from a `LinkedList` in place through its iterator.
  The model builds the list of remaining names as a new sequence and assigns it to the
  field.
- `LineProtocolWriter.LineProtocolOutputWriter.ReleaseLineProtocalConnection`: a failing
  stream close is swallowed and leaves no trace, so it has no flag. Whether
  `getResponseMessage` throws is not modelled.
- `LegacyWriter.LineProtocalOutputWriter.WriteQueryResult`: `write`, `flush` and the
  writer's `close` inside the `try` share one flag, `sendOk`. Which of them threw is not
  distinguished, and neither is which exception leaves the `finally`; only whether one
  does is reported.
- The timestamp is sent as the milliseconds followed by `000000`, which is nanoseconds.
  The write URL carries no `precision` parameter.
- Nothing counts writes or measures time between flushes. Only `postCollect` flushes the
  newer writer at the end of a collection; apart from it, its connection is closed only
  when a write fails.
- A `null` message from `notification.getMessage()` is ruled out by `message: string`.
  The code throws `NullPointerException` at the `replace` call, before the `try`, so the
  `IOException` handler does not catch it.
- The older writer's `url` field, the only field its `writeQueryResult` assigns, is not
  modelled. It matters only on the malformed-URL path, which is left out above.
- `LineProtocolWriter.LineProtocolOutputWriter.PostConstruct`: besides the failure log as
  the code decides it (`failureLoggedAsWritten`), it reports the corrected decision
  (`failureLoggedIntended`), see "## Findings".
- `LegacyWriter.LineProtocalOutputWriter.PostConstruct`: besides the failure log as the
  code decides it (`failureLoggedAsWritten`), it reports the corrected decision
  (`failureLoggedIntended`), see "## Findings".
- `LegacyWriter.LineProtocalOutputWriter.WriteQueryResult`: besides the success log as
  the code decides it (`successLoggedAsWritten`), it reports the corrected decision
  (`successLogged`), see "## Findings".

## Findings

| source | as written | input that shows it | evidently intended | confidence | as-written member | corrected member |
|---|---|---|---|---|---|---|
| src/main/java/org/jmxtrans/agent/LineProtocolOutputWriter.java:97 | the guard `respondCode != 200` OR `respondCode != 204` is true for every code | `respondCode = 200` logs "Fail to create database" | log only when the code is neither 200 nor 204 (`&&`) | not executed | `Responses.DatabaseFailureAlwaysLogged` | `Responses.DatabaseFailureLogged` |
| src/main/java/org/jmxtrans/agent/LineProtocalOutputWriter.java:75 | the same tautological guard in the older writer | `respondCode = 204` logs "Fail to create database" | log only when the code is neither 200 nor 204 | not executed | `Responses.DatabaseFailureAlwaysLogged` | `Responses.DatabaseFailureLogged` |
| src/main/java/org/jmxtrans/agent/LineProtocalOutputWriter.java:191 | the success log comes after the `try`/`catch`, so a caught `IOException` falls through to it | `openConnection` throws: "Failure to send" and then "Successful to send" are logged | log success only when the `try` completed with 200 or 204 | not executed | `LegacyWriter.SuccessLoggedAfterCaughtFailure` | `LegacyWriter.SuccessLogged` |
