/** The newer InfluxDB writer (`LineProtocolOutputWriter`): it keeps one HTTP POST stream
    open across writes, closes it at the end of each collection, and subscribes to JMX
    exception notifications, forwarding each one as a metric. */
module LineProtocolWriter {
  import opened Text
  import opened LineFormat
  import opened Responses
  import opened Subscriptions
  import opened MetricPrefix

  /** The three I/O objects the writer holds. Only their identity matters here: a
      reused connection is the same object, a new one is freshly allocated. */
  class HttpConnection { }
  class OutputStream { }
  class OutputStreamWriter { }

  /** The `IOException`s the write path can raise, by the call that raised them. */
  datatype IoError = ConnectFailed | StreamFailed | WriteFailed | FlushFailed

  /** A call that returns normally, or throws. */
  datatype Outcome = Ok | Thrown(error: IoError)

  /** The connection as the rest of the agent sees it: closed, or open with the lines
      written to it so far. */
  datatype ConnState = Closed | Open(sent: seq<string>)

  /** Whether `url.openConnection()` and `getOutputStream()` return normally. */
  datatype OpenIo = OpenIo(connectOk: bool, streamOk: bool)

  /** Whether closing the writer returns normally, and the response code read after it
      (`None` when reading it throws). A failing stream close is swallowed and leaves no
      trace, so it needs no flag. */
  datatype ReleaseIo = ReleaseIo(closeWriterOk: bool, responseCode: Option<int>)

  /** The exception MBeans the constructor puts on the pending list. */
  const ListenerNames: seq<ObjectName> := [
    "Hadoop:service=HBase,name=RegionServer,sub=ServerExceptions",
    "Hadoop:service=HBase,name=RegionServer,sub=RegionsExceptions"
  ]

  const DefaultPort := 8086
  const DefaultConnectTimeoutMillis := 10000

  class LineProtocolOutputWriter {
    var settings: map<string, string>
    var host: string
    var port: int
    /** Configured, but never applied to a connection. */
    var connectTimeoutMillis: int
    var metricPathPrefix: Option<string>
    var urlConnection: HttpConnection?
    var outputStream: OutputStream?
    var outputStreamWriter: OutputStreamWriter?
    /** The lines written through `outputStreamWriter` since it was opened. */
    var written: seq<string>
    /** The exception MBeans not yet subscribed to. */
    var objectNames: seq<ObjectName>

    /** Between calls the writer holds no handle at all, or all three. */
    predicate Valid()
      reads this
    {
      (urlConnection == null && outputStream == null && outputStreamWriter == null && written == [])
      || (urlConnection != null && outputStream != null && outputStreamWriter != null)
    }

    /** What a failure part-way through opening may leave: a connection without a stream. */
    predicate Shaped()
      reads this
    {
      (outputStreamWriter != null ==> outputStream != null)
      && (outputStream != null ==> urlConnection != null)
      && (outputStreamWriter == null ==> written == [])
    }

    function State(): ConnState
      reads this`outputStreamWriter, this`written
    {
      if outputStreamWriter == null then Closed else Open(written)
    }

    /** The `tags` setting; `Map.get` gives null when it is absent. */
    function Tags(): Option<string>
      reads this`settings
    {
      if "tags" in settings then Some(settings["tags"]) else None
    }

    /** The connection handles and the lines on them are those of the pre-state. */
    twostate predicate SameConnection()
      reads this
    {
      urlConnection == old(urlConnection) && outputStream == old(outputStream)
      && outputStreamWriter == old(outputStreamWriter) && written == old(written)
    }

    constructor ()
      ensures Valid() && State() == Closed
      ensures urlConnection == null && outputStream == null && outputStreamWriter == null
      ensures objectNames == ListenerNames && metricPathPrefix == None
      ensures settings == map[] && connectTimeoutMillis == DefaultConnectTimeoutMillis
    {
      settings := map[];
      host, port := "", DefaultPort;
      connectTimeoutMillis := DefaultConnectTimeoutMillis;
      metricPathPrefix := None;
      urlConnection, outputStream, outputStreamWriter := null, null, null;
      written := [];
      objectNames := ListenerNames;
    }

    /** `postConstruct`: stores the settings, logs the database-creation failure, and runs
        a first subscription scan. `failureLoggedAsWritten` is the log as the code decides
        it, which fires for every code; `failureLoggedIntended` is the evidently intended
        decision, a failure only for a code other than 200 or 204. The host and the parsed
        port and timeout settings are given, as is the code `createDatabase` returned (0
        when connecting or reading the code failed). */
    method PostConstruct(newSettings: map<string, string>, configuredHost: string, configuredPort: Option<int>,
                         configuredTimeout: Option<int>, createDatabaseCode: int, server: MBeanServer)
      returns (failureLoggedAsWritten: bool, failureLoggedIntended: bool)
      requires Valid()
      modifies this`settings, this`host, this`port, this`connectTimeoutMillis, this`metricPathPrefix, this`objectNames
      ensures Valid() && SameConnection()
      ensures settings == newSettings && host == configuredHost
      ensures port == (if configuredPort.Some? then configuredPort.value else DefaultPort)
      ensures connectTimeoutMillis == (if configuredTimeout.Some? then configuredTimeout.value else DefaultConnectTimeoutMillis)
      ensures metricPathPrefix == (if "namePrefix" in newSettings then Some(newSettings["namePrefix"]) else None)
      ensures failureLoggedAsWritten == DatabaseFailureLoggedAsWritten(createDatabaseCode) && failureLoggedAsWritten
      ensures failureLoggedIntended <==> !IsSuccessCode(createDatabaseCode)
      ensures objectNames == StillPending(server, old(objectNames))
    {
      settings := newSettings;
      host := configuredHost;
      port := if configuredPort.Some? then configuredPort.value else DefaultPort;
      metricPathPrefix := if "namePrefix" in newSettings then Some(newSettings["namePrefix"]) else None;
      connectTimeoutMillis := if configuredTimeout.Some? then configuredTimeout.value else DefaultConnectTimeoutMillis;
      DatabaseFailureAlwaysLogged(createDatabaseCode);
      failureLoggedAsWritten := DatabaseFailureLoggedAsWritten(createDatabaseCode);
      failureLoggedIntended := DatabaseFailureLogged(createDatabaseCode);
      RegistException(server);
    }

    /** `buildMetricPathPrefix`: the configured prefix if there is one; otherwise the one
        derived from the host-name lookup, stored so that later calls return it. */
    method BuildMetricPathPrefix(hostLookup: Option<string>) returns (prefix: string)
      modifies this`metricPathPrefix
      ensures old(metricPathPrefix).Some? ==> prefix == old(metricPathPrefix).value && metricPathPrefix == old(metricPathPrefix)
      ensures old(metricPathPrefix).None? ==> prefix == DerivedPrefix(hostLookup) && metricPathPrefix == Some(prefix)
    {
      if metricPathPrefix.Some? {
        return metricPathPrefix.value;
      }
      prefix := DerivedPrefix(hostLookup);
      metricPathPrefix := Some(prefix);
    }

    /** `registException`: one subscription scan over the pending list. */
    method RegistException(server: MBeanServer)
      modifies this`objectNames
      ensures objectNames == StillPending(server, old(objectNames))
      ensures |objectNames| <= |old(objectNames)|
    {
      var pending, _ := PruneSubscribed(server, objectNames);
      objectNames := pending;
    }

    /** `ensureLineProtocalConnection`: nothing to do while a connection exists; otherwise
        open one and its stream. A failure propagates, possibly leaving the connection
        without a stream. */
    method EnsureLineProtocalConnection(io: OpenIo) returns (r: Outcome)
      requires Valid()
      modifies this`urlConnection, this`outputStream, this`outputStreamWriter
      ensures Shaped()
      ensures old(urlConnection) != null ==> r == Ok && SameConnection()
      ensures old(urlConnection) == null ==>
                (r == Ok <==> io.connectOk && io.streamOk)
                && (!io.connectOk ==> r == Thrown(ConnectFailed) && urlConnection == null)
                && (io.connectOk ==> fresh(urlConnection))
                && (io.connectOk && !io.streamOk ==> r == Thrown(StreamFailed))
                && (r != Ok ==> outputStream == null && outputStreamWriter == null)
                && (r == Ok ==> fresh(outputStream) && fresh(outputStreamWriter))
      ensures r == Ok ==> Valid() && State() == Open(old(written))
      ensures written == old(written)
    {
      if urlConnection != null {
        return Ok;
      }
      if !io.connectOk {
        return Thrown(ConnectFailed);
      }
      urlConnection := new HttpConnection;
      if !io.streamOk {
        return Thrown(StreamFailed);
      }
      outputStream := new OutputStream;
      outputStreamWriter := new OutputStreamWriter;
      r := Ok;
    }

    /** `releaseLineProtocalConnection`: close the writer and read the response code,
        close the stream, disconnect; every failure is swallowed and every handle ends
        null. Returns the code when it was read and is not a success (it is only logged). */
    method ReleaseLineProtocalConnection(io: ReleaseIo) returns (rejectedCode: Option<int>)
      requires Shaped()
      modifies this`urlConnection, this`outputStream, this`outputStreamWriter, this`written
      ensures urlConnection == null && outputStream == null && outputStreamWriter == null
      ensures Valid() && State() == Closed
      ensures rejectedCode.Some? <==> (old(outputStreamWriter) != null && io.closeWriterOk
                                       && io.responseCode.Some? && !IsSuccessCode(io.responseCode.value))
      ensures rejectedCode.Some? ==> rejectedCode == io.responseCode
    {
      rejectedCode := None;
      if outputStreamWriter != null {
        if io.closeWriterOk && io.responseCode.Some? && !IsSuccessCode(io.responseCode.value) {
          rejectedCode := io.responseCode;
        }
        outputStreamWriter := null;
        written := [];
      }
      if outputStream != null {
        outputStream := null;
      }
      if urlConnection != null {
        urlConnection := null;
      }
    }

    /** `writeQueryResult`: a subscription scan, then the line is built and written to the
        (possibly reused) connection. On an I/O failure the connection is released and the
        same exception is thrown to the caller. The `type` argument is never used. */
    method WriteQueryResult(metricName: string, value: Value, millis: int, server: MBeanServer,
                            openIo: OpenIo, writeOk: bool, releaseIo: ReleaseIo) returns (r: Outcome)
      requires Valid()
      modifies this`objectNames, this`urlConnection, this`outputStream, this`outputStreamWriter, this`written
      ensures Valid()
      ensures objectNames == StillPending(server, old(objectNames))
      ensures r == Ok <==> (old(urlConnection) != null || (openIo.connectOk && openIo.streamOk)) && writeOk
      ensures r == Thrown(ConnectFailed) <==> old(urlConnection) == null && !openIo.connectOk
      ensures r == Thrown(StreamFailed) <==> old(urlConnection) == null && openIo.connectOk && !openIo.streamOk
      ensures r == Thrown(WriteFailed) <==> (old(urlConnection) != null || (openIo.connectOk && openIo.streamOk)) && !writeOk
      ensures r == Ok ==> State() == Open(old(written) + [ProtocolLine(metricName, Tags(), value, millis)])
      ensures r == Ok && old(urlConnection) != null ==>
                urlConnection == old(urlConnection) && outputStream == old(outputStream)
                && outputStreamWriter == old(outputStreamWriter)
      ensures r == Ok && old(urlConnection) == null ==>
                fresh(urlConnection) && fresh(outputStream) && fresh(outputStreamWriter)
      ensures r != Ok ==> State() == Closed && urlConnection == null && outputStream == null
    {
      RegistException(server);
      var msg := ProtocolLine(metricName, Tags(), value, millis);
      r := SendLine(msg, openIo, writeOk, releaseIo);
    }

    /** The `try` block of `writeQueryResult` and its handler: make sure a connection is
        open, write `msg` to it; on an `IOException` release the connection and rethrow. */
    method SendLine(msg: string, openIo: OpenIo, writeOk: bool, releaseIo: ReleaseIo) returns (r: Outcome)
      requires Valid()
      modifies this`urlConnection, this`outputStream, this`outputStreamWriter, this`written
      ensures Valid()
      ensures r == Ok <==> (old(urlConnection) != null || (openIo.connectOk && openIo.streamOk)) && writeOk
      ensures r == Thrown(ConnectFailed) <==> old(urlConnection) == null && !openIo.connectOk
      ensures r == Thrown(StreamFailed) <==> old(urlConnection) == null && openIo.connectOk && !openIo.streamOk
      ensures r == Thrown(WriteFailed) <==> (old(urlConnection) != null || (openIo.connectOk && openIo.streamOk)) && !writeOk
      ensures r == Ok ==> State() == Open(old(written) + [msg])
      ensures r == Ok && old(urlConnection) != null ==>
                urlConnection == old(urlConnection) && outputStream == old(outputStream)
                && outputStreamWriter == old(outputStreamWriter)
      ensures r == Ok && old(urlConnection) == null ==>
                fresh(urlConnection) && fresh(outputStream) && fresh(outputStreamWriter)
      ensures r != Ok ==> State() == Closed && urlConnection == null && outputStream == null
    {
      r := EnsureLineProtocalConnection(openIo);
      if r == Ok {
        if writeOk {
          written := written + [msg];
        } else {
          r := Thrown(WriteFailed);
        }
      }
      if r != Ok {
        var _ := ReleaseLineProtocalConnection(releaseIo);
      }
    }

    /** `postCollect`: nothing to do without an open writer; otherwise flush, and release
        whether or not the flush throws, then let its exception through. */
    method PostCollect(flushOk: bool, releaseIo: ReleaseIo) returns (r: Outcome)
      requires Valid()
      modifies this`urlConnection, this`outputStream, this`outputStreamWriter, this`written
      ensures Valid() && State() == Closed
      ensures old(outputStreamWriter) == null ==> r == Ok && SameConnection()
      ensures old(outputStreamWriter) != null ==> r == (if flushOk then Ok else Thrown(FlushFailed))
    {
      if outputStreamWriter == null {
        return Ok;
      }
      r := if flushOk then Ok else Thrown(FlushFailed);
      var _ := ReleaseLineProtocalConnection(releaseIo);
    }

    /** `JmxExceptionListener.handleNotification`: the notification type becomes the metric
        name and the message, line breaks mangled, a `String` value; a failure to write is
        only logged. */
    method HandleNotification(notificationType: string, message: string, millis: int, server: MBeanServer,
                              openIo: OpenIo, writeOk: bool, releaseIo: ReleaseIo)
      requires Valid()
      modifies this`objectNames, this`urlConnection, this`outputStream, this`outputStreamWriter, this`written
      ensures Valid()
      ensures objectNames == StillPending(server, old(objectNames))
      ensures var delivered := (old(urlConnection) != null || (openIo.connectOk && openIo.streamOk)) && writeOk;
              (delivered ==> State() == Open(old(written) + [NotificationLine(notificationType, message, Tags(), millis)]))
              && (!delivered ==> State() == Closed)
    ensures var delivered := (old(urlConnection) != null || (openIo.connectOk && openIo.streamOk)) && writeOk;
            delivered && old(urlConnection) != null ==>
              urlConnection == old(urlConnection) && outputStream == old(outputStream)
              && outputStreamWriter == old(outputStreamWriter)
    ensures var delivered := (old(urlConnection) != null || (openIo.connectOk && openIo.streamOk)) && writeOk;
            delivered && old(urlConnection) == null ==>
              fresh(urlConnection) && fresh(outputStream) && fresh(outputStreamWriter)
    {
      var _ := WriteQueryResult(notificationType, Str(MangleMessage(message)), millis, server, openIo, writeOk, releaseIo);
    }
  }

  lemma AppendedPair(a: string, b: string)
    ensures [] + [a] + [b] == [a, b]
  {
  }

  /** Two successful writes on a closed writer share one connection, which then carries
      both lines in order. */
  method ReuseScenario(w: LineProtocolOutputWriter, server: MBeanServer, releaseIo: ReleaseIo,
                       name1: string, v1: Value, millis1: int, name2: string, v2: Value, millis2: int)
    returns (reused: bool, sent: ConnState)
    requires w.Valid() && w.urlConnection == null
    modifies w
    ensures reused
    ensures sent == Open([ProtocolLine(name1, w.Tags(), v1, millis1), ProtocolLine(name2, w.Tags(), v2, millis2)])
  {
    var up := OpenIo(true, true);
    var line1, line2 := ProtocolLine(name1, w.Tags(), v1, millis1), ProtocolLine(name2, w.Tags(), v2, millis2);
    var r1 := w.WriteQueryResult(name1, v1, millis1, server, up, true, releaseIo);
    assert w.written == [] + [line1];
    var first := w.urlConnection;
    var r2 := w.WriteQueryResult(name2, v2, millis2, server, up, true, releaseIo);
    assert w.written == [] + [line1] + [line2];
    AppendedPair(line1, line2);
    reused := w.urlConnection == first;
    sent := w.State();
  }

  /** After `postCollect`, the next successful write opens a new connection. */
  method ReopenScenario(w: LineProtocolOutputWriter, server: MBeanServer, releaseIo: ReleaseIo,
                        name: string, v: Value, millis: int)
    returns (reopened: bool, sent: ConnState)
    requires w.Valid()
    modifies w
    ensures reopened
    ensures sent == Open([ProtocolLine(name, w.Tags(), v, millis)])
  {
    var before := w.urlConnection;
    var r1 := w.PostCollect(true, releaseIo);
    var r2 := w.WriteQueryResult(name, v, millis, server, OpenIo(true, true), true, releaseIo);
    reopened := w.urlConnection != before;
    sent := w.State();
    assert sent.sent == [] + [ProtocolLine(name, w.Tags(), v, millis)];
  }
}
