/** The older InfluxDB writer (`LineProtocalOutputWriter`): every write opens its own HTTP
    POST, sends one line, closes the streams and reads the response code. */
module LegacyWriter {
  import opened Text
  import opened LineFormat
  import opened Responses
  import opened MetricPrefix

  const DefaultPort := 8086
  const DefaultConnectTimeoutMillis := 500

  /** What the HTTP calls of one write do:
      - `connectOk`: `url.openConnection()` returns normally;
      - `streamOk`: `getOutputStream()` returns normally;
      - `sendOk`: `write`, `flush` and `close` of the writer inside the `try` all return
        normally;
      - `responseCode`: what `getResponseCode()` returns (`None` when it throws);
      - `closeWriterOk`, `closeStreamOk`: whether the closes in the `finally` return
        normally. Closing a stream that is already closed has no effect, so these only
        matter when the `try` did not close the writer itself. */
  datatype SendIo = SendIo(connectOk: bool, streamOk: bool, sendOk: bool, responseCode: Option<int>,
                           closeWriterOk: bool, closeStreamOk: bool)

  /** How the `try` block ends: an `IOException` caught by the handler, the `return` taken
      on a rejected response code, or falling off its end. */
  datatype TryOutcome = Caught | EarlyReturn(code: int) | Completed

  /** What one write amounts to: the line written to the stream, with the writer closed
      inside the `try` (whether it reaches the server is not modelled: the connection
      buffers the body until the response code is asked for), how the `try` ended, whether a close in the `finally`
      threw out of the method, whether the success message is logged as the code decides
      it, and whether the evidently intended success log fires. */
  datatype SendReport = SendReport(written: Option<string>, tryOutcome: TryOutcome, thrown: bool,
                                   successLoggedAsWritten: bool, successLogged: bool)

  /** The success log as written: reached whenever the `finally` does not throw and the
      `try` did not `return`, so also after a caught `IOException`. */
  predicate SuccessLoggedAsWritten(tryOutcome: TryOutcome, thrown: bool)
  {
    !thrown && !tryOutcome.EarlyReturn?
  }

  /** As written, a write whose `try` ended in a caught `IOException` logs success, while
      the intended log stays silent. */
  lemma SuccessLoggedAfterCaughtFailure()
    ensures SuccessLoggedAsWritten(Caught, false)
    ensures !SuccessLogged(Caught, false)
  {
  }

  /** The evidently intended success log: only when the line went out and the server
      accepted it. */
  function SuccessLogged(tryOutcome: TryOutcome, thrown: bool): (logged: bool)
    ensures logged ==> SuccessLoggedAsWritten(tryOutcome, thrown)
    ensures logged ==> tryOutcome != Caught
  {
    !thrown && tryOutcome.Completed?
  }

  class LineProtocalOutputWriter {
    var settings: map<string, string>
    var host: string
    var port: int
    /** Configured, but never applied to a connection. */
    var connectTimeoutMillis: int
    var metricPathPrefix: Option<string>

    /** The `tags` setting; `Map.get` gives null when it is absent. */
    function Tags(): Option<string>
      reads this`settings
    {
      if "tags" in settings then Some(settings["tags"]) else None
    }

    constructor ()
      ensures settings == map[] && metricPathPrefix == None
      ensures port == DefaultPort && connectTimeoutMillis == DefaultConnectTimeoutMillis
    {
      settings := map[];
      host, port := "", DefaultPort;
      connectTimeoutMillis := DefaultConnectTimeoutMillis;
      metricPathPrefix := None;
    }

    /** `postConstruct`: stores the settings and logs the database-creation failure.
        `failureLoggedAsWritten` is the log as the code decides it, which fires for every
        code; `failureLoggedIntended` is the evidently intended decision, a failure only for
        a code other than 200 or 204. The host and the parsed port and timeout settings are
        given, as is the code `createDatabase` returned (0 when connecting or reading the
        code failed). */
    method PostConstruct(newSettings: map<string, string>, configuredHost: string, configuredPort: Option<int>,
                         configuredTimeout: Option<int>, createDatabaseCode: int)
      returns (failureLoggedAsWritten: bool, failureLoggedIntended: bool)
      modifies this
      ensures settings == newSettings && host == configuredHost
      ensures port == (if configuredPort.Some? then configuredPort.value else DefaultPort)
      ensures connectTimeoutMillis == (if configuredTimeout.Some? then configuredTimeout.value else DefaultConnectTimeoutMillis)
      ensures metricPathPrefix == (if "namePrefix" in newSettings then Some(newSettings["namePrefix"]) else None)
      ensures failureLoggedAsWritten == DatabaseFailureLoggedAsWritten(createDatabaseCode) && failureLoggedAsWritten
      ensures failureLoggedIntended <==> !IsSuccessCode(createDatabaseCode)
    {
      settings := newSettings;
      host := configuredHost;
      port := if configuredPort.Some? then configuredPort.value else DefaultPort;
      metricPathPrefix := if "namePrefix" in newSettings then Some(newSettings["namePrefix"]) else None;
      connectTimeoutMillis := if configuredTimeout.Some? then configuredTimeout.value else DefaultConnectTimeoutMillis;
      DatabaseFailureAlwaysLogged(createDatabaseCode);
      failureLoggedAsWritten := DatabaseFailureLoggedAsWritten(createDatabaseCode);
      failureLoggedIntended := DatabaseFailureLogged(createDatabaseCode);
    }

    /** `buildMetricPathPrefix`: the configured prefix if there is one; otherwise the one
        derived from the host-name lookup, stored so that later calls return it. */
    method BuildMetricPathPrefix(hostLookup: Option<string>) returns (prefix: string)
      modifies this`metricPathPrefix
      ensures old(metricPathPrefix).Some? ==> prefix == old(metricPathPrefix).value && metricPathPrefix == old(metricPathPrefix)
      ensures old(metricPathPrefix).None? ==> prefix == DerivedPrefix(hostLookup) && metricPathPrefix == Some(prefix)
    {
      if metricPathPrefix.Some? {
        return metricPathPrefix.value;
      }
      prefix := DerivedPrefix(hostLookup);
      metricPathPrefix := Some(prefix);
    }

    /** `writeQueryResult`: builds the line, opens a connection, sends the line and reads
        the response code. The only field the code writes is `url`, which it rebuilds from
        the configuration on every call, so it is not modelled. The `type` argument is never
        used. */
    method WriteQueryResult(metricName: string, value: Value, io: SendIo) returns (report: SendReport)
      ensures report.written.Some? <==> io.connectOk && io.streamOk && io.sendOk
      ensures report.written.Some? ==> report.written.value == LegacyLine(metricName, Tags(), value)
      ensures report.tryOutcome == Completed <==>
                io.connectOk && io.streamOk && io.sendOk && io.responseCode.Some? && IsSuccessCode(io.responseCode.value)
      ensures report.tryOutcome.EarlyReturn? <==>
                io.connectOk && io.streamOk && io.sendOk && io.responseCode.Some? && !IsSuccessCode(io.responseCode.value)
      ensures report.tryOutcome.EarlyReturn? ==> io.responseCode == Some(report.tryOutcome.code)
      ensures report.thrown <==> io.connectOk && io.streamOk && !io.sendOk && !(io.closeWriterOk && io.closeStreamOk)
      ensures report.successLoggedAsWritten <==> !report.thrown && !report.tryOutcome.EarlyReturn?
      ensures !io.connectOk ==> report.successLoggedAsWritten && report.written.None?
      ensures report.successLogged <==> !report.thrown && report.tryOutcome == Completed
      ensures report.successLogged ==> report.successLoggedAsWritten
      ensures report.successLogged ==> report.written.Some? && io.responseCode.Some? && IsSuccessCode(io.responseCode.value)
    {
      var msg := LegacyLine(metricName, Tags(), value);
      var written: Option<string> := None;
      var tryOutcome := Caught;
      if io.connectOk && io.streamOk && io.sendOk {
        written := Some(msg);
        if io.responseCode.Some? {
          var code := io.responseCode.value;
          tryOutcome := if IsSuccessCode(code) then Completed else EarlyReturn(code);
        }
      }
      // finally: the writer and the stream exist once `getOutputStream` returned; closing
      // them again can only throw when the `try` did not already close the writer.
      var thrown := false;
      if io.connectOk && io.streamOk && !io.sendOk {
        thrown := !io.closeWriterOk || !io.closeStreamOk;
      }
      report := SendReport(written, tryOutcome, thrown, SuccessLoggedAsWritten(tryOutcome, thrown),
                           SuccessLogged(tryOutcome, thrown));
    }
  }
}
