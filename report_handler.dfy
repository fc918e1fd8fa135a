/** `DefaultValidationReportHandler`: triage of a validation report into a
    failure, an info-level log entry or a debug-level log entry. The logging
    sink is modelled as the list of entries a call emits, and the injected
    `ValidationReportFormat` as a pure function whose applications a call
    also reports, so that "the formatter is called once on the whole report"
    can be stated. */
module ReportHandler {
  import opened Wrappers
  import opened ValidationReports
  import opened LevelJoin

  /** The action the ordered match picks for a set of levels. */
  datatype Action = Fail | LogInfo | LogDebug

  /** The ordered match of `processApiValidationReport`: ERROR first, then
      any of INFO, WARN, IGNORE, and otherwise nothing was found. */
  function Triage(levels: seq<Level>): Action
  {
    if ERROR in levels then Fail
    else if INFO in levels || WARN in levels || IGNORE in levels then LogInfo
    else LogDebug
  }

  /** The three branches, each characterised on its own: because `Level` is
      closed, the middle branch is taken exactly for a non-empty set without
      ERROR, and the last exactly for the empty set. */
  lemma TriageCases(levels: seq<Level>)
    ensures Triage(levels) == Fail <==> ERROR in levels
    ensures Triage(levels) == LogInfo <==> levels != [] && ERROR !in levels
    ensures Triage(levels) == LogDebug <==> levels == []
  {
    if levels != [] {
      var first := levels[0];
      assert first in levels;
      match first
      case ERROR =>
      case WARN =>
      case INFO =>
      case IGNORE =>
    }
  }

  /** The Java exceptions the handler can raise: the generic
      `RuntimeException` and the two typed validation failures, which carry
      the report. */
  datatype RuntimeException =
    | UntypedRuntimeException
    | InvalidRequestException(report: Report)
    | InvalidResponseException(report: Report)

  /** `createValidationException`: the request failure for REQUEST, the
      response failure otherwise, carrying the given report. */
  function CreateValidationException(report: Report, location: Location): (e: RuntimeException)
    ensures !e.UntypedRuntimeException? && e.report == report
    ensures e.InvalidRequestException? <==> location == REQUEST
    ensures e.InvalidResponseException? <==> location == RESPONSE
  {
    if location == REQUEST then InvalidRequestException(report)
    else
      assert location.RESPONSE?;
      InvalidResponseException(report)
  }

  /** Severities of the logging sink. */
  datatype LogSeverity = Error | Info | Debug

  /** One entry handed to the logging sink: its severity, the template and
      the arguments, before any interpolation. */
  datatype LogEntry = LogEntry(severity: LogSeverity, template: string, args: seq<string>)

  const LOG_TEMPLATE: string := "OpenAPI location={} key={} levels={} messages={}"
  const VALID_TEMPLATE: string := "OpenAPI validation: {} - The {} is valid."

  /** `logApiValidation`: the entry handed to the consumer of the given
      severity. Its four arguments are, in order, the location, the key, the
      joined levels and the message; each can be read back exactly. */
  function LogApiValidation(severity: LogSeverity, location: Location, loggingKey: string,
                            levels: seq<Level>, message: string): (entry: LogEntry)
    ensures entry.severity == severity && entry.template == LOG_TEMPLATE
    ensures |entry.args| == 4
    ensures ParseLocation(entry.args[0]) == Some(location)
    ensures entry.args[1] == loggingKey
    ensures ParseLevels(entry.args[2]) == Some(levels)
    ensures entry.args[3] == message
  {
    ParseLocationName(location);
    ParseJoin(levels);
    LogEntry(severity, LOG_TEMPLATE, [LocationName(location), loggingKey, JoinLevels(levels), message])
  }

  /** The debug entry saying that the location for the key is valid. */
  function ValidEntry(location: Location, loggingKey: string): (entry: LogEntry)
    ensures entry.severity == Debug && entry.template == VALID_TEMPLATE
    ensures |entry.args| == 2 && entry.args[0] == loggingKey
    ensures ParseLocation(entry.args[1]) == Some(location)
  {
    ParseLocationName(location);
    LogEntry(Debug, VALID_TEMPLATE, [loggingKey, LocationName(location)])
  }

  /** How a call ended: it returned normally or threw. */
  datatype Outcome = Returned | Threw(exception: RuntimeException)

  /** Everything one call of the handler does: how it ended, the entries it
      handed to the logging sink, and the reports it applied the formatter to. */
  datatype Run = Run(outcome: Outcome, log: seq<LogEntry>, formatted: seq<Report>)

  /** What processing `report` at `location` under `loggingKey` does when the
      handler's formatter is `format`. */
  function Processed(format: Report -> string, location: Location, loggingKey: string,
                     report: Report): Run
  {
    match Triage(report.levels)
    case Fail => Run(Threw(UntypedRuntimeException), [], [])
    case LogInfo =>
      Run(Returned, [LogApiValidation(Info, location, loggingKey, report.levels, format(report))], [report])
    case LogDebug => Run(Returned, [ValidEntry(location, loggingKey)], [])
  }

  /** With ERROR among the levels, whatever else is there, processing throws
      a generic exception, logs nothing and never calls the formatter. */
  lemma ErrorFails(format: Report -> string, location: Location, loggingKey: string, report: Report)
    requires ERROR in report.levels
    ensures Processed(format, location, loggingKey, report) == Run(Threw(UntypedRuntimeException), [], [])
  {
  }

  /** As written, the error path does not raise the typed, report-carrying
      exception that `createValidationException` builds. */
  lemma ErrorNotTyped(format: Report -> string, location: Location, loggingKey: string, report: Report)
    requires ERROR in report.levels
    ensures Processed(format, location, loggingKey, report).outcome
            != Threw(CreateValidationException(report, location))
  {
  }

  /** A non-empty set without ERROR: processing returns, emits exactly one
      info entry carrying the location, the key, the levels and the
      formatter's rendering of the whole report, and calls the formatter
      exactly once, on that report. */
  lemma FindingsLogInfo(format: Report -> string, location: Location, loggingKey: string, report: Report)
    requires report.levels != [] && ERROR !in report.levels
    ensures var run := Processed(format, location, loggingKey, report);
      && run.outcome == Returned
      && run.formatted == [report]
      && |run.log| == 1
      && run.log[0].severity == Info
      && |run.log[0].args| == 4
      && ParseLocation(run.log[0].args[0]) == Some(location)
      && run.log[0].args[1] == loggingKey
      && ParseLevels(run.log[0].args[2]) == Some(report.levels)
      && run.log[0].args[3] == format(report)
  {
    TriageCases(report.levels);
  }

  /** An empty set: processing returns, emits one debug entry carrying the
      key and the location, and never calls the formatter. */
  lemma EmptyLogDebug(format: Report -> string, location: Location, loggingKey: string, report: Report)
    requires report.levels == []
    ensures var run := Processed(format, location, loggingKey, report);
      && run.outcome == Returned
      && run.formatted == []
      && |run.log| == 1
      && run.log[0].severity == Debug
      && run.log[0].args[0] == loggingKey
      && ParseLocation(run.log[0].args[1]) == Some(location)
  {
  }

  /** Over every input: the call throws exactly when ERROR is present; it
      emits one entry exactly when it returns; it calls the formatter exactly
      when the set is non-empty and lacks ERROR, and then only on the report. */
  lemma ProcessedShape(format: Report -> string, location: Location, loggingKey: string, report: Report)
    ensures var run := Processed(format, location, loggingKey, report);
      && (run.outcome.Threw? <==> ERROR in report.levels)
      && (run.outcome == Returned <==> |run.log| == 1)
      && (run.outcome.Threw? <==> run.log == [])
      && (run.formatted != [] <==> report.levels != [] && ERROR !in report.levels)
      && run.formatted in {[], [report]}
  {
    TriageCases(report.levels);
  }

  /** The decision does not depend on the formatter bound: two handlers with
      different formatters end the same way, call their formatter on the same
      reports and emit entries that differ at most in the message argument of
      an info entry, and not at all when the two formatters render the report
      alike. */
  lemma FormatterIndependent(f: Report -> string, g: Report -> string, location: Location,
                             loggingKey: string, report: Report)
    ensures var a, b := Processed(f, location, loggingKey, report), Processed(g, location, loggingKey, report);
      && a.outcome == b.outcome
      && a.formatted == b.formatted
      && |a.log| == |b.log|
      && forall i :: 0 <= i < |a.log| ==>
           && a.log[i].severity == b.log[i].severity
           && a.log[i].template == b.log[i].template
           && |a.log[i].args| == |b.log[i].args|
           && (a.log[i].template == LOG_TEMPLATE ==>
                 |a.log[i].args| == 4 && a.log[i].args[..3] == b.log[i].args[..3])
           && (a.log[i].template != LOG_TEMPLATE ==> a.log[i] == b.log[i])
           && (f(report) == g(report) ==> a.log[i] == b.log[i])
  {
  }

  /** Why building a handler failed. */
  datatype ConstructionError = NullPointerException(message: string)

  class DefaultValidationReportHandler {
    /** The injected format, bound once by construction. */
    const validationReportFormat: Report -> string

    /** The no-argument constructor binds the library's default format. */
    constructor ()
      ensures validationReportFormat == SimpleValidationReportFormat
    {
      validationReportFormat := SimpleValidationReportFormat;
    }

    /** The constructor taking a format, once that format is known to be present. */
    constructor WithFormat(format: Report -> string)
      ensures validationReportFormat == format
    {
      validationReportFormat := format;
    }

    /** The constructor taking a format: a missing format is refused with a
        NullPointerException; a present one is stored. */
    static method Create(format: Option<Report -> string>)
      returns (r: Result<DefaultValidationReportHandler, ConstructionError>)
      ensures r.Failure? <==> format.None?
      ensures r.Failure? ==> r.error == NullPointerException("validationReportFormat must not be null")
      ensures r.Success? ==> fresh(r.value) && r.value.validationReportFormat == format.value
    {
      if format.None? {
        r := Failure(NullPointerException("validationReportFormat must not be null"));
      } else {
        var handler := new DefaultValidationReportHandler.WithFormat(format.value);
        r := Success(handler);
      }
    }

    /** `processApiValidationReport`. */
    method ProcessApiValidationReport(location: Location, loggingKey: string, validationReport: Report)
      returns (outcome: Outcome, log: seq<LogEntry>, formatted: seq<Report>)
      ensures Run(outcome, log, formatted)
              == Processed(validationReportFormat, location, loggingKey, validationReport)
    {
      var validationLevels := validationReport.levels;
      log, formatted := [], [];
      if ERROR in validationLevels {
        outcome := Threw(UntypedRuntimeException);
      } else if INFO in validationLevels || WARN in validationLevels || IGNORE in validationLevels {
        var message := validationReportFormat(validationReport);
        formatted := formatted + [validationReport];
        log := log + [LogApiValidation(Info, location, loggingKey, validationLevels, message)];
        outcome := Returned;
      } else {
        log := log + [ValidEntry(location, loggingKey)];
        outcome := Returned;
      }
    }

    /** `handleRequestReport`: processing at REQUEST, key and report unchanged. */
    method HandleRequestReport(loggingKey: string, validationReport: Report)
      returns (outcome: Outcome, log: seq<LogEntry>, formatted: seq<Report>)
      ensures Run(outcome, log, formatted)
              == Processed(validationReportFormat, REQUEST, loggingKey, validationReport)
    {
      outcome, log, formatted := ProcessApiValidationReport(REQUEST, loggingKey, validationReport);
    }

    /** `handleResponseReport`: processing at RESPONSE, key and report unchanged. */
    method HandleResponseReport(loggingKey: string, validationReport: Report)
      returns (outcome: Outcome, log: seq<LogEntry>, formatted: seq<Report>)
      ensures Run(outcome, log, formatted)
              == Processed(validationReportFormat, RESPONSE, loggingKey, validationReport)
    {
      outcome, log, formatted := ProcessApiValidationReport(RESPONSE, loggingKey, validationReport);
    }
  }
}
