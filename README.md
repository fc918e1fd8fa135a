# Validation report handler, modelled in Dafny

This project models `DefaultValidationReportHandler`, the default policy of the
OpenAPI request validator's Spring MVC integration for acting on a validation
report. Given the location (request or response), a logging key and a report, the
handler reduces the report's distinct severity levels to one action:

- a failure when `ERROR` is present;
- one info-level log entry when any of `INFO`, `WARN` or `IGNORE` is present.
  This entry carries the location, the key, the comma-joined levels and the
  injected formatter's rendering of the report;
- one debug-level "is valid" entry when no level is present.

The handler also builds the typed exceptions for a failed request or response
(`createValidationException`). Its only state is the formatter, which is fixed
at construction.

Files:

- `wrappers.dfy` (`Wrappers`): the `Option` and `Result` types.
- `validation_report.dfy` (`ValidationReports`): what the handler sees of the
  library's report types. This covers the `Level` and `Location` enumerations,
  their printed names, and a `Report` reduced to an opaque payload plus its
  duplicate-free level sequence (`sortedValidationLevels()`). It also holds the
  default format `SimpleValidationReportFormat`, an opaque pure function of the
  report.
- `level_join.dfy` (`LevelJoin`): the joined-levels string and a parser that
  reads it back. The parser is used to prove that the join loses nothing.
- `report_handler.dfy` (`ReportHandler`): the triage rule, the log entries and
  the exception choice. It also holds `Processed`, a function giving the full
  effect of one call: how it ends, the log entries it emits, and the reports it
  hands to the formatter. The class `DefaultValidationReportHandler` uses it as
  the specification of its methods.

The logging sink is modelled as the list of entries one call hands to it. Each
entry is a severity, a template and its argument list, before interpolation.
Each call also returns the list of reports it passed to the formatter, so "the
formatter is called once, on the whole report" is part of what a call returns.

Code and design description disagree on the `ERROR` path, and the model follows
the code. The class comment (`DefaultValidationReportHandler.java:23-25`) says
this path writes to `log.error` and throws `InvalidRequestException` for a
request or `InvalidResponseException` for a response; `createValidationException`
(lines 98 and 100) builds those exceptions around the report. The code instead throws a plain `RuntimeException`, without logging and without
calling the formatter, because the lines that would log and throw the typed
exception are commented out. `ReportHandler.ErrorFails` and
`ReportHandler.ErrorNotTyped` state the behaviour as written.
`createValidationException` is modelled on its own, although nothing calls it.

## Model

| member | source | states |
|---|---|---|
| `ValidationReports.LevelName` | src/main/java/com/atlassian/oai/validator/springmvc/DefaultValidationReportHandler.java:87 | a level prints as a non-empty name without the delimiter |
| `ValidationReports.ParseLevelName` | src/main/java/com/atlassian/oai/validator/springmvc/DefaultValidationReportHandler.java:87 | each level's printed name reads back as that level, so distinct levels print differently |
| `ValidationReports.LocationName` | src/main/java/com/atlassian/oai/validator/springmvc/DefaultValidationReportHandler.java:91 | a location prints as a non-empty name |
| `ValidationReports.ParseLocationName` | src/main/java/com/atlassian/oai/validator/springmvc/DefaultValidationReportHandler.java:91 | each location's printed name reads back as that location |
| `ValidationReports.AtMostFourLevels` | src/main/java/com/atlassian/oai/validator/springmvc/DefaultValidationReportHandler.java:60 | a duplicate-free level set drawn from the closed enumeration has at most four entries |
| `LevelJoin.JoinDelimiterCount` | src/main/java/com/atlassian/oai/validator/springmvc/DefaultValidationReportHandler.java:85-88 | no levels join to the empty string; n levels join with exactly n - 1 delimiters |
| `LevelJoin.JoinNoOuterDelimiter` | src/main/java/com/atlassian/oai/validator/springmvc/DefaultValidationReportHandler.java:85-88 | a non-empty join has the first level's name as a prefix and the last level's name as a suffix, and has no leading or trailing delimiter |
| `LevelJoin.SplitJoin` | src/main/java/com/atlassian/oai/validator/springmvc/DefaultValidationReportHandler.java:85-88 | splitting a non-empty join at the delimiters gives back exactly the level names, in iteration order |
| `LevelJoin.ParseJoin` | src/main/java/com/atlassian/oai/validator/springmvc/DefaultValidationReportHandler.java:85-88 | round trip: reading the joined string back gives the levels it was joined from |
| `LevelJoin.JoinBounded` | src/main/java/com/atlassian/oai/validator/springmvc/DefaultValidationReportHandler.java:85-88 | a report's joined levels contain at most three delimiters |
| `ReportHandler.TriageCases` | src/main/java/com/atlassian/oai/validator/springmvc/DefaultValidationReportHandler.java:62-76 | the branches of the ordered match, each as an if-and-only-if: fail exactly with ERROR, info exactly for a non-empty set without ERROR, debug exactly for the empty set; so they are exclusive and exhaustive |
| `ReportHandler.CreateValidationException` | src/main/java/com/atlassian/oai/validator/springmvc/DefaultValidationReportHandler.java:95-102 | REQUEST gives the request failure and RESPONSE the response failure; both are typed and carry the given report |
| `ReportHandler.LogApiValidation` | src/main/java/com/atlassian/oai/validator/springmvc/DefaultValidationReportHandler.java:79-93 | the entry has the consumer's severity, the fixed template and exactly four arguments: the location, the key unchanged, the joined levels and the message unchanged; the location and the levels read back exactly |
| `ReportHandler.ValidEntry` | src/main/java/com/atlassian/oai/validator/springmvc/DefaultValidationReportHandler.java:75 | the "is valid" entry is debug-level, with the key and then the location as its arguments |
| `ReportHandler.ErrorFails` | src/main/java/com/atlassian/oai/validator/springmvc/DefaultValidationReportHandler.java:62-63 | with ERROR present, whatever else is, processing throws a generic exception, emits no log entry and never calls the formatter |
| `ReportHandler.ErrorNotTyped` | src/main/java/com/atlassian/oai/validator/springmvc/DefaultValidationReportHandler.java:62-68 | as written, the error path does not throw the typed report-carrying exception that `createValidationException` would build |
| `ReportHandler.FindingsLogInfo` | src/main/java/com/atlassian/oai/validator/springmvc/DefaultValidationReportHandler.java:69-73 | with a non-empty set without ERROR, processing returns, emits exactly one info entry (location, key, levels, the formatter's output) and calls the formatter exactly once, on the whole report |
| `ReportHandler.EmptyLogDebug` | src/main/java/com/atlassian/oai/validator/springmvc/DefaultValidationReportHandler.java:74-75 | with the empty set, processing returns, emits one debug entry carrying the key and the location, and never calls the formatter |
| `ReportHandler.ProcessedShape` | src/main/java/com/atlassian/oai/validator/springmvc/DefaultValidationReportHandler.java:57-77 | for every input: the call throws exactly when ERROR is present, emits exactly one entry exactly when it returns, and calls the formatter, only on the report itself, exactly when the set is non-empty and lacks ERROR |
| `ReportHandler.FormatterIndependent` | src/main/java/com/atlassian/oai/validator/springmvc/DefaultValidationReportHandler.java:57-77 | the injected formatter changes only the message text: for any two formatters the outcome, the formatter calls, and each entry's severity, template and argument count are the same; an info entry's location, key and levels arguments are the same; the debug entry is identical; and the entries are identical when both formatters render the report alike |
| `ReportHandler.DefaultValidationReportHandler.constructor` | src/main/java/com/atlassian/oai/validator/springmvc/DefaultValidationReportHandler.java:38-40 | the no-argument constructor binds the library's default format |
| `ReportHandler.DefaultValidationReportHandler.WithFormat` | src/main/java/com/atlassian/oai/validator/springmvc/DefaultValidationReportHandler.java:44 | a present format is stored as the handler's format |
| `ReportHandler.DefaultValidationReportHandler.Create` | src/main/java/com/atlassian/oai/validator/springmvc/DefaultValidationReportHandler.java:42-45 | construction fails with a NullPointerException, with its message, exactly when the format is missing; otherwise it gives a new handler holding that format |
| `ReportHandler.DefaultValidationReportHandler.ProcessApiValidationReport` | src/main/java/com/atlassian/oai/validator/springmvc/DefaultValidationReportHandler.java:57-77 | the outcome, the emitted entries and the formatter calls are exactly those `Processed` gives for the handler's own format |
| `ReportHandler.DefaultValidationReportHandler.HandleRequestReport` | src/main/java/com/atlassian/oai/validator/springmvc/DefaultValidationReportHandler.java:47-50 | equals processing at REQUEST, with key and report unchanged |
| `ReportHandler.DefaultValidationReportHandler.HandleResponseReport` | src/main/java/com/atlassian/oai/validator/springmvc/DefaultValidationReportHandler.java:52-55 | equals processing at RESPONSE, with key and report unchanged |

## Left out

- Logger and LoggerFactory: the SLF4J logger and its `{}` interpolation are not modelled. A log entry is its severity, its template and its unformatted arguments.
- The `logConsumer` argument of `logApiValidation`: it is modelled by the severity the consumer logs at (`LOG::info`, or `LOG::error` in the commented-out code).
- The exception's message: the message `"sssss"` of the generic `RuntimeException` is not modelled, only that an untyped exception is thrown. Java's exception class hierarchy is reduced to three variants.
- The commented-out error path: the error logging, `printStackTrace` and the typed throw are commented out in the code, so they are not behaviour.
- `SimpleValidationReportFormat` and `ValidationReport`: their internals are not part of this model. The default rendering is carried opaquely by the report. The level sequence is duplicate-free by its type; how the library sorts and deduplicates it is not modelled.
- Report identity: a report is only its default rendering and its levels. A custom formatter can therefore depend only on those two, and two library reports that render alike and have the same levels are one value here. No proved property depends on this.
- The formatter's side effects: the formatter is a pure function. A call reports the reports it was applied to as an output list, not as hidden state.
- Null arguments elsewhere: a null key, report or location is not modelled. Strings and reports are always present values.
- Concurrency: concurrent calls are not modelled. The handler has no mutable state.
