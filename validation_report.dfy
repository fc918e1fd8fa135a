/** The parts of the validator library's `ValidationReport` that the report
    handler relies on: the closed enumerations `Level` and
    `MessageContext.Location`, their textual names, and a report reduced to
    what the handler can observe of it. */
module ValidationReports {
  import opened Wrappers

  /** Severity of a validation finding. */
  datatype Level = ERROR | WARN | INFO | IGNORE

  /** Which side of an HTTP exchange a report describes. */
  datatype Location = REQUEST | RESPONSE

  /** The name a level prints as (Java's enum `toString`). */
  function LevelName(level: Level): (name: string)
    ensures |name| > 0 && ',' !in name
  {
    match level
    case ERROR => "ERROR"
    case WARN => "WARN"
    case INFO => "INFO"
    case IGNORE => "IGNORE"
  }

  /** Inverse of `LevelName`: the level printed as `name`, if any. */
  function ParseLevel(name: string): Option<Level>
  {
    if name == "ERROR" then Some(ERROR)
    else if name == "WARN" then Some(WARN)
    else if name == "INFO" then Some(INFO)
    else if name == "IGNORE" then Some(IGNORE)
    else None
  }

  /** Every level's name reads back as that level, so no two levels print alike. */
  lemma ParseLevelName(level: Level)
    ensures ParseLevel(LevelName(level)) == Some(level)
  {
  }

  /** The name a location prints as (Java's enum `toString`). */
  function LocationName(location: Location): (name: string)
    ensures |name| > 0
  {
    match location
    case REQUEST => "REQUEST"
    case RESPONSE => "RESPONSE"
  }

  /** Inverse of `LocationName`. */
  function ParseLocation(name: string): Option<Location>
  {
    if name == "REQUEST" then Some(REQUEST)
    else if name == "RESPONSE" then Some(RESPONSE)
    else None
  }

  lemma ParseLocationName(location: Location)
    ensures ParseLocation(LocationName(location)) == Some(location)
  {
  }

  predicate NoDuplicates(levels: seq<Level>)
  {
    forall i, j :: 0 <= i < j < |levels| ==> levels[i] != levels[j]
  }

  /** What `sortedValidationLevels()` returns: the distinct levels of a
      report's findings, in the set's iteration order. */
  type LevelSeq = levels: seq<Level> | NoDuplicates(levels) witness []

  /** A validation report, seen from the handler: an opaque payload and its
      distinct levels. `simpleRendering` stands for the text the library's
      default `SimpleValidationReportFormat` renders for this report; the
      findings it is built from are not part of this model. */
  datatype Report = Report(simpleRendering: string, levels: LevelSeq)

  /** The library's default report format, an opaque pure function of the report. */
  function SimpleValidationReportFormat(report: Report): string
  {
    report.simpleRendering
  }

  /** A duplicate-free level sequence has at most one entry per level. */
  lemma {:induction false} AtMostFourLevels(levels: seq<Level>)
    requires NoDuplicates(levels)
    ensures |levels| <= 4
  {
    var present := set i | 0 <= i < |levels| :: levels[i];
    DistinctCardinality(levels);
    assert present <= {ERROR, WARN, INFO, IGNORE};
    SubsetCardinality(present, {ERROR, WARN, INFO, IGNORE});
  }

  lemma {:induction false} DistinctCardinality(levels: seq<Level>)
    requires NoDuplicates(levels)
    ensures |set i | 0 <= i < |levels| :: levels[i]| == |levels|
  {
    if levels != [] {
      var rest := levels[1..];
      assert NoDuplicates(rest) by {
        forall i, j | 0 <= i < j < |rest| ensures rest[i] != rest[j] {
          assert rest[i] == levels[i + 1] && rest[j] == levels[j + 1];
        }
      }
      DistinctCardinality(rest);
      var tail := set i | 0 <= i < |rest| :: rest[i];
      var all := set i | 0 <= i < |levels| :: levels[i];
      assert all == tail + {levels[0]} by {
        forall x | x in all ensures x in tail + {levels[0]} {
          var i :| 0 <= i < |levels| && levels[i] == x;
          if i > 0 { assert rest[i - 1] == x; }
        }
        forall x | x in tail ensures x in all {
          var i :| 0 <= i < |rest| && rest[i] == x;
          assert levels[i + 1] == x;
        }
      }
      assert levels[0] !in tail by {
        forall i | 0 <= i < |rest| ensures rest[i] != levels[0] {
          assert rest[i] == levels[i + 1];
        }
      }
    }
  }

  lemma SubsetCardinality(a: set<Level>, b: set<Level>)
    requires a <= b
    ensures |a| <= |b|
  {
    assert b == a + (b - a);
  }
}
