/** The joined-levels string the handler logs: the level names in iteration
    order, separated by the handler's `DELIMITER`, and the reading back of
    such a string, which shows that nothing is lost in the join. */
module LevelJoin {
  import opened Wrappers
  import opened ValidationReports

  /** The handler's `DELIMITER`. */
  const DELIMITER: string := ","

  /** The level names in iteration order, separated by `DELIMITER`. */
  function JoinLevels(levels: seq<Level>): string
  {
    if levels == [] then ""
    else if |levels| == 1 then LevelName(levels[0])
    else LevelName(levels[0]) + DELIMITER + JoinLevels(levels[1..])
  }

  /** Number of delimiter characters in `s`. */
  function CountDelimiters(s: string): nat
  {
    if s == [] then 0
    else (if s[0] == ',' then 1 else 0) + CountDelimiters(s[1..])
  }

  /** The fields of `s` between delimiters; the empty string has one empty field. */
  function SplitFields(s: string): (fields: seq<string>)
    ensures |fields| > 0
  {
    if s == [] then [[]]
    else
      var rest := SplitFields(s[1..]);
      if s[0] == ',' then [[]] + rest
      else [[s[0]] + rest[0]] + rest[1..]
  }

  /** Every field is a level name; `None` as soon as one is not. */
  function ParseFields(fields: seq<string>): Option<seq<Level>>
  {
    if fields == [] then Some([])
    else
      match (ParseLevel(fields[0]), ParseFields(fields[1..]))
      case (Some(l), Some(ls)) => Some([l] + ls)
      case _ => None
  }

  /** Reads a joined-levels string back into the levels it names. */
  function ParseLevels(s: string): Option<seq<Level>>
  {
    if s == "" then Some([]) else ParseFields(SplitFields(s))
  }

  lemma {:induction false} CountAppend(a: string, b: string)
    ensures CountDelimiters(a + b) == CountDelimiters(a) + CountDelimiters(b)
  {
    if a == [] {
      assert a + b == b;
    } else {
      assert (a + b)[1..] == a[1..] + b;
      CountAppend(a[1..], b);
    }
  }

  lemma {:induction false} CountNone(s: string)
    requires ',' !in s
    ensures CountDelimiters(s) == 0
  {
    if s != [] {
      assert ',' !in s[1..];
      CountNone(s[1..]);
    }
  }

  /** n levels join with exactly n - 1 delimiters (and none join to ""). */
  lemma {:induction false} JoinDelimiterCount(levels: seq<Level>)
    ensures levels == [] ==> JoinLevels(levels) == ""
    ensures levels != [] ==> CountDelimiters(JoinLevels(levels)) == |levels| - 1
  {
    if levels != [] {
      CountNone(LevelName(levels[0]));
      if |levels| > 1 {
        JoinDelimiterCount(levels[1..]);
        CountAppend(LevelName(levels[0]), DELIMITER);
        CountAppend(LevelName(levels[0]) + DELIMITER, JoinLevels(levels[1..]));
      }
    }
  }

  /** A non-empty join neither starts nor ends with the delimiter: it starts
      with the first level's name and ends with the last level's name. */
  lemma {:induction false} JoinNoOuterDelimiter(levels: seq<Level>)
    requires levels != []
    ensures |JoinLevels(levels)| >= |LevelName(levels[0])|
    ensures JoinLevels(levels)[..|LevelName(levels[0])|] == LevelName(levels[0])
    ensures JoinLevels(levels)[0] != ','
    ensures |JoinLevels(levels)| >= |LevelName(levels[|levels| - 1])|
    ensures JoinLevels(levels)[|JoinLevels(levels)| - |LevelName(levels[|levels| - 1])|..]
            == LevelName(levels[|levels| - 1])
    ensures JoinLevels(levels)[|JoinLevels(levels)| - 1] != ','
  {
    var first := LevelName(levels[0]);
    if |levels| > 1 {
      JoinNoOuterDelimiter(levels[1..]);
      var rest := JoinLevels(levels[1..]);
      var join := first + DELIMITER + rest;
      assert JoinLevels(levels) == join;
      assert join[..|first|] == first;
      assert levels[1..][|levels[1..]| - 1] == levels[|levels| - 1];
      var lastName := LevelName(levels[|levels| - 1]);
      assert join[|join| - |lastName|..] == rest[|rest| - |lastName|..];
    }
    assert first[0] in first;
    var last := LevelName(levels[|levels| - 1]);
    assert last[|last| - 1] in last;
  }

  lemma {:induction false} SplitPlain(a: string)
    requires ',' !in a
    ensures SplitFields(a) == [a]
  {
    if a != [] {
      assert ',' !in a[1..];
      SplitPlain(a[1..]);
      assert [a[0]] + a[1..] == a;
    }
  }

  lemma {:induction false} SplitAfterField(a: string, b: string)
    requires ',' !in a
    ensures SplitFields(a + DELIMITER + b) == [a] + SplitFields(b)
  {
    var s := a + DELIMITER + b;
    if a == [] {
      assert s == DELIMITER + b && s[1..] == b;
    } else {
      assert s[0] == a[0];
      assert s[1..] == a[1..] + DELIMITER + b;
      assert ',' !in a[1..];
      SplitAfterField(a[1..], b);
      assert [a[0]] + a[1..] == a;
    }
  }

  /** Splitting the join at the delimiters gives back each level's name, in
      the original order. */
  lemma {:induction false} SplitJoin(levels: seq<Level>)
    requires levels != []
    ensures |SplitFields(JoinLevels(levels))| == |levels|
    ensures forall i :: 0 <= i < |levels| ==> SplitFields(JoinLevels(levels))[i] == LevelName(levels[i])
  {
    if |levels| == 1 {
      SplitPlain(LevelName(levels[0]));
    } else {
      SplitJoin(levels[1..]);
      SplitAfterField(LevelName(levels[0]), JoinLevels(levels[1..]));
      var fields := SplitFields(JoinLevels(levels));
      forall i | 0 <= i < |levels| ensures fields[i] == LevelName(levels[i]) {
        if i > 0 { assert levels[1..][i - 1] == levels[i]; }
      }
    }
  }

  lemma {:induction false} ParseNames(fields: seq<string>, levels: seq<Level>)
    requires |fields| == |levels|
    requires forall i :: 0 <= i < |levels| ==> fields[i] == LevelName(levels[i])
    ensures ParseFields(fields) == Some(levels)
  {
    if levels != [] {
      ParseLevelName(levels[0]);
      ParseNames(fields[1..], levels[1..]);
      assert [levels[0]] + levels[1..] == levels;
    }
  }

  /** Round trip: the joined string determines the levels it was joined from. */
  lemma ParseJoin(levels: seq<Level>)
    ensures ParseLevels(JoinLevels(levels)) == Some(levels)
  {
    if levels != [] {
      JoinNoOuterDelimiter(levels);
      SplitJoin(levels);
      ParseNames(SplitFields(JoinLevels(levels)), levels);
    }
  }

  /** The levels of one report join to at most three delimiters. */
  lemma JoinBounded(levels: LevelSeq)
    ensures CountDelimiters(JoinLevels(levels)) <= 3
  {
    JoinDelimiterCount(levels);
    AtMostFourLevels(levels);
  }
}
