/**
 * The file-risk classifier both the GitHub watcher and the web interface use:
 * every lowercased filename is tested against every pattern of a table, the
 * descriptions of the patterns that occur are collected, and the number of
 * distinct descriptions picks the tier. The two callers differ only in their
 * pattern table.
 */
module RiskScan {
  import opened Text
  import opened Lists

  /** `(pattern, description)` pairs in the dictionary's insertion order. */
  type PatternTable = seq<(string, string)>

  datatype Level = Low | Medium | High

  /**
   * The tier and the set of areas the message names (the model keeps the set
   * of descriptions, not the order in which a Python set joins them).
   */
  datatype Assessment = Assessment(level: Level, areas: set<string>)

  /** Tiers ordered by severity. */
  function Rank(l: Level): nat
  {
    match l
    case Low => 0
    case Medium => 1
    case High => 2
  }

  /** More than three distinct areas is HIGH, one to three MEDIUM, none LOW. */
  function LevelFor(n: int): Level
  {
    if n > 3 then High else if n > 0 then Medium else Low
  }

  /** The descriptions of the patterns that occur in one lowercased filename, in table order. */
  function FileDetections(fileLower: string, table: PatternTable): seq<string>
    decreases |table|
  {
    if table == [] then []
    else
      var last := table[|table| - 1];
      FileDetections(fileLower, table[..|table| - 1]) + (if Contains(fileLower, last.0) then [last.1] else [])
  }

  /** `detected_risks`: file-major, pattern-minor, duplicates kept. */
  function Detections(files: seq<string>, table: PatternTable): seq<string>
    decreases |files|
  {
    if files == [] then []
    else Detections(files[..|files| - 1], table) + FileDetections(Lower(files[|files| - 1]), table)
  }

  /** The description of every pattern that occurs in some lowercased filename. */
  function Matched(files: seq<string>, table: PatternTable): set<string>
  {
    set i, j | 0 <= i < |files| && 0 <= j < |table| && Contains(Lower(files[i]), table[j].0) :: table[j].1
  }

  /** Every description the table can report. */
  function Descriptions(table: PatternTable): set<string>
  {
    set j | 0 <= j < |table| :: table[j].1
  }

  lemma {:induction false} FileDetectionsSpec(fileLower: string, table: PatternTable, d: string)
    ensures d in FileDetections(fileLower, table) <==>
      exists j :: 0 <= j < |table| && Contains(fileLower, table[j].0) && table[j].1 == d
    decreases |table|
  {
    if table != [] {
      var init := table[..|table| - 1];
      FileDetectionsSpec(fileLower, init, d);
      if exists j :: 0 <= j < |init| && Contains(fileLower, init[j].0) && init[j].1 == d {
        var j :| 0 <= j < |init| && Contains(fileLower, init[j].0) && init[j].1 == d;
        assert table[j] == init[j];
      }
      if exists j :: 0 <= j < |table| && Contains(fileLower, table[j].0) && table[j].1 == d {
        var j :| 0 <= j < |table| && Contains(fileLower, table[j].0) && table[j].1 == d;
        if j < |init| {
          assert init[j] == table[j];
        }
      }
    }
  }

  /** The collected descriptions are exactly the matched set. */
  lemma {:induction false} DetectionsSpec(files: seq<string>, table: PatternTable, d: string)
    ensures d in Detections(files, table) <==> d in Matched(files, table)
    decreases |files|
  {
    if files != [] {
      var init := files[..|files| - 1];
      var last := files[|files| - 1];
      DetectionsSpec(init, table, d);
      FileDetectionsSpec(Lower(last), table, d);
      MatchedExtend(files, table, d);
    }
  }

  /** A description matches some file exactly when it matches an earlier file or the last one. */
  lemma MatchedExtend(files: seq<string>, table: PatternTable, d: string)
    requires files != []
    ensures d in Matched(files, table) <==>
      d in Matched(files[..|files| - 1], table) ||
      exists j :: 0 <= j < |table| && Contains(Lower(files[|files| - 1]), table[j].0) && table[j].1 == d
  {
    var init := files[..|files| - 1];
    if d in Matched(init, table) {
      var i, j :| 0 <= i < |init| && 0 <= j < |table| && Contains(Lower(init[i]), table[j].0) && table[j].1 == d;
      assert files[i] == init[i];
    }
    if d in Matched(files, table) {
      var i, j :| 0 <= i < |files| && 0 <= j < |table| && Contains(Lower(files[i]), table[j].0) && table[j].1 == d;
      if i < |init| {
        assert init[i] == files[i];
        assert d in Matched(init, table);
      }
    }
  }

  lemma {:induction false} ElementsBound(s: seq<string>)
    ensures |set x | x in s| <= |s|
    decreases |s|
  {
    if s != [] {
      ElementsBound(s[1..]);
      assert (set x | x in s) == (set x | x in s[1..]) + {s[0]};
    }
  }

  /**
   * What `analyze_risk` / `analyze_pr_risk` promise: the tier follows the
   * number of distinct matched descriptions; MEDIUM names all of them, HIGH
   * only those among the first three detections (one to three of them), LOW
   * none.
   */
  ghost predicate Assesses(a: Assessment, files: seq<string>, table: PatternTable)
  {
    && a.level == LevelFor(|Matched(files, table)|)
    && (a.level == Low ==> a.areas == {})
    && (a.level == Medium ==> a.areas == Matched(files, table))
    && (a.level == High ==>
          a.areas == (set d | d in Prefix(Detections(files, table), 3)) &&
          a.areas <= Matched(files, table) && 1 <= |a.areas| <= 3)
  }

  /** The nested loop over files and patterns. */
  method Classify(files: seq<string>, table: PatternTable) returns (a: Assessment)
    ensures Assesses(a, files, table)
  {
    var detected: seq<string> := [];
    for i := 0 to |files|
      invariant detected == Detections(files[..i], table)
    {
      var fileLower := Lower(files[i]);
      for j := 0 to |table|
        invariant detected == Detections(files[..i], table) + FileDetections(fileLower, table[..j])
      {
        assert table[..j + 1][..j] == table[..j];
        if Contains(fileLower, table[j].0) {
          detected := detected + [table[j].1];
        }
      }
      assert table[..|table|] == table;
      assert files[..i + 1][..i] == files[..i];
    }
    assert files[..|files|] == files;
    DetectionsElements(files, table);
    var distinct := set d | d in detected;
    if |distinct| > 3 {
      var first := Prefix(detected, 3);
      FirstAreas(detected);
      a := Assessment(High, set d | d in first);
    } else if |distinct| > 0 {
      a := Assessment(Medium, distinct);
    } else {
      a := Assessment(Low, {});
    }
  }

  /** The distinct collected descriptions are the matched set. */
  lemma DetectionsElements(files: seq<string>, table: PatternTable)
    ensures (set d | d in Detections(files, table)) == Matched(files, table)
  {
    forall d
      ensures d in Detections(files, table) <==> d in Matched(files, table)
    {
      DetectionsSpec(files, table, d);
    }
  }

  /** The areas a HIGH message names: one to three of the detections. */
  lemma FirstAreas(detected: seq<string>)
    requires detected != []
    ensures (set d | d in Prefix(detected, 3)) <= (set d | d in detected)
    ensures 1 <= |set d | d in Prefix(detected, 3)| <= 3
  {
    var first := Prefix(detected, 3);
    ElementsBound(first);
    assert |first| >= 1;
    var areas := set d | d in first;
    assert first[0] in areas;
    assert areas == {first[0]} + (areas - {first[0]});
  }

  /** The promise fixes the assessment: two results that keep it are equal. */
  lemma AssessmentDetermined(a: Assessment, b: Assessment, files: seq<string>, table: PatternTable)
    requires Assesses(a, files, table) && Assesses(b, files, table)
    ensures a == b
  {
  }

  /** LOW exactly when no pattern occurs in any lowercased filename; so an empty list is LOW. */
  lemma LowIffNoMatch(files: seq<string>, table: PatternTable)
    ensures LevelFor(|Matched(files, table)|) == Low <==>
      forall i, j :: 0 <= i < |files| && 0 <= j < |table| ==> !Contains(Lower(files[i]), table[j].0)
    ensures files == [] ==> LevelFor(|Matched(files, table)|) == Low
  {
    if exists i, j :: 0 <= i < |files| && 0 <= j < |table| && Contains(Lower(files[i]), table[j].0) {
      var i, j :| 0 <= i < |files| && 0 <= j < |table| && Contains(Lower(files[i]), table[j].0);
      assert table[j].1 in Matched(files, table);
    }
  }

  /** Only the set of filenames matters: reordering or repeating files changes nothing. */
  lemma MatchedDependsOnFileSet(files: seq<string>, others: seq<string>, table: PatternTable)
    requires forall f :: f in files <==> f in others
    ensures Matched(files, table) == Matched(others, table)
  {
    forall d | d in Matched(files, table)
      ensures d in Matched(others, table)
    {
      var i, j :| 0 <= i < |files| && 0 <= j < |table| && Contains(Lower(files[i]), table[j].0) && table[j].1 == d;
      assert files[i] in others;
    }
    forall d | d in Matched(others, table)
      ensures d in Matched(files, table)
    {
      var i, j :| 0 <= i < |others| && 0 <= j < |table| && Contains(Lower(others[i]), table[j].0) && table[j].1 == d;
      assert others[i] in files;
    }
  }

  /** Adding files never lowers the tier: the matched set only grows. */
  lemma MatchedMonotone(files: seq<string>, more: seq<string>, table: PatternTable)
    requires forall f :: f in files ==> f in more
    ensures Matched(files, table) <= Matched(more, table)
    ensures Rank(LevelFor(|Matched(files, table)|)) <= Rank(LevelFor(|Matched(more, table)|))
  {
    forall d | d in Matched(files, table)
      ensures d in Matched(more, table)
    {
      var i, j :| 0 <= i < |files| && 0 <= j < |table| && Contains(Lower(files[i]), table[j].0) && table[j].1 == d;
      assert files[i] in more;
    }
    SubsetCard(Matched(files, table), Matched(more, table));
  }

  lemma SubsetCard(a: set<string>, b: set<string>)
    requires a <= b
    ensures |a| <= |b|
  {
    assert b == a + (b - a);
  }

  /** Every area named comes from the table, so the count is bounded by the table's distinct descriptions. */
  lemma MatchedWithinTable(files: seq<string>, table: PatternTable)
    ensures Matched(files, table) <= Descriptions(table)
    ensures |Matched(files, table)| <= |Descriptions(table)|
  {
    SubsetCard(Matched(files, table), Descriptions(table));
  }
}
