/**
 * Row shapes of the summary tables: the column label (`name.replace('_', ' ').title()`),
 * the importance label of a sensitivity row, and the ordering by descending
 * impact score (`sort_values('Impact Score', ascending=False)`).
 */
module Summaries {
  import opened Common

  // ---------------------------------------------------------------- labels

  predicate IsLower(c: char) { 'a' <= c <= 'z' }
  predicate IsUpper(c: char) { 'A' <= c <= 'Z' }
  /** A cased character; only ASCII letters are considered. */
  predicate IsCased(c: char) { IsLower(c) || IsUpper(c) }

  function ToUpper(c: char): (u: char)
    ensures !IsLower(u)
  {
    if IsLower(c) then (c as int - 32) as char else c
  }

  function ToLower(c: char): (l: char)
    ensures !IsUpper(l)
  {
    if IsUpper(c) then (c as int + 32) as char else c
  }

  /**
   * `str.title()` from a given position: a cased character is upper-cased
   * when the character before it is not cased, and lower-cased otherwise.
   */
  function TitleFrom(s: string, afterCased: bool): (r: string)
    ensures |r| == |s|
    ensures forall i :: 0 <= i < |s| ==> ToLower(r[i]) == ToLower(s[i])
    ensures |s| > 0 ==> r[0] == if afterCased then ToLower(s[0]) else ToUpper(s[0])
    ensures forall i :: 0 < i < |s| ==> r[i] == if IsCased(s[i - 1]) then ToLower(s[i]) else ToUpper(s[i])
  {
    if s == [] then []
    else [if afterCased then ToLower(s[0]) else ToUpper(s[0])] + TitleFrom(s[1..], IsCased(s[0]))
  }

  /**
   * The display label of a column: underscores become spaces, every word
   * starts with a capital and the rest of each word is lower case.
   */
  function Label(name: string): (r: string)
    ensures |r| == |name|
    ensures forall i :: 0 <= i < |name| ==> (r[i] == ' ' <==> name[i] == '_' || name[i] == ' ')
    ensures forall i :: 0 <= i < |name| && name[i] != '_' ==> ToLower(r[i]) == ToLower(name[i])
    ensures forall i :: 0 <= i < |name| && (i == 0 || name[i - 1] == '_') ==> !IsLower(r[i])
    ensures forall i :: 0 <= i < |name| && name[i] != '_' && (i == 0 || !IsCased(name[i - 1])) ==> r[i] == ToUpper(name[i])
    ensures forall i :: 0 < i < |name| && name[i] != '_' && IsCased(name[i - 1]) ==> r[i] == ToLower(name[i])
  {
    TitleFrom(seq(|name|, i requires 0 <= i < |name| => if name[i] == '_' then ' ' else name[i]), false)
  }

  // ---------------------------------------------------------------- sensitivity rows

  datatype Importance = High | Medium | Low

  /** 'High' above |0.3|, 'Medium' above |0.1|, 'Low' otherwise; both thresholds are strict. */
  function ImportanceOf(correlation: real): (l: Importance)
    ensures l == High <==> Abs(correlation) > 0.3
    ensures l == Medium <==> 0.1 < Abs(correlation) <= 0.3
    ensures l == Low <==> Abs(correlation) <= 0.1
  {
    if Abs(correlation) > 0.3 then High else if Abs(correlation) > 0.1 then Medium else Low
  }

  /** Rank of a label, 0 for 'High'. */
  function Rank(l: Importance): nat {
    match l
    case High => 0
    case Medium => 1
    case Low => 2
  }

  /** A stronger correlation never gets a weaker label. */
  lemma ImportanceMonotone(c1: real, c2: real)
    requires Abs(c1) <= Abs(c2)
    ensures Rank(ImportanceOf(c2)) <= Rank(ImportanceOf(c1))
  {
  }

  datatype SensitivityRow = SensitivityRow(factor: string, correlation: real, impactScore: real, importance: Importance)

  ghost predicate SortedByImpact(rows: seq<SensitivityRow>) {
    forall i, j :: 0 <= i < j < |rows| ==> rows[i].impactScore >= rows[j].impactScore
  }

  /** Inserts `row` after every row whose impact score is at least its own. */
  function InsertByImpact(row: SensitivityRow, sorted: seq<SensitivityRow>): (r: seq<SensitivityRow>)
    ensures |r| == |sorted| + 1
    ensures multiset(r) == multiset(sorted) + multiset{row}
    ensures forall k :: 0 <= k < |r| ==> r[k] == row || r[k] in sorted
    ensures SortedByImpact(sorted) ==> SortedByImpact(r)
  {
    if sorted == [] then [row]
    else if row.impactScore > sorted[0].impactScore then [row] + sorted
    else
      var rest := InsertByImpact(row, sorted[1..]);
      assert sorted == [sorted[0]] + sorted[1..];
      InsertedSorted(row, sorted, rest);
      [sorted[0]] + rest
  }

  lemma InsertedSorted(row: SensitivityRow, sorted: seq<SensitivityRow>, rest: seq<SensitivityRow>)
    requires sorted != [] && row.impactScore <= sorted[0].impactScore
    requires forall k :: 0 <= k < |rest| ==> rest[k] == row || rest[k] in sorted[1..]
    requires SortedByImpact(sorted) ==> SortedByImpact(rest)
    ensures SortedByImpact(sorted) ==> SortedByImpact([sorted[0]] + rest)
  {
    if SortedByImpact(sorted) {
      forall k | 0 <= k < |rest|
        ensures sorted[0].impactScore >= rest[k].impactScore
      {
        if rest[k] != row {
          var j :| 0 <= j < |sorted[1..]| && sorted[1..][j] == rest[k];
          assert sorted[j + 1] == rest[k];
        }
      }
    }
  }

  /** Orders rows by descending impact score; rows with equal scores keep their order. */
  function SortByImpact(rows: seq<SensitivityRow>): (r: seq<SensitivityRow>)
    ensures |r| == |rows|
    ensures multiset(r) == multiset(rows)
    ensures SortedByImpact(r)
  {
    if rows == [] then []
    else
      assert rows == rows[..|rows| - 1] + [rows[|rows| - 1]];
      InsertByImpact(rows[|rows| - 1], SortByImpact(rows[..|rows| - 1]))
  }
}
