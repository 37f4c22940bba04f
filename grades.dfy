/**
 * The grade codec: a fixed two-way table between Fontainebleau grade
 * labels and the ordinals 0 to 34 used for range filtering and averages.
 */
module Grades {
  import opened Collections

  /** The dict literal of `grade_to_numeric`, entry by entry in its written order. */
  const GradeOrdinals: seq<(string, int)> := [
    ("1a", 1), ("1b", 2), ("1c", 3),
    ("2a", 4), ("2b", 5), ("2c", 6),
    ("3a", 7), ("3b", 8), ("3c", 9),
    ("4a", 10), ("4b", 11), ("4c", 12),
    ("5a", 13), ("5b", 14), ("5c", 15),
    ("6a", 16), ("6a+", 17), ("6b", 18), ("6b+", 19), ("6c", 20), ("6c+", 21),
    ("7a", 22), ("7a+", 23), ("7b", 24), ("7b+", 25), ("7c", 26), ("7c+", 27),
    ("8a", 28), ("8a+", 29), ("8b", 30), ("8b+", 31), ("8c", 32), ("8c+", 33),
    ("9a", 34), ("", 0)
  ]

  /** The dict literal of `numeric_to_grade`, entry by entry in its written order. */
  const OrdinalGrades: seq<(int, string)> := [
    (1, "1a"), (2, "1b"), (3, "1c"),
    (4, "2a"), (5, "2b"), (6, "2c"),
    (7, "3a"), (8, "3b"), (9, "3c"),
    (10, "4a"), (11, "4b"), (12, "4c"),
    (13, "5a"), (14, "5b"), (15, "5c"),
    (16, "6a"), (17, "6a+"), (18, "6b"), (19, "6b+"), (20, "6c"), (21, "6c+"),
    (22, "7a"), (23, "7a+"), (24, "7b"), (25, "7b+"), (26, "7c"), (27, "7c+"),
    (28, "8a"), (29, "8a+"), (30, "8b"), (31, "8b+"), (32, "8c"), (33, "8c+"),
    (34, "9a"), (0, "")
  ]

  const MaxOrdinal: int := 34

  /** `grade` is one of the keys of the grade-to-ordinal table, the empty grade included. */
  ghost predicate IsGradeLabel(grade: string)
  {
    exists p :: 0 <= p < |GradeOrdinals| && GradeOrdinals[p].0 == grade
  }

  /**
   * The place of a grade on the Fontainebleau scale read off its characters:
   * three grades a, b, c per number up to 5c, then six per number from 6a
   * (the letter, then an optional `+`). Used only to show that the table's
   * labels are pairwise distinct.
   */
  ghost function ScaleRank(grade: string): int
  {
    if |grade| < 2 then 0
    else if grade[0] <= '5' then (grade[0] as int - '1' as int) * 3 + (grade[1] as int - 'a' as int) + 1
    else 16 + (grade[0] as int - '6' as int) * 6 + (grade[1] as int - 'a' as int) * 2 + (if |grade| > 2 then 1 else 0)
  }

  /** The two literals have 35 entries each, in ascending order of ordinal with 0 last. */
  lemma TableOrdinals()
    ensures |GradeOrdinals| == 35 && |OrdinalGrades| == 35
    ensures forall i :: 0 <= i < 35 ==> GradeOrdinals[i].1 == if i < 34 then i + 1 else 0
  {
  }

  /** Each label of the table sits at the place on the scale that its ordinal says. */
  lemma TableRanks()
    ensures |GradeOrdinals| == 35
    ensures forall i :: 0 <= i < 35 ==> ScaleRank(GradeOrdinals[i].0) == GradeOrdinals[i].1
  {
  }

  /** The two literals list the same 35 pairs in the same order. */
  lemma TablesAgree()
    ensures |GradeOrdinals| == 35 && |OrdinalGrades| == 35
    ensures forall i :: 0 <= i < 35 ==> OrdinalGrades[i] == (GradeOrdinals[i].1, GradeOrdinals[i].0)
  {
  }

  function GradeToNumeric(grade: string): (r: int)
    ensures 0 <= r <= MaxOrdinal
  {
    LookupIsEntryOrDefault(GradeOrdinals, grade, 0);
    TableOrdinals();
    Lookup(GradeOrdinals, grade, 0)
  }

  function NumericToGrade(numeric: int): (r: string)
  {
    Lookup(OrdinalGrades, numeric, "")
  }

  /** Looking up the grade of entry `p` gives the ordinal of entry `p`. */
  lemma GradeToNumericAt(p: nat)
    requires p < |GradeOrdinals|
    ensures GradeToNumeric(GradeOrdinals[p].0) == GradeOrdinals[p].1
  {
    TableOrdinals();
    TableRanks();
    forall i | 0 <= i < p ensures GradeOrdinals[i].0 != GradeOrdinals[p].0 {
      assert ScaleRank(GradeOrdinals[i].0) != ScaleRank(GradeOrdinals[p].0);
    }
    LookupAt(GradeOrdinals, p, 0);
  }

  /** Looking up the ordinal of entry `p` gives the grade of entry `p`. */
  lemma NumericToGradeAt(p: nat)
    requires p < |OrdinalGrades|
    ensures NumericToGrade(OrdinalGrades[p].0) == OrdinalGrades[p].1
  {
    TableOrdinals();
    TablesAgree();
    LookupAt(OrdinalGrades, p, "");
  }

  /** Every grade of the table, the empty one included, survives the round trip. */
  lemma LabelRoundTrip(grade: string)
    requires IsGradeLabel(grade)
    ensures NumericToGrade(GradeToNumeric(grade)) == grade
  {
    TablesAgree();
    var p :| 0 <= p < |GradeOrdinals| && GradeOrdinals[p].0 == grade;
    GradeToNumericAt(p);
    NumericToGradeAt(p);
  }

  /** Every ordinal from 0 to 34 survives the round trip. */
  lemma OrdinalRoundTrip(numeric: int)
    requires 0 <= numeric <= MaxOrdinal
    ensures GradeToNumeric(NumericToGrade(numeric)) == numeric
  {
    TableOrdinals();
    TablesAgree();
    var p := if numeric == 0 then 34 else numeric - 1;
    NumericToGradeAt(p);
    GradeToNumericAt(p);
  }

  /** An ordinal outside 0 to 34 has no grade. */
  lemma OutOfRangeOrdinal(numeric: int)
    requires numeric < 0 || numeric > MaxOrdinal
    ensures NumericToGrade(numeric) == ""
  {
    TableOrdinals();
    TablesAgree();
    LookupMissing(OrdinalGrades, numeric, "");
  }

  /** A grade that is not in the table ranks 0, as the empty grade does. */
  lemma UnknownLabel(grade: string)
    requires !IsGradeLabel(grade)
    ensures GradeToNumeric(grade) == 0
  {
    LookupMissing(GradeOrdinals, grade, 0);
  }

  /** Lookups are exact: neither an upper-case letter nor a leading space is tolerated. */
  lemma NearMissesRankZero()
    ensures GradeToNumeric("6A") == 0 && GradeToNumeric(" 6a") == 0 && GradeToNumeric("6a ") == 0
  {
    TableRanks();
    forall grade | grade in {"6A", " 6a", "6a "} ensures !IsGradeLabel(grade) {
    }
    UnknownLabel("6A");
    UnknownLabel(" 6a");
    UnknownLabel("6a ");
  }

  /** Distinct labels of the table have distinct ordinals. */
  lemma Injective(a: string, b: string)
    requires IsGradeLabel(a) && IsGradeLabel(b) && a != b
    ensures GradeToNumeric(a) != GradeToNumeric(b)
  {
    LabelRoundTrip(a);
    LabelRoundTrip(b);
  }

  /** The ordinals rise strictly along the table's written order of non-empty labels. */
  lemma OrdinalsFollowTableOrder(i: nat, j: nat)
    requires i < j < 34
    ensures GradeToNumeric(GradeOrdinals[i].0) < GradeToNumeric(GradeOrdinals[j].0)
  {
    TableOrdinals();
    GradeToNumericAt(i);
    GradeToNumericAt(j);
  }

  /** The scale is not arithmetic on the letters: 6a+ sits between 6a and 6b. */
  lemma PlusGradeBetween()
    ensures GradeToNumeric("6a") < GradeToNumeric("6a+") < GradeToNumeric("6b")
  {
    assert GradeOrdinals[15].0 == "6a" && GradeOrdinals[16].0 == "6a+" && GradeOrdinals[17].0 == "6b";
    assert GradeOrdinals[15].1 < GradeOrdinals[16].1 < GradeOrdinals[17].1;
    GradeToNumericAt(15);
    GradeToNumericAt(16);
    GradeToNumericAt(17);
  }

  /** The two grades the sidebar's range starts from: 6a ranks 16 and 7c+ ranks 27. */
  lemma DefaultRangeGrades()
    ensures GradeToNumeric("6a") == 16 && GradeToNumeric("7c+") == 27
  {
    assert GradeOrdinals[15] == ("6a", 16) && GradeOrdinals[26] == ("7c+", 27);
    GradeToNumericAt(15);
    GradeToNumericAt(26);
  }
}
