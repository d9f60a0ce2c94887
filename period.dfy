/**
 * Period inference from an accounting archive's file name
 * (DataProcessor._identify_period_from_filename): the year is the first
 * match of `20\d{2}`, the quarter the digit of the first match of
 * `([1-4])(?:t|trim)` searched case-insensitively.
 */
module Period {
  import opened Wrappers
  import opened Text

  /** The regex `20\d{2}` matches at index i. */
  predicate YearAt(s: string, i: nat) {
    i + 4 <= |s| && s[i] == '2' && s[i + 1] == '0' && IsDigit(s[i + 2]) && IsDigit(s[i + 3])
  }

  /**
   * The regex `([1-4])(?:t|trim)` matches at index i, ignoring case. Since
   * "trim" begins with "t", the alternation matches exactly when a digit
   * 1-4 is followed by 't' or 'T'.
   */
  predicate QuarterAt(s: string, i: nat) {
    i + 2 <= |s| && '1' <= s[i] <= '4' && (s[i + 1] == 't' || s[i + 1] == 'T')
  }

  /** Leftmost index at or after `from` where the year pattern matches. */
  function FirstYearFrom(s: string, from: nat): Option<nat>
    decreases |s| - from
  {
    if from + 4 > |s| then None
    else if YearAt(s, from) then Some(from)
    else FirstYearFrom(s, from + 1)
  }

  /** The left-to-right search finds the leftmost match, and finds one whenever there is one. */
  lemma {:induction false} FirstYearIsLeftmost(s: string, from: nat)
    ensures FirstYearFrom(s, from).Some? ==>
              (&& from <= FirstYearFrom(s, from).value && YearAt(s, FirstYearFrom(s, from).value)
               && forall j :: from <= j < FirstYearFrom(s, from).value ==> !YearAt(s, j))
    ensures FirstYearFrom(s, from).None? ==> forall j :: from <= j < |s| ==> !YearAt(s, j)
    decreases |s| - from
  {
    if from + 4 <= |s| && !YearAt(s, from) {
      FirstYearIsLeftmost(s, from + 1);
    }
  }

  /** Leftmost index at or after `from` where the quarter pattern matches. */
  function FirstQuarterFrom(s: string, from: nat): Option<nat>
    decreases |s| - from
  {
    if from + 2 > |s| then None
    else if QuarterAt(s, from) then Some(from)
    else FirstQuarterFrom(s, from + 1)
  }

  /** The left-to-right search finds the leftmost match, and finds one whenever there is one. */
  lemma {:induction false} FirstQuarterIsLeftmost(s: string, from: nat)
    ensures FirstQuarterFrom(s, from).Some? ==>
              (&& from <= FirstQuarterFrom(s, from).value && QuarterAt(s, FirstQuarterFrom(s, from).value)
               && forall j :: from <= j < FirstQuarterFrom(s, from).value ==> !QuarterAt(s, j))
    ensures FirstQuarterFrom(s, from).None? ==> forall j :: from <= j < |s| ==> !QuarterAt(s, j)
    decreases |s| - from
  {
    if from + 2 <= |s| && !QuarterAt(s, from) {
      FirstQuarterIsLeftmost(s, from + 1);
    }
  }

  /** `year_match.group(1) if year_match else None`. */
  function FindYear(name: string): (y: Option<string>)
    ensures y.None? <==> forall j :: 0 <= j < |name| ==> !YearAt(name, j)
    ensures y.Some? ==>
              exists i ::
                (&& 0 <= i < |name| && YearAt(name, i)
                 && y.value == name[i..i + 4]
                 && forall j :: 0 <= j < i ==> !YearAt(name, j))
  {
    FirstYearIsLeftmost(name, 0);
    match FirstYearFrom(name, 0)
    case None => None
    case Some(i) => Some(name[i..i + 4])
  }

  /** `quarter_match.group(1) if quarter_match else None`. */
  function FindQuarter(name: string): (q: Option<string>)
    ensures q.None? <==> forall j :: 0 <= j < |name| ==> !QuarterAt(name, j)
    ensures q.Some? ==>
              exists i ::
                (&& 0 <= i < |name| && QuarterAt(name, i)
                 && q.value == [name[i]]
                 && forall j :: 0 <= j < i ==> !QuarterAt(name, j))
  {
    FirstQuarterIsLeftmost(name, 0);
    match FirstQuarterFrom(name, 0)
    case None => None
    case Some(i) => Some([name[i]])
  }

  /** _identify_period_from_filename: (year, quarter); never fails. */
  function IdentifyPeriod(name: string): (p: (Option<string>, Option<string>))
    ensures p.0.Some? ==>
              (&& |p.0.value| == 4 && p.0.value[0] == '2' && p.0.value[1] == '0'
               && IsDigit(p.0.value[2]) && IsDigit(p.0.value[3]))
    ensures p.1.Some? ==> |p.1.value| == 1 && '1' <= p.1.value[0] <= '4'
    ensures p.0.None? <==> forall j :: 0 <= j < |name| ==> !YearAt(name, j)
    ensures p.1.None? <==> forall j :: 0 <= j < |name| ==> !QuarterAt(name, j)
  {
    (FindYear(name), FindQuarter(name))
  }

  /** "1T2025" (quarter before year) gives ("2025", "1"). */
  lemma PeriodOfQuarterFirstName()
    ensures IdentifyPeriod("1T2025") == (Some("2025"), Some("1"))
  {
    var s := "1T2025";
    assert !YearAt(s, 0) && !YearAt(s, 1) && YearAt(s, 2);
    assert FirstYearFrom(s, 2) == Some(2);
    assert FirstYearFrom(s, 0) == Some(2);
    assert s[2..6] == "2025";
    assert QuarterAt(s, 0);
  }

  /** "2024_3trim" (year before quarter) gives ("2024", "3"). */
  lemma PeriodOfYearFirstName()
    ensures IdentifyPeriod("2024_3trim") == (Some("2024"), Some("3"))
  {
    var s := "2024_3trim";
    assert YearAt(s, 0) && s[0..4] == "2024";
    assert QuarterAt(s, 5);
    assert FirstQuarterFrom(s, 5) == Some(5);
    assert FirstQuarterFrom(s, 3) == Some(5);
    assert FirstQuarterFrom(s, 0) == Some(5);
  }

  /** "4t" names a quarter and no year: (None, "4"). */
  lemma PeriodOfBareQuarter()
    ensures IdentifyPeriod("4t") == (None, Some("4"))
  {
    assert QuarterAt("4t", 0);
  }

  /** "sem_data.zip" carries no period: (None, None). */
  lemma PeriodOfUndatedName()
    ensures IdentifyPeriod("sem_data.zip") == (None, None)
  {
  }

  /**
   * Only the leftmost match counts: a name with two quarter tokens and two
   * years is tagged with the first of each.
   */
  lemma LeftmostMatchWins()
    ensures IdentifyPeriod("2023_2T_4T2024") == (Some("2023"), Some("2"))
  {
    var s := "2023_2T_4T2024";
    assert YearAt(s, 0) && s[0..4] == "2023";
    assert QuarterAt(s, 5);
    assert FirstQuarterFrom(s, 5) == Some(5);
    assert FirstQuarterFrom(s, 3) == Some(5);
    assert FirstQuarterFrom(s, 0) == Some(5);
  }
}
