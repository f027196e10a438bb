/**
 * The four-bucket "time since" rule used by the family dashboard and the
 * status bar, stated once here in milliseconds. Both screens compute it
 * through whole minutes; their functions are proved equal to Text(Classify(..)).
 */
module Recency {
  import opened Numerals

  const MinuteMs := 60000
  const HourMs := 3600000
  const DayMs := 86400000

  datatype Elapsed = JustNow | MinutesAgo(count: nat) | HoursAgo(count: nat) | DaysAgo(count: nat)

  /** Reference bucketing of an elapsed duration; negative durations are "just now". */
  function Classify(elapsedMs: int): Elapsed
  {
    if elapsedMs < MinuteMs then JustNow
    else if elapsedMs < HourMs then MinutesAgo(elapsedMs / MinuteMs)
    else if elapsedMs < DayMs then HoursAgo(elapsedMs / HourMs)
    else DaysAgo(elapsedMs / DayMs)
  }

  function Rank(e: Elapsed): nat
  {
    match e
    case JustNow => 0
    case MinutesAgo(_) => 1
    case HoursAgo(_) => 2
    case DaysAgo(_) => 3
  }

  function Text(e: Elapsed): string
  {
    match e
    case JustNow => "Just now"
    case MinutesAgo(n) => NatToString(n) + "m ago"
    case HoursAgo(n) => NatToString(n) + "h ago"
    case DaysAgo(n) => NatToString(n) + "d ago"
  }

  /** A shown count is never zero, and stays below the next unit. */
  lemma ClassifyCounts(elapsedMs: int)
    ensures Classify(elapsedMs).MinutesAgo? ==> 1 <= Classify(elapsedMs).count < 60
    ensures Classify(elapsedMs).HoursAgo? ==> 1 <= Classify(elapsedMs).count < 24
    ensures Classify(elapsedMs).DaysAgo? ==> 1 <= Classify(elapsedMs).count
  {
  }

  /**
   * As the elapsed time grows the text only moves from "Just now" to
   * minutes, to hours, to days, and within one bucket the count never falls.
   */
  lemma ClassifyMonotone(a: int, b: int)
    requires a <= b
    ensures Rank(Classify(a)) <= Rank(Classify(b))
    ensures Rank(Classify(a)) == Rank(Classify(b)) && !Classify(a).JustNow? ==>
              Classify(a).count <= Classify(b).count
  {
  }

  /** Different buckets or counts never render the same text. */
  lemma {:induction false} TextInjective(e1: Elapsed, e2: Elapsed)
    ensures Text(e1) == Text(e2) ==> e1 == e2
  {
    if Text(e1) == Text(e2) {
      var s := Text(e1);
      if e1.JustNow? || e2.JustNow? {
        // "Just now" has a 't' where every other text has its unit letter.
        SuffixLetter(e1);
        SuffixLetter(e2);
      } else {
        SuffixLetter(e1);
        SuffixLetter(e2);
        assert Rank(e1) == Rank(e2);
        var d1, d2 := NatToString(e1.count), NatToString(e2.count);
        assert |d1| == |d2|;
        assert d1 == s[..|s| - 5] == d2;
        NatToStringInjective(e1.count, e2.count);
      }
    }
  }

  /** The letter five characters from the end identifies the bucket. */
  lemma SuffixLetter(e: Elapsed)
    ensures |Text(e)| >= 6 || e.JustNow?
    ensures |Text(e)| >= 5
    ensures e.JustNow? ==> Text(e)[|Text(e)| - 5] == 't' && |Text(e)| == 8
    ensures e.MinutesAgo? ==> Text(e)[|Text(e)| - 5] == 'm'
    ensures e.HoursAgo? ==> Text(e)[|Text(e)| - 5] == 'h'
    ensures e.DaysAgo? ==> Text(e)[|Text(e)| - 5] == 'd'
    ensures !e.JustNow? ==> Text(e)[..|Text(e)| - 5] == NatToString(e.count)
    ensures !e.JustNow? ==> IsDigit(Text(e)[0])
  {
  }
}
