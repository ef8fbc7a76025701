/**
 * The time window ("seed") that binds a challenge to a verification:
 * day of the month times one hundred, plus the hour of the day, plus an offset.
 * The clock itself is an input: a reading is a day of month and an hour.
 */
module TimeWindow {

  /** One reading of the UTC wall clock, reduced to what the seed uses. */
  datatype Clock = Clock(day: int, hour: int) {
    /** The ranges a calendar clock produces. */
    predicate Valid() {
      1 <= day <= 31 && 0 <= hour <= 23
    }
  }

  /** The seed of a clock reading. */
  function TimeSeed(now: Clock, offset: int): (s: int)
    ensures now.Valid() ==> 100 + offset <= s <= 3123 + offset
  {
    now.day * 100 + now.hour + offset
  }

  /** Two readings with the same offset give the same seed exactly when they
      fall in the same hour of the same day of the month. */
  lemma SameWindow(a: Clock, b: Clock, offset: int)
    requires a.Valid() && b.Valid()
    ensures TimeSeed(a, offset) == TimeSeed(b, offset) <==> a == b
  {
    if TimeSeed(a, offset) == TimeSeed(b, offset) {
      assert (a.day - b.day) * 100 == b.hour - a.hour;
    }
  }
}
