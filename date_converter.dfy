/**
 * The Room type converter between `java.util.Date` and the epoch-millisecond
 * `Long` stored in the tables (util/DateConverter.kt).
 */
module DateConverter {
  import opened Wrappers
  import opened Primitives

  /** A `java.util.Date` is exactly its epoch-millisecond value `time`. */
  datatype Date = Date(time: Long)

  /** `fromTimestamp`: a stored `Long?` becomes a `Date?`; null stays null. */
  function FromTimestamp(value: Option<Long>): (r: Option<Date>)
    ensures r.None? <==> value.None?
    ensures r.Some? ==> r.value.time == value.value
  {
    match value
    case None => None
    case Some(v) => Some(Date(v))
  }

  /** `dateToTimestamp`: a `Date?` becomes its `time`; null stays null. */
  function DateToTimestamp(date: Option<Date>): (r: Option<Long>)
    ensures r.None? <==> date.None?
    ensures r.Some? ==> r.value == date.value.time
  {
    match date
    case None => None
    case Some(d) => Some(d.time)
  }

  /** Reading back what was stored gives the stored value, null included. */
  lemma TimestampRoundTrip(value: Option<Long>)
    ensures DateToTimestamp(FromTimestamp(value)) == value
  {
  }

  /** Storing a read date gives the date back, null included. */
  lemma DateRoundTrip(date: Option<Date>)
    ensures FromTimestamp(DateToTimestamp(date)) == date
  {
  }
}
