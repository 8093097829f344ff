/** The operating-system services the search code calls but does not define. Each is an
    arbitrary total function here, so every property proved below holds whatever calendar,
    locale, number formatter or embedding model the device supplies. */
module Platform {
  import opened Optional

  /** A point in time (Foundation's `Date`), as a whole number of seconds. */
  type Date = int

  /** Foundation: the calendar, number parsing and formatting, and floating-point helpers. */
  datatype Foundation = Foundation(
    /** `Calendar.current.startOfDay(for:)` */
    startOfDay: Date -> Date,
    /** `Calendar.current.date(bySettingHour: 23, minute: 59, second: 59, of:)`, which may fail */
    endOfDay: Date -> Option<Date>,
    /** `Calendar.current.date(byAdding: .day, value:, to:)`, which may fail */
    addingDays: (int, Date) -> Option<Date>,
    /** `Double(_: String)`, which fails on text that is not a number */
    parseDouble: string -> Option<real>,
    /** `String(format: "%.2f", _)` */
    formatAmount: real -> string,
    /** a `DateFormatter` with the format "MMM d, yyyy" */
    formatDate: Date -> string,
    /** the square root of Swift's standard library */
    sqrt: real -> real,
    /** the conversion `Float(_: Double)` */
    toFloat: real -> real)

  /** NaturalLanguage's `NLEmbedding`: `vector(for:)` gives a word's or a sentence's vector,
      or nothing when the model has none for that text. */
  datatype NLEmbedding = NLEmbedding(vector: string -> Option<seq<real>>)
}
