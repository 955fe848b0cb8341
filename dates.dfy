/** The two date texts the app writes into records and the day key the
    history and recent-transactions lists group by. The clock and the
    calendar are not modelled: the dialogs receive the formatted texts. */
module Dates {
  import opened Strings

  /** `SimpleDateFormat("yyyy-MM-dd")` output, e.g. "2024-03-09". */
  predicate IsDayStamp(s: string) {
    |s| == 10 &&
    IsDigit(s[0]) && IsDigit(s[1]) && IsDigit(s[2]) && IsDigit(s[3]) && s[4] == '-' &&
    IsDigit(s[5]) && IsDigit(s[6]) && s[7] == '-' && IsDigit(s[8]) && IsDigit(s[9])
  }

  /** `SimpleDateFormat("yyyy-MM-dd HH:mm:ss")` output. */
  predicate IsTimeStamp(s: string) {
    |s| == 19 && IsDayStamp(s[..10]) && s[10] == ' ' &&
    IsDigit(s[11]) && IsDigit(s[12]) && s[13] == ':' &&
    IsDigit(s[14]) && IsDigit(s[15]) && s[16] == ':' &&
    IsDigit(s[17]) && IsDigit(s[18])
  }

  /** `dateFormatter.format(dateFormatter.parse(date))` with the
      "yyyy-MM-dd" pattern: the leading day of the text. */
  function DayKey(date: string): (k: string)
    ensures |k| <= 10 && k <= date
  {
    Take(date, 10)
  }

  /** Both stamps written by the app have their own day as key: a day stamp
      is its own key, and a time stamp's key is its date part. */
  lemma DayKeyOfStamps(s: string)
    ensures IsDayStamp(s) ==> DayKey(s) == s
    ensures IsTimeStamp(s) ==> DayKey(s) == s[..10] && IsDayStamp(DayKey(s))
  {
  }

  /** Neither stamp is empty, and the two never coincide. */
  lemma StampsAreDistinct(s: string)
    ensures IsDayStamp(s) || IsTimeStamp(s) ==> s != ""
    ensures !(IsDayStamp(s) && IsTimeStamp(s))
  {
  }
}
