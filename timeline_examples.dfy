/** The timeline tools on the program's own TIMELINES. */
module TimelineExamples {
  import opened Wrappers
  import opened Text
  import opened Dates
  import opened Timeline

  lemma ParseExamples()
    ensures ParseDate("2025-11-02") == Some(Ordinal(2025, 11, 2))
    ensures ParseDate("2025-11-05") == Some(Ordinal(2025, 11, 5))
    ensures ParseDate("2025-13-01").None?
  {
    ParseNovember("2025-11-02", 2);
    ParseNovember("2025-11-05", 5);
    var bad := "2025-13-01";
    assert bad[5..7] == "13";
  }

  /** A day of November 2025 written as strftime writes it. */
  lemma ParseNovember(s: string, d: int)
    requires 1 <= d <= 9 && s == "2025-11-0" + [('0' as int + d) as char]
    ensures ParseDate(s) == Some(Ordinal(2025, 11, d))
  {
    assert |s| == 10 && s[4] == '-' && s[6] == '1' && s[7] == '-';
    assert s[5..7] == "11";
    assert s[8..] == ['0', s[9]];
    assert MonthField(s[5..7]) == Some(11);
    assert DayField(s[8..]) == Some(d);
    assert 1000 * DigitValue(s[0]) + 100 * DigitValue(s[1]) + 10 * DigitValue(s[2]) + DigitValue(s[3]) == 2025;
  }

  /** MAKER_A moving from 2025-11-02 to 2025-11-05 is three days late; the project
      still completes on 2025-11-12, MAKER_C's date. */
  lemma DelayMakerA()
    ensures var r := UpdateReply(InitialTimelines, "MAKER_A", "2025-11-05", "");
            r.Updated? && r.report.delayDays == 3 && r.report.timelineStatus == Delayed &&
            r.report.reason == "Not specified" && r.report.overallProjectCompletion == "2025-11-12"
  {
    MovedA();
    ParseExamples();
    ReplyParsed(InitialTimelines, "MAKER_A", "2025-11-05", "");
    var after := AfterUpdate(InitialTimelines, "MAKER_A", "2025-11-05");
    LatestOfMoved(after, LatestDate(after));
  }

  /** TIMELINES once MAKER_A has moved to 2025-11-05. */
  lemma MovedA()
    ensures var after := AfterUpdate(InitialTimelines, "MAKER_A", "2025-11-05");
            Delay("2025-11-02", "2025-11-05") == Some(3) &&
            after.Keys == {"MAKER_A", "MAKER_C", "MAKER_J"} &&
            after["MAKER_A"].currentDate == "2025-11-05" &&
            after["MAKER_C"].currentDate == "2025-11-12" &&
            after["MAKER_J"].currentDate == "2025-11-11"
  {
    ThreeDaysLate();
    assert "MAKER_C"[6] != "MAKER_A"[6] && "MAKER_J"[6] != "MAKER_A"[6];
  }

  /** 2025-11-02 to 2025-11-05 is three days. */
  lemma ThreeDaysLate()
    ensures Delay("2025-11-02", "2025-11-05") == Some(3)
  {
    ParseNovember("2025-11-02", 2);
    ParseNovember("2025-11-05", 5);
    assert Ordinal(2025, 11, 5) - Ordinal(2025, 11, 2) == 3;
  }

  lemma LatestOfMoved(after: map<string, Timeline>, latest: string)
    requires after.Keys == {"MAKER_A", "MAKER_C", "MAKER_J"}
    requires after["MAKER_A"].currentDate == "2025-11-05"
    requires after["MAKER_C"].currentDate == "2025-11-12"
    requires after["MAKER_J"].currentDate == "2025-11-11"
    requires exists m :: m in after && after[m].currentDate == latest
    requires LexLe(after["MAKER_C"].currentDate, latest)
    ensures latest == "2025-11-12"
  {
    var m :| m in after && after[m].currentDate == latest;
    OneOfThree(after.Keys, m);
    LatestIsMakerC(latest);
  }

  lemma OneOfThree(keys: set<string>, m: string)
    requires keys == {"MAKER_A", "MAKER_C", "MAKER_J"} && m in keys
    ensures m == "MAKER_A" || m == "MAKER_C" || m == "MAKER_J"
  {
  }

  /** With MAKER_A moved to 2025-11-05, the latest date is MAKER_C's 2025-11-12. */
  lemma LatestIsMakerC(latest: string)
    requires latest == "2025-11-05" || latest == "2025-11-12" || latest == "2025-11-11"
    requires LexLe("2025-11-12", latest)
    ensures latest == "2025-11-12"
  {
    NovemberOrder();
    LexAntisymmetric(latest, "2025-11-12");
  }

  /** 2025-11-05 and 2025-11-11 come before 2025-11-12, as strings. */
  lemma NovemberOrder()
    ensures LexLe("2025-11-05", "2025-11-12") && LexLe("2025-11-11", "2025-11-12") && LexLe("2025-11-12", "2025-11-12")
  {
    var p := "2025-11-";
    assert "2025-11-05" == p + "05" && "2025-11-11" == p + "11" && "2025-11-12" == p + "12";
    LexLeCommonPrefix(p, "05", "12");
    LexLeCommonPrefix(p, "11", "12");
    LexLeCommonPrefix(p, "12", "12");
    assert LexLe("2", "2");
  }

  /** A date that does not exist is rejected, but stays stored. */
  lemma InvalidMonth()
    ensures UpdateReply(InitialTimelines, "MAKER_C", "2025-13-01", "") == InvalidDateFormat
    ensures AfterUpdate(InitialTimelines, "MAKER_C", "2025-13-01")["MAKER_C"].currentDate == "2025-13-01"
    ensures AfterUpdate(InitialTimelines, "MAKER_C", "2025-13-01")["MAKER_C"].status == OnTrack
  {
    ParseExamples();
  }
}
