/** The timeline manager: each manufacturer's completion date for its job, updated
    when a maker reports a change, with the delay classified and the project's
    completion taken as the latest current date. Dates are kept as the strings the
    callers gave (an unparseable one is stored before the parse fails) and parsed with
    Dates.ParseDate; the latest date is the greatest string, as Python's `max` finds
    it. The clock is a parameter. */
module Timeline {
  import opened Wrappers
  import opened Text
  import opened Sets
  import opened Dates

  /** A timeline's "status", which only ever holds "on_track", "delayed" or
      "ahead_of_schedule". */
  datatype TimelineStatus = OnTrack | Delayed | AheadOfSchedule

  /** One TIMELINES entry. */
  datatype Timeline = Timeline(
    jobId: string,
    originalDate: string,
    currentDate: string,
    status: TimelineStatus,
    quantity: int)

  /** TIMELINES as the program starts. */
  const InitialTimelines: map<string, Timeline> := map[
    "MAKER_A" := Timeline("KNICK_2025", "2025-11-02", "2025-11-02", OnTrack, 1800),
    "MAKER_C" := Timeline("KNICK_2025", "2025-11-12", "2025-11-12", OnTrack, 2500),
    "MAKER_J" := Timeline("KNICK_2025", "2025-11-11", "2025-11-11", OnTrack, 700)]

  /** The status a delay in days gives: late is delayed, early is ahead, neither is on
      track. */
  function StatusFor(delayDays: int): (s: TimelineStatus)
    ensures s == Delayed <==> delayDays > 0
    ensures s == AheadOfSchedule <==> delayDays < 0
    ensures s == OnTrack <==> delayDays == 0
  {
    if delayDays > 0 then Delayed else if delayDays < 0 then AheadOfSchedule else OnTrack
  }

  /** `(new_dt - old_dt).days`, or None where either date fails to parse. */
  function Delay(oldDate: string, newDate: string): (r: Option<int>)
    ensures r.Some? <==> ParseDate(oldDate).Some? && ParseDate(newDate).Some?
    ensures r.Some? ==> r.value == ParseDate(newDate).value - ParseDate(oldDate).value
  {
    match (ParseDate(oldDate), ParseDate(newDate))
    case (Some(o), Some(n)) => Some(n - o)
    case _ => None
  }

  /** The current dates of all timelines. */
  function CurrentDates(timelines: map<string, Timeline>): set<string> {
    set m | m in timelines :: timelines[m].currentDate
  }

  /** Every timeline's current date is among them, and there is one when there is a
      timeline. */
  lemma CurrentDatesSpec(timelines: map<string, Timeline>)
    ensures forall m :: m in timelines ==> timelines[m].currentDate in CurrentDates(timelines)
    ensures forall d :: d in CurrentDates(timelines) ==> exists m :: m in timelines && timelines[m].currentDate == d
    ensures timelines != map[] ==> CurrentDates(timelines) != {}
  {
    if timelines != map[] {
      var m := Pick(timelines.Keys);
      assert timelines[m].currentDate in CurrentDates(timelines);
    }
  }

  /** `max(t["current_date"] for t in TIMELINES.values())`. */
  function LatestDate(timelines: map<string, Timeline>): (r: string)
    requires timelines != map[]
    ensures exists m :: m in timelines && timelines[m].currentDate == r
    ensures forall m :: m in timelines ==> LexLe(timelines[m].currentDate, r)
  {
    CurrentDatesSpec(timelines);
    LexMax(CurrentDates(timelines))
  }

  // ---------------------------------------------------------------------------
  // update_timeline

  datatype UpdateReport = UpdateReport(
    makerId: string,
    oldCompletionDate: string,
    newCompletionDate: string,
    delayDays: int,
    reason: string,
    timelineStatus: TimelineStatus,
    overallProjectCompletion: string,
    allTimelines: map<string, Timeline>)

  datatype UpdateResult = UpdateNotFound(makerId: string) | InvalidDateFormat | Updated(report: UpdateReport)

  /** TIMELINES after update_timeline: the maker's current date is the new string in
      any case, and its status follows the delay when both dates parse; nothing else
      changes, and an unknown maker changes nothing. */
  function AfterUpdate(timelines: map<string, Timeline>, makerId: string, newDate: string): (after: map<string, Timeline>)
    ensures after.Keys == timelines.Keys
    ensures makerId !in timelines ==> after == timelines
    ensures forall m :: m in timelines && m != makerId ==> after[m] == timelines[m]
    ensures makerId in timelines ==>
              var t, u := timelines[makerId], after[makerId];
              u.jobId == t.jobId && u.originalDate == t.originalDate && u.quantity == t.quantity &&
              u.currentDate == newDate &&
              (Delay(t.currentDate, newDate).None? ==> u.status == t.status) &&
              (Delay(t.currentDate, newDate).Some? ==> u.status == StatusFor(Delay(t.currentDate, newDate).value))
  {
    if makerId !in timelines then timelines
    else
      var t := timelines[makerId];
      var status := match Delay(t.currentDate, newDate) case None => t.status case Some(d) => StatusFor(d);
      timelines[makerId := t.(currentDate := newDate, status := status)]
  }

  /** update_timeline's answer. */
  function UpdateReply(timelines: map<string, Timeline>, makerId: string, newDate: string, reason: string): (r: UpdateResult)
    ensures r.UpdateNotFound? <==> makerId !in timelines
    ensures r.InvalidDateFormat? <==> makerId in timelines && Delay(timelines[makerId].currentDate, newDate).None?
    ensures r.Updated? ==>
              var old_ := timelines[makerId].currentDate;
              var after := AfterUpdate(timelines, makerId, newDate);
              r.report.makerId == makerId &&
              r.report.oldCompletionDate == old_ && r.report.newCompletionDate == newDate &&
              r.report.delayDays == ParseDate(newDate).value - ParseDate(old_).value &&
              r.report.timelineStatus == StatusFor(r.report.delayDays) &&
              r.report.reason == (if reason == "" then "Not specified" else reason) &&
              r.report.allTimelines == after &&
              LexLe(newDate, r.report.overallProjectCompletion) &&
              (exists m :: m in after && after[m].currentDate == r.report.overallProjectCompletion) &&
              (forall m :: m in after ==> LexLe(after[m].currentDate, r.report.overallProjectCompletion))
  {
    if makerId !in timelines then UpdateNotFound(makerId)
    else
      var t := timelines[makerId];
      match Delay(t.currentDate, newDate)
      case None => InvalidDateFormat
      case Some(d) =>
        var after := AfterUpdate(timelines, makerId, newDate);
        var latest := LatestDate(after);
        assert after[makerId].currentDate == newDate;
        Updated(UpdateReport(makerId, t.currentDate, newDate, d, if reason == "" then "Not specified" else reason,
                             StatusFor(d), latest, after))
  }

  // ---------------------------------------------------------------------------
  // get_timeline_status and send_message_to_manufacturer

  datatype StatusResult =
    | AllTimelines(totalActiveManufacturers: int, overallProjectCompletion: string, delayedManufacturers: int,
                   allTimelines: map<string, Timeline>)
    /** The ValueError `max` raises on an empty TIMELINES; no call removes a timeline,
        so the store never reaches it from InitialTimelines. */
    | NoTimelines
    | MakerTimeline(makerId: string, jobId: string, originalCompletion: string, currentCompletion: string,
                    status: TimelineStatus, quantityAssigned: int)
    | MakerNotFound(makerId: string)

  /** The makers whose status is "delayed". */
  function DelayedMakers(timelines: map<string, Timeline>): set<string> {
    set m | m in timelines && timelines[m].status == Delayed
  }

  datatype MessageResult =
    | MessageNotFound(makerId: string)
    | MessageSent(makerId: string, messageSent: string, timestamp: int, jobId: string, dueDate: string)

  // ---------------------------------------------------------------------------
  // The timeline store

  /** Storing twice under one key keeps only the second value. */
  lemma Overwrite(m: map<string, Timeline>, k: string, a: Timeline, b: Timeline)
    ensures m[k := a][k := b] == m[k := b]
  {
  }

  /** An unparseable date is rejected, yet the new date stays stored with the old
      status. */
  lemma InvalidDateStillStored(timelines: map<string, Timeline>, makerId: string, newDate: string, reason: string)
    requires makerId in timelines
    requires ParseDate(timelines[makerId].currentDate).None? || ParseDate(newDate).None?
    ensures UpdateReply(timelines, makerId, newDate, reason) == InvalidDateFormat
    ensures AfterUpdate(timelines, makerId, newDate) ==
            timelines[makerId := timelines[makerId].(currentDate := newDate)]
  {
  }

  /** The reply and the stored map when both dates parse. */
  lemma ReplyParsed(timelines: map<string, Timeline>, makerId: string, newDate: string, reason: string)
    requires makerId in timelines
    requires ParseDate(timelines[makerId].currentDate).Some? && ParseDate(newDate).Some?
    ensures var t := timelines[makerId];
            var d := ParseDate(newDate).value - ParseDate(t.currentDate).value;
            var after := timelines[makerId := t.(currentDate := newDate, status := StatusFor(d))];
            AfterUpdate(timelines, makerId, newDate) == after &&
            UpdateReply(timelines, makerId, newDate, reason) ==
            Updated(UpdateReport(makerId, t.currentDate, newDate, d, if reason == "" then "Not specified" else reason,
                                 StatusFor(d), LatestDate(after), after))
  {
  }

  class TimelineStore {
    var timelines: map<string, Timeline>

    constructor ()
      ensures timelines == InitialTimelines
    {
      timelines := InitialTimelines;
    }

    method UpdateTimeline(makerId: string, newDate: string, reason: string) returns (r: UpdateResult)
      modifies this
      ensures timelines == AfterUpdate(old(timelines), makerId, newDate)
      ensures r == UpdateReply(old(timelines), makerId, newDate, reason)
    {
      if makerId !in timelines {
        return UpdateNotFound(makerId);
      }
      ghost var before := timelines;
      var t := timelines[makerId];
      var oldDate := t.currentDate;
      timelines := timelines[makerId := t.(currentDate := newDate)];
      var oldDay, newDay := ParseDate(oldDate), ParseDate(newDate);
      if oldDay.None? || newDay.None? {
        InvalidDateStillStored(before, makerId, newDate, reason);
        return InvalidDateFormat;
      }
      var delayDays := newDay.value - oldDay.value;
      var status;
      if delayDays > 0 {
        status := Delayed;
      } else if delayDays < 0 {
        status := AheadOfSchedule;
      } else {
        status := OnTrack;
      }
      assert status == StatusFor(delayDays);
      timelines := timelines[makerId := t.(currentDate := newDate, status := status)];
      Overwrite(before, makerId, t.(currentDate := newDate), t.(currentDate := newDate, status := status));
      ReplyParsed(before, makerId, newDate, reason);
      var latest := LatestDate(timelines);
      r := Updated(UpdateReport(makerId, oldDate, newDate, delayDays, if reason == "" then "Not specified" else reason,
                                status, latest, timelines));
    }

    /** get_timeline_status; an empty id asks for all timelines. It reads the store and
        changes nothing. */
    function GetTimelineStatus(makerId: string): (r: StatusResult)
      reads this
      ensures makerId != "" ==> (r.MakerNotFound? <==> makerId !in timelines)
      ensures makerId != "" && makerId in timelines ==>
                var t := timelines[makerId];
                r == MakerTimeline(makerId, t.jobId, t.originalDate, t.currentDate, t.status, t.quantity)
      ensures makerId == "" ==> (r.NoTimelines? <==> timelines == map[])
      ensures r.AllTimelines? ==>
                makerId == "" && r.allTimelines == timelines &&
                r.totalActiveManufacturers == |timelines| &&
                r.delayedManufacturers == |set m | m in timelines && timelines[m].status == Delayed| &&
                r.delayedManufacturers <= r.totalActiveManufacturers &&
                (exists m :: m in timelines && timelines[m].currentDate == r.overallProjectCompletion) &&
                (forall m :: m in timelines ==> LexLe(timelines[m].currentDate, r.overallProjectCompletion))
    {
      if makerId != "" then
        match Get(timelines, makerId)
        case None => MakerNotFound(makerId)
        case Some(t) => MakerTimeline(makerId, t.jobId, t.originalDate, t.currentDate, t.status, t.quantity)
      else if timelines == map[] then NoTimelines
      else
        SubsetCard(DelayedMakers(timelines), timelines.Keys);
        AllTimelines(|timelines|, LatestDate(timelines), |DelayedMakers(timelines)|, timelines)
    }

    /** send_message_to_manufacturer, sent at `now`. It reads the store and changes
        nothing. */
    function SendMessageToManufacturer(makerId: string, message: string, now: int): (r: MessageResult)
      reads this
      ensures r.MessageNotFound? <==> makerId !in timelines
      ensures r.MessageSent? ==>
                r.makerId == makerId && r.messageSent == message && r.timestamp == now &&
                r.jobId == timelines[makerId].jobId && r.dueDate == timelines[makerId].currentDate
    {
      match Get(timelines, makerId)
      case None => MessageNotFound(makerId)
      case Some(t) => MessageSent(makerId, message, now, t.jobId, t.currentDate)
    }
  }

  /** After a successful update the maker's own status shows the new date and the
      status its delay gives. */
  lemma UpdateThenStatus(s: TimelineStore, makerId: string, newDate: string, before: map<string, Timeline>)
    requires makerId != "" && makerId in before
    requires Delay(before[makerId].currentDate, newDate).Some?
    requires s.timelines == AfterUpdate(before, makerId, newDate)
    ensures s.GetTimelineStatus(makerId).MakerTimeline?
    ensures s.GetTimelineStatus(makerId).currentCompletion == newDate
    ensures s.GetTimelineStatus(makerId).status == StatusFor(Delay(before[makerId].currentDate, newDate).value)
    ensures s.GetTimelineStatus(makerId).originalCompletion == before[makerId].originalDate
  {
  }
}
