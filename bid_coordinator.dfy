/** The bid coordinator: opening, inspecting and closing bid windows and notifying
    the winners, over the BID_WINDOWS store. Each operation is specified by pure
    functions of the store before the call (the new store and the reply); the class
    Coordinator holds the store and its methods are proved against them. */
module BidCoordinator {
  import opened Wrappers
  import opened Text
  import opened BidWindows

  // ---------------------------------------------------------------------------
  // create_bid_window

  datatype CreateReport = CreateReport(
    jobId: string,
    openedAt: int,
    closesAt: int,
    durationHours: int,
    manufacturersNotified: int)

  datatype CreateResult =
    | WindowExists(jobId: string, existingStatus: WindowStatus)
    | WindowCreated(report: CreateReport)

  /** The constant the source reports as the number of makers notified. */
  const ManufacturersNotified := 10

  /** create_bid_window's default `duration_hours`: four days. */
  const DefaultDurationHours := 96

  /** BID_WINDOWS after create_bid_window: unchanged when the job already has a
      window; otherwise one new OPEN window with no bids, closing `durationHours`
      after `now`, and every other window as it was. */
  function AfterCreate(windows: map<string, BidWindow>, jobId: string, productName: string, requiredQty: int,
                       requiredSkill: string, durationHours: int, now: int): (after: map<string, BidWindow>)
    ensures jobId in windows ==> after == windows
    ensures after.Keys == windows.Keys + {jobId}
    ensures forall k :: k in windows ==> after[k] == windows[k]
    ensures jobId !in windows ==>
              var w := after[jobId];
              w.jobId == jobId && w.productName == productName && w.status == Open &&
              w.openedAt == now && w.closesAt == w.openedAt + durationHours * 3600 &&
              w.durationHours == durationHours && w.requiredQty == requiredQty &&
              w.requiredSkill == requiredSkill && w.totalBids == 0 && w.participatingManufacturers == [] &&
              w.closedAt.None? && w.winningManufacturers.None? &&
              w.lowestBidCents.None? && w.highestBidCents.None? && w.averageBidCents.None?
  {
    if jobId in windows then windows
    else
      windows[jobId := BidWindow(jobId, productName, Open, now, now + durationHours * 3600, None, durationHours,
                                 requiredQty, requiredSkill, 0, [], "0%", None, None, None, None, None)]
  }

  /** create_bid_window's reply: an error naming the existing window's status, or the
      new window's instants. */
  function CreateReply(windows: map<string, BidWindow>, jobId: string, durationHours: int, now: int): (r: CreateResult)
    ensures r.WindowExists? <==> jobId in windows
    ensures r.WindowExists? ==> r.jobId == jobId && r.existingStatus == windows[jobId].status
    ensures r.WindowCreated? ==>
              r.report.jobId == jobId && r.report.openedAt == now &&
              r.report.closesAt == now + durationHours * 3600 && r.report.manufacturersNotified == ManufacturersNotified
  {
    if jobId in windows then WindowExists(jobId, windows[jobId].status)
    else WindowCreated(CreateReport(jobId, now, now + durationHours * 3600, durationHours, ManufacturersNotified))
  }

  /** A window created with the default duration closes four days after it opens, and
      at that instant reports 96.0 hours remaining. */
  lemma DefaultWindowFullTime(windows: map<string, BidWindow>, jobId: string, productName: string,
                              requiredQty: int, requiredSkill: string, now: int)
    requires jobId !in windows
    ensures var w := AfterCreate(windows, jobId, productName, requiredQty, requiredSkill, DefaultDurationHours, now)[jobId];
            w.closesAt == now + 4 * 24 * 3600 && TimeRemaining(w.closesAt, now) == 960
  {
    TimeRemainingWholeHours(now + DefaultDurationHours * 3600, now, DefaultDurationHours);
  }

  // ---------------------------------------------------------------------------
  // close_bid_window

  datatype CloseResult =
    | CloseNotFound(jobId: string)
    | AlreadyClosed(jobId: string)
    | WindowClosed(jobId: string, closedAt: int, totalBidsReceived: int)

  /** BID_WINDOWS after close_bid_window: an OPEN window becomes CLOSED and records
      `now` as its closing instant; nothing else changes. */
  function AfterClose(windows: map<string, BidWindow>, jobId: string, now: int): (after: map<string, BidWindow>)
    ensures after.Keys == windows.Keys
    ensures jobId !in windows || windows[jobId].status == Closed ==> after == windows
    ensures jobId in windows && windows[jobId].status == Open ==>
              after[jobId] == windows[jobId].(status := Closed, closedAt := Some(now))
    ensures forall k :: k in windows && k != jobId ==> after[k] == windows[k]
    ensures forall k :: k in windows && windows[k].status == Closed ==> after[k].status == Closed
  {
    if jobId !in windows || windows[jobId].status == Closed then windows
    else windows[jobId := windows[jobId].(status := Closed, closedAt := Some(now))]
  }

  function CloseReply(windows: map<string, BidWindow>, jobId: string, now: int): (r: CloseResult)
    ensures r.CloseNotFound? <==> jobId !in windows
    ensures r.AlreadyClosed? <==> jobId in windows && windows[jobId].status == Closed
    ensures r.WindowClosed? ==> r.jobId == jobId && r.closedAt == now && r.totalBidsReceived == windows[jobId].totalBids
  {
    if jobId !in windows then CloseNotFound(jobId)
    else if windows[jobId].status == Closed then AlreadyClosed(jobId)
    else WindowClosed(jobId, now, windows[jobId].totalBids)
  }

  /** Closing is not idempotent: closing a window a second time is an error. */
  lemma CloseTwiceFails(windows: map<string, BidWindow>, jobId: string, now: int, later: int)
    requires jobId in windows
    ensures CloseReply(AfterClose(windows, jobId, now), jobId, later) == AlreadyClosed(jobId)
  {
  }

  // ---------------------------------------------------------------------------
  // notify_winners

  datatype SentNotice = SentNotice(makerId: string, notification: string, sentAt: int)

  datatype NotifyResult =
    | NotifyNotFound(jobId: string)
    | WinnersNotified(jobId: string, winnersNotified: int, notifications: seq<SentNotice>)

  /** The arguments notify_winners gives the winner template. */
  function WinnerArgs(jobId: string): map<string, string> {
    map["job_id" := jobId, "quantity" := "TBD", "price" := "TBD", "total" := "TBD", "deadline" := "30 days"]
  }

  /** The winner message for a job. Formatting cannot fail: every field of the
      template has an argument. */
  function WinnerMessage(jobId: string): string {
    WinnerFields();
    FormatDefined(WinnerNotification.message, WinnerArgs(jobId));
    Format(WinnerNotification.message, WinnerArgs(jobId)).value
  }

  /** Each placeholder of the winner template has its argument. */
  lemma WinnerArgsValues(jobId: string)
    ensures var a := WinnerArgs(jobId);
            "job_id" in a && "quantity" in a && "price" in a && "total" in a && "deadline" in a &&
            a["job_id"] == jobId && a["quantity"] == "TBD" && a["price"] == "TBD" && a["total"] == "TBD" &&
            a["deadline"] == "30 days"
  {
    assert "job_id"[0] == 'j' && "quantity"[0] == 'q' && "price"[0] == 'p' && "total"[0] == 't' && "deadline"[0] == 'd';
  }

  /** The text each winner receives. */
  lemma WinnerMessageText(jobId: string)
    ensures Format(WinnerNotification.message, WinnerArgs(jobId)) == Some(
            "You've been selected for " + (jobId + ("! Quantity: " + ("TBD" + (" units at $" + ("TBD" +
            ("/unit. Total value: $" + ("TBD" + (". Production deadline: " + ("30 days" + "."))))))))))
  {
    var t := WinnerNotification.message;
    var a := WinnerArgs(jobId);
    WinnerArgsValues(jobId);
    WinnerMessageMiddle(jobId);
    FormatStep(t, 1, a);
    FormatStep(t, 0, a);
    assert t[0..] == t;
  }

  lemma WinnerMessageMiddle(jobId: string)
    ensures Format(WinnerNotification.message[2..], WinnerArgs(jobId)) ==
            Some("! Quantity: " + ("TBD" + (" units at $" + ("TBD" +
            ("/unit. Total value: $" + ("TBD" + (". Production deadline: " + ("30 days" + "."))))))))
  {
    var t := WinnerNotification.message;
    var a := WinnerArgs(jobId);
    WinnerArgsValues(jobId);
    WinnerMessageTail(jobId);
    FormatStep(t, 4, a);
    FormatStep(t, 3, a);
    FormatStep(t, 2, a);
  }

  lemma WinnerMessageTail(jobId: string)
    ensures Format(WinnerNotification.message[5..], WinnerArgs(jobId)) ==
            Some("TBD" + ("/unit. Total value: $" + ("TBD" + (". Production deadline: " + ("30 days" + ".")))))
  {
    var t := WinnerNotification.message;
    var a := WinnerArgs(jobId);
    WinnerArgsValues(jobId);
    assert t[11..] == [];
    FormatStep(t, 10, a);
    assert "." + [] == ".";
    FormatStep(t, 9, a);
    FormatStep(t, 8, a);
    FormatStep(t, 7, a);
    FormatStep(t, 6, a);
    FormatStep(t, 5, a);
  }

  /** One notice per maker id, in order, all with the same text and instant. */
  function Notices(makerIds: seq<string>, message: string, now: int): seq<SentNotice> {
    if makerIds == [] then []
    else Notices(makerIds[..|makerIds| - 1], message, now) + [SentNotice(makerIds[|makerIds| - 1], message, now)]
  }

  lemma {:induction false} NoticesSpec(makerIds: seq<string>, message: string, now: int)
    ensures |Notices(makerIds, message, now)| == |makerIds|
    ensures forall k :: 0 <= k < |makerIds| ==>
              Notices(makerIds, message, now)[k] == SentNotice(makerIds[k], message, now)
  {
    if makerIds != [] {
      var init := makerIds[..|makerIds| - 1];
      NoticesSpec(init, message, now);
      assert forall k :: 0 <= k < |init| ==> init[k] == makerIds[k];
    }
  }

  /** BID_WINDOWS after notify_winners: the job's window records the parsed winner
      list; its status and every other window are left as they were. */
  function AfterNotify(windows: map<string, BidWindow>, jobId: string, winningMakerIds: string): (after: map<string, BidWindow>)
    ensures after.Keys == windows.Keys
    ensures jobId !in windows ==> after == windows
    ensures jobId in windows ==>
              after[jobId] == windows[jobId].(winningManufacturers := Some(CommaItems(winningMakerIds)))
    ensures forall k :: k in windows && k != jobId ==> after[k] == windows[k]
    ensures forall k :: k in windows ==> after[k].status == windows[k].status
  {
    if jobId !in windows then windows
    else windows[jobId := windows[jobId].(winningManufacturers := Some(CommaItems(winningMakerIds)))]
  }

  function NotifyReply(windows: map<string, BidWindow>, jobId: string, winningMakerIds: string, now: int): (r: NotifyResult)
    ensures r.NotifyNotFound? <==> jobId !in windows
  {
    if jobId !in windows then NotifyNotFound(jobId)
    else
      var notes := Notices(CommaItems(winningMakerIds), WinnerMessage(jobId), now);
      WinnersNotified(jobId, |notes|, notes)
  }

  /** One notice per comma-separated item, duplicates included, in the order given;
      the count reported is the number of notices, one more than the commas. */
  lemma NotifyCounts(windows: map<string, BidWindow>, jobId: string, winningMakerIds: string, now: int)
    requires jobId in windows
    ensures var r := NotifyReply(windows, jobId, winningMakerIds, now);
            r.WinnersNotified? && r.winnersNotified == |r.notifications| &&
            r.winnersNotified == Occurrences(winningMakerIds, ',') + 1 &&
            |r.notifications| == |CommaItems(winningMakerIds)| &&
            forall k :: 0 <= k < |r.notifications| ==>
              r.notifications[k] == SentNotice(CommaItems(winningMakerIds)[k], WinnerMessage(jobId), now)
  {
    NoticesSpec(CommaItems(winningMakerIds), WinnerMessage(jobId), now);
    CommaItemsCount(winningMakerIds);
  }

  // ---------------------------------------------------------------------------
  // get_bid_status

  /** The status report; a competition statistic is None where the source shows "N/A". */
  datatype StatusReport = StatusReport(
    jobId: string,
    productName: string,
    windowStatus: WindowStatus,
    openedAt: int,
    closesAt: int,
    timeRemaining: Option<int>,
    totalBidsReceived: int,
    participatingManufacturers: seq<string>,
    participationRate: string,
    lowestBidCents: Option<int>,
    highestBidCents: Option<int>,
    averageBidCents: Option<int>)

  datatype StatusResult = StatusNotFound(jobId: string) | StatusFound(report: StatusReport)

  // ---------------------------------------------------------------------------
  // The store as a state machine

  /** The calls that may change BID_WINDOWS. */
  datatype Call =
    | Create(jobId: string, productName: string, requiredQty: int, requiredSkill: string, durationHours: int, now: int)
    | Close(jobId: string, now: int)
    | Notify(jobId: string, winningMakerIds: string)

  function Apply(windows: map<string, BidWindow>, c: Call): map<string, BidWindow> {
    match c
    case Create(j, p, q, s, d, t) => AfterCreate(windows, j, p, q, s, d, t)
    case Close(j, t) => AfterClose(windows, j, t)
    case Notify(j, ids) => AfterNotify(windows, j, ids)
  }

  function Run(windows: map<string, BidWindow>, calls: seq<Call>): map<string, BidWindow>
    decreases |calls|
  {
    if calls == [] then windows else Run(Apply(windows, calls[0]), calls[1..])
  }

  /** A window is CLOSED exactly when it records a closing instant. */
  ghost predicate ClosingRecorded(windows: map<string, BidWindow>) {
    forall k :: k in windows ==> (windows[k].status == Closed <==> windows[k].closedAt.Some?)
  }

  lemma InitialClosingRecorded()
    ensures ClosingRecorded(InitialWindows)
  {
    InitialWindowsShape();
  }

  lemma ApplyKeepsClosingRecorded(windows: map<string, BidWindow>, c: Call)
    requires ClosingRecorded(windows)
    ensures ClosingRecorded(Apply(windows, c))
  {
  }

  /** No sequence of calls removes a window, reopens a CLOSED window or breaks the
      link between CLOSED and a recorded closing instant. */
  lemma {:induction false} NeverReopens(windows: map<string, BidWindow>, calls: seq<Call>)
    decreases |calls|
    ensures windows.Keys <= Run(windows, calls).Keys
    ensures forall k :: k in windows && windows[k].status == Closed ==> Run(windows, calls)[k].status == Closed
    ensures ClosingRecorded(windows) ==> ClosingRecorded(Run(windows, calls))
  {
    if calls != [] {
      var next := Apply(windows, calls[0]);
      NeverReopens(next, calls[1..]);
      if ClosingRecorded(windows) {
        ApplyKeepsClosingRecorded(windows, calls[0]);
      }
    }
  }

  // ---------------------------------------------------------------------------

  class Coordinator {
    var windows: map<string, BidWindow>

    constructor ()
      ensures windows == InitialWindows
    {
      windows := InitialWindows;
    }

    method CreateBidWindow(jobId: string, productName: string, requiredQty: int, requiredSkill: string,
                           durationHours: int, now: int) returns (r: CreateResult)
      modifies this
      ensures windows == AfterCreate(old(windows), jobId, productName, requiredQty, requiredSkill, durationHours, now)
      ensures r == CreateReply(old(windows), jobId, durationHours, now)
    {
      if jobId in windows {
        return WindowExists(jobId, windows[jobId].status);
      }
      var closesAt := now + durationHours * 3600;
      var w := BidWindow(jobId, productName, Open, now, closesAt, None, durationHours,
                         requiredQty, requiredSkill, 0, [], "0%", None, None, None, None, None);
      windows := windows[jobId := w];
      r := WindowCreated(CreateReport(jobId, now, closesAt, durationHours, ManufacturersNotified));
    }

    /** get_bid_status; it reads the store and changes nothing. */
    function GetBidStatus(jobId: string, now: int): (r: StatusResult)
      reads this
      ensures r.StatusNotFound? <==> jobId !in windows
      ensures r.StatusFound? ==>
                var w := windows[jobId];
                r.report.jobId == jobId && r.report.windowStatus == w.status &&
                r.report.totalBidsReceived == w.totalBids &&
                (r.report.timeRemaining.Some? <==> w.status == Open) &&
                (r.report.timeRemaining.Some? ==> r.report.timeRemaining.value == TimeRemaining(w.closesAt, now)) &&
                r.report.productName == w.productName &&
                r.report.openedAt == w.openedAt && r.report.closesAt == w.closesAt &&
                r.report.participatingManufacturers == w.participatingManufacturers &&
                r.report.participationRate == w.participationRate &&
                r.report.lowestBidCents == w.lowestBidCents &&
                r.report.highestBidCents == w.highestBidCents &&
                r.report.averageBidCents == w.averageBidCents
    {
      match GetBidWindow(windows, jobId)
      case None => StatusNotFound(jobId)
      case Some(w) =>
        var remaining := if w.status == Open then Some(TimeRemaining(w.closesAt, now)) else None;
        StatusFound(StatusReport(jobId, w.productName, w.status, w.openedAt, w.closesAt, remaining, w.totalBids,
                                 w.participatingManufacturers, w.participationRate,
                                 w.lowestBidCents, w.highestBidCents, w.averageBidCents))
    }

    method CloseBidWindow(jobId: string, now: int) returns (r: CloseResult)
      modifies this
      ensures windows == AfterClose(old(windows), jobId, now)
      ensures r == CloseReply(old(windows), jobId, now)
    {
      var found := GetBidWindow(windows, jobId);
      if found.None? {
        return CloseNotFound(jobId);
      }
      var w := found.value;
      if w.status == Closed {
        return AlreadyClosed(jobId);
      }
      w := w.(status := Closed);
      w := w.(closedAt := Some(now));
      windows := windows[jobId := w];
      r := WindowClosed(jobId, now, w.totalBids);
    }

    method NotifyWinners(jobId: string, winningMakerIds: string, now: int) returns (r: NotifyResult)
      modifies this
      ensures windows == AfterNotify(old(windows), jobId, winningMakerIds)
      ensures r == NotifyReply(old(windows), jobId, winningMakerIds, now)
    {
      var found := GetBidWindow(windows, jobId);
      if found.None? {
        return NotifyNotFound(jobId);
      }
      var makerIds := CommaItems(winningMakerIds);
      var sent: seq<SentNotice> := [];
      for i := 0 to |makerIds|
        invariant sent == Notices(makerIds[..i], WinnerMessage(jobId), now)
      {
        var notification := WinnerMessage(jobId);
        sent := sent + [SentNotice(makerIds[i], notification, now)];
        assert makerIds[..i + 1][..i] == makerIds[..i];
      }
      assert makerIds[..|makerIds|] == makerIds;
      windows := windows[jobId := found.value.(winningManufacturers := Some(makerIds))];
      r := WinnersNotified(jobId, |sent|, sent);
    }
  }
}
