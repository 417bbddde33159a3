/** The bid-window records, the two stored windows, the notification templates, the
    lookup by job id and the hours-remaining clock. Instants are whole seconds (see
    Dates.Timestamp); the current instant is a parameter. Bid prices are in cents. */
module BidWindows {
  import opened Wrappers
  import opened Rounding
  import opened Dates

  /** A window's "status" field, which only ever holds "OPEN" or "CLOSED". */
  datatype WindowStatus = Open | Closed

  /** One BID_WINDOWS entry. Keys a window may lack are Options. */
  datatype BidWindow = BidWindow(
    jobId: string,
    productName: string,
    status: WindowStatus,
    openedAt: int,
    closesAt: int,
    closedAt: Option<int>,
    durationHours: int,
    requiredQty: int,
    requiredSkill: string,
    totalBids: int,
    participatingManufacturers: seq<string>,
    participationRate: string,
    lowestBidCents: Option<int>,
    highestBidCents: Option<int>,
    averageBidCents: Option<int>,
    winningManufacturers: Option<seq<string>>,
    finalCost: Option<string>)

  const KnickWindow := BidWindow(
    "KNICK_2025", "Precision Widget Bracket", Open,
    Timestamp(2025, 10, 1, 9, 0, 0), Timestamp(2025, 10, 5, 17, 0, 0), None,
    104, 5000, "CNC", 8,
    ["MAKER_A", "MAKER_C", "MAKER_D", "MAKER_E", "MAKER_G", "MAKER_H", "MAKER_J", "MAKER_B"],
    "80%", Some(220), Some(320), Some(265), None, None)

  const WidgetWindow := BidWindow(
    "WIDGET_2024", "Aluminum Housing", Closed,
    Timestamp(2025, 9, 15, 10, 0, 0), Timestamp(2025, 9, 20, 18, 0, 0), Some(Timestamp(2025, 9, 20, 18, 0, 0)),
    128, 3000, "CNC", 6,
    ["MAKER_A", "MAKER_C", "MAKER_F", "MAKER_H", "MAKER_I", "MAKER_J"],
    "60%", None, None, None, Some(["MAKER_C", "MAKER_H"]), Some("$8,000"))

  /** BID_WINDOWS as the program starts. */
  const InitialWindows: map<string, BidWindow> := map["KNICK_2025" := KnickWindow, "WIDGET_2024" := WidgetWindow]

  /** get_bid_window: the stored window for the job, or None. */
  function GetBidWindow(windows: map<string, BidWindow>, jobId: string): (r: Option<BidWindow>)
    ensures r.Some? <==> jobId in windows
    ensures r.Some? ==> r.value == windows[jobId]
  {
    Get(windows, jobId)
  }

  /** calculate_time_remaining in tenths of an hour: the hours from `now` until
      `closesAt`, clamped at zero and rounded to one decimal. */
  function TimeRemaining(closesAt: int, now: int): (r: int)
    ensures r >= 0
    ensures now >= closesAt ==> r == 0
    ensures 2 * Abs(r * 360 - Max(0, closesAt - now)) <= 360
  {
    RoundDiv(Max(0, closesAt - now), 360)
  }

  /** The clock only runs down: a later instant never leaves more time. */
  lemma TimeRemainingRunsDown(closesAt: int, now: int, later: int)
    requires now <= later
    ensures TimeRemaining(closesAt, later) <= TimeRemaining(closesAt, now)
  {
    RoundDivMonotone(Max(0, closesAt - later), Max(0, closesAt - now), 360);
  }

  /** Whole hours are reported exactly. */
  lemma TimeRemainingWholeHours(closesAt: int, now: int, hours: nat)
    requires closesAt - now == hours * 3600
    ensures TimeRemaining(closesAt, now) == 10 * hours
  {
    assert Max(0, closesAt - now) == (10 * hours) * 360;
    RoundDivExact(10 * hours, 360);
  }

  /** The stored windows: KNICK_2025 is open and holds neither a closing instant nor
      winners, WIDGET_2024 is closed and holds both, and each window closes its
      duration after it opened. */
  lemma InitialWindowsShape()
    ensures InitialWindows.Keys == {"KNICK_2025", "WIDGET_2024"}
    ensures forall k :: k in InitialWindows ==> InitialWindows[k].jobId == k
    ensures forall k :: k in InitialWindows ==>
              InitialWindows[k].closesAt == InitialWindows[k].openedAt + InitialWindows[k].durationHours * 3600
    ensures InitialWindows["KNICK_2025"].status == Open
    ensures InitialWindows["KNICK_2025"].closedAt.None? && InitialWindows["KNICK_2025"].winningManufacturers.None?
    ensures InitialWindows["WIDGET_2024"].status == Closed
    ensures InitialWindows["WIDGET_2024"].closedAt.Some? && InitialWindows["WIDGET_2024"].winningManufacturers.Some?
  {
  }

  // ---------------------------------------------------------------------------
  // Notification templates: `str.format` strings, split into literal text and
  // `{name}` fields.

  datatype Piece = Literal(text: string) | Field(name: string)

  type Template = seq<Piece>

  datatype Notification = Notification(subject: Template, message: Template)

  /** The field names a template refers to. */
  function Placeholders(t: Template): set<string>
  {
    if t == [] then {}
    else if t[0].Field? then {t[0].name} + Placeholders(t[1..])
    else Placeholders(t[1..])
  }

  /** One piece at a time: a field adds its name, a literal adds nothing. */
  lemma PlaceholdersStep(t: Template, i: nat)
    requires i < |t|
    ensures Placeholders(t[i..]) == (if t[i].Field? then {t[i].name} else {}) + Placeholders(t[i + 1..])
  {
    assert t[i..][1..] == t[i + 1..];
  }

  /** A name is a placeholder exactly when some piece is a field of that name. */
  lemma {:induction false} PlaceholdersSpec(t: Template, n: string)
    ensures n in Placeholders(t) <==> exists k :: 0 <= k < |t| && t[k] == Field(n)
  {
    if t != [] {
      PlaceholdersSpec(t[1..], n);
      assert forall k :: 1 <= k < |t| ==> t[k] == t[1..][k - 1];
      if n in Placeholders(t[1..]) {
        var k :| 0 <= k < |t[1..]| && t[1..][k] == Field(n);
        assert t[k + 1] == Field(n);
      }
    }
  }

  /** `template.format(**args)`: the filled-in text, or None where a field has no
      argument (Python raises KeyError). Arguments no field names are ignored. */
  function Format(t: Template, args: map<string, string>): Option<string>
  {
    if t == [] then Some([])
    else
      var rest := Format(t[1..], args);
      match t[0]
      case Literal(s) => if rest.Some? then Some(s + rest.value) else None
      case Field(n) => if n in args && rest.Some? then Some(args[n] + rest.value) else None
  }

  /** Formatting fails exactly when some field has no argument. */
  lemma {:induction false} FormatDefined(t: Template, args: map<string, string>)
    ensures Format(t, args).Some? <==> Placeholders(t) <= args.Keys
  {
    if t != [] {
      FormatDefined(t[1..], args);
    }
  }

  /** Formatting one more piece in front. */
  lemma FormatStep(t: Template, i: nat, args: map<string, string>)
    requires i < |t| && Format(t[i + 1..], args).Some?
    ensures t[i].Literal? ==> Format(t[i..], args) == Some(t[i].text + Format(t[i + 1..], args).value)
    ensures t[i].Field? && t[i].name in args ==>
              Format(t[i..], args) == Some(args[t[i].name] + Format(t[i + 1..], args).value)
  {
    assert t[i..][1..] == t[i + 1..];
  }

  /** Only the named fields matter: arguments that agree on them give the same text. */
  lemma {:induction false} FormatUsesOnlyPlaceholders(t: Template, a: map<string, string>, b: map<string, string>)
    requires forall n :: n in Placeholders(t) ==> (n in a <==> n in b) && (n in a ==> a[n] == b[n])
    ensures Format(t, a) == Format(t, b)
  {
    if t != [] {
      FormatUsesOnlyPlaceholders(t[1..], a, b);
    }
  }

  const BidOpened := Notification(
    [Literal("New Bid Opportunity: "), Field("job_id")],
    [Literal("A new bid window has opened for "), Field("product_name"), Literal(". Required: "),
     Field("required_qty"), Literal(" units ("), Field("required_skill"),
     Literal("). Submit your bid before "), Field("closes_at"), Literal(".")])

  const BidClosingSoon := Notification(
    [Literal("Bid Closing Soon: "), Field("job_id")],
    [Literal("The bid window for "), Field("job_id"), Literal(" closes in 24 hours. Submit your bid now!")])

  const BidClosed := Notification(
    [Literal("Bid Window Closed: "), Field("job_id")],
    [Literal("The bid window for "), Field("job_id"),
     Literal(" is now closed. Winners will be notified within 24 hours.")])

  const WinnerNotification := Notification(
    [Literal("Congratulations! You Won Bid "), Field("job_id")],
    [Literal("You've been selected for "), Field("job_id"), Literal("! Quantity: "), Field("quantity"),
     Literal(" units at $"), Field("price"), Literal("/unit. Total value: $"), Field("total"),
     Literal(". Production deadline: "), Field("deadline"), Literal(".")])

  const NotSelected := Notification(
    [Literal("Bid Result: "), Field("job_id")],
    [Literal("Thank you for participating in "), Field("job_id"),
     Literal(". Unfortunately, your bid was not selected this time. Keep bidding to win future opportunities!")])

  /** NOTIFICATIONS. */
  const Notifications: map<string, Notification> := map[
    "bid_opened" := BidOpened,
    "bid_closing_soon" := BidClosingSoon,
    "bid_closed" := BidClosed,
    "winner_notification" := WinnerNotification,
    "not_selected" := NotSelected]

  /** The winner message names exactly the five fields notify_winners supplies, and
      the opening message needs no field create_bid_window leaves out. */
  lemma TemplateFields()
    ensures Placeholders(WinnerNotification.message) == {"job_id", "quantity", "price", "total", "deadline"}
    ensures Placeholders(BidOpened.message) == {"product_name", "required_qty", "required_skill", "closes_at"}
    ensures Placeholders(BidOpened.message) <= {"job_id", "product_name", "required_qty", "required_skill", "closes_at"}
  {
    WinnerFields();
    OpenedFields();
  }

  lemma WinnerFields()
    ensures Placeholders(WinnerNotification.message) == {"job_id", "quantity", "price", "total", "deadline"}
  {
    WinnerTailFields();
  }

  lemma WinnerTailFields()
    ensures Placeholders(WinnerNotification.message[5..]) == {"price", "total", "deadline"}
  {
    var t := WinnerNotification.message;
    assert t[11..] == [];
    PlaceholdersStep(t, 10);
    PlaceholdersStep(t, 9);
    PlaceholdersStep(t, 8);
    PlaceholdersStep(t, 7);
    PlaceholdersStep(t, 6);
    PlaceholdersStep(t, 5);
  }

  lemma OpenedFields()
    ensures Placeholders(BidOpened.message) == {"product_name", "required_qty", "required_skill", "closes_at"}
  {
  }
}
