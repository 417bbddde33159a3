/** The supply-chain orchestrator's tools: the greedy bid optimizer and the
    manufacturer listing. Money is in integer cents, so the cost sum is exact. */
module Cornerstone {
  import opened Wrappers
  import opened Collections
  import opened DataMocks
  import Text

  datatype Fulfillment = Fulfilled | PartiallyFulfilled

  /** One entry of `winning_makers` (the formatted price strings are left out). */
  datatype Winner = Winner(
    makerId: string,
    makerName: string,
    location: string,
    quantityAssigned: int,
    priceCents: int,
    subtotalCents: int,
    leadTimeDays: int)

  datatype Report = Report(
    jobId: string,
    fulfillmentStatus: Fulfillment,
    totalCostCents: int,
    totalLeadTimeDays: int,
    quantityRequested: int,
    quantityFulfilled: int,
    numManufacturers: int,
    winningMakers: seq<Winner>)

  datatype OptimizeResult = NoMakersWithSkill(skill: string) | Optimized(report: Report)

  // ---------------------------------------------------------------------------
  // Specification of optimize_bids

  /** A bid takes part when its maker is registered and has exactly the skill (case-sensitive). */
  predicate IsEligible(makers: seq<Maker>, skill: string, b: Bid) {
    var m := GetMakerById(makers, b.makerId);
    m.Some? && m.value.skill == skill
  }

  /** `filtered_bids`: the eligible bids in input order. */
  function Eligible(makers: seq<Maker>, bids: seq<Bid>, skill: string): seq<Bid> {
    if bids == [] then []
    else (if IsEligible(makers, skill, bids[0]) then [bids[0]] else []) + Eligible(makers, bids[1..], skill)
  }

  /** The filter keeps exactly the eligible bids. */
  lemma {:induction false} EligibleSpec(makers: seq<Maker>, bids: seq<Bid>, skill: string)
    ensures |Eligible(makers, bids, skill)| <= |bids|
    ensures forall k :: 0 <= k < |Eligible(makers, bids, skill)| ==>
              IsEligible(makers, skill, Eligible(makers, bids, skill)[k]) && Eligible(makers, bids, skill)[k] in bids
    ensures forall k :: 0 <= k < |bids| && IsEligible(makers, skill, bids[k]) ==> bids[k] in Eligible(makers, bids, skill)
  {
    if bids != [] {
      EligibleSpec(makers, bids[1..], skill);
      assert forall k :: 1 <= k < |bids| ==> bids[k] == bids[1..][k - 1];
    }
  }

  lemma {:induction false} EligibleAppend(makers: seq<Maker>, s: seq<Bid>, b: Bid, skill: string)
    ensures Eligible(makers, s + [b], skill) ==
            Eligible(makers, s, skill) + (if IsEligible(makers, skill, b) then [b] else [])
  {
    var t := if IsEligible(makers, skill, b) then [b] else [];
    if s == [] {
      assert [] + [b] == [b] && [b][1..] == [];
      assert Eligible(makers, [b], skill) == t + [];
    } else {
      var h := if IsEligible(makers, skill, s[0]) then [s[0]] else [];
      assert (s + [b])[0] == s[0] && (s + [b])[1..] == s[1..] + [b];
      EligibleAppend(makers, s[1..], b, skill);
      assert Eligible(makers, s + [b], skill) == h + (Eligible(makers, s[1..], skill) + t);
      assert h + (Eligible(makers, s[1..], skill) + t) == (h + Eligible(makers, s[1..], skill)) + t;
    }
  }

  function Price(b: Bid): int { b.priceCents }

  /** `sorted_bids`: the eligible bids, cheapest first, ties in input order. */
  function ByPrice(bids: seq<Bid>): seq<Bid> {
    SortBy(bids, Price)
  }

  /** Every bid's maker is registered, so the loop's `continue` never fires. */
  ghost predicate Resolves(makers: seq<Maker>, s: seq<Bid>) {
    forall k :: 0 <= k < |s| ==> GetMakerById(makers, s[k].makerId).Some?
  }

  /** The state the greedy loop leaves behind. */
  datatype Walk = Walk(winners: seq<Winner>, totalCost: int, maxLead: int, remaining: int)

  /** The greedy loop over `sorted`, started with `remaining` units to place. */
  function Allocate(makers: seq<Maker>, sorted: seq<Bid>, remaining: int): Walk
    decreases |sorted|
  {
    if sorted == [] || remaining <= 0 then Walk([], 0, 0, remaining)
    else
      match GetMakerById(makers, sorted[0].makerId)
      case None => Allocate(makers, sorted[1..], remaining)
      case Some(m) =>
        var b := sorted[0];
        var q := Min(remaining, b.maxBatchSize);
        var w := Winner(m.id, m.name, m.location.city, q, b.priceCents, q * b.priceCents, m.leadTimeDays);
        var rest := Allocate(makers, sorted[1..], remaining - q);
        Walk([w] + rest.winners, w.subtotalCents + rest.totalCost, Max(m.leadTimeDays, rest.maxLead), rest.remaining)
  }

  function Optimize(makers: seq<Maker>, bids: seq<Bid>, jobId: string, requiredQty: int, requiredSkill: string): OptimizeResult {
    var eligible := Eligible(makers, bids, requiredSkill);
    if eligible == [] then NoMakersWithSkill(requiredSkill)
    else
      Optimized(ReportOf(jobId, requiredQty, Allocate(makers, ByPrice(eligible), requiredQty)))
  }

  /** Step 4: the fulfilment status and the report built from the walk's final state. */
  function ReportOf(jobId: string, requiredQty: int, w: Walk): Report {
    Report(
      jobId,
      if w.remaining <= 0 then Fulfilled else PartiallyFulfilled,
      w.totalCost,
      w.maxLead,
      requiredQty,
      requiredQty - Max(0, w.remaining),
      |w.winners|,
      w.winners)
  }

  // ---------------------------------------------------------------------------
  // optimize_bids

  /** Joins the loop's state so far with what the rest of the walk contributes. */
  function Combine(acc: Walk, rest: Walk): Walk {
    Walk(acc.winners + rest.winners, acc.totalCost + rest.totalCost, Max(acc.maxLead, rest.maxLead), rest.remaining)
  }

  /** Joining is associative, so the loop may absorb one winner at a time. */
  lemma CombineAssoc(a: Walk, b: Walk, c: Walk)
    ensures Combine(a, Combine(b, c)) == Combine(Combine(a, b), c)
  {
    assert a.winners + (b.winners + c.winners) == (a.winners + b.winners) + c.winners;
  }

  /** One step of the greedy walk: an unregistered maker's bid is skipped; otherwise
      the bid wins `min(remaining, max_batch_size)` units and the walk goes on with the
      rest. */
  lemma AllocateStep(makers: seq<Maker>, s: seq<Bid>, remaining: int)
    requires s != [] && remaining > 0
    ensures GetMakerById(makers, s[0].makerId).None? ==> Allocate(makers, s, remaining) == Allocate(makers, s[1..], remaining)
    ensures GetMakerById(makers, s[0].makerId).Some? ==>
              var m := GetMakerById(makers, s[0].makerId).value;
              var q := Min(remaining, s[0].maxBatchSize);
              var w := Winner(m.id, m.name, m.location.city, q, s[0].priceCents, q * s[0].priceCents, m.leadTimeDays);
              Allocate(makers, s, remaining) == Combine(Walk([w], q * s[0].priceCents, m.leadTimeDays, remaining - q),
                                                        Allocate(makers, s[1..], remaining - q))
  {
  }

  /** Step 1 of optimize_bids: keep the bids whose maker has the required skill. */
  method FilterBySkill(makers: seq<Maker>, bids: seq<Bid>, requiredSkill: string) returns (filtered: seq<Bid>)
    ensures filtered == Eligible(makers, bids, requiredSkill)
  {
    filtered := [];
    for i := 0 to |bids|
      invariant filtered == Eligible(makers, bids[..i], requiredSkill)
    {
      var maker := GetMakerById(makers, bids[i].makerId);
      if maker.Some? && maker.value.skill == requiredSkill {
        filtered := filtered + [bids[i]];
      }
      EligibleAppend(makers, bids[..i], bids[i], requiredSkill);
      assert bids[..i + 1] == bids[..i] + [bids[i]];
    }
    assert bids[..|bids|] == bids;
  }

  /** Step 3 of optimize_bids: the greedy walk over the price-ordered bids. */
  method SelectGreedy(makers: seq<Maker>, sorted: seq<Bid>, requiredQty: int) returns (walk: Walk)
    ensures walk == Allocate(makers, sorted, requiredQty)
  {
    var remaining := requiredQty;
    var winners: seq<Winner> := [];
    var totalCost := 0;
    var maxLeadTime := 0;
    var i := 0;
    assert sorted[0..] == sorted;
    AllocateLead(makers, sorted, requiredQty);
    assert [] + Allocate(makers, sorted, requiredQty).winners == Allocate(makers, sorted, requiredQty).winners;
    while i < |sorted|
      invariant 0 <= i <= |sorted|
      invariant maxLeadTime >= 0
      invariant Combine(Walk(winners, totalCost, maxLeadTime, remaining), Allocate(makers, sorted[i..], remaining))
                == Allocate(makers, sorted, requiredQty)
    {
      if remaining <= 0 {
        break;
      }
      assert sorted[i..][0] == sorted[i] && sorted[i..][1..] == sorted[i + 1..];
      AllocateStep(makers, sorted[i..], remaining);
      var maker := GetMakerById(makers, sorted[i].makerId);
      if maker.None? {
        i := i + 1;
        continue;
      }
      var m := maker.value;
      var qty := Min(remaining, sorted[i].maxBatchSize);
      var cost := qty * sorted[i].priceCents;
      var w := Winner(m.id, m.name, m.location.city, qty, sorted[i].priceCents, cost, m.leadTimeDays);
      CombineAssoc(Walk(winners, totalCost, maxLeadTime, remaining), Walk([w], cost, m.leadTimeDays, remaining - qty),
                   Allocate(makers, sorted[i + 1..], remaining - qty));
      winners := winners + [w];
      totalCost := totalCost + cost;
      maxLeadTime := Max(maxLeadTime, m.leadTimeDays);
      remaining := remaining - qty;
      i := i + 1;
    }
    assert winners + [] == winners;
    walk := Walk(winners, totalCost, maxLeadTime, remaining);
  }

  /** optimize_bids: filter, sort by price, walk greedily, report. */
  method OptimizeBids(makers: seq<Maker>, bids: seq<Bid>, jobId: string, requiredQty: int, requiredSkill: string)
    returns (r: OptimizeResult)
    ensures r == Optimize(makers, bids, jobId, requiredQty, requiredSkill)
  {
    var filtered := FilterBySkill(makers, bids, requiredSkill);
    if filtered == [] {
      return NoMakersWithSkill(requiredSkill);
    }
    var sorted := ByPrice(filtered);
    var walk := SelectGreedy(makers, sorted, requiredQty);
    r := Optimized(ReportOf(jobId, requiredQty, walk));
  }

  // ---------------------------------------------------------------------------
  // Sums over the winners

  function SumQty(ws: seq<Winner>): int {
    if ws == [] then 0 else ws[0].quantityAssigned + SumQty(ws[1..])
  }

  function SumCost(ws: seq<Winner>): int {
    if ws == [] then 0 else ws[0].quantityAssigned * ws[0].priceCents + SumCost(ws[1..])
  }

  /** Total batch size offered by `s`. */
  function Capacity(s: seq<Bid>): int {
    if s == [] then 0 else s[0].maxBatchSize + Capacity(s[1..])
  }

  lemma SumQtyCons(w: Winner, ws: seq<Winner>)
    ensures SumQty([w] + ws) == w.quantityAssigned + SumQty(ws)
    ensures SumCost([w] + ws) == w.quantityAssigned * w.priceCents + SumCost(ws)
  {
    assert ([w] + ws)[1..] == ws;
  }

  lemma {:induction false} AllocateTotals(makers: seq<Maker>, s: seq<Bid>, q: int)
    requires Resolves(makers, s)
    ensures var w := Allocate(makers, s, q);
      && |w.winners| <= |s|
      && w.remaining == q - SumQty(w.winners)
      && w.totalCost == SumCost(w.winners)
      && (|w.winners| < |s| ==> w.remaining <= 0)
    decreases |s|
  {
    if s != [] && q > 0 {
      var m := GetMakerById(makers, s[0].makerId).value;
      var qty := Min(q, s[0].maxBatchSize);
      var head := Winner(m.id, m.name, m.location.city, qty, s[0].priceCents, qty * s[0].priceCents, m.leadTimeDays);
      ResolvesTail(makers, s);
      AllocateTotals(makers, s[1..], q - qty);
      assert Allocate(makers, s, q).winners == [head] + Allocate(makers, s[1..], q - qty).winners;
      SumQtyCons(head, Allocate(makers, s[1..], q - qty).winners);
    }
  }

  /** The k-th winner is made from the k-th bid and its maker. */
  lemma {:induction false} AllocatePicks(makers: seq<Maker>, s: seq<Bid>, q: int)
    requires Resolves(makers, s)
    ensures var w := Allocate(makers, s, q);
      && |w.winners| <= |s|
      && forall k :: 0 <= k < |w.winners| ==>
        && w.winners[k].makerId == s[k].makerId
        && w.winners[k].priceCents == s[k].priceCents
        && w.winners[k].leadTimeDays == GetMakerById(makers, s[k].makerId).value.leadTimeDays
        && w.winners[k].subtotalCents == w.winners[k].quantityAssigned * s[k].priceCents
    decreases |s|
  {
    if s != [] && q > 0 {
      var qty := Min(q, s[0].maxBatchSize);
      ResolvesTail(makers, s);
      AllocatePicks(makers, s[1..], q - qty);
      var rest := Allocate(makers, s[1..], q - qty);
      var w := Allocate(makers, s, q);
      forall k | 1 <= k < |w.winners|
        ensures w.winners[k].makerId == s[k].makerId && w.winners[k].priceCents == s[k].priceCents
        ensures w.winners[k].leadTimeDays == GetMakerById(makers, s[k].makerId).value.leadTimeDays
        ensures w.winners[k].subtotalCents == w.winners[k].quantityAssigned * s[k].priceCents
      {
        assert s[k] == s[1..][k - 1];
        assert w.winners[k] == rest.winners[k - 1];
      }
    }
  }

  /** Each winner was taken while units were still needed, and got the smaller of
      the need and its batch. */
  ghost predicate TakesNeed(ws: seq<Winner>, s: seq<Bid>, q: int) {
    && |ws| <= |s|
    && forall k :: 0 <= k < |ws| ==>
      && q - SumQty(ws[..k]) > 0
      && ws[k].quantityAssigned == Min(q - SumQty(ws[..k]), s[k].maxBatchSize)
  }

  /** A first winner that took its share keeps the rest of the walk's shares right. */
  lemma TakesNeedCons(head: Winner, ws: seq<Winner>, s: seq<Bid>, q: int)
    requires s != [] && q > 0 && head.quantityAssigned == Min(q, s[0].maxBatchSize)
    requires TakesNeed(ws, s[1..], q - head.quantityAssigned)
    ensures TakesNeed([head] + ws, s, q)
  {
    var all := [head] + ws;
    forall k | 0 <= k < |all|
      ensures q - SumQty(all[..k]) > 0
      ensures all[k].quantityAssigned == Min(q - SumQty(all[..k]), s[k].maxBatchSize)
    {
      if k == 0 {
        assert all[..0] == [];
      } else {
        assert all[..k] == [head] + ws[..k - 1];
        SumQtyCons(head, ws[..k - 1]);
        assert s[k] == s[1..][k - 1];
        assert all[k] == ws[k - 1];
      }
    }
  }

  /** The k-th winner was taken while units were needed and got the smaller of the
      need and its batch. */
  lemma {:induction false} AllocateQuantities(makers: seq<Maker>, s: seq<Bid>, q: int)
    requires Resolves(makers, s)
    ensures TakesNeed(Allocate(makers, s, q).winners, s, q)
    decreases |s|
  {
    if s != [] && q > 0 {
      var m := GetMakerById(makers, s[0].makerId).value;
      var qty := Min(q, s[0].maxBatchSize);
      var head := Winner(m.id, m.name, m.location.city, qty, s[0].priceCents, qty * s[0].priceCents, m.leadTimeDays);
      ResolvesTail(makers, s);
      AllocateQuantities(makers, s[1..], q - qty);
      var rest := Allocate(makers, s[1..], q - qty);
      TakesNeedCons(head, rest.winners, s, q);
      AllocateStep(makers, s, q);
      assert Allocate(makers, s, q).winners == [head] + rest.winners;
    }
  }

  /** Starting from a non-negative need, the need left never goes negative. */
  lemma {:induction false} AllocateRemaining(makers: seq<Maker>, s: seq<Bid>, q: int)
    ensures q >= 0 ==> Allocate(makers, s, q).remaining >= 0
    ensures q <= 0 ==> Allocate(makers, s, q).winners == []
    decreases |s|
  {
    if s != [] && q > 0 {
      AllocateRemaining(makers, s[1..], q);
      AllocateRemaining(makers, s[1..], q - Min(q, s[0].maxBatchSize));
    }
  }

  lemma {:induction false} AllocateLead(makers: seq<Maker>, s: seq<Bid>, q: int)
    ensures var w := Allocate(makers, s, q);
      && w.maxLead >= 0
      && (forall k :: 0 <= k < |w.winners| ==> w.winners[k].leadTimeDays <= w.maxLead)
      && (w.maxLead == 0 || exists k :: 0 <= k < |w.winners| && w.winners[k].leadTimeDays == w.maxLead)
    decreases |s|
  {
    if s != [] && q > 0 {
      AllocateLead(makers, s[1..], q);
      var mk := GetMakerById(makers, s[0].makerId);
      if mk.Some? {
        var qty := Min(q, s[0].maxBatchSize);
        AllocateLead(makers, s[1..], q - qty);
        var rest := Allocate(makers, s[1..], q - qty);
        var w := Allocate(makers, s, q);
        assert w.winners[1..] == rest.winners;
        forall k | 0 <= k < |w.winners| ensures w.winners[k].leadTimeDays <= w.maxLead {
          if k > 0 { assert w.winners[k] == rest.winners[k - 1]; }
        }
        if w.maxLead == mk.value.leadTimeDays {
          assert w.winners[0].leadTimeDays == w.maxLead;
        } else if rest.maxLead != 0 {
          var j :| 0 <= j < |rest.winners| && rest.winners[j].leadTimeDays == rest.maxLead;
          assert w.winners[j + 1] == rest.winners[j];
        }
      }
    }
  }

  lemma {:induction false} AllocateCapacity(makers: seq<Maker>, s: seq<Bid>, q: int)
    requires Resolves(makers, s)
    requires q >= 0
    requires forall k :: 0 <= k < |s| ==> s[k].maxBatchSize >= 0
    ensures Allocate(makers, s, q).remaining == Max(0, q - Capacity(s))
    ensures Capacity(s) >= 0
    decreases |s|
  {
    if s != [] {
      assert Resolves(makers, s[1..]) by {
        forall k | 0 <= k < |s[1..]| ensures GetMakerById(makers, s[1..][k].makerId).Some? {
          assert s[1..][k] == s[k + 1];
        }
      }
      assert forall k :: 0 <= k < |s[1..]| ==> s[1..][k].maxBatchSize >= 0 by {
        forall k | 0 <= k < |s[1..]| ensures s[1..][k].maxBatchSize >= 0 {
          assert s[1..][k] == s[k + 1];
        }
      }
      AllocateCapacity(makers, s[1..], Min(q, s[0].maxBatchSize) - Min(q, s[0].maxBatchSize));
      AllocateCapacity(makers, s[1..], q - Min(q, s[0].maxBatchSize));
    }
  }

  lemma {:induction false} CapacityInsert(x: Bid, t: seq<Bid>)
    ensures Capacity(Insert(x, t, Price)) == x.maxBatchSize + Capacity(t)
  {
    if t != [] && Price(x) > Price(t[0]) {
      CapacityInsert(x, t[1..]);
      assert ([t[0]] + Insert(x, t[1..], Price))[1..] == Insert(x, t[1..], Price);
    }
  }

  lemma {:induction false} CapacityByPrice(s: seq<Bid>)
    ensures Capacity(ByPrice(s)) == Capacity(s)
  {
    if s != [] {
      CapacityByPrice(s[1..]);
      CapacityInsert(s[0], ByPrice(s[1..]));
    }
  }

  lemma EligibleResolve(makers: seq<Maker>, bids: seq<Bid>, skill: string)
    ensures Resolves(makers, ByPrice(Eligible(makers, bids, skill)))
  {
    EligibleSpec(makers, bids, skill);
    var e := Eligible(makers, bids, skill);
    var s := ByPrice(e);
    SortBySpec(e, Price);
    forall k | 0 <= k < |s| ensures GetMakerById(makers, s[k].makerId).Some? {
      assert s[k] in multiset(e);
      var j :| 0 <= j < |e| && e[j] == s[k];
    }
  }

  // ---------------------------------------------------------------------------
  // What optimize_bids promises, stated about a report and the price-ordered
  // eligible bids it was computed from

  /** The k-th winner is the k-th cheapest eligible bid: the winners are a prefix
      of the price order, so their prices never decrease. */
  ghost predicate FollowsPriceOrder(ws: seq<Winner>, sorted: seq<Bid>) {
    && |ws| <= |sorted|
    && (forall k :: 0 <= k < |ws| ==> ws[k].makerId == sorted[k].makerId && ws[k].priceCents == sorted[k].priceCents)
    && (forall i, j :: 0 <= i < j < |ws| ==> ws[i].priceCents <= ws[j].priceCents)
  }

  /** Each winner was taken while units were still needed, and got the smaller of
      what was needed and its bid's batch size. */
  ghost predicate WithinCaps(ws: seq<Winner>, sorted: seq<Bid>, qty: int) {
    && |ws| <= |sorted|
    && forall k :: 0 <= k < |ws| ==>
         && qty - SumQty(ws[..k]) > 0
         && ws[k].quantityAssigned == Min(qty - SumQty(ws[..k]), sorted[k].maxBatchSize)
  }

  /** quantity_fulfilled is what the winners received and never more than requested;
      FULFILLED means the winners cover the request; a non-positive request gets no
      winners, and a negative one is reported back as its own fulfilment. */
  ghost predicate Conserves(rep: Report, qty: int) {
    && rep.quantityRequested == qty
    && rep.numManufacturers == |rep.winningMakers|
    && rep.quantityFulfilled <= qty
    && (qty >= 0 ==> rep.quantityFulfilled == SumQty(rep.winningMakers))
    && (rep.fulfillmentStatus == Fulfilled <==> SumQty(rep.winningMakers) >= qty)
    && (rep.fulfillmentStatus == Fulfilled ==> rep.quantityFulfilled == qty)
    && (qty <= 0 ==> rep.winningMakers == [] && rep.fulfillmentStatus == Fulfilled)
    && (qty < 0 ==> rep.quantityFulfilled == qty)
  }

  /** total_cost is the exact sum of the subtotals; total_lead_time_days is the
      largest winner's lead time, or 0 with no winners. */
  ghost predicate CostAndLead(rep: Report) {
    var ws := rep.winningMakers;
    && rep.totalCostCents == SumCost(ws)
    && (forall k :: 0 <= k < |ws| ==> ws[k].subtotalCents == ws[k].quantityAssigned * ws[k].priceCents)
    && rep.totalLeadTimeDays >= 0
    && (forall k :: 0 <= k < |ws| ==> ws[k].leadTimeDays <= rep.totalLeadTimeDays)
    && (rep.totalLeadTimeDays == 0 || exists k :: 0 <= k < |ws| && ws[k].leadTimeDays == rep.totalLeadTimeDays)
  }

  /** Greedy saturation: every winner but the last takes its whole batch; the walk
      stops before the last bid only once the order is filled; a partial fill took
      every eligible batch in full. */
  ghost predicate Saturated(rep: Report, sorted: seq<Bid>) {
    var ws := rep.winningMakers;
    && |ws| <= |sorted|
    && (forall k :: 0 <= k < |ws| - 1 ==> ws[k].quantityAssigned == sorted[k].maxBatchSize)
    && (|ws| < |sorted| ==> rep.fulfillmentStatus == Fulfilled)
    && (rep.fulfillmentStatus == PartiallyFulfilled ==>
          |ws| == |sorted| && forall k :: 0 <= k < |ws| ==> ws[k].quantityAssigned == sorted[k].maxBatchSize)
  }

  /** With `cap` units on offer: FULFILLED exactly when the request fits, and
      otherwise everything on offer is taken. */
  ghost predicate MeetsCapacity(rep: Report, qty: int, cap: int) {
    && (rep.fulfillmentStatus == Fulfilled <==> qty <= cap)
    && rep.quantityFulfilled == Min(qty, cap)
  }

  lemma {:induction false} SumQtyAppend(ws: seq<Winner>, w: Winner)
    ensures SumQty(ws + [w]) == SumQty(ws) + w.quantityAssigned
  {
    if ws == [] {
      assert [] + [w] == [w];
      SumQtyCons(w, []);
    } else {
      assert (ws + [w])[1..] == ws[1..] + [w];
      SumQtyAppend(ws[1..], w);
    }
  }

  /** The units still needed drop by the k-th winner's quantity. */
  lemma SumQtyPrefix(ws: seq<Winner>, k: nat)
    requires k < |ws|
    ensures SumQty(ws[..k + 1]) == SumQty(ws[..k]) + ws[k].quantityAssigned
  {
    assert ws[..k + 1] == ws[..k] + [ws[k]];
    SumQtyAppend(ws[..k], ws[k]);
  }

  lemma WalkOrder(makers: seq<Maker>, s: seq<Bid>, jobId: string, q: int)
    requires Resolves(makers, s) && SortedBy(s, Price)
    ensures FollowsPriceOrder(ReportOf(jobId, q, Allocate(makers, s, q)).winningMakers, s)
  {
    AllocatePicks(makers, s, q);
    var ws := Allocate(makers, s, q).winners;
    forall i, j | 0 <= i < j < |ws| ensures ws[i].priceCents <= ws[j].priceCents {
      assert Price(s[i]) <= Price(s[j]);
    }
  }

  lemma WalkCaps(makers: seq<Maker>, s: seq<Bid>, jobId: string, q: int)
    requires Resolves(makers, s)
    ensures WithinCaps(ReportOf(jobId, q, Allocate(makers, s, q)).winningMakers, s, q)
  {
    AllocateQuantities(makers, s, q);
  }

  lemma WalkConserves(makers: seq<Maker>, s: seq<Bid>, jobId: string, q: int)
    requires Resolves(makers, s)
    ensures Conserves(ReportOf(jobId, q, Allocate(makers, s, q)), q)
  {
    AllocateTotals(makers, s, q);
    AllocateRemaining(makers, s, q);
  }

  lemma WalkCostAndLead(makers: seq<Maker>, s: seq<Bid>, jobId: string, q: int)
    requires Resolves(makers, s)
    ensures CostAndLead(ReportOf(jobId, q, Allocate(makers, s, q)))
  {
    AllocateTotals(makers, s, q);
    AllocatePicks(makers, s, q);
    AllocateLead(makers, s, q);
  }

  lemma WalkSaturated(makers: seq<Maker>, s: seq<Bid>, jobId: string, q: int)
    requires Resolves(makers, s)
    ensures Saturated(ReportOf(jobId, q, Allocate(makers, s, q)), s)
  {
    AllocateTotals(makers, s, q);
    AllocateQuantities(makers, s, q);
    var w := Allocate(makers, s, q);
    var ws := w.winners;
    forall k | 0 <= k < |ws| - 1 ensures ws[k].quantityAssigned == s[k].maxBatchSize {
      SumQtyPrefix(ws, k);
      assert q - SumQty(ws[..k + 1]) > 0;
    }
    if w.remaining > 0 && ws != [] {
      var n := |ws| - 1;
      SumQtyPrefix(ws, n);
      assert ws[..n + 1] == ws;
    }
  }

  lemma WalkCapacity(makers: seq<Maker>, s: seq<Bid>, jobId: string, q: int)
    requires Resolves(makers, s) && q >= 0
    requires forall k :: 0 <= k < |s| ==> s[k].maxBatchSize >= 0
    ensures MeetsCapacity(ReportOf(jobId, q, Allocate(makers, s, q)), q, Capacity(s))
  {
    AllocateCapacity(makers, s, q);
  }

  lemma EligibleSorted(makers: seq<Maker>, bids: seq<Bid>, skill: string)
    ensures Resolves(makers, ByPrice(Eligible(makers, bids, skill)))
    ensures SortedBy(ByPrice(Eligible(makers, bids, skill)), Price)
    ensures multiset(ByPrice(Eligible(makers, bids, skill))) == multiset(Eligible(makers, bids, skill))
  {
    EligibleResolve(makers, bids, skill);
    SortBySpec(Eligible(makers, bids, skill), Price);
  }

  /** With no bid whose maker has exactly the skill, the answer is the error (and only then). */
  lemma NoSkillMatchIsError(makers: seq<Maker>, bids: seq<Bid>, jobId: string, qty: int, skill: string)
    ensures Optimize(makers, bids, jobId, qty, skill).NoMakersWithSkill? <==>
            forall k :: 0 <= k < |bids| ==> !IsEligible(makers, skill, bids[k])
  {
    EligibleSpec(makers, bids, skill);
  }

  lemma WinnersFollowPriceOrder(makers: seq<Maker>, bids: seq<Bid>, jobId: string, qty: int, skill: string)
    requires Optimize(makers, bids, jobId, qty, skill).Optimized?
    ensures FollowsPriceOrder(Optimize(makers, bids, jobId, qty, skill).report.winningMakers,
                              ByPrice(Eligible(makers, bids, skill)))
  {
    EligibleSorted(makers, bids, skill);
    WalkOrder(makers, ByPrice(Eligible(makers, bids, skill)), jobId, qty);
  }

  lemma QuantityCaps(makers: seq<Maker>, bids: seq<Bid>, jobId: string, qty: int, skill: string)
    requires Optimize(makers, bids, jobId, qty, skill).Optimized?
    ensures WithinCaps(Optimize(makers, bids, jobId, qty, skill).report.winningMakers,
                       ByPrice(Eligible(makers, bids, skill)), qty)
  {
    EligibleSorted(makers, bids, skill);
    WalkCaps(makers, ByPrice(Eligible(makers, bids, skill)), jobId, qty);
  }

  lemma QuantityConservation(makers: seq<Maker>, bids: seq<Bid>, jobId: string, qty: int, skill: string)
    requires Optimize(makers, bids, jobId, qty, skill).Optimized?
    ensures Conserves(Optimize(makers, bids, jobId, qty, skill).report, qty)
  {
    EligibleSorted(makers, bids, skill);
    WalkConserves(makers, ByPrice(Eligible(makers, bids, skill)), jobId, qty);
  }

  lemma CostAndLeadTime(makers: seq<Maker>, bids: seq<Bid>, jobId: string, qty: int, skill: string)
    requires Optimize(makers, bids, jobId, qty, skill).Optimized?
    ensures CostAndLead(Optimize(makers, bids, jobId, qty, skill).report)
  {
    EligibleSorted(makers, bids, skill);
    WalkCostAndLead(makers, ByPrice(Eligible(makers, bids, skill)), jobId, qty);
  }

  lemma GreedySaturation(makers: seq<Maker>, bids: seq<Bid>, jobId: string, qty: int, skill: string)
    requires Optimize(makers, bids, jobId, qty, skill).Optimized?
    ensures Saturated(Optimize(makers, bids, jobId, qty, skill).report, ByPrice(Eligible(makers, bids, skill)))
  {
    EligibleSorted(makers, bids, skill);
    WalkSaturated(makers, ByPrice(Eligible(makers, bids, skill)), jobId, qty);
  }

  /** No negative batch size is offered. */
  ghost predicate NonNegativeBatches(s: seq<Bid>) {
    forall k :: 0 <= k < |s| ==> s[k].maxBatchSize >= 0
  }

  lemma FulfilledIffEnoughCapacity(makers: seq<Maker>, bids: seq<Bid>, jobId: string, qty: int, skill: string)
    requires Optimize(makers, bids, jobId, qty, skill).Optimized?
    requires qty >= 0 && NonNegativeBatches(bids)
    ensures MeetsCapacity(Optimize(makers, bids, jobId, qty, skill).report, qty, Capacity(Eligible(makers, bids, skill)))
  {
    var e := Eligible(makers, bids, skill);
    var sorted := ByPrice(e);
    EligibleSorted(makers, bids, skill);
    EligibleSpec(makers, bids, skill);
    forall k | 0 <= k < |sorted| ensures sorted[k].maxBatchSize >= 0 {
      assert sorted[k] in multiset(e);
      assert sorted[k] in bids;
    }
    WalkCapacity(makers, sorted, jobId, qty);
    CapacityByPrice(e);
  }

  // ---------------------------------------------------------------------------
  // Greedy is cheapest

  /** Units placed by an allocation vector. */
  function Units(x: seq<int>): int {
    if x == [] then 0 else x[0] + Units(x[1..])
  }

  /** Cost of placing x[k] units with the k-th bid. */
  function Cost(s: seq<Bid>, x: seq<int>): int
    requires |x| == |s|
  {
    if s == [] then 0 else x[0] * s[0].priceCents + Cost(s[1..], x[1..])
  }

  /** No bid gets a negative quantity or more than its batch size. */
  ghost predicate Feasible(s: seq<Bid>, x: seq<int>) {
    |x| == |s| && forall k :: 0 <= k < |s| ==> 0 <= x[k] <= s[k].maxBatchSize
  }

  function Floor(s: seq<Bid>): int {
    if s == [] then 0 else s[0].priceCents
  }

  lemma FeasibleTail(s: seq<Bid>, x: seq<int>)
    requires Feasible(s, x) && s != []
    ensures Feasible(s[1..], x[1..])
  {
    forall k | 0 <= k < |s[1..]| ensures 0 <= x[1..][k] <= s[1..][k].maxBatchSize {
      assert x[1..][k] == x[k + 1] && s[1..][k] == s[k + 1];
    }
  }

  lemma SortedTail(s: seq<Bid>)
    requires SortedBy(s, Price) && s != []
    ensures SortedBy(s[1..], Price)
    ensures |s| > 1 ==> Floor(s[1..]) >= Floor(s)
  {
    forall i, j | 0 <= i < j < |s[1..]| ensures Price(s[1..][i]) <= Price(s[1..][j]) {
      assert s[1..][i] == s[i + 1] && s[1..][j] == s[j + 1];
    }
    if |s| > 1 {
      assert Price(s[0]) <= Price(s[1]);
    }
  }

  lemma ResolvesTail(makers: seq<Maker>, s: seq<Bid>)
    requires Resolves(makers, s) && s != []
    ensures Resolves(makers, s[1..])
  {
    forall k | 0 <= k < |s[1..]| ensures GetMakerById(makers, s[1..][k].makerId).Some? {
      assert s[1..][k] == s[k + 1];
    }
  }

  lemma {:induction false} UnitsNonneg(s: seq<Bid>, x: seq<int>)
    requires Feasible(s, x)
    ensures Units(x) >= 0
  {
    if s != [] {
      FeasibleTail(s, x);
      UnitsNonneg(s[1..], x[1..]);
    }
  }

  lemma MulLe(a: int, b: int, d: int)
    requires a <= b && d >= 0
    ensures a * d <= b * d
  {
  }

  lemma MulNonneg(a: int, b: int)
    requires a >= 0 && b >= 0
    ensures a * b >= 0
  {
  }

  /** In price order every unit costs at least the first price. */
  lemma {:induction false} CostLowerBound(s: seq<Bid>, x: seq<int>)
    requires SortedBy(s, Price) && Feasible(s, x)
    ensures Cost(s, x) >= Units(x) * Floor(s)
  {
    if s != [] {
      FeasibleTail(s, x);
      SortedTail(s);
      CostLowerBound(s[1..], x[1..]);
      UnitsNonneg(s[1..], x[1..]);
      var u := Units(x[1..]);
      var p := s[0].priceCents;
      if |s| > 1 {
        MulLe(p, Floor(s[1..]), u);
      } else {
        assert u == 0;
      }
      assert Units(x) * p == x[0] * p + u * p;
    }
  }

  /** The arithmetic of one greedy step that takes the whole first batch `c` at price `p`. */
  lemma StepBound(x0: int, u: int, f: int, c: int, p: int, floorRest: int, costRest: int, walkRest: int)
    requires costRest >= walkRest + (u - f) * floorRest
    requires u - f >= 0 && (floorRest >= p || u - f == 0)
    ensures x0 * p + costRest >= c * p + walkRest + ((x0 + u) - (c + f)) * p
  {
    if u - f > 0 {
      MulLe(p, floorRest, u - f);
    }
    assert ((x0 + u) - (c + f)) * p == x0 * p + (u - f) * p - c * p;
  }

  /** The inductive core: against any feasible allocation delivering at least as many
      units, the greedy walk is cheaper by at least the extra units at the floor price. */
  lemma {:induction false} GreedyBound(makers: seq<Maker>, s: seq<Bid>, q: int, x: seq<int>)
    requires Resolves(makers, s) && SortedBy(s, Price) && Feasible(s, x) && q >= 0
    requires Units(x) >= q - Allocate(makers, s, q).remaining
    ensures Cost(s, x) >= Allocate(makers, s, q).totalCost + (Units(x) - (q - Allocate(makers, s, q).remaining)) * Floor(s)
    decreases |s|
  {
    if s == [] {
    } else if q == 0 || q <= s[0].maxBatchSize {
      CostLowerBound(s, x);
      var p := s[0].priceCents;
      assert Units(x) * p == q * p + (Units(x) - q) * p;
    } else {
      ResolvesTail(makers, s);
      FeasibleTail(s, x);
      SortedTail(s);
      var c := s[0].maxBatchSize;
      var rest := Allocate(makers, s[1..], q - c);
      assert Allocate(makers, s, q).totalCost == c * s[0].priceCents + rest.totalCost;
      assert Allocate(makers, s, q).remaining == rest.remaining;
      GreedyBound(makers, s[1..], q - c, x[1..]);
      if |s| == 1 {
        assert Units(x[1..]) == 0 && rest.remaining == q - c;
      }
      StepBound(x[0], Units(x[1..]), (q - c) - rest.remaining, c, s[0].priceCents, Floor(s[1..]),
                Cost(s[1..], x[1..]), rest.totalCost);
    }
  }

  lemma WalkCheapest(makers: seq<Maker>, s: seq<Bid>, q: int, x: seq<int>)
    requires Resolves(makers, s) && SortedBy(s, Price) && Feasible(s, x) && q >= 0
    requires Units(x) >= q - Allocate(makers, s, q).remaining
    ensures Units(x) == q - Allocate(makers, s, q).remaining ==> Cost(s, x) >= Allocate(makers, s, q).totalCost
    ensures Floor(s) >= 0 ==> Cost(s, x) >= Allocate(makers, s, q).totalCost
  {
    GreedyBound(makers, s, q, x);
    var w := Allocate(makers, s, q);
    BoundAtFloor(Cost(s, x), w.totalCost, Units(x) - (q - w.remaining), Floor(s));
  }

  /** A cost that exceeds the total by `extra` units at the floor price is no cheaper
      when there are no extra units or the floor price is not negative. */
  lemma BoundAtFloor(cost: int, total: int, extra: int, floor: int)
    requires extra >= 0 && cost >= total + extra * floor
    ensures extra == 0 ==> cost >= total
    ensures floor >= 0 ==> cost >= total
  {
    if floor >= 0 {
      MulNonneg(extra, floor);
    }
  }

  /** optimize_bids is optimal: no feasible allocation over the eligible bids (listed
      in price order) delivering the same number of units is cheaper; with non-negative
      prices, neither is one delivering more. */
  lemma GreedyIsCheapest(makers: seq<Maker>, bids: seq<Bid>, jobId: string, qty: int, skill: string, x: seq<int>)
    requires qty >= 0
    requires Optimize(makers, bids, jobId, qty, skill).Optimized?
    requires Feasible(ByPrice(Eligible(makers, bids, skill)), x)
    requires Units(x) >= Optimize(makers, bids, jobId, qty, skill).report.quantityFulfilled
    ensures Units(x) == Optimize(makers, bids, jobId, qty, skill).report.quantityFulfilled ==>
              Cost(ByPrice(Eligible(makers, bids, skill)), x) >= Optimize(makers, bids, jobId, qty, skill).report.totalCostCents
    ensures (forall k :: 0 <= k < |bids| ==> bids[k].priceCents >= 0) ==>
              Cost(ByPrice(Eligible(makers, bids, skill)), x) >= Optimize(makers, bids, jobId, qty, skill).report.totalCostCents
  {
    var e := Eligible(makers, bids, skill);
    var sorted := ByPrice(e);
    EligibleSorted(makers, bids, skill);
    EligibleSpec(makers, bids, skill);
    AllocateRemaining(makers, sorted, qty);
    if forall k :: 0 <= k < |bids| ==> bids[k].priceCents >= 0 {
      assert sorted[0] in multiset(e);
      assert sorted[0] in bids;
    }
    WalkCheapest(makers, sorted, qty, x);
  }

  // ---------------------------------------------------------------------------
  // list_manufacturers

  datatype MakerListing = MakerListing(totalManufacturers: int, filterApplied: Option<string>, manufacturers: seq<Maker>)

  function SkillMatches(skill: string): Maker -> bool {
    (m: Maker) => Text.Upper(m.skill) == Text.Upper(skill)
  }

  /** All makers for an empty skill; otherwise exactly those whose skill matches
      ignoring (ASCII) case, in registry order. */
  function ListManufacturers(makers: seq<Maker>, skill: string): (r: MakerListing)
    ensures r.totalManufacturers == |r.manufacturers|
    ensures skill == [] ==> r.manufacturers == makers && r.filterApplied == None
    ensures skill != [] ==> r.filterApplied == Some(skill)
    ensures skill != [] ==> forall k :: 0 <= k < |r.manufacturers| ==>
              Text.Upper(r.manufacturers[k].skill) == Text.Upper(skill) && r.manufacturers[k] in makers
    ensures skill != [] ==> forall k :: 0 <= k < |makers| && Text.Upper(makers[k].skill) == Text.Upper(skill) ==>
              makers[k] in r.manufacturers
    ensures skill != [] ==>
              forall m :: multiset(r.manufacturers)[m] == (if Text.Upper(m.skill) == Text.Upper(skill) then multiset(makers)[m] else 0)
  {
    FilterCountAll(makers, SkillMatches(skill));
    var listed := if skill != [] then Filter(makers, SkillMatches(skill)) else makers;
    MakerListing(|listed|, if skill != [] then Some(skill) else None, listed)
  }

  /** The listing keeps registry order: one more maker appends it exactly when it is
      listed. */
  lemma ListManufacturersAppend(makers: seq<Maker>, m: Maker, skill: string)
    ensures ListManufacturers(makers + [m], skill).manufacturers ==
            ListManufacturers(makers, skill).manufacturers +
            (if skill == [] || Text.Upper(m.skill) == Text.Upper(skill) then [m] else [])
  {
    if skill != [] {
      var p := SkillMatches(skill);
      FilterAppend(makers, [m], p);
      assert Filter([m], p) == if p(m) then [m] else [];
      assert ListManufacturers(makers + [m], skill).manufacturers == Filter(makers + [m], p);
      assert ListManufacturers(makers, skill).manufacturers == Filter(makers, p);
    }
  }

  /** get_job_details: the job the demo optimizes. */
  function GetJobDetails(): Job {
    CurrentJob
  }
}
