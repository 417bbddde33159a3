/** optimize_bids on the demo data: job KNICK_2025 (5000 CNC brackets) against the
    eight registered bids, and the same bids asked for more than they offer. */
module CornerstoneExamples {
  import opened Wrappers
  import opened Collections
  import opened DataMocks
  import opened Cornerstone

  lemma BidMaker(b: Bid, idx: nat)
    requires idx < |MockMakers| && b.makerId == MockMakers[idx].id
    ensures GetMakerById(MockMakers, b.makerId) == Some(MockMakers[idx])
  {
    MockMakerIdsDistinct();
    GetMakerByIdAt(MockMakers, idx);
  }

  lemma BidMakers()
    ensures GetMakerById(MockMakers, BidC.makerId) == Some(MakerC)
    ensures GetMakerById(MockMakers, BidA.makerId) == Some(MakerA)
    ensures GetMakerById(MockMakers, BidJ.makerId) == Some(MakerJ)
    ensures GetMakerById(MockMakers, BidH.makerId) == Some(MakerH)
    ensures GetMakerById(MockMakers, BidD.makerId) == Some(MakerD)
    ensures GetMakerById(MockMakers, BidG.makerId) == Some(MakerG)
    ensures GetMakerById(MockMakers, BidE.makerId) == Some(MakerE)
    ensures GetMakerById(MockMakers, BidB.makerId) == Some(MakerB)
  {
    BidMaker(BidC, 2);
    BidMaker(BidA, 0);
    BidMaker(BidJ, 9);
    BidMaker(BidH, 7);
    BidMaker(BidD, 3);
    BidMaker(BidG, 6);
    BidMaker(BidE, 4);
    BidMaker(BidB, 1);
  }

  /** Every bid names a registered maker. */
  lemma MockBidsResolve()
    ensures forall k :: 0 <= k < |MockBids| ==> GetMakerById(MockMakers, MockBids[k].makerId).Some?
  {
    BidMakers();
  }

  lemma CncBids()
    ensures IsEligible(MockMakers, "CNC", BidC) && IsEligible(MockMakers, "CNC", BidA)
    ensures IsEligible(MockMakers, "CNC", BidJ) && IsEligible(MockMakers, "CNC", BidH)
    ensures IsEligible(MockMakers, "CNC", BidD) && IsEligible(MockMakers, "CNC", BidG)
    ensures IsEligible(MockMakers, "CNC", BidE)
    ensures !IsEligible(MockMakers, "CNC", BidB)
  {
    BidMakers();
  }

  lemma EligibleCons(makers: seq<Maker>, b: Bid, rest: seq<Bid>, skill: string)
    ensures Eligible(makers, [b] + rest, skill) ==
            (if IsEligible(makers, skill, b) then [b] else []) + Eligible(makers, rest, skill)
  {
    assert ([b] + rest)[1..] == rest;
  }

  /** Seven bids come from CNC makers; MAKER_B's bid is for 3D printing. */
  lemma CncEligible()
    ensures Eligible(MockMakers, MockBids, "CNC") == [BidC, BidA, BidJ, BidH, BidD, BidG, BidE]
  {
    CncBids();
    EligibleCons(MockMakers, BidB, [], "CNC");
    EligibleCons(MockMakers, BidE, [BidB], "CNC");
    EligibleCons(MockMakers, BidG, [BidE, BidB], "CNC");
    EligibleCons(MockMakers, BidD, [BidG, BidE, BidB], "CNC");
    EligibleCons(MockMakers, BidH, [BidD, BidG, BidE, BidB], "CNC");
    EligibleCons(MockMakers, BidJ, [BidH, BidD, BidG, BidE, BidB], "CNC");
    EligibleCons(MockMakers, BidA, [BidJ, BidH, BidD, BidG, BidE, BidB], "CNC");
    EligibleCons(MockMakers, BidC, [BidA, BidJ, BidH, BidD, BidG, BidE, BidB], "CNC");
  }

  lemma SortByCons(b: Bid, rest: seq<Bid>)
    ensures ByPrice([b] + rest) == Insert(b, ByPrice(rest), Price)
  {
    assert ([b] + rest)[1..] == rest;
  }

  lemma InsertFront(x: Bid, t: seq<Bid>)
    requires t != [] && x.priceCents <= t[0].priceCents
    ensures Insert(x, t, Price) == [x] + t
  {
  }

  lemma InsertLater(x: Bid, t: seq<Bid>)
    requires t != [] && x.priceCents > t[0].priceCents
    ensures Insert(x, t, Price) == [t[0]] + Insert(x, t[1..], Price)
  {
  }

  lemma SortLastThree()
    ensures ByPrice([BidD, BidG, BidE]) == [BidD, BidE, BidG]
  {
    SortByCons(BidE, []);
    SortByCons(BidG, [BidE]);
    InsertLater(BidG, [BidE]);
    SortByCons(BidD, [BidG, BidE]);
    InsertFront(BidD, [BidE, BidG]);
  }

  lemma SortLastFive()
    ensures ByPrice([BidJ, BidH, BidD, BidG, BidE]) == [BidJ, BidH, BidD, BidE, BidG]
  {
    SortLastThree();
    SortByCons(BidH, [BidD, BidG, BidE]);
    InsertFront(BidH, [BidD, BidE, BidG]);
    SortByCons(BidJ, [BidH, BidD, BidG, BidE]);
    InsertFront(BidJ, [BidH, BidD, BidE, BidG]);
  }

  /** Cheapest first: C 2.20, J 2.35, A 2.45, H 2.55, D 2.70, E 3.05, G 3.20. */
  lemma CncByPrice()
    ensures ByPrice([BidC, BidA, BidJ, BidH, BidD, BidG, BidE]) == [BidC, BidJ, BidA, BidH, BidD, BidE, BidG]
  {
    SortLastFive();
    SortByCons(BidA, [BidJ, BidH, BidD, BidG, BidE]);
    InsertLater(BidA, [BidJ, BidH, BidD, BidE, BidG]);
    InsertFront(BidA, [BidH, BidD, BidE, BidG]);
    SortByCons(BidC, [BidA, BidJ, BidH, BidD, BidG, BidE]);
    InsertFront(BidC, [BidJ, BidA, BidH, BidD, BidE, BidG]);
  }

  /** One step of the greedy walk that takes a bid whose maker is registered. */
  lemma AllocateTake(makers: seq<Maker>, b: Bid, rest: seq<Bid>, q: int, m: Maker)
    requires q > 0 && GetMakerById(makers, b.makerId) == Some(m)
    ensures var n := Min(q, b.maxBatchSize);
            var r := Allocate(makers, rest, q - n);
      Allocate(makers, [b] + rest, q) ==
        Walk([Winner(m.id, m.name, m.location.city, n, b.priceCents, n * b.priceCents, m.leadTimeDays)] + r.winners,
             n * b.priceCents + r.totalCost, Max(m.leadTimeDays, r.maxLead), r.remaining)
  {
    assert ([b] + rest)[1..] == rest;
  }

  const WinC := Winner("MAKER_C", "Texas CNC Works", "Houston, TX", 2500, 220, 550000, 12)
  const WinJ := Winner("MAKER_J", "Atlanta Rapid Proto", "Atlanta, GA", 2000, 235, 470000, 11)
  const WinA := Winner("MAKER_A", "Precision CNC Ohio", "Columbus, OH", 500, 245, 122500, 10)

  /** 5000 units: C's 2500, J's 2000 and 500 of A's 1800, for $11,425.00 in 12 days. */
  lemma KnickWalk()
    ensures Allocate(MockMakers, [BidC, BidJ, BidA, BidH, BidD, BidE, BidG], 5000) == Walk([WinC, WinJ, WinA], 1142500, 12, 0)
  {
    BidMakers();
    AllocateTake(MockMakers, BidA, [BidH, BidD, BidE, BidG], 500, MakerA);
    AllocateTake(MockMakers, BidJ, [BidA, BidH, BidD, BidE, BidG], 2500, MakerJ);
    AllocateTake(MockMakers, BidC, [BidJ, BidA, BidH, BidD, BidE, BidG], 5000, MakerC);
  }

  /** optimize_bids on the current job: FULFILLED by three makers. */
  lemma KnickOptimized()
    ensures Optimize(MockMakers, MockBids, CurrentJob.jobId, CurrentJob.requiredQty, CurrentJob.requiredSkill) ==
            Optimized(Report("KNICK_2025", Fulfilled, 1142500, 12, 5000, 5000, 3, [WinC, WinJ, WinA]))
  {
    CncEligible();
    CncByPrice();
    KnickWalk();
  }

  /** The last four makers of the price order, each taking its full batch of the 5700
      still needed after C, J and A, leave 1200 unplaced. */
  lemma ShortfallTail()
    ensures var w := Allocate(MockMakers, [BidH, BidD, BidE, BidG], 5700);
      w.remaining == 1200 && w.totalCost == 1267500 && w.maxLead == 11 && |w.winners| == 4
  {
    BidMakers();
    AllocateTake(MockMakers, BidG, [], 2000, MakerG);
    AllocateTake(MockMakers, BidE, [BidG], 3000, MakerE);
    AllocateTake(MockMakers, BidD, [BidE, BidG], 4200, MakerD);
    AllocateTake(MockMakers, BidH, [BidD, BidE, BidG], 5700, MakerH);
  }

  /** Asked for 12000 units the bids fall 1200 short: all seven CNC makers take
      their full batches, 10800 units for $27,285.00, PARTIALLY_FULFILLED. */
  lemma ShortfallOptimized()
    ensures var r := Optimize(MockMakers, MockBids, "KNICK_2025", 12000, "CNC");
      && r.Optimized?
      && r.report.fulfillmentStatus == PartiallyFulfilled
      && r.report.quantityFulfilled == 10800
      && r.report.totalCostCents == 2728500
      && r.report.totalLeadTimeDays == 12
      && r.report.numManufacturers == 7
  {
    CncEligible();
    CncByPrice();
    BidMakers();
    ShortfallTail();
    AllocateTake(MockMakers, BidA, [BidH, BidD, BidE, BidG], 7500, MakerA);
    AllocateTake(MockMakers, BidJ, [BidA, BidH, BidD, BidE, BidG], 9500, MakerJ);
    AllocateTake(MockMakers, BidC, [BidJ, BidA, BidH, BidD, BidE, BidG], 12000, MakerC);
  }

  /** The optimizer's skill match is exact: "cnc" finds no maker, although
      list_manufacturers matches it ignoring case. */
  lemma LowerCaseSkillRejected()
    ensures Optimize(MockMakers, MockBids, "KNICK_2025", 5000, "cnc") == NoMakersWithSkill("cnc")
  {
    BidMakers();
    NoSkillMatchIsError(MockMakers, MockBids, "KNICK_2025", 5000, "cnc");
    forall k | 0 <= k < |MockBids| ensures !IsEligible(MockMakers, "cnc", MockBids[k]) {
      var m := GetMakerById(MockMakers, MockBids[k].makerId);
      assert m.Some? && (m.value.skill == "CNC" || m.value.skill == "3D") by {
        if k == 0 {} else if k == 1 {} else if k == 2 {} else if k == 3 {}
        else if k == 4 {} else if k == 5 {} else if k == 6 {} else {}
      }
      assert m.value.skill[0] != 'c';
    }
  }
}
