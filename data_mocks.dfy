/** The maker registry, the bids for job KNICK_2025, the job itself, and the
    by-id lookup over the registry. Prices and rates are in cents; coordinates in
    ten-thousandths of a degree. */
module DataMocks {
  import opened Wrappers

  datatype Location = Location(latE4: int, lngE4: int, city: string)

  datatype Maker = Maker(
    id: string,
    name: string,
    skill: string,
    baseRateCents: int,
    maxCapacity: int,
    location: Location,
    leadTimeDays: int)

  datatype Bid = Bid(bidId: string, makerId: string, priceCents: int, maxBatchSize: int)

  datatype Job = Job(
    jobId: string,
    productName: string,
    requiredQty: int,
    requiredSkill: string,
    deadlineDays: int,
    description: string,
    estimatedPriceRange: string)

  /** get_maker_by_id: the first maker in `makers` whose id is `makerId`, or None. */
  function GetMakerById(makers: seq<Maker>, makerId: string): (r: Option<Maker>)
    ensures r.Some? ==> r.value.id == makerId
  {
    if makers == [] then None
    else if makers[0].id == makerId then Some(makers[0])
    else GetMakerById(makers[1..], makerId)
  }

  /** The lookup fails exactly when no maker has the id, and otherwise returns the
      first maker that has it. */
  lemma {:induction false} GetMakerByIdSpec(makers: seq<Maker>, makerId: string)
    ensures GetMakerById(makers, makerId).None? <==> forall k :: 0 <= k < |makers| ==> makers[k].id != makerId
    ensures GetMakerById(makers, makerId).Some? ==>
              exists k :: 0 <= k < |makers| && makers[k] == GetMakerById(makers, makerId).value &&
                          makers[k].id == makerId && forall j :: 0 <= j < k ==> makers[j].id != makerId
  {
    if makers != [] && makers[0].id != makerId {
      GetMakerByIdSpec(makers[1..], makerId);
      assert forall k :: 1 <= k < |makers| ==> makers[k] == makers[1..][k - 1];
      if GetMakerById(makers, makerId).Some? {
        var k :| 0 <= k < |makers[1..]| && makers[1..][k] == GetMakerById(makers, makerId).value &&
                 makers[1..][k].id == makerId && forall j :: 0 <= j < k ==> makers[1..][j].id != makerId;
        assert makers[k + 1] == makers[1..][k];
      }
    }
  }

  /** The maker at position k is found by its id when no earlier maker has that id. */
  lemma {:induction false} GetMakerByIdAt(makers: seq<Maker>, k: nat)
    requires k < |makers|
    requires forall j :: 0 <= j < k ==> makers[j].id != makers[k].id
    ensures GetMakerById(makers, makers[k].id) == Some(makers[k])
  {
    if k > 0 {
      assert makers[1..][k - 1] == makers[k];
      GetMakerByIdAt(makers[1..], k - 1);
    }
  }

  const MakerA := Maker("MAKER_A", "Precision CNC Ohio", "CNC", 250, 2000, Location(399612, -829988, "Columbus, OH"), 10)
  const MakerB := Maker("MAKER_B", "Detroit 3D Prints", "3D", 300, 1500, Location(423314, -830458, "Detroit, MI"), 8)
  const MakerC := Maker("MAKER_C", "Texas CNC Works", "CNC", 225, 3000, Location(297604, -953698, "Houston, TX"), 12)
  const MakerD := Maker("MAKER_D", "Carolina Fabrication", "CNC", 275, 1800, Location(352271, -808431, "Charlotte, NC"), 9)
  const MakerE := Maker("MAKER_E", "Portland Precision", "CNC", 310, 1200, Location(455152, -1226784, "Portland, OR"), 11)
  const MakerF := Maker("MAKER_F", "Phoenix 3D Hub", "3D", 280, 2500, Location(334484, -1120740, "Phoenix, AZ"), 7)
  const MakerG := Maker("MAKER_G", "Boston Manufacturing Co", "CNC", 325, 1000, Location(423601, -710589, "Boston, MA"), 10)
  const MakerH := Maker("MAKER_H", "Denver Micro-Mfg", "CNC", 260, 2200, Location(397392, -1049903, "Denver, CO"), 9)
  const MakerI := Maker("MAKER_I", "Seattle Makers Guild", "3D", 315, 1600, Location(476062, -1223321, "Seattle, WA"), 8)
  const MakerJ := Maker("MAKER_J", "Atlanta Rapid Proto", "CNC", 240, 2800, Location(337490, -843880, "Atlanta, GA"), 11)

  const MockMakers: seq<Maker> := [MakerA, MakerB, MakerC, MakerD, MakerE, MakerF, MakerG, MakerH, MakerI, MakerJ]

  const BidC := Bid("BID_001", "MAKER_C", 220, 2500)
  const BidA := Bid("BID_002", "MAKER_A", 245, 1800)
  const BidJ := Bid("BID_003", "MAKER_J", 235, 2000)
  const BidH := Bid("BID_004", "MAKER_H", 255, 1500)
  const BidD := Bid("BID_005", "MAKER_D", 270, 1200)
  const BidG := Bid("BID_006", "MAKER_G", 320, 800)
  const BidE := Bid("BID_007", "MAKER_E", 305, 1000)
  const BidB := Bid("BID_008", "MAKER_B", 295, 1400)

  const MockBids: seq<Bid> := [BidC, BidA, BidJ, BidH, BidD, BidG, BidE, BidB]

  const CurrentJob: Job := Job(
    "KNICK_2025", "Precision Widget Bracket", 5000, "CNC", 30,
    "High-demand CNC-machined bracket for consumer electronics assembly",
    "$2.20 - $3.20 per unit")

  /** The registry's ids: MAKER_A .. MAKER_J differ in their last letter. */
  lemma MockMakerIdsDistinct()
    ensures forall i, j :: 0 <= i < j < |MockMakers| ==> MockMakers[i].id != MockMakers[j].id
  {
    forall i, j | 0 <= i < j < |MockMakers| ensures MockMakers[i].id != MockMakers[j].id {
      assert MockMakers[i].id[6] != MockMakers[j].id[6];
    }
  }

}
