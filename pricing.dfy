/**
 * Unit-price resolution on a quantity change and the price-origin badge of a
 * cart row. A manual price beats a member price, which only a non-zero member
 * can get; wholesale tiers are only consulted for the walk-in member 0.
 */
module Pricing {
  import opened Wrappers
  import opened Catalog

  datatype PriceType = Manual | Member | Grosir | Regular

  /** A price together with the rule it came from. */
  datatype Resolution = Resolution(harga: nat, origin: PriceType)

  /** The first entry of the member price list that belongs to the member. */
  function FindMemberPrice(prices: seq<MemberPrice>, member: int): (r: Option<MemberPrice>)
    ensures r.None? <==> forall mp :: mp in prices ==> mp.memberId != member
    ensures r.Some? ==> exists i :: 0 <= i < |prices| && prices[i] == r.value && r.value.memberId == member &&
                                    forall j :: 0 <= j < i ==> prices[j].memberId != member
    decreases |prices|
  {
    if prices == [] then None
    else if prices[0].memberId == member then Some(prices[0])
    else
      var r := FindMemberPrice(prices[1..], member);
      assert forall mp :: mp in prices ==> mp == prices[0] || mp in prices[1..];
      assert r.Some? ==> (exists i :: 0 <= i < |prices| && prices[i] == r.value && r.value.memberId == member &&
                                      forall j :: 0 <= j < i ==> prices[j].memberId != member) by {
        if r.Some? {
          var i :| 0 <= i < |prices[1..]| && prices[1..][i] == r.value && r.value.memberId == member &&
                   forall j :: 0 <= j < i ==> prices[1..][j].memberId != member;
          assert prices[i + 1] == r.value;
          assert forall j :: 0 < j < i + 1 ==> prices[j] == prices[1..][j - 1];
        }
      }
      r
  }

  /** A tier applies from its `min_qty` on. */
  predicate Qualifies(g: GrosirConfig, quantity: int) { quantity >= g.minQty }

  /** Some tier applies at this quantity. */
  predicate AnyTierQualifies(tiers: seq<GrosirConfig>, quantity: int)
  {
    exists g :: g in tiers && Qualifies(g, quantity)
  }

  /**
   * The head of the qualifying tiers sorted (stably) by descending `min_qty`:
   * a qualifying tier whose `min_qty` is the largest among the qualifying
   * ones, the first such in list order.
   */
  function BestTier(tiers: seq<GrosirConfig>, quantity: int): (r: Option<GrosirConfig>)
    ensures r.None? <==> !AnyTierQualifies(tiers, quantity)
    ensures r.Some? ==> r.value in tiers && Qualifies(r.value, quantity)
    ensures r.Some? ==> forall g :: g in tiers && Qualifies(g, quantity) ==> g.minQty <= r.value.minQty
    ensures r.Some? ==> exists i :: 0 <= i < |tiers| && tiers[i] == r.value &&
                                    forall j :: 0 <= j < i && Qualifies(tiers[j], quantity) ==> tiers[j].minQty < r.value.minQty
    decreases |tiers|
  {
    if tiers == [] then None
    else
      var rest := BestTier(tiers[1..], quantity);
      if Qualifies(tiers[0], quantity) && (rest.None? || rest.value.minQty <= tiers[0].minQty) then
        assert forall g :: g in tiers ==> g == tiers[0] || g in tiers[1..];
        Some(tiers[0])
      else
        BestTierKeepsRest(tiers, quantity, rest);
        rest
  }

  /** The step of BestTier where the head is passed over: the tail's choice stays best. */
  lemma BestTierKeepsRest(tiers: seq<GrosirConfig>, quantity: int, rest: Option<GrosirConfig>)
    requires tiers != []
    requires rest.None? <==> !AnyTierQualifies(tiers[1..], quantity)
    requires rest.Some? ==> rest.value in tiers[1..] && Qualifies(rest.value, quantity)
    requires rest.Some? ==> forall g :: g in tiers[1..] && Qualifies(g, quantity) ==> g.minQty <= rest.value.minQty
    requires rest.Some? ==> exists i :: 0 <= i < |tiers[1..]| && tiers[1..][i] == rest.value &&
                                       forall j :: 0 <= j < i && Qualifies(tiers[1..][j], quantity) ==> tiers[1..][j].minQty < rest.value.minQty
    requires !(Qualifies(tiers[0], quantity) && (rest.None? || rest.value.minQty <= tiers[0].minQty))
    ensures rest.None? <==> !AnyTierQualifies(tiers, quantity)
    ensures rest.Some? ==> rest.value in tiers
    ensures rest.Some? ==> forall g :: g in tiers && Qualifies(g, quantity) ==> g.minQty <= rest.value.minQty
    ensures rest.Some? ==> exists i :: 0 <= i < |tiers| && tiers[i] == rest.value &&
                                       forall j :: 0 <= j < i && Qualifies(tiers[j], quantity) ==> tiers[j].minQty < rest.value.minQty
  {
    assert forall g :: g in tiers ==> g == tiers[0] || g in tiers[1..];
    if rest.Some? {
      var i :| 0 <= i < |tiers[1..]| && tiers[1..][i] == rest.value &&
               forall j :: 0 <= j < i && Qualifies(tiers[1..][j], quantity) ==> tiers[1..][j].minQty < rest.value.minQty;
      assert tiers[i + 1] == rest.value;
      assert forall j :: 0 < j < i + 1 ==> tiers[j] == tiers[1..][j - 1];
    }
  }

  /** BestTier's contract pins the tier down: any tier meeting it is the one chosen. */
  lemma BestTierUnique(tiers: seq<GrosirConfig>, quantity: int, i: nat)
    requires i < |tiers| && Qualifies(tiers[i], quantity)
    requires forall g :: g in tiers && Qualifies(g, quantity) ==> g.minQty <= tiers[i].minQty
    requires forall j :: 0 <= j < i && Qualifies(tiers[j], quantity) ==> tiers[j].minQty < tiers[i].minQty
    ensures BestTier(tiers, quantity) == Some(tiers[i])
  {
    var r := BestTier(tiers, quantity);
    assert AnyTierQualifies(tiers, quantity) by { assert tiers[i] in tiers; }
    var k :| 0 <= k < |tiers| && tiers[k] == r.value &&
             forall j :: 0 <= j < k && Qualifies(tiers[j], quantity) ==> tiers[j].minQty < r.value.minQty;
    assert tiers[i] in tiers && tiers[k] in tiers;
  }

  /**
   * The unit price a line gets when its quantity becomes `quantity`, under
   * the selected member: manual override, else (member != 0) the member's
   * price or the current price, else (member 0 with tiers) the best tier or
   * the add-time price, else the current price.
   */
  function ResolvePrice(line: Line, member: int, quantity: int): (r: Resolution)
    ensures r.origin == Manual <==> line.manualHargaSatuan.Some?
    ensures r.origin == Member ==> member != 0
    ensures r.origin == Grosir ==> member == 0
  {
    if line.manualHargaSatuan.Some? then Resolution(line.manualHargaSatuan.value, Manual)
    else if member != 0 then
      match FindMemberPrice(line.memberPrices, member)
      case Some(mp) => Resolution(mp.harga, Member)
      case None => Resolution(line.harga, Regular)
    else if |line.hargaGrosir| > 0 then
      match BestTier(line.hargaGrosir, quantity)
      case Some(g) => Resolution(g.harga, Grosir)
      case None => Resolution(line.originalHarga, Regular)
    else Resolution(line.harga, Regular)
  }

  /** The origin tag of a cart row, first rule that holds. */
  function Classify(line: Line, member: int): (t: PriceType)
    ensures t == Manual <==> line.manualHargaSatuan.Some?
    ensures t == Member ==> member != 0
    ensures t == Grosir ==> member == 0 && |line.hargaGrosir| > 0
  {
    if line.manualHargaSatuan.Some? then Manual
    else if member != 0 && FindMemberPrice(line.memberPrices, member).Some? then Member
    else if member == 0 && AnyTierQualifies(line.hargaGrosir, line.quantity) then Grosir
    else Regular
  }

  /** The badge a row shows for its origin; a regular price shows none. */
  function BadgeText(t: PriceType): (b: Option<string>)
    ensures b.None? <==> t == Regular
  {
    match t
    case Member => Some("Member")
    case Grosir => Some("Grosir")
    case Manual => Some("Manual")
    case Regular => None
  }

  // ---- Precedence ----

  /** A manual price wins whatever the member, tiers or quantity. */
  lemma ManualPriceWins(line: Line, member: int, quantity: int)
    requires line.manualHargaSatuan.Some?
    ensures ResolvePrice(line, member, quantity) == Resolution(line.manualHargaSatuan.value, Manual)
  {
  }

  /**
   * For a non-zero member (and no manual price) the price is that member's
   * entry if there is one, otherwise the current price; wholesale tiers and
   * the quantity play no part.
   */
  lemma MemberPriceRule(line: Line, member: int, quantity: int, tiers: seq<GrosirConfig>, other: int)
    requires line.manualHargaSatuan.None? && member != 0
    ensures var r := ResolvePrice(line, member, quantity);
            (r.origin == Member <==> exists mp :: mp in line.memberPrices && mp.memberId == member) &&
            (r.origin == Member ==> exists mp :: mp in line.memberPrices && mp.memberId == member && mp.harga == r.harga) &&
            (r.origin != Member ==> r == Resolution(line.harga, Regular))
    ensures ResolvePrice(line.(hargaGrosir := tiers), member, other) == ResolvePrice(line, member, quantity)
  {
    var f := FindMemberPrice(line.memberPrices, member);
    if f.Some? {
      assert f.value in line.memberPrices;
    }
  }

  /**
   * For the walk-in member with a non-empty tier list (and no manual price):
   * the price is that of a qualifying tier with the largest `min_qty`, and
   * reverts to the add-time price when no tier qualifies.
   */
  lemma GrosirTierRule(line: Line, quantity: int)
    requires line.manualHargaSatuan.None? && |line.hargaGrosir| > 0
    ensures var r := ResolvePrice(line, 0, quantity);
            (r.origin == Grosir <==> AnyTierQualifies(line.hargaGrosir, quantity)) &&
            (r.origin == Grosir ==> exists g :: g in line.hargaGrosir && Qualifies(g, quantity) && g.harga == r.harga &&
                                     forall h :: h in line.hargaGrosir && Qualifies(h, quantity) ==> h.minQty <= g.minQty) &&
            (r.origin != Grosir ==> r == Resolution(line.originalHarga, Regular))
  {
  }

  /** The walk-in member with no tiers keeps the current price. */
  lemma NoTiersKeepsPrice(line: Line, quantity: int)
    requires line.manualHargaSatuan.None? && line.hargaGrosir == []
    ensures ResolvePrice(line, 0, quantity) == Resolution(line.harga, Regular)
  {
  }

  /**
   * The badge a row shows after a quantity change names the rule that priced
   * it: the classifier and the resolver agree on every input.
   */
  lemma ResolvedOriginIsBadge(line: Line, member: int, quantity: int)
    ensures ResolvePrice(line, member, quantity).origin == Classify(line.(quantity := quantity), member)
  {
  }

  /** Exactly one tag per row, decided in the order manual, member, grosir, regular. */
  lemma ClassifyOrder(line: Line, member: int)
    ensures Classify(line, member) == Manual <==> line.manualHargaSatuan.Some?
    ensures Classify(line, member) == Member <==>
              line.manualHargaSatuan.None? && member != 0 && exists mp :: mp in line.memberPrices && mp.memberId == member
    ensures Classify(line, member) == Grosir <==>
              line.manualHargaSatuan.None? && member == 0 && exists g :: g in line.hargaGrosir && line.quantity >= g.minQty
  {
    var f := FindMemberPrice(line.memberPrices, member);
    if f.Some? {
      assert f.value in line.memberPrices;
    }
  }

  /** A manual price tags the row manual whatever the member, quantity or tiers. */
  lemma ManualTagAlwaysWins(line: Line, member: int, quantity: int, tiers: seq<GrosirConfig>, prices: seq<MemberPrice>)
    requires line.manualHargaSatuan.Some?
    ensures Classify(line.(quantity := quantity, hargaGrosir := tiers, memberPrices := prices), member) == Manual
  {
  }

  /** Worked example: tiers (5 -> 90) and (10 -> 80) over a list price of 100, walk-in buyer. */
  lemma TierActivationExample(line: Line)
    requires line.manualHargaSatuan.None? && line.originalHarga == 100
    requires line.hargaGrosir == [GrosirConfig(5, 90), GrosirConfig(10, 80)]
    ensures ResolvePrice(line, 0, 4) == Resolution(100, Regular)
    ensures ResolvePrice(line, 0, 5) == Resolution(90, Grosir)
    ensures ResolvePrice(line, 0, 12) == Resolution(80, Grosir)
    ensures ResolvePrice(line, 0, 3) == Resolution(100, Regular)
  {
    BestTierUnique(line.hargaGrosir, 5, 0);
    BestTierUnique(line.hargaGrosir, 12, 1);
  }
}
