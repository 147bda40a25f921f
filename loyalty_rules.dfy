/**
 * The pure half of the loyalty service: the program configuration and its
 * default, tier derivation from lifetime earned points, the next-tier hint,
 * and the display lookups for tiers and transaction types.
 */
module LoyaltyRules {
  import opened Common

  datatype Tier = Bronze | Silver | Gold | Platinum

  /** Lifetime-earned thresholds of each tier (`LoyaltyProgram['tiers']`). */
  datatype Tiers = Tiers(bronze: int, silver: int, gold: int, platinum: int)

  datatype Program = Program(
    enabled: bool,
    pointsPerVisit: int,
    pointsPerGrooming: int,
    pointsPerPurchasePeso: int,
    redemptionRate: int,
    tiers: Tiers)

  /** `DEFAULT_LOYALTY_PROGRAM`. */
  const DefaultProgram := Program(true, 10, 15, 1, 100, Tiers(0, 200, 500, 1000))

  datatype TxType = EarnedVisit | EarnedPurchase | EarnedGrooming | Redeemed | Adjusted | Expired

  datatype RefType = AppointmentRef | PurchaseRef | RedemptionRef

  /** Thresholds that grow with the tier, as the settings form and the default keep them. */
  predicate Ordered(t: Tiers) {
    t.silver <= t.gold <= t.platinum
  }

  function Rank(t: Tier): nat {
    match t
    case Bronze => 0
    case Silver => 1
    case Gold => 2
    case Platinum => 3
  }

  /** The lifetime-earned threshold at which tier `t` starts (bronze is the floor). */
  function Threshold(t: Tier, tiers: Tiers): int {
    match t
    case Bronze => tiers.bronze
    case Silver => tiers.silver
    case Gold => tiers.gold
    case Platinum => tiers.platinum
  }

  /** `getTierForPoints`: platinum, gold and silver are tested in that order, bounds inclusive. */
  function TierForPoints(totalEarned: int, tiers: Tiers): (t: Tier)
    ensures t != Bronze ==> Threshold(t, tiers) <= totalEarned
    ensures t == Bronze <==> totalEarned < tiers.silver && totalEarned < tiers.gold && totalEarned < tiers.platinum
  {
    if totalEarned >= tiers.platinum then Platinum
    else if totalEarned >= tiers.gold then Gold
    else if totalEarned >= tiers.silver then Silver
    else Bronze
  }

  /**
   * For ordered thresholds the tier is the highest one reached: its own
   * threshold is met (bronze always is) and every higher tier's is not.
   */
  lemma TierIsHighestReached(totalEarned: int, tiers: Tiers)
    requires Ordered(tiers)
    ensures var t := TierForPoints(totalEarned, tiers);
      && (t != Bronze ==> Threshold(t, tiers) <= totalEarned)
      && (forall u: Tier :: Rank(u) > Rank(t) && u != Bronze ==> totalEarned < Threshold(u, tiers))
  {
  }

  /** Whatever the thresholds, a tier above bronze is only reported once its threshold is met. */
  lemma TierThresholdMet(totalEarned: int, tiers: Tiers)
    ensures var t := TierForPoints(totalEarned, tiers);
      t != Bronze ==> Threshold(t, tiers) <= totalEarned
  {
  }

  /** More lifetime points never give a lower tier, for ordered thresholds. */
  lemma TierMonotone(e1: int, e2: int, tiers: Tiers)
    requires Ordered(tiers) && e1 <= e2
    ensures Rank(TierForPoints(e1, tiers)) <= Rank(TierForPoints(e2, tiers))
  {
  }

  /** The inclusive lower bounds of the default table: 199 is bronze, 200 silver, 500 gold, 1000 platinum. */
  lemma DefaultTierBoundaries()
    ensures TierForPoints(0, DefaultProgram.tiers) == Bronze
    ensures TierForPoints(199, DefaultProgram.tiers) == Bronze
    ensures TierForPoints(200, DefaultProgram.tiers) == Silver
    ensures TierForPoints(499, DefaultProgram.tiers) == Silver
    ensures TierForPoints(500, DefaultProgram.tiers) == Gold
    ensures TierForPoints(999, DefaultProgram.tiers) == Gold
    ensures TierForPoints(1000, DefaultProgram.tiers) == Platinum
  {
  }

  /** `getTierLabel`. */
  function TierLabel(t: Tier): (text: string)
    ensures |text| > 0
  {
    match t
    case Bronze => "\U{1F949} Bronce"
    case Silver => "\U{1F948} Plata"
    case Gold => "\U{1F947} Oro"
    case Platinum => "\U{1F48E} Platino"
  }

  function TierName(t: Tier): string {
    match t
    case Bronze => "bronze"
    case Silver => "silver"
    case Gold => "gold"
    case Platinum => "platinum"
  }

  /** `getTierCssClass`: the class names the tier, so the class alone gives the tier back. */
  function TierCssClass(t: Tier): (cls: string)
    ensures |cls| > 5 && cls[..5] == "tier-"
    ensures TierOfCssClass(cls) == Some(t)
  {
    "tier-" + TierName(t)
  }

  /** The tier a stylesheet class stands for, if any. */
  function TierOfCssClass(cls: string): Option<Tier> {
    if cls == "tier-bronze" then Some(Bronze)
    else if cls == "tier-silver" then Some(Silver)
    else if cls == "tier-gold" then Some(Gold)
    else if cls == "tier-platinum" then Some(Platinum)
    else None
  }

  /** Different tiers get different classes. */
  lemma TierCssClassInjective(a: Tier, b: Tier)
    requires a != b
    ensures TierCssClass(a) != TierCssClass(b)
  {
    assert TierOfCssClass(TierCssClass(a)) != TierOfCssClass(TierCssClass(b));
  }

  /** Different tiers get different labels. */
  lemma TierLabelInjective(a: Tier, b: Tier)
    requires a != b
    ensures TierLabel(a) != TierLabel(b)
  {
  }

  /** The answer of `getNextTierInfo`: the next tier's label and the points still missing. */
  datatype NextTier = NextTier(nextTier: string, pointsNeeded: int)

  /** `getNextTierInfo`: silver, gold and platinum are tested in that order against strict bounds. */
  function NextTierInfo(totalEarned: int, tiers: Tiers): (r: Option<NextTier>)
    ensures r.None? <==> (totalEarned >= tiers.silver && totalEarned >= tiers.gold && totalEarned >= tiers.platinum)
    ensures r.Some? ==> r.value.pointsNeeded > 0
  {
    if totalEarned < tiers.silver then Some(NextTier(TierLabel(Silver), tiers.silver - totalEarned))
    else if totalEarned < tiers.gold then Some(NextTier(TierLabel(Gold), tiers.gold - totalEarned))
    else if totalEarned < tiers.platinum then Some(NextTier(TierLabel(Platinum), tiers.platinum - totalEarned))
    else None
  }

  /** The tier right above `t`, if any. */
  function TierAbove(t: Tier): Option<Tier> {
    match t
    case Bronze => Some(Silver)
    case Silver => Some(Gold)
    case Gold => Some(Platinum)
    case Platinum => None
  }

  /**
   * For ordered thresholds the hint agrees with the tier calculator: it names
   * the tier above the current one, with the points between `totalEarned` and
   * that tier's threshold, and is absent exactly at platinum.
   */
  lemma NextTierAgreesWithTier(totalEarned: int, tiers: Tiers)
    requires Ordered(tiers)
    ensures var cur := TierForPoints(totalEarned, tiers);
      match TierAbove(cur)
      case None => NextTierInfo(totalEarned, tiers).None?
      case Some(up) =>
        NextTierInfo(totalEarned, tiers) == Some(NextTier(TierLabel(up), Threshold(up, tiers) - totalEarned))
  {
  }

  /** `getTransactionLabel`. */
  function TransactionLabel(t: TxType): (text: string)
    ensures |text| > 0
  {
    match t
    case EarnedVisit => "Consulta"
    case EarnedPurchase => "Compra"
    case EarnedGrooming => "Peluquería"
    case Redeemed => "Canje"
    case Adjusted => "Ajuste manual"
    case Expired => "Vencimiento"
  }

  /** `getTransactionIcon`. */
  function TransactionIcon(t: TxType): (icon: string)
    ensures |icon| > 0
  {
    match t
    case EarnedVisit => "medical_services"
    case EarnedPurchase => "shopping_bag"
    case EarnedGrooming => "content_cut"
    case Redeemed => "redeem"
    case Adjusted => "tune"
    case Expired => "timer_off"
  }

  /** Every transaction type has its own label and its own icon. */
  lemma TransactionLookupsInjective(a: TxType, b: TxType)
    requires a != b
    ensures TransactionLabel(a) != TransactionLabel(b)
    ensures TransactionIcon(a) != TransactionIcon(b)
  {
  }
}
