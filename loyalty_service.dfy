/**
 * The loyalty ledger: `recordPoints` appends a ledger row, then reads the
 * client and rewrites its balance, lifetime totals, tier and first-enrolment
 * date; `awardVisitPoints`, `redeemPoints` and `adjustPoints` fix the sign,
 * type and reference of each event.
 *
 * Each operation is a pure function on the store's value (`...Spec`) and a
 * method on the store proved to have exactly that effect.
 */
module LoyaltyService {
  import opened Common
  import opened LoyaltyRules
  import opened Documents

  /** The parameters of `recordPoints`. */
  datatype PointsRequest = PointsRequest(
    veterinaryId: string,
    clientId: string,
    currentBalance: int,
    points: int,
    txType: TxType,
    description: string,
    createdBy: string,
    referenceType: Option<RefType>,
    referenceId: Option<string>,
    loyaltyProgram: Option<Program>)

  /** The balance after a delta: the sum, clamped at zero. */
  function NewBalance(currentBalance: int, points: int): (b: int)
    ensures b >= 0 && b >= currentBalance + points
    ensures b == 0 || b == currentBalance + points
  {
    Max(0, currentBalance + points)
  }

  /** Lifetime earned points as the code reads them (`totalEarned ?? 0`). */
  function TotalEarned(c: Client): int {
    if c.loyalty.Some? then c.loyalty.value.totalEarned.GetOr(0) else 0
  }

  /** Lifetime redeemed points as the code reads them (`totalRedeemed ?? 0`). */
  function TotalRedeemed(c: Client): int {
    if c.loyalty.Some? then c.loyalty.value.totalRedeemed.GetOr(0) else 0
  }

  function EnrolledAt(c: Client): Option<Timestamp> {
    if c.loyalty.Some? then c.loyalty.value.enrolledAt else None
  }

  function StoredTier(c: Client): Option<Tier> {
    if c.loyalty.Some? then c.loyalty.value.tier else None
  }

  /** The thresholds the tier is computed with: the request's program, else the default table. */
  function TiersFor(p: PointsRequest): Tiers {
    p.loyaltyProgram.GetOr(DefaultProgram).tiers
  }

  /** The ledger row `recordPoints` appends. */
  function TransactionFor(p: PointsRequest, now: Timestamp): Transaction {
    Transaction(p.veterinaryId, p.clientId, p.txType, p.points, NewBalance(p.currentBalance, p.points),
                p.referenceType, p.referenceId, p.description, p.createdBy, now)
  }

  /** The client after the `loyaltyUpdate` write of `recordPoints`. */
  function UpdatedClient(c: Client, p: PointsRequest, now: Timestamp): (c': Client)
    ensures c'.loyaltyPoints == Some(NewBalance(p.currentBalance, p.points))
    ensures TotalEarned(c') == TotalEarned(c) + (if p.points > 0 then p.points else 0)
    ensures TotalRedeemed(c') == TotalRedeemed(c) + (if p.points < 0 then -p.points else 0)
    ensures StoredTier(c') == Some(TierForPoints(TotalEarned(c'), TiersFor(p)))
    ensures EnrolledAt(c').Some?
    ensures EnrolledAt(c).Some? ==> EnrolledAt(c') == EnrolledAt(c)
    ensures EnrolledAt(c).None? ==> EnrolledAt(c') == Some(now)
    ensures c'.id == c.id && c'.firstName == c.firstName && c'.lastName == c.lastName && c'.phone == c.phone
    ensures c'.updatedAt == now
  {
    var prevEarned := TotalEarned(c);
    var prevRedeemed := TotalRedeemed(c);
    var newEarned := if p.points > 0 then prevEarned + p.points else prevEarned;
    var newRedeemed := if p.points < 0 then prevRedeemed + (-p.points) else prevRedeemed;
    var tier := TierForPoints(newEarned, TiersFor(p));
    var enrolled := if EnrolledAt(c).Some? then EnrolledAt(c) else Some(now);
    c.(loyaltyPoints := Some(NewBalance(p.currentBalance, p.points)),
       loyalty := Some(LoyaltyInfo(Some(newEarned), Some(newRedeemed), Some(tier), enrolled)),
       updatedAt := now)
  }

  /** Lifetime totals only grow, and a delta moves exactly one of them (none for zero). */
  lemma TotalsMoveOneWay(c: Client, p: PointsRequest, now: Timestamp)
    ensures var c' := UpdatedClient(c, p, now);
      && TotalEarned(c') >= TotalEarned(c) && TotalRedeemed(c') >= TotalRedeemed(c)
      && (TotalEarned(c') > TotalEarned(c) <==> p.points > 0)
      && (TotalRedeemed(c') > TotalRedeemed(c) <==> p.points < 0)
      && TotalEarned(c') - TotalEarned(c) + TotalRedeemed(c) - TotalRedeemed(c') == p.points
  {
  }

  /**
   * The effect of `recordPoints`: the row goes in first and is never rolled
   * back; a missing client leaves the row, changes no client and raises no
   * error; only the named client is rewritten, and only when every call works.
   */
  function RecordSpec(s: DbState, p: PointsRequest, faults: set<StoreCall>, now: Timestamp): (e: Effect)
    ensures e.state.appointments == s.appointments
    ensures AddTransaction in faults ==> e == Effect(s, Failed(StoreError(AddTransaction)))
    ensures AddTransaction !in faults ==> e.state.transactions == s.transactions + [TransactionFor(p, now)]
    ensures e.state.clients == s.clients
         || (p.clientId in s.clients && e.state.clients == s.clients[p.clientId := UpdatedClient(s.clients[p.clientId], p, now)])
    ensures e.outcome == Done <==>
      AddTransaction !in faults && ReadClient !in faults && (p.clientId in s.clients ==> WriteClient !in faults)
    ensures e.outcome == Done && p.clientId in s.clients ==>
      e.state.clients[p.clientId] == UpdatedClient(s.clients[p.clientId], p, now)
    ensures p.clientId !in s.clients ==> e.state.clients == s.clients
  {
    if AddTransaction in faults then Effect(s, Failed(StoreError(AddTransaction)))
    else
      var s1 := s.(transactions := s.transactions + [TransactionFor(p, now)]);
      if ReadClient in faults then Effect(s1, Failed(StoreError(ReadClient)))
      else if p.clientId !in s.clients then Effect(s1, Done)
      else if WriteClient in faults then Effect(s1, Failed(StoreError(WriteClient)))
      else Effect(s1.(clients := s.clients[p.clientId := UpdatedClient(s.clients[p.clientId], p, now)]), Done)
  }

  /** `recordPoints`. */
  method RecordPoints(db: Db, p: PointsRequest, faults: set<StoreCall>, now: Timestamp) returns (outcome: Outcome)
    modifies db
    ensures Effect(db.State(), outcome) == RecordSpec(old(db.State()), p, faults, now)
  {
    var ok := db.AddTransaction(TransactionFor(p, now), AddTransaction in faults);
    if !ok {
      return Failed(StoreError(AddTransaction));
    }
    var read := db.GetClient(p.clientId, ReadClient in faults);
    match read {
      case ReadFailed =>
        outcome := Failed(StoreError(ReadClient));
      case Missing =>
        outcome := Done;
      case Found(current) =>
        ok := db.UpdateClient(p.clientId, UpdatedClient(current, p, now), WriteClient in faults);
        outcome := if ok then Done else Failed(StoreError(WriteClient));
    }
  }

  /** The balance written to the row and to the client is the same clamped sum, never negative. */
  lemma BalanceAgreesAndIsNonNegative(s: DbState, p: PointsRequest, faults: set<StoreCall>, now: Timestamp)
    requires AddTransaction !in faults
    ensures var e := RecordSpec(s, p, faults, now);
      && Last(e.state.transactions).balanceAfter == NewBalance(p.currentBalance, p.points) >= 0
      && (e.outcome == Done && p.clientId in s.clients ==>
            e.state.clients[p.clientId].loyaltyPoints == Some(Last(e.state.transactions).balanceAfter))
  {
  }

  function Last<T>(s: seq<T>): T
    requires |s| > 0
  {
    s[|s| - 1]
  }

  // ---------------------------------------------------------------------------
  // Wrappers

  /** The parameters of `awardVisitPoints`. */
  datatype AwardParams = AwardParams(
    veterinaryId: string,
    clientId: string,
    clientName: string,
    currentBalance: int,
    appointmentId: string,
    petName: string,
    createdBy: string,
    program: Program)

  /** What `awardVisitPoints` passes on to `recordPoints`. */
  function AwardRequest(a: AwardParams): PointsRequest {
    PointsRequest(a.veterinaryId, a.clientId, a.currentBalance, a.program.pointsPerVisit, EarnedVisit,
                  "Consulta de " + a.petName, a.createdBy, Some(AppointmentRef), Some(a.appointmentId), Some(a.program))
  }

  /** `awardVisitPoints`. */
  method AwardVisitPoints(db: Db, a: AwardParams, faults: set<StoreCall>, now: Timestamp) returns (outcome: Outcome)
    modifies db
    ensures Effect(db.State(), outcome) == RecordSpec(old(db.State()), AwardRequest(a), faults, now)
  {
    outcome := RecordPoints(db, AwardRequest(a), faults, now);
  }

  /**
   * A visit award credits `pointsPerVisit` as an `earned_visit` row that
   * refers to the appointment, described after the pet, and computes the tier
   * with the program it was given.
   */
  lemma AwardRow(s: DbState, a: AwardParams, faults: set<StoreCall>, now: Timestamp)
    requires AddTransaction !in faults
    ensures var tx := Last(RecordSpec(s, AwardRequest(a), faults, now).state.transactions);
      && tx.txType == EarnedVisit && tx.points == a.program.pointsPerVisit
      && tx.referenceType == Some(AppointmentRef) && tx.referenceId == Some(a.appointmentId)
      && tx.description == "Consulta de " + a.petName && tx.createdBy == a.createdBy
    ensures TiersFor(AwardRequest(a)) == a.program.tiers
  {
  }

  /** The parameters of `redeemPoints`; `program` is accepted but not passed on. */
  datatype RedeemParams = RedeemParams(
    veterinaryId: string,
    clientId: string,
    currentBalance: int,
    points: int,
    description: string,
    createdBy: string,
    program: Program)

  /** What `redeemPoints` passes on: the negated amount, and no `loyaltyProgram`. */
  function RedeemRequest(r: RedeemParams): PointsRequest {
    PointsRequest(r.veterinaryId, r.clientId, r.currentBalance, -r.points, Redeemed,
                  r.description, r.createdBy, Some(RedemptionRef), None, None)
  }

  /** The effect of `redeemPoints`: refused before any write when the balance is short. */
  function RedeemSpec(s: DbState, r: RedeemParams, faults: set<StoreCall>, now: Timestamp): (e: Effect)
    ensures r.currentBalance < r.points ==> e == Effect(s, Failed(InsufficientBalance))
    ensures r.currentBalance >= r.points ==> e == RecordSpec(s, RedeemRequest(r), faults, now)
  {
    if r.currentBalance < r.points then Effect(s, Failed(InsufficientBalance))
    else RecordSpec(s, RedeemRequest(r), faults, now)
  }

  /** `redeemPoints`. */
  method RedeemPoints(db: Db, r: RedeemParams, faults: set<StoreCall>, now: Timestamp) returns (outcome: Outcome)
    modifies db
    ensures Effect(db.State(), outcome) == RedeemSpec(old(db.State()), r, faults, now)
  {
    if r.currentBalance < r.points {
      return Failed(InsufficientBalance);
    }
    outcome := RecordPoints(db, RedeemRequest(r), faults, now);
  }

  /**
   * An accepted redemption of a non-negative amount debits it: the row is a
   * `redeemed` row of `-points` with a `redemption` reference, the balance
   * drops by exactly `points` (so redeeming the whole balance leaves 0),
   * lifetime earned is untouched, lifetime redeemed grows by `points`, and the
   * tier comes from the default thresholds whatever program was passed.
   */
  lemma RedeemDebits(s: DbState, r: RedeemParams, now: Timestamp)
    requires 0 <= r.points <= r.currentBalance
    requires r.clientId in s.clients
    ensures var e := RedeemSpec(s, r, {}, now);
      var c, c' := s.clients[r.clientId], e.state.clients[r.clientId];
      && e.outcome == Done
      && Last(e.state.transactions).txType == Redeemed
      && Last(e.state.transactions).points == -r.points
      && Last(e.state.transactions).referenceType == Some(RedemptionRef)
      && c'.loyaltyPoints == Some(r.currentBalance - r.points)
      && TotalEarned(c') == TotalEarned(c)
      && TotalRedeemed(c') == TotalRedeemed(c) + r.points
      && StoredTier(c') == Some(TierForPoints(TotalEarned(c), DefaultProgram.tiers))
  {
  }

  /** Redeeming exactly the balance is allowed and leaves zero. */
  lemma RedeemWholeBalance(s: DbState, r: RedeemParams, now: Timestamp)
    requires r.points == r.currentBalance
    ensures RedeemSpec(s, r, {}, now).outcome == Done
    ensures Last(RedeemSpec(s, r, {}, now).state.transactions).balanceAfter == 0
  {
  }

  /** The parameters of `adjustPoints`. */
  datatype AdjustParams = AdjustParams(
    veterinaryId: string,
    clientId: string,
    currentBalance: int,
    points: int,
    description: string,
    createdBy: string)

  /** What `adjustPoints` passes on: an `adjusted` row with no reference and no program. */
  function AdjustRequest(a: AdjustParams): PointsRequest {
    PointsRequest(a.veterinaryId, a.clientId, a.currentBalance, a.points, Adjusted,
                  a.description, a.createdBy, None, None, None)
  }

  /** `adjustPoints`: no balance check. */
  method AdjustPoints(db: Db, a: AdjustParams, faults: set<StoreCall>, now: Timestamp) returns (outcome: Outcome)
    modifies db
    ensures Effect(db.State(), outcome) == RecordSpec(old(db.State()), AdjustRequest(a), faults, now)
  {
    outcome := RecordPoints(db, AdjustRequest(a), faults, now);
  }

  /** An adjustment is never refused for the balance, and any debit is clamped at zero. */
  lemma AdjustNeverRefused(s: DbState, a: AdjustParams, now: Timestamp)
    ensures var e := RecordSpec(s, AdjustRequest(a), {}, now);
      && e.outcome == Done
      && Last(e.state.transactions).txType == Adjusted
      && Last(e.state.transactions).referenceType.None?
      && Last(e.state.transactions).balanceAfter == Max(0, a.currentBalance + a.points)
  {
  }

  /**
   * Because of the clamp, the balance need not equal lifetime earned minus
   * lifetime redeemed: a debit of 5 on an empty balance followed by a credit
   * of 10 leaves a balance of 10 with 10 earned and 5 redeemed.
   */
  lemma ClampBreaksBalanceIdentity(c: Client, now: Timestamp)
    requires c.loyalty.None?
    ensures var p1 := PointsRequest("v", c.id, 0, -5, Adjusted, "", "u", None, None, None);
      var c1 := UpdatedClient(c, p1, now);
      var p2 := PointsRequest("v", c.id, 0, 10, Adjusted, "", "u", None, None, None);
      var c2 := UpdatedClient(c1, p2, now);
      && c2.loyaltyPoints == Some(10)
      && TotalEarned(c2) == 10 && TotalRedeemed(c2) == 5
      && c2.loyaltyPoints != Some(Max(0, TotalEarned(c2) - TotalRedeemed(c2)))
  {
  }

  /**
   * Scenario: a first award of 10 on a fresh client gives balance 10,
   * lifetime earned 10, bronze, and an enrolment date.
   */
  lemma FirstAwardEnrols(s: DbState, a: AwardParams, now: Timestamp)
    requires a.clientId in s.clients && s.clients[a.clientId].loyalty.None?
    requires a.currentBalance == 0 && a.program == DefaultProgram
    ensures var c' := RecordSpec(s, AwardRequest(a), {}, now).state.clients[a.clientId];
      && c'.loyaltyPoints == Some(10) && TotalEarned(c') == 10
      && StoredTier(c') == Some(Bronze) && EnrolledAt(c') == Some(now)
  {
  }
}
