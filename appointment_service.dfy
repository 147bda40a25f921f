/**
 * The appointment lifecycle: creation and walk-in registration, status
 * changes that stamp the matching clock time, the loyalty award that runs
 * after a completion, cancellation, the pre-scheduling slot grid and the
 * status display lookups.
 *
 * As in the loyalty ledger, each store operation has a pure effect function
 * (`...Spec`) and a method proved to have exactly that effect.
 */
module AppointmentService {
  import opened Common
  import opened Clock
  import opened LoyaltyRules
  import opened Documents
  import opened LoyaltyService

  // ---------------------------------------------------------------------------
  // Creation

  /**
   * `create`: the data, the identifier the store generates, and one
   * timestamp for both dates. A generated identifier is never one already
   * in use, so creation never overwrites an appointment.
   */
  method Create(db: Db, data: AppointmentData, newId: string, faults: set<StoreCall>, now: Timestamp)
    returns (r: Result<Appointment>)
    requires newId !in db.appointments
    modifies db
    ensures AddAppointment in faults ==> r == Err(StoreError(AddAppointment)) && db.State() == old(db.State())
    ensures AddAppointment !in faults ==>
      && r == Ok(Appointment(newId, data, now, now))
      && db.State() == old(db.State()).(appointments := old(db.appointments)[newId := r.value])
    ensures forall k :: k in old(db.appointments) ==> k in db.appointments && db.appointments[k] == old(db.appointments)[k]
  {
    var a := Appointment(newId, data, now, now);
    var ok := db.AddAppointment(newId, a, AddAppointment in faults);
    r := if ok then Ok(a) else Err(StoreError(AddAppointment));
  }

  /** The parameters of `registerWalkIn`. */
  datatype WalkInParams = WalkInParams(
    veterinaryId: string,
    clientId: string,
    clientName: string,
    petId: string,
    petName: string,
    petSpecies: Option<string>,
    reason: string,
    notes: Option<string>,
    priority: Option<Priority>,
    createdBy: string)

  /**
   * The data `registerWalkIn` hands to `create`: today's date, the arrival
   * time now, waiting, a walk-in, normal priority unless one was given, and
   * no scheduled, start or end time.
   */
  function WalkInData(p: WalkInParams, now: Now): (d: AppointmentData)
    ensures d.status == Waiting && d.isWalkIn && !d.loyaltyAwarded
    ensures d.date == now.date && d.arrivalTime == Some(now.time)
    ensures d.scheduledTime.None? && d.startTime.None? && d.endTime.None?
    ensures d.priority == (if p.priority.Some? then p.priority.value else Normal)
    ensures d.veterinaryId == p.veterinaryId && d.clientId == p.clientId && d.petId == p.petId
    ensures d.clientName == p.clientName && d.petName == p.petName && d.petSpecies == p.petSpecies
    ensures d.reason == p.reason && d.notes == p.notes && d.createdBy == p.createdBy
  {
    AppointmentData(p.veterinaryId, p.clientId, p.petId, p.clientName, p.petName, p.petSpecies,
                    p.createdBy, now.date, None, Some(now.time), None, None, p.reason, p.notes,
                    true, p.priority.GetOr(Normal), Waiting, false)
  }

  /** `registerWalkIn`. */
  method RegisterWalkIn(db: Db, p: WalkInParams, newId: string, faults: set<StoreCall>, now: Now)
    returns (r: Result<Appointment>)
    requires newId !in db.appointments
    modifies db
    ensures AddAppointment in faults ==> r == Err(StoreError(AddAppointment)) && db.State() == old(db.State())
    ensures AddAppointment !in faults ==>
      && r == Ok(Appointment(newId, WalkInData(p, now), now.stamp, now.stamp))
      && db.State() == old(db.State()).(appointments := old(db.appointments)[newId := r.value])
  {
    r := Create(db, WalkInData(p, now), newId, faults, now.stamp);
  }

  // ---------------------------------------------------------------------------
  // Status changes

  /**
   * The merge `updateStatus` writes: the new status, the store time, and the
   * clock time in the one field the status records (arrival for waiting,
   * start for in progress, end for completed); nothing else changes.
   */
  function Stamped(a: Appointment, status: Status, now: Now): (a': Appointment)
    ensures a'.id == a.id && a'.createdAt == a.createdAt && a'.updatedAt == now.stamp
    ensures a'.data.status == status
    ensures a'.data.arrivalTime == if status == Waiting then Some(now.time) else a.data.arrivalTime
    ensures a'.data.startTime == if status == InProgress then Some(now.time) else a.data.startTime
    ensures a'.data.endTime == if status == Completed then Some(now.time) else a.data.endTime
    ensures a'.data.(status := a.data.status, arrivalTime := a.data.arrivalTime,
                     startTime := a.data.startTime, endTime := a.data.endTime) == a.data
  {
    var d := a.data.(status := status);
    var d' :=
      if status == Waiting then d.(arrivalTime := Some(now.time))
      else if status == InProgress then d.(startTime := Some(now.time))
      else if status == Completed then d.(endTime := Some(now.time))
      else d;
    a.(data := d', updatedAt := now.stamp)
  }

  /** The merge `{ loyaltyAwarded: true }`. */
  function MarkAwarded(a: Appointment): Appointment {
    a.(data := a.data.(loyaltyAwarded := true))
  }

  predicate Awarded(s: DbState, id: string) {
    id in s.appointments && s.appointments[id].data.loyaltyAwarded
  }

  /** `(clientSnap.data() as any)?.loyaltyPoints ?? 0`. */
  function StoredBalance(s: DbState, clientId: string): int {
    if clientId in s.clients then s.clients[clientId].loyaltyPoints.GetOr(0) else 0
  }

  /** The award the completion hook asks for. */
  function HookAward(s: DbState, appt: Appointment, id: string, program: Program): AwardParams {
    AwardParams(appt.data.veterinaryId, appt.data.clientId, appt.data.clientName,
                StoredBalance(s, appt.data.clientId), id, appt.data.petName, appt.data.createdBy, program)
  }

  /** The visit row an award for appointment `id` appends. */
  predicate IsVisitRowFor(tx: Transaction, id: string) {
    tx.txType == EarnedVisit && tx.referenceType == Some(AppointmentRef) && tx.referenceId == Some(id)
  }

  /**
   * Whether the completion hook gets as far as the award: the appointment
   * reads back, is not yet awarded, the tenant's program (or the default
   * one) is enabled, and the client's balance can be read.
   */
  predicate HookRuns(s: DbState, id: string, tenantProgram: Option<Program>, faults: set<StoreCall>) {
    && ReadAppointment !in faults && id in s.appointments && !s.appointments[id].data.loyaltyAwarded
    && tenantProgram.GetOr(DefaultProgram).enabled && ReadBalance !in faults
  }

  /** The `awardVisitPoints` call the hook makes, as a ledger effect. */
  function HookRecord(s: DbState, id: string, tenantProgram: Option<Program>, faults: set<StoreCall>, now: Now): Effect
    requires id in s.appointments
  {
    var program := tenantProgram.GetOr(DefaultProgram);
    RecordSpec(s, AwardRequest(HookAward(s, s.appointments[id], id, program)), faults, now.stamp)
  }

  /**
   * The effect of the completion hook. Every failure inside it is swallowed,
   * so it only yields a state: an unreadable or missing appointment, one
   * already awarded, a disabled program or an unreadable balance leave the
   * store as it is; otherwise the visit is awarded and, when the award
   * settled and the flag write works, the flag is set. A rejected award or
   * flag write keeps whatever the award had already written.
   */
  function AwardHookSpec(s: DbState, id: string, tenantProgram: Option<Program>, faults: set<StoreCall>, now: Now): (s': DbState)
    ensures !HookRuns(s, id, tenantProgram, faults) ==> s' == s
    ensures HookRuns(s, id, tenantProgram, faults) ==>
      var award := HookRecord(s, id, tenantProgram, faults, now);
      && s'.transactions == award.state.transactions
      && s'.clients == award.state.clients
      && (Awarded(s', id) <==> award.outcome == Done && WriteAwarded !in faults)
    ensures Awarded(s, id) ==> s' == s
    ensures s'.appointments.Keys == s.appointments.Keys
    ensures forall k :: k in s.appointments && k != id ==> s'.appointments[k] == s.appointments[k]
    ensures id in s.appointments ==>
      s'.appointments[id] == s.appointments[id] || s'.appointments[id] == MarkAwarded(s.appointments[id])
    ensures s'.transactions == s.transactions
         || (|s'.transactions| == |s.transactions| + 1 && s'.transactions[..|s.transactions|] == s.transactions
             && IsVisitRowFor(Last(s'.transactions), id))
    ensures Awarded(s', id) && !Awarded(s, id) ==>
      |s'.transactions| == |s.transactions| + 1 && IsVisitRowFor(Last(s'.transactions), id)
  {
    if ReadAppointment in faults || id !in s.appointments then s
    else
      var appt := s.appointments[id];
      var program := tenantProgram.GetOr(DefaultProgram);
      if appt.data.loyaltyAwarded || !program.enabled || ReadBalance in faults then s
      else
        var award := RecordSpec(s, AwardRequest(HookAward(s, appt, id, program)), faults, now.stamp);
        assert award.state.transactions[..|s.transactions|] == s.transactions;
        if award.outcome.Failed? || WriteAwarded in faults then award.state
        else award.state.(appointments := award.state.appointments[id := MarkAwarded(appt)])
  }

  /**
   * The effect of `updateStatus`: a missing appointment or a failed status
   * write rejects with nothing written; otherwise the stamped status is
   * written, a completion runs the award hook, and the call resolves whatever
   * the hook met.
   */
  function UpdateStatusSpec(s: DbState, id: string, status: Status, tenantProgram: Option<Program>,
                            faults: set<StoreCall>, now: Now): (e: Effect)
    ensures e.outcome == Done <==> id in s.appointments && WriteStatus !in faults
    ensures e.outcome.Failed? ==> e.state == s
    ensures e.outcome == Done ==>
      var a := if id in e.state.appointments then e.state.appointments[id] else s.appointments[id];
      a == Stamped(s.appointments[id], status, now) || a == MarkAwarded(Stamped(s.appointments[id], status, now))
    ensures status != Completed ==> e.state.clients == s.clients && e.state.transactions == s.transactions
    ensures e.state.appointments.Keys == s.appointments.Keys
    ensures forall k :: k in s.appointments && k != id ==> e.state.appointments[k] == s.appointments[k]
    ensures e.state.transactions == s.transactions
         || (|e.state.transactions| == |s.transactions| + 1 && e.state.transactions[..|s.transactions|] == s.transactions
             && IsVisitRowFor(Last(e.state.transactions), id))
    ensures status == Completed && e.outcome == Done && HookRuns(s, id, tenantProgram, faults) && AddTransaction !in faults ==>
      && |e.state.transactions| == |s.transactions| + 1
      && Last(e.state.transactions).points == tenantProgram.GetOr(DefaultProgram).pointsPerVisit
      && (ReadClient !in faults && WriteClient !in faults && WriteAwarded !in faults ==> Awarded(e.state, id))
    ensures status == Completed && !HookRuns(s, id, tenantProgram, faults) ==>
      e.state.transactions == s.transactions && e.state.clients == s.clients
  {
    if id !in s.appointments then Effect(s, Failed(NotFound))
    else if WriteStatus in faults then Effect(s, Failed(StoreError(WriteStatus)))
    else
      var s1 := s.(appointments := s.appointments[id := Stamped(s.appointments[id], status, now)]);
      if status == Completed then
        if HookRuns(s1, id, tenantProgram, faults) && AddTransaction !in faults then
          HookAwardsVisit(s1, id, tenantProgram, faults, now);
          Effect(AwardHookSpec(s1, id, tenantProgram, faults, now), Done)
        else Effect(AwardHookSpec(s1, id, tenantProgram, faults, now), Done)
      else Effect(s1, Done)
  }

  /** The completion hook of `updateStatus`. */
  method AwardOnCompletion(db: Db, id: string, tenantProgram: Option<Program>, faults: set<StoreCall>, now: Now)
    modifies db
    ensures db.State() == AwardHookSpec(old(db.State()), id, tenantProgram, faults, now)
  {
    var read := db.GetAppointment(id, ReadAppointment in faults);
    if !read.Found? {
      return;
    }
    var appt := read.doc;
    if appt.data.loyaltyAwarded {
      return;
    }
    var program := tenantProgram.GetOr(DefaultProgram);
    if !program.enabled {
      return;
    }
    var clientRead := db.GetClient(appt.data.clientId, ReadBalance in faults);
    if clientRead.ReadFailed? {
      return;
    }
    var balance := if clientRead.Found? then clientRead.doc.loyaltyPoints.GetOr(0) else 0;
    var award := AwardParams(appt.data.veterinaryId, appt.data.clientId, appt.data.clientName, balance,
                             id, appt.data.petName, appt.data.createdBy, program);
    assert award == HookAward(old(db.State()), appt, id, program);
    var outcome := AwardVisitPoints(db, award, faults, now.stamp);
    if outcome.Failed? {
      return;
    }
    var _ := db.UpdateAppointment(id, MarkAwarded(appt), WriteAwarded, WriteAwarded in faults);
  }

  /** `updateStatus`. */
  method UpdateStatus(db: Db, id: string, status: Status, tenantProgram: Option<Program>,
                      faults: set<StoreCall>, now: Now) returns (outcome: Outcome)
    modifies db
    ensures Effect(db.State(), outcome) == UpdateStatusSpec(old(db.State()), id, status, tenantProgram, faults, now)
  {
    if id !in db.appointments {
      // updateDoc rejects a document that does not exist
      return Failed(NotFound);
    }
    var current := db.appointments[id];
    outcome := db.UpdateAppointment(id, Stamped(current, status, now), WriteStatus, WriteStatus in faults);
    if outcome.Failed? {
      return;
    }
    if status == Completed {
      AwardOnCompletion(db, id, tenantProgram, faults, now);
    }
  }

  /** `cancel`. */
  method Cancel(db: Db, id: string, tenantProgram: Option<Program>, faults: set<StoreCall>, now: Now)
    returns (outcome: Outcome)
    modifies db
    ensures Effect(db.State(), outcome) == UpdateStatusSpec(old(db.State()), id, Cancelled, tenantProgram, faults, now)
  {
    outcome := UpdateStatus(db, id, Cancelled, tenantProgram, faults, now);
  }

  // ---------------------------------------------------------------------------
  // Properties of the status lifecycle

  /**
   * Once an appointment carries the flag, no status change removes it or
   * appends a ledger row or touches a client, whatever fails.
   */
  lemma AwardedIsFinal(s: DbState, id: string, status: Status, tenantProgram: Option<Program>,
                       faults: set<StoreCall>, now: Now)
    requires Awarded(s, id)
    ensures var e := UpdateStatusSpec(s, id, status, tenantProgram, faults, now);
      Awarded(e.state, id) && e.state.transactions == s.transactions && e.state.clients == s.clients
  {
    if WriteStatus !in faults && status == Completed {
      var s1 := s.(appointments := s.appointments[id := Stamped(s.appointments[id], status, now)]);
      assert Awarded(s1, id);
    }
  }

  /**
   * The award is granted at most once: after a completion in which every
   * store call worked, completing the appointment again, with any failures,
   * appends no ledger row and changes no client.
   */
  lemma CompleteTwiceAwardsOnce(s: DbState, id: string, tenantProgram: Option<Program>,
                                faults: set<StoreCall>, now1: Now, now2: Now)
    ensures var e1 := UpdateStatusSpec(s, id, Completed, tenantProgram, {}, now1);
      var e2 := UpdateStatusSpec(e1.state, id, Completed, tenantProgram, faults, now2);
      && e2.state.transactions == e1.state.transactions && e2.state.clients == e1.state.clients
      && |e2.state.transactions| == |s.transactions|
           + (if id in s.appointments && !s.appointments[id].data.loyaltyAwarded
                 && tenantProgram.GetOr(DefaultProgram).enabled then 1 else 0)
  {
    var e1 := UpdateStatusSpec(s, id, Completed, tenantProgram, {}, now1);
    var program := tenantProgram.GetOr(DefaultProgram);
    if id in s.appointments && program.enabled {
      var s1 := s.(appointments := s.appointments[id := Stamped(s.appointments[id], Completed, now1)]);
      if !s1.appointments[id].data.loyaltyAwarded {
        var award := RecordSpec(s1, AwardRequest(HookAward(s1, s1.appointments[id], id, program)), {}, now1.stamp);
        assert award.outcome == Done;
      }
      assert Awarded(e1.state, id);
      AwardedIsFinal(e1.state, id, Completed, tenantProgram, faults, now2);
    }
  }

  /**
   * When the hook gets as far as the award and the row can be added, it
   * appends exactly one visit row: `pointsPerVisit` of the tenant's program
   * (or the default one), on the appointment's client and author, from the
   * stored balance (0 when there is none). When the client calls work, the
   * client is credited; when the flag write works too, the flag is set.
   */
  lemma HookAwardsVisit(s: DbState, id: string, tenantProgram: Option<Program>, faults: set<StoreCall>, now: Now)
    requires HookRuns(s, id, tenantProgram, faults) && AddTransaction !in faults
    ensures var s' := AwardHookSpec(s, id, tenantProgram, faults, now);
      var appt, program := s.appointments[id], tenantProgram.GetOr(DefaultProgram);
      var tx := Last(s'.transactions);
      && |s'.transactions| == |s.transactions| + 1
      && s'.transactions[..|s.transactions|] == s.transactions
      && IsVisitRowFor(tx, id)
      && tx.points == program.pointsPerVisit
      && tx.clientId == appt.data.clientId && tx.createdBy == appt.data.createdBy
      && tx.balanceAfter == NewBalance(StoredBalance(s, appt.data.clientId), program.pointsPerVisit)
      && (ReadClient !in faults && appt.data.clientId in s.clients && WriteClient !in faults ==>
            s'.clients[appt.data.clientId].loyaltyPoints == Some(tx.balanceAfter))
      && (ReadClient !in faults && WriteClient !in faults && WriteAwarded !in faults ==> Awarded(s', id))
  {
    var appt, program := s.appointments[id], tenantProgram.GetOr(DefaultProgram);
    var award := HookAward(s, appt, id, program);
    AwardRow(s, award, faults, now.stamp);
    BalanceAgreesAndIsNonNegative(s, AwardRequest(award), faults, now.stamp);
  }

  /**
   * A completion in which every store call works, of an appointment not yet
   * awarded under an enabled program, appends exactly one visit row of
   * `pointsPerVisit`, credits an existing client and sets the flag.
   */
  lemma CleanCompletionAwards(s: DbState, id: string, tenantProgram: Option<Program>, now: Now)
    requires id in s.appointments && !s.appointments[id].data.loyaltyAwarded
    requires tenantProgram.GetOr(DefaultProgram).enabled
    ensures var e := UpdateStatusSpec(s, id, Completed, tenantProgram, {}, now);
      var clientId, program := s.appointments[id].data.clientId, tenantProgram.GetOr(DefaultProgram);
      var tx := Last(e.state.transactions);
      && e.outcome == Done
      && Awarded(e.state, id)
      && |e.state.transactions| == |s.transactions| + 1
      && IsVisitRowFor(tx, id) && tx.points == program.pointsPerVisit
      && tx.createdBy == s.appointments[id].data.createdBy
      && (clientId in s.clients ==>
            e.state.clients[clientId].loyaltyPoints == Some(NewBalance(StoredBalance(s, clientId), program.pointsPerVisit)))
  {
    var s1 := s.(appointments := s.appointments[id := Stamped(s.appointments[id], Completed, now)]);
    HookAwardsVisit(s1, id, tenantProgram, {}, now);
  }

  /**
   * Under a disabled program a completion only stamps the appointment: no
   * row, no client change, no flag.
   */
  lemma DisabledProgramNoAward(s: DbState, id: string, tenantProgram: Option<Program>,
                               faults: set<StoreCall>, now: Now)
    requires !tenantProgram.GetOr(DefaultProgram).enabled
    ensures var e := UpdateStatusSpec(s, id, Completed, tenantProgram, faults, now);
      && e.state.transactions == s.transactions && e.state.clients == s.clients
      && (e.outcome == Done ==> e.state.appointments == s.appointments[id := Stamped(s.appointments[id], Completed, now)])
  {
  }

  /**
   * The guard is not atomic with the award: when the ledger row is written
   * but the flag write fails, the completion still resolves, and a second
   * completion awards the visit a second time.
   */
  lemma LostFlagAwardsTwice(s: DbState, id: string, tenantProgram: Option<Program>, now1: Now, now2: Now)
    requires id in s.appointments && !s.appointments[id].data.loyaltyAwarded
    requires tenantProgram.GetOr(DefaultProgram).enabled
    ensures var e1 := UpdateStatusSpec(s, id, Completed, tenantProgram, {WriteAwarded}, now1);
      var e2 := UpdateStatusSpec(e1.state, id, Completed, tenantProgram, {}, now2);
      && e1.outcome == Done && e2.outcome == Done
      && |e2.state.transactions| == |s.transactions| + 2
      && IsVisitRowFor(e2.state.transactions[|s.transactions|], id)
      && IsVisitRowFor(e2.state.transactions[|s.transactions| + 1], id)
  {
    var program := tenantProgram.GetOr(DefaultProgram);
    var s1 := s.(appointments := s.appointments[id := Stamped(s.appointments[id], Completed, now1)]);
    var a1 := RecordSpec(s1, AwardRequest(HookAward(s1, s1.appointments[id], id, program)), {WriteAwarded}, now1.stamp);
    AwardRow(s1, HookAward(s1, s1.appointments[id], id, program), {WriteAwarded}, now1.stamp);
    var e1 := UpdateStatusSpec(s, id, Completed, tenantProgram, {WriteAwarded}, now1);
    assert e1.state == a1.state;
    var t1 := e1.state;
    var s2 := t1.(appointments := t1.appointments[id := Stamped(t1.appointments[id], Completed, now2)]);
    var a2 := HookAward(s2, s2.appointments[id], id, program);
    AwardRow(s2, a2, {}, now2.stamp);
  }

  // ---------------------------------------------------------------------------
  // Slot grid

  /** The "HH:mm" texts of a run of minutes. */
  function FormatAll(ms: seq<nat>): (ts: seq<string>)
    ensures |ts| == |ms|
  {
    if |ms| == 0 then [] else [FormatClock(ms[0])] + FormatAll(ms[1..])
  }

  lemma {:induction false} FormatAllAt(ms: seq<nat>, k: nat)
    requires k < |ms|
    ensures FormatAll(ms)[k] == FormatClock(ms[k])
    decreases k
  {
    if k > 0 {
      FormatAllAt(ms[1..], k - 1);
    }
  }

  /**
   * The slots `generateTimeSlots` returns: from the opening time in steps of
   * the interval while before the closing time; none when either time does
   * not parse (a NaN bound fails the loop test at once), and none when the
   * opening time is not before the closing time, whatever the interval.
   */
  function TimeSlots(openTime: string, closeTime: string, intervalMinutes: int): seq<string>
    requires SlotLoopEnds(openTime, closeTime, intervalMinutes)
  {
    var o, c := ParseClock(openTime), ParseClock(closeTime);
    if o.Some? && c.Some? && o.value < c.value then FormatAll(SlotMinutes(o.value, c.value, intervalMinutes)) else []
  }

  /**
   * The loop of `generateTimeSlots` ends: it is entered only when both bounds
   * parse and the opening time is before the closing time, and then only a
   * positive interval moves it forward.
   */
  predicate SlotLoopEnds(openTime: string, closeTime: string, intervalMinutes: int)
  {
    var o, c := ParseClock(openTime), ParseClock(closeTime);
    o.Some? && c.Some? && o.value < c.value ==> intervalMinutes > 0
  }

  /** `generateTimeSlots`. */
  method GenerateTimeSlots(openTime: string, closeTime: string, intervalMinutes: int) returns (slots: seq<string>)
    requires SlotLoopEnds(openTime, closeTime, intervalMinutes)
    ensures slots == TimeSlots(openTime, closeTime, intervalMinutes)
  {
    slots := [];
    var o, c := ParseClock(openTime), ParseClock(closeTime);
    if o.None? || c.None? || o.value >= c.value {
      // the loop test fails at once
      return;
    }
    var minutes: nat := o.value;
    var closeMinutes := c.value;
    while minutes < closeMinutes
      invariant slots + FormatAll(SlotMinutes(minutes, closeMinutes, intervalMinutes))
             == FormatAll(SlotMinutes(o.value, closeMinutes, intervalMinutes))
      decreases closeMinutes - minutes
    {
      ghost var rest := SlotMinutes(minutes + intervalMinutes, closeMinutes, intervalMinutes);
      assert SlotMinutes(minutes, closeMinutes, intervalMinutes) == [minutes] + rest;
      assert ([minutes] + rest)[1..] == rest;
      var h := Pad2(minutes / 60);
      var m := Pad2(minutes % 60);
      slots := slots + [h + ":" + m];
      minutes := minutes + intervalMinutes;
    }
  }

  /**
   * For parsable bounds with the closing time below 100 hours, slot `k` is a
   * canonical clock text that reads back as the opening minute plus `k`
   * intervals, and there are as many slots as intervals needed to cover the
   * span.
   */
  lemma TimeSlotsMeaning(openTime: string, closeTime: string, intervalMinutes: int)
    requires SlotLoopEnds(openTime, closeTime, intervalMinutes)
    requires IsClockText(openTime) && IsClockText(closeTime) && ParseClock(closeTime).value <= 100 * 60
    ensures var ts := TimeSlots(openTime, closeTime, intervalMinutes);
      var o, c := ParseClock(openTime).value, ParseClock(closeTime).value;
      && |ts| == (if o >= c then 0 else (c - o + intervalMinutes - 1) / intervalMinutes)
      && (forall k :: 0 <= k < |ts| ==> IsCanonicalClock(ts[k]) && ParseClock(ts[k]) == Some(o + k * intervalMinutes))
  {
    var o, c := ParseClock(openTime).value, ParseClock(closeTime).value;
    if o >= c {
      return;
    }
    SlotCount(o, c, intervalMinutes);
    forall k | 0 <= k < |TimeSlots(openTime, closeTime, intervalMinutes)|
      ensures var ts := TimeSlots(openTime, closeTime, intervalMinutes);
        IsCanonicalClock(ts[k]) && ParseClock(ts[k]) == Some(o + k * intervalMinutes)
    {
      SlotText(o, c, intervalMinutes, k);
    }
  }

  /** Slot `k` of the run from `o` to `c` renders and reads back as `o + k * interval`. */
  lemma SlotText(o: nat, c: nat, intervalMinutes: nat, k: nat)
    requires intervalMinutes > 0 && c <= 100 * 60 && k < |SlotMinutes(o, c, intervalMinutes)|
    ensures var t := FormatAll(SlotMinutes(o, c, intervalMinutes))[k];
      IsCanonicalClock(t) && ParseClock(t) == Some(o + k * intervalMinutes)
  {
    var ms := SlotMinutes(o, c, intervalMinutes);
    SlotMinutesShape(o, c, intervalMinutes);
    SlotAt(o, c, intervalMinutes, k);
    FormatAllAt(ms, k);
    ParseFormat(ms[k]);
  }

  /** The slots strictly increase in string order, so the grid is sorted as the form lists it. */
  lemma TimeSlotsSorted(openTime: string, closeTime: string, intervalMinutes: int, i: nat, j: nat)
    requires SlotLoopEnds(openTime, closeTime, intervalMinutes)
    requires IsClockText(openTime) && IsClockText(closeTime) && ParseClock(closeTime).value <= 100 * 60
    requires i < j < |TimeSlots(openTime, closeTime, intervalMinutes)|
    ensures var ts := TimeSlots(openTime, closeTime, intervalMinutes);
      LexLess(ts[i], ts[j])
  {
    var o, c := ParseClock(openTime).value, ParseClock(closeTime).value;
    var ms := SlotMinutes(o, c, intervalMinutes);
    var ts := TimeSlots(openTime, closeTime, intervalMinutes);
    SlotMinutesShape(o, c, intervalMinutes);
    FormatAllAt(ms, i);
    FormatAllAt(ms, j);
    ParseFormat(ms[i]);
    ParseFormat(ms[j]);
    CanonicalOrder(ts[i], ts[j]);
  }

  /** Half-hour slots between nine and ten are nine and half past nine. */
  lemma HalfHourSlots()
    ensures TimeSlots("09:00", "10:00", 30) == ["09:00", "09:30"]
  {
    assert ParseClock("09:00") == Some(540);
    assert ParseClock("10:00") == Some(600);
    assert SlotMinutes(600, 600, 30) == [];
    assert SlotMinutes(570, 600, 30) == [570];
    assert SlotMinutes(540, 600, 30) == [540, 570];
    Pad2Digits(9);
    Pad2Digits(0);
    Pad2Digits(30);
    assert FormatClock(540) == "09:00";
    assert FormatClock(570) == "09:30";
    assert FormatAll([570]) == ["09:30"];
    assert [540, 570][1..] == [570];
    assert FormatAll([540, 570]) == ["09:00", "09:30"];
  }

  /** A bound that does not parse gives no slots. */
  lemma UnparsableBoundGivesNoSlots(openTime: string, closeTime: string, intervalMinutes: int)
    requires !IsClockText(openTime) || !IsClockText(closeTime)
    ensures SlotLoopEnds(openTime, closeTime, intervalMinutes)
    ensures TimeSlots(openTime, closeTime, intervalMinutes) == []
  {
  }

  /**
   * An opening time at or after the closing time gives no slots, for any
   * interval, even zero or a negative one: the loop is never entered.
   */
  lemma ClosedSpanGivesNoSlots(openTime: string, closeTime: string, intervalMinutes: int)
    requires IsClockText(openTime) && IsClockText(closeTime)
    requires ParseClock(closeTime).value <= ParseClock(openTime).value
    ensures SlotLoopEnds(openTime, closeTime, intervalMinutes)
    ensures TimeSlots(openTime, closeTime, intervalMinutes) == []
  {
  }

  // ---------------------------------------------------------------------------
  // Display lookups

  /** `getStatusLabel`. */
  function StatusLabel(s: Status): (text: string)
    ensures |text| > 0
  {
    match s
    case Scheduled => "Agendado"
    case Waiting => "Esperando"
    case InProgress => "En atención"
    case Completed => "Atendido"
    case Cancelled => "Cancelado"
    case NoShow => "No se presentó"
  }

  /** `getStatusColor`. */
  function StatusColor(s: Status): (cls: string)
    ensures |cls| > 0
  {
    match s
    case Scheduled => "scheduled"
    case Waiting => "waiting"
    case InProgress => "in-progress"
    case Completed => "completed"
    case Cancelled => "cancelled"
    case NoShow => "no-show"
  }

  /** Every status has its own label and its own colour class. */
  lemma StatusLookupsInjective(a: Status, b: Status)
    requires a != b
    ensures StatusLabel(a) != StatusLabel(b)
    ensures StatusColor(a) != StatusColor(b)
  {
  }
}
