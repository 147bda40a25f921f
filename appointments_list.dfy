/**
 * The day's appointment board: the loaded appointments grouped by status,
 * the count of still-active ones, the detail panel's selection and the
 * status buttons, which clear the selection after finishing or cancelling
 * the selected appointment.
 */
module AppointmentsList {
  import opened Common
  import opened LoyaltyRules
  import opened Documents
  import opened AppointmentService

  /** The appointments of `list` whose status is in `statuses`, in list order. */
  function WithStatus(list: seq<Appointment>, statuses: set<Status>): (r: seq<Appointment>)
    ensures |r| <= |list|
    ensures forall i :: 0 <= i < |r| ==> r[i].data.status in statuses
  {
    if |list| == 0 then []
    else (if list[0].data.status in statuses then [list[0]] else []) + WithStatus(list[1..], statuses)
  }

  const WaitingGroup := {Waiting}
  const InProgressGroup := {InProgress}
  const ScheduledGroup := {Scheduled}
  const CompletedGroup := {Completed}
  /** The `cancelled` tab lists both cancelled appointments and no-shows. */
  const CancelledGroup := {Cancelled, NoShow}
  const ActiveGroup := {Waiting, InProgress, Scheduled}

  /** A group keeps each member appointment as often as the list holds it, and nothing else. */
  lemma {:induction false} WithStatusCounts(list: seq<Appointment>, statuses: set<Status>, x: Appointment)
    ensures multiset(WithStatus(list, statuses))[x] == if x.data.status in statuses then multiset(list)[x] else 0
  {
    if |list| > 0 {
      WithStatusCounts(list[1..], statuses, x);
      assert list == [list[0]] + list[1..];
    }
  }

  /** Filtering by two disjoint status sets splits the filter by their union. */
  lemma {:induction false} WithStatusSplit(list: seq<Appointment>, s: set<Status>, t: set<Status>)
    requires s !! t
    ensures |WithStatus(list, s)| + |WithStatus(list, t)| == |WithStatus(list, s + t)|
  {
    if |list| > 0 {
      WithStatusSplit(list[1..], s, t);
    }
  }

  /**
   * A group keeps the list's order: filtering a list made of two parts is
   * filtering each part and joining them.
   */
  lemma {:induction false} WithStatusAppend(a: seq<Appointment>, b: seq<Appointment>, statuses: set<Status>)
    ensures WithStatus(a + b, statuses) == WithStatus(a, statuses) + WithStatus(b, statuses)
  {
    if |a| > 0 {
      WithStatusAppend(a[1..], b, statuses);
      assert (a + b)[1..] == a[1..] + b;
    } else {
      assert a + b == b;
    }
  }

  /** Filtering by every status keeps the whole list. */
  lemma {:induction false} WithAllStatuses(list: seq<Appointment>, statuses: set<Status>)
    requires forall i :: 0 <= i < |list| ==> list[i].data.status in statuses
    ensures WithStatus(list, statuses) == list
  {
    if |list| > 0 {
      WithAllStatuses(list[1..], statuses);
      assert list == [list[0]] + list[1..];
    }
  }

  /** An appointment is in a group exactly when it is in the list with one of the group's statuses. */
  lemma WithStatusMember(list: seq<Appointment>, statuses: set<Status>, x: Appointment)
    ensures x in WithStatus(list, statuses) <==> x in list && x.data.status in statuses
  {
    WithStatusCounts(list, statuses, x);
  }

  /**
   * The five tabs partition the list: every status belongs to exactly one
   * tab, and the tab sizes add up to the list's length.
   */
  lemma GroupsPartition(list: seq<Appointment>)
    ensures |WithStatus(list, WaitingGroup)| + |WithStatus(list, InProgressGroup)| + |WithStatus(list, ScheduledGroup)|
          + |WithStatus(list, CompletedGroup)| + |WithStatus(list, CancelledGroup)| == |list|
  {
    WithStatusSplit(list, WaitingGroup, InProgressGroup);
    WithStatusSplit(list, WaitingGroup + InProgressGroup, ScheduledGroup);
    WithStatusSplit(list, ActiveGroup, CompletedGroup);
    WithStatusSplit(list, ActiveGroup + CompletedGroup, CancelledGroup);
    assert WaitingGroup + InProgressGroup + ScheduledGroup == ActiveGroup;
    var all := ActiveGroup + CompletedGroup + CancelledGroup;
    forall i | 0 <= i < |list|
      ensures list[i].data.status in all
    {
      match list[i].data.status
      case Waiting =>
      case InProgress =>
      case Scheduled =>
      case Completed =>
      case Cancelled =>
      case NoShow =>
    }
    WithAllStatuses(list, all);
  }

  /** `selectAppointment`: choosing the open appointment closes the panel, any other opens it. */
  function Toggle(selected: Option<Appointment>, a: Appointment): Option<Appointment> {
    if selected.Some? && selected.value.id == a.id then None else Some(a)
  }

  /**
   * Choosing the same appointment twice closes the panel, unless it was
   * already open, in which case it ends open on it.
   */
  lemma ToggleTwice(selected: Option<Appointment>, a: Appointment)
    ensures Toggle(Toggle(selected, a), a) ==
      if selected.Some? && selected.value.id == a.id then Some(a) else None
  {
  }

  /** The selection after a finishing action on `id`: cleared when it shows `id`. */
  function ClearIfSelected(selected: Option<Appointment>, id: string): (r: Option<Appointment>)
    ensures r.Some? ==> r == selected && r.value.id != id
    ensures selected.Some? && selected.value.id != id ==> r == selected
  {
    if selected.Some? && selected.value.id == id then None else selected
  }

  class Board {
    var appointments: seq<Appointment>
    var selected: Option<Appointment>

    constructor(appointments: seq<Appointment>)
      ensures this.appointments == appointments && selected.None?
    {
      this.appointments := appointments;
      selected := None;
    }

    function WaitingList(): seq<Appointment>
      reads this
    {
      WithStatus(appointments, WaitingGroup)
    }

    function InProgressList(): seq<Appointment>
      reads this
    {
      WithStatus(appointments, InProgressGroup)
    }

    function ScheduledList(): seq<Appointment>
      reads this
    {
      WithStatus(appointments, ScheduledGroup)
    }

    function CompletedList(): seq<Appointment>
      reads this
    {
      WithStatus(appointments, CompletedGroup)
    }

    function CancelledList(): seq<Appointment>
      reads this
    {
      WithStatus(appointments, CancelledGroup)
    }

    /** `activeCount`: the appointments still waiting, in progress or scheduled. */
    function ActiveCount(): (n: nat)
      reads this
      ensures n == |WithStatus(appointments, ActiveGroup)|
      ensures n <= |appointments|
    {
      WithStatusSplit(appointments, WaitingGroup, InProgressGroup);
      WithStatusSplit(appointments, WaitingGroup + InProgressGroup, ScheduledGroup);
      assert WaitingGroup + InProgressGroup + ScheduledGroup == ActiveGroup;
      |WaitingList()| + |InProgressList()| + |ScheduledList()|
    }

    /** `selectAppointment`. */
    method SelectAppointment(a: Appointment)
      modifies this`selected
      ensures selected == Toggle(old(selected), a)
    {
      selected := if selected.Some? && selected.value.id == a.id then None else Some(a);
    }

    /** `closePanel`. */
    method ClosePanel()
      modifies this`selected
      ensures selected.None?
    {
      selected := None;
    }

    /** `markWaiting`: the selection stays. */
    method MarkWaiting(db: Db, a: Appointment, tenantProgram: Option<Program>, faults: set<StoreCall>, now: Now)
      returns (outcome: Outcome)
      modifies db
      ensures Effect(db.State(), outcome) == UpdateStatusSpec(old(db.State()), a.id, Waiting, tenantProgram, faults, now)
    {
      outcome := UpdateStatus(db, a.id, Waiting, tenantProgram, faults, now);
    }

    /** `markInProgress`: the selection stays. */
    method MarkInProgress(db: Db, a: Appointment, tenantProgram: Option<Program>, faults: set<StoreCall>, now: Now)
      returns (outcome: Outcome)
      modifies db
      ensures Effect(db.State(), outcome) == UpdateStatusSpec(old(db.State()), a.id, InProgress, tenantProgram, faults, now)
    {
      outcome := UpdateStatus(db, a.id, InProgress, tenantProgram, faults, now);
    }

    /** `markCompleted`: after the update resolves, the panel closes if it shows this appointment. */
    method MarkCompleted(db: Db, a: Appointment, tenantProgram: Option<Program>, faults: set<StoreCall>, now: Now)
      returns (outcome: Outcome)
      modifies db, this`selected
      ensures Effect(db.State(), outcome) == UpdateStatusSpec(old(db.State()), a.id, Completed, tenantProgram, faults, now)
      ensures selected == if outcome == Done then ClearIfSelected(old(selected), a.id) else old(selected)
    {
      outcome := UpdateStatus(db, a.id, Completed, tenantProgram, faults, now);
      if outcome.Failed? {
        return;
      }
      if selected.Some? && selected.value.id == a.id {
        selected := None;
      }
    }

    /** `markCancelled`: after the update resolves, the panel closes if it shows this appointment. */
    method MarkCancelled(db: Db, a: Appointment, tenantProgram: Option<Program>, faults: set<StoreCall>, now: Now)
      returns (outcome: Outcome)
      modifies db, this`selected
      ensures Effect(db.State(), outcome) == UpdateStatusSpec(old(db.State()), a.id, Cancelled, tenantProgram, faults, now)
      ensures selected == if outcome == Done then ClearIfSelected(old(selected), a.id) else old(selected)
    {
      outcome := UpdateStatus(db, a.id, Cancelled, tenantProgram, faults, now);
      if outcome.Failed? {
        return;
      }
      if selected.Some? && selected.value.id == a.id {
        selected := None;
      }
    }

    /** `markNoShow`: the selection stays. */
    method MarkNoShow(db: Db, a: Appointment, tenantProgram: Option<Program>, faults: set<StoreCall>, now: Now)
      returns (outcome: Outcome)
      modifies db
      ensures Effect(db.State(), outcome) == UpdateStatusSpec(old(db.State()), a.id, NoShow, tenantProgram, faults, now)
    {
      outcome := UpdateStatus(db, a.id, NoShow, tenantProgram, faults, now);
    }
  }
}
