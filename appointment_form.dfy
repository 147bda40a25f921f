/**
 * The appointment form: the client autocomplete, the client label, the
 * choice of a client, the slot grid of the scheduling picker, and the
 * submission that registers a walk-in or creates a scheduled appointment.
 */
module AppointmentForm {
  import opened Common
  import opened Clock
  import opened Documents
  import opened AppointmentService
  import opened Pets

  // ---------------------------------------------------------------------------
  // Text helpers

  /** The characters `String.prototype.trim` removes. */
  predicate IsJsWhitespace(c: char) {
    c == ' ' || c == '\t' || c == '\n' || c == '\r' || c == '\U{B}' || c == '\U{C}'
    || c == '\U{A0}' || c == '\U{1680}' || ('\U{2000}' <= c <= '\U{200A}') || c == '\U{2028}' || c == '\U{2029}'
    || c == '\U{202F}' || c == '\U{205F}' || c == '\U{3000}' || c == '\U{FEFF}'
  }

  /** `!value.trim()`: the text is empty once trimmed. */
  predicate IsBlank(s: string) {
    forall i :: 0 <= i < |s| ==> IsJsWhitespace(s[i])
  }

  function LowerChar(c: char): (d: char)
    ensures 'A' <= c <= 'Z' ==> d as int == c as int + 32
    ensures !('A' <= c <= 'Z') ==> d == c
  {
    if 'A' <= c <= 'Z' then (c as int + 32) as char else c
  }

  /** `toLowerCase` on the ASCII letters. */
  function Lower(s: string): (r: string)
    ensures |r| == |s| && forall i :: 0 <= i < |s| ==> r[i] == LowerChar(s[i])
  {
    if |s| == 0 then [] else [LowerChar(s[0])] + Lower(s[1..])
  }

  /** `hay.includes(needle)`. */
  predicate Contains(hay: string, needle: string) {
    exists i :: 0 <= i <= |hay| && needle <= hay[i..]
  }

  /** Lower-casing twice is lower-casing once. */
  lemma LowerIdempotent(s: string)
    ensures Lower(Lower(s)) == Lower(s)
  {
    assert forall i :: 0 <= i < |s| ==> LowerChar(LowerChar(s[i])) == LowerChar(s[i]);
  }

  /** Lower-casing keeps a text blank or non-blank. */
  lemma LowerKeepsBlank(s: string)
    ensures IsBlank(Lower(s)) <==> IsBlank(s)
  {
    forall i | 0 <= i < |s|
      ensures IsJsWhitespace(Lower(s)[i]) <==> IsJsWhitespace(s[i])
    {
      assert Lower(s)[i] == LowerChar(s[i]);
    }
  }

  // ---------------------------------------------------------------------------
  // Client autocomplete

  /** `displayClient`: the empty text without a client, otherwise "first last". */
  function DisplayClient(c: Option<Client>): (text: string)
    ensures c.None? ==> text == ""
    ensures c.Some? ==> text == c.value.firstName + " " + c.value.lastName
  {
    if c.None? then "" else c.value.firstName + " " + c.value.lastName
  }

  /** A client matches a lower-cased query by its lower-cased full name or by its phone. */
  predicate Matches(c: Client, lower: string) {
    Contains(Lower(c.firstName + " " + c.lastName), lower) || Contains(c.phone, lower)
  }

  /** The clients matching a lower-cased query, in list order. */
  function Matching(all: seq<Client>, lower: string): (r: seq<Client>)
    ensures |r| <= |all|
  {
    if |all| == 0 then []
    else (if Matches(all[0], lower) then [all[0]] else []) + Matching(all[1..], lower)
  }

  /** The first `n` elements, or all when there are fewer (`slice(0, n)`). */
  function Take(s: seq<Client>, n: nat): (r: seq<Client>)
    ensures |r| == if |s| < n then |s| else n
    ensures r == s[..|r|]
  {
    if |s| <= n then s else s[..n]
  }

  const SuggestionLimit := 10

  /**
   * `filterClients`: a blank query suggests the first ten clients; any other
   * query suggests the first ten clients matching it, case-insensitively on
   * the name.
   */
  function FilterClients(all: seq<Client>, value: string): (r: seq<Client>)
    ensures |r| <= SuggestionLimit
    ensures IsBlank(value) ==> r == all[..if |all| < SuggestionLimit then |all| else SuggestionLimit]
    ensures !IsBlank(value) ==> r == Take(Matching(all, Lower(value)), SuggestionLimit)
  {
    if IsBlank(value) then Take(all, SuggestionLimit) else Take(Matching(all, Lower(value)), SuggestionLimit)
  }

  /** Every client the filter keeps matches the query and comes from the list. */
  lemma {:induction false} MatchingSound(all: seq<Client>, lower: string)
    ensures forall c :: c in Matching(all, lower) ==> c in all && Matches(c, lower)
  {
    if |all| > 0 {
      MatchingSound(all[1..], lower);
    }
  }

  /** Every matching client of the list is kept. */
  lemma {:induction false} MatchingComplete(all: seq<Client>, lower: string)
    ensures forall c :: c in all && Matches(c, lower) ==> c in Matching(all, lower)
  {
    if |all| > 0 {
      MatchingComplete(all[1..], lower);
      assert forall c :: c in all ==> c == all[0] || c in all[1..];
    }
  }

  /** The filter distributes over concatenation, so it keeps the list's order. */
  lemma {:induction false} MatchingAppend(a: seq<Client>, b: seq<Client>, lower: string)
    ensures Matching(a + b, lower) == Matching(a, lower) + Matching(b, lower)
  {
    if |a| > 0 {
      MatchingAppend(a[1..], b, lower);
      assert (a + b)[1..] == a[1..] + b;
    } else {
      assert a + b == b;
    }
  }

  /**
   * Every suggestion for a non-blank query matches it and is a known
   * client; when at most ten clients match, every one of them is suggested.
   */
  lemma FilterClientsMeaning(all: seq<Client>, value: string)
    requires !IsBlank(value)
    ensures forall c :: c in FilterClients(all, value) ==> c in all && Matches(c, Lower(value))
    ensures |Matching(all, Lower(value))| <= SuggestionLimit ==>
      forall c :: c in all && Matches(c, Lower(value)) ==> c in FilterClients(all, value)
  {
    var m := Matching(all, Lower(value));
    MatchingSound(all, Lower(value));
    MatchingComplete(all, Lower(value));
    var r := FilterClients(all, value);
    assert forall c :: c in r ==> c in m;
  }

  /** The query's letter case does not matter. */
  lemma FilterIgnoresCase(all: seq<Client>, value: string)
    ensures FilterClients(all, Lower(value)) == FilterClients(all, value)
  {
    LowerIdempotent(value);
    LowerKeepsBlank(value);
  }

  // ---------------------------------------------------------------------------
  // The form

  datatype Kind = WalkIn | ScheduledVisit

  /**
   * The form's values at submission; `appointmentDate` is the picked date
   * already rendered as "YYYY-MM-DD".
   */
  datatype FormValue = FormValue(
    kind: Kind,
    petId: string,
    reason: string,
    notes: string,
    priority: Priority,
    appointmentDate: string,
    scheduledTime: string)

  /** The first pet with the given identifier (`clientPets.find`). */
  function FindPet(pets: seq<Pet>, id: string): (r: Option<Pet>)
    ensures r.Some? ==> r.value in pets && r.value.id == id
    ensures r.None? ==> forall p :: p in pets ==> p.id != id
  {
    if |pets| == 0 then None
    else if pets[0].id == id then Some(pets[0])
    else FindPet(pets[1..], id)
  }

  /** `v.notes || undefined`. */
  function NotesOrNone(notes: string): Option<string> {
    if notes == "" then None else Some(notes)
  }

  /**
   * The data `submit` saves, or `None` when the chosen client or pet is
   * missing (reading its fields throws inside the `try`): a walk-in goes
   * through the walk-in registration, anything else is scheduled for the
   * picked date and time.
   */
  function Submission(v: FormValue, client: Option<Client>, pets: seq<Pet>, veterinaryId: string,
                      userId: string, now: Now): (d: Option<AppointmentData>)
    ensures d.Some? <==> client.Some? && FindPet(pets, v.petId).Some?
    ensures d.Some? ==>
      && d.value.clientId == client.value.id && d.value.petId == v.petId
      && d.value.clientName == DisplayClient(client) && d.value.veterinaryId == veterinaryId
      && d.value.createdBy == userId && d.value.reason == v.reason && d.value.notes == NotesOrNone(v.notes)
      && d.value.priority == v.priority && !d.value.loyaltyAwarded
      && (d.value.isWalkIn <==> v.kind == WalkIn)
      && d.value.status == (if v.kind == WalkIn then Waiting else Scheduled)
      && (v.kind == ScheduledVisit ==> d.value.date == v.appointmentDate && d.value.scheduledTime == Some(v.scheduledTime))
      && (v.kind == WalkIn ==> d.value.date == now.date && d.value.arrivalTime == Some(now.time))
    ensures d.Some? ==>
      && d.value.petName == FindPet(pets, v.petId).value.name
      && d.value.petSpecies == FindPet(pets, v.petId).value.species
      && d.value.startTime.None? && d.value.endTime.None?
      && (v.kind == ScheduledVisit ==> d.value.arrivalTime.None?)
      && (v.kind == WalkIn ==> d.value.scheduledTime.None?)
  {
    var pet := FindPet(pets, v.petId);
    if client.None? || pet.None? then None
    else
      var c, p := client.value, pet.value;
      if v.kind == WalkIn then
        Some(WalkInData(WalkInRequest(v, c, p, veterinaryId, userId), now))
      else
        Some(AppointmentData(veterinaryId, c.id, p.id, DisplayClient(client), p.name, p.species, userId,
                             v.appointmentDate, Some(v.scheduledTime), None, None, None, v.reason,
                             NotesOrNone(v.notes), false, v.priority, Scheduled, false))
  }

  /** The parameters `submit` passes to `registerWalkIn`. */
  function WalkInRequest(v: FormValue, c: Client, p: Pet, veterinaryId: string, userId: string): WalkInParams {
    WalkInParams(veterinaryId, c.id, c.firstName + " " + c.lastName, p.id, p.name, p.species,
                 v.reason, NotesOrNone(v.notes), Some(v.priority), userId)
  }

  /** How a submission ended: ignored, saved (then the page moves to the list), or failed. */
  datatype SubmitResult = NotSubmitted | Saved(appointment: Appointment) | SaveFailed

  const DefaultSlotInterval := 30
  const FormOpen := "08:00"
  const FormClose := "20:00"

  class Form {
    var value: FormValue
    var selectedClient: Option<Client>
    var clientId: string
    var clientPets: seq<Pet>
    var timeSlots: seq<string>
    var saving: bool

    constructor(value: FormValue)
      ensures this.value == value && selectedClient.None? && clientId == ""
      ensures clientPets == [] && timeSlots == [] && !saving
    {
      this.value := value;
      selectedClient := None;
      clientId := "";
      clientPets := [];
      timeSlots := [];
      saving := false;
    }

    /** `onClientSelected`: the client is chosen and the pet choice is cleared. */
    method OnClientSelected(c: Client)
      modifies this`selectedClient, this`clientId, this`value
      ensures selectedClient == Some(c) && clientId == c.id
      ensures value == old(value).(petId := "")
    {
      selectedClient := Some(c);
      clientId := c.id;
      value := value.(petId := "");
    }

    /** `generateSlots`: the eight-to-eight grid at the tenant's interval, 30 minutes by default. */
    method GenerateSlots(slotInterval: Option<int>)
      requires slotInterval.Some? ==> slotInterval.value > 0
      modifies this`timeSlots
      ensures timeSlots == TimeSlots(FormOpen, FormClose, slotInterval.GetOr(DefaultSlotInterval))
    {
      var interval := slotInterval.GetOr(DefaultSlotInterval);
      timeSlots := GenerateTimeSlots(FormOpen, FormClose, interval);
    }

    /**
     * `submit`: nothing happens while the form is invalid or no veterinary
     * is loaded; otherwise the appointment is saved under the identifier the
     * store generates, and `saving` ends false whatever happened.
     */
    method Submit(db: Db, formValid: bool, veterinaryId: Option<string>, userId: string, newId: string,
                  faults: set<StoreCall>, now: Now) returns (r: SubmitResult)
      requires newId !in db.appointments
      modifies db, this`saving
      ensures !formValid || veterinaryId.None? ==>
        r == NotSubmitted && db.State() == old(db.State()) && saving == old(saving)
      ensures formValid && veterinaryId.Some? ==>
        var d := Submission(value, selectedClient, clientPets, veterinaryId.value, userId, now);
        && !saving
        && (d.None? || AddAppointment in faults ==> r == SaveFailed && db.State() == old(db.State()))
        && (d.Some? && AddAppointment !in faults ==>
              && r == Saved(Appointment(newId, d.value, now.stamp, now.stamp))
              && db.State() == old(db.State()).(appointments := old(db.appointments)[newId := r.appointment]))
    {
      if !formValid || veterinaryId.None? {
        return NotSubmitted;
      }
      saving := true;
      var pet := FindPet(clientPets, value.petId);
      if selectedClient.None? || pet.None? {
        saving := false;
        return SaveFailed;
      }
      var c, p := selectedClient.value, pet.value;
      var saved: Result<Appointment>;
      if value.kind == WalkIn {
        saved := RegisterWalkIn(db, WalkInRequest(value, c, p, veterinaryId.value, userId), newId, faults, now);
      } else {
        var data := AppointmentData(veterinaryId.value, c.id, p.id, DisplayClient(selectedClient), p.name, p.species,
                                    userId, value.appointmentDate, Some(value.scheduledTime), None, None, None,
                                    value.reason, NotesOrNone(value.notes), false, value.priority, Scheduled, false);
        saved := Create(db, data, newId, faults, now.stamp);
      }
      r := if saved.Ok? then Saved(saved.value) else SaveFailed;
      saving := false;
    }
  }

  /** With the default interval the grid has 24 slots, from 08:00 to 19:30. */
  lemma DefaultGrid()
    ensures var ts := TimeSlots(FormOpen, FormClose, DefaultSlotInterval);
      |ts| == 24 && ParseClock(ts[0]) == Some(8 * 60) && ParseClock(ts[23]) == Some(19 * 60 + 30)
  {
    assert ParseClock(FormOpen) == Some(480);
    assert ParseClock(FormClose) == Some(1200);
    TimeSlotsMeaning(FormOpen, FormClose, DefaultSlotInterval);
  }
}
