/**
 * The documents the core reads and writes, and the tenant's document store
 * held in memory: a client collection, an appointment collection and the
 * append-only loyalty transaction collection.
 *
 * Every store call can fail. Which calls fail in one run is given by the
 * caller as a set of `StoreCall`s, so the partial-failure paths of the
 * multi-document sequences can be stated and proved.
 */
module Documents {
  import opened Common
  import opened LoyaltyRules

  type Timestamp = int

  /** What `Timestamp.now()`, `toDateString(new Date())` and `toTimeString(new Date())` give during one call. */
  datatype Now = Now(stamp: Timestamp, date: string, time: string)

  /** The `loyalty` sub-document of a client; each field may be absent (read with `?? 0`). */
  datatype LoyaltyInfo = LoyaltyInfo(
    totalEarned: Option<int>,
    totalRedeemed: Option<int>,
    tier: Option<Tier>,
    enrolledAt: Option<Timestamp>)

  /** A client document; an absent phone is the empty text. */
  datatype Client = Client(
    id: string,
    firstName: string,
    lastName: string,
    phone: string,
    loyaltyPoints: Option<int>,
    loyalty: Option<LoyaltyInfo>,
    updatedAt: Timestamp)

  /** An immutable row of the loyalty ledger. */
  datatype Transaction = Transaction(
    veterinaryId: string,
    clientId: string,
    txType: TxType,
    points: int,
    balanceAfter: int,
    referenceType: Option<RefType>,
    referenceId: Option<string>,
    description: string,
    createdBy: string,
    createdAt: Timestamp)

  datatype Status = Scheduled | Waiting | InProgress | Completed | Cancelled | NoShow

  datatype Priority = Normal | Urgent

  /**
   * The fields of an appointment the caller supplies (`CreateAppointmentDto`);
   * `loyaltyAwarded` false also stands for the absent flag.
   */
  datatype AppointmentData = AppointmentData(
    veterinaryId: string,
    clientId: string,
    petId: string,
    clientName: string,
    petName: string,
    petSpecies: Option<string>,
    createdBy: string,
    date: string,
    scheduledTime: Option<string>,
    arrivalTime: Option<string>,
    startTime: Option<string>,
    endTime: Option<string>,
    reason: string,
    notes: Option<string>,
    isWalkIn: bool,
    priority: Priority,
    status: Status,
    loyaltyAwarded: bool)

  /** An appointment document: its identifier, its data and the store's timestamps. */
  datatype Appointment = Appointment(
    id: string,
    data: AppointmentData,
    createdAt: Timestamp,
    updatedAt: Timestamp)

  /** The store calls the core makes, one per call site. */
  datatype StoreCall =
    | AddTransaction   // addDoc of the ledger row
    | ReadClient       // getDoc of the client inside recordPoints
    | WriteClient      // updateDoc of the client's loyalty fields
    | WriteStatus      // updateDoc of the appointment's status
    | ReadAppointment  // getDoc of the appointment in the award hook
    | ReadBalance      // getDoc of the client's balance in the award hook
    | WriteAwarded     // updateDoc of loyaltyAwarded
    | AddAppointment   // addDoc of a new appointment

  datatype Error =
    | InsufficientBalance  // 'Saldo insuficiente de puntos'
    | NotFound             // updateDoc of a document that does not exist
    | StoreError(call: StoreCall)

  const InsufficientBalanceMessage := "Saldo insuficiente de puntos"

  /** How an operation that returns a value settles. */
  datatype Result<T> = Ok(value: T) | Err(error: Error)

  /** How an operation's promise settles: resolved, or rejected with an error. */
  datatype Outcome = Done | Failed(error: Error)

  datatype Read<T> = ReadFailed | Missing | Found(doc: T)

  /** The value of the whole store. */
  datatype DbState = DbState(
    clients: map<string, Client>,
    appointments: map<string, Appointment>,
    transactions: seq<Transaction>)

  /** The store after an operation, and how the operation settled. */
  datatype Effect = Effect(state: DbState, outcome: Outcome)

  class Db {
    var clients: map<string, Client>
    var appointments: map<string, Appointment>
    var transactions: seq<Transaction>

    function State(): DbState
      reads this
    {
      DbState(clients, appointments, transactions)
    }

    constructor(clients: map<string, Client>, appointments: map<string, Appointment>)
      ensures State() == DbState(clients, appointments, [])
    {
      this.clients := clients;
      this.appointments := appointments;
      this.transactions := [];
    }

    /** addDoc on the ledger collection. */
    method AddTransaction(tx: Transaction, fail: bool) returns (ok: bool)
      modifies this`transactions
      ensures ok == !fail
      ensures transactions == if ok then old(transactions) + [tx] else old(transactions)
    {
      ok := !fail;
      if ok {
        transactions := transactions + [tx];
      }
    }

    /** getDoc on the client collection. */
    method GetClient(id: string, fail: bool) returns (r: Read<Client>)
      ensures r == if fail then ReadFailed else if id in clients then Found(clients[id]) else Missing
    {
      if fail {
        r := ReadFailed;
      } else if id in clients {
        r := Found(clients[id]);
      } else {
        r := Missing;
      }
    }

    /** updateDoc on an existing client. */
    method UpdateClient(id: string, c: Client, fail: bool) returns (ok: bool)
      requires id in clients
      modifies this`clients
      ensures ok == !fail
      ensures clients == if ok then old(clients)[id := c] else old(clients)
    {
      ok := !fail;
      if ok {
        clients := clients[id := c];
      }
    }

    /** getDoc on the appointment collection. */
    method GetAppointment(id: string, fail: bool) returns (r: Read<Appointment>)
      ensures r == if fail then ReadFailed else if id in appointments then Found(appointments[id]) else Missing
    {
      if fail {
        r := ReadFailed;
      } else if id in appointments {
        r := Found(appointments[id]);
      } else {
        r := Missing;
      }
    }

    /** updateDoc on an appointment: rejected when the document does not exist. */
    method UpdateAppointment(id: string, a: Appointment, call: StoreCall, fail: bool) returns (outcome: Outcome)
      modifies this`appointments
      ensures outcome ==
        if id !in old(appointments) then Failed(NotFound)
        else if fail then Failed(StoreError(call))
        else Done
      ensures appointments == if outcome == Done then old(appointments)[id := a] else old(appointments)
    {
      if id !in appointments {
        outcome := Failed(NotFound);
      } else if fail {
        outcome := Failed(StoreError(call));
      } else {
        appointments := appointments[id := a];
        outcome := Done;
      }
    }

    /** addDoc on the appointment collection, under the identifier the store generated. */
    method AddAppointment(id: string, a: Appointment, fail: bool) returns (ok: bool)
      modifies this`appointments
      ensures ok == !fail
      ensures appointments == if ok then old(appointments)[id := a] else old(appointments)
    {
      ok := !fail;
      if ok {
        appointments := appointments[id := a];
      }
    }
  }
}
