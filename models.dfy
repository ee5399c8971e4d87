/**
  The three tables of the booking application (rooms, reservations, payments),
  their status choices, their default values and their declared constraints.
  Instants are whole minutes; money is a whole number of cents.
 */
module Models {
  import opened Wrappers
  import Seqs

  type RoomId = nat
  type UserId = nat
  type ReservationId = nat
  type Time = int
  type Cents = int

  /** A logged-in user of the authentication framework; only the staff flag matters here. */
  datatype User = User(id: UserId, isStaff: bool)

  // ---------------------------------------------------------------------------
  // Money columns: DecimalField(max_digits=10, decimal_places=2)

  const MONEY_MAX_DIGITS: nat := 10

  function Pow10(k: nat): (r: nat)
    ensures r >= 1
  {
    if k == 0 then 1 else 10 * Pow10(k - 1)
  }

  /** Number of decimal digits of `n` (at least one). */
  function DigitCount(n: nat): (d: nat)
    ensures d >= 1
  {
    if n < 10 then 1 else 1 + DigitCount(n / 10)
  }

  /**
    Amounts are held in cents, so the column's two decimal places are the last
    two digits; an amount fits when all its digits are at most MONEY_MAX_DIGITS.
   */
  predicate FitsMoneyField(c: Cents) {
    DigitCount(if c < 0 then -c else c) <= MONEY_MAX_DIGITS
  }

  lemma {:induction false} DigitCountBound(n: nat, k: nat)
    requires k >= 1
    ensures DigitCount(n) <= k <==> n < Pow10(k)
  {
    if n >= 10 {
      if k == 1 {
        assert DigitCount(n) == 1 + DigitCount(n / 10) >= 2;
      } else {
        DigitCountBound(n / 10, k - 1);
        assert Pow10(k) == 10 * Pow10(k - 1);
      }
    } else {
      assert Pow10(k) == 10 * Pow10(k - 1) >= 10;
    }
  }

  /** The column holds exactly the amounts strictly between -100 000 000.00 and 100 000 000.00. */
  lemma MoneyFieldRange(c: Cents)
    ensures FitsMoneyField(c) <==> -10_000_000_000 < c < 10_000_000_000
  {
    DigitCountBound(if c < 0 then -c else c, MONEY_MAX_DIGITS);
    assert Pow10(10) == 10_000_000_000;
  }

  // ---------------------------------------------------------------------------
  // Status choices

  datatype ReservationStatus = Pending | Confirmed | Cancelled

  const DEFAULT_RESERVATION_STATUS: ReservationStatus := Pending

  /** The value stored in the status column (max_length=20). */
  function ReservationStatusCode(s: ReservationStatus): (code: string)
    ensures 0 < |code| <= 20
  {
    match s
    case Pending => "pending"
    case Confirmed => "confirmed"
    case Cancelled => "cancelled"
  }

  /** The choices check: only the three declared codes are accepted. */
  function ParseReservationStatus(code: string): (r: Option<ReservationStatus>)
    ensures r.Some? <==> code == "pending" || code == "confirmed" || code == "cancelled"
    ensures r.Some? ==> ReservationStatusCode(r.value) == code
  {
    if code == "pending" then Some(Pending)
    else if code == "confirmed" then Some(Confirmed)
    else if code == "cancelled" then Some(Cancelled)
    else None
  }

  lemma ReservationStatusRoundTrip(s: ReservationStatus)
    ensures ParseReservationStatus(ReservationStatusCode(s)) == Some(s)
  {
  }

  datatype PaymentStatus = PaymentPending | Completed | Failed | PaymentCancelled

  const DEFAULT_PAYMENT_STATUS: PaymentStatus := PaymentPending

  function PaymentStatusCode(s: PaymentStatus): (code: string)
    ensures 0 < |code| <= 20
  {
    match s
    case PaymentPending => "pending"
    case Completed => "completed"
    case Failed => "failed"
    case PaymentCancelled => "cancelled"
  }

  function ParsePaymentStatus(code: string): (r: Option<PaymentStatus>)
    ensures r.Some? <==> code == "pending" || code == "completed" || code == "failed" || code == "cancelled"
    ensures r.Some? ==> PaymentStatusCode(r.value) == code
  {
    if code == "pending" then Some(PaymentPending)
    else if code == "completed" then Some(Completed)
    else if code == "failed" then Some(Failed)
    else if code == "cancelled" then Some(PaymentCancelled)
    else None
  }

  lemma PaymentStatusRoundTrip(s: PaymentStatus)
    ensures ParsePaymentStatus(PaymentStatusCode(s)) == Some(s)
  {
  }

  // ---------------------------------------------------------------------------
  // Records

  datatype Room = Room(
    id: RoomId,
    name: string,
    capacity: int,
    description: string,
    pricePerHour: Cents,
    isAvailable: bool,
    amenities: seq<string>)

  datatype Reservation = Reservation(
    id: ReservationId,
    room: RoomId,
    user: UserId,
    start: Time,
    end: Time,
    createdAt: Time,
    status: ReservationStatus,
    totalPrice: Cents,
    isPaid: bool)

  /** A payment belongs to one reservation (a one-to-one link). */
  datatype Payment = Payment(
    reservation: ReservationId,
    amount: Cents,
    status: PaymentStatus,
    paymentDate: Time,
    paymentMethod: string,
    transactionId: string)

  /** A room as created with only its required fields given. */
  function NewRoom(id: RoomId, name: string, capacity: int, description: string, pricePerHour: Cents): (r: Room)
    ensures r.isAvailable && r.amenities == []
    ensures r.id == id && r.name == name && r.capacity == capacity && r.pricePerHour == pricePerHour
  {
    Room(id, name, capacity, description, pricePerHour, true, [])
  }

  /**
    A reservation as created with only its required fields given, before it is
    saved (it has no primary key yet, written here as 0); `now` fills the
    auto_now_add creation stamp.
   */
  function NewReservation(room: RoomId, user: UserId, start: Time, end: Time, totalPrice: Cents, now: Time): (r: Reservation)
    ensures r.status == DEFAULT_RESERVATION_STATUS == Pending && !r.isPaid && r.createdAt == now
    ensures r.room == room && r.user == user && r.start == start && r.end == end && r.totalPrice == totalPrice
  {
    Reservation(0, room, user, start, end, now, DEFAULT_RESERVATION_STATUS, totalPrice, false)
  }

  function NewPayment(reservation: ReservationId, amount: Cents, paymentMethod: string, transactionId: string, now: Time): (p: Payment)
    ensures p.status == DEFAULT_PAYMENT_STATUS == PaymentPending && p.paymentDate == now
    ensures p.reservation == reservation && p.amount == amount && p.transactionId == transactionId
  {
    Payment(reservation, amount, DEFAULT_PAYMENT_STATUS, now, paymentMethod, transactionId)
  }

  // ---------------------------------------------------------------------------
  // Lookups by primary key and the declared constraints

  /** `Room.objects.get(pk=pk)`: the room with that key, if any. */
  function FindRoom(rooms: seq<Room>, pk: RoomId): (r: Option<Room>)
    ensures r.Some? ==> r.value in rooms && r.value.id == pk
    ensures r.None? ==> forall x :: x in rooms ==> x.id != pk
  {
    if rooms == [] then None
    else if rooms[0].id == pk then Some(rooms[0])
    else FindRoom(rooms[1..], pk)
  }

  function ReservationKey(r: Reservation): ReservationId { r.id }

  function TransactionKey(p: Payment): string { p.transactionId }

  function PaymentReservationKey(p: Payment): ReservationId { p.reservation }

  /** transaction_id is unique among payments. */
  ghost predicate UniqueTransactionIds(payments: seq<Payment>) {
    Seqs.DistinctBy(payments, TransactionKey)
  }

  /** Each reservation has at most one payment. */
  ghost predicate OnePaymentPerReservation(payments: seq<Payment>) {
    Seqs.DistinctBy(payments, PaymentReservationKey)
  }

  predicate TransactionIdTaken(payments: seq<Payment>, transactionId: string) {
    exists p :: p in payments && p.transactionId == transactionId
  }

  predicate HasPayment(payments: seq<Payment>, reservation: ReservationId) {
    exists p :: p in payments && p.reservation == reservation
  }

  /** Appending a payment whose transaction id and reservation are both unused keeps both constraints. */
  lemma {:induction false} AppendPaymentKeepsConstraints(payments: seq<Payment>, p: Payment)
    requires UniqueTransactionIds(payments) && OnePaymentPerReservation(payments)
    requires !TransactionIdTaken(payments, p.transactionId) && !HasPayment(payments, p.reservation)
    ensures UniqueTransactionIds(payments + [p]) && OnePaymentPerReservation(payments + [p])
  {
    var ps := payments + [p];
    forall i, j | 0 <= i < j < |ps|
      ensures TransactionKey(ps[i]) != TransactionKey(ps[j])
      ensures PaymentReservationKey(ps[i]) != PaymentReservationKey(ps[j])
    {
      if j == |payments| {
        assert ps[i] in payments;
      }
    }
  }
}
