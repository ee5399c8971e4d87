/**
  The read side of the revised views: rooms by name, the requester's
  reservations latest first, the staff statistics, and the staff-only
  endpoints, which answer non-staff users with the access-denied redirect.
 */
module ViewsFixed {
  import opened Models
  import Views
  import Seqs

  // ---------------------------------------------------------------------------
  // room_list

  predicate NameNoLater(a: Room, b: Room) { Seqs.LexLe(a.name, b.name) }

  lemma NameOrderIsPreorder()
    ensures Seqs.TotalPreorder(NameNoLater)
  {
    forall a: Room, b: Room ensures NameNoLater(a, b) || NameNoLater(b, a) {
      Seqs.LexLeTotal(a.name, b.name);
    }
    forall a: Room, b: Room, c: Room | NameNoLater(a, b) && NameNoLater(b, c) ensures NameNoLater(a, c) {
      Seqs.LexLeTransitive(a.name, b.name, c.name);
    }
  }

  /** Every room, ordered by name. */
  function RoomList(rooms: seq<Room>): (r: seq<Room>)
    ensures multiset(r) == multiset(rooms)
    ensures forall i, j :: 0 <= i < j < |r| ==> Seqs.LexLe(r[i].name, r[j].name)
  {
    NameOrderIsPreorder();
    Seqs.SortBySorted(rooms, NameNoLater);
    Seqs.SortBy(rooms, NameNoLater)
  }

  // ---------------------------------------------------------------------------
  // my_reservations

  /** The requester's reservations, latest start first. */
  function MyReservations(rs: seq<Reservation>, user: UserId): (r: seq<Reservation>)
    ensures forall x :: multiset(r)[x] == if x.user == user then multiset(rs)[x] else 0
    ensures forall i, j :: 0 <= i < j < |r| ==> r[i].start >= r[j].start
  {
    var owned := (x: Reservation) => x.user == user;
    Seqs.FilterMultiset(rs, owned);
    Views.LatestFirst(Seqs.Filter(rs, owned))
  }

  // ---------------------------------------------------------------------------
  // admin_dashboard

  datatype Stats = Stats(rooms: nat, reservations: nat, users: nat, pendingPayments: nat, pendingReservations: nat)

  datatype StatsPage = AccessDenied | StatsShown(stats: Stats)

  /**
    Staff only: table sizes, payments still pending, and reservations pending
    and unpaid. The user count comes from the authentication framework.
   */
  function AdminDashboard(user: User, rooms: seq<Room>, rs: seq<Reservation>, payments: seq<Payment>, userCount: nat)
    : (page: StatsPage)
    ensures page.AccessDenied? <==> !user.isStaff
    ensures page.StatsShown? ==>
      var s := page.stats;
      && s.rooms == |rooms| && s.reservations == |rs| && s.users == userCount
      && s.pendingPayments == |set i | 0 <= i < |payments| && payments[i].status == PaymentPending|
      && s.pendingPayments <= |payments|
      && (s.pendingPayments == 0 <==> forall p :: p in payments ==> p.status != PaymentPending)
      && (s.pendingPayments == |payments| <==> forall p :: p in payments ==> p.status == PaymentPending)
      && s.pendingReservations == |set i | 0 <= i < |rs| && rs[i].status == Pending && !rs[i].isPaid|
      && s.pendingReservations <= |rs|
      && (s.pendingReservations == 0 <==> forall x :: x in rs ==> x.status != Pending || x.isPaid)
      && (s.pendingReservations == |rs| <==> forall x :: x in rs ==> x.status == Pending && !x.isPaid)
  {
    if !user.isStaff then AccessDenied
    else
      var waitingPayment := (p: Payment) => p.status == PaymentPending;
      var waitingReservation := (x: Reservation) => x.status == Pending && !x.isPaid;
      var ps := Seqs.Filter(payments, waitingPayment);
      var xs := Seqs.Filter(rs, waitingReservation);
      Seqs.FilterKeepsAll(payments, waitingPayment);
      Seqs.FilterKeepsAll(rs, waitingReservation);
      Seqs.FilterCount(payments, waitingPayment);
      Seqs.FilterCount(rs, waitingReservation);
      assert Seqs.Positions(payments, waitingPayment)
        == set i | 0 <= i < |payments| && payments[i].status == PaymentPending;
      assert Seqs.Positions(rs, waitingReservation)
        == set i | 0 <= i < |rs| && rs[i].status == Pending && !rs[i].isPaid;
      assert |ps| > 0 ==> ps[0] in ps;
      assert |xs| > 0 ==> xs[0] in xs;
      StatsShown(Stats(|rooms|, |rs|, userCount, |ps|, |xs|))
  }

  // ---------------------------------------------------------------------------
  // Staff-only endpoints

  datatype AdminAction =
    | ExportRoomsCsv
    | ExportReservationsCsv
    | ImportRoomsCsv
    | PreviewCsvImport
    | ProcessPayment(reservation: ReservationId)
    | ApprovePayment(payment: nat)
    | RejectPayment(payment: nat)
    | ApproveReservation(reservation: ReservationId)
    | RejectReservation(reservation: ReservationId)

  datatype AdminResponse = Denied | Placeholder(action: AdminAction)

  /**
    The staff guard shared by the endpoints: non-staff users are redirected
    with "Access denied."; staff users get the endpoint's placeholder page.
    No endpoint reads or writes the store.
   */
  function AdminEndpoint(user: User, action: AdminAction): (r: AdminResponse)
    ensures r == Denied <==> !user.isStaff
    ensures r.Placeholder? ==> r.action == action
  {
    if !user.isStaff then Denied else Placeholder(action)
  }
}
