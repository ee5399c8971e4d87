/**
  The read side and the as-written create paths of the main views: the room
  list with its optional filters, the requester's reservations in ascending
  start order, the staff dashboard, the form's default window, and the two
  booking handlers exactly as they read the form's cleaned data.
 */
module Views {
  import opened Wrappers
  import opened Models
  import opened Forms
  import opened Store
  import Seqs

  const HOUR: int := 60

  // ---------------------------------------------------------------------------
  // room_list

  /** The query-string filters; None (or false) stands for a filter left empty. */
  datatype RoomFilters = RoomFilters(minCapacity: Option<int>, maxPrice: Option<Cents>, availableOnly: bool)

  predicate MeetsFilters(room: Room, f: RoomFilters) {
    && (f.minCapacity.None? || room.capacity >= f.minCapacity.value)
    && (f.maxPrice.None? || room.pricePerHour <= f.maxPrice.value)
    && (!f.availableOnly || room.isAvailable)
  }

  /** The rooms left after applying, in turn, each filter that was given. */
  function RoomList(rooms: seq<Room>, f: RoomFilters): (r: seq<Room>)
    ensures forall x :: x in r <==> x in rooms && MeetsFilters(x, f)
    ensures forall x :: multiset(r)[x] == if MeetsFilters(x, f) then multiset(rooms)[x] else 0
    ensures |r| <= |rooms|
    ensures f == RoomFilters(None, None, false) ==> r == rooms
  {
    var bigEnough := (x: Room) => f.minCapacity.None? || x.capacity >= f.minCapacity.value;
    var cheapEnough := (x: Room) => f.maxPrice.None? || x.pricePerHour <= f.maxPrice.value;
    var open := (x: Room) => x.isAvailable;
    var byCapacity := if f.minCapacity.Some? then Seqs.Filter(rooms, bigEnough) else rooms;
    var byPrice := if f.maxPrice.Some? then Seqs.Filter(byCapacity, cheapEnough) else byCapacity;
    var r := if f.availableOnly then Seqs.Filter(byPrice, open) else byPrice;
    Seqs.FilterMultiset(rooms, bigEnough);
    Seqs.FilterMultiset(byCapacity, cheapEnough);
    Seqs.FilterMultiset(byPrice, open);
    r
  }

  /** Giving more filters never adds a room. */
  lemma RoomListNarrows(rooms: seq<Room>, f: RoomFilters, g: RoomFilters)
    requires f.minCapacity.Some? ==> g.minCapacity == f.minCapacity
    requires f.maxPrice.Some? ==> g.maxPrice == f.maxPrice
    requires f.availableOnly ==> g.availableOnly
    ensures forall x :: x in RoomList(rooms, g) ==> x in RoomList(rooms, f)
  {
  }

  // ---------------------------------------------------------------------------
  // Orders on reservations

  predicate StartsNoLater(a: Reservation, b: Reservation) { a.start <= b.start }

  predicate StartsNoEarlier(a: Reservation, b: Reservation) { a.start >= b.start }

  lemma StartOrdersArePreorders()
    ensures Seqs.TotalPreorder(StartsNoLater) && Seqs.TotalPreorder(StartsNoEarlier)
  {
  }

  /** The reservations ordered by descending start (order_by('-start_time')). */
  function LatestFirst(rs: seq<Reservation>): (r: seq<Reservation>)
    ensures multiset(r) == multiset(rs)
    ensures forall i, j :: 0 <= i < j < |r| ==> r[i].start >= r[j].start
  {
    StartOrdersArePreorders();
    Seqs.SortBySorted(rs, StartsNoEarlier);
    Seqs.SortBy(rs, StartsNoEarlier)
  }

  // ---------------------------------------------------------------------------
  // my_reservations

  /** The requester's reservations, earliest start first. */
  function MyReservations(rs: seq<Reservation>, user: UserId): (r: seq<Reservation>)
    ensures forall x :: multiset(r)[x] == if x.user == user then multiset(rs)[x] else 0
    ensures forall i, j :: 0 <= i < j < |r| ==> r[i].start <= r[j].start
  {
    var owned := (x: Reservation) => x.user == user;
    var mine := Seqs.Filter(rs, owned);
    Seqs.FilterMultiset(rs, owned);
    StartOrdersArePreorders();
    Seqs.SortBySorted(mine, StartsNoLater);
    Seqs.SortBy(mine, StartsNoLater)
  }

  // ---------------------------------------------------------------------------
  // admin_dashboard

  datatype DashboardPage =
    | AccessDenied
    | Dashboard(rooms: seq<Room>, reservations: seq<Reservation>,
                totalRooms: nat, totalReservations: nat, activeReservations: nat)

  /** Staff only: all rooms, all reservations latest first, and the counts; active means ending after now. */
  function AdminDashboard(user: User, rooms: seq<Room>, rs: seq<Reservation>, now: Time): (d: DashboardPage)
    ensures d.AccessDenied? <==> !user.isStaff
    ensures d.Dashboard? ==>
      && d.rooms == rooms && d.totalRooms == |rooms| && d.totalReservations == |rs|
      && multiset(d.reservations) == multiset(rs)
      && (forall i, j :: 0 <= i < j < |d.reservations| ==> d.reservations[i].start >= d.reservations[j].start)
      && d.activeReservations == |set i | 0 <= i < |rs| && rs[i].end > now|
      && d.activeReservations <= d.totalReservations
      && (d.activeReservations == d.totalReservations <==> forall x :: x in rs ==> x.end > now)
      && (d.activeReservations == 0 <==> forall x :: x in rs ==> x.end <= now)
  {
    if !user.isStaff then AccessDenied
    else
      var active := (x: Reservation) => x.end > now;
      var still := Seqs.Filter(rs, active);
      Seqs.FilterKeepsAll(rs, active);
      Seqs.FilterCount(rs, active);
      assert Seqs.Positions(rs, active) == set i | 0 <= i < |rs| && rs[i].end > now;
      assert |still| > 0 ==> still[0] in still;
      Dashboard(rooms, LatestFirst(rs), |rooms|, |rs|, |still|)
  }

  // ---------------------------------------------------------------------------
  // The form's initial values

  /**
    The form shown before any submission: the start is now truncated to the
    hour plus one hour, the end one hour later, and the room is pre-selected
    when one is known.
   */
  function InitialForm(now: Time, room: Option<RoomId>): (f: FormData)
    ensures f.room == room && f.start.Some? && f.end.Some?
    ensures f.start.value % HOUR == 0 && now < f.start.value <= now + HOUR
    ensures f.end.value == f.start.value + HOUR
  {
    var start := now - now % HOUR + HOUR;
    FormData(room, Some(start), Some(start + HOUR))
  }

  // ---------------------------------------------------------------------------
  // The booking handlers as written

  /** `cleaned_data` of an accepted form: only the three declared fields are keys. */
  function CleanedData(b: Booking): map<string, int> {
    map["room" := b.room as int, "start_time" := b.start, "end_time" := b.end]
  }

  /**
    create_reservation's POST branch as written: after a valid form it reads
    cleaned_data['total_price']; the key is missing, the KeyError is caught by
    the handler around the save, and nothing is saved.
   */
  function CreatePostAsWritten(user: UserId, queryRoom: Option<RoomId>, data: FormData, rooms: seq<Room>,
                               rs: seq<Reservation>, nextId: nat, now: Time): CreateOutcome
  {
    if queryRoom.Some? && FindRoom(rooms, queryRoom.value).None? then RoomNotFound
    else
      match Validate(data, rooms, rs)
      case Err(e) => Rejected(e)
      case Ok(b) =>
        var cleaned := CleanedData(b);
        if "total_price" in cleaned then
          Created(Reservation(nextId, b.room, user, b.start, b.end, now, Confirmed, cleaned["total_price"], false))
        else SaveFailed
  }

  /** As written, the create view saves nothing even for a form it accepts. */
  lemma CreatePostAsWrittenNeverSaves(user: UserId, queryRoom: Option<RoomId>, data: FormData, rooms: seq<Room>,
                                      rs: seq<Reservation>, nextId: nat, now: Time)
    ensures !CreatePostAsWritten(user, queryRoom, data, rooms, rs, nextId, now).Created?
    ensures (queryRoom.None? || FindRoom(rooms, queryRoom.value).Some?) && Validate(data, rooms, rs).Ok? ==>
      CreatePostAsWritten(user, queryRoom, data, rooms, rs, nextId, now) == SaveFailed
  {
  }

  /**
    room_detail's POST branch as written: a missing page room raises a 404
    that the catch-all handler turns into a server error; after a valid form
    the read of cleaned_data['total_price'] raises outside the handler around
    the save, with the same result.
   */
  function RoomDetailPostAsWritten(user: UserId, pageRoom: RoomId, data: FormData, rooms: seq<Room>,
                                   rs: seq<Reservation>, nextId: nat, now: Time): CreateOutcome
  {
    if FindRoom(rooms, pageRoom).None? then CreateOutcome.ServerError
    else
      match Validate(data, rooms, rs)
      case Err(e) => Rejected(e)
      case Ok(b) =>
        var cleaned := CleanedData(b);
        if "total_price" in cleaned then
          Created(Reservation(nextId, pageRoom, user, b.start, b.end, now, Confirmed, cleaned["total_price"], false))
        else CreateOutcome.ServerError
  }

  lemma RoomDetailPostAsWrittenNeverSaves(user: UserId, pageRoom: RoomId, data: FormData, rooms: seq<Room>,
                                          rs: seq<Reservation>, nextId: nat, now: Time)
    ensures !RoomDetailPostAsWritten(user, pageRoom, data, rooms, rs, nextId, now).Created?
    ensures FindRoom(rooms, pageRoom).Some? && Validate(data, rooms, rs).Ok? ==>
      RoomDetailPostAsWritten(user, pageRoom, data, rooms, rs, nextId, now) == CreateOutcome.ServerError
  {
  }

  /**
    room_detail's save as written once a price is available: the window is
    checked against the room chosen in the form, but the reservation is stored
    under the page's room.
   */
  function PageBookingAsWritten(rs: seq<Reservation>, rooms: seq<Room>, pageRoom: RoomId, data: FormData,
                                user: UserId, price: Cents, nextId: nat, now: Time): seq<Reservation>
  {
    match Validate(data, rooms, rs)
    case Err(_) => rs
    case Ok(b) => rs + [Reservation(nextId, pageRoom, user, b.start, b.end, now, Confirmed, price, false)]
  }

  /**
    Room 2 is booked 10:00-11:00. A form posted on room 2's page that selects
    room 1 for 10:30-11:30 passes the check (room 1 is free) and is stored on
    room 2, where it overlaps the existing booking.
   */
  lemma PageBookingCanDoubleBook()
    ensures
      var rooms := [NewRoom(1, "A", 4, "", 1000), NewRoom(2, "B", 4, "", 1000)];
      var rs := [Reservation(1, 2, 7, 600, 660, 0, Confirmed, 1000, false)];
      var data := FormData(Some(1), Some(630), Some(690));
      && NoOverlap(rs)
      && Validate(data, rooms, rs).Ok?
      && !NoOverlap(PageBookingAsWritten(rs, rooms, 2, data, 8, 1000, 2, 0))
  {
    var rooms := [NewRoom(1, "A", 4, "", 1000), NewRoom(2, "B", 4, "", 1000)];
    var rs := [Reservation(1, 2, 7, 600, 660, 0, Confirmed, 1000, false)];
    var data := FormData(Some(1), Some(630), Some(690));
    assert rooms[0] in SelectableRooms(rooms);
    assert Admits(rooms, rs, Booking(1, 630, 690));
    var after := PageBookingAsWritten(rs, rooms, 2, data, 8, 1000, 2, 0);
    assert after[0] == rs[0] && after[1].room == 2 && after[1].start == 630 && after[1].end == 690;
    assert Clash(after[0], after[1]);
  }
}
