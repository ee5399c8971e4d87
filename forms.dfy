/**
  The reservation form: its three fields (room, start time, end time), the
  restriction of the room field to available rooms, and `clean`, which rejects
  an inverted or empty window and a window that overlaps a stored reservation
  of the same room.
 */
module Forms {
  import opened Wrappers
  import opened Models
  import Seqs

  /** The submitted fields; None stands for a field left empty. */
  datatype FormData = FormData(room: Option<RoomId>, start: Option<Time>, end: Option<Time>)

  /** What an accepted form yields. */
  datatype Booking = Booking(room: RoomId, start: Time, end: Time)

  datatype FormError =
    | RoomRequired        // room field left empty
    | RoomNotSelectable   // not the key of an available room
    | StartRequired
    | EndRequired
    | EndNotAfterStart    // clean: start >= end
    | SlotTaken           // clean: an overlapping reservation exists

  /**
    The filter of the conflict query for an existing window against a requested
    one: existing.start < end and existing.end > start (half-open windows).
   */
  predicate Overlaps(existingStart: Time, existingEnd: Time, start: Time, end: Time) {
    existingStart < end && existingEnd > start
  }

  lemma OverlapsSymmetric(s1: Time, e1: Time, s2: Time, e2: Time)
    ensures Overlaps(s1, e1, s2, e2) <==> Overlaps(s2, e2, s1, e1)
  {
  }

  /** Windows that only share an end point never overlap. */
  lemma TouchingDoesNotOverlap(existingStart: Time, existingEnd: Time, start: Time, end: Time)
    requires start == existingEnd || end == existingStart
    ensures !Overlaps(existingStart, existingEnd, start, end)
  {
  }

  /** The conflict query: reservations of `room` whose window overlaps [start, end), whatever their status. */
  function Conflicting(rs: seq<Reservation>, room: RoomId, start: Time, end: Time): (r: seq<Reservation>)
    ensures forall x :: x in r <==> x in rs && x.room == room && Overlaps(x.start, x.end, start, end)
  {
    Seqs.Filter(rs, (x: Reservation) => x.room == room && Overlaps(x.start, x.end, start, end))
  }

  /** The room field's queryset: the rooms marked available. */
  function SelectableRooms(rooms: seq<Room>): (r: seq<Room>)
    ensures forall x :: x in r <==> x in rooms && x.isAvailable
  {
    Seqs.Filter(rooms, (x: Room) => x.isAvailable)
  }

  predicate IsSelectable(rooms: seq<Room>, id: RoomId) {
    exists x :: x in SelectableRooms(rooms) && x.id == id
  }

  /** Field cleaning: a field that fails its own check is left out of the cleaned data. */
  function CleanFields(data: FormData, rooms: seq<Room>): FormData {
    FormData(if data.room.Some? && IsSelectable(rooms, data.room.value) then data.room else None, data.start, data.end)
  }

  /** The first field error, in field order. */
  function FieldError(data: FormData, rooms: seq<Room>): Option<FormError> {
    if data.room.None? then Some(RoomRequired)
    else if !IsSelectable(rooms, data.room.value) then Some(RoomNotSelectable)
    else if data.start.None? then Some(StartRequired)
    else if data.end.None? then Some(EndRequired)
    else None
  }

  /**
    `clean`: when room, start and end are all present it rejects start >= end
    and then any overlapping reservation of that room; otherwise it returns the
    cleaned data unchanged.
   */
  function Clean(cleaned: FormData, rs: seq<Reservation>): (r: Result<FormData, FormError>)
    ensures r.Ok? ==> r.value == cleaned
    ensures r.Err? ==> r.error == EndNotAfterStart || r.error == SlotTaken
    ensures cleaned.room.None? || cleaned.start.None? || cleaned.end.None? ==> r == Ok(cleaned)
    ensures cleaned.room.Some? && cleaned.start.Some? && cleaned.end.Some? ==>
      var room, start, end := cleaned.room.value, cleaned.start.value, cleaned.end.value;
      && (r == Err(EndNotAfterStart) <==> start >= end)
      && (r == Err(SlotTaken) <==>
            start < end && exists x :: x in rs && x.room == room && Overlaps(x.start, x.end, start, end))
      && (r.Ok? <==>
            start < end && forall x :: x in rs && x.room == room ==> !Overlaps(x.start, x.end, start, end))
  {
    if cleaned.room.Some? && cleaned.start.Some? && cleaned.end.Some? then
      var room, start, end := cleaned.room.value, cleaned.start.value, cleaned.end.value;
      if start >= end then Err(EndNotAfterStart)
      else
        var found := Conflicting(rs, room, start, end);
        if |found| > 0 then
          assert found[0] in found;
          Err(SlotTaken)
        else Ok(cleaned)
    else Ok(cleaned)
  }

  /** What the form accepts, stated directly: an available room, a non-empty window, no overlap on that room. */
  predicate Admits(rooms: seq<Room>, rs: seq<Reservation>, b: Booking) {
    && IsSelectable(rooms, b.room)
    && b.start < b.end
    && forall x :: x in rs && x.room == b.room ==> !Overlaps(x.start, x.end, b.start, b.end)
  }

  /** `is_valid()` followed by reading the cleaned fields. */
  function Validate(data: FormData, rooms: seq<Room>, rs: seq<Reservation>): (r: Result<Booking, FormError>)
    ensures r.Ok? <==>
      && data.room.Some? && data.start.Some? && data.end.Some?
      && Admits(rooms, rs, Booking(data.room.value, data.start.value, data.end.value))
    ensures r.Ok? ==> r.value == Booking(data.room.value, data.start.value, data.end.value)
    ensures data.room.None? ==> r == Err(RoomRequired)
    ensures data.room.Some? && !IsSelectable(rooms, data.room.value) ==> r == Err(RoomNotSelectable)
    ensures data.room.Some? && data.start.Some? && data.end.Some? && IsSelectable(rooms, data.room.value) ==>
      (r == Err(EndNotAfterStart) <==> data.start.value >= data.end.value)
  {
    match FieldError(data, rooms)
    case Some(e) => Err(e)
    case None =>
      var cleaned := CleanFields(data, rooms);
      match Clean(cleaned, rs)
      case Err(e) => Err(e)
      case Ok(c) => Ok(Booking(c.room.value, c.start.value, c.end.value))
  }

  /** Only the reservations of the requested room can decide the verdict. */
  lemma OnlySameRoomMatters(data: FormData, rooms: seq<Room>, rs: seq<Reservation>)
    requires data.room.Some?
    ensures Validate(data, rooms, rs) == Validate(data, rooms, Seqs.Filter(rs, (x: Reservation) => x.room == data.room.value))
  {
  }

  /** Adding reservations of other rooms never changes the verdict. */
  lemma OtherRoomsNeverConflict(data: FormData, rooms: seq<Room>, rs: seq<Reservation>, others: seq<Reservation>)
    requires data.room.Some?
    requires forall x :: x in others ==> x.room != data.room.value
    ensures Validate(data, rooms, rs + others) == Validate(data, rooms, rs)
  {
  }

  /** A reservation whose window only touches the requested one never changes the verdict. */
  lemma TouchingNeverConflicts(data: FormData, rooms: seq<Room>, rs: seq<Reservation>, x: Reservation)
    requires data.start.Some? && data.end.Some?
    requires data.start.value == x.end || data.end.value == x.start
    ensures Validate(data, rooms, rs + [x]) == Validate(data, rooms, rs)
  {
  }

  /** Reservations with the same rooms and windows give the same verdict, whatever their status, owner or price. */
  lemma OnlySlotsMatter(data: FormData, rooms: seq<Room>, rs: seq<Reservation>, rs': seq<Reservation>)
    requires |rs| == |rs'|
    requires forall i :: 0 <= i < |rs| ==> rs[i].room == rs'[i].room && rs[i].start == rs'[i].start && rs[i].end == rs'[i].end
    ensures Validate(data, rooms, rs) == Validate(data, rooms, rs')
  {
    forall x | x in rs ensures exists y :: y in rs' && y.room == x.room && y.start == x.start && y.end == x.end {
      var i :| 0 <= i < |rs| && rs[i] == x;
      assert rs'[i] in rs';
    }
    forall y | y in rs' ensures exists x :: x in rs && y.room == x.room && y.start == x.start && y.end == x.end {
      var i :| 0 <= i < |rs'| && rs'[i] == y;
      assert rs[i] in rs;
    }
  }
}
