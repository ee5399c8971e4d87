/**
  The reservation and payment tables as one store, and the request handlers
  that change them: the three ways a reservation is created, the two
  cancellation policies, and the save of a payment under its declared
  constraints. The store's invariant is that no two reservations of one room
  overlap; every handler keeps it.
 */
module Store {
  import opened Wrappers
  import opened Models
  import opened Forms
  import Seqs

  datatype CreateOutcome =
    | RoomNotFound              // the room named in the query string does not exist
    | ServerError               // an exception reached the view's catch-all handler
    | Rejected(error: FormError)
    | SaveFailed                // the save raised; the view reports it and saves nothing
    | Created(reservation: Reservation)

  datatype CancelOutcome =
    | NotFound                  // no reservation with that key owned by the requester
    | NotFoundAsServerError     // the same, where the view's catch-all handler turns the 404 into a 500
    | NotCancellable
    | Deleted(reservation: Reservation)

  /** Two reservations clash when they are on one room and their windows overlap. */
  predicate Clash(a: Reservation, b: Reservation) {
    a.room == b.room && Overlaps(a.start, a.end, b.start, b.end)
  }

  ghost predicate NoOverlap(rs: seq<Reservation>) {
    forall i, j :: 0 <= i < j < |rs| ==> !Clash(rs[i], rs[j])
  }

  /** A clash does not depend on which of the two reservations came first. */
  lemma ClashSymmetric(a: Reservation, b: Reservation)
    ensures Clash(a, b) <==> Clash(b, a)
  {
  }

  /** In a store without overlaps, appending keeps it so exactly when the new reservation clashes with none. */
  lemma AppendKeepsNoOverlap(rs: seq<Reservation>, r: Reservation)
    requires NoOverlap(rs)
    ensures NoOverlap(rs + [r]) <==> forall x :: x in rs ==> !Clash(x, r)
  {
    var t := rs + [r];
    if forall x :: x in rs ==> !Clash(x, r) {
      forall i, j | 0 <= i < j < |t| ensures !Clash(t[i], t[j]) {
        if j == |rs| {
          assert t[i] in rs;
        }
      }
    } else {
      var x :| x in rs && Clash(x, r);
      var i :| 0 <= i < |rs| && rs[i] == x;
      assert t[i] == x && t[|rs|] == r;
    }
  }

  /**
    For a well-formed request on an available room, the form accepts the
    window exactly when storing it keeps the store free of overlaps: the
    admission rule is neither weaker nor stricter than the invariant.
   */
  lemma AdmissionMatchesInvariant(data: FormData, rooms: seq<Room>, rs: seq<Reservation>, r: Reservation)
    requires NoOverlap(rs)
    requires data == FormData(Some(r.room), Some(r.start), Some(r.end))
    requires IsSelectable(rooms, r.room) && r.start < r.end
    ensures Validate(data, rooms, rs).Ok? <==> NoOverlap(rs + [r])
  {
    AppendKeepsNoOverlap(rs, r);
  }

  /** Deleting one reservation keeps a store free of overlaps. */
  lemma RemoveKeepsNoOverlap(rs: seq<Reservation>, k: nat)
    requires NoOverlap(rs) && k < |rs|
    ensures NoOverlap(rs[..k] + rs[k + 1..])
  {
    var t := rs[..k] + rs[k + 1..];
    forall i, j | 0 <= i < j < |t| ensures !Clash(t[i], t[j]) {
      var i' := if i < k then i else i + 1;
      var j' := if j < k then j else j + 1;
      assert t[i] == rs[i'] && t[j] == rs[j'];
    }
  }

  /** Deleting the reservation at `k` keeps every reservation with another key. */
  lemma RemoveKeepsOthers(rs: seq<Reservation>, k: nat)
    requires k < |rs|
    ensures forall x :: x in rs && x.id != rs[k].id ==> x in rs[..k] + rs[k + 1..]
    ensures forall x :: x in rs[..k] + rs[k + 1..] ==> x in rs
  {
    forall x | x in rs && x.id != rs[k].id ensures x in rs[..k] + rs[k + 1..] {
      var i :| 0 <= i < |rs| && rs[i] == x;
      if i < k {
        assert x == (rs[..k] + rs[k + 1..])[i];
      } else {
        assert x == (rs[..k] + rs[k + 1..])[i - 1];
      }
    }
  }

  /** `get_object_or_404(Reservation, pk=pk, user=user)`: the position of that reservation, if any. */
  function FindOwned(rs: seq<Reservation>, pk: ReservationId, user: UserId): (k: Option<nat>)
    ensures k.Some? ==> k.value < |rs| && rs[k.value].id == pk && rs[k.value].user == user
    ensures k.None? <==> forall x :: x in rs ==> !(x.id == pk && x.user == user)
  {
    if rs == [] then None
    else if rs[0].id == pk && rs[0].user == user then Some(0)
    else
      assert forall x :: x in rs ==> x == rs[0] || x in rs[1..];
      match FindOwned(rs[1..], pk, user)
      case None => None
      case Some(i) => Some(i + 1)
  }

  predicate ReservationExists(rs: seq<Reservation>, id: ReservationId) {
    exists x :: x in rs && x.id == id
  }

  /** Deleting a reservation deletes its payment too (the one-to-one link cascades). */
  function PaymentsWithout(payments: seq<Payment>, id: ReservationId): (r: seq<Payment>)
    ensures forall p :: p in r <==> p in payments && p.reservation != id
  {
    Seqs.Filter(payments, (p: Payment) => p.reservation != id)
  }

  ghost predicate BookInvariant(rs: seq<Reservation>, payments: seq<Payment>, nextId: nat) {
    && nextId >= 1
    && (forall x :: x in rs ==> 1 <= x.id < nextId && x.start < x.end)
    && Seqs.DistinctBy(rs, ReservationKey)
    && NoOverlap(rs)
    && UniqueTransactionIds(payments)
    && OnePaymentPerReservation(payments)
    && (forall p :: p in payments ==> ReservationExists(rs, p.reservation))
  }

  class ReservationBook {
    var reservations: seq<Reservation>
    var payments: seq<Payment>
    var nextId: nat

    ghost predicate Valid()
      reads this
    {
      BookInvariant(reservations, payments, nextId)
    }

    constructor ()
      ensures Valid()
      ensures reservations == [] && payments == [] && nextId == 1
    {
      reservations, payments, nextId := [], [], 1;
    }

    /** `save()` of a new reservation: it receives the next primary key and is appended to the table. */
    method Save(draft: Reservation) returns (saved: Reservation)
      requires Valid()
      requires draft.start < draft.end
      requires forall x :: x in reservations ==> !Clash(x, draft)
      modifies this
      ensures Valid()
      ensures saved == draft.(id := old(nextId))
      ensures reservations == old(reservations) + [saved]
      ensures payments == old(payments) && nextId == old(nextId) + 1
    {
      saved := draft.(id := nextId);
      AppendKeepsNoOverlap(reservations, saved);
      var t := reservations + [saved];
      forall i, j | 0 <= i < j < |t| ensures ReservationKey(t[i]) != ReservationKey(t[j]) {
        if j == |reservations| {
          assert t[i] in reservations;
        }
      }
      reservations := t;
      nextId := nextId + 1;
    }

    /** `delete()` of the reservation at `k`, together with its payment. */
    method Delete(k: nat)
      requires Valid() && k < |reservations|
      modifies this
      ensures Valid()
      ensures reservations == old(reservations)[..k] + old(reservations)[k + 1..]
      ensures payments == PaymentsWithout(old(payments), old(reservations)[k].id)
      ensures nextId == old(nextId)
    {
      var gone := reservations[k];
      var rest := reservations[..k] + reservations[k + 1..];
      RemoveKeepsNoOverlap(reservations, k);
      RemoveKeepsOthers(reservations, k);
      forall i, j | 0 <= i < j < |rest| ensures ReservationKey(rest[i]) != ReservationKey(rest[j]) {
        var i' := if i < k then i else i + 1;
        var j' := if j < k then j else j + 1;
        assert rest[i] == reservations[i'] && rest[j] == reservations[j'];
      }
      var ps := PaymentsWithout(payments, gone.id);
      Seqs.FilterKeepsDistinct(payments, (p: Payment) => p.reservation != gone.id, TransactionKey);
      Seqs.FilterKeepsDistinct(payments, (p: Payment) => p.reservation != gone.id, PaymentReservationKey);
      forall p | p in ps ensures ReservationExists(rest, p.reservation) {
        var x :| x in reservations && x.id == p.reservation;
        assert x in rest;
      }
      reservations, payments := rest, ps;
    }

    /**
      create_reservation of the main views, with the total price supplied by
      the caller: a room named in the query string must exist; a valid form is
      saved for the requester with status confirmed.
     */
    method Create(user: UserId, queryRoom: Option<RoomId>, data: FormData, rooms: seq<Room>, price: Cents, now: Time)
      returns (outcome: CreateOutcome)
      requires Valid()
      modifies this
      ensures Valid()
      ensures payments == old(payments)
      ensures queryRoom.Some? && FindRoom(rooms, queryRoom.value).None? ==> outcome == RoomNotFound
      ensures (queryRoom.None? || FindRoom(rooms, queryRoom.value).Some?) ==>
        match Validate(data, rooms, old(reservations))
        case Err(e) => outcome == Rejected(e)
        case Ok(b) =>
          && outcome == Created(Reservation(old(nextId), b.room, user, b.start, b.end, now, Confirmed, price, false))
          && reservations == old(reservations) + [outcome.reservation]
          && nextId == old(nextId) + 1
      ensures !outcome.Created? ==> reservations == old(reservations) && nextId == old(nextId)
    {
      if queryRoom.Some? && FindRoom(rooms, queryRoom.value).None? {
        return RoomNotFound;
      }
      match Validate(data, rooms, reservations)
      case Err(e) =>
        outcome := Rejected(e);
      case Ok(b) =>
        var draft := NewReservation(b.room, user, b.start, b.end, price, now).(status := Confirmed);
        var saved := Save(draft);
        outcome := Created(saved);
    }

    /**
      room_detail's booking form, with the total price supplied by the caller
      and the window checked against the page's room, which is the room the
      reservation is saved under.
     */
    method BookFromPage(user: UserId, pageRoom: RoomId, data: FormData, rooms: seq<Room>, price: Cents, now: Time)
      returns (outcome: CreateOutcome)
      requires Valid()
      modifies this
      ensures Valid()
      ensures payments == old(payments)
      ensures FindRoom(rooms, pageRoom).None? ==> outcome == CreateOutcome.ServerError
      ensures FindRoom(rooms, pageRoom).Some? ==>
        match Validate(data.(room := Some(pageRoom)), rooms, old(reservations))
        case Err(e) => outcome == Rejected(e)
        case Ok(b) =>
          && b.room == pageRoom
          && outcome == Created(Reservation(old(nextId), pageRoom, user, b.start, b.end, now, Confirmed, price, false))
          && reservations == old(reservations) + [outcome.reservation]
          && nextId == old(nextId) + 1
      ensures !outcome.Created? ==> reservations == old(reservations) && nextId == old(nextId)
    {
      if FindRoom(rooms, pageRoom).None? {
        return CreateOutcome.ServerError;
      }
      match Validate(data.(room := Some(pageRoom)), rooms, reservations)
      case Err(e) =>
        outcome := Rejected(e);
      case Ok(b) =>
        var draft := NewReservation(pageRoom, user, b.start, b.end, price, now).(status := Confirmed);
        var saved := Save(draft);
        outcome := Created(saved);
    }

    /**
      create_reservation of the fixed views: a valid form is saved for the
      requester with the default status, pending.
     */
    method CreatePending(user: UserId, data: FormData, rooms: seq<Room>, price: Cents, now: Time)
      returns (outcome: CreateOutcome)
      requires Valid()
      modifies this
      ensures Valid()
      ensures payments == old(payments)
      ensures match Validate(data, rooms, old(reservations))
        case Err(e) => outcome == Rejected(e)
        case Ok(b) =>
          && outcome == Created(Reservation(old(nextId), b.room, user, b.start, b.end, now, Pending, price, false))
          && reservations == old(reservations) + [outcome.reservation]
          && nextId == old(nextId) + 1
      ensures !outcome.Created? ==> reservations == old(reservations) && nextId == old(nextId)
    {
      match Validate(data, rooms, reservations)
      case Err(e) =>
        outcome := Rejected(e);
      case Ok(b) =>
        var saved := Save(NewReservation(b.room, user, b.start, b.end, price, now));
        outcome := Created(saved);
    }

    /**
      cancel_reservation of the main views: the requester's reservation is
      deleted only while its start is still in the future.
     */
    method CancelFuture(user: UserId, pk: ReservationId, now: Time) returns (outcome: CancelOutcome)
      requires Valid()
      modifies this
      ensures Valid() && nextId == old(nextId)
      ensures match FindOwned(old(reservations), pk, user)
        case None => outcome == NotFoundAsServerError
        case Some(k) =>
          if old(reservations)[k].start > now then
            && outcome == Deleted(old(reservations)[k])
            && reservations == old(reservations)[..k] + old(reservations)[k + 1..]
            && payments == PaymentsWithout(old(payments), pk)
          else outcome == NotCancellable
      ensures !outcome.Deleted? ==> reservations == old(reservations) && payments == old(payments)
    {
      match FindOwned(reservations, pk, user)
      case None =>
        outcome := NotFoundAsServerError;
      case Some(k) =>
        if reservations[k].start > now {
          outcome := Deleted(reservations[k]);
          Delete(k);
        } else {
          outcome := NotCancellable;
        }
    }

    /**
      cancel_reservation of the fixed views: the requester's reservation is
      deleted only while its status is pending.
     */
    method CancelPending(user: UserId, pk: ReservationId) returns (outcome: CancelOutcome)
      requires Valid()
      modifies this
      ensures Valid() && nextId == old(nextId)
      ensures match FindOwned(old(reservations), pk, user)
        case None => outcome == NotFound
        case Some(k) =>
          if old(reservations)[k].status == Pending then
            && outcome == Deleted(old(reservations)[k])
            && reservations == old(reservations)[..k] + old(reservations)[k + 1..]
            && payments == PaymentsWithout(old(payments), pk)
          else outcome == NotCancellable
      ensures !outcome.Deleted? ==> reservations == old(reservations) && payments == old(payments)
    {
      match FindOwned(reservations, pk, user)
      case None =>
        outcome := NotFound;
      case Some(k) =>
        if reservations[k].status == Pending {
          outcome := Deleted(reservations[k]);
          Delete(k);
        } else {
          outcome := NotCancellable;
        }
    }

    /**
      Saving a payment: the database refuses it when its reservation does not
      exist, already has a payment, or its transaction id is taken.
     */
    method SavePayment(p: Payment) returns (saved: bool)
      requires Valid()
      modifies this
      ensures Valid()
      ensures saved <==>
        && ReservationExists(old(reservations), p.reservation)
        && !HasPayment(old(payments), p.reservation)
        && !TransactionIdTaken(old(payments), p.transactionId)
      ensures payments == if saved then old(payments) + [p] else old(payments)
      ensures reservations == old(reservations) && nextId == old(nextId)
    {
      saved := ReservationExists(reservations, p.reservation)
        && !HasPayment(payments, p.reservation)
        && !TransactionIdTaken(payments, p.transactionId);
      if saved {
        AppendPaymentKeepsConstraints(payments, p);
        payments := payments + [p];
      }
    }
  }
}
