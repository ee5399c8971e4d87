# Meeting-room reservation book

This project models the core of a meeting-room booking web application:

- the tables of rooms, reservations and payments, with their status choices, defaults and constraints;
- the reservation form's admission rule. A requested window `[start, end)` on a room is accepted only if `start < end` and no stored reservation of that room overlaps it. Windows that only touch do not overlap, and status is not consulted;
- the request handlers that add and delete reservations, in both revisions of the views. The main views (`views.py`) save a valid booking as `confirmed` and let an owner cancel only a reservation that has not started. The revised views (`views_fixed.py`) save it as `pending` and let an owner cancel only a `pending` one;
- the read-side queries: the room list and its filters, each user's reservations in a fixed order, and the staff dashboards.

Instants are whole minutes (`int`) and money is whole cents (`int`). The current time is a parameter (`now`). The store is the class `Store.ReservationBook`. Its fields hold the reservation table, the payment table and the next primary key. Its invariant `Valid()` says:

- every stored window is non-empty;
- keys are unique;
- no two reservations of one room overlap;
- transaction ids are unique;
- a reservation has at most one payment, and every payment belongs to a stored reservation.

The constructor establishes the invariant, and every handler method proves that it keeps it. So the invariant holds for any store built through these handlers.

Modules: `Models` (models.py), `Forms` (forms.py), `Store` (the tables and the handlers that change them, from views.py and views_fixed.py), `Views` (read side of views.py and its booking paths as written), `ViewsFixed` (read side of views_fixed.py). `Seqs` holds the queryset operations they share: filter, count, stable sort and string order. `Wrappers` holds `Option` and `Result`.

The code makes these choices, and the model follows them:

- The overlap check counts every stored reservation, cancelled ones included (forms.py:45-49).
- No check exists for a start in the past, a minimum duration, a booking horizon or an unavailable room beyond the room field's choices.
- No price is computed.

## Model

| member | source | states |
|---|---|---|
| `Models.MoneyFieldRange` | DjangoProject1/rooms/models.py:8 | an amount fits a money column (10 digits, 2 decimal places) exactly when it lies strictly between -10^10 and 10^10 cents |
| `Models.ReservationStatusCode` | DjangoProject1/rooms/models.py:21-25 | every reservation status is stored as a non-empty code that fits the 20-character column |
| `Models.ParseReservationStatus` | DjangoProject1/rooms/models.py:32-37 | the status column accepts exactly `pending`, `confirmed` and `cancelled`, each read back as the status it codes |
| `Models.ReservationStatusRoundTrip` | DjangoProject1/rooms/models.py:21-25 | reading a status's code gives back that status |
| `Models.PaymentStatusCode` | DjangoProject1/rooms/models.py:49-54 | every payment status is stored as a non-empty code that fits the 20-character column |
| `Models.ParsePaymentStatus` | DjangoProject1/rooms/models.py:63-68 | the payment status column accepts exactly `pending`, `completed`, `failed` and `cancelled` |
| `Models.PaymentStatusRoundTrip` | DjangoProject1/rooms/models.py:49-54 | reading a payment status's code gives back that status |
| `Models.NewRoom` | DjangoProject1/rooms/models.py:4-11 | a new room is available and has an empty amenity list |
| `Models.NewReservation` | DjangoProject1/rooms/models.py:20-39 | a new reservation is pending, unpaid and stamped with the creation time |
| `Models.NewPayment` | DjangoProject1/rooms/models.py:48-70 | a new payment is pending and dated now |
| `Models.FindRoom` | DjangoProject1/rooms/views.py:122-127 | the lookup by key returns a stored room with that key, or none when no room has it |
| `Models.AppendPaymentKeepsConstraints` | DjangoProject1/rooms/models.py:56-71 | adding a payment with an unused transaction id for a reservation without a payment keeps both uniqueness constraints |
| `Forms.OverlapsSymmetric` | DjangoProject1/rooms/forms.py:45-49 | the overlap test does not depend on which window is the stored one |
| `Forms.TouchingDoesNotOverlap` | DjangoProject1/rooms/forms.py:47-48 | windows that only share an end point do not overlap |
| `Forms.Conflicting` | DjangoProject1/rooms/forms.py:45-49 | the conflict query returns exactly the reservations of the room whose window overlaps the request, whatever their status |
| `Forms.SelectableRooms` | DjangoProject1/rooms/forms.py:29-31 | the room field offers exactly the available rooms |
| `Forms.Clean` | DjangoProject1/rooms/forms.py:34-54 | clean only ever rejects with an inverted window or a taken slot. With room, start and end present, it rejects exactly `start >= end`, then exactly the windows that some reservation of that room overlaps, and it accepts every other window with the data unchanged. With any of the three missing, it returns the data unchanged |
| `Forms.Validate` | DjangoProject1/rooms/forms.py:20-54 | the form is accepted exactly when all three fields are given, the room is available, the window is non-empty and no reservation of that room overlaps it; the accepted booking is the submitted one; a missing or unavailable room and an inverted window give their own errors |
| `Forms.OnlySameRoomMatters` | DjangoProject1/rooms/forms.py:45-46 | the verdict on a store equals the verdict on that store's reservations of the requested room alone |
| `Forms.OtherRoomsNeverConflict` | DjangoProject1/rooms/forms.py:45-52 | adding reservations of other rooms never changes the verdict |
| `Forms.TouchingNeverConflicts` | DjangoProject1/rooms/forms.py:47-48 | adding a reservation that only touches the requested window never changes the verdict |
| `Forms.OnlySlotsMatter` | DjangoProject1/rooms/forms.py:45-52 | stores with the same rooms and windows give the same verdict, whatever the statuses, owners or prices |
| `Store.ClashSymmetric` | DjangoProject1/rooms/forms.py:47-48 | whether two reservations clash does not depend on which came first |
| `Store.AppendKeepsNoOverlap` | DjangoProject1/rooms/views.py:130-137 | in a store without overlaps, appending keeps it so exactly when the new reservation clashes with no stored one |
| `Store.AdmissionMatchesInvariant` | DjangoProject1/rooms/forms.py:40-52 | for a complete request with a non-empty window on an available room, in a store free of overlaps, the form accepts exactly the windows whose storing keeps it so |
| `Store.RemoveKeepsNoOverlap` | DjangoProject1/rooms/views.py:185 | deleting a reservation keeps a store free of overlaps |
| `Store.RemoveKeepsOthers` | DjangoProject1/rooms/views_fixed.py:72 | deleting one reservation keeps every reservation with another key and adds none |
| `Store.FindOwned` | DjangoProject1/rooms/views.py:182 | the lookup by key and owner finds a reservation with that key owned by the requester, or reports that there is none |
| `Store.PaymentsWithout` | DjangoProject1/rooms/models.py:56-61 | deleting a reservation removes exactly its payment and keeps the others |
| `Store.ReservationBook.Save` | DjangoProject1/rooms/views.py:133-137 | saving gives the reservation the next key and appends it, keeping the invariant |
| `Store.ReservationBook.Delete` | DjangoProject1/rooms/views.py:185 | deleting removes exactly that reservation and its payment, keeping the invariant |
| `Store.ReservationBook.Create` | DjangoProject1/rooms/views.py:116-147 | an unknown room in the query string changes nothing; an invalid form changes nothing and reports the form's error; a valid form adds exactly one reservation, for the requester, with status confirmed and the next key; the invariant holds afterwards |
| `Store.ReservationBook.BookFromPage` | DjangoProject1/rooms/views.py:80-100 | an unknown page room gives a server error; otherwise the window is checked against the page's room and, when accepted, exactly one confirmed reservation for the requester is added on that room; the invariant holds afterwards |
| `Store.ReservationBook.CreatePending` | DjangoProject1/rooms/views_fixed.py:37-46 | an invalid form changes nothing; a valid one adds exactly one reservation for the requester with the default status, pending |
| `Store.ReservationBook.CancelFuture` | DjangoProject1/rooms/views.py:179-195 | only a reservation owned by the requester and starting after now is deleted, with its payment; otherwise nothing changes (an unknown or foreign key gives a server error); no other reservation is touched |
| `Store.ReservationBook.CancelPending` | DjangoProject1/rooms/views_fixed.py:65-74 | only a reservation owned by the requester and still pending is deleted, with its payment; any other status, or an unknown or foreign key, changes nothing |
| `Store.ReservationBook.SavePayment` | DjangoProject1/rooms/models.py:56-71 | a payment is stored exactly when its reservation exists, has no payment yet and its transaction id is unused; reservations never change |
| `Views.RoomList` | DjangoProject1/rooms/views.py:54-66 | the listed rooms are exactly the stored rooms meeting every given filter (capacity at least the minimum, price at most the maximum, available if asked), each as often as stored; no filter lists every room in order |
| `Views.RoomListNarrows` | DjangoProject1/rooms/views.py:54-66 | giving more filters never adds a room to the list |
| `Seqs.FilterCommutes` | DjangoProject1/rooms/views.py:56-66 | two filters give the same list in either order |
| `Seqs.FilterCount` | DjangoProject1/rooms/views.py:208 | counting a filtered queryset gives the number of positions whose row meets the condition |
| `Views.LatestFirst` | DjangoProject1/rooms/views.py:205 | the dashboard's reservations are all of them, each once, latest start first |
| `Views.MyReservations` | DjangoProject1/rooms/views.py:173 | the listing holds exactly the requester's reservations, as often as stored, in ascending start order |
| `Views.AdminDashboard` | DjangoProject1/rooms/views.py:197-208 | non-staff users get no data; staff see every room and reservation. The active count is the number of reservations ending after now; it never exceeds the total, equals it exactly when every reservation ends after now, and is zero exactly when none does |
| `Views.InitialForm` | DjangoProject1/rooms/views.py:150-158 | the default start is on the hour, after now and at most an hour away; the default end is one hour after it; the room is pre-selected when known |
| `Views.CreatePostAsWrittenNeverSaves` | DjangoProject1/rooms/views.py:129-143 | as written, the create view never creates a reservation; a form it accepts ends in the save-failure message |
| `Views.RoomDetailPostAsWrittenNeverSaves` | DjangoProject1/rooms/views.py:83-114 | as written, the room page never creates a reservation; a form it accepts ends in a server error |
| `Views.PageBookingCanDoubleBook` | DjangoProject1/rooms/views.py:86-92 | checking the form's room but saving under the page's room can store two overlapping reservations on one room |
| `ViewsFixed.RoomList` | DjangoProject1/rooms/views_fixed.py:19-26 | every room is listed once, in ascending name order |
| `ViewsFixed.MyReservations` | DjangoProject1/rooms/views_fixed.py:56-63 | the listing holds exactly the requester's reservations, as often as stored, latest start first |
| `ViewsFixed.AdminDashboard` | DjangoProject1/rooms/views_fixed.py:102-114 | non-staff users get no data. The pending-payment count is the number of payments with status pending; it never exceeds the payments; it is zero exactly when no payment is pending and full exactly when all are. The pending-unpaid reservation count is the number of reservations that are pending and unpaid; it never exceeds the reservations; it is zero exactly when no reservation is both pending and unpaid, and full exactly when all are |
| `ViewsFixed.AdminEndpoint` | DjangoProject1/rooms/views_fixed.py:122-192 | each staff-only endpoint denies exactly the non-staff users and otherwise answers for the requested action; none takes the store, so none changes it |

## Findings

| source | as written | input that shows it | evidently intended | confidence | as-written member | corrected member |
|---|---|---|---|---|---|---|
| DjangoProject1/rooms/views.py:135 | after a valid form, create_reservation reads `cleaned_data['total_price']`. The form declares only room, start_time and end_time (forms.py:23), so the key is missing. The KeyError is caught at views.py:141, and no reservation is ever saved | available room 1, window 600-660, empty store: the form is accepted, yet the outcome is the save-failure message | save the accepted booking with a total price | high, not executed | Views.CreatePostAsWrittenNeverSaves | Store.ReservationBook.Create |
| DjangoProject1/rooms/views.py:91 | room_detail makes the same read outside its inner handler (views.py:94), so every accepted form ends in a server error (views.py:112-114) | the same request posted on room 1's page | save the accepted booking with a total price | high, not executed | Views.RoomDetailPostAsWrittenNeverSaves | Store.ReservationBook.BookFromPage |
| DjangoProject1/rooms/views.py:86-89 | the overlap check runs on the room chosen in the posted form, but the reservation is saved under the page's room | room 2 booked 600-660; on room 2's page the form selects room 1 for 630-690: room 1 is free, so the booking is stored on room 2 and overlaps | check the window against the room it is saved under | medium (hidden today by the previous row), not executed | Views.PageBookingCanDoubleBook | Store.ReservationBook.BookFromPage |

## Left out

- Store.ReservationBook.Create, Store.ReservationBook.BookFromPage: the total price is an input. The views read it from a form that never computes it, and no rate-times-duration formula exists in the code.
- Store.ReservationBook.CreatePending: views_fixed.py never assigns `total_price`, a non-null column. It also uses `ReservationForm` without importing it. Only the decision logic is modelled, and the price is an input as on the other paths.
- Forms.Validate: only the first error, in field order, is reported. The form itself collects one error per failing field.
- Views.RoomList: the filters arrive as numbers. A non-numeric query-string value, which makes the view answer with a server error, is not modelled.
- Views.MyReservations, ViewsFixed.MyReservations, Views.LatestFirst: reservations with equal start times keep their table order. The database leaves that order unspecified, so the contracts state only the sort order and the permutation.
- ViewsFixed.RoomList: names are compared by character code. The database's collation may order them differently.
- Views.InitialForm: times are whole minutes, so truncating seconds and microseconds is not modelled. Time zones are left out too.
- Money columns: whether an amount of more than 10 digits is refused at save depends on the database backend. The saves do not check it; only the column's range is stated (Models.FitsMoneyField).
- Payments: no handler in the core creates a payment. Store.ReservationBook.SavePayment models only what the declared constraints let the database accept.
- Status transitions (approve, reject, pay): the revised views answer these with placeholder pages that change nothing.
- Deleting a room, which cascades to its reservations, is not an operation of these views.
- The revised room_detail only looks up the room (Models.FindRoom). download_pdf and the PDF receipt utilities render through foreign libraries.
- Room images: file storage.
- Authentication, registration, login and logout; the separate admin application; generic admin CRUD views; CSV import/export; seeding and media scripts; URL routing; templates and flash messages. These are framework plumbing or I/O with no logic of their own.
- The race between the form's check and the save is concurrency. Each request is one atomic step here.
