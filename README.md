# Room-escape booking: the reservation lifecycle in Dafny

A model of the business layer of a Django room-escape booking app. Customers
book a theme for a time slot and pay. Staff check them in, complete the game
or mark a no-show. Owners may cancel and, once the game is completed, review
it. Staff can switch a theme between Ready and Maintenance.

The database is the class `Booking.Store`. Each table is a field:

- `members`, `reservations` and `payments` are sequences. Rows are only ever
  appended, and a row's id is its index.
- `branches`, `themes` and `reviews` are maps from id to row. Reviews can be
  deleted; new review ids come from `nextReviewId`.

Each request handler is one method of the class. It takes the requesting
member and, where it matters, the current time as parameters. Its `ensures`
gives the whole new state as a function of the old one. A failed request
returns `Err` with a `Failure` and leaves every table as it was.

The decision each handler takes before it writes is a pure function in
module `Rules` (`BookingCheck`, `CancelCheck`, `StaffCheck`, `ReviewCheck`,
`AuthorCheck`, `ToggleCheck`, `SignupCheck`, `CreateUserCheck`). Each one's
contract says exactly when the request passes. The status changes go through
one function, `Rules.Next`. Lemmas about `Next` and about a series of actions
(`Rules.Run`) state the lifecycle.

`Store.Valid()` is kept by every method. It says:

- `login_id` and `phone` are unique, and no `login_id` is empty;
- every reservation points at a theme of the catalog and at a member;
- at most one Confirmed or CheckedIn reservation exists per (theme, time);
- reservation `i` has exactly one payment. That payment is Paid and its
  amount is the reservation's total price;
- every review belongs to a Completed reservation owned by the review's
  author and has a rating in 1..5. A reservation has at most one review.

Module `Reports` covers two read-only queries. One is the theme-list filter.
The other is the monthly sales per branch, with its guard against dividing
by zero. `Models` holds the records, the status enumerations and their
stored codes, and the role-derived flags of `Member`.

Observations from the code:

- Completing a reservation has no status guard. A Cancelled or NoShow
  reservation can therefore be completed, and then reviewed. The model keeps
  this behaviour (`Rules.Next`, `Rules.OnlyCompleteLeavesAStatusButConfirmed`).
- The total price is `price × participants`. `discount_rate` is stored but
  never applied (`Rules.TotalPriceIgnoresDiscount`).
- Nothing on the server checks the participant count. The form's `min=1` is
  only an HTML widget attribute, so the model accepts any integer.
- Cancel and the confirmation page look the reservation up among the
  requester's own rows. A non-owner therefore gets "not found", not
  "forbidden".
- The clear time is overwritten only when one is supplied. Otherwise the
  stored value stays. A value of 0 minutes counts as supplied.
- The search parameter for sorting by review count is `reviews`, not
  `review_count`. Sorting is not part of this model.

## Model

| member | source | states |
|---|---|---|
| `Models.ParseRole` | booking/models.py:40-51 | only the four role codes are read back, each to the role that stores it |
| `Models.RoleCodeRoundTrip` | booking/models.py:40-45 | every role's stored code reads back as that role |
| `Models.StaffIsEveryRoleButCustomer` | booking/models.py:67-75 | `is_staff` holds for exactly the non-Customer roles; `is_superuser` (Admin) implies `is_staff` |
| `Models.IsStaff` | booking/models.py:67-70 | `is_staff` holds exactly for the roles other than Customer |
| `Models.IsSuperuser` | booking/models.py:72-75 | `is_superuser` holds exactly for Admin, and a superuser is staff |
| `Models.IsActive` | booking/models.py:77-80 | every member is active; there is no deactivation |
| `Models.HasPerm` | booking/models.py:83-84 | a permission is granted exactly to Admin, whatever permission or object is asked about |
| `Models.HasModulePerms` | booking/models.py:86-87 | module permissions are granted exactly to Admin, whatever app label is asked about |
| `Models.PermissionsIgnoreTheQuestion` | booking/models.py:72-87 | `has_perm` and `has_module_perms` agree with `is_superuser` for every argument |
| `Models.ParseThemeStatus` | booking/models.py:106-109 | only `Ready` and `Maintenance` are theme statuses |
| `Models.ThemeStatusCodeRoundTrip` | booking/models.py:106-109 | every theme status's code reads back as itself |
| `Models.ParseReservationStatus` | booking/models.py:134-140 | only the five reservation codes are read back, each to its own status |
| `Models.ReservationStatusCodeRoundTrip` | booking/models.py:134-140 | every reservation status's code reads back as itself |
| `Models.ReservationStatusIsClosed` | booking/models.py:134-140 | a code is a reservation status iff it is one of five distinct codes |
| `Models.NewReservation` | booking/models.py:143-151 | a new reservation belongs to its member, theme, time, party size and price, and takes the column defaults: Confirmed, 0 hints, no outcome and no clear time |
| `Models.NewReservationDefaults` | booking/models.py:148-151 | a new reservation is Confirmed, has 0 hints, and has no outcome or clear time yet |
| `Models.ParseIssueStatus` | booking/models.py:223-227 | only `Reported`, `InProgress` and `Resolved` are issue statuses |
| `Models.IssueStatusCodeRoundTrip` | booking/models.py:223-233 | every issue status's code reads back as itself; the default is Reported |
| `Rules.GatesFollowStaffFlags` | booking/views.py:466-467 | the staff gate (ThemeManager, BranchManager, Admin) admits exactly the `is_staff` roles; the branch gate admits BranchManager and Admin, a subset |
| `Rules.CreateUserCheck` | booking/models.py:10-21 | create_user passes iff the login id is non-empty and neither login id nor phone is in use; an empty login id is the ValueError |
| `Rules.AddingAnAccountKeepsThemUnique` | booking/models.py:48-50 | adding a member that passed create_user's check keeps login ids and phones unique |
| `Rules.SignupCheck` | booking/views.py:77-91 | sign-up passes iff all five fields are filled, the passwords match, and the login id and phone are free; then create_user cannot fail |
| `Rules.SlotTaken` | booking/views.py:170-174 | the slot query is true iff some Confirmed or CheckedIn reservation has that theme and time |
| `Rules.BookingProblems` | booking/views.py:166-182 | a past slot and a taken slot are each reported, both when both hold; there are no errors iff the slot is in the future and free |
| `Rules.BookingCheck` | booking/views.py:158-182 | booking passes iff the requester is signed in, the theme is active and Ready, the slot is not in the past, and the slot is free; an unbookable theme is "not found" |
| `Rules.TotalPrice` | booking/views.py:189 | a booking of no participants costs nothing; with a non-negative price, one or more participants cost at least the price |
| `Rules.TotalPriceIgnoresDiscount` | booking/views.py:189 | the total price does not depend on the discount rate; 30000 × 4 = 120000 |
| `Rules.SecondBookingOfASlotIsRefused` | booking/views.py:170-178 | while a reservation holds a slot, a booking of that slot reports it as taken |
| `Rules.BookingKeepsSlotsUnique` | booking/views.py:170-192 | adding a reservation whose slot is free keeps at most one holder per (theme, time) |
| `Rules.ReleasingKeepsSlotsUnique` | booking/views.py:471-473 | a status change that takes no new slot keeps at most one holder per (theme, time) |
| `Rules.Next` | booking/views.py:228-516 | no action leaves a reservation Confirmed; complete always gives Completed; cancel, check-in and no-show move only a Confirmed reservation, and never to Completed |
| `Rules.NoActionTakesASlot` | booking/views.py:465-516 | no action makes a reservation hold a slot it did not hold; cancel, check-in and no-show leave every non-Confirmed status unchanged |
| `Rules.ConfirmedIsNeverReentered` | booking/views.py:228-516 | once a reservation leaves Confirmed, no series of actions brings it back |
| `Rules.CompletedIsAbsorbing` | booking/views.py:465-516 | a Completed reservation stays Completed under every series of actions |
| `Rules.OnlyCompleteLeavesAStatusButConfirmed` | booking/views.py:465-516 | CheckedIn, Cancelled and NoShow change only through complete |
| `Rules.Finish` | booking/views.py:484-496 | completing sets Completed, the hints and the outcome; it stores the clear time in seconds (minutes × 60) only when given, otherwise keeps the old value; nothing else changes |
| `Rules.CancelCheck` | booking/views.py:231-235 | cancel passes iff the requester owns the reservation and it is Confirmed; a missing or foreign reservation is "not found" |
| `Rules.StaffCheck` | booking/views.py:466-469 | check-in, complete and no-show pass iff the requester has a staff role and the reservation exists; a wrong role is refused before the lookup |
| `Rules.ReviewOf` | booking/views.py:254-258 | finds the review of a reservation exactly when it has one |
| `Rules.ReviewCheck` | booking/views.py:246-266 | a review is created iff the requester owns the reservation, it is Completed, it has no review, and the rating is in 1..5; a non-owner is forbidden; an existing review redirects to that review |
| `Rules.AuthorCheck` | booking/views.py:569-572 | deleting a review passes iff the requester wrote it; anyone else is forbidden |
| `Rules.ReviewEditCheck` | booking/views.py:280-288 | updating a review passes iff the requester wrote it and the new rating is in 1..5 |
| `Rules.RatingOutOfRangeIsRefused` | booking/models.py:177-179 | a rating outside 1..5 (6, for example) is refused on create and on update |
| `Rules.Toggled` | booking/views.py:589-593 | toggling always changes the status: Ready becomes Maintenance, the other status becomes Ready |
| `Rules.ToggleTwiceRestores` | booking/views.py:589-596 | toggling twice gives back the original status, Ready in particular |
| `Rules.ToggleCheck` | booking/views.py:584-587 | the toggle passes iff the requester has a staff role and the theme exists |
| `Reports.ListedThemes` | booking/views.py:25-36 | every listed theme exists, is active and Ready, is of the chosen branch when one is chosen, and matches the search text in name or genre when one is given |
| `Reports.ListedThemesAreBookable` | booking/views.py:25-36 | every listed theme can be booked; with no search and no branch, the list is every bookable theme |
| `Reports.SearchByNameFindsTheme` | booking/views.py:30-36 | searching for a bookable theme's own name lists it, and so does filtering by its branch |
| `Reports.SearchIgnoresCase` | booking/views.py:30-34 | a search text that differs from a bookable theme's name only in the case of its letters lists that theme |
| `Reports.SearchFindsContainedText` | booking/views.py:30-36 | a bookable theme whose name or genre contains the search text anywhere, ignoring case, is listed, with or without the filter on its branch |
| `Reports.PaidSums` | booking/views.py:372-384 | at most one count per payment; an empty sum reads as total 0 |
| `Reports.MonthlySales` | booking/views.py:383-388 | with no payments the average is 0, never a division by zero; otherwise average × count = total |
| `Reports.PaidSumsAppend` | booking/views.py:372-380 | a new payment adds its amount and one to the count exactly when it is Paid, inside the days and for the branch |
| `Reports.BookingRecordsSale` | booking/views.py:184-199 | a booking paid inside the month raises its branch's total by the booking's price and its count by one; other branches are unchanged |
| `Reports.TwoPaymentsExample` | booking/views.py:383-394 | Paid payments of 10000 and 20000 give total 30000, count 2, average 15000; none give 0, 0, 0 |
| `Booking.Store.CreateUser` | booking/models.py:10-22 | appends the member on success; an empty login id or a duplicate key leaves the table unchanged; the invariant is kept |
| `Booking.Store.CreateSuperuser` | booking/models.py:24-32 | as create_user, and the new member is Admin, so superuser and staff |
| `Booking.Store.Signup` | booking/views.py:67-104 | a member is added with the Customer role exactly when the sign-up checks pass; otherwise nothing changes |
| `Booking.Store.CreateReservation` | booking/views.py:155-202 | on success it appends exactly one Confirmed reservation of the requester at `price × participants` and exactly one Paid payment of that amount; on failure it writes neither; the one-holder-per-slot invariant is kept |
| `Booking.Store.OwnReservation` | booking/views.py:216-226 | a reservation is shown iff the requester owns it |
| `Booking.Store.CancelReservation` | booking/views.py:228-241 | only the owner's Confirmed reservation becomes Cancelled; in every other case nothing changes |
| `Booking.Store.CheckIn` | booking/views.py:464-475 | staff move a Confirmed reservation to CheckedIn; any other status, and every other row, is left unchanged |
| `Booking.Store.MarkNoShow` | booking/views.py:505-516 | staff move a Confirmed reservation to NoShow; any other status, and every other row, is left unchanged |
| `Booking.Store.CompleteReservation` | booking/views.py:477-498 | staff complete a reservation from any status, storing the hints, the outcome and, if given, the clear time in seconds |
| `Booking.Store.CreateReview` | booking/views.py:244-267 | adds one review under a fresh id exactly when the review check passes; a reservation never gets a second review |
| `Booking.Store.UpdateReview` | booking/views.py:278-289 | only the author changes the rating and the comment, and only to a rating in 1..5 |
| `Booking.Store.DeleteReview` | booking/views.py:566-578 | only the author removes the review; nothing else changes |
| `Booking.Store.ToggleThemeStatus` | booking/views.py:580-598 | staff switch one theme between Ready and Maintenance; no other theme changes |
| `Booking.Store.BranchSales` | booking/views.py:355-395 | the branch-gated report has one row per active branch, equal to that branch's monthly sales |

## Left out

- Rendering, redirects, the `messages` framework and the HTTP-method
  decorators are not modelled. A handler's outcome is a `Result` value, and
  only the POST path of a form handler is modelled, because GET writes nothing.
- Authentication is not modelled: `authenticate`, `login`, `logout`, the
  password reset flow and password hashing (`set_password`). Sign-up compares
  the two passwords and stores none. `@login_required` becomes
  `Failure.LoginRequired` for a requester id that is not a member.
- `transaction.atomic` is not modelled, nor the race between the slot query
  and the insert. Requests run one after another, so the model does not
  capture two concurrent bookings both passing the slot check.
- The `try/except` around the inserts is not modelled. No insert can fail in
  the model once the checks have passed.
- Booking.Store.BranchSales: returns a map from branch id to row. The order
  of the list the source builds is not modelled. The average is an exact
  real, so the Decimal context's rounding is not modelled. The first and
  last day of the month are parameters, because the calendar arithmetic of
  `month_end`/`week_end` is not modelled.
- The other aggregate queries are not modelled. These are the average rating
  and review count on the theme list, the sort orders of the list, the daily
  status counts of the theme dashboard, the top-10 themes and the weekly
  schedule list. They are database aggregates and orderings.
- `Reports.ListedThemes` folds case only for ASCII letters. Unicode case
  folding is not available. A non-numeric `branch` parameter is not modelled.
- Form parsing is not modelled. `hint_count` and the clear time arrive as
  integers, and a missing or empty clear time is `None`. The non-numeric
  strings on which `int(...)` would raise are not modelled.
- `Member.role` is one of the four declared choices. The column itself would
  accept any string passed to `create_user`.
- `Booking.Store.CreateUser` takes the role as a required argument. The
  source defaults it to Customer, but every caller passes a role.
- Column widths and decimal precision are not modelled: `max_length`, and
  `max_digits` on prices and amounts. Integers are unbounded.
- Creation timestamps are not modelled: `created_at`, `reported_at`, and
  `last_login`. `Payment.paid_at` is the `now` of the booking.
- Theme detail, the member page and the notice list are read-only queries
  and are not modelled. Issue and schedule creation are not modelled either:
  they save a form behind a role gate. An issue's initial status is
  `Models.DefaultIssueStatus`.
- `branch_theme_update_view` is not modelled. On its Admin path it saves a
  theme's price, discount rate, status and active flag from a form, so the
  model does not capture those edits. Its BranchManager path looks up a
  `BranchAssignment` model that booking/models.py does not define, so that
  path cannot complete.
- The theme difficulty validator is stated (`Models.ValidDifficulty`) but no
  operation checks it. A theme's difficulty is edited only through the admin
  site, which is not part of this model.
- booking/forms.py, booking/admin.py and the URL configuration are not part of
  this model: they hold widgets, admin registration and routing.
