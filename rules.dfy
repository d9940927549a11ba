/**
 * The decisions the request handlers of booking/views.py take before they
 * write: the role gates, one guard per action (which failure a request ends
 * with, in the order the handler checks), the slot-conflict query, the status
 * transitions, and the invariants over the tables that these rules keep.
 */
module Rules {
  import opened Models

  /** What a form reports back without writing anything. */
  datatype Problem =
    | MissingField
    | PasswordMismatch
    | LoginIdInUse
    | PhoneInUse
    | PastSlot
    | SlotBooked
    | RatingOutOfRange

  /** How a request ends when it writes nothing. */
  datatype Failure =
    | LoginRequired                     // no member is signed in
    | Forbidden                         // PermissionDenied
    | NotFound                          // Http404, get_object_or_404
    | Invalid(problems: seq<Problem>)   // the form is shown again with these errors
    | NotCancellable                    // cancel of a reservation that is not Confirmed
    | AlreadyReviewed(review: ReviewId) // redirect to the update page of that review
    | MissingLoginId                    // ValueError raised by create_user
    | DuplicateKey                      // a unique column refused the insert

  datatype Result<T> = Ok(value: T) | Err(failure: Failure)

  datatype Check = Pass | Fail(failure: Failure)

  // ----------------------------------------------------------------------
  // Who is asking
  // ----------------------------------------------------------------------

  predicate SignedIn(members: seq<Member>, who: MemberId)
  {
    who < |members|
  }

  /** The gate of check-in, complete, no-show, the theme toggle and the theme dashboard. */
  predicate ManagesThemes(role: Role)
  {
    role in {ThemeManager, BranchManager, Admin}
  }

  /** The gate of the branch dashboard, branch theme update and schedule creation. */
  predicate ManagesBranches(role: Role)
  {
    role in {BranchManager, Admin}
  }

  lemma GatesFollowStaffFlags(role: Role)
    ensures ManagesThemes(role) <==> IsStaff(role)
    ensures ManagesBranches(role) ==> ManagesThemes(role)
    ensures ManagesBranches(role) <==> role == BranchManager || IsSuperuser(role)
  {
  }

  // ----------------------------------------------------------------------
  // Accounts
  // ----------------------------------------------------------------------

  predicate LoginIdTaken(members: seq<Member>, loginId: string)
  {
    exists i :: 0 <= i < |members| && members[i].loginId == loginId
  }

  predicate PhoneTaken(members: seq<Member>, phone: string)
  {
    exists i :: 0 <= i < |members| && members[i].phone == phone
  }

  /** The unique constraints on `login_id` and `phone`, and create_user's non-empty login_id. */
  predicate AccountsUnique(members: seq<Member>)
  {
    && (forall i :: 0 <= i < |members| ==> members[i].loginId != "")
    && (forall i, j :: 0 <= i < j < |members| ==>
          members[i].loginId != members[j].loginId && members[i].phone != members[j].phone)
  }

  /** create_user, then the insert: an empty login_id raises, a duplicate key is refused. */
  function CreateUserCheck(members: seq<Member>, loginId: string, phone: string): (c: Check)
    ensures c == Pass <==> loginId != "" && !LoginIdTaken(members, loginId) && !PhoneTaken(members, phone)
    ensures c == Fail(MissingLoginId) <==> loginId == ""
  {
    if loginId == "" then Fail(MissingLoginId)
    else if LoginIdTaken(members, loginId) || PhoneTaken(members, phone) then Fail(DuplicateKey)
    else Pass
  }

  lemma {:induction false} AddingAnAccountKeepsThemUnique(members: seq<Member>, m: Member)
    requires AccountsUnique(members)
    requires CreateUserCheck(members, m.loginId, m.phone) == Pass
    ensures AccountsUnique(members + [m])
  {
    var ms := members + [m];
    forall i, j | 0 <= i < j < |ms|
      ensures ms[i].loginId != ms[j].loginId && ms[i].phone != ms[j].phone
    {
      if j == |members| {
        assert ms[i] == members[i];
      }
    }
  }

  /**
   * The sign-up form: every field filled in, the two passwords equal, and
   * neither the login id nor the phone number in use; checked in that order.
   */
  function SignupCheck(members: seq<Member>, loginId: string, password: string, passwordConfirm: string,
                       name: string, phone: string): (c: Check)
    ensures c == Pass <==>
      && loginId != "" && password != "" && passwordConfirm != "" && name != "" && phone != ""
      && password == passwordConfirm
      && !LoginIdTaken(members, loginId) && !PhoneTaken(members, phone)
    ensures c == Pass ==> CreateUserCheck(members, loginId, phone) == Pass
    ensures c.Fail? ==> c.failure.Invalid? && |c.failure.problems| == 1
  {
    if loginId == "" || password == "" || passwordConfirm == "" || name == "" || phone == "" then
      Fail(Invalid([MissingField]))
    else if password != passwordConfirm then Fail(Invalid([PasswordMismatch]))
    else if LoginIdTaken(members, loginId) then Fail(Invalid([LoginIdInUse]))
    else if PhoneTaken(members, phone) then Fail(Invalid([PhoneInUse]))
    else Pass
  }

  // ----------------------------------------------------------------------
  // Booking a slot
  // ----------------------------------------------------------------------

  /** The statuses that keep a (theme, time) slot booked. */
  predicate HoldsSlot(s: ReservationStatus)
  {
    s == Confirmed || s == CheckedIn
  }

  /** The existence query for a Confirmed or CheckedIn reservation of that theme at that time. */
  function SlotTaken(rs: seq<Reservation>, theme: ThemeId, time: Time): (taken: bool)
    ensures taken <==> exists i :: 0 <= i < |rs| && rs[i].theme == theme && rs[i].time == time && HoldsSlot(rs[i].status)
    decreases |rs|
  {
    if rs == [] then false
    else
      var rest := SlotTaken(rs[1..], theme, time);
      assert forall i :: 1 <= i < |rs| ==> rs[i] == rs[1..][i - 1];
      (rs[0].theme == theme && rs[0].time == time && HoldsSlot(rs[0].status)) || rest
  }

  /** A theme that can be booked: active and Ready. */
  predicate Bookable(themes: map<ThemeId, Theme>, id: ThemeId)
  {
    id in themes && themes[id].isActive && themes[id].status == Ready
  }

  /** Both errors are collected before the form is refused. */
  function BookingProblems(rs: seq<Reservation>, theme: ThemeId, time: Time, now: Time): (ps: seq<Problem>)
    ensures PastSlot in ps <==> time < now
    ensures SlotBooked in ps <==> SlotTaken(rs, theme, time)
    ensures ps == [] <==> now <= time && !SlotTaken(rs, theme, time)
    ensures forall p :: p in ps ==> p == PastSlot || p == SlotBooked
  {
    (if time < now then [PastSlot] else []) + (if SlotTaken(rs, theme, time) then [SlotBooked] else [])
  }

  function BookingCheck(members: seq<Member>, themes: map<ThemeId, Theme>, rs: seq<Reservation>,
                        who: MemberId, theme: ThemeId, time: Time, now: Time): (c: Check)
    ensures c == Pass <==>
      SignedIn(members, who) && Bookable(themes, theme) && now <= time && !SlotTaken(rs, theme, time)
    ensures c == Fail(NotFound) <==> SignedIn(members, who) && !Bookable(themes, theme)
    ensures c.Fail? && c.failure.Invalid? ==> c.failure.problems == BookingProblems(rs, theme, time, now)
  {
    if !SignedIn(members, who) then Fail(LoginRequired)
    else if !Bookable(themes, theme) then Fail(NotFound)
    else if BookingProblems(rs, theme, time, now) != [] then Fail(Invalid(BookingProblems(rs, theme, time, now)))
    else Pass
  }

  /** The price of a booking: the theme's price per participant; the discount rate is not applied. */
  function TotalPrice(t: Theme, participants: int): (total: int)
    ensures participants == 0 ==> total == 0
    ensures t.price >= 0 && participants >= 1 ==> total >= t.price
  {
    t.price * participants
  }

  lemma TotalPriceIgnoresDiscount(t: Theme, participants: int, rate: real)
    ensures TotalPrice(t.(discountRate := rate), participants) == TotalPrice(t, participants)
    ensures t.price == 30000 ==> TotalPrice(t, 4) == 120000
  {
  }

  /** At most one Confirmed or CheckedIn reservation per (theme, time). */
  predicate SlotsUnique(rs: seq<Reservation>)
  {
    forall i, j :: 0 <= i < |rs| && 0 <= j < |rs| && i != j && HoldsSlot(rs[i].status) && HoldsSlot(rs[j].status) ==>
      rs[i].theme != rs[j].theme || rs[i].time != rs[j].time
  }

  lemma SecondBookingOfASlotIsRefused(rs: seq<Reservation>, i: nat, now: Time)
    requires i < |rs| && HoldsSlot(rs[i].status)
    ensures SlotBooked in BookingProblems(rs, rs[i].theme, rs[i].time, now)
  {
  }

  lemma {:induction false} BookingKeepsSlotsUnique(rs: seq<Reservation>, r: Reservation)
    requires SlotsUnique(rs)
    requires !SlotTaken(rs, r.theme, r.time)
    ensures SlotsUnique(rs + [r])
  {
    var rs' := rs + [r];
    forall i, j | 0 <= i < |rs'| && 0 <= j < |rs'| && i != j && HoldsSlot(rs'[i].status) && HoldsSlot(rs'[j].status)
      ensures rs'[i].theme != rs'[j].theme || rs'[i].time != rs'[j].time
    {
      if i == |rs| {
        assert rs'[j] == rs[j];
      } else if j == |rs| {
        assert rs'[i] == rs[i];
      } else {
        assert rs'[i] == rs[i] && rs'[j] == rs[j];
      }
    }
  }

  /** Replacing one reservation keeps the slots unique if it keeps its slot and takes no new one. */
  lemma {:induction false} ReleasingKeepsSlotsUnique(rs: seq<Reservation>, i: nat, r: Reservation)
    requires SlotsUnique(rs) && i < |rs|
    requires r.theme == rs[i].theme && r.time == rs[i].time
    requires HoldsSlot(r.status) ==> HoldsSlot(rs[i].status)
    ensures SlotsUnique(rs[i := r])
  {
    var rs' := rs[i := r];
    forall a, b | 0 <= a < |rs'| && 0 <= b < |rs'| && a != b && HoldsSlot(rs'[a].status) && HoldsSlot(rs'[b].status)
      ensures rs'[a].theme != rs'[b].theme || rs'[a].time != rs'[b].time
    {
      assert HoldsSlot(rs[a].status) && HoldsSlot(rs[b].status);
    }
  }

  // ----------------------------------------------------------------------
  // Status transitions
  // ----------------------------------------------------------------------

  datatype Action = Cancel | CheckIn | MarkNoShow | Complete

  /**
   * The status after an action: cancel, check-in and no-show move only a
   * Confirmed reservation; complete moves every status, Cancelled included.
   */
  function Next(s: ReservationStatus, a: Action): (t: ReservationStatus)
    ensures t != Confirmed
    ensures a == Complete ==> t == Completed
    ensures a != Complete && s != Confirmed ==> t == s
    ensures a != Complete && s == Confirmed ==> t != Completed
  {
    match a
    case Cancel => if s == Confirmed then Cancelled else s
    case CheckIn => if s == Confirmed then CheckedIn else s
    case MarkNoShow => if s == Confirmed then NoShow else s
    case Complete => Completed
  }

  /** The status after a series of actions. */
  function Run(s: ReservationStatus, acts: seq<Action>): ReservationStatus
    decreases |acts|
  {
    if acts == [] then s else Run(Next(s, acts[0]), acts[1..])
  }

  lemma NoActionTakesASlot(s: ReservationStatus, a: Action)
    ensures HoldsSlot(Next(s, a)) ==> HoldsSlot(s)
    ensures Next(s, a) == Confirmed ==> s == Confirmed
    ensures a != Complete && s != Confirmed ==> Next(s, a) == s
  {
  }

  /** Confirmed is the only initial status: once left, no series of actions returns to it. */
  lemma {:induction false} ConfirmedIsNeverReentered(s: ReservationStatus, acts: seq<Action>)
    requires s != Confirmed
    ensures Run(s, acts) != Confirmed
    decreases |acts|
  {
    if acts != [] {
      NoActionTakesASlot(s, acts[0]);
      ConfirmedIsNeverReentered(Next(s, acts[0]), acts[1..]);
    }
  }

  lemma {:induction false} CompletedIsAbsorbing(acts: seq<Action>)
    ensures Run(Completed, acts) == Completed
    decreases |acts|
  {
    if acts != [] {
      CompletedIsAbsorbing(acts[1..]);
    }
  }

  /** Cancelled, NoShow and CheckedIn change only through complete. */
  lemma {:induction false} OnlyCompleteLeavesAStatusButConfirmed(s: ReservationStatus, acts: seq<Action>)
    requires s != Confirmed
    requires Complete !in acts
    ensures Run(s, acts) == s
    decreases |acts|
  {
    if acts != [] {
      assert acts[0] != Complete;
      assert forall a :: a in acts[1..] ==> a in acts;
      OnlyCompleteLeavesAStatusButConfirmed(Next(s, acts[0]), acts[1..]);
    }
  }

  /** Completing the stored results: clear time is given in minutes and kept in seconds. */
  function Finish(r: Reservation, hints: int, success: bool, clearMinutes: Option<int>): (done: Reservation)
    ensures done.status == Completed
    ensures done.hintCount == hints && done.isSuccess == Some(success)
    ensures clearMinutes.Some? ==> done.clearTime == Some(clearMinutes.value * SecondsPerMinute)
    ensures clearMinutes.None? ==> done.clearTime == r.clearTime
    ensures done.(status := r.status, hintCount := r.hintCount, isSuccess := r.isSuccess, clearTime := r.clearTime) == r
  {
    r.(status := Next(r.status, Complete),
       hintCount := hints,
       isSuccess := Some(success),
       clearTime := if clearMinutes.Some? then Some(clearMinutes.value * SecondsPerMinute) else r.clearTime)
  }

  predicate OwnedBy(rs: seq<Reservation>, id: ReservationId, who: MemberId)
  {
    id < |rs| && rs[id].member == Some(who)
  }

  /** Cancel looks the reservation up among the requester's own, then demands Confirmed. */
  function CancelCheck(members: seq<Member>, rs: seq<Reservation>, who: MemberId, id: ReservationId): (c: Check)
    ensures c == Pass <==> SignedIn(members, who) && OwnedBy(rs, id, who) && rs[id].status == Confirmed
    ensures c == Fail(NotFound) <==> SignedIn(members, who) && !OwnedBy(rs, id, who)
  {
    if !SignedIn(members, who) then Fail(LoginRequired)
    else if !OwnedBy(rs, id, who) then Fail(NotFound)
    else if rs[id].status != Confirmed then Fail(NotCancellable)
    else Pass
  }

  /** Check-in, complete and no-show: the role gate comes before the lookup. */
  function StaffCheck(members: seq<Member>, rs: seq<Reservation>, who: MemberId, id: ReservationId): (c: Check)
    ensures c == Pass <==> SignedIn(members, who) && ManagesThemes(members[who].role) && id < |rs|
    ensures c == Fail(Forbidden) <==> SignedIn(members, who) && !ManagesThemes(members[who].role)
  {
    if !SignedIn(members, who) then Fail(LoginRequired)
    else if !ManagesThemes(members[who].role) then Fail(Forbidden)
    else if id >= |rs| then Fail(NotFound)
    else Pass
  }

  // ----------------------------------------------------------------------
  // Reviews
  // ----------------------------------------------------------------------

  /** The one-to-one link from a review to its reservation. */
  predicate ReviewedAtMostOnce(reviews: map<ReviewId, Review>)
  {
    forall k1, k2 :: k1 in reviews && k2 in reviews && reviews[k1].reservation == reviews[k2].reservation ==> k1 == k2
  }

  /** `reservation.review`: the review of a reservation, if it has one. */
  function ReviewOf(reviews: map<ReviewId, Review>, id: ReservationId): (found: Option<ReviewId>)
    requires ReviewedAtMostOnce(reviews)
    ensures found.Some? ==> found.value in reviews && reviews[found.value].reservation == id
    ensures found.None? ==> forall k :: k in reviews ==> reviews[k].reservation != id
  {
    if exists k :: k in reviews && reviews[k].reservation == id then
      var k :| k in reviews && reviews[k].reservation == id;
      Some(k)
    else
      None
  }

  /**
   * Creating a review: the reservation must exist, be the requester's own and
   * be Completed; an existing review sends the requester to update it; the
   * rating must lie in 1..5.
   */
  function ReviewCheck(members: seq<Member>, rs: seq<Reservation>, reviews: map<ReviewId, Review>,
                       who: MemberId, id: ReservationId, rating: int): (c: Check)
    requires ReviewedAtMostOnce(reviews)
    ensures c == Pass <==>
      && SignedIn(members, who) && OwnedBy(rs, id, who) && rs[id].status == Completed
      && ReviewOf(reviews, id).None? && InOneToFive(rating)
    ensures c == Fail(Forbidden) <==> SignedIn(members, who) && id < |rs| && rs[id].member != Some(who)
    ensures c.Fail? && c.failure.AlreadyReviewed? ==>
      c.failure.review in reviews && reviews[c.failure.review].reservation == id && OwnedBy(rs, id, who)
    ensures SignedIn(members, who) && OwnedBy(rs, id, who) && rs[id].status == Completed && ReviewOf(reviews, id).Some? ==>
      c == Fail(AlreadyReviewed(ReviewOf(reviews, id).value))
  {
    if !SignedIn(members, who) then Fail(LoginRequired)
    else if id >= |rs| then Fail(NotFound)
    else if rs[id].member != Some(who) then Fail(Forbidden)
    else if rs[id].status != Completed then Fail(NotFound)
    else if ReviewOf(reviews, id).Some? then Fail(AlreadyReviewed(ReviewOf(reviews, id).value))
    else if !InOneToFive(rating) then Fail(Invalid([RatingOutOfRange]))
    else Pass
  }

  /** Updating or deleting a review: only its author. */
  function AuthorCheck(members: seq<Member>, reviews: map<ReviewId, Review>, who: MemberId, reviewId: ReviewId): (c: Check)
    ensures c == Pass <==> SignedIn(members, who) && reviewId in reviews && reviews[reviewId].member == Some(who)
    ensures c == Fail(Forbidden) <==> SignedIn(members, who) && reviewId in reviews && reviews[reviewId].member != Some(who)
  {
    if !SignedIn(members, who) then Fail(LoginRequired)
    else if reviewId !in reviews then Fail(NotFound)
    else if reviews[reviewId].member != Some(who) then Fail(Forbidden)
    else Pass
  }

  /** Updating a review also validates the new rating. */
  function ReviewEditCheck(members: seq<Member>, reviews: map<ReviewId, Review>, who: MemberId, reviewId: ReviewId,
                           rating: int): (c: Check)
    ensures c == Pass <==> AuthorCheck(members, reviews, who, reviewId) == Pass && InOneToFive(rating)
  {
    if AuthorCheck(members, reviews, who, reviewId).Fail? then AuthorCheck(members, reviews, who, reviewId)
    else if !InOneToFive(rating) then Fail(Invalid([RatingOutOfRange]))
    else Pass
  }

  /** A rating outside 1..5 (6, say) is refused on creation and on update alike. */
  lemma RatingOutOfRangeIsRefused(members: seq<Member>, rs: seq<Reservation>, reviews: map<ReviewId, Review>,
                                  who: MemberId, id: ReservationId, reviewId: ReviewId, rating: int)
    requires ReviewedAtMostOnce(reviews)
    requires rating < 1 || 5 < rating
    ensures ReviewCheck(members, rs, reviews, who, id, rating) != Pass
    ensures ReviewEditCheck(members, reviews, who, reviewId, rating) != Pass
  {
  }

  /** Every review belongs to a Completed reservation, is its owner's, has a valid rating, and is its only one. */
  predicate ReviewsConsistent(reviews: map<ReviewId, Review>, rs: seq<Reservation>, nextReviewId: nat)
  {
    && ReviewedAtMostOnce(reviews)
    && forall k :: k in reviews ==>
         && k < nextReviewId
         && reviews[k].reservation < |rs|
         && rs[reviews[k].reservation].status == Completed
         && reviews[k].member == rs[reviews[k].reservation].member
         && ValidRating(reviews[k])
  }

  // ----------------------------------------------------------------------
  // Theme maintenance
  // ----------------------------------------------------------------------

  /** Ready becomes Maintenance; any other status becomes Ready. */
  function Toggled(s: ThemeStatus): (t: ThemeStatus)
    ensures t != s
  {
    if s == Ready then Maintenance else Ready
  }

  lemma ToggleTwiceRestores(s: ThemeStatus)
    ensures Toggled(Toggled(s)) == s
    ensures Toggled(Toggled(Ready)) == Ready
  {
  }

  function ToggleCheck(members: seq<Member>, themes: map<ThemeId, Theme>, who: MemberId, id: ThemeId): (c: Check)
    ensures c == Pass <==> SignedIn(members, who) && ManagesThemes(members[who].role) && id in themes
    ensures c == Fail(Forbidden) <==> SignedIn(members, who) && !ManagesThemes(members[who].role)
  {
    if !SignedIn(members, who) then Fail(LoginRequired)
    else if !ManagesThemes(members[who].role) then Fail(Forbidden)
    else if id !in themes then Fail(NotFound)
    else Pass
  }

  // ----------------------------------------------------------------------
  // Table invariants
  // ----------------------------------------------------------------------

  /** Every reservation points at a theme of the catalog and at a member. */
  predicate ReservationsLinked(rs: seq<Reservation>, memberCount: nat, themes: map<ThemeId, Theme>)
  {
    forall i :: 0 <= i < |rs| ==> rs[i].theme in themes && rs[i].member.Some? && rs[i].member.value < memberCount
  }

  /** One Paid payment per reservation, of its total price, created with it. */
  predicate PaymentsMatch(rs: seq<Reservation>, ps: seq<Payment>)
  {
    && |ps| == |rs|
    && forall i :: 0 <= i < |ps| ==>
         ps[i].reservation == i && ps[i].amount == rs[i].totalPrice && ps[i].status == PaidStatus
  }
}
