/**
 * The tables the booking app reads and writes, and one method per action:
 * the member manager's create_user and create_superuser (booking/models.py)
 * and the sign-up, reservation, staff, review and theme-toggle handlers
 * (booking/views.py). Only the POST path of a handler is modelled; the
 * requesting member and the current time are parameters.
 *
 * Append-only tables (members, reservations, payments) are sequences whose
 * index is the row's id; the catalog and the reviews are maps from id to row.
 */
module Booking {
  import opened Models
  import opened Rules
  import Reports

  class Store {
    var members: seq<Member>
    var branches: map<BranchId, Branch>
    var themes: map<ThemeId, Theme>
    var reservations: seq<Reservation>
    var payments: seq<Payment>
    var reviews: map<ReviewId, Review>
    var nextReviewId: nat

    ghost predicate Valid()
      reads this
    {
      && AccountsUnique(members)
      && ReservationsLinked(reservations, |members|, themes)
      && SlotsUnique(reservations)
      && PaymentsMatch(reservations, payments)
      && ReviewsConsistent(reviews, reservations, nextReviewId)
    }

    /** An empty store over a given catalog (branches and themes are maintained elsewhere). */
    constructor (branches: map<BranchId, Branch>, themes: map<ThemeId, Theme>)
      ensures Valid()
      ensures this.branches == branches && this.themes == themes
      ensures members == [] && reservations == [] && payments == [] && reviews == map[]
    {
      this.branches := branches;
      this.themes := themes;
      members := [];
      reservations := [];
      payments := [];
      reviews := map[];
      nextReviewId := 0;
    }

    // --------------------------------------------------------------------
    // Members
    // --------------------------------------------------------------------

    /**
     * MemberManager.create_user: the new member's id, or why it was refused.
     * The role is always passed; the source's default of Customer is not used
     * by any caller.
     */
    method CreateUser(loginId: string, name: string, phone: string, role: Role) returns (r: Result<MemberId>)
      requires Valid()
      modifies this
      ensures Valid()
      ensures branches == old(branches) && themes == old(themes) && reservations == old(reservations)
      ensures payments == old(payments) && reviews == old(reviews) && nextReviewId == old(nextReviewId)
      ensures var c := CreateUserCheck(old(members), loginId, phone);
        if c.Fail? then r == Err(c.failure) && members == old(members)
        else r == Ok(|old(members)|) && members == old(members) + [Member(loginId, name, phone, role)]
    {
      var c := CreateUserCheck(members, loginId, phone);
      if c.Fail? {
        return Err(c.failure);
      }
      AddingAnAccountKeepsThemUnique(members, Member(loginId, name, phone, role));
      r := Ok(|members|);
      members := members + [Member(loginId, name, phone, role)];
    }

    /** MemberManager.create_superuser: create_user with the Admin role. */
    method CreateSuperuser(loginId: string, name: string, phone: string) returns (r: Result<MemberId>)
      requires Valid()
      modifies this
      ensures Valid()
      ensures branches == old(branches) && themes == old(themes) && reservations == old(reservations)
      ensures payments == old(payments) && reviews == old(reviews) && nextReviewId == old(nextReviewId)
      ensures var c := CreateUserCheck(old(members), loginId, phone);
        if c.Fail? then r == Err(c.failure) && members == old(members)
        else r == Ok(|old(members)|) && members == old(members) + [Member(loginId, name, phone, Admin)]
      ensures r.Ok? ==> IsSuperuser(members[r.value].role) && IsStaff(members[r.value].role)
    {
      r := CreateUser(loginId, name, phone, Admin);
    }

    /** signup_view: the form's checks, then create_user with the Customer role (the login is not modelled). */
    method Signup(loginId: string, password: string, passwordConfirm: string, name: string, phone: string)
      returns (r: Result<MemberId>)
      requires Valid()
      modifies this
      ensures Valid()
      ensures branches == old(branches) && themes == old(themes) && reservations == old(reservations)
      ensures payments == old(payments) && reviews == old(reviews) && nextReviewId == old(nextReviewId)
      ensures var c := SignupCheck(old(members), loginId, password, passwordConfirm, name, phone);
        if c.Fail? then r == Err(c.failure) && members == old(members)
        else r == Ok(|old(members)|) && members == old(members) + [Member(loginId, name, phone, Customer)]
    {
      var c := SignupCheck(members, loginId, password, passwordConfirm, name, phone);
      if c.Fail? {
        return Err(c.failure);
      }
      r := CreateUser(loginId, name, phone, Customer);
    }

    // --------------------------------------------------------------------
    // Reservations
    // --------------------------------------------------------------------

    /**
     * reservation_create_view: on success one Confirmed reservation of the
     * requester and one Paid payment of the same amount are appended;
     * otherwise neither table changes.
     */
    method CreateReservation(who: MemberId, theme: ThemeId, time: Time, participants: int, now: Time)
      returns (r: Result<ReservationId>)
      requires Valid()
      modifies this
      ensures Valid()
      ensures members == old(members) && branches == old(branches) && themes == old(themes)
      ensures reviews == old(reviews) && nextReviewId == old(nextReviewId)
      ensures var c := BookingCheck(old(members), themes, old(reservations), who, theme, time, now);
        if c.Fail? then
          r == Err(c.failure) && reservations == old(reservations) && payments == old(payments)
        else
          var total := TotalPrice(themes[theme], participants);
          && r == Ok(|old(reservations)|)
          && reservations == old(reservations) + [NewReservation(who, theme, time, participants, total)]
          && payments == old(payments) + [Payment(r.value, VirtualCard, total, PaidStatus, now)]
    {
      var c := BookingCheck(members, themes, reservations, who, theme, time, now);
      if c.Fail? {
        return Err(c.failure);
      }
      var total := TotalPrice(themes[theme], participants);
      var booking := NewReservation(who, theme, time, participants, total);
      BookingKeepsSlotsUnique(reservations, booking);
      r := Ok(|reservations|);
      reservations := reservations + [booking];
      payments := payments + [Payment(r.value, VirtualCard, total, PaidStatus, now)];
    }

    /** reservation_complete_view: a reservation is shown only to its owner. */
    function OwnReservation(who: MemberId, id: ReservationId): (r: Result<Reservation>)
      reads this
      ensures r.Ok? <==> SignedIn(members, who) && OwnedBy(reservations, id, who)
      ensures r.Ok? ==> r.value == reservations[id] && r.value.member == Some(who)
    {
      if !SignedIn(members, who) then Err(LoginRequired)
      else if !OwnedBy(reservations, id, who) then Err(NotFound)
      else Ok(reservations[id])
    }

    /** reservation_cancel_view: the owner moves a Confirmed reservation to Cancelled. */
    method CancelReservation(who: MemberId, id: ReservationId) returns (r: Result<()>)
      requires Valid()
      modifies this
      ensures Valid()
      ensures members == old(members) && branches == old(branches) && themes == old(themes)
      ensures payments == old(payments) && reviews == old(reviews) && nextReviewId == old(nextReviewId)
      ensures var c := CancelCheck(members, old(reservations), who, id);
        if c.Fail? then r == Err(c.failure) && reservations == old(reservations)
        else r == Ok(()) && reservations == old(reservations)[id := old(reservations)[id].(status := Cancelled)]
    {
      var c := CancelCheck(members, reservations, who, id);
      if c.Fail? {
        return Err(c.failure);
      }
      var updated := reservations[id].(status := Next(reservations[id].status, Cancel));
      ReleasingKeepsSlotsUnique(reservations, id, updated);
      reservations := reservations[id := updated];
      r := Ok(());
    }

    /**
     * checkin_update_view and noshow_update_view: staff move a Confirmed
     * reservation on; any other status is left as it is. The result says
     * whether the status changed.
     */
    method StaffUpdate(who: MemberId, id: ReservationId, action: Action) returns (r: Result<bool>)
      requires Valid()
      requires action == Rules.CheckIn || action == Rules.MarkNoShow
      modifies this
      ensures Valid()
      ensures members == old(members) && branches == old(branches) && themes == old(themes)
      ensures payments == old(payments) && reviews == old(reviews) && nextReviewId == old(nextReviewId)
      ensures var c := StaffCheck(members, old(reservations), who, id);
        if c.Fail? then r == Err(c.failure) && reservations == old(reservations)
        else
          && r == Ok(old(reservations)[id].status == Confirmed)
          && reservations == old(reservations)[id := old(reservations)[id].(status := Next(old(reservations)[id].status, action))]
    {
      var c := StaffCheck(members, reservations, who, id);
      if c.Fail? {
        return Err(c.failure);
      }
      r := Ok(reservations[id].status == Confirmed);
      var updated := reservations[id].(status := Next(reservations[id].status, action));
      NoActionTakesASlot(reservations[id].status, action);
      ReleasingKeepsSlotsUnique(reservations, id, updated);
      reservations := reservations[id := updated];
    }

    /** checkin_update_view: Confirmed becomes CheckedIn. */
    method CheckIn(who: MemberId, id: ReservationId) returns (r: Result<bool>)
      requires Valid()
      modifies this
      ensures Valid()
      ensures members == old(members) && branches == old(branches) && themes == old(themes)
      ensures payments == old(payments) && reviews == old(reviews) && nextReviewId == old(nextReviewId)
      ensures var c := StaffCheck(members, old(reservations), who, id);
        if c.Fail? then r == Err(c.failure) && reservations == old(reservations)
        else if old(reservations)[id].status == Confirmed then
          r == Ok(true) && reservations == old(reservations)[id := old(reservations)[id].(status := CheckedIn)]
        else
          r == Ok(false) && reservations == old(reservations)
    {
      r := StaffUpdate(who, id, Rules.CheckIn);
    }

    /** noshow_update_view: Confirmed becomes NoShow. */
    method MarkNoShow(who: MemberId, id: ReservationId) returns (r: Result<bool>)
      requires Valid()
      modifies this
      ensures Valid()
      ensures members == old(members) && branches == old(branches) && themes == old(themes)
      ensures payments == old(payments) && reviews == old(reviews) && nextReviewId == old(nextReviewId)
      ensures var c := StaffCheck(members, old(reservations), who, id);
        if c.Fail? then r == Err(c.failure) && reservations == old(reservations)
        else if old(reservations)[id].status == Confirmed then
          r == Ok(true) && reservations == old(reservations)[id := old(reservations)[id].(status := NoShow)]
        else
          r == Ok(false) && reservations == old(reservations)
    {
      r := StaffUpdate(who, id, Rules.MarkNoShow);
    }

    /**
     * complete_reservation_view (POST): whatever its status, the reservation
     * becomes Completed with the given hints and outcome; the clear time,
     * given in minutes, is stored in seconds only when one is supplied.
     */
    method CompleteReservation(who: MemberId, id: ReservationId, hints: int, success: bool, clearMinutes: Option<int>)
      returns (r: Result<()>)
      requires Valid()
      modifies this
      ensures Valid()
      ensures members == old(members) && branches == old(branches) && themes == old(themes)
      ensures payments == old(payments) && reviews == old(reviews) && nextReviewId == old(nextReviewId)
      ensures var c := StaffCheck(members, old(reservations), who, id);
        if c.Fail? then r == Err(c.failure) && reservations == old(reservations)
        else
          && r == Ok(())
          && reservations == old(reservations)[id := Finish(old(reservations)[id], hints, success, clearMinutes)]
          && reservations[id].hintCount == hints && reservations[id].isSuccess == Some(success)
    {
      var c := StaffCheck(members, reservations, who, id);
      if c.Fail? {
        return Err(c.failure);
      }
      var updated := Finish(reservations[id], hints, success, clearMinutes);
      ReleasingKeepsSlotsUnique(reservations, id, updated);
      reservations := reservations[id := updated];
      r := Ok(());
    }

    // --------------------------------------------------------------------
    // Reviews
    // --------------------------------------------------------------------

    /**
     * review_create_view (POST): the owner of a Completed reservation that
     * has no review yet adds one; a second review is never created.
     */
    method CreateReview(who: MemberId, id: ReservationId, rating: int, comment: string) returns (r: Result<ReviewId>)
      requires Valid()
      modifies this
      ensures Valid()
      ensures members == old(members) && branches == old(branches) && themes == old(themes)
      ensures reservations == old(reservations) && payments == old(payments)
      ensures var c := ReviewCheck(members, reservations, old(reviews), who, id, rating);
        if c.Fail? then
          r == Err(c.failure) && reviews == old(reviews) && nextReviewId == old(nextReviewId)
        else
          && r == Ok(old(nextReviewId))
          && r.value !in old(reviews)
          && reviews == old(reviews)[r.value := Review(id, Some(who), rating, comment)]
          && nextReviewId == old(nextReviewId) + 1
    {
      var c := ReviewCheck(members, reservations, reviews, who, id, rating);
      if c.Fail? {
        return Err(c.failure);
      }
      r := Ok(nextReviewId);
      reviews := reviews[nextReviewId := Review(id, Some(who), rating, comment)];
      nextReviewId := nextReviewId + 1;
    }

    /** review_update_view (POST): the author changes the rating and the comment. */
    method UpdateReview(who: MemberId, reviewId: ReviewId, rating: int, comment: string) returns (r: Result<()>)
      requires Valid()
      modifies this
      ensures Valid()
      ensures members == old(members) && branches == old(branches) && themes == old(themes)
      ensures reservations == old(reservations) && payments == old(payments) && nextReviewId == old(nextReviewId)
      ensures var c := ReviewEditCheck(members, old(reviews), who, reviewId, rating);
        if c.Fail? then r == Err(c.failure) && reviews == old(reviews)
        else
          r == Ok(()) && reviews == old(reviews)[reviewId := old(reviews)[reviewId].(rating := rating, comment := comment)]
    {
      var c := ReviewEditCheck(members, reviews, who, reviewId, rating);
      if c.Fail? {
        return Err(c.failure);
      }
      reviews := reviews[reviewId := reviews[reviewId].(rating := rating, comment := comment)];
      r := Ok(());
    }

    /** review_delete_view: the author removes the review. */
    method DeleteReview(who: MemberId, reviewId: ReviewId) returns (r: Result<()>)
      requires Valid()
      modifies this
      ensures Valid()
      ensures members == old(members) && branches == old(branches) && themes == old(themes)
      ensures reservations == old(reservations) && payments == old(payments) && nextReviewId == old(nextReviewId)
      ensures var c := AuthorCheck(members, old(reviews), who, reviewId);
        if c.Fail? then r == Err(c.failure) && reviews == old(reviews)
        else r == Ok(()) && reviews == old(reviews) - {reviewId}
    {
      var c := AuthorCheck(members, reviews, who, reviewId);
      if c.Fail? {
        return Err(c.failure);
      }
      reviews := reviews - {reviewId};
      r := Ok(());
    }

    // --------------------------------------------------------------------
    // Themes
    // --------------------------------------------------------------------

    /** theme_status_toggle_view: staff switch a theme between Ready and Maintenance. */
    method ToggleThemeStatus(who: MemberId, id: ThemeId) returns (r: Result<ThemeStatus>)
      requires Valid()
      modifies this
      ensures Valid()
      ensures members == old(members) && branches == old(branches) && reservations == old(reservations)
      ensures payments == old(payments) && reviews == old(reviews) && nextReviewId == old(nextReviewId)
      ensures var c := ToggleCheck(members, old(themes), who, id);
        if c.Fail? then r == Err(c.failure) && themes == old(themes)
        else
          var s := Toggled(old(themes)[id].status);
          r == Ok(s) && themes == old(themes)[id := old(themes)[id].(status := s)]
    {
      var c := ToggleCheck(members, themes, who, id);
      if c.Fail? {
        return Err(c.failure);
      }
      var s := Toggled(themes[id].status);
      themes := themes[id := themes[id].(status := s)];
      r := Ok(s);
    }

    // --------------------------------------------------------------------
    // Branch revenue
    // --------------------------------------------------------------------

    /**
     * The sales loop of branch_manager_dashboard_view: for every active
     * branch, the total and number of its Paid payments made between the
     * two days (inclusive), and their average, 0 when there are none.
     */
    method BranchSales(who: MemberId, monthStart: int, monthEnd: int) returns (r: Result<map<BranchId, Reports.SalesRow>>)
      ensures !SignedIn(members, who) ==> r == Err(LoginRequired)
      ensures SignedIn(members, who) && !ManagesBranches(members[who].role) ==> r == Err(Forbidden)
      ensures SignedIn(members, who) && ManagesBranches(members[who].role) ==> r.Ok?
      ensures r.Ok? ==> r.value.Keys == Reports.ActiveBranches(branches)
      ensures r.Ok? ==> forall b :: b in r.value ==>
        r.value[b] == Reports.MonthlySales(payments, reservations, themes, b, monthStart, monthEnd)
    {
      if !SignedIn(members, who) {
        return Err(LoginRequired);
      }
      if !ManagesBranches(members[who].role) {
        return Err(Forbidden);
      }
      var todo := Reports.ActiveBranches(branches);
      var sales: map<BranchId, Reports.SalesRow> := map[];
      while todo != {}
        invariant todo <= Reports.ActiveBranches(branches)
        invariant sales.Keys == Reports.ActiveBranches(branches) - todo
        invariant forall b :: b in sales ==>
          sales[b] == Reports.MonthlySales(payments, reservations, themes, b, monthStart, monthEnd)
        decreases todo
      {
        var b :| b in todo;
        var sums := Reports.PaidSums(payments, reservations, themes, b, monthStart, monthEnd);
        var total, count := sums.0, sums.1;
        var average := if count > 0 then total as real / count as real else 0.0;
        sales := sales[b := Reports.SalesRow(total, count, average)];
        todo := todo - {b};
      }
      r := Ok(sales);
    }
  }
  /**
   * Two members book the same slot one after the other: the first pays
   * 4 x 30000 = 120000, the second is refused.
   */
  method SameSlotTwice(now: Time)
  {
    var prison := Theme(0, "Prison Break", "Thriller", 3, 60, 30000, 10.0, true, Ready);
    var store := new Store(map[0 := Branch("Gangnam", "Seoul", "02-000-0000", true)], map[5 := prison]);
    var kim := store.CreateUser("kim", "Kim", "010-1111-1111", Customer);
    var lee := store.CreateUser("lee", "Lee", "010-2222-2222", Customer);
    assert kim == Ok(0) && lee == Ok(1);
    var first := store.CreateReservation(0, 5, now + 3600, 4, now);
    assert first == Ok(0) && store.payments[0].amount == 120000;
    var second := store.CreateReservation(1, 5, now + 3600, 2, now);
    assert store.reservations[0].time == now + 3600;
    assert second.Err? && SlotBooked in second.failure.problems;
  }
}
