/**
 * Records and enumerations of the booking app (booking/models.py): members and
 * their role-derived permission flags, the catalog (branches, themes),
 * reservations, payments and reviews, the closed status enumerations with the
 * codes stored in the database, and the 1..5 range validators.
 */
module Models {

  datatype Option<T> = None | Some(value: T)

  type MemberId = nat
  type BranchId = nat
  type ThemeId = nat
  type ReservationId = nat
  type ReviewId = nat

  /** A point in time, in seconds. */
  type Time = int

  const SecondsPerMinute: int := 60
  const SecondsPerDay: int := 86400

  /** The calendar day a timestamp falls on (the `__date` lookup). */
  function Day(t: Time): int {
    t / SecondsPerDay
  }

  // ----------------------------------------------------------------------
  // Roles and the permission flags derived from them
  // ----------------------------------------------------------------------

  datatype Role = Customer | ThemeManager | BranchManager | Admin {
    /** The value stored in the `role` column. */
    function Code(): string {
      match this
      case Customer => "Customer"
      case ThemeManager => "ThemeManager"
      case BranchManager => "BranchManager"
      case Admin => "Admin"
    }
  }

  /** Reads a stored `role` value back; anything outside the choices is refused. */
  function ParseRole(code: string): (r: Option<Role>)
    ensures r.Some? ==> r.value.Code() == code
  {
    if code == "Customer" then Some(Customer)
    else if code == "ThemeManager" then Some(ThemeManager)
    else if code == "BranchManager" then Some(BranchManager)
    else if code == "Admin" then Some(Admin)
    else None
  }

  lemma RoleCodeRoundTrip(r: Role)
    ensures ParseRole(r.Code()) == Some(r)
  {
  }

  /** A member; the password hash and the sign-up timestamp are not modelled. */
  datatype Member = Member(loginId: string, name: string, phone: string, role: Role)

  /** `is_staff`: every role but Customer may enter the admin site. */
  function IsStaff(role: Role): (staff: bool)
    ensures staff <==> role != Customer
  {
    role == Admin || role == ThemeManager || role == BranchManager
  }

  /** `is_superuser`: only Admin holds every permission. */
  function IsSuperuser(role: Role): (superuser: bool)
    ensures superuser ==> IsStaff(role)
    ensures superuser <==> role == Admin
  {
    role == Admin
  }

  lemma StaffIsEveryRoleButCustomer(role: Role)
    ensures IsStaff(role) <==> role != Customer
    ensures IsSuperuser(role) ==> IsStaff(role)
  {
  }

  /** `is_active`: there is no suspension, so every member is active. */
  function IsActive(m: Member): (active: bool)
    ensures active
  {
    true
  }

  /** `has_perm(perm, obj)`: decided by the role alone, whatever is asked. */
  function HasPerm(m: Member, perm: string, obj: Option<nat>): (granted: bool)
    ensures granted <==> m.role == Admin
  {
    IsSuperuser(m.role)
  }

  /** `has_module_perms(app_label)`: decided by the role alone, whatever is asked. */
  function HasModulePerms(m: Member, appLabel: string): (granted: bool)
    ensures granted <==> m.role == Admin
  {
    IsSuperuser(m.role)
  }

  lemma PermissionsIgnoreTheQuestion(m: Member, p: string, o: Option<nat>, q: string, appLabel: string)
    ensures HasPerm(m, p, o) == HasPerm(m, q, None) == HasModulePerms(m, appLabel)
    ensures HasPerm(m, p, o) == IsSuperuser(m.role)
  {
  }

  // ----------------------------------------------------------------------
  // Catalog
  // ----------------------------------------------------------------------

  datatype Branch = Branch(name: string, location: string, phone: string, isActive: bool)

  datatype ThemeStatus = Ready | Maintenance {
    function Code(): string {
      match this
      case Ready => "Ready"
      case Maintenance => "Maintenance"
    }
  }

  const DefaultThemeStatus: ThemeStatus := Ready

  function ParseThemeStatus(code: string): (s: Option<ThemeStatus>)
    ensures s.Some? ==> s.value.Code() == code
  {
    if code == "Ready" then Some(Ready)
    else if code == "Maintenance" then Some(Maintenance)
    else None
  }

  lemma ThemeStatusCodeRoundTrip(s: ThemeStatus)
    ensures ParseThemeStatus(s.Code()) == Some(s)
  {
  }

  /**
   * A theme. `price` has no decimal places; `discountRate` is stored but no
   * operation of the app reads it.
   */
  datatype Theme = Theme(
    branch: BranchId,
    name: string,
    genre: string,
    difficulty: int,
    duration: int,
    price: int,
    discountRate: real,
    isActive: bool,
    status: ThemeStatus)

  /** The validators on `Theme.difficulty` and `Review.rating`. */
  predicate InOneToFive(v: int)
  {
    1 <= v <= 5
  }

  predicate ValidDifficulty(t: Theme)
  {
    InOneToFive(t.difficulty)
  }

  // ----------------------------------------------------------------------
  // Reservations, payments, reviews
  // ----------------------------------------------------------------------

  datatype ReservationStatus = Confirmed | CheckedIn | Completed | Cancelled | NoShow {
    function Code(): string {
      match this
      case Confirmed => "Confirmed"
      case CheckedIn => "CheckedIn"
      case Completed => "Completed"
      case Cancelled => "Cancelled"
      case NoShow => "NoShow"
    }
  }

  const DefaultReservationStatus: ReservationStatus := Confirmed

  function ParseReservationStatus(code: string): (s: Option<ReservationStatus>)
    ensures s.Some? ==> s.value.Code() == code
  {
    if code == "Confirmed" then Some(Confirmed)
    else if code == "CheckedIn" then Some(CheckedIn)
    else if code == "Completed" then Some(Completed)
    else if code == "Cancelled" then Some(Cancelled)
    else if code == "NoShow" then Some(NoShow)
    else None
  }

  lemma ReservationStatusCodeRoundTrip(s: ReservationStatus)
    ensures ParseReservationStatus(s.Code()) == Some(s)
  {
  }

  /** Exactly five codes are accepted, and they are pairwise distinct. */
  lemma ReservationStatusIsClosed(code: string)
    ensures ParseReservationStatus(code).Some? <==>
      code in {"Confirmed", "CheckedIn", "Completed", "Cancelled", "NoShow"}
    ensures |{Confirmed.Code(), CheckedIn.Code(), Completed.Code(), Cancelled.Code(), NoShow.Code()}| == 5
  {
  }

  /**
   * A reservation. `member` becomes None when the member is deleted;
   * `isSuccess` and `clearTime` (in seconds) stay None until completion.
   */
  datatype Reservation = Reservation(
    member: Option<MemberId>,
    theme: ThemeId,
    time: Time,
    participants: int,
    totalPrice: int,
    status: ReservationStatus,
    hintCount: int,
    isSuccess: Option<bool>,
    clearTime: Option<int>)

  /** A freshly saved reservation: every column not supplied takes its default. */
  function NewReservation(member: MemberId, theme: ThemeId, time: Time, participants: int, totalPrice: int)
    : (booking: Reservation)
    ensures booking.member == Some(member) && booking.theme == theme && booking.time == time
    ensures booking.participants == participants && booking.totalPrice == totalPrice
    ensures booking.status == Confirmed && booking.hintCount == 0
    ensures booking.isSuccess.None? && booking.clearTime.None?
  {
    Reservation(Some(member), theme, time, participants, totalPrice,
                DefaultReservationStatus, 0, None, None)
  }

  lemma NewReservationDefaults(member: MemberId, theme: ThemeId, time: Time, participants: int, totalPrice: int)
    ensures NewReservation(member, theme, time, participants, totalPrice).status == Confirmed
    ensures NewReservation(member, theme, time, participants, totalPrice).hintCount == 0
    ensures NewReservation(member, theme, time, participants, totalPrice).isSuccess == None
    ensures NewReservation(member, theme, time, participants, totalPrice).clearTime == None
  {
  }

  /** `payment_status` is free text; booking only ever writes "Paid". */
  const PaidStatus: string := "Paid"
  const VirtualCard: string := "가상 카드"

  datatype Payment = Payment(reservation: ReservationId, paymentMethod: string, amount: int, status: string, paidAt: Time)

  datatype Review = Review(reservation: ReservationId, member: Option<MemberId>, rating: int, comment: string)

  predicate ValidRating(v: Review)
  {
    InOneToFive(v.rating)
  }

  // ----------------------------------------------------------------------
  // Facility issue reports (only the status enumeration is used)
  // ----------------------------------------------------------------------

  datatype IssueStatus = Reported | InProgress | Resolved {
    function Code(): string {
      match this
      case Reported => "Reported"
      case InProgress => "InProgress"
      case Resolved => "Resolved"
    }
  }

  const DefaultIssueStatus: IssueStatus := Reported

  function ParseIssueStatus(code: string): (s: Option<IssueStatus>)
    ensures s.Some? ==> s.value.Code() == code
  {
    if code == "Reported" then Some(Reported)
    else if code == "InProgress" then Some(InProgress)
    else if code == "Resolved" then Some(Resolved)
    else None
  }

  lemma IssueStatusCodeRoundTrip(s: IssueStatus)
    ensures ParseIssueStatus(s.Code()) == Some(s)
    ensures DefaultIssueStatus == Reported && ParseIssueStatus(DefaultIssueStatus.Code()) == Some(Reported)
  {
  }
}
