/**
 * The read-only queries of booking/views.py that carry a rule: which themes
 * the theme list offers (theme_list_view) and the monthly sales of a branch
 * (branch_manager_dashboard_view).
 */
module Reports {
  import opened Models
  import opened Rules

  // ----------------------------------------------------------------------
  // Theme list
  // ----------------------------------------------------------------------

  /** ASCII lower-casing, the case folding of an `icontains` lookup on ASCII text. */
  function Fold(s: string): (f: string)
    ensures |f| == |s|
  {
    seq(|s|, i requires 0 <= i < |s| => if 'A' <= s[i] <= 'Z' then (s[i] as int + 32) as char else s[i])
  }

  /** `pattern` occurs in `text` at position `i`. */
  predicate OccursAt(text: string, pattern: string, i: int)
  {
    0 <= i <= |text| - |pattern| && text[i..i + |pattern|] == pattern
  }

  /** `field__icontains=pattern`. */
  predicate ContainsIgnoringCase(text: string, pattern: string)
  {
    var t, p := Fold(text), Fold(pattern);
    exists i | 0 <= i <= |t| - |p| :: OccursAt(t, p, i)
  }

  lemma {:induction false} TextContainsItself(text: string)
    ensures ContainsIgnoringCase(text, text)
  {
    var t := Fold(text);
    assert t[0..|t|] == t;
    assert OccursAt(t, t, 0);
  }

  /**
   * The themes on the list: active and Ready, matching the search text in
   * name or genre when one is given, and of the chosen branch when one is.
   */
  function ListedThemes(themes: map<ThemeId, Theme>, search: string, branch: Option<BranchId>): (listed: set<ThemeId>)
    ensures listed <= themes.Keys
    ensures forall id :: id in listed ==> themes[id].isActive && themes[id].status == Ready
    ensures branch.Some? ==> forall id :: id in listed ==> themes[id].branch == branch.value
    ensures search != "" ==> forall id :: id in listed ==>
      ContainsIgnoringCase(themes[id].name, search) || ContainsIgnoringCase(themes[id].genre, search)
  {
    set id | id in themes
      && themes[id].isActive && themes[id].status == Ready
      && (search == "" || ContainsIgnoringCase(themes[id].name, search) || ContainsIgnoringCase(themes[id].genre, search))
      && (branch.None? || themes[id].branch == branch.value)
  }

  /** Every theme on the list can be booked, and with no filter the list is every bookable theme. */
  lemma ListedThemesAreBookable(themes: map<ThemeId, Theme>, search: string, branch: Option<BranchId>)
    ensures forall id :: id in ListedThemes(themes, search, branch) ==> Bookable(themes, id)
    ensures ListedThemes(themes, "", None) == set id | id in themes && Bookable(themes, id)
  {
  }

  /** Searching for a bookable theme's own name lists it. */
  lemma SearchByNameFindsTheme(themes: map<ThemeId, Theme>, id: ThemeId)
    requires Bookable(themes, id)
    ensures id in ListedThemes(themes, themes[id].name, None)
    ensures id in ListedThemes(themes, "", Some(themes[id].branch))
  {
    TextContainsItself(themes[id].name);
  }

  /** The search ignores case: any spelling of a bookable theme's name that folds to the same text lists it. */
  lemma {:induction false} SearchIgnoresCase(themes: map<ThemeId, Theme>, id: ThemeId, q: string)
    requires Bookable(themes, id)
    requires Fold(q) == Fold(themes[id].name)
    ensures id in ListedThemes(themes, q, None)
  {
    var t := Fold(themes[id].name);
    assert t[0..|t|] == t;
    assert OccursAt(t, Fold(q), 0);
  }

  /**
   * The search direction of the list: a bookable theme whose name or genre
   * contains the search text anywhere, ignoring case, is listed, with or
   * without the filter on its own branch.
   */
  lemma SearchFindsContainedText(themes: map<ThemeId, Theme>, id: ThemeId, q: string, i: int)
    requires Bookable(themes, id)
    requires OccursAt(Fold(themes[id].name), Fold(q), i) || OccursAt(Fold(themes[id].genre), Fold(q), i)
    ensures id in ListedThemes(themes, q, None)
    ensures id in ListedThemes(themes, q, Some(themes[id].branch))
  {
  }

  // ----------------------------------------------------------------------
  // Branch sales
  // ----------------------------------------------------------------------

  function ActiveBranches(branches: map<BranchId, Branch>): set<BranchId>
  {
    set b | b in branches && branches[b].isActive
  }

  datatype SalesRow = SalesRow(total: int, count: nat, average: real)

  /** A payment that counts toward branch `b` between the two days: Paid, in range, for a theme of `b`. */
  predicate CountsToward(p: Payment, rs: seq<Reservation>, themes: map<ThemeId, Theme>, b: BranchId, from: int, to: int)
  {
    && p.status == PaidStatus
    && from <= Day(p.paidAt) <= to
    && p.reservation < |rs|
    && rs[p.reservation].theme in themes
    && themes[rs[p.reservation].theme].branch == b
  }

  /** The `Sum('amount')` and `Count('payment_id')` of the payments that count, with an empty sum read as 0. */
  function PaidSums(ps: seq<Payment>, rs: seq<Reservation>, themes: map<ThemeId, Theme>, b: BranchId, from: int, to: int)
    : (sums: (int, nat))
    ensures sums.1 <= |ps|
    ensures sums.1 == 0 ==> sums.0 == 0
    decreases |ps|
  {
    if ps == [] then (0, 0)
    else
      var rest := PaidSums(ps[1..], rs, themes, b, from, to);
      if CountsToward(ps[0], rs, themes, b, from, to) then (ps[0].amount + rest.0, rest.1 + 1) else rest
  }

  /** A branch's row: total, count, and their average, guarded against a count of 0. */
  function MonthlySales(ps: seq<Payment>, rs: seq<Reservation>, themes: map<ThemeId, Theme>, b: BranchId, from: int, to: int)
    : (row: SalesRow)
    ensures row.count == 0 ==> row.total == 0 && row.average == 0.0
    ensures row.count > 0 ==> row.average * row.count as real == row.total as real
    ensures row.count <= |ps|
  {
    var sums := PaidSums(ps, rs, themes, b, from, to);
    SalesRow(sums.0, sums.1, if sums.1 > 0 then sums.0 as real / sums.1 as real else 0.0)
  }

  /** Appending a payment adds it to the sums exactly when it counts. */
  lemma {:induction false} PaidSumsAppend(ps: seq<Payment>, p: Payment, rs: seq<Reservation>, themes: map<ThemeId, Theme>,
                                          b: BranchId, from: int, to: int)
    ensures PaidSums(ps + [p], rs, themes, b, from, to) ==
      var s := PaidSums(ps, rs, themes, b, from, to);
      if CountsToward(p, rs, themes, b, from, to) then (s.0 + p.amount, s.1 + 1) else s
    decreases |ps|
  {
    if ps != [] {
      assert (ps + [p])[1..] == ps[1..] + [p];
      PaidSumsAppend(ps[1..], p, rs, themes, b, from, to);
    }
  }

  /** Adding reservations does not change which existing payments count. */
  lemma {:induction false} PaidSumsIgnoreNewReservations(ps: seq<Payment>, rs: seq<Reservation>, more: seq<Reservation>,
                                                         themes: map<ThemeId, Theme>, b: BranchId, from: int, to: int)
    requires forall i :: 0 <= i < |ps| ==> ps[i].reservation < |rs|
    ensures PaidSums(ps, rs + more, themes, b, from, to) == PaidSums(ps, rs, themes, b, from, to)
    decreases |ps|
  {
    if ps != [] {
      assert (rs + more)[ps[0].reservation] == rs[ps[0].reservation];
      PaidSumsIgnoreNewReservations(ps[1..], rs, more, themes, b, from, to);
    }
  }

  /**
   * A booking paid on a day inside the range raises its theme's branch total
   * by the booking's price and its count by one; every other branch is unchanged.
   */
  lemma BookingRecordsSale(ps: seq<Payment>, rs: seq<Reservation>, themes: map<ThemeId, Theme>, r: Reservation,
                           p: Payment, b: BranchId, from: int, to: int)
    requires PaymentsMatch(rs, ps)
    requires r.theme in themes
    requires p == Payment(|rs|, VirtualCard, r.totalPrice, PaidStatus, p.paidAt)
    ensures var before, after := PaidSums(ps, rs, themes, b, from, to), PaidSums(ps + [p], rs + [r], themes, b, from, to);
      if themes[r.theme].branch == b && from <= Day(p.paidAt) <= to then
        after == (before.0 + r.totalPrice, before.1 + 1)
      else
        after == before
  {
    PaidSumsIgnoreNewReservations(ps, rs, [r], themes, b, from, to);
    PaidSumsAppend(ps, p, rs + [r], themes, b, from, to);
    assert (rs + [r])[|rs|] == r;
  }

  /** Two Paid payments of 10000 and 20000 for a branch: total 30000, count 2, average 15000. */
  lemma TwoPaymentsExample(themes: map<ThemeId, Theme>, rs: seq<Reservation>, b: BranchId, day: int)
    requires |rs| == 2 && forall i :: 0 <= i < 2 ==> rs[i].theme in themes && themes[rs[i].theme].branch == b
    ensures var ps := [Payment(0, VirtualCard, 10000, PaidStatus, day * SecondsPerDay),
                       Payment(1, VirtualCard, 20000, PaidStatus, day * SecondsPerDay)];
      MonthlySales(ps, rs, themes, b, day, day) == SalesRow(30000, 2, 15000.0)
      && MonthlySales([], rs, themes, b, day, day) == SalesRow(0, 0, 0.0)
  {
    var ps := [Payment(0, VirtualCard, 10000, PaidStatus, day * SecondsPerDay),
               Payment(1, VirtualCard, 20000, PaidStatus, day * SecondsPerDay)];
    assert Day(day * SecondsPerDay) == day;
    assert ps[1..][1..] == [];
    assert PaidSums(ps[1..], rs, themes, b, day, day) == (20000, 1);
  }
}
