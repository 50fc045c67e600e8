/** The figures of the admin dashboard (`app/admin/page.tsx`): charger sums,
    the availability percentage, the active-booking count and the paid
    revenue. The percentage's `toFixed(0)` rendering is not modelled: the
    model keeps the exact ratio. */
module AdminDashboard {
  import opened Wrappers
  import opened Types
  import opened Seqs
  import opened Guards

  /** `stations.reduce((sum, s) => sum + s.total_chargers, 0)`. */
  function TotalChargers(stations: seq<Station>): (r: real)
    ensures stations == [] ==> r == 0.0
  {
    SumOf(stations, (s: Station) => s.totalChargers)
  }

  /** `stations.reduce((sum, s) => sum + s.available_chargers, 0)`. */
  function AvailableChargers(stations: seq<Station>): (r: real)
    ensures stations == [] ==> r == 0.0
  {
    SumOf(stations, (s: Station) => s.availableChargers)
  }

  /** The availability label: "0" when there is no positive capacity,
      otherwise the percentage of available chargers. */
  datatype Availability = ZeroLabel | Percent(value: real)

  /** The guarded division: it divides only by a positive total. */
  function AvailabilityOf(available: real, total: real): (r: Availability)
    ensures total <= 0.0 <==> r == ZeroLabel
    ensures r.Percent? ==> r.value * total == available * 100.0
  {
    if total > 0.0 then Percent(available / total * 100.0) else ZeroLabel
  }

  /** `b.total_cost || 0`: a missing (or zero) cost counts as nothing. */
  function CostOrZero(b: Booking): real {
    b.totalCost.GetOr(0.0)
  }

  /** `bookings.filter(b => b.status === "active").length`. */
  function ActiveBookings(bookings: seq<Booking>): (r: nat)
    ensures r <= |bookings|
  {
    |Filter(bookings, (b: Booking) => b.status == BookingStatus.Active)|
  }

  /** The paid bookings, whose costs make up the revenue. */
  function PaidBookings(bookings: seq<Booking>): (r: seq<Booking>)
    ensures forall k :: 0 <= k < |r| ==> r[k].paymentStatus == PaymentStatus.Paid && r[k] in bookings
    ensures forall k :: 0 <= k < |bookings| && bookings[k].paymentStatus == PaymentStatus.Paid ==> bookings[k] in r
    ensures forall k :: 0 <= k < |bookings| && bookings[k].paymentStatus == PaymentStatus.Paid ==>
              multiset(r)[bookings[k]] == multiset(bookings)[bookings[k]]
    ensures IsSubsequence(r, bookings)
  {
    FilterIsSubsequence(bookings, (b: Booking) => b.paymentStatus == PaymentStatus.Paid);
    FilterCounts(bookings, (b: Booking) => b.paymentStatus == PaymentStatus.Paid);
    Filter(bookings, (b: Booking) => b.paymentStatus == PaymentStatus.Paid)
  }

  /** `totalRevenue`: the sum of the paid bookings' costs. */
  function TotalRevenue(bookings: seq<Booking>): (r: real)
    ensures bookings == [] ==> r == 0.0
  {
    SumOf(PaidBookings(bookings), CostOrZero)
  }

  /** The four cards of the dashboard, with the two counts they also show. */
  datatype Summary = Summary(
    stationCount: nat,
    totalChargers: real,
    availableChargers: real,
    availability: Availability,
    activeBookings: nat,
    bookingCount: nat,
    totalRevenue: real)

  /** Every figure of the dashboard, computed from the loaded collections. */
  function Summarize(stations: seq<Station>, bookings: seq<Booking>): (r: Summary)
    ensures r.stationCount == |stations| && r.bookingCount == |bookings|
    ensures r.activeBookings <= r.bookingCount
    ensures r.totalChargers == TotalChargers(stations) && r.availableChargers == AvailableChargers(stations)
    ensures r.availability == AvailabilityOf(r.availableChargers, r.totalChargers)
    ensures r.totalChargers <= 0.0 ==> r.availability == ZeroLabel
    ensures r.activeBookings == ActiveBookings(bookings) && r.totalRevenue == TotalRevenue(bookings)
  {
    var total := TotalChargers(stations);
    var available := AvailableChargers(stations);
    Summary(|stations|, total, available, AvailabilityOf(available, total),
            ActiveBookings(bookings), |bookings|, TotalRevenue(bookings))
  }

  /** The dashboard: only an admin gets the figures; anyone else is sent to
      the login page and nothing is loaded. */
  function Open(user: Option<User>, stations: seq<Station>, bookings: seq<Booking>): (r: Load<Summary>)
    ensures r.Loaded? <==> user.Some? && user.value.role == RoleAdmin
    ensures r.Loaded? ==> r.data == Summarize(stations, bookings)
  {
    RequireAdmin(user, Summarize(stations, bookings))
  }

  // ---------------------------------------------------------------------------
  // Facts about the figures

  /** Capacity adds up over concatenated station lists. */
  lemma TotalChargersAppend(a: seq<Station>, b: seq<Station>)
    ensures TotalChargers(a + b) == TotalChargers(a) + TotalChargers(b)
    ensures AvailableChargers(a + b) == AvailableChargers(a) + AvailableChargers(b)
  {
    SumOfAppend(a, b, (s: Station) => s.totalChargers);
    SumOfAppend(a, b, (s: Station) => s.availableChargers);
  }

  /** One more station adds its own `total_chargers` and
      `available_chargers` to the two sums. */
  lemma StationAddsItsChargers(stations: seq<Station>, s: Station)
    ensures TotalChargers(stations + [s]) == TotalChargers(stations) + s.totalChargers
    ensures AvailableChargers(stations + [s]) == AvailableChargers(stations) + s.availableChargers
  {
    TotalChargersAppend(stations, [s]);
    assert [s][1..] == [];
    assert TotalChargers([s]) == s.totalChargers + TotalChargers([]);
    assert AvailableChargers([s]) == s.availableChargers + AvailableChargers([]);
  }

  /** When every station keeps 0 <= available <= total, the availability is
      "0" or a percentage between 0 and 100. */
  lemma AvailabilityInRange(stations: seq<Station>)
    requires forall k :: 0 <= k < |stations| ==>
               0.0 <= stations[k].availableChargers <= stations[k].totalChargers
    ensures var r := AvailabilityOf(AvailableChargers(stations), TotalChargers(stations));
            r.Percent? ==> 0.0 <= r.value <= 100.0
  {
    SumOfMonotone(stations, (s: Station) => s.availableChargers, (s: Station) => s.totalChargers);
    SumOfNonNegative(stations, (s: Station) => s.availableChargers);
    var available, total := AvailableChargers(stations), TotalChargers(stations);
    if total > 0.0 {
      RatioAtMostOne(available, total);
    }
  }

  /** A non-negative part of a positive whole is at most the whole. */
  lemma RatioAtMostOne(part: real, whole: real)
    requires 0.0 <= part <= whole && 0.0 < whole
    ensures 0.0 <= part / whole <= 1.0
  {
    var q := part / whole;
    assert q * whole == part;
    assert (1.0 - q) * whole == whole - part;
  }

  /** Adding a booking adds one to the active count exactly when it is active. */
  lemma ActiveBookingsAppend(bookings: seq<Booking>, b: Booking)
    ensures ActiveBookings(bookings + [b]) ==
              ActiveBookings(bookings) + (if b.status == BookingStatus.Active then 1 else 0)
  {
    FilterAppend(bookings, [b], (x: Booking) => x.status == BookingStatus.Active);
  }

  /** Adding a booking adds its cost (or 0 when missing) to the revenue when it
      is paid, and nothing otherwise. */
  lemma RevenueAppend(bookings: seq<Booking>, b: Booking)
    ensures TotalRevenue(bookings + [b]) ==
              TotalRevenue(bookings) + (if b.paymentStatus == PaymentStatus.Paid then CostOrZero(b) else 0.0)
  {
    var paid := (x: Booking) => x.paymentStatus == PaymentStatus.Paid;
    FilterAppend(bookings, [b], paid);
    SumOfAppend(Filter(bookings, paid), Filter([b], paid), CostOrZero);
  }

  /** Bookings that are not paid contribute nothing to the revenue. */
  lemma {:induction false} RevenueIgnoresUnpaid(bookings: seq<Booking>)
    requires forall k :: 0 <= k < |bookings| ==> bookings[k].paymentStatus != PaymentStatus.Paid
    ensures TotalRevenue(bookings) == 0.0
  {
    if bookings != [] {
      var n := |bookings| - 1;
      assert bookings == bookings[..n] + [bookings[n]];
      RevenueIgnoresUnpaid(bookings[..n]);
      RevenueAppend(bookings[..n], bookings[n]);
    }
  }

  /** With non-negative costs the revenue is non-negative. */
  lemma RevenueNonNegative(bookings: seq<Booking>)
    requires forall k :: 0 <= k < |bookings| ==> CostOrZero(bookings[k]) >= 0.0
    ensures TotalRevenue(bookings) >= 0.0
  {
    var paid := PaidBookings(bookings);
    forall k | 0 <= k < |paid| ensures CostOrZero(paid[k]) >= 0.0 {
      assert paid[k] in bookings;
    }
    SumOfNonNegative(paid, CostOrZero);
  }
}
