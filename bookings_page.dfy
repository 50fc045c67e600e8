/** "My bookings" (`app/bookings/page.tsx`): the signed-in user's bookings,
    the map from station identifiers to stations built for them, the hiding
    of bookings whose station no longer exists, the badge labels and the
    payment button. */
module BookingsPage {
  import opened Wrappers
  import opened Types
  import opened Seqs
  import opened Db
  import opened Guards

  /** Loading the page: only the user's own bookings, and only for a
      signed-in user; otherwise a redirect. */
  function Open(user: Option<User>, bookings: seq<Booking>): (r: Load<seq<Booking>>)
    ensures r.Loaded? <==> user.Some?
    ensures r.Loaded? ==> forall k :: 0 <= k < |r.data| ==> r.data[k].userId == user.value.id && r.data[k] in bookings
    ensures r.Loaded? ==> forall k :: 0 <= k < |bookings| && bookings[k].userId == user.value.id ==> bookings[k] in r.data
    ensures r.Loaded? ==> forall k :: 0 <= k < |bookings| && bookings[k].userId == user.value.id ==>
              multiset(r.data)[bookings[k]] == multiset(bookings)[bookings[k]]
    ensures r.Loaded? ==> IsSubsequence(r.data, bookings)
  {
    if user.None? then RedirectToLogin else Loaded(UserBookings(bookings, user.value.id))
  }

  /** The station identifiers the bookings refer to. */
  function ReferencedIds(bookings: seq<Booking>): set<string> {
    set b | b in bookings :: b.stationId
  }

  /** The station map: each referenced identifier that `getStation` resolves,
      bound to the station it finds. */
  function StationMapOf(bookings: seq<Booking>, stations: seq<Station>): (r: map<string, Station>)
    ensures forall id :: id in r ==> id in ReferencedIds(bookings) && FindStation(stations, id) == Some(r[id])
    ensures forall k :: 0 <= k < |bookings| ==>
              (bookings[k].stationId in r <==> FindStation(stations, bookings[k].stationId).Some?)
  {
    map id | id in ReferencedIds(bookings) && FindStation(stations, id).Some? :: FindStation(stations, id).value
  }

  /** One more booking adds its station to the map when `getStation` finds it. */
  lemma StationMapAppend(prefix: seq<Booking>, b: Booking, stations: seq<Station>)
    ensures var before := StationMapOf(prefix, stations);
            var found := FindStation(stations, b.stationId);
            StationMapOf(prefix + [b], stations) ==
              if found.Some? then before[b.stationId := found.value] else before
  {
    var before := StationMapOf(prefix, stations);
    var after := StationMapOf(prefix + [b], stations);
    var found := FindStation(stations, b.stationId);
    var expected := if found.Some? then before[b.stationId := found.value] else before;
    assert ReferencedIds(prefix + [b]) == ReferencedIds(prefix) + {b.stationId};
    assert after.Keys == expected.Keys;
    forall id | id in after.Keys ensures after[id] == expected[id] {
    }
  }

  /** The `forEach` over the bookings that fills the station map. */
  method BuildStationMap(bookings: seq<Booking>, stations: seq<Station>) returns (m: map<string, Station>)
    ensures m == StationMapOf(bookings, stations)
  {
    m := map[];
    var i := 0;
    while i < |bookings|
      invariant 0 <= i <= |bookings|
      invariant m == StationMapOf(bookings[..i], stations)
    {
      var id := bookings[i].stationId;
      assert bookings[..i + 1] == bookings[..i] + [bookings[i]];
      StationMapAppend(bookings[..i], bookings[i], stations);
      var station := FindStation(stations, id);
      if station.Some? {
        m := m[id := station.value];
      }
      i := i + 1;
    }
    assert bookings[..i] == bookings;
  }

  /** The cards rendered: a booking whose station is not in the map is skipped. */
  function VisibleBookings(bookings: seq<Booking>, stationMap: map<string, Station>): (r: seq<Booking>)
    ensures forall k :: 0 <= k < |r| ==> r[k].stationId in stationMap && r[k] in bookings
    ensures forall k :: 0 <= k < |bookings| && bookings[k].stationId in stationMap ==> bookings[k] in r
    ensures forall k :: 0 <= k < |bookings| && bookings[k].stationId in stationMap ==>
              multiset(r)[bookings[k]] == multiset(bookings)[bookings[k]]
    ensures IsSubsequence(r, bookings)
  {
    FilterIsSubsequence(bookings, (b: Booking) => b.stationId in stationMap);
    FilterCounts(bookings, (b: Booking) => b.stationId in stationMap);
    Filter(bookings, (b: Booking) => b.stationId in stationMap)
  }

  /** A booking is shown exactly when its station still exists. */
  lemma ShownIffStationExists(bookings: seq<Booking>, stations: seq<Station>, k: int)
    requires 0 <= k < |bookings|
    ensures bookings[k] in VisibleBookings(bookings, StationMapOf(bookings, stations))
            <==> FindStation(stations, bookings[k].stationId).Some?
  {
    var m := StationMapOf(bookings, stations);
    var r := VisibleBookings(bookings, m);
    if bookings[k] in r {
      var j :| 0 <= j < |r| && r[j] == bookings[k];
      assert r[j].stationId in m;
    }
  }

  /** After a station is deleted, none of its bookings is shown: they are
      orphans, still stored but hidden. */
  lemma DeletedStationHidesItsBookings(bookings: seq<Booking>, stations: seq<Station>, id: string)
    ensures forall k :: 0 <= k < |bookings| && bookings[k].stationId == id ==>
              bookings[k] !in VisibleBookings(bookings, StationMapOf(bookings, WithoutStation(stations, id)))
  {
    assert FindStation(WithoutStation(stations, id), id).None?;
    forall k | 0 <= k < |bookings| && bookings[k].stationId == id
      ensures bookings[k] !in VisibleBookings(bookings, StationMapOf(bookings, WithoutStation(stations, id)))
    {
      ShownIffStationExists(bookings, WithoutStation(stations, id), k);
    }
  }

  /** The label of each booking status. */
  function StatusLabel(s: BookingStatus): string {
    match s
    case Active => "Ativa"
    case Completed => "Concluída"
    case Pending => "Pendente"
    case Cancelled => "Cancelada"
  }

  /** The status badge as rendered: four conditional fragments, of which a
      false one renders nothing, so exactly one label shows. */
  function StatusBadge(s: BookingStatus): (r: string)
    ensures r == StatusLabel(s)
  {
    (if s == BookingStatus.Active then "Ativa" else "") +
    (if s == BookingStatus.Completed then "Concluída" else "") +
    (if s == BookingStatus.Pending then "Pendente" else "") +
    (if s == BookingStatus.Cancelled then "Cancelada" else "")
  }

  /** The label of each payment status. */
  function PaymentLabel(s: PaymentStatus): string {
    match s
    case Paid => "Pago"
    case Pending => "Pendente"
    case Failed => "Falhou"
  }

  /** The payment badge as rendered: exactly one of three fragments shows. */
  function PaymentBadge(s: PaymentStatus): (r: string)
    ensures r == PaymentLabel(s)
  {
    (if s == PaymentStatus.Paid then "Pago" else "") +
    (if s == PaymentStatus.Pending then "Pendente" else "") +
    (if s == PaymentStatus.Failed then "Falhou" else "")
  }

  /** Different statuses get different labels. */
  lemma LabelsDistinguishStatuses(a: BookingStatus, b: BookingStatus, p: PaymentStatus, q: PaymentStatus)
    ensures StatusLabel(a) == StatusLabel(b) ==> a == b
    ensures PaymentLabel(p) == PaymentLabel(q) ==> p == q
  {
  }

  /** "Completar Pagamento" is offered exactly for a pending, unpaid booking,
      that is, exactly when both badges read "Pendente". */
  predicate CanPay(b: Booking)
    ensures CanPay(b) <==> StatusBadge(b.status) == "Pendente" && PaymentBadge(b.paymentStatus) == "Pendente"
  {
    b.status == BookingStatus.Pending && b.paymentStatus == PaymentStatus.Pending
  }

  /** What `{v && (<line>)}` puts on the page for an optional number `v`:
      the line itself, the number 0 rendered as the text "0" (a falsy
      number is rendered, unlike `undefined`), or nothing. */
  datatype Slot = Line | StrayZero | Nothing

  /** The outcome of guarding a line by an optional number. */
  function GuardedBy(v: Option<real>): (r: Slot)
    ensures r == Line <==> v.Some? && v.value != 0.0
    ensures r == StrayZero <==> v == Some(0.0)
    ensures r == Nothing <==> v.None?
  {
    match v
    case None => Nothing
    case Some(x) => if x == 0.0 then StrayZero else Line
  }

  /** The consumption line (`booking.total_kwh && ...`). */
  function ConsumptionSlot(b: Booking): (r: Slot)
    ensures r == Line <==> b.totalKwh.Some? && b.totalKwh.value != 0.0
    ensures r == StrayZero <==> b.totalKwh == Some(0.0)
    ensures r == Nothing <==> b.totalKwh.None?
  {
    GuardedBy(b.totalKwh)
  }

  /** The cost line (`booking.total_cost && ...`). */
  function CostSlot(b: Booking): (r: Slot)
    ensures r == Line <==> b.totalCost.Some? && b.totalCost.value != 0.0
    ensures r == StrayZero <==> b.totalCost == Some(0.0)
    ensures r == Nothing <==> b.totalCost.None?
  {
    GuardedBy(b.totalCost)
  }
}
