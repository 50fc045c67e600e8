/** The record store of `lib/db.ts`: the station, booking and charger
    collections with their create, find, patch, replace, delete and filter
    operations. Persistence (one serialized array per collection) is replaced
    by a `seq` field per collection; identifiers and timestamps, which the
    source draws from the clock, are parameters. Identifiers are NOT assumed
    unique: patch and replace touch the first match only, delete removes every
    match. */
module Db {
  import opened Wrappers
  import opened Types
  import opened Seqs

  /** What `createStation` receives: a station without `id`, `created_at`
      and `updated_at`. */
  datatype StationFields = StationFields(
    name: string,
    address: string,
    city: string,
    state: string,
    latitude: real,
    longitude: real,
    totalChargers: real,
    availableChargers: real,
    powerOutput: string,
    connectorTypes: seq<string>,
    amenities: seq<string>,
    pricePerKwh: real,
    status: StationStatus,
    ownerId: string)

  /** A partial station: the fields present in a patch object. */
  datatype StationPatch = StationPatch(
    id: Option<string>,
    name: Option<string>,
    address: Option<string>,
    city: Option<string>,
    state: Option<string>,
    latitude: Option<real>,
    longitude: Option<real>,
    totalChargers: Option<real>,
    availableChargers: Option<real>,
    powerOutput: Option<string>,
    connectorTypes: Option<seq<string>>,
    amenities: Option<seq<string>>,
    pricePerKwh: Option<real>,
    status: Option<StationStatus>,
    ownerId: Option<string>,
    createdAt: Option<string>,
    updatedAt: Option<string>)

  /** What `createBooking` receives: a booking without `id` and `created_at`. */
  datatype BookingFields = BookingFields(
    userId: string,
    stationId: string,
    chargerId: string,
    startTime: string,
    endTime: string,
    status: BookingStatus,
    totalKwh: Option<real>,
    totalCost: Option<real>,
    paymentStatus: PaymentStatus)

  /** The patch with no field present. */
  const NoChanges: StationPatch :=
    StationPatch(None, None, None, None, None, None, None, None, None,
                 None, None, None, None, None, None, None, None)

  /** A whole station used as a patch (what `updateStation` passes on). */
  function FullPatch(s: Station): StationPatch {
    StationPatch(Some(s.id), Some(s.name), Some(s.address), Some(s.city), Some(s.state),
                 Some(s.latitude), Some(s.longitude), Some(s.totalChargers),
                 Some(s.availableChargers), Some(s.powerOutput), Some(s.connectorTypes),
                 Some(s.amenities), Some(s.pricePerKwh), Some(s.status), Some(s.ownerId),
                 Some(s.createdAt), Some(s.updatedAt))
  }

  /** The caller-supplied part of a stored station. */
  function FieldsOf(s: Station): StationFields {
    StationFields(s.name, s.address, s.city, s.state, s.latitude, s.longitude,
                  s.totalChargers, s.availableChargers, s.powerOutput, s.connectorTypes,
                  s.amenities, s.pricePerKwh, s.status, s.ownerId)
  }

  /** The record `createStation` stores: the given fields, the identifier
      "station-" followed by the clock reading, and the two timestamps, which
      come from two separate readings of the clock. */
  function NewStation(f: StationFields, stamp: string, created: string, updated: string): (s: Station)
    ensures s.id == "station-" + stamp && s.createdAt == created && s.updatedAt == updated
    ensures FieldsOf(s) == f
  {
    Station("station-" + stamp, f.name, f.address, f.city, f.state, f.latitude, f.longitude,
            f.totalChargers, f.availableChargers, f.powerOutput, f.connectorTypes,
            f.amenities, f.pricePerKwh, f.status, f.ownerId, created, updated)
  }

  /** The caller-supplied part of a stored booking. */
  function BookingFieldsOf(b: Booking): BookingFields {
    BookingFields(b.userId, b.stationId, b.chargerId, b.startTime, b.endTime, b.status,
                  b.totalKwh, b.totalCost, b.paymentStatus)
  }

  /** The record `createBooking` stores: the given fields, the identifier
      "booking-" followed by the clock reading, and `created_at` = `now`. */
  function NewBooking(f: BookingFields, stamp: string, now: string): (b: Booking)
    ensures b.id == "booking-" + stamp && b.createdAt == now
    ensures BookingFieldsOf(b) == f
  {
    Booking("booking-" + stamp, f.userId, f.stationId, f.chargerId, f.startTime, f.endTime,
            f.status, f.totalKwh, f.totalCost, f.paymentStatus, now)
  }

  /** `{ ...s, ...p, id, updated_at: now }`: the fields present in `p` win,
      then the identifier and the update time are forced. */
  function Patched(s: Station, id: string, p: StationPatch, now: string): (r: Station)
    ensures r.id == id && r.updatedAt == now
  {
    Station(id, p.name.GetOr(s.name), p.address.GetOr(s.address), p.city.GetOr(s.city),
            p.state.GetOr(s.state), p.latitude.GetOr(s.latitude),
            p.longitude.GetOr(s.longitude), p.totalChargers.GetOr(s.totalChargers),
            p.availableChargers.GetOr(s.availableChargers), p.powerOutput.GetOr(s.powerOutput),
            p.connectorTypes.GetOr(s.connectorTypes), p.amenities.GetOr(s.amenities),
            p.pricePerKwh.GetOr(s.pricePerKwh), p.status.GetOr(s.status),
            p.ownerId.GetOr(s.ownerId), p.createdAt.GetOr(s.createdAt), now)
  }

  /** `{ ...p, ...q }` on patch objects: a key present in `q` wins, any
      other key keeps what `p` has. */
  function Merge(p: StationPatch, q: StationPatch): StationPatch {
    StationPatch(q.id.Or(p.id), q.name.Or(p.name), q.address.Or(p.address), q.city.Or(p.city),
                 q.state.Or(p.state), q.latitude.Or(p.latitude), q.longitude.Or(p.longitude),
                 q.totalChargers.Or(p.totalChargers), q.availableChargers.Or(p.availableChargers),
                 q.powerOutput.Or(p.powerOutput), q.connectorTypes.Or(p.connectorTypes),
                 q.amenities.Or(p.amenities), q.pricePerKwh.Or(p.pricePerKwh), q.status.Or(p.status),
                 q.ownerId.Or(p.ownerId), q.createdAt.Or(p.createdAt), q.updatedAt.Or(p.updatedAt))
  }

  /** `k` is the index of the first record whose identifier is `id`. */
  predicate IsFirstMatch(stations: seq<Station>, id: string, k: int) {
    IsFirstWhere(stations, (s: Station) => s.id == id, k)
  }

  /** `k` is the index of the first booking whose identifier is `id`. */
  predicate IsFirstBooking(bookings: seq<Booking>, id: string, k: int) {
    IsFirstWhere(bookings, (b: Booking) => b.id == id, k)
  }

  /** `stations.findIndex(s => s.id === id)`. */
  function StationIndex(stations: seq<Station>, id: string): (k: int)
    ensures k == -1 <==> forall j :: 0 <= j < |stations| ==> stations[j].id != id
    ensures k != -1 ==> IsFirstMatch(stations, id, k)
  {
    IndexWhere(stations, (s: Station) => s.id == id)
  }

  /** `getStation`: the first station with identifier `id`, or none. */
  function FindStation(stations: seq<Station>, id: string): (r: Option<Station>)
    ensures r.None? <==> forall j :: 0 <= j < |stations| ==> stations[j].id != id
    ensures forall k :: IsFirstMatch(stations, id, k) ==> r == Some(stations[k])
  {
    var k := StationIndex(stations, id);
    if k == -1 then None else Some(stations[k])
  }

  /** The collection after `updateStationById(id, p)` at time `now`. */
  function UpdatedStations(stations: seq<Station>, id: string, p: StationPatch, now: string): (r: seq<Station>)
    ensures |r| == |stations|
    ensures (forall j :: 0 <= j < |stations| ==> stations[j].id != id) ==> r == stations
    ensures forall k :: 0 <= k < |stations| && !IsFirstMatch(stations, id, k) ==> r[k] == stations[k]
    ensures forall k :: IsFirstMatch(stations, id, k) ==> r[k] == Patched(stations[k], id, p, now)
  {
    var k := StationIndex(stations, id);
    if k == -1 then stations else stations[k := Patched(stations[k], id, p, now)]
  }

  /** The collection after `deleteStation(id)`. */
  function WithoutStation(stations: seq<Station>, id: string): (r: seq<Station>)
    ensures forall k :: 0 <= k < |r| ==> r[k].id != id && r[k] in stations
    ensures forall k :: 0 <= k < |stations| && stations[k].id != id ==> stations[k] in r
    ensures forall k :: 0 <= k < |stations| && stations[k].id != id ==>
              multiset(r)[stations[k]] == multiset(stations)[stations[k]]
    ensures IsSubsequence(r, stations)
  {
    FilterIsSubsequence(stations, (s: Station) => s.id != id);
    FilterCounts(stations, (s: Station) => s.id != id);
    Filter(stations, (s: Station) => s.id != id)
  }

  /** `getUserBookings(userId)`: the user's bookings in stored order. */
  function UserBookings(bookings: seq<Booking>, userId: string): (r: seq<Booking>)
    ensures forall k :: 0 <= k < |r| ==> r[k].userId == userId && r[k] in bookings
    ensures forall k :: 0 <= k < |bookings| && bookings[k].userId == userId ==> bookings[k] in r
    ensures forall k :: 0 <= k < |bookings| && bookings[k].userId == userId ==>
              multiset(r)[bookings[k]] == multiset(bookings)[bookings[k]]
    ensures IsSubsequence(r, bookings)
  {
    FilterIsSubsequence(bookings, (b: Booking) => b.userId == userId);
    FilterCounts(bookings, (b: Booking) => b.userId == userId);
    Filter(bookings, (b: Booking) => b.userId == userId)
  }

  /** `getStationChargers(stationId)`: the station's chargers in stored order. */
  function StationChargers(chargers: seq<Charger>, stationId: string): (r: seq<Charger>)
    ensures forall k :: 0 <= k < |r| ==> r[k].stationId == stationId && r[k] in chargers
    ensures forall k :: 0 <= k < |chargers| && chargers[k].stationId == stationId ==> chargers[k] in r
    ensures forall k :: 0 <= k < |chargers| && chargers[k].stationId == stationId ==>
              multiset(r)[chargers[k]] == multiset(chargers)[chargers[k]]
    ensures IsSubsequence(r, chargers)
  {
    FilterIsSubsequence(chargers, (c: Charger) => c.stationId == stationId);
    FilterCounts(chargers, (c: Charger) => c.stationId == stationId);
    Filter(chargers, (c: Charger) => c.stationId == stationId)
  }

  /** `bookings.findIndex(b => b.id === id)`. */
  function BookingIndex(bookings: seq<Booking>, id: string): (k: int)
    ensures k == -1 <==> forall j :: 0 <= j < |bookings| ==> bookings[j].id != id
    ensures k != -1 ==> IsFirstBooking(bookings, id, k)
  {
    IndexWhere(bookings, (b: Booking) => b.id == id)
  }

  /** The collection after `updateBooking(b)`: `b` replaces the first booking
      with its identifier; nothing happens when there is none. */
  function ReplacedBooking(bookings: seq<Booking>, b: Booking): (r: seq<Booking>)
    ensures |r| == |bookings|
    ensures (forall j :: 0 <= j < |bookings| ==> bookings[j].id != b.id) ==> r == bookings
    ensures forall k :: 0 <= k < |bookings| && !IsFirstBooking(bookings, b.id, k) ==> r[k] == bookings[k]
    ensures forall k :: IsFirstBooking(bookings, b.id, k) ==> r[k] == b
  {
    var k := BookingIndex(bookings, b.id);
    if k == -1 then bookings else bookings[k := b]
  }

  // ---------------------------------------------------------------------------
  // Facts about the record operations

  /** A patch without fields only refreshes the update time. */
  lemma EmptyPatchOnlyRestamps(s: Station, now: string)
    ensures Patched(s, s.id, NoChanges, now) == s.(updatedAt := now)
  {
  }

  /** A whole station used as a patch replaces the record, except that the
      identifier stays and the update time is refreshed. */
  lemma FullPatchReplaces(s: Station, t: Station, id: string, now: string)
    ensures Patched(s, id, FullPatch(t), now) == t.(id := id, updatedAt := now)
  {
  }

  /** A partial patch changes the fields it carries and keeps the others:
      `{ available_chargers: v }` sets that count and touches nothing but the
      update time. */
  lemma PartialPatchKeepsOthers(s: Station, v: real, name: string, now: string)
    ensures Patched(s, s.id, NoChanges.(availableChargers := Some(v)), now) ==
              s.(availableChargers := v, updatedAt := now)
    ensures Patched(s, s.id, NoChanges.(name := Some(name), availableChargers := Some(v)), now) ==
              s.(name := name, availableChargers := v, updatedAt := now)
  {
  }

  /** Two successive patches of the same record act as one patch holding
      the keys of both, the later patch winning where both have a key. */
  lemma PatchCompose(s: Station, id: string, p: StationPatch, q: StationPatch, now1: string, now2: string)
    ensures Patched(Patched(s, id, p, now1), id, q, now2) == Patched(s, id, Merge(p, q), now2)
  {
  }

  /** An identifier carried by the patch is ignored. */
  lemma PatchIgnoresPatchId(s: Station, id: string, p: StationPatch, other: string, now: string)
    ensures Patched(s, id, p.(id := Some(other)), now) == Patched(s, id, p, now)
  {
  }

  /** Applying the same patch twice is applying it once (later time wins). */
  lemma PatchTwice(s: Station, id: string, p: StationPatch, now1: string, now2: string)
    ensures Patched(Patched(s, id, p, now1), id, p, now2) == Patched(s, id, p, now2)
  {
  }

  /** A created station, stripped of identifier and timestamps, is what the
      caller passed. */
  lemma NewStationRoundTrip(f: StationFields, stamp: string, created: string, updated: string)
    ensures FieldsOf(NewStation(f, stamp, created, updated)) == f
  {
  }

  /** Looking up a freshly created station by its identifier finds it, unless
      an older record already carries that identifier: then the older one
      wins, since identifiers are not unique. */
  lemma {:induction false} FindAfterCreate(stations: seq<Station>, f: StationFields, stamp: string,
                                           created: string, updated: string)
    ensures var s := NewStation(f, stamp, created, updated);
            FindStation(stations + [s], s.id) ==
              if FindStation(stations, s.id).Some? then FindStation(stations, s.id) else Some(s)
  {
    var s := NewStation(f, stamp, created, updated);
    var all := stations + [s];
    var k := StationIndex(stations, s.id);
    if k == -1 {
      assert IsFirstMatch(all, s.id, |stations|) by {
        forall j | 0 <= j < |stations| ensures all[j].id != s.id {
          assert all[j] == stations[j];
        }
      }
    } else {
      assert IsFirstMatch(all, s.id, k) by {
        forall j | 0 <= j < k ensures all[j].id != s.id {
          assert all[j] == stations[j];
        }
      }
    }
  }

  /** Deleting twice is deleting once. */
  lemma DeleteIdempotent(stations: seq<Station>, id: string)
    ensures WithoutStation(WithoutStation(stations, id), id) == WithoutStation(stations, id)
  {
    FilterIdempotent(stations, (s: Station) => s.id != id);
  }

  /** Deleting an absent identifier changes nothing. */
  lemma DeleteAbsentIsNoOp(stations: seq<Station>, id: string)
    requires forall j :: 0 <= j < |stations| ==> stations[j].id != id
    ensures WithoutStation(stations, id) == stations
  {
    FilterKeepsAll(stations, (s: Station) => s.id != id);
  }

  /** Deletion works part by part: the survivors of a concatenation are the
      survivors of each part, in order. */
  lemma DeleteAppend(a: seq<Station>, b: seq<Station>, id: string)
    ensures WithoutStation(a + b, id) == WithoutStation(a, id) + WithoutStation(b, id)
  {
    FilterAppend(a, b, (s: Station) => s.id != id);
  }

  /** Patch and delete treat duplicate identifiers differently: a patch leaves
      a later record with the same identifier untouched, a delete removes it. */
  lemma UpdateFirstDeleteAll(stations: seq<Station>, id: string, p: StationPatch, now: string, i: int, j: int)
    requires 0 <= i < j < |stations| && stations[i].id == id && stations[j].id == id
    ensures UpdatedStations(stations, id, p, now)[j] == stations[j]
    ensures stations[j].id == id && stations[j] !in WithoutStation(stations, id)
  {
    assert !IsFirstMatch(stations, id, j);
  }

  /** Replacing a booking keeps every other booking and puts `b` in place of
      the first booking with its identifier, which is then found first. */
  lemma {:induction false} ReplacedBookingFoundFirst(bookings: seq<Booking>, b: Booking)
    requires exists j :: 0 <= j < |bookings| && bookings[j].id == b.id
    ensures var r := ReplacedBooking(bookings, b);
            var k := BookingIndex(r, b.id);
            k == BookingIndex(bookings, b.id) && r[k] == b
  {
    var k := BookingIndex(bookings, b.id);
    var r := ReplacedBooking(bookings, b);
    assert IsFirstBooking(bookings, b.id, k);
    assert r == bookings[k := b];
    assert IsFirstBooking(r, b.id, k);
  }

  // ---------------------------------------------------------------------------
  // The store itself

  /** The three persisted collections. Each operation reads a collection and
      writes it back whole, as the source does with its storage buckets. */
  class Store {
    var stations: seq<Station>
    var bookings: seq<Booking>
    var chargers: seq<Charger>

    /** The store holding the given initial contents (the seeded data). */
    constructor (stations: seq<Station>, bookings: seq<Booking>, chargers: seq<Charger>)
      ensures this.stations == stations && this.bookings == bookings && this.chargers == chargers
    {
      this.stations := stations;
      this.bookings := bookings;
      this.chargers := chargers;
    }

    /** `getStation(id)`: the first stored station with that identifier. */
    function GetStation(id: string): (r: Option<Station>)
      reads this
      ensures r.None? <==> forall j :: 0 <= j < |stations| ==> stations[j].id != id
      ensures forall k :: IsFirstMatch(stations, id, k) ==> r == Some(stations[k])
    {
      FindStation(stations, id)
    }

    /** `getStationById(id)`: an alias of `getStation`. */
    function GetStationById(id: string): (r: Option<Station>)
      reads this
      ensures r == GetStation(id)
    {
      GetStation(id)
    }

    /** `createStation`: appends one record at the end and returns it. */
    method CreateStation(f: StationFields, stamp: string, created: string, updated: string) returns (s: Station)
      modifies this
      ensures s == NewStation(f, stamp, created, updated)
      ensures stations == old(stations) + [s]
      ensures bookings == old(bookings) && chargers == old(chargers)
    {
      s := NewStation(f, stamp, created, updated);
      stations := stations + [s];
    }

    /** `updateStationById`: merges `p` into the first station with identifier
        `id`; without such a station nothing is written. */
    method UpdateStationById(id: string, p: StationPatch, now: string)
      modifies this
      ensures stations == UpdatedStations(old(stations), id, p, now)
      ensures bookings == old(bookings) && chargers == old(chargers)
    {
      var index := StationIndex(stations, id);
      if index == -1 {
        return;
      }
      stations := stations[index := Patched(stations[index], id, p, now)];
    }

    /** `updateStation(s)`: `updateStationById(s.id, s)`. */
    method UpdateStation(s: Station, now: string)
      modifies this
      ensures stations == UpdatedStations(old(stations), s.id, FullPatch(s), now)
      ensures forall k :: IsFirstMatch(old(stations), s.id, k) ==> stations[k] == s.(updatedAt := now)
      ensures bookings == old(bookings) && chargers == old(chargers)
    {
      UpdateStationById(s.id, FullPatch(s), now);
    }

    /** `deleteStation`: writes back every station whose identifier differs. */
    method DeleteStation(id: string)
      modifies this
      ensures stations == WithoutStation(old(stations), id)
      ensures bookings == old(bookings) && chargers == old(chargers)
    {
      stations := Filter(stations, (s: Station) => s.id != id);
    }

    /** `getUserBookings(userId)`. */
    function GetUserBookings(userId: string): (r: seq<Booking>)
      reads this
      ensures forall k :: 0 <= k < |r| ==> r[k].userId == userId && r[k] in bookings
      ensures forall k :: 0 <= k < |bookings| && bookings[k].userId == userId ==> bookings[k] in r
      ensures forall k :: 0 <= k < |bookings| && bookings[k].userId == userId ==>
                multiset(r)[bookings[k]] == multiset(bookings)[bookings[k]]
      ensures IsSubsequence(r, bookings)
    {
      UserBookings(bookings, userId)
    }

    /** `createBooking`: appends one booking at the end and returns it. */
    method CreateBooking(f: BookingFields, stamp: string, now: string) returns (b: Booking)
      modifies this
      ensures b == NewBooking(f, stamp, now)
      ensures bookings == old(bookings) + [b]
      ensures stations == old(stations) && chargers == old(chargers)
    {
      b := NewBooking(f, stamp, now);
      bookings := bookings + [b];
    }

    /** `updateBooking(b)`: replaces the first booking with `b`'s identifier. */
    method UpdateBooking(b: Booking)
      modifies this
      ensures bookings == ReplacedBooking(old(bookings), b)
      ensures stations == old(stations) && chargers == old(chargers)
    {
      var index := BookingIndex(bookings, b.id);
      if index != -1 {
        bookings := bookings[index := b];
      }
    }

    /** `getStationChargers(stationId)`. */
    function GetStationChargers(stationId: string): (r: seq<Charger>)
      reads this
      ensures forall k :: 0 <= k < |r| ==> r[k].stationId == stationId && r[k] in chargers
      ensures forall k :: 0 <= k < |chargers| && chargers[k].stationId == stationId ==> chargers[k] in r
      ensures forall k :: 0 <= k < |chargers| && chargers[k].stationId == stationId ==>
                multiset(r)[chargers[k]] == multiset(chargers)[chargers[k]]
      ensures IsSubsequence(r, chargers)
    {
      StationChargers(chargers, stationId)
    }
  }
}
