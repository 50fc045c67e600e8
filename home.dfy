/** The station list of `components/home-content.tsx`: the active-station
    search and the truncated lists shown in the map and list views. */
module Home {
  import opened Wrappers
  import opened Types
  import opened Seqs
  import opened Strings

  /** The search filter for one station: it is active and the lower-cased
      query occurs in its lower-cased name or address. `lower` is the
      platform's `toLowerCase`; `Strings.ToLower` is an ASCII instance. */
  predicate Matches(st: Station, query: string, lower: string -> string) {
    st.status == StationStatus.Active &&
    (Includes(lower(st.name), lower(query)) || Includes(lower(st.address), lower(query)))
  }

  /** `filteredStations`: the matching stations, in stored order, every copy
      kept. */
  function FilteredStations(stations: seq<Station>, query: string, lower: string -> string): (r: seq<Station>)
    ensures forall k :: 0 <= k < |r| ==> r[k] in stations && Matches(r[k], query, lower)
    ensures forall k :: 0 <= k < |stations| && Matches(stations[k], query, lower) ==> stations[k] in r
    ensures forall k :: 0 <= k < |stations| && Matches(stations[k], query, lower) ==>
              multiset(r)[stations[k]] == multiset(stations)[stations[k]]
    ensures IsSubsequence(r, stations)
  {
    FilterIsSubsequence(stations, (st: Station) => Matches(st, query, lower));
    FilterCounts(stations, (st: Station) => Matches(st, query, lower));
    Filter(stations, (st: Station) => Matches(st, query, lower))
  }

  /** With an empty query the search keeps exactly the active stations
      (any case mapping that sends "" to "" will do). */
  lemma EmptyQueryKeepsActive(stations: seq<Station>, lower: string -> string)
    requires lower("") == ""
    ensures FilteredStations(stations, "", lower) ==
              Filter(stations, (st: Station) => st.status == StationStatus.Active)
  {
    forall k | 0 <= k < |stations|
      ensures Matches(stations[k], "", lower) == (stations[k].status == StationStatus.Active)
    {
      IncludesEmpty(lower(stations[k].name));
    }
    FilterAgree(stations, (st: Station) => Matches(st, "", lower),
                (st: Station) => st.status == StationStatus.Active);
  }

  /** The search ignores the case of the query, for any case mapping that is
      idempotent on it. */
  lemma QueryCaseIgnored(stations: seq<Station>, query: string, lower: string -> string)
    requires lower(lower(query)) == lower(query)
    ensures FilteredStations(stations, lower(query), lower) == FilteredStations(stations, query, lower)
  {
    FilterAgree(stations, (st: Station) => Matches(st, lower(query), lower),
                (st: Station) => Matches(st, query, lower));
  }

  /** The ASCII case mapping meets both assumptions above. */
  lemma AsciiLowerQualifies(query: string)
    ensures ToLower("") == ""
    ensures ToLower(ToLower(query)) == ToLower(query)
  {
    ToLowerIdempotent(query);
  }

  /** The side panel of the map view: the heading's count and the cards. */
  datatype MapPanel = MapPanel(count: nat, cards: seq<Station>)

  /** The heading shows how many stations were found; the cards are the first
      five of them (`slice(0, 5)`). */
  function MapPanelOf(filtered: seq<Station>): (r: MapPanel)
    ensures r.count == |filtered|
    ensures r.cards <= filtered
    ensures |r.cards| == if |filtered| < 5 then |filtered| else 5
  {
    MapPanel(|filtered|, if |filtered| < 5 then filtered else filtered[..5])
  }

  /** A list-view card shows the station's first three amenities (`slice(0, 3)`). */
  function AmenityBadges(st: Station): (r: seq<string>)
    ensures r <= st.amenities
    ensures |r| == if |st.amenities| < 3 then |st.amenities| else 3
  {
    if |st.amenities| < 3 then st.amenities else st.amenities[..3]
  }
}
