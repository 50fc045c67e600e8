/** The admin station manager (`app/admin/stations-maneger/page.tsx`): the
    same figures as the dashboard behind the same admin guard, plus a station
    list in which one station at a time is selected. */
module StationsManager {
  import opened Wrappers
  import opened Types
  import opened Guards
  import opened AdminDashboard

  /** The page state once loaded: its figures, the list, the selection. */
  datatype ManagerView = ManagerView(summary: Summary, stations: seq<Station>, selected: Option<Station>)

  /** Loading the page: an admin gets the figures and the list with nothing
      selected; anyone else is redirected and nothing is loaded. */
  function Open(user: Option<User>, stations: seq<Station>, bookings: seq<Booking>): (r: Load<ManagerView>)
    ensures r.Loaded? <==> user.Some? && user.value.role == RoleAdmin
    ensures r.Loaded? ==> r.data.summary == Summarize(stations, bookings)
    ensures r.Loaded? ==> r.data.stations == stations && r.data.selected == None
  {
    RequireAdmin(user, ManagerView(Summarize(stations, bookings), stations, None))
  }

  /** Clicking a station in the list makes it the selected station. */
  function Select(view: ManagerView, clicked: Station): (r: ManagerView)
    ensures r.selected == Some(clicked)
    ensures r.summary == view.summary && r.stations == view.stations
  {
    view.(selected := Some(clicked))
  }

  /** A list entry is drawn as selected when its identifier is the selected
      station's. */
  predicate Highlighted(view: ManagerView, st: Station) {
    view.selected.Some? && view.selected.value.id == st.id
  }

  /** The list's identifiers are pairwise different. */
  predicate DistinctIds(stations: seq<Station>) {
    forall i, j :: 0 <= i < j < |stations| ==> stations[i].id != stations[j].id
  }

  /** After a click, an entry is highlighted exactly when it shares the
      clicked station's identifier: every entry with a repeated identifier
      lights up together. */
  lemma SelectHighlightsSameId(view: ManagerView, clicked: Station)
    ensures forall j :: 0 <= j < |view.stations| ==>
              (Highlighted(Select(view, clicked), view.stations[j]) <==> view.stations[j].id == clicked.id)
  {
  }

  /** With distinct identifiers, a click highlights the clicked entry alone. */
  lemma SelectHighlightsOnlyClicked(view: ManagerView, k: int)
    requires 0 <= k < |view.stations| && DistinctIds(view.stations)
    ensures forall j :: 0 <= j < |view.stations| ==>
              (Highlighted(Select(view, view.stations[k]), view.stations[j]) <==> j == k)
  {
    var s := view.stations;
    SelectHighlightsSameId(view, s[k]);
    forall j | 0 <= j < |s|
      ensures s[j].id == s[k].id <==> j == k
    {
      if j < k {
        assert s[j].id != s[k].id;
      } else if k < j {
        assert s[k].id != s[j].id;
      }
    }
  }
}
