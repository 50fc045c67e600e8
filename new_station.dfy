/** The new-station page (`app/admin/stations/new/page.tsx`): two tag lists
    (connector types and amenities) edited through an input box, and the
    station record submitted to the store. */
module NewStationPage {
  import opened Types
  import opened Seqs
  import opened Db

  /** A tag list together with the text typed in its input box. */
  datatype TagInput = TagInput(tags: seq<string>, draft: string)

  /** The empty list and empty box the page starts with. */
  const EmptyTags: TagInput := TagInput([], "")

  /** `addConnectorType` / `addAmenity`: a non-empty draft not yet in the list
      is appended and the box is cleared; otherwise nothing changes. */
  function AddTag(t: TagInput): (r: TagInput)
    ensures t.draft != "" && t.draft !in t.tags ==> r.tags == t.tags + [t.draft] && r.draft == ""
    ensures t.draft == "" || t.draft in t.tags ==> r == t
  {
    if t.draft != "" && t.draft !in t.tags then TagInput(t.tags + [t.draft], "") else t
  }

  /** The remove button on a badge: `tags.filter(t => t !== tag)`. Every
      equal entry goes, the others stay in order. */
  function RemoveTag(tags: seq<string>, tag: string): (r: seq<string>)
    ensures tag !in r
    ensures forall k :: 0 <= k < |r| ==> r[k] in tags
    ensures forall k :: 0 <= k < |tags| && tags[k] != tag ==> tags[k] in r
    ensures forall k :: 0 <= k < |tags| && tags[k] != tag ==> multiset(r)[tags[k]] == multiset(tags)[tags[k]]
    ensures IsSubsequence(r, tags)
  {
    FilterIsSubsequence(tags, (x: string) => x != tag);
    FilterCounts(tags, (x: string) => x != tag);
    Filter(tags, (x: string) => x != tag)
  }

  /** What the user can do to one tag list: type in the box, press add, or
      press a badge's remove button. */
  datatype TagAction = Type(text: string) | Add | Remove(tag: string)

  function Step(t: TagInput, a: TagAction): TagInput {
    match a
    case Type(text) => t.(draft := text)
    case Add => AddTag(t)
    case Remove(tag) => t.(tags := RemoveTag(t.tags, tag))
  }

  /** The tag list after a series of user actions, in order. */
  function Run(t: TagInput, actions: seq<TagAction>): TagInput
    decreases |actions|
  {
    if actions == [] then t else Run(Step(t, actions[0]), actions[1..])
  }

  /** Adding keeps the list free of duplicates. */
  lemma AddTagKeepsDistinct(t: TagInput)
    requires Distinct(t.tags)
    ensures Distinct(AddTag(t).tags)
  {
    if t.draft != "" && t.draft !in t.tags {
      var r := t.tags + [t.draft];
      forall i, j | 0 <= i < j < |r| ensures r[i] != r[j] {
        if j == |t.tags| {
          assert r[i] == t.tags[i];
        }
      }
    }
  }

  /** Every action keeps the list free of duplicates. */
  lemma StepKeepsDistinct(t: TagInput, a: TagAction)
    requires Distinct(t.tags)
    ensures Distinct(Step(t, a).tags)
  {
    match a
    case Type(_) =>
    case Add => AddTagKeepsDistinct(t);
    case Remove(tag) => FilterDistinct(t.tags, (x: string) => x != tag);
  }

  /** Any series of actions keeps the list free of duplicates. */
  lemma {:induction false} RunKeepsDistinct(t: TagInput, actions: seq<TagAction>)
    requires Distinct(t.tags)
    ensures Distinct(Run(t, actions).tags)
    decreases |actions|
  {
    if actions != [] {
      StepKeepsDistinct(t, actions[0]);
      RunKeepsDistinct(Step(t, actions[0]), actions[1..]);
    }
  }

  /** The text fields of the form, as typed. */
  datatype NewStationForm = NewStationForm(
    name: string,
    address: string,
    latitude: string,
    longitude: string,
    totalChargers: string,
    pricePerKwh: string,
    powerOutput: string)

  /** The whole page state: the form and the two tag lists. */
  datatype PageState = PageState(form: NewStationForm, connectors: TagInput, amenities: TagInput)

  /** The page as it opens: every field empty, both lists empty. */
  const InitialPage: PageState :=
    PageState(NewStationForm("", "", "", "", "", "", ""), EmptyTags, EmptyTags)

  /** `addConnectorType`: only the connector list and its box change. */
  function AddConnectorType(p: PageState): (r: PageState)
    ensures r.connectors == AddTag(p.connectors)
    ensures r.form == p.form && r.amenities == p.amenities
  {
    p.(connectors := AddTag(p.connectors))
  }

  /** `addAmenity`: only the amenity list and its box change. */
  function AddAmenity(p: PageState): (r: PageState)
    ensures r.amenities == AddTag(p.amenities)
    ensures r.form == p.form && r.connectors == p.connectors
  {
    p.(amenities := AddTag(p.amenities))
  }

  /** The record `handleSubmit` passes to `createStation`. `parseFloat` and
      `parseInt` stand for the browser's number parsing. All capacity is
      available, the station is active and owned by "admin-1". The form has
      no city or state: both are stored empty. */
  function SubmittedStation(p: PageState, parseFloat: string -> real, parseInt: string -> int): (f: StationFields)
    ensures f.totalChargers == parseInt(p.form.totalChargers) as real
    ensures f.availableChargers == f.totalChargers
    ensures f.status == StationStatus.Active && f.ownerId == "admin-1"
    ensures f.name == p.form.name && f.address == p.form.address
    ensures f.connectorTypes == p.connectors.tags && f.amenities == p.amenities.tags
    ensures f.powerOutput == p.form.powerOutput && f.pricePerKwh == parseFloat(p.form.pricePerKwh)
    ensures f.latitude == parseFloat(p.form.latitude) && f.longitude == parseFloat(p.form.longitude)
    ensures f.city == "" && f.state == ""
  {
    var chargers := parseInt(p.form.totalChargers) as real;
    StationFields(p.form.name, p.form.address, "", "",
                  parseFloat(p.form.latitude), parseFloat(p.form.longitude),
                  chargers, chargers, p.form.powerOutput,
                  p.connectors.tags, p.amenities.tags,
                  parseFloat(p.form.pricePerKwh), StationStatus.Active, "admin-1")
  }

  /** Whatever the user did to the two lists since the page opened, the
      submitted station lists no connector type and no amenity twice. */
  lemma SubmittedTagsDistinct(form: NewStationForm, connectorActions: seq<TagAction>, amenityActions: seq<TagAction>,
                              parseFloat: string -> real, parseInt: string -> int)
    ensures var p := PageState(form, Run(EmptyTags, connectorActions), Run(EmptyTags, amenityActions));
            var f := SubmittedStation(p, parseFloat, parseInt);
            Distinct(f.connectorTypes) && Distinct(f.amenities)
  {
    RunKeepsDistinct(EmptyTags, connectorActions);
    RunKeepsDistinct(EmptyTags, amenityActions);
  }
}
