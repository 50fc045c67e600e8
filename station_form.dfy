/** The station create/edit form (`components/station-form.tsx`). The form
    object is keyed by field name and updated by `{ ...prev, [name]: value }`,
    so it is a map from field names to text or number values. Submitting
    either patches the edited station or creates a new one. */
module StationForm {
  import opened Wrappers
  import opened Types
  import opened Db

  /** A form value: inputs of type "number" store numbers, all others text. */
  datatype FieldValue = Text(text: string) | Num(number: real)

  type Form = map<string, FieldValue>

  /** The fields that hold text (the status is text too, see below). */
  const TextFields: set<string> := {"name", "address", "city", "state", "power_output"}

  /** The fields that hold numbers. */
  const NumberFields: set<string> := {"latitude", "longitude", "total_chargers", "available_chargers", "price_per_kwh"}

  /** The kind of control a field is edited with. Latitude, longitude and
      power output are in the form state but have no control. */
  datatype InputKind = TextInput | NumberInput | SelectInput

  const Inputs: map<string, InputKind> := map[
    "name" := TextInput, "address" := TextInput, "city" := TextInput, "state" := TextInput,
    "total_chargers" := NumberInput, "available_chargers" := NumberInput,
    "price_per_kwh" := NumberInput, "status" := SelectInput]

  /** Every field is present with its kind, and the status text names a
      station status. */
  predicate WellTyped(form: Form) {
    && (forall n :: n in TextFields ==> n in form && form[n].Text?)
    && (forall n :: n in NumberFields ==> n in form && form[n].Num?)
    && "status" in form && form["status"].Text? && ParseStationStatus(form["status"].text).Some?
  }

  /** The initial form: every field from the station being edited, or the
      defaults for a new station (empty text, coordinates 0, one charger of
      which one is available, 0.5 per kWh, "22kW", active). */
  function InitialForm(station: Option<Station>): (r: Form)
    ensures WellTyped(r)
    ensures r.Keys == TextFields + NumberFields + {"status"}
  {
    StationStatusRoundTrip(if station.Some? then station.value.status else StationStatus.Active);
    match station
    case None =>
      map["name" := Text(""), "address" := Text(""), "city" := Text(""), "state" := Text(""),
          "latitude" := Num(0.0), "longitude" := Num(0.0),
          "total_chargers" := Num(1.0), "available_chargers" := Num(1.0),
          "price_per_kwh" := Num(0.5), "power_output" := Text("22kW"),
          "status" := Text(StationStatusText(StationStatus.Active))]
    case Some(s) =>
      map["name" := Text(s.name), "address" := Text(s.address), "city" := Text(s.city),
          "state" := Text(s.state), "latitude" := Num(s.latitude), "longitude" := Num(s.longitude),
          "total_chargers" := Num(s.totalChargers), "available_chargers" := Num(s.availableChargers),
          "price_per_kwh" := Num(s.pricePerKwh), "power_output" := Text(s.powerOutput),
          "status" := Text(StationStatusText(s.status))]
  }

  /** A change event: the control's name, its text, and whether it is a
      number input. */
  datatype ChangeEvent = ChangeEvent(name: string, value: string, isNumberInput: bool)

  /** `handleChange`: the named field gets the event's value, converted by
      `toNumber` (the browser's `Number`) for a number input; every other
      field keeps its value. */
  function HandleChange(form: Form, e: ChangeEvent, toNumber: string -> real): (r: Form)
    ensures r.Keys == form.Keys + {e.name}
    ensures forall n :: n in form && n != e.name ==> r[n] == form[n]
    ensures e.isNumberInput ==> r[e.name] == Num(toNumber(e.value))
    ensures !e.isNumberInput ==> r[e.name] == Text(e.value)
  {
    form[e.name := if e.isNumberInput then Num(toNumber(e.value)) else Text(e.value)]
  }

  /** An event one of the form's own controls can raise: a known name, the
      number flag matching the control, and a select value among its options. */
  predicate FromControl(e: ChangeEvent) {
    && e.name in Inputs
    && e.isNumberInput == (Inputs[e.name] == NumberInput)
    && (Inputs[e.name] == SelectInput ==> ParseStationStatus(e.value).Some?)
  }

  /** Editing through the form's controls keeps every field present with its
      kind, and adds no field. */
  lemma HandleChangeKeepsWellTyped(form: Form, e: ChangeEvent, toNumber: string -> real)
    requires WellTyped(form) && FromControl(e)
    ensures WellTyped(HandleChange(form, e, toNumber))
    ensures HandleChange(form, e, toNumber).Keys == form.Keys
  {
    var r := HandleChange(form, e, toNumber);
    assert e.name in TextFields || e.name in NumberFields || e.name == "status";
    forall n | n in NumberFields ensures n in r && r[n].Num? {
      if n == e.name {
        assert Inputs[n] == NumberInput;
      }
    }
    forall n | n in TextFields ensures n in r && r[n].Text? {
      if n == e.name {
        assert Inputs[n] != NumberInput;
      }
    }
  }

  function TextAt(form: Form, n: string): string
    requires n in form && form[n].Text?
  {
    form[n].text
  }

  function NumberAt(form: Form, n: string): real
    requires n in form && form[n].Num?
  {
    form[n].number
  }

  /** The form as a partial station: exactly its eleven fields. */
  function FormPatch(form: Form): (p: StationPatch)
    requires WellTyped(form)
    ensures p.id.None? && p.connectorTypes.None? && p.amenities.None?
    ensures p.ownerId.None? && p.createdAt.None? && p.updatedAt.None?
    ensures p.name == Some(TextAt(form, "name")) && p.address == Some(TextAt(form, "address"))
    ensures p.city == Some(TextAt(form, "city")) && p.state == Some(TextAt(form, "state"))
    ensures p.powerOutput == Some(TextAt(form, "power_output"))
    ensures p.latitude == Some(NumberAt(form, "latitude")) && p.longitude == Some(NumberAt(form, "longitude"))
    ensures p.totalChargers == Some(NumberAt(form, "total_chargers"))
    ensures p.availableChargers == Some(NumberAt(form, "available_chargers"))
    ensures p.pricePerKwh == Some(NumberAt(form, "price_per_kwh"))
    ensures p.status.Some? && StationStatusText(p.status.value) == TextAt(form, "status")
  {
    StationPatch(None, Some(TextAt(form, "name")), Some(TextAt(form, "address")),
                 Some(TextAt(form, "city")), Some(TextAt(form, "state")),
                 Some(NumberAt(form, "latitude")), Some(NumberAt(form, "longitude")),
                 Some(NumberAt(form, "total_chargers")), Some(NumberAt(form, "available_chargers")),
                 Some(TextAt(form, "power_output")), None, None,
                 Some(NumberAt(form, "price_per_kwh")),
                 ParseStationStatus(TextAt(form, "status")), None, None, None)
  }

  /** `{ ...form, connector_types: [], amenities: [], owner_id: "admin" }`. */
  function FormFields(form: Form): (f: StationFields)
    requires WellTyped(form)
    ensures f.connectorTypes == [] && f.amenities == [] && f.ownerId == "admin"
    ensures f.name == TextAt(form, "name") && f.address == TextAt(form, "address")
    ensures f.city == TextAt(form, "city") && f.state == TextAt(form, "state")
    ensures f.powerOutput == TextAt(form, "power_output")
    ensures f.latitude == NumberAt(form, "latitude") && f.longitude == NumberAt(form, "longitude")
    ensures f.totalChargers == NumberAt(form, "total_chargers")
    ensures f.availableChargers == NumberAt(form, "available_chargers")
    ensures f.pricePerKwh == NumberAt(form, "price_per_kwh")
    ensures StationStatusText(f.status) == TextAt(form, "status")
  {
    StationFields(TextAt(form, "name"), TextAt(form, "address"), TextAt(form, "city"),
                  TextAt(form, "state"), NumberAt(form, "latitude"), NumberAt(form, "longitude"),
                  NumberAt(form, "total_chargers"), NumberAt(form, "available_chargers"),
                  TextAt(form, "power_output"), [], [], NumberAt(form, "price_per_kwh"),
                  ParseStationStatus(TextAt(form, "status")).value, "admin")
  }

  /** The two things a submit can do to the store. */
  datatype SubmitAction = UpdateExisting(id: string, patch: StationPatch) | CreateNew(fields: StationFields)

  /** `handleSubmit`: with a station, patch it by its identifier; without
      one, create a station from the form. */
  function HandleSubmit(station: Option<Station>, form: Form): (r: SubmitAction)
    requires WellTyped(form)
    ensures r.UpdateExisting? <==> station.Some?
    ensures r.UpdateExisting? ==> r.id == station.value.id && r.patch == FormPatch(form)
    ensures r.CreateNew? ==> r.fields == FormFields(form)
  {
    if station.Some? then UpdateExisting(station.value.id, FormPatch(form)) else CreateNew(FormFields(form))
  }

  /** Saving an edit keeps the record's identifier and every field the form
      does not hold (connector types, amenities, owner, creation time), and
      refreshes its update time. */
  lemma EditKeepsFieldsOutsideForm(stations: seq<Station>, st: Station, form: Form, now: string, k: int)
    requires WellTyped(form) && IsFirstMatch(stations, st.id, k)
    ensures var r := UpdatedStations(stations, st.id, HandleSubmit(Some(st), form).patch, now);
            && r[k].id == stations[k].id
            && r[k].connectorTypes == stations[k].connectorTypes
            && r[k].amenities == stations[k].amenities
            && r[k].ownerId == stations[k].ownerId
            && r[k].createdAt == stations[k].createdAt
            && r[k].updatedAt == now
  {
  }

  /** The station fields hold what a change event typed into its control:
      the text itself, the number `toNumber` makes of it for a number input,
      or the status the select's value spells. */
  predicate CarriesEvent(f: StationFields, e: ChangeEvent, toNumber: string -> real) {
    && (e.name == "name" ==> f.name == e.value)
    && (e.name == "address" ==> f.address == e.value)
    && (e.name == "city" ==> f.city == e.value)
    && (e.name == "state" ==> f.state == e.value)
    && (e.name == "total_chargers" ==> f.totalChargers == toNumber(e.value))
    && (e.name == "available_chargers" ==> f.availableChargers == toNumber(e.value))
    && (e.name == "price_per_kwh" ==> f.pricePerKwh == toNumber(e.value))
    && (e.name == "status" ==> StationStatusText(f.status) == e.value)
  }

  /** What the admin types is what gets saved: after a change through one
      of the form's controls, an edit stores the typed value in the edited
      record, and a create asks for a station holding it. */
  lemma EditStoresTypedValue(stations: seq<Station>, st: Station, form: Form, e: ChangeEvent,
                             toNumber: string -> real, now: string, k: int)
    requires WellTyped(form) && FromControl(e) && IsFirstMatch(stations, st.id, k)
    ensures var edited := HandleChange(form, e, toNumber);
            WellTyped(edited) &&
            CarriesEvent(FieldsOf(UpdatedStations(stations, st.id, HandleSubmit(Some(st), edited).patch, now)[k]),
                         e, toNumber) &&
            CarriesEvent(FormFields(edited), e, toNumber)
  {
    HandleChangeKeepsWellTyped(form, e, toNumber);
    var edited := HandleChange(form, e, toNumber);
    assert e.name in Inputs;
    if e.name == "status" {
      var s := ParseStationStatus(e.value);
      assert s.Some? && StationStatusText(s.value) == e.value;
    }
  }

  /** Opening a station in the form and saving without changes only
      refreshes its update time. */
  lemma UnchangedEditOnlyRestamps(st: Station, now: string)
    ensures Patched(st, st.id, FormPatch(InitialForm(Some(st))), now) == st.(updatedAt := now)
  {
    StationStatusRoundTrip(st.status);
  }

  /** Submitting the untouched create form asks for the default station. */
  lemma DefaultNewStation()
    ensures FormFields(InitialForm(None)) ==
              StationFields("", "", "", "", 0.0, 0.0, 1.0, 1.0, "22kW", [], [], 0.5, StationStatus.Active, "admin")
  {
    StationStatusRoundTrip(StationStatus.Active);
  }
}
