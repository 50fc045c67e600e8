# EV charging booking demo — a Dafny model of its logic

The application is a browser demo for booking electric-vehicle charging
stations. Users browse stations, book a charger slot and pay (simulated).
Admins manage stations and see dashboard figures. There is no server: every
collection is a serialized array in the browser's storage. This project
models the logic that the pages and the two libraries actually execute:

- the record store of `lib/db.ts`: stations, bookings and chargers. It has
  create, find, patch, replace, delete and filter operations.
- the session of `lib/auth.ts`: one current-user slot, login, logout and the
  admin check.
- the logic inside the pages. This is the station search and list truncation,
  the admin dashboard figures, the stations manager's selection, the
  new-station tag lists and submitted record, and the bookings page (station
  map, orphan hiding, labels, payment button). It also covers the
  registration form's ordered checks and the station create/edit form.

Modules follow the source files: `Db`, `Auth`, `Home`, `AdminDashboard`,
`StationsManager`, `NewStationPage`, `BookingsPage`, `RegisterPage` and
`StationForm`. `Types` holds the record shapes of `lib/types.ts`, and their
string unions become datatypes. `Guards` holds the two route guards the pages
share. `Seqs` holds the sequence combinators that stand for JavaScript's
`filter`, `findIndex`, `find` and `reduce`. `Strings` holds `toLowerCase`
and `includes`. `Wrappers` holds `Option`, which stands for `null` and
`undefined`.

Modelling choices:

- Every JavaScript `number` is an exact `real`.
- Every stored collection is a `seq` field of the class `Db.Store`.
- The current user is an `Option<User>` field of `Auth.Session`.
- Record field names follow the stored schema in camel case (`total_chargers`
  is `totalChargers`).
- Identifiers and timestamps are method parameters. The source builds them
  from `Date.now()` and `new Date()`. The station identifier is "station-"
  followed by the clock reading, and the booking identifier is "booking-"
  followed by it. Each clock reading is its own parameter. For example,
  `createStation` reads the clock three times (`Date.now()` for the
  identifier, then `new Date()` for `created_at` and again for
  `updated_at`), so a new station takes three parameters.
- The JavaScript case mapping `toLowerCase` is a parameter of the search.
  `Strings.ToLower` is an ASCII instance of it.
- Identifiers are not assumed unique. As a result, a patch or a replace
  changes the first matching record only, while a delete removes every
  matching record (`Db.UpdateFirstDeleteAll`).

## Model

| member | source | states |
|---|---|---|
| `Types.ParseStationStatus` | lib/types.ts:35 | only the three stored spellings read back as a status, each to the status it spells |
| `Types.StationStatusRoundTrip` | lib/types.ts:35 | reading back a status's stored spelling gives the same status |
| `Db.NewStation` | lib/db.ts:82-87 | the created station has id "station-"+clock, the two given timestamps (two separate clock readings), and exactly the given fields otherwise |
| `Db.NewBooking` | lib/db.ts:170-174 | the created booking has id "booking-"+clock, `created_at` = `now`, and exactly the given fields otherwise |
| `Db.Patched` | lib/db.ts:112-117 | the merged record always carries the looked-up id (whatever the patch says) and the new update time; the field rule is stated by the lemmas below |
| `Db.PartialPatchKeepsOthers` | lib/db.ts:112-117 | a patch carrying only `available_chargers` (or that and `name`) sets those fields and keeps every other field, refreshing only the update time |
| `Db.PatchCompose` | lib/db.ts:112-117 | two successive patches equal one patch holding the keys of both, the later one winning on shared keys (the spread order) |
| `Db.StationIndex` | lib/db.ts:108 | `findIndex`: -1 exactly when no station has the id, otherwise the index of the first one that has it |
| `Db.FindStation` | lib/db.ts:65-68 | none exactly when no station has the id; otherwise the first station with that id |
| `Db.UpdatedStations` | lib/db.ts:107-117 | same length; an absent id leaves the collection unchanged; only the first match changes, and it becomes the merged record |
| `Db.WithoutStation` | lib/db.ts:135-145 | no survivor has the id; every record with another id survives, as many times as it was stored; survivors keep their order |
| `Db.UserBookings` | lib/db.ts:157-163 | exactly the bookings of that user, each as many times as it is stored, in stored order |
| `Db.StationChargers` | lib/db.ts:211-217 | exactly the chargers of that station, each as many times as it is stored, in stored order |
| `Db.BookingIndex` | lib/db.ts:188-190 | `findIndex` on bookings: -1 exactly when the id is absent, otherwise the first match |
| `Db.ReplacedBooking` | lib/db.ts:186-199 | same length; an absent id leaves the bookings unchanged; the first match is replaced whole by the new booking, nothing else changes |
| `Db.EmptyPatchOnlyRestamps` | lib/db.ts:112-117 | a patch without fields changes nothing but the update time |
| `Db.FullPatchReplaces` | lib/db.ts:128-130 | `updateStation(s)` writes `s` itself, with the looked-up id and a fresh update time |
| `Db.PatchIgnoresPatchId` | lib/db.ts:115 | an id carried by the patch has no effect |
| `Db.PatchTwice` | lib/db.ts:112-117 | applying the same patch twice equals applying it once at the later time |
| `Db.NewStationRoundTrip` | lib/db.ts:82-87 | a created station stripped of id and timestamps is the caller's input |
| `Db.FindAfterCreate` | lib/db.ts:84-89 | after a create, a lookup by the new id finds the new station unless an older station already had that id, in which case the older one is found |
| `Db.DeleteIdempotent` | lib/db.ts:137-139 | deleting twice equals deleting once |
| `Db.DeleteAbsentIsNoOp` | lib/db.ts:137-139 | deleting an id no station has leaves the collection unchanged |
| `Db.DeleteAppend` | lib/db.ts:137-139 | the survivors of a concatenation are the survivors of each part, in order |
| `Db.UpdateFirstDeleteAll` | lib/db.ts:103-145 | with two stations sharing an id, a patch leaves the later one untouched while a delete removes it |
| `Db.ReplacedBookingFoundFirst` | lib/db.ts:186-193 | after a replace, the new booking sits at the same first-match index and is what a lookup by its id finds |
| `Db.Store.constructor` | lib/db.ts:59-63 | the store starts with the given (seeded) collections |
| `Db.Store.GetStation` | lib/db.ts:65-68 | the first stored station with the id, or none exactly when no stored station has it |
| `Db.Store.GetStationById` | lib/db.ts:73-75 | the same answer as `GetStation` |
| `Db.Store.CreateStation` | lib/db.ts:77-97 | appends exactly the returned station at the end; earlier stations and the other collections are unchanged |
| `Db.Store.UpdateStationById` | lib/db.ts:103-123 | the stations become `UpdatedStations` of the old ones; bookings and chargers are unchanged |
| `Db.Store.UpdateStation` | lib/db.ts:128-130 | the same as `UpdateStationById(s.id, s)`; the first match becomes `s` with a fresh update time |
| `Db.Store.DeleteStation` | lib/db.ts:135-145 | the stations become `WithoutStation` of the old ones; nothing else changes |
| `Db.Store.GetUserBookings` | lib/db.ts:157-163 | exactly the stored bookings of the user, every copy kept, in order |
| `Db.Store.CreateBooking` | lib/db.ts:165-184 | appends exactly the returned booking at the end; nothing else changes |
| `Db.Store.UpdateBooking` | lib/db.ts:186-199 | the bookings become `ReplacedBooking` of the old ones; nothing else changes |
| `Db.Store.GetStationChargers` | lib/db.ts:211-217 | exactly the stored chargers of the station, every copy kept, in order |
| `Auth.UserByEmail` | lib/auth.ts:10 | the first user with that email, or none exactly when no user has it |
| `Auth.Authenticate` | lib/auth.ts:8-16 | a user is returned exactly when one has the email and the password is "password"; it is the first user with that email |
| `Auth.LoginDecidesAdmin` | lib/auth.ts:10-13 | after a successful login, the admin check holds exactly when the first user with that email is an admin |
| `Auth.Session.constructor` | lib/auth.ts:22-26 | the slot starts with whatever user is stored |
| `Auth.Session.Login` | lib/auth.ts:8-16 | returns the `Authenticate` result; on success the slot holds that user, on failure it is unchanged |
| `Auth.Session.Logout` | lib/auth.ts:18-20 | afterwards there is no current user and the admin check is false |
| `Auth.Session.IsAdmin` | lib/auth.ts:28-31 | true exactly when a user is stored and their role is admin |
| `Guards.RequireUser` | components/home-content.tsx:33-41 | the page loads its data exactly when a user is signed in, and loads nothing otherwise |
| `Guards.RequireAdmin` | app/admin/page.tsx:25-28 | the page loads its data exactly when the admin check holds for the stored user |
| `Guards.AdminGuardStricter` | app/admin/page.tsx:25-28 | every user who passes the admin guard also passes the signed-in guard |
| `Strings.IncludesIffOccurs` | components/home-content.tsx:46-47 | `includes` holds exactly when the query occurs at some position of the text |
| `Home.FilteredStations` | components/home-content.tsx:43-48 | a station is kept exactly when it is active and the lower-cased query occurs in its lower-cased name or address; every copy is kept, in stored order |
| `Home.EmptyQueryKeepsActive` | components/home-content.tsx:45-47 | with an empty query, the result is exactly the active stations, for any case mapping that leaves "" empty |
| `Home.QueryCaseIgnored` | components/home-content.tsx:46-47 | lower-casing the query first does not change the result, for any case mapping idempotent on the query |
| `Home.AsciiLowerQualifies` | components/home-content.tsx:46-47 | the ASCII case mapping meets both assumptions of the two lemmas above |
| `Home.MapPanelOf` | components/home-content.tsx:153-158 | the heading count is the number of filtered stations; the cards are the first min(5, count) of them |
| `Home.AmenityBadges` | components/home-content.tsx:238-240 | a card shows the first min(3, n) amenities, in order |
| `AdminDashboard.TotalChargers` | app/admin/page.tsx:46 | the sum of `total_chargers`, which is 0 for no stations |
| `AdminDashboard.AvailableChargers` | app/admin/page.tsx:47 | the sum of `available_chargers`, which is 0 for no stations |
| `AdminDashboard.AvailabilityOf` | app/admin/page.tsx:49-51 | the zero branch is taken exactly when the total is not positive; otherwise the exact percentage, obtained by dividing by a positive total only (its `toFixed(0)` rendering is not modelled) |
| `AdminDashboard.ActiveBookings` | app/admin/page.tsx:53 | the active count is at most the number of bookings |
| `AdminDashboard.PaidBookings` | app/admin/page.tsx:54-55 | exactly the paid bookings, every copy kept, in stored order |
| `AdminDashboard.Summarize` | app/admin/page.tsx:46-56 | the counts are the list lengths; the charger sums, the availability, the active count and the revenue are the figures defined above (with their lemmas); active ≤ total bookings; no positive capacity gives the "0" label |
| `AdminDashboard.StationAddsItsChargers` | app/admin/page.tsx:46-47 | one more station adds its own `total_chargers` and `available_chargers` to the two sums |
| `AdminDashboard.Open` | app/admin/page.tsx:21-33 | the figures are computed exactly for an admin; any other visitor is redirected and nothing is loaded |
| `AdminDashboard.TotalChargersAppend` | app/admin/page.tsx:46-47 | both charger sums add up over concatenated station lists |
| `AdminDashboard.AvailabilityInRange` | app/admin/page.tsx:49-51 | when each station has 0 ≤ available ≤ total, the percentage lies between 0 and 100 |
| `AdminDashboard.ActiveBookingsAppend` | app/admin/page.tsx:53 | one more booking adds 1 to the active count exactly when it is active |
| `AdminDashboard.TotalRevenue` | app/admin/page.tsx:54-56 | the sum of `total_cost` (0 when missing) over the paid bookings, 0 for no bookings; `RevenueAppend` gives each booking's share (the same figure is computed again at app/admin/stations-maneger/page.tsx:63-65) |
| `AdminDashboard.RevenueAppend` | app/admin/page.tsx:54-56 | one more booking adds its cost (0 when missing) to the revenue when it is paid, and nothing otherwise |
| `AdminDashboard.RevenueIgnoresUnpaid` | app/admin/page.tsx:54-56 | with no paid booking, the revenue is 0 |
| `AdminDashboard.RevenueNonNegative` | app/admin/page.tsx:54-56 | with non-negative costs, the revenue is non-negative |
| `StationsManager.Open` | app/admin/stations-maneger/page.tsx:33-65 | the same admin guard and the same figures as the dashboard; the list loads with nothing selected |
| `StationsManager.Select` | app/admin/stations-maneger/page.tsx:176-179 | a click makes the clicked station the selected one and changes nothing else |
| `StationsManager.SelectHighlightsSameId` | app/admin/stations-maneger/page.tsx:179-184 | after a click an entry is highlighted exactly when its id equals the clicked station's id, so repeated ids light up together |
| `StationsManager.SelectHighlightsOnlyClicked` | app/admin/stations-maneger/page.tsx:179-184 | with distinct ids, after a click exactly the clicked entry is highlighted |
| `NewStationPage.AddTag` | app/admin/stations/new/page.tsx:54-59 | a non-empty draft not yet in the list is appended and the box is cleared; otherwise list and box are unchanged |
| `NewStationPage.RemoveTag` | app/admin/stations/new/page.tsx:173 | every entry equal to the tag goes; every other entry stays, every copy of it, in order |
| `NewStationPage.AddTagKeepsDistinct` | app/admin/stations/new/page.tsx:55 | adding keeps a duplicate-free list duplicate-free |
| `NewStationPage.StepKeepsDistinct` | app/admin/stations/new/page.tsx:54-66 | typing, adding or removing keeps a duplicate-free list duplicate-free |
| `NewStationPage.RunKeepsDistinct` | app/admin/stations/new/page.tsx:28-29 | any series of user actions keeps a duplicate-free list duplicate-free |
| `NewStationPage.AddConnectorType` | app/admin/stations/new/page.tsx:54-59 | applies the add rule to the connector list; the form and the amenities are unchanged |
| `NewStationPage.AddAmenity` | app/admin/stations/new/page.tsx:61-66 | applies the add rule to the amenity list; the form and the connectors are unchanged |
| `NewStationPage.SubmittedStation` | app/admin/stations/new/page.tsx:36-49 | available chargers equal the parsed total; status active; owner "admin-1"; name, address, power output and tag lists are those on the page; price and coordinates are the parsed texts; city and state empty |
| `NewStationPage.SubmittedTagsDistinct` | app/admin/stations/new/page.tsx:45-46 | whatever the user did since the page opened, the submitted connector and amenity lists contain no duplicates |
| `BookingsPage.Open` | app/bookings/page.tsx:20-28 | exactly the signed-in user's bookings are loaded, every copy, in stored order; with no user there is a redirect and nothing is loaded |
| `BookingsPage.StationMapOf` | app/bookings/page.tsx:30-38 | an id is a key exactly when a booking refers to it and `getStation` finds it; it is bound to the station found |
| `BookingsPage.StationMapAppend` | app/bookings/page.tsx:33-36 | one more booking adds its station to the map only when `getStation` finds it |
| `BookingsPage.BuildStationMap` | app/bookings/page.tsx:30-38 | the loop builds exactly `StationMapOf` |
| `BookingsPage.VisibleBookings` | app/bookings/page.tsx:86-88 | a booking is rendered exactly when its station is in the map; every copy and the order are kept |
| `BookingsPage.ShownIffStationExists` | app/bookings/page.tsx:86-88 | a booking is shown exactly when its station still exists |
| `BookingsPage.DeletedStationHidesItsBookings` | app/bookings/page.tsx:87-88 | after its station is deleted, a booking is no longer shown |
| `BookingsPage.StatusBadge` | app/bookings/page.tsx:111-114 | of the four fragments exactly one renders: the status's label |
| `BookingsPage.PaymentBadge` | app/bookings/page.tsx:164-166 | of the three fragments exactly one renders: the payment status's label |
| `BookingsPage.LabelsDistinguishStatuses` | app/bookings/page.tsx:111-114 | different statuses, and different payment statuses, have different labels |
| `BookingsPage.CanPay` | app/bookings/page.tsx:172 | the payment button shows exactly when both badges read "Pendente", that is, pending and unpaid |
| `BookingsPage.GuardedBy` | app/bookings/page.tsx:145-157 | `v && (line)` renders the line exactly for a present non-zero value, a bare "0" exactly for the value 0, and nothing exactly when the value is missing |
| `BookingsPage.ConsumptionSlot` | app/bookings/page.tsx:145-150 | the consumption line shows exactly for a present non-zero `total_kwh`; a zero leaves a stray "0"; a missing value shows nothing |
| `BookingsPage.CostSlot` | app/bookings/page.tsx:151-157 | the cost line shows exactly for a present non-zero `total_cost`; a zero leaves a stray "0"; a missing value shows nothing |
| `RegisterPage.HandleSubmit` | app/register/page.tsx:31-50 | it first clears the error, then starts loading; `register` is called, and the home page is opened once `register` returns, exactly when all fields are filled and the passwords match |
| `RegisterPage.SubmitOutcome` | app/register/page.tsx:33-49 | an empty field gives "Preencha todos os campos", even if the passwords also differ; otherwise a mismatch gives "As senhas não conferem"; both errors stop the loading |
| `RegisterPage.OnlyValidFormsRegister` | app/register/page.tsx:48-49 | registration and navigation happen only for a complete form with matching passwords |
| `RegisterPage.QuickRegister` | app/register/page.tsx:53-64 | both presets fill a non-empty name and email and set both passwords to "password" |
| `RegisterPage.QuickRegisterPasses` | app/register/page.tsx:53-64 | a form filled by either preset passes both checks and registers |
| `StationForm.InitialForm` | components/station-form.tsx:20-32 | the form holds exactly the eleven fields, each with its kind and a valid status |
| `StationForm.HandleChange` | components/station-form.tsx:34-46 | only the named field changes; a number input stores a number, any other input stores text |
| `StationForm.HandleChangeKeepsWellTyped` | components/station-form.tsx:37-45 | edits through the form's own controls keep every field present with its kind and add no field |
| `StationForm.FormPatch` | components/station-form.tsx:51-52 | the edit patch carries each of the form's eleven values under its key (the status as the status its text spells), and no id, connector types, amenities, owner or timestamps |
| `StationForm.FormFields` | components/station-form.tsx:54-59 | the create request holds the form's eleven values, empty connector and amenity lists and owner "admin" |
| `StationForm.EditStoresTypedValue` | components/station-form.tsx:34-59 | after a change through one of the form's controls, saving an edit stores the typed text, the number made of it, or the chosen status in the edited record; a create asks for a station holding it |
| `StationForm.HandleSubmit` | components/station-form.tsx:48-63 | with a station it patches that station's id with the form; without one it creates a station from the form |
| `StationForm.EditKeepsFieldsOutsideForm` | components/station-form.tsx:51-52 | saving an edit keeps the id, connector types, amenities, owner and creation time, and refreshes the update time |
| `StationForm.UnchangedEditOnlyRestamps` | components/station-form.tsx:20-52 | opening a station in the form and saving it unchanged only refreshes its update time |
| `StationForm.DefaultNewStation` | components/station-form.tsx:20-59 | the untouched create form asks for empty texts, coordinates 0, 1 of 1 chargers, 0.5 per kWh, "22kW", active, owner "admin" |

`app/admin/stations-maneger/page.tsx:57-65` repeats the dashboard's
expressions word for word. `StationsManager.Open` therefore reuses the
members of `AdminDashboard`.

## Left out

- Browser storage and JSON serialisation are not modelled. Each collection is
  a `seq` field, and the session is an `Option` field.
- The server-side early returns (`typeof window === "undefined"`, which give
  empty lists and no user) are not modelled.
- `initializeDatabase` and its seed data are not part of this model. The
  initial collections and the user list are constructor parameters.
- The "sessions" and "payments" buckets are created at start-up and never
  used. They are not modelled.
- `getStations`, `getBookings` and `getChargers` return the whole stored
  collection. They are the fields themselves.
- `Date.now()` and `new Date().toISOString()` become parameters, one per
  reading. Nothing assumes that two readings are equal or that they differ.
- Floating-point arithmetic is not modelled: sums and the availability ratio
  are exact reals. `toFixed` formatting is not modelled: the availability
  keeps the exact percentage, and the revenue and price are not formatted.
- `Number.parseFloat`, `Number.parseInt` and `Number` are not modelled. They
  are function parameters, so NaN results and a `|| 0` that turns NaN into 0
  are not represented.
- `Strings.ToLower`: only maps A–Z to a–z. The rest of Unicode case mapping
  is not modelled. The search lemmas hold for any mapping that is idempotent
  and sends "" to "". The real `toLowerCase` is assumed to be such a mapping,
  but that is not proved here.
- `NewStationPage.SubmittedStation`: the source's object literal has no
  `city` or `state`, so the stored record lacks them (undefined). The model
  stores the empty string.
- `StationForm.HandleSubmit`, `StationForm.FormPatch` and
  `StationForm.FormFields` require the form to be well typed. The page always
  meets this: `InitialForm` and `HandleChangeKeepsWellTyped` prove it.
- `StationForm.FormPatch`: a status text other than the select's three
  options cannot be represented as a station status, so it is dropped from
  the patch. Only a select option can produce the status text.
- `Db.StationPatch` has exactly the fields of a station. Extra keys that a
  JavaScript object could carry into the merge are not modelled, and neither
  is an explicit `undefined` value.
- `Auth.Session.GetCurrentUser` has no contract of its own. What it returns
  is stated through `Login` and `Logout`.
- The logout buttons of the home and admin pages remove the same storage key
  as `Auth.Session.Logout`. They are not modelled separately.
- The booking cost estimate and the pending→active/paid payment transition
  live in the payment page, which is not part of this model. No file of the
  modelled core computes `total_kwh` or `total_cost`.
- `register` (imported by the registration page) is not defined in
  `lib/auth.ts`. The model records only that it is called, and with which
  arguments.
- `RegisterPage.HandleSubmit`: assumes that `register` returns normally. With
  the `lib/auth.ts` shown, which defines no `register`, the page either fails
  to build or the call throws, so the navigation to "/" would not happen and
  the loading flag would stay on.
- Router navigation and JSX rendering are not modelled. Only the decisions
  behind them are: redirect or load, which cards and labels show.
- The map widget (`components/station-map.tsx`), the expenses page, the
  login page and the layout and providers are not part of this model. They
  are foreign script loading, fixed strings or framework wiring.
