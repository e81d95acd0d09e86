# Studs trip and event screens — a Dafny model

This project models the parts of the Studs iOS app that carry logic of their
own, independent of UIKit, MapKit and the backends:

- the **trip store**: the `TripState` record, the closed `TripAction` enum, the
  pure reducer and the one command it builds (`fetchUsers`), plus a store
  object that applies the reducer on each dispatch (module `Trip`);
- the hand-written **`User` coding**, which nests `firstName`, `lastName` and
  `phone` under a `profile` key (module `UserModel`);
- the **activity editor**'s `validateAndSubmit`: an ordered chain of input
  checks, then the activity that is stored and the calls that follow
  (module `ActivityEditor`);
- the **map screen**: one pin per activity, a remove/add diff under the
  overridden pin equality, a zoom on the first update only, and the
  three-way tracking toggle (module `MapPins`);
- the **event detail** screen: survey-button visibility, the check-in
  permission rule and the survey a tap opens (module `EventDetail`);
- the **registration** screen: users sorted by full name, checkmarks by
  registration, and a tap that adds or removes a registration
  (module `Registration`);
- the **check-in documents** of the document database: the fields written, the
  decoder, and what the two listeners deliver (module `FirebaseCheckins`).

Shared modules: `Wrappers` (`Option`, `Result`), `Sequences` (Swift's
`first(where:)`, `contains(where:)`, `filter` and `compactMap`, each proved
against what it computes) and `Models` (`TripActivity`,
`TripActivityRegistration`, the signed-in `SessionUser`).

Modelling conventions: dates are integers; a coordinate is a pair of reals
that is only compared for equality; a stored document is a document id and a
`map<string, Value>`; the current time, fresh UUIDs, the ISO-8601 formatter,
`User.fullName` and the backend's answers are parameters. Screens whose fields
the app updates in place are classes (`TripStore`, `MapViewController`,
`EventDetailViewController`, `RegistrationTableViewController`) whose methods
state their new fields; the logic they apply is pure functions with lemmas.

Points where the code is narrower than one might expect, and which the model
follows:
- "The selection is one of the listed activities" is not an invariant of
  every state. The reducer only re-establishes it on `updateActivities`;
  `selectActivity` stores any activity without a membership check. The model
  proves exactly that (`SelectionListedAfterUpdate`, `SelectUnlistedActivity`).
- `profile.decode(String?.self, forKey:)` turns a null into an absent field,
  but a missing key is still an error (`keyNotFound`), so a profile without
  one of its three keys does not decode.
- On submit the category of a new activity comes from the form. The
  `.attraction` of `defaultNewActivity` is overwritten.

## Model

| member | source | states |
|---|---|---|
| Trip.InitialState | Studs/Trip/TripStore.swift:12-19 | The initial state has no activities, no users and no selection, drawer `partiallyRevealed`, page `schedule`, safe area 0 |
| Trip.Reduce | Studs/Trip/TripStore.swift:50-82 | The reducer returns a command exactly for `fetchUsers`; every other action returns none |
| Trip.Complete | Studs/Trip/TripStore.swift:70-79 | The fetch command emits one action, `updateUsers` with the fetched list, exactly when the call succeeds; a failure emits nothing |
| Trip.SelectActivitySetsSelection | Studs/Trip/TripStore.swift:54-55 | `selectActivity(a)` sets the selection to exactly `a`, with no membership check, and changes no other field |
| Trip.UpdateActivitiesResolvesSelection | Studs/Trip/TripStore.swift:58-62 | `updateActivities(list)` replaces the activities; with no selection none is picked; otherwise the new selection is the first listed activity with the old selection's id, and none iff no listed activity has that id; other fields unchanged |
| Trip.SelectionListedAfterUpdate | Studs/Trip/TripStore.swift:58-62 | After `updateActivities` any selection is an element of the new list and has the old selection's id |
| Trip.SingleFieldActions | Studs/Trip/TripStore.swift:56-68 | Drawer position, drawer page, safe area and users actions each replace only their own field and return no command |
| Trip.UpdateUsersIdempotent | Studs/Trip/TripStore.swift:67-68 | Applying `updateUsers(l)` twice gives the same state as once |
| Trip.FetchUsersRoundTrip | Studs/Trip/TripStore.swift:69-79 | `fetchUsers` keeps the state and yields the fetch command; a failed fetch emits nothing; a successful one leads to a state that differs only in `users`, set to the fetched list |
| Trip.SelectUnlistedActivity | Studs/Trip/TripStore.swift:54-55 | From the initial state, selecting an activity that is not listed keeps it selected |
| Trip.SelectionDroppedWhenActivityVanishes | Studs/Trip/TripStore.swift:58-62 | Update to [A, B], select A, update to [B]: the selection is gone |
| Trip.TripStore.constructor | Studs/Trip/TripStore.swift:49-84 | A new store holds the initial state and one pending fetch command, from its own `dispatch(.fetchUsers)` |
| Trip.TripStore.Dispatch | Studs/Trip/TripStore.swift:50-81 | The new state and the returned command are the reducer's; a returned command is added to the pending ones |
| Trip.TripStore.DispatchActivities | Studs/Trip/TripStore.swift:58-62 | Dispatching an activities list as `updateActivities` gives the reducer's new state, keeps the pending commands, and leaves any selection listed |
| Trip.TripStore.CommandCompleted | Studs/Trip/TripStore.swift:70-79 | A completed command leaves the pending set; success replaces only `users`, failure leaves the state unchanged |
| Sequences.FirstWhere | Studs/Trip/TripStore.swift:61 | `first(where:)` is none iff no element matches, otherwise the earliest matching element |
| UserModel.Decode | Studs/Models/User.swift:28-38 | Decoding succeeds iff the JSON is an object with a string `id` and a `profile` object holding `firstName`, `lastName` and `phone` as string or null; the fields come from inside `profile`, null giving an absent field; a non-object, a missing `id` and a missing `profile` fail with their own errors (a top-level null as `valueNotFound`, any other non-object as `typeMismatch`), `id` first |
| UserModel.EncodeOptionalString | Studs/Models/User.swift:46-48 | An absent field is written as explicit null, a present one as its string, and reads back unchanged |
| UserModel.Encode | Studs/Models/User.swift:40-49 | The encoding has exactly the keys `id` and `profile`, `id` holds the id, and `profile` holds exactly the three field keys |
| UserModel.EncodeThenDecode | Studs/Models/User.swift:28-49 | Decoding the encoding of any user gives back that user |
| UserModel.DecodeThenEncode | Studs/Models/User.swift:28-49 | A decodable object with no keys beyond the encoded ones re-encodes to itself |
| ActivityEditor.TrimLeading | Studs/Trip/ViewControllers/TripActivityEditorViewController.swift:48-49 | The result is a suffix of the input, everything dropped is whitespace or newline, and it does not start with one |
| ActivityEditor.TrimTrailing | Studs/Trip/ViewControllers/TripActivityEditorViewController.swift:48-49 | The result is a prefix of the input, everything dropped is whitespace or newline, and it does not end with one |
| ActivityEditor.Trim | Studs/Trip/ViewControllers/TripActivityEditorViewController.swift:48-52 | The trimmed title is the slice of the input left after dropping a prefix and a suffix that are all whitespace and newlines; it neither starts nor ends with one, and is empty iff the title is all whitespace and newlines |
| ActivityEditor.TrimmedSlice | Studs/Trip/ViewControllers/TripActivityEditorViewController.swift:48-49 | Dropping leading then trailing whitespace leaves a slice of the input with only whitespace before and after it |
| ActivityEditor.EmptySliceIffAllWhitespace | Studs/Trip/ViewControllers/TripActivityEditorViewController.swift:48-52 | Such a slice is empty exactly when the whole title is whitespace and newlines, which is what the empty-title guard tests |
| ActivityEditor.IsCreating | Studs/Trip/ViewControllers/TripActivityEditorViewController.swift:17-19 | The editor is creating exactly when no activity was handed in for editing |
| ActivityEditor.Validate | Studs/Trip/ViewControllers/TripActivityEditorViewController.swift:48-65 | Validation succeeds iff no check fails (non-blank title, non-empty address, coordinates present, start strictly before end); otherwise it reports a failed check with no earlier check failing; on success it hands on the trimmed title and the form's values |
| ActivityEditor.EqualTimesRejected | Studs/Trip/ViewControllers/TripActivityEditorViewController.swift:60-64 | Equal start and end times are always rejected, with the "has to start before it ends" error exactly when title, address and coordinates pass |
| ActivityEditor.DefaultNewActivity | Studs/Trip/ViewControllers/TripActivityEditorViewController.swift:21-30 | A new activity is a user activity with no people, category attraction, the current user's id as author (none when signed out), empty address, coordinate (0, 0) and all dates set to now |
| ActivityEditor.ValidateAndSubmit | Studs/Trip/ViewControllers/TripActivityEditorViewController.swift:47-84 | An invalid form only shows the popup for the first failed check; a valid one stores the edited or new activity (description the trimmed title, location, start, end and category from the form, every other field kept), then registers the creator for themselves exactly when creating with a signed-in user, then dismisses |
| MapPins.PinsFor | Studs/ViewControllers/MapViewController.swift:47-53 | One pin per activity, in order, carrying its coordinate, its title as title and its address as subtitle |
| MapPins.PinEqual | Studs/ViewControllers/MapViewController.swift:116-124 | Two pins are equal iff their coordinates and titles agree; the subtitle plays no part |
| MapPins.PinEqualIsEquivalence | Studs/ViewControllers/MapViewController.swift:116-124 | Pin equality is reflexive, symmetric and transitive, ignores the subtitle, and holds iff coordinate and title agree |
| MapPins.Unmatched | Studs/ViewControllers/MapViewController.swift:57-58 | The pins to remove (to add) are exactly the on-map (new) pins with no equal pin in the other list |
| MapPins.Without | Studs/ViewControllers/MapViewController.swift:59 | Removing annotations keeps exactly the annotations not in the removed list |
| MapPins.Updated | Studs/ViewControllers/MapViewController.swift:56-60 | After removing and adding, a pin is on the map iff it was on the map and has an equal new pin, or it is a new pin with no equal pin on the map |
| MapPins.UpdateMatchesNewPins | Studs/ViewControllers/MapViewController.swift:56-60 | After the update every pin on the map equals a new pin and every new pin equals a pin on the map; pins in both are kept and no added pin was already matched on the map |
| MapPins.MapViewController.constructor | Studs/ViewControllers/MapViewController.swift:19-24 | A fresh map screen has no pins and no activities, will zoom, and does not track |
| MapPins.MapViewController.SetActivities | Studs/ViewControllers/MapViewController.swift:21-66 | Setting the activities applies the diff to the map; it zooms to the added pins iff it had not zoomed before, and afterwards never zooms again |
| MapPins.NextTrackingMode | Studs/ViewControllers/MapViewController.swift:82-91 | The toggle goes none to follow to follow-with-heading to none, never staying put |
| MapPins.ThreeTogglesRestore | Studs/ViewControllers/MapViewController.swift:82-91 | Three toggles restore the original tracking mode |
| MapPins.MapViewController.ToggleLocationMode | Studs/ViewControllers/MapViewController.swift:82-91 | The tracking mode moves to the next one; pins and the zoom flag are untouched |
| EventDetail.BeforeSurveyHidden | Studs/ViewControllers/EventDetailViewController.swift:71-78 | A visible before-survey button always has a URL to open; for an upcoming event only the list decides its visibility |
| EventDetail.AfterSurveyHidden | Studs/ViewControllers/EventDetailViewController.swift:72-78 | A visible after-survey button always has a URL to open; for an upcoming event it is hidden |
| EventDetail.KeepsCheckinButton | Studs/ViewControllers/EventDetailViewController.swift:60-64 | With no signed-in user the check-in button stays; with one it stays iff the user has the `checkins` permission |
| EventDetail.EventDetailViewController.constructor | Studs/ViewControllers/EventDetailViewController.swift:18-22 | The screen holds the event that the presenting screen assigns to its `event` property (modelled as a constructor argument); that both survey buttons and the check-in button are shown before `viewDidLoad` is an assumption about the storyboard |
| EventDetail.SurveyButtonsExclusive | Studs/ViewControllers/EventDetailViewController.swift:70-80 | With a date at most one survey button is visible; with no date each button's visibility depends only on its list |
| EventDetail.EventDetailViewController.ConfigureSurveyButtons | Studs/ViewControllers/EventDetailViewController.swift:70-80 | Before-survey hidden iff no before surveys or the date is not after now; after-survey hidden iff no after surveys or the date is after now |
| EventDetail.EventDetailViewController.ViewDidLoad | Studs/ViewControllers/EventDetailViewController.swift:59-64 | The check-in button is removed exactly when a signed-in user lacks the `checkins` permission; with no user it stays |
| EventDetail.SurveyToOpen | Studs/ViewControllers/EventDetailViewController.swift:112-120 | A survey tap opens the first URL of its list, and nothing when the list is absent or empty |
| EventDetail.EventDetailViewController.BeforeSurveyTapped | Studs/ViewControllers/EventDetailViewController.swift:112-115 | Tapping the before survey opens the first before-survey URL, if any |
| EventDetail.EventDetailViewController.AfterSurveyTapped | Studs/ViewControllers/EventDetailViewController.swift:117-120 | Tapping the after survey opens the first after-survey URL, if any |
| Registration.LexLess | Studs/ViewControllers/RegistrationTableViewController.swift:56 | The string `<` is irreflexive, and a proper prefix sorts before the longer string |
| Registration.LexLessAsymmetric | Studs/ViewControllers/RegistrationTableViewController.swift:55-57 | No two names are each less than the other |
| Registration.LexLeqTransitive | Studs/ViewControllers/RegistrationTableViewController.swift:55-57 | The "not after" order on names is transitive |
| Registration.Insert | Studs/ViewControllers/RegistrationTableViewController.swift:55-57 | Inserting into a list sorted by full name adds the user once and keeps it sorted |
| Registration.SortByFullName | Studs/ViewControllers/RegistrationTableViewController.swift:55-57 | The sorted users are a permutation of the fetched ones, ordered by full name |
| Registration.AccessoryFor | Studs/ViewControllers/RegistrationTableViewController.swift:82-84 | A row is checked iff some registration's `userId` is the row user's id |
| Sequences.ContainsWhere | Studs/ViewControllers/RegistrationTableViewController.swift:82 | `contains(where:)` holds iff some element matches |
| Registration.TapEffect | Studs/ViewControllers/RegistrationTableViewController.swift:92-104 | Without an acting user a tap does nothing; a registered user's first matching registration is removed; an unregistered user is registered by the acting user for the activity |
| Registration.TapTogglesCheckmark | Studs/ViewControllers/RegistrationTableViewController.swift:92-104 | With at most one registration per user, a tap by a signed-in user flips the row's checkmark once the backend applies it |
| Registration.RegistrationTableViewController.constructor | Studs/ViewControllers/RegistrationTableViewController.swift:26-36 | The screen starts empty and is dismissed when no activity is selected |
| Registration.RegistrationTableViewController.UsersFetched | Studs/ViewControllers/RegistrationTableViewController.swift:51-64 | A successful fetch shows the users sorted by full name; a failed one dismisses the screen and keeps the users |
| Registration.RegistrationTableViewController.RegistrationsPushed | Studs/ViewControllers/RegistrationTableViewController.swift:30-33 | The subscription replaces only the registrations |
| Registration.RegistrationTableViewController.NumberOfRows | Studs/ViewControllers/RegistrationTableViewController.swift:73-76 | There is one row per user |
| Registration.RegistrationTableViewController.Accessory | Studs/ViewControllers/RegistrationTableViewController.swift:78-87 | The row's accessory is a checkmark iff its user has a registration |
| Registration.RegistrationTableViewController.DidSelectRow | Studs/ViewControllers/RegistrationTableViewController.swift:92-104 | A tap acts iff someone is signed in, always on the screen's activity, adding when the row user is unregistered and removing otherwise |
| Sequences.Filter | Studs/ViewControllers/MapViewController.swift:57-58 | `filter` keeps exactly the matching elements, at most as many as the input, with no new ones |
| Sequences.FilterAppend | Studs/ViewControllers/MapViewController.swift:57-58 | `filter` distributes over concatenation, so the kept elements stay in their original order |
| Sequences.CompactMap | Studs/Firebase.swift:96 | The optional-dropping `flatMap` yields only converted elements, and every element that converts contributes its result |
| FirebaseCheckins.StringField | Studs/Firebase.swift:105-108 | A field reads as a string iff it is present and holds a string |
| FirebaseCheckins.CreateCheckin | Studs/Firebase.swift:102-119 | Conversion fails iff one of `eventId`, `userId`, `checkedInById`, `checkedInAt` is missing or not a string; otherwise the id is the document id, the three ids are copied, and the time is the parsed one or now when it does not parse |
| FirebaseCheckins.CheckinsDelivered | Studs/Firebase.swift:82-99 | A missing snapshot calls no handler; otherwise exactly the converting documents are delivered, none invented |
| FirebaseCheckins.CheckinsDeliveredInOrder | Studs/Firebase.swift:96 | Delivery preserves document order (it distributes over splitting the snapshot) |
| FirebaseCheckins.WellFormedSnapshotDeliveredWhole | Studs/Firebase.swift:96 | When every document converts, all are delivered, the i-th with the i-th document's id |
| FirebaseCheckins.CheckinOfSnapshot | Studs/Firebase.swift:57-79 | The single-check-in listener always calls its handler: with none when there is no first document, else with the first document's conversion |
| FirebaseCheckins.CheckinFields | Studs/Firebase.swift:29-34 | `addCheckin` writes exactly the keys `eventId`, `userId`, `checkedInById`, `checkedInAt` |
| FirebaseCheckins.AddedCheckinReadsBack | Studs/Firebase.swift:22-39 | A check-in written by `addCheckin` converts back with the same three ids, and with the same time when the formatted time parses back |

## Left out

- The `Store` base class and `Subscription` are not part of this model: subscriber notification, the scheduling of commands and the main-thread marshalling are not modelled; the store only records which commands are pending and applies their completions, in any order.
- The store's `activitiesSubscription` (Studs/Trip/TripStore.swift:44-47) is a private lazy property that nothing reads, so its stream is never started and the store receives activity lists only through explicit `updateActivities` dispatches; `Trip.TripStore.DispatchActivities` models such a dispatch, not a live subscription.
- Firestore listeners, `unsubscribe` in `deinit`, `[weak self]` and the server-side query filters (`whereField`, `limit(to: 1)`) are left out: listeners are modelled as functions from a snapshot to what their handler receives.
- The backend writes (`addDocument`, `delete`, `addOrUpdateActivity`, `addActivityRegistration`, `removeActivityRegistration`) are results of the model (effects), not performed; `Registration.AfterEffect` assumes the backend appends a new registration and deletes by id.
- The REST/GraphQL transport of `API.getUsers`, login, logout and cookie deletion: only the success or failure of the call is a parameter.
- `DateFormatter.iso8601Fractional`, `Date()` and `UUID()` are parameters; `createCheckin` reads `Date()` at most once per document, and only for a `checkedInAt` that does not parse (the right-hand side of `??` is evaluated lazily); the model uses one `now` per snapshot.
- Floating point: coordinates and `drawerBottomSafeArea` are reals, so NaN and signed zero in the overridden pin equality are not modelled; the XOR `hashValue` is left out.
- MapKit: non-point annotations on the map view and pin object identity (pins are values, so identical pins are one); the map view's annotation order, which MapKit does not specify, is kept as a sequence; the compass and the tracking-mode button images are UI.
- `URL(string:)` in `openURL`: the model yields the URL string a tap would open, not whether it parses.
- `User.fullName` is not defined in the shown files; it is a parameter of the sort.
- Strings compare and trim by character: Unicode canonical equivalence and grapheme clusters are not modelled.
- Registration.SortByFullName: states only sorted-and-permutation, because Swift's `sorted` is not stable and promises no order among users with equal full names.
- Registration.RegistrationTableViewController.DidSelectRow: requires a selected activity. With none, the screen dismisses itself in `viewDidLoad`; a tap that still arrives returns quietly without an acting user and crashes on the implicitly unwrapped `activity` with one, neither of which is modelled.
- EventDetail.EventDetailViewController.constructor: the storyboard is not part of this model; its initial state (both survey buttons and the check-in bar button visible) is assumed. The `event` that the presenting screen assigns to the implicitly unwrapped `var event: Event!` is taken as a constructor argument.
- UI glue: geocoding and the event pin, theming, haptics, the alert's presentation, segues and `prepare(for:)` (pre-filling the editor form), the map memory-leak workaround, location-manager setup.
- The event list screen, the login screen, the activity cell and `Event.swift` are not part of this model; the event fields used (`beforeSurveys`, `afterSurveys`, a parsed `date`) are modelled as the detail screen uses them.
