# Race-day map: application controller

This project models the application controller `App` of a browser map
application for BMX race tracks. It also proves properties of that model.

The controller holds several kinds of state:

- the track list;
- the selected ("active") track;
- the race list being shown;
- the search mode: the visible map area, the device's current location, or one selected track;
- two filter lists, one of race categories and one of regions.

It reacts to events: a mode switch, a track selection, a map move, or a filter toggle. Each reaction
can issue requests to its collaborators: the race service, the map widget and the device's
geolocation. It persists the filters and the mode in a settings store.

Modules:

- `Seqs`: `filter`, `map` and `indexOf` on sequences, and their facts: membership, multiplicity,
  order (subsequence), concatenation, idempotence.
- `Geo`: integer positions and rectangular bounds. Containment includes the boundary. Bounds are
  built from a list of points by extending one point at a time.
- `Tracks`: tracks, and the selection of the names of the tracks inside given bounds.
- `Filters`: races, the category and region options and their defaults, the result filter, and the
  toggle of one value in a filter list.
- `Settings`: the settings store, a map from keys to stored values, with the read-or-default rule.
- `Reconcile`: the controller state as a value, `AppState`. Each event is a function from the state
  before to the state after. That state includes the log of requests issued. `Reconciled` is the
  decision table the component runs after every state change. The lemmas give the properties of
  the events.
- `AppController`: the class `App`. Its fields are the component's state. Its methods carry out each
  event step by step. Each event method (`ComponentDidMount`, `TrackListLoaded`, `MapReady`,
  `SetSearchMode`, `SetActiveTrack`, `OnViewportChanged`, `Geolocated`, `LocationResult`,
  `TrackResult`, `ToggleCategoryFilter`, `ToggleRegionFilter`) requires and keeps the invariant
  `Valid()`, and its postcondition equates the new state with the matching `Reconcile` event
  function applied to the old state. Four methods are helper steps that the event methods call:
  `SearchByCurrentLocation`, `SearchByLocation`, `SearchByTrack` and `DidUpdate`. They neither
  require nor ensure `Valid()`; their postconditions give the new state as a record update
  (`SearchByCurrentLocation`) or as `Reconcile.SearchByLocation`, `Reconcile.SearchByTrack` and
  `Reconcile.Reconciled`. `Reconciled` alone may leave the persisted filters stale when the mode and
  the filters change in one update (`Reconcile.ModeChangePersistsOnlyMode`); the event methods
  never change both at once.

External effects are entries appended to `effects`:

- `RequestTrackList`, `QueryTracks(names)` and `QueryTrack(t)`: requests to the race service.
- `FitBounds(b)` and `SetView(center, zoom)`: commands to the map.
- `RequestGeolocation`: a request to the device.

Each answer arrives through a separate method:

- `TrackListLoaded`: the track list.
- `LocationResult` and `TrackResult`: race lists.
- `Geolocated`: the device's position.
- `MapReady` and `OnViewportChanged`: reports from the map.

The settings store is a map field that the methods update.

Two behaviours of the code worth stating:

- The search mode is written to the store but never read back. The initial mode is always
  "location".
- A toggle removes only the first occurrence of a present value. It does not take a set
  difference. Toggling a value present once, twice, therefore moves it to the end of the list; a
  value present several times loses one copy per toggle.

## Model

| member | source | states |
|---|---|---|
| Seqs.IndexOf | src/components/App/App.jsx:161-164 | the result is -1 exactly when the value is absent, otherwise the position of its first occurrence |
| Seqs.Filter | src/components/App/App.jsx:157-165 | every kept element satisfies the predicate and occurs in the input; the result is no longer than the input |
| Seqs.Map | src/components/App/App.jsx:141 | (also the `.map` at line 75) the result has the input's length and its i-th element is the function applied to the i-th input element |
| Filters.FilterResults | src/components/App/App.jsx:154-166 | the output is never longer than the input, and an empty input gives an empty output |
| Filters.Keep | src/components/App/App.jsx:157-165 | the filter callback: a race passes iff its category is selected and, for Gold Cup, its region is present and selected (the `indexOf(...) >= 0` tests are membership) |
| Filters.FilterResultsExactly | src/components/App/App.jsx:154-166 | a race is shown iff it was returned and its category is selected; a Gold Cup race also needs its region selected |
| Filters.FilterResultsMultiplicity | src/components/App/App.jsx:157-165 | a shown race keeps its exact number of occurrences; a hidden race has none |
| Filters.FilterResultsInOrder | src/components/App/App.jsx:157-165 | the output is a subsequence of the input: the filter never reorders |
| Filters.FilterResultsConcat | src/components/App/App.jsx:157-165 | filtering a concatenation gives the concatenation of the filtered parts (stability) |
| Filters.FilterResultsIdempotent | src/components/App/App.jsx:154-166 | filtering an already filtered list changes nothing |
| Filters.DefaultCategoryFilters | src/components/App/App.jsx:54-58 | the default categories are exactly the options other than "Practice" |
| Filters.DefaultRegionFilters | src/components/App/App.jsx:60-62 | the default regions are exactly all six region options |
| Filters.DefaultCategoryFiltersExample | src/components/App/App.jsx:157-165 | with the default categories, a Practice race is hidden, and a North East Gold Cup race is shown iff "North East" is a selected region |
| Filters.Toggled | src/components/App/App.jsx:168-194 | an absent value is appended; a present value loses exactly its first occurrence and the other elements keep their order; the multiset loses or gains exactly one copy of the value |
| Filters.ToggledDiffers | src/components/App/App.jsx:168-194 | a toggle always yields a different list, so the update reaction always sees changed filters |
| Filters.ToggleFlipsMembership | src/components/App/App.jsx:168-194 | for a value occurring at most once, membership flips and every other value keeps its multiplicity |
| Filters.ToggleKeepsNoDuplicates | src/components/App/App.jsx:168-194 | toggling keeps a list free of duplicates |
| Filters.DefaultCategoryFiltersNoDuplicates | src/components/App/App.jsx:54-58 | the default category list has no duplicates, so with `ToggleKeepsNoDuplicates` every toggle starting from it flips membership (`ToggleFlipsMembership`) |
| Filters.DefaultRegionFiltersNoDuplicates | src/components/App/App.jsx:60-62 | the default region list has no duplicates, with the same consequence for region toggles |
| Filters.ToggleTwiceAbsent | src/components/App/App.jsx:168-194 | toggling an absent value twice restores the original list exactly |
| Filters.ToggleTwicePresent | src/components/App/App.jsx:168-194 | toggling a value present once twice restores the contents but moves the value to the end |
| Geo.Extend | src/components/App/App.jsx:75 | the extended bounds are proper, contain the new point, enclose the old bounds, and are the least such rectangle |
| Geo.BoundsOf | src/components/App/App.jsx:75 | an empty list gives no bounds; otherwise the bounds are proper and contain every listed point |
| Geo.BoundsOfIsLeast | src/components/App/App.jsx:75 | every rectangle containing all the points encloses the built bounds |
| Tracks.SelectNames | src/components/App/App.jsx:141 | at most one name per track is queried |
| Tracks.AllTracksBounds | src/components/App/App.jsx:75 | no bounds exactly for an empty track list; otherwise proper bounds containing every track's position (least such: `Geo.BoundsOfIsLeast`) |
| Tracks.SelectNamesExactly | src/components/App/App.jsx:141 | a name is queried iff some track with that name lies inside the bounds (boundary included) |
| Tracks.SelectNamesInTrackOrder | src/components/App/App.jsx:141 | the queried names are a subsequence of the track names, in track-list order |
| Tracks.SelectNamesAll | src/components/App/App.jsx:141 | bounds that contain every track select every name |
| Tracks.AllTracksBoundsSelectsAll | src/components/App/App.jsx:75 | for a nonempty track list, the all-tracks bounds exist and selecting by them yields every track name |
| Tracks.EnclosingViewSelectsAll | src/components/App/App.jsx:203-205 | any view enclosing the all-tracks bounds selects every track |
| Tracks.SelectNamesExample | src/components/App/App.jsx:139-146 | tracks A at (10,10) and B at (50,50), with bounds covering only (10,10), give the query ["A"] |
| Settings.GetSetting | src/components/App/App.jsx:22-25 | a stored value overrides the default; an absent key yields the default |
| Settings.StoreSetting | src/components/App/App.jsx:27-29 | no ensures of its own; `Settings.ScalarSettingRoundTrip` and `Settings.StoreLeavesOtherKeys` state that the key reads back the text and other keys are unaffected |
| Settings.ScalarSettingRoundTrip | src/components/App/App.jsx:22-29 | reading a scalar setting gives back the text last stored under its key |
| Settings.GetArraySetting | src/components/App/App.jsx:31-34 | an absent key yields the default; a successful read of a present key is the stored list |
| Settings.StoreArraySetting | src/components/App/App.jsx:36-38 | no ensures of its own; `Settings.ArraySettingRoundTrip` and `Settings.StoreLeavesOtherKeys` state that the key reads back the list and other keys are unaffected |
| Settings.StoredListOverridesDefault | src/components/App/App.jsx:31-34 | a stored list, even an empty one, replaces the default |
| Settings.ArraySettingRoundTrip | src/components/App/App.jsx:31-38 | reading an array setting gives back what was last stored under its key |
| Settings.StoreLeavesOtherKeys | src/components/App/App.jsx:27-38 | writing one key does not change how any other key reads, through either `getSetting` or `getArraySetting` |
| Reconcile.InitialState | src/components/App/App.jsx:40-63 | the mode is location, nothing is loaded or selected, the state is consistent, and each filter list is the stored list or, if absent, its default |
| Reconcile.SearchByLocation | src/components/App/App.jsx:139-143 | no ensures of its own; `Reconcile.ViewportQueriesVisibleTracks` and `Tracks.SelectNamesExactly` state that it issues one query naming exactly the tracks inside the bounds |
| Reconcile.SearchByTrack | src/components/App/App.jsx:148-149 | no ensures of its own; `Reconcile.SetActiveTrackSelects` and `Reconcile.EnterTrackQueriesOrClears` state that it issues the one by-track query |
| Reconcile.Reconciled | src/components/App/App.jsx:196-225 | no ensures of its own; the decision table, whose rows are stated by `Reconcile.ReconciledIdle`, `ReconciledFrame`, `ModeChangePersistsOnlyMode`, `EnterLocationFitsThenQueries`, `EnterCurrentLocationRequestsPosition`, `EnterTrackQueriesOrClears` and `FilterChangePersistsAndRequeries` |
| Reconcile.EnterMode | src/components/App/App.jsx:203-214 | no ensures of its own; the mode entry actions, stated by `Reconcile.EnterLocationFitsThenQueries`, `EnterCurrentLocationRequestsPosition` and `EnterTrackQueriesOrClears` |
| Reconcile.RefreshFilters | src/components/App/App.jsx:215-224 | no ensures of its own; stated by `Reconcile.FilterChangePersistsAndRequeries` |
| Reconcile.MountSpec | src/components/App/App.jsx:73-74 | no ensures of its own; `Reconcile.EventsKeepConsistency` states that it keeps the state consistent |
| Reconcile.TrackListLoadedSpec | src/components/App/App.jsx:74-76 | no ensures of its own; `Reconcile.EventsKeepConsistency` states that the bounds match the new tracks and the filters stay persisted |
| Reconcile.MapReadySpec | src/components/App/App.jsx:105-115 | no ensures of its own; `Reconcile.EventsKeepConsistency` states that it keeps the state consistent |
| Reconcile.SetSearchModeSpec | src/components/App/App.jsx:79-81 | no ensures of its own; stated by `Reconcile.SetSearchModeKeepsConsistency`, `ModeChangePersistsOnlyMode`, `TrackToLocationQueriesOnce` and the mode-entry lemmas |
| Reconcile.SetActiveTrackSpec | src/components/App/App.jsx:83-97 | no ensures of its own; stated by `Reconcile.SetActiveTrackSelects` |
| Reconcile.ViewportChangedSpec | src/components/App/App.jsx:117-129 | no ensures of its own; stated by `Reconcile.ViewportIgnoredInTrackMode` and `ViewportQueriesVisibleTracks` |
| Reconcile.GeolocatedSpec | src/components/App/App.jsx:131-136 | no ensures of its own; `Reconcile.EventsKeepConsistency` states that it keeps the state consistent |
| Reconcile.LocationResultSpec | src/components/App/App.jsx:143-145 | no ensures of its own; stated by `Reconcile.LocationResultReplacesList` |
| Reconcile.TrackResultSpec | src/components/App/App.jsx:149-151 | no ensures of its own; stated by `Reconcile.TrackResultKeepsLoaded` |
| Reconcile.ToggleCategorySpec | src/components/App/App.jsx:168-180 | no ensures of its own; stated by `Reconcile.ToggleCategoryPersists` |
| Reconcile.ToggleRegionSpec | src/components/App/App.jsx:182-194 | no ensures of its own; stated by `Reconcile.ToggleRegionPersists` |
| Reconcile.ReconciledIdle | src/components/App/App.jsx:196-225 | an update that changes neither the mode nor the filters provokes no reaction |
| Reconcile.ReconciledFrame | src/components/App/App.jsx:196-225 | a reaction never changes the mode, filters, tracks, selection, loaded flag, bounds or zoom; it only extends the log, writes the store, fits the view or clears the list |
| Reconcile.ModeChangePersistsOnlyMode | src/components/App/App.jsx:199-201 | a mode change stores the mode's name and no other setting, even if the filters changed too |
| Reconcile.EnterLocationFitsThenQueries | src/components/App/App.jsx:203-205 | entering location mode fits the map to the all-tracks bounds, then queries the tracks in that view; the list is kept |
| Reconcile.EnterLocationQueriesEveryTrack | src/components/App/App.jsx:203-205 | in a consistent state, the query issued on entering location mode names every track |
| Reconcile.EnterCurrentLocationRequestsPosition | src/components/App/App.jsx:206-208 | entering current-location mode issues only a geolocation request |
| Reconcile.EnterTrackQueriesOrClears | src/components/App/App.jsx:209-214 | entering track mode queries the active track if there is one, else clears the race list and issues nothing |
| Reconcile.FilterChangePersistsAndRequeries | src/components/App/App.jsx:215-224 | with the mode unchanged, a filter change stores both lists (so they read back) and re-queries by the view outside track mode, by the active track in track mode, and not at all with no active track |
| Reconcile.TrackToLocationQueriesOnce | src/components/App/App.jsx:196-205 | switching from track mode to location mode adds exactly one by-bounds query and no by-track query |
| Reconcile.LocationResultReplacesList | src/components/App/App.jsx:143-145 | when the by-bounds result arrives, the list is exactly that result filtered under the current filters, whatever was shown before, so a race is shown iff it was returned and passes the filter; the app is loaded |
| Reconcile.SetActiveTrackSelects | src/components/App/App.jsx:83-97 | the selection is always recorded; outside track mode nothing else changes; in track mode an empty selection clears the list and a track is queried |
| Reconcile.ViewportIgnoredInTrackMode | src/components/App/App.jsx:117-129 | in track mode a map move leaves the controller's own state alone and issues nothing |
| Reconcile.ViewportQueriesVisibleTracks | src/components/App/App.jsx:117-129 | outside track mode a map move issues one query, naming exactly the tracks in the new view |
| Reconcile.TrackResultKeepsLoaded | src/components/App/App.jsx:148-152 | the by-track result sets the filtered list and never changes the loaded flag |
| Reconcile.ToggleCategoryPersists | src/components/App/App.jsx:168-180 | a category toggle changes only the category list, by the toggle, and leaves both lists persisted |
| Reconcile.ToggleRegionPersists | src/components/App/App.jsx:182-194 | a region toggle changes only the region list, by the toggle, and leaves both lists persisted |
| Reconcile.PersistedFiltersExample | src/components/App/App.jsx:58 | categories stored as ["National", "State"] are restored as exactly that list |
| Reconcile.EventsKeepConsistency | src/components/App/App.jsx:73-152 | mount, track list, map ready, selection, map move, geolocation and query results keep the all-tracks bounds and the persisted filters consistent |
| Reconcile.SetSearchModeKeepsConsistency | src/components/App/App.jsx:196-214 | a mode change keeps the state consistent |
| AppController.App.constructor | src/components/App/App.jsx:40-63 | the new object holds the initial state for the given store |
| AppController.App.ComponentDidMount | src/components/App/App.jsx:73-77 | requests the track list |
| AppController.App.TrackListLoaded | src/components/App/App.jsx:74-76 | stores the tracks and the bounds of all their positions |
| AppController.App.MapReady | src/components/App/App.jsx:105-115 | mirrors view and zoom, then runs the mode's first search |
| AppController.App.SetSearchMode | src/components/App/App.jsx:79-81 | sets the mode, then runs the update reaction, keeping the invariant |
| AppController.App.SetActiveTrack | src/components/App/App.jsx:83-97 | new state is the selection rule applied to the old state |
| AppController.App.OnViewportChanged | src/components/App/App.jsx:117-129 | new state is the viewport rule applied to the old state |
| AppController.App.SearchByCurrentLocation | src/components/App/App.jsx:131-132 | appends one geolocation request and changes nothing else |
| AppController.App.Geolocated | src/components/App/App.jsx:132-136 | centers the map at zoom 10, then queries by the view the map shows |
| AppController.App.SearchByLocation | src/components/App/App.jsx:139-143 | appends the query for the names of the tracks inside the bounds |
| AppController.App.LocationResult | src/components/App/App.jsx:143-145 | shows the filtered result and sets loaded |
| AppController.App.SearchByTrack | src/components/App/App.jsx:148-149 | appends the by-track query |
| AppController.App.TrackResult | src/components/App/App.jsx:149-151 | shows the filtered result; loaded unchanged |
| AppController.App.ToggleCategoryFilter | src/components/App/App.jsx:168-180 | splices or appends by index, then reacts; the new state is the toggle rule applied to the old state |
| AppController.App.ToggleRegionFilter | src/components/App/App.jsx:182-194 | the same for the region list |
| AppController.App.DidUpdate | src/components/App/App.jsx:196-225 | new state is the decision table applied to the previous mode and filters and the current state |

## Left out

- Presentation is not modelled. That covers the navigation panel, the track info panels
  (mobile and desktop), `render`, `onResize`, the widget list, `closeRaceList` and
  `showTrackWithName`. The navigation only calls `setSearchMode` with one of three fixed strings;
  the model types the mode as an enumeration for that reason.
- Concurrency is not modelled. A completion method may be called at any time and applies its
  result; this reproduces the source's stale-overwrite behaviour. Interleavings are not explored.
- Failures are not modelled. A failed fetch or a refused geolocation has no handler in the source,
  and the model has no completion for them.
- Coordinates are integers, not floating point.
- Leaflet's map widget is reduced to its current view. After `fitBounds(b)` the view is taken to
  be exactly `b`; Leaflet picks a zoom whose view encloses `b` (see `Tracks.EnclosingViewSelectsAll`
  for that case). The fit is also taken to have finished before `map.getBounds()` reads the view on
  the next line, although the source asks for an animated fit. `Reconcile.EnterLocationQueriesEveryTrack`
  and `Reconcile.TrackToLocationQueriesOnce` rely on that reading. The map's own move events after `fitBounds` or `setView` are not raised
  automatically; they arrive only as calls to `OnViewportChanged`.
- The zoom mirror fields are plain values with no zoom control.
- The map's presence is a precondition, not an error path. Where the source calls `map.getBounds()`
  or `map.fitBounds()`, it would throw a TypeError before the map is ready. The methods that reach
  such a call require the view to be present. Entering location mode also requires the all-tracks
  bounds: an empty track list gives Leaflet invalid bounds, which `Geo.BoundsOf` models as no
  bounds.
- The `map &&` test in `onViewportChanged`, and its unreachable inner `else` branch, are not
  modelled. The model always has the map there.
- The settings store's string encoding and JSON parsing are not modelled. A list is stored as a
  list; text read as a list is reported as malformed. The constructor requires both filter keys
  to be readable, because the source's `JSON.parse` would throw or give a non-list otherwise. The
  stored search mode is never read back, and the model does not restore it either.
- Settings.GetSetting: on a key that holds a stored list it returns that list, where the source
  would return the list's JSON text. Nothing in the controller reads a list through `getSetting`.
- The source detects changed filters by comparing array references; the model compares values.
  The two agree, because every toggle produces a new, different list (`Filters.ToggledDiffers`).
- Filters.ToggleTwicePresent: states the double toggle only for a value that occurs exactly once,
  because a value that occurs several times loses one copy per toggle instead of coming back.
- Filters.ToggleFlipsMembership: states the membership flip only for a value that occurs at most
  once, because the source removes only the first occurrence of a duplicated value.
- Track and race fields that no logic reads are collapsed into a `details` map. These include
  district, state, contact fields and event data.
