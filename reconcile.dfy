/**
 The controller's state and the pure meaning of each event it handles
 (src/components/App/App.jsx:40-225). Every function here takes the state
 before an event and gives the state after it, including the effects the
 controller issues to its collaborators (the map, the race service, the
 device's geolocation). The class in module AppController performs the same
 steps imperatively and is proved against these functions.

 React calls `componentDidUpdate` after every state change; its decision
 table is `Reconciled`. It only reacts to a changed search mode or to changed
 filter lists, so after the other state changes it is the identity
 (`ReconciledIdle`).
 */
module Reconcile {
  import opened Wrappers
  import opened Seqs
  import opened Geo
  import opened Tracks
  import opened Filters
  import opened Settings

  /** The three search modes the navigation offers. */
  datatype Mode = LocationMode | CurrentLocationMode | TrackMode

  /** The text the mode is persisted as. */
  function ModeName(m: Mode): string {
    match m
    case LocationMode => "location"
    case CurrentLocationMode => "currentLocation"
    case TrackMode => "track"
  }

  /** The zoom level of the map and its limits, mirrored into the controller's state. */
  datatype Zoom = Zoom(current: int, minimum: int, maximum: int)

  /** The zoom level the map is set to around the device's position. */
  const GeolocationZoom: int := 10

  /** Requests to collaborators, in the order they are issued. */
  datatype Effect =
    | RequestTrackList                        // USABMX.getTrackList()
    | FitBounds(target: Bounds)               // map.fitBounds(bounds)
    | SetView(center: Position, zoom: int)    // map.setView(center, zoom)
    | QueryTracks(names: seq<string>)         // USABMX.getRacesByTracks(names)
    | QueryTrack(track: Track)                // USABMX.getRacesByTrack(track)
    | RequestGeolocation                      // navigator.geolocation.getCurrentPosition

  /**
   The controller's state. `bounds` covers all tracks; `view` is the map's
   current view (None until the map is ready); `storage` is the persisted
   settings store; `effects` is the log of requests issued so far.
   */
  datatype AppState = AppState(
    tracks: seq<Track>,
    activeTrack: Option<Track>,
    raceList: Option<seq<Race>>,
    loaded: bool,
    searchMode: Mode,
    categoryFilters: seq<string>,
    regionFilters: seq<string>,
    bounds: Option<Bounds>,
    view: Option<Bounds>,
    zoom: Option<Zoom>,
    storage: map<string, Stored>,
    effects: seq<Effect>)

  /** The parts of the previous state that `componentDidUpdate` compares against. */
  datatype Snapshot = Snapshot(mode: Mode, categoryFilters: seq<string>, regionFilters: seq<string>)

  function Snap(s: AppState): Snapshot {
    Snapshot(s.searchMode, s.categoryFilters, s.regionFilters)
  }

  /** Both filter lists can be read back from the store; otherwise parsing them would fail. */
  predicate ReadableFilters(storage: map<string, Stored>) {
    GetArraySetting(storage, CategoryFiltersKey, DefaultCategoryFilters()).Parsed? &&
    GetArraySetting(storage, RegionFiltersKey, DefaultRegionFilters()).Parsed?
  }

  /** Reading the filter settings with their defaults gives back the filters in use. */
  predicate PersistedFilters(s: AppState) {
    GetArraySetting(s.storage, CategoryFiltersKey, DefaultCategoryFilters()) == Parsed(s.categoryFilters) &&
    GetArraySetting(s.storage, RegionFiltersKey, DefaultRegionFilters()) == Parsed(s.regionFilters)
  }

  /**
   What every reachable state satisfies: the all-tracks bounds are those of
   the current track list, and a reload would restore the current filters.
   */
  predicate Consistent(s: AppState) {
    s.bounds == AllTracksBounds(s.tracks) && PersistedFilters(s)
  }

  /** The state set up by the constructor, with the filters read from the store. */
  function InitialState(storage: map<string, Stored>): (s: AppState)
    requires ReadableFilters(storage)
    ensures Consistent(s)
    ensures s.searchMode == LocationMode && !s.loaded && s.raceList.None? && s.activeTrack.None?
    ensures CategoryFiltersKey !in storage ==> s.categoryFilters == DefaultCategoryFilters()
    ensures RegionFiltersKey !in storage ==> s.regionFilters == DefaultRegionFilters()
    ensures CategoryFiltersKey in storage ==> storage[CategoryFiltersKey] == Items(s.categoryFilters)
    ensures RegionFiltersKey in storage ==> storage[RegionFiltersKey] == Items(s.regionFilters)
  {
    AppState([], None, None, false, LocationMode,
             GetArraySetting(storage, CategoryFiltersKey, DefaultCategoryFilters()).items,
             GetArraySetting(storage, RegionFiltersKey, DefaultRegionFilters()).items,
             None, None, None, storage, [])
  }

  /** `searchByLocation`: request the races of the tracks inside `b`. */
  function SearchByLocation(s: AppState, b: Bounds): AppState {
    s.(effects := s.effects + [QueryTracks(SelectNames(s.tracks, b))])
  }

  /** `searchByTrack`: request the races of one track. */
  function SearchByTrack(s: AppState, t: Track): AppState {
    s.(effects := s.effects + [QueryTrack(t)])
  }

  predicate FiltersChanged(prev: Snapshot, s: AppState) {
    prev.categoryFilters != s.categoryFilters || prev.regionFilters != s.regionFilters
  }

  /**
   The map is needed (and must be ready) exactly when the reaction fits it
   to the all-tracks bounds or reads its bounds.
   */
  predicate CanReconcile(prev: Snapshot, s: AppState) {
    if prev.mode != s.searchMode then
      s.searchMode == LocationMode ==> s.bounds.Some? && s.view.Some?
    else
      FiltersChanged(prev, s) && s.searchMode != TrackMode ==> s.view.Some?
  }

  /** The entry action of the (new) search mode. */
  function EnterMode(s: AppState): AppState
    requires s.searchMode == LocationMode ==> s.bounds.Some? && s.view.Some?
  {
    match s.searchMode
    case LocationMode =>
      var b := s.bounds.value;
      SearchByLocation(s.(view := Some(b), effects := s.effects + [FitBounds(b)]), b)
    case CurrentLocationMode =>
      s.(effects := s.effects + [RequestGeolocation])
    case TrackMode =>
      if s.activeTrack.Some? then SearchByTrack(s, s.activeTrack.value) else s.(raceList := None)
  }

  /** Persist both filter lists, then query again the way the current mode queries. */
  function RefreshFilters(s: AppState): AppState
    requires s.searchMode != TrackMode ==> s.view.Some?
  {
    var stored := StoreArraySetting(StoreArraySetting(s.storage, CategoryFiltersKey, s.categoryFilters),
                                    RegionFiltersKey, s.regionFilters);
    var s1 := s.(storage := stored);
    if s.searchMode != TrackMode then SearchByLocation(s1, s.view.value)
    else if s.activeTrack.Some? then SearchByTrack(s1, s.activeTrack.value)
    else s1
  }

  /** `componentDidUpdate`: the reaction to the change from `prev` to `s`. */
  function Reconciled(prev: Snapshot, s: AppState): AppState
    requires CanReconcile(prev, s)
  {
    if prev.mode != s.searchMode then
      EnterMode(s.(storage := StoreSetting(s.storage, SearchModeKey, ModeName(s.searchMode))))
    else if FiltersChanged(prev, s) then
      RefreshFilters(s)
    else
      s
  }

  // ---------------------------------------------------------------------------
  // Events

  /** `componentDidMount`: request the track list. */
  function MountSpec(s: AppState): AppState {
    s.(effects := s.effects + [RequestTrackList])
  }

  /** The track list arrives: keep it and the bounds around all its tracks. */
  function TrackListLoadedSpec(s: AppState, tracks: seq<Track>): AppState {
    s.(tracks := tracks, bounds := AllTracksBounds(tracks))
  }

  /** `mapReady`: mirror the map's zoom, then run the current mode's initial search. */
  function MapReadySpec(s: AppState, view: Bounds, zoom: Zoom): AppState {
    var s1 := s.(view := Some(view), zoom := Some(zoom));
    match s.searchMode
    case CurrentLocationMode => s1.(effects := s1.effects + [RequestGeolocation])
    case LocationMode => SearchByLocation(s1, view)
    case TrackMode => s1
  }

  predicate CanSetSearchMode(s: AppState, m: Mode) {
    CanReconcile(Snap(s), s.(searchMode := m))
  }

  /** `setSearchMode` followed by the update reaction. */
  function SetSearchModeSpec(s: AppState, m: Mode): AppState
    requires CanSetSearchMode(s, m)
  {
    Reconciled(Snap(s), s.(searchMode := m))
  }

  /** `setActiveTrack`: always select; in track mode also clear the list or query the track. */
  function SetActiveTrackSpec(s: AppState, t: Option<Track>): AppState {
    var s1 := s.(activeTrack := t);
    if s.searchMode != TrackMode then s1
    else if t.None? then s1.(raceList := None)
    else SearchByTrack(s1, t.value)
  }

  /** `onViewportChanged`: the map moved; outside track mode mirror the zoom and query by the new view. */
  function ViewportChangedSpec(s: AppState, view: Bounds, zoom: Zoom): AppState {
    var s1 := s.(view := Some(view));
    if s.searchMode == TrackMode then s1
    else SearchByLocation(s1.(zoom := Some(zoom)), view)
  }

  /** The device's position arrives: center the map there and query by the view the map then shows. */
  function GeolocatedSpec(s: AppState, center: Position, view: Bounds): AppState
    requires s.view.Some?
  {
    SearchByLocation(s.(effects := s.effects + [SetView(center, GeolocationZoom)], view := Some(view)), view)
  }

  /** The by-bounds query completes: show its filtered result and mark the app loaded. */
  function LocationResultSpec(s: AppState, result: seq<Race>): AppState {
    s.(raceList := Some(FilterResults(result, s.categoryFilters, s.regionFilters)), loaded := true)
  }

  /** The by-track query completes: show its filtered result. */
  function TrackResultSpec(s: AppState, result: seq<Race>): AppState {
    s.(raceList := Some(FilterResults(result, s.categoryFilters, s.regionFilters)))
  }

  predicate CanToggle(s: AppState) {
    s.searchMode != TrackMode ==> s.view.Some?
  }

  /** `toggleCategoryFilter` followed by the update reaction. */
  function ToggleCategorySpec(s: AppState, x: string): AppState
    requires CanToggle(s)
  {
    Reconciled(Snap(s), s.(categoryFilters := Toggled(s.categoryFilters, x)))
  }

  /** `toggleRegionFilter` followed by the update reaction. */
  function ToggleRegionSpec(s: AppState, x: string): AppState
    requires CanToggle(s)
  {
    Reconciled(Snap(s), s.(regionFilters := Toggled(s.regionFilters, x)))
  }

  // ---------------------------------------------------------------------------
  // Properties of the update reaction

  /** Number of by-bounds and by-track race queries in a log. */
  function LocationQueries(es: seq<Effect>): nat {
    |Filter(es, (e: Effect) => e.QueryTracks?)|
  }

  function TrackQueries(es: seq<Effect>): nat {
    |Filter(es, (e: Effect) => e.QueryTrack?)|
  }

  /** A state change that touches neither the mode nor the filters provokes no reaction. */
  lemma ReconciledIdle(prev: Snapshot, s: AppState)
    requires Snap(s) == prev
    ensures CanReconcile(prev, s) && Reconciled(prev, s) == s
  {
  }

  /**
   A reaction never changes the mode, the filters, the tracks, the selection
   or the loaded flag; it only persists settings, issues requests, clears the
   race list or fits the view.
   */
  lemma ReconciledFrame(prev: Snapshot, s: AppState)
    requires CanReconcile(prev, s)
    ensures var t := Reconciled(prev, s);
      t.searchMode == s.searchMode && t.categoryFilters == s.categoryFilters &&
      t.regionFilters == s.regionFilters && t.tracks == s.tracks && t.activeTrack == s.activeTrack &&
      t.loaded == s.loaded && t.bounds == s.bounds && t.zoom == s.zoom &&
      (t.raceList == s.raceList || t.raceList.None?) &&
      |s.effects| <= |t.effects| && t.effects[..|s.effects|] == s.effects
  {
  }

  /**
   A mode change persists the mode and nothing else, even if the filters
   changed too: the mode's entry action takes precedence over filter handling.
   */
  lemma ModeChangePersistsOnlyMode(prev: Snapshot, s: AppState)
    requires CanReconcile(prev, s) && prev.mode != s.searchMode
    ensures Reconciled(prev, s).storage == s.storage[SearchModeKey := Text(ModeName(s.searchMode))]
  {
  }

  /** Entering location mode fits the map to all tracks, then queries the tracks inside that view. */
  lemma EnterLocationFitsThenQueries(prev: Snapshot, s: AppState)
    requires CanReconcile(prev, s) && prev.mode != s.searchMode && s.searchMode == LocationMode
    ensures var b := s.bounds.value;
      Reconciled(prev, s).effects == s.effects + [FitBounds(b), QueryTracks(SelectNames(s.tracks, b))] &&
      Reconciled(prev, s).view == Some(b) &&
      Reconciled(prev, s).raceList == s.raceList
  {
  }

  /** With consistent bounds, the query issued on entering location mode names every track. */
  lemma EnterLocationQueriesEveryTrack(prev: Snapshot, s: AppState)
    requires CanReconcile(prev, s) && prev.mode != s.searchMode && s.searchMode == LocationMode
    requires Consistent(s)
    ensures Reconciled(prev, s).effects == s.effects + [FitBounds(s.bounds.value), QueryTracks(Names(s.tracks))]
  {
    AllTracksBoundsSelectsAll(s.tracks);
  }

  /** Entering current-location mode only asks for the device's position. */
  lemma EnterCurrentLocationRequestsPosition(prev: Snapshot, s: AppState)
    requires CanReconcile(prev, s) && prev.mode != s.searchMode && s.searchMode == CurrentLocationMode
    ensures Reconciled(prev, s).effects == s.effects + [RequestGeolocation]
    ensures Reconciled(prev, s).raceList == s.raceList && Reconciled(prev, s).view == s.view
  {
  }

  /** Entering track mode queries the selected track, or clears the list when none is selected. */
  lemma EnterTrackQueriesOrClears(prev: Snapshot, s: AppState)
    requires CanReconcile(prev, s) && prev.mode != s.searchMode && s.searchMode == TrackMode
    ensures s.activeTrack.Some? ==>
      Reconciled(prev, s).effects == s.effects + [QueryTrack(s.activeTrack.value)] &&
      Reconciled(prev, s).raceList == s.raceList
    ensures s.activeTrack.None? ==>
      Reconciled(prev, s).effects == s.effects && Reconciled(prev, s).raceList.None?
  {
  }

  /**
   A change of either filter list under an unchanged mode persists both lists
   and re-queries: by the current view outside track mode, by the selected
   track in track mode, and not at all in track mode without a selection.
   */
  lemma FilterChangePersistsAndRequeries(prev: Snapshot, s: AppState)
    requires CanReconcile(prev, s) && prev.mode == s.searchMode && FiltersChanged(prev, s)
    ensures var t := Reconciled(prev, s);
      t.storage == s.storage[CategoryFiltersKey := Items(s.categoryFilters)][RegionFiltersKey := Items(s.regionFilters)] &&
      PersistedFilters(t) &&
      t.raceList == s.raceList &&
      t.effects == s.effects +
        (if s.searchMode != TrackMode then [QueryTracks(SelectNames(s.tracks, s.view.value))]
         else if s.activeTrack.Some? then [QueryTrack(s.activeTrack.value)]
         else [])
  {
  }

  /**
   Switching from track mode to location mode issues exactly one by-bounds
   query and no by-track query.
   */
  lemma TrackToLocationQueriesOnce(s: AppState)
    requires s.searchMode == TrackMode && CanSetSearchMode(s, LocationMode)
    ensures var t := SetSearchModeSpec(s, LocationMode);
      LocationQueries(t.effects) == LocationQueries(s.effects) + 1 &&
      TrackQueries(t.effects) == TrackQueries(s.effects)
  {
    var b := s.bounds.value;
    var added := [FitBounds(b), QueryTracks(SelectNames(s.tracks, b))];
    assert SetSearchModeSpec(s, LocationMode).effects == s.effects + added;
    FilterConcat(s.effects, added, (e: Effect) => e.QueryTracks?);
    FilterConcat(s.effects, added, (e: Effect) => e.QueryTrack?);
    assert added[1..][1..] == [];
  }

  /**
   Once the by-bounds result arrives after that switch, the list shown is that
   result under the current filters, whatever track-based list was shown before.
   */
  lemma LocationResultReplacesList(s: AppState, result: seq<Race>, race: Race)
    ensures LocationResultSpec(s, result).raceList == Some(FilterResults(result, s.categoryFilters, s.regionFilters))
    ensures var t := LocationResultSpec(s, result);
      t.loaded && t.raceList.Some? &&
      (race in t.raceList.value <==> race in result && Keep(race, s.categoryFilters, s.regionFilters))
  {
    FilterMembership(result, Keeps(s.categoryFilters, s.regionFilters), race);
  }

  // ---------------------------------------------------------------------------
  // Properties of the other events

  /** Selecting a track always records it; outside track mode that is all it does. */
  lemma SetActiveTrackSelects(s: AppState, t: Option<Track>)
    ensures SetActiveTrackSpec(s, t).activeTrack == t
    ensures s.searchMode != TrackMode ==> SetActiveTrackSpec(s, t) == s.(activeTrack := t)
    ensures s.searchMode == TrackMode && t.None? ==>
      SetActiveTrackSpec(s, t) == s.(activeTrack := t, raceList := None)
    ensures s.searchMode == TrackMode && t.Some? ==>
      SetActiveTrackSpec(s, t) == s.(activeTrack := t, effects := s.effects + [QueryTrack(t.value)])
  {
  }

  /** In track mode a moved map changes nothing of the controller's own state and issues nothing. */
  lemma ViewportIgnoredInTrackMode(s: AppState, view: Bounds, zoom: Zoom)
    requires s.searchMode == TrackMode
    ensures ViewportChangedSpec(s, view, zoom) == s.(view := Some(view))
  {
  }

  /** Outside track mode a moved map is queried by exactly the tracks its new view contains. */
  lemma ViewportQueriesVisibleTracks(s: AppState, view: Bounds, zoom: Zoom, n: string)
    requires s.searchMode != TrackMode
    ensures ViewportChangedSpec(s, view, zoom).effects == s.effects + [QueryTracks(SelectNames(s.tracks, view))]
    ensures n in SelectNames(s.tracks, view) <==>
            exists i :: 0 <= i < |s.tracks| && s.tracks[i].name == n && Contains(view, s.tracks[i].position)
  {
    SelectNamesExactly(s.tracks, view, n);
  }

  /** The by-track result updates the list but never the loaded flag. */
  lemma TrackResultKeepsLoaded(s: AppState, result: seq<Race>)
    ensures TrackResultSpec(s, result).loaded == s.loaded
    ensures TrackResultSpec(s, result).raceList == Some(FilterResults(result, s.categoryFilters, s.regionFilters))
  {
  }

  /** Toggling a category persists the new categories, so a reload restores them. */
  lemma ToggleCategoryPersists(s: AppState, x: string)
    requires CanToggle(s)
    ensures ToggleCategorySpec(s, x).categoryFilters == Toggled(s.categoryFilters, x)
    ensures ToggleCategorySpec(s, x).regionFilters == s.regionFilters
    ensures PersistedFilters(ToggleCategorySpec(s, x))
  {
    ToggledDiffers(s.categoryFilters, x);
  }

  /** Toggling a region persists the new regions, so a reload restores them. */
  lemma ToggleRegionPersists(s: AppState, x: string)
    requires CanToggle(s)
    ensures ToggleRegionSpec(s, x).regionFilters == Toggled(s.regionFilters, x)
    ensures ToggleRegionSpec(s, x).categoryFilters == s.categoryFilters
    ensures PersistedFilters(ToggleRegionSpec(s, x))
  {
    ToggledDiffers(s.regionFilters, x);
  }

  /** Filters persisted as National and State read back as exactly those. */
  lemma PersistedFiltersExample(storage: map<string, Stored>)
    requires ReadableFilters(storage)
    ensures var s := InitialState(storage[CategoryFiltersKey := Items(["National", "State"])]);
      s.categoryFilters == ["National", "State"]
  {
  }

  /** The events that touch neither the mode nor the filter settings keep the state consistent. */
  lemma EventsKeepConsistency(s: AppState, t: Option<Track>, tracks: seq<Track>, view: Bounds,
                              zoom: Zoom, center: Position, result: seq<Race>)
    requires Consistent(s)
    ensures Consistent(MountSpec(s)) && Consistent(TrackListLoadedSpec(s, tracks))
    ensures Consistent(MapReadySpec(s, view, zoom)) && Consistent(SetActiveTrackSpec(s, t))
    ensures Consistent(ViewportChangedSpec(s, view, zoom))
    ensures Consistent(LocationResultSpec(s, result)) && Consistent(TrackResultSpec(s, result))
    ensures s.view.Some? ==> Consistent(GeolocatedSpec(s, center, view))
  {
  }

  /** Changing the search mode keeps the state consistent: the mode is stored under its own key. */
  lemma SetSearchModeKeepsConsistency(s: AppState, m: Mode)
    requires Consistent(s) && CanSetSearchMode(s, m)
    ensures Consistent(SetSearchModeSpec(s, m))
  {
  }
}
