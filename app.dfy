/**
 The application controller `App` (src/components/App/App.jsx) as an object
 whose fields are the component's state. Each method performs one event the
 way the component does, changing the fields step by step and appending the
 requests it issues to `effects`; its postcondition ties the new state to the
 event's meaning in module Reconcile, where the properties of the events are
 proved. Methods that call `setState` on the mode or the filters run
 `DidUpdate` afterwards, as React runs `componentDidUpdate`.
 */
module AppController {
  import opened Wrappers
  import opened Geo
  import opened Tracks
  import opened Filters
  import opened Settings
  import opened Reconcile

  class App {
    var tracks: seq<Track>
    var activeTrack: Option<Track>
    var raceList: Option<seq<Race>>
    var loaded: bool
    var searchMode: Mode
    var categoryFilters: seq<string>
    var regionFilters: seq<string>
    var bounds: Option<Bounds>
    var view: Option<Bounds>
    var zoom: Option<Zoom>
    var storage: map<string, Stored>
    var effects: seq<Effect>

    /** The abstract value of the controller. */
    ghost function State(): AppState
      reads this
    {
      AppState(tracks, activeTrack, raceList, loaded, searchMode, categoryFilters, regionFilters,
               bounds, view, zoom, storage, effects)
    }

    ghost predicate Valid()
      reads this
    {
      Consistent(State())
    }

    /** The constructor: initial state, with both filter lists read from the store or defaulted. */
    constructor (stored: map<string, Stored>)
      requires ReadableFilters(stored)
      ensures Valid() && State() == InitialState(stored)
    {
      tracks := [];
      activeTrack := None;
      raceList := None;
      loaded := false;
      searchMode := LocationMode;
      categoryFilters := GetArraySetting(stored, CategoryFiltersKey, DefaultCategoryFilters()).items;
      regionFilters := GetArraySetting(stored, RegionFiltersKey, DefaultRegionFilters()).items;
      bounds := None;
      view := None;
      zoom := None;
      storage := stored;
      effects := [];
    }

    /** `componentDidMount`: ask the race service for the track list. */
    method ComponentDidMount()
      requires Valid()
      modifies this
      ensures Valid() && State() == MountSpec(old(State()))
    {
      effects := effects + [RequestTrackList];
    }

    /** Completion of `getTrackList`: keep the tracks and the bounds around all of them. */
    method TrackListLoaded(list: seq<Track>)
      requires Valid()
      modifies this
      ensures Valid() && State() == TrackListLoadedSpec(old(State()), list)
    {
      tracks := list;
      bounds := AllTracksBounds(list);
    }

    /** `mapReady`: the map reports its view and zoom; the current mode's first search follows. */
    method MapReady(mapView: Bounds, mapZoom: Zoom)
      requires Valid()
      modifies this
      ensures Valid() && State() == MapReadySpec(old(State()), mapView, mapZoom)
    {
      view := Some(mapView);
      zoom := Some(mapZoom);
      if searchMode == CurrentLocationMode {
        SearchByCurrentLocation();
      } else if searchMode == LocationMode {
        SearchByLocation(mapView);
      }
    }

    /** `setSearchMode`, then the update reaction. */
    method SetSearchMode(mode: Mode)
      requires Valid() && CanSetSearchMode(State(), mode)
      modifies this
      ensures Valid() && State() == SetSearchModeSpec(old(State()), mode)
    {
      var prev := Snapshot(searchMode, categoryFilters, regionFilters);
      searchMode := mode;
      DidUpdate(prev);
      SetSearchModeKeepsConsistency(old(State()), mode);
    }

    /** `setActiveTrack`: select the track; in track mode clear the list or query the track. */
    method SetActiveTrack(track: Option<Track>)
      requires Valid()
      modifies this
      ensures Valid() && State() == SetActiveTrackSpec(old(State()), track)
    {
      var mode := searchMode;
      activeTrack := track;
      if mode != TrackMode {
        return;
      }
      if track.None? {
        raceList := None;
        return;
      }
      SearchByTrack(track.value);
    }

    /** `onViewportChanged`: the map moved to `mapView`; only the location modes react. */
    method OnViewportChanged(mapView: Bounds, mapZoom: Zoom)
      requires Valid()
      modifies this
      ensures Valid() && State() == ViewportChangedSpec(old(State()), mapView, mapZoom)
    {
      view := Some(mapView);
      if searchMode == LocationMode || searchMode == CurrentLocationMode {
        zoom := Some(mapZoom);
        SearchByLocation(mapView);
      }
    }

    /** `searchByCurrentLocation`: ask the device for its position. */
    method SearchByCurrentLocation()
      modifies this
      ensures State() == old(State()).(effects := old(effects) + [RequestGeolocation])
    {
      effects := effects + [RequestGeolocation];
    }

    /** The device's position arrives: center the map on it and search the view the map then shows. */
    method Geolocated(center: Position, mapView: Bounds)
      requires Valid() && view.Some?
      modifies this
      ensures Valid() && State() == GeolocatedSpec(old(State()), center, mapView)
    {
      effects := effects + [SetView(center, GeolocationZoom)];
      view := Some(mapView);
      SearchByLocation(mapView);
    }

    /** `searchByLocation`: query the races of the tracks inside `b`. */
    method SearchByLocation(b: Bounds)
      modifies this
      ensures State() == Reconcile.SearchByLocation(old(State()), b)
    {
      var names := SelectNames(tracks, b);
      effects := effects + [QueryTracks(names)];
    }

    /** Completion of the by-bounds query. */
    method LocationResult(result: seq<Race>)
      requires Valid()
      modifies this
      ensures Valid() && State() == LocationResultSpec(old(State()), result)
    {
      raceList := Some(FilterResults(result, categoryFilters, regionFilters));
      loaded := true;
    }

    /** `searchByTrack`: query the races of one track. */
    method SearchByTrack(track: Track)
      modifies this
      ensures State() == Reconcile.SearchByTrack(old(State()), track)
    {
      effects := effects + [QueryTrack(track)];
    }

    /** Completion of the by-track query; `loaded` is left alone. */
    method TrackResult(result: seq<Race>)
      requires Valid()
      modifies this
      ensures Valid() && State() == TrackResultSpec(old(State()), result)
    {
      raceList := Some(FilterResults(result, categoryFilters, regionFilters));
    }

    /** `toggleCategoryFilter`, then the update reaction. */
    method ToggleCategoryFilter(filter: string)
      requires Valid() && CanToggle(State())
      modifies this
      ensures Valid() && State() == ToggleCategorySpec(old(State()), filter)
    {
      var prev := Snapshot(searchMode, categoryFilters, regionFilters);
      var idx := Seqs.IndexOf(categoryFilters, filter);
      if idx >= 0 {
        var newFilters := categoryFilters[..idx] + categoryFilters[idx + 1..];
        categoryFilters := newFilters;
      } else {
        categoryFilters := categoryFilters + [filter];
      }
      assert categoryFilters == Toggled(prev.categoryFilters, filter);
      ghost var toggled := old(State()).(categoryFilters := Toggled(prev.categoryFilters, filter));
      assert State() == toggled;
      ToggledDiffers(prev.categoryFilters, filter);
      assert CanReconcile(prev, toggled);
      DidUpdate(prev);
      assert State() == ToggleCategorySpec(old(State()), filter);
      ToggleCategoryPersists(old(State()), filter);
      ReconciledFrame(prev, toggled);
    }

    /** `toggleRegionFilter`, then the update reaction. */
    method ToggleRegionFilter(filter: string)
      requires Valid() && CanToggle(State())
      modifies this
      ensures Valid() && State() == ToggleRegionSpec(old(State()), filter)
    {
      var prev := Snapshot(searchMode, categoryFilters, regionFilters);
      var idx := Seqs.IndexOf(regionFilters, filter);
      if idx >= 0 {
        var newFilters := regionFilters[..idx] + regionFilters[idx + 1..];
        regionFilters := newFilters;
      } else {
        regionFilters := regionFilters + [filter];
      }
      assert regionFilters == Toggled(prev.regionFilters, filter);
      ghost var toggled := old(State()).(regionFilters := Toggled(prev.regionFilters, filter));
      assert State() == toggled;
      ToggledDiffers(prev.regionFilters, filter);
      assert CanReconcile(prev, toggled);
      DidUpdate(prev);
      assert State() == ToggleRegionSpec(old(State()), filter);
      ToggleRegionPersists(old(State()), filter);
      ReconciledFrame(prev, toggled);
    }

    /** `componentDidUpdate`, given the mode and filter lists before the change. */
    method DidUpdate(prev: Snapshot)
      requires CanReconcile(prev, State())
      modifies this
      ensures State() == Reconciled(prev, old(State()))
    {
      if prev.mode != searchMode {
        storage := StoreSetting(storage, SearchModeKey, ModeName(searchMode));
      }
      if searchMode == LocationMode && prev.mode != searchMode {
        var target := bounds.value;
        effects := effects + [FitBounds(target)];
        view := Some(target);
        SearchByLocation(target);
      } else if searchMode == CurrentLocationMode && prev.mode != searchMode {
        SearchByCurrentLocation();
      } else if searchMode == TrackMode && prev.mode != searchMode {
        if activeTrack.Some? {
          SearchByTrack(activeTrack.value);
        } else {
          raceList := None;
        }
      } else if categoryFilters != prev.categoryFilters || regionFilters != prev.regionFilters {
        storage := StoreArraySetting(storage, CategoryFiltersKey, categoryFilters);
        storage := StoreArraySetting(storage, RegionFiltersKey, regionFilters);
        if searchMode == LocationMode || searchMode == CurrentLocationMode {
          SearchByLocation(view.value);
        } else if searchMode == TrackMode && activeTrack.Some? {
          SearchByTrack(activeTrack.value);
        }
      }
    }
  }
}
