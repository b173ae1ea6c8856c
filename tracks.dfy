/**
 The track list and the selection of tracks by map bounds that the
 controller performs before querying races for a visible area
 (src/components/App/App.jsx:139-146), together with the all-tracks bounds
 built once the track list arrives (src/components/App/App.jsx:75).
 */
module Tracks {
  import opened Wrappers
  import opened Seqs
  import opened Geo

  /** A track; `name` is its key. `details` holds the contact and location fields the info panels show. */
  datatype Track = Track(name: string, position: Position, details: map<string, string>)

  function TrackName(t: Track): string { t.name }

  function TrackPosition(t: Track): Position { t.position }

  function Names(ts: seq<Track>): seq<string> { Map(ts, TrackName) }

  function Positions(ts: seq<Track>): seq<Position> { Map(ts, TrackPosition) }

  /** The test `bounds.contains(track.position)`, as a predicate on tracks. */
  function InBounds(b: Bounds): Track -> bool {
    (t: Track) => Contains(b, t.position)
  }

  /** `tracks.filter(t => bounds.contains(t.position)).map(t => t.name)`. */
  function SelectNames(tracks: seq<Track>, b: Bounds): (names: seq<string>)
    ensures |names| <= |tracks|
  {
    Names(Filter(tracks, InBounds(b)))
  }

  /** The bounds drawn around every track of the list (`new LatLngBounds(tracks.map(t => t.position))`). */
  function AllTracksBounds(tracks: seq<Track>): (r: Option<Bounds>)
    ensures r.None? <==> tracks == []
    ensures r.Some? ==> Proper(r.value) && forall i :: 0 <= i < |tracks| ==> Contains(r.value, tracks[i].position)
  {
    BoundsOf(Positions(tracks))
  }

  /** A name is queried exactly when some track of the list has that name and lies in the bounds. */
  lemma SelectNamesExactly(tracks: seq<Track>, b: Bounds, n: string)
    ensures n in SelectNames(tracks, b) <==>
            exists i :: 0 <= i < |tracks| && tracks[i].name == n && Contains(b, tracks[i].position)
  {
    var kept := Filter(tracks, InBounds(b));
    if n in SelectNames(tracks, b) {
      var j :| 0 <= j < |kept| && kept[j].name == n;
      FilterMembership(tracks, InBounds(b), kept[j]);
      var i :| 0 <= i < |tracks| && tracks[i] == kept[j];
      assert tracks[i].name == n && Contains(b, tracks[i].position);
    }
    if exists i :: 0 <= i < |tracks| && tracks[i].name == n && Contains(b, tracks[i].position) {
      var i :| 0 <= i < |tracks| && tracks[i].name == n && Contains(b, tracks[i].position);
      FilterMembership(tracks, InBounds(b), tracks[i]);
      var j :| 0 <= j < |kept| && kept[j] == tracks[i];
      assert SelectNames(tracks, b)[j] == n;
    }
  }

  /** The queried names come in track-list order: they are a subsequence of all the names. */
  lemma SelectNamesInTrackOrder(tracks: seq<Track>, b: Bounds)
    ensures IsSubsequence(SelectNames(tracks, b), Names(tracks))
  {
    FilterIsSubsequence(tracks, InBounds(b));
    MapSubsequence(Filter(tracks, InBounds(b)), tracks, TrackName);
  }

  /** Bounds that contain every track select the whole list of names. */
  lemma SelectNamesAll(tracks: seq<Track>, b: Bounds)
    requires forall i :: 0 <= i < |tracks| ==> Contains(b, tracks[i].position)
    ensures SelectNames(tracks, b) == Names(tracks)
  {
    FilterKeepsAll(tracks, InBounds(b));
  }

  /** Every track lies in the all-tracks bounds, so a view of exactly those bounds selects every track. */
  lemma AllTracksBoundsSelectsAll(tracks: seq<Track>)
    requires tracks != []
    ensures AllTracksBounds(tracks).Some?
    ensures SelectNames(tracks, AllTracksBounds(tracks).value) == Names(tracks)
  {
    var b := AllTracksBounds(tracks).value;
    forall i | 0 <= i < |tracks| ensures Contains(b, tracks[i].position) {
      assert Positions(tracks)[i] == tracks[i].position;
    }
    SelectNamesAll(tracks, b);
  }

  /** Any view that encloses the all-tracks bounds also selects every track. */
  lemma EnclosingViewSelectsAll(tracks: seq<Track>, view: Bounds)
    requires tracks != []
    requires Encloses(view, AllTracksBounds(tracks).value)
    ensures SelectNames(tracks, view) == Names(tracks)
  {
    var b := AllTracksBounds(tracks).value;
    forall i | 0 <= i < |tracks| ensures Contains(view, tracks[i].position) {
      assert Positions(tracks)[i] == tracks[i].position;
      EnclosedPointsContained(view, b, tracks[i].position);
    }
    SelectNamesAll(tracks, view);
  }

  /** Two tracks at (10, 10) and (50, 50); bounds covering only the first select only its name. */
  lemma SelectNamesExample()
    ensures SelectNames([Track("A", Position(10, 10), map[]), Track("B", Position(50, 50), map[])],
                        Bounds(0, 0, 20, 20)) == ["A"]
  {
    var ts := [Track("A", Position(10, 10), map[]), Track("B", Position(50, 50), map[])];
    assert ts[1..][1..] == [];
    assert Filter(ts, InBounds(Bounds(0, 0, 20, 20))) == [ts[0]];
  }
}
