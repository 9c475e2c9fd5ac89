/** Selection of the track references the view needs, out of the ordered list
    of every subscribed and published track the room reports. */
module Tracks {
  import opened Wrappers

  datatype TrackKind = Audio | Video | UnknownKind

  datatype TrackSource = Camera | Microphone | ScreenShare | ScreenShareAudio | UnknownSource

  /** A published track with the facts the selectors look at: its kind, its
      source, and whether its owner is an agent or the local participant. */
  datatype TrackRef = TrackRef(
    sid: string,
    participant: string,
    kind: TrackKind,
    source: TrackSource,
    isAgent: bool,
    isLocal: bool)

  /** The conditions the component searches for. */
  datatype Criterion =
    | AgentVideo
    | WithSource(src: TrackSource)
    | LocalWithSource(localSrc: TrackSource)

  predicate Matches(c: Criterion, t: TrackRef)
  {
    match c
    case AgentVideo => t.kind == Video && t.isAgent
    case WithSource(src) => t.source == src
    case LocalWithSource(src) => t.isLocal && t.source == src
  }

  /** Position `i` holds the first track of `s` that meets `c`. */
  ghost predicate IsFirstMatch(s: seq<TrackRef>, c: Criterion, i: int)
  {
    0 <= i < |s| && Matches(c, s[i]) && forall j :: 0 <= j < i ==> !Matches(c, s[j])
  }

  /** Where `Array.prototype.find` stops. */
  function FirstIndex(s: seq<TrackRef>, c: Criterion): (r: Option<nat>)
    ensures r.Some? ==> IsFirstMatch(s, c, r.value)
    ensures r.None? <==> forall j :: 0 <= j < |s| ==> !Matches(c, s[j])
  {
    if s == [] then None
    else if Matches(c, s[0]) then Some(0)
    else match FirstIndex(s[1..], c)
      case None => None
      case Some(k) => Some(k + 1)
  }

  /** `s.find(t => Matches(c, t))`. */
  function Find(s: seq<TrackRef>, c: Criterion): (r: Option<TrackRef>)
    ensures r.None? <==> forall j :: 0 <= j < |s| ==> !Matches(c, s[j])
    ensures r.Some? ==> exists i :: IsFirstMatch(s, c, i) && s[i] == r.value
  {
    match FirstIndex(s, c)
    case None => None
    case Some(i) => Some(s[i])
  }

  lemma FindCons(x: TrackRef, rest: seq<TrackRef>, c: Criterion)
    ensures Find([x] + rest, c) == if Matches(c, x) then Some(x) else Find(rest, c)
  {
  }

  /** The agent's video: the first Video track whose owner is an agent. */
  function AgentVideoTrack(tracks: seq<TrackRef>): (r: Option<TrackRef>)
    ensures r.None? <==> forall j :: 0 <= j < |tracks| ==> !(tracks[j].kind == Video && tracks[j].isAgent)
    ensures r.Some? ==> r.value.kind == Video && r.value.isAgent
    ensures r.Some? ==> exists i :: IsFirstMatch(tracks, AgentVideo, i) && tracks[i] == r.value
  {
    Find(tracks, AgentVideo)
  }

  /** The tracks owned by the local participant, in their original order. */
  function LocalTracks(tracks: seq<TrackRef>): (r: seq<TrackRef>)
    ensures |r| <= |tracks|
    ensures forall t :: t in r <==> t in tracks && t.isLocal
  {
    if tracks == [] then []
    else (if tracks[0].isLocal then [tracks[0]] else []) + LocalTracks(tracks[1..])
  }

  /** Filtering preserves order: the local tracks of a concatenation are the
      local tracks of the first part followed by those of the second. */
  lemma {:induction false} LocalTracksAppend(a: seq<TrackRef>, b: seq<TrackRef>)
    ensures LocalTracks(a + b) == LocalTracks(a) + LocalTracks(b)
  {
    if a == [] {
      assert a + b == b;
    } else {
      assert (a + b)[0] == a[0];
      assert (a + b)[1..] == a[1..] + b;
      LocalTracksAppend(a[1..], b);
    }
  }

  /** Searching the local tracks for a source finds the same track as searching
      every track for a local one with that source. */
  lemma {:induction false} FindInLocalTracks(tracks: seq<TrackRef>, src: TrackSource)
    ensures Find(LocalTracks(tracks), WithSource(src)) == Find(tracks, LocalWithSource(src))
  {
    if tracks != [] {
      var x, rest := tracks[0], tracks[1..];
      assert tracks == [x] + rest;
      FindInLocalTracks(rest, src);
      FindCons(x, rest, LocalWithSource(src));
      if x.isLocal {
        FindCons(x, LocalTracks(rest), WithSource(src));
      } else {
        assert LocalTracks(tracks) == LocalTracks(rest);
      }
    }
  }

  /** `localTracks.find(({ source }) => source === src)`. */
  function LocalTrackBySource(tracks: seq<TrackRef>, src: TrackSource): (r: Option<TrackRef>)
    ensures r.None? <==> forall j :: 0 <= j < |tracks| ==> !(tracks[j].isLocal && tracks[j].source == src)
    ensures r.Some? ==> r.value.isLocal && r.value.source == src
    ensures r.Some? ==> exists i :: IsFirstMatch(tracks, LocalWithSource(src), i) && tracks[i] == r.value
  {
    FindInLocalTracks(tracks, src);
    Find(LocalTracks(tracks), WithSource(src))
  }

  function LocalCameraTrack(tracks: seq<TrackRef>): Option<TrackRef>
  {
    LocalTrackBySource(tracks, Camera)
  }

  function LocalScreenTrack(tracks: seq<TrackRef>): Option<TrackRef>
  {
    LocalTrackBySource(tracks, ScreenShare)
  }

  function LocalMicTrack(tracks: seq<TrackRef>): Option<TrackRef>
  {
    LocalTrackBySource(tracks, Microphone)
  }
}
