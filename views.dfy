/** Which variant of each tile and panel the component renders, as tags in
    place of the markup. */
module Views {
  import opened Wrappers
  import opened Connection
  import opened Tracks
  import opened Requests

  /** The parts of the session configuration the view reads. */
  datatype Config = Config(roomName: string, outputsAudio: bool, outputsVideo: bool, showQr: bool)

  datatype VideoTile =
    | VideoDisconnected
    | VideoShown(track: TrackRef, waitingForVoice: bool)
    | VideoLoading

  /** The agent video tile: a notice while Disconnected; otherwise the agent's
      video, covered by "waiting for agent voice" until either readiness flag
      is set; otherwise the loading placeholder. */
  function VideoTileOf(state: ConnectionState, agentVideo: Option<TrackRef>,
                       hasHeardAudio: bool, serverLoaded: bool): (r: VideoTile)
    ensures r.VideoDisconnected? <==> state == Disconnected
    ensures r.VideoShown? <==> state != Disconnected && agentVideo.Some?
    ensures r.VideoLoading? <==> state != Disconnected && agentVideo.None?
    ensures r.VideoShown? ==> r.track == agentVideo.value
    ensures r.VideoShown? ==> (r.waitingForVoice <==> !hasHeardAudio && !serverLoaded)
  {
    if state == Disconnected then VideoDisconnected
    else if agentVideo.Some? then VideoShown(agentVideo.value, !(hasHeardAudio || serverLoaded))
    else VideoLoading
  }

  datatype AudioTile = AudioDisconnected | AudioWaiting | Visualizer(track: TrackRef)

  /** The agent audio tile: a notice while Disconnected, a waiting indicator
      until the agent's audio track exists, then the bar visualizer on it. */
  function AudioTileOf(state: ConnectionState, agentAudio: Option<TrackRef>): (r: AudioTile)
    ensures r.AudioDisconnected? <==> state == Disconnected
    ensures r.AudioWaiting? <==> state != Disconnected && agentAudio.None?
    ensures r.Visualizer? ==> agentAudio == Some(r.track)
  {
    if state == Disconnected then AudioDisconnected
    else if agentAudio.None? then AudioWaiting
    else Visualizer(agentAudio.value)
  }

  datatype ChatTile = ChatEmpty | TranscriptionChat(agentAudio: Option<TrackRef>)

  /** The chat tile holds the transcription view only when an agent is present. */
  function ChatTileOf(agent: Option<Participant>, agentAudio: Option<TrackRef>): (r: ChatTile)
    ensures r.TranscriptionChat? <==> agent.Some?
    ensures r.TranscriptionChat? ==> r.agentAudio == agentAudio
  {
    if agent.Some? then TranscriptionChat(agentAudio) else ChatEmpty
  }

  /** The settings tile's variable parts. */
  datatype SettingsView = SettingsView(
    roomName: string,
    roomNameEditable: bool,
    status: StatusLabel,
    rpcPanel: bool,
    cameraPanel: Option<TrackRef>,
    micPanel: Option<TrackRef>,
    qrPanel: bool)

  function SettingsOf(state: ConnectionState, liveRoom: string, config: Config,
                      agent: Option<Participant>, tracks: seq<TrackRef>): (r: SettingsView)
    ensures r.roomName == (if state == Connected then liveRoom else config.roomName)
    ensures r.roomNameEditable <==> state != Connected
    ensures r.status == StatusLabelOf(state)
    ensures r.status.Spinner? <==> state == Connecting
    ensures r.rpcPanel <==> state == Connected && agent.Some?
    ensures r.cameraPanel == LocalTrackBySource(tracks, Camera)
    ensures r.micPanel == LocalTrackBySource(tracks, Microphone)
    ensures r.cameraPanel.Some? <==> exists i :: 0 <= i < |tracks| && Matches(LocalWithSource(Camera), tracks[i])
    ensures r.cameraPanel.Some? ==> r.cameraPanel.value.isLocal && r.cameraPanel.value.source == Camera
    ensures r.micPanel.Some? <==> exists i :: 0 <= i < |tracks| && Matches(LocalWithSource(Microphone), tracks[i])
    ensures r.micPanel.Some? ==> r.micPanel.value.isLocal && r.micPanel.value.source == Microphone
    ensures r.qrPanel <==> config.showQr
  {
    SettingsView(
      if state == Connected then liveRoom else config.roomName,
      state != Connected,
      StatusLabelOf(state),
      state == Connected && agent.Some?,
      LocalCameraTrack(tracks),
      LocalMicTrack(tracks),
      config.showQr)
  }

  /** Editing the room name replaces it in the user settings and keeps the rest. */
  function WithRoomName(config: Config, value: string): (r: Config)
    ensures r.roomName == value
    ensures r.(roomName := config.roomName) == config
  {
    config.(roomName := value)
  }

  datatype Tab = VideoTab | AudioTab | SettingsTab

  /** Position a tab takes in the mobile tab list. */
  function TabRank(t: Tab): nat
  {
    match t
    case VideoTab => 0
    case AudioTab => 1
    case SettingsTab => 2
  }

  /** The mobile tab list, built by successive pushes, and the tab shown first. */
  method MobileTabs(config: Config) returns (tabs: seq<Tab>, initialTab: nat)
    ensures VideoTab in tabs <==> config.outputsVideo
    ensures AudioTab in tabs <==> config.outputsAudio
    ensures SettingsTab in tabs
    ensures |tabs| == 1 + (if config.outputsVideo then 1 else 0) + (if config.outputsAudio then 1 else 0)
    ensures initialTab < |tabs| && initialTab == |tabs| - 1 && tabs[initialTab] == SettingsTab
    ensures forall i, j :: 0 <= i < j < |tabs| ==> TabRank(tabs[i]) < TabRank(tabs[j])
  {
    tabs := [];
    if config.outputsVideo {
      tabs := tabs + [VideoTab];
    }
    if config.outputsAudio {
      tabs := tabs + [AudioTab];
    }
    tabs := tabs + [SettingsTab];
    initialTab := |tabs| - 1;
  }

  /** The wide layout: the media column is hidden when neither output is on,
      and it holds only the video tile; the settings tile is always there. */
  datatype DesktopView = DesktopView(mediaColumn: bool, videoTile: bool, settingsTile: bool)

  function DesktopViewOf(config: Config): (r: DesktopView)
    ensures r.mediaColumn <==> config.outputsAudio || config.outputsVideo
    ensures r.videoTile <==> config.outputsVideo
    ensures r.videoTile ==> r.mediaColumn
    ensures r.settingsTile
  {
    DesktopView(config.outputsAudio || config.outputsVideo, config.outputsVideo, true)
  }
}
