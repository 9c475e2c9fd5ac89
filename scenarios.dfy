/** Client code: concrete sessions, with the outcomes the contracts promise. */
module Scenarios {
  import opened Wrappers
  import opened Connection
  import opened Personas
  import opened Tracks
  import opened JsText
  import opened Requests
  import opened Views
  import opened Session

  /** A transcription whose timestamp is 0 is stamped with the receive time. */
  method TranscriptionWithZeroTimestamp(now: int)
  {
    var s := new PlaygroundSession();
    s.OnDataReceived(DataMessage(TranscriptionTopic, Some(TranscriptionPayload("hello", Some(0)))), now);
    assert s.transcripts == [ChatMessage("You", "hello", now, true)];
    s.OnDataReceived(DataMessage(TranscriptionTopic, Some(TranscriptionPayload("again", Some(7)))), now);
    assert s.transcripts[1] == ChatMessage("You", "again", 7, true);
    assert s.transcripts[0].message == "hello";
  }

  /** The audio-ready signal sets both flags whatever they were; a stray topic does nothing. */
  method AudioReadySetsFlags(now: int)
  {
    var s := new PlaygroundSession();
    s.OnDataReceived(DataMessage("chat", None), now);
    assert !s.serverLoaded && !s.hasHeardAudio && s.transcripts == [];
    s.OnDataReceived(DataMessage(AudioReadyTopic, None), now);
    assert s.serverLoaded && s.hasHeardAudio;
  }

  /** One agent video track and one local microphone track. */
  method SelectTracks()
  {
    var video := TrackRef("TR_v", "agent-1", Video, Camera, true, false);
    var mic := TrackRef("TR_m", "me", Audio, Microphone, false, true);
    var tracks := [mic, video];
    var agentVideo := AgentVideoTrack(tracks);
    assert !Matches(AgentVideo, tracks[0]) && Matches(AgentVideo, tracks[1]);
    assert agentVideo == Some(video);
    assert LocalMicTrack(tracks) == Some(mic);
    assert LocalScreenTrack(tracks) == None;
    assert LocalCameraTrack(tracks) == None;
  }

  /** Whitespace-only text sends nothing; "hello" sends one speak request. */
  method SpeakOnlyNonBlankText(now: int)
  {
    var s := new PlaygroundSession();
    var blank := s.SendTranscription("  ", Connected, "", "room-1");
    assert WhiteSpaceBetween("  ", 0, 2) by {
      assert IsWhiteSpace("  "[0]) && IsWhiteSpace("  "[1]);
    }
    assert blank == None;
    var hello := s.SendTranscription("hello", Connected, "", "room-1");
    assert !IsWhiteSpace("hello"[0]);
    assert hello.Some? && hello.value.room == "room-1" && hello.value.voice == "af_heart";
    var offline := s.SendTranscription("hello", Disconnected, "", "room-1");
    assert offline == None;
  }

  /** The RPC is refused without an agent. */
  method RpcNeedsAgent()
  {
    var r := RpcCall(None, true, "greet", "{}");
    assert r == Err(NoAgentOrRoom);
    var ok := RpcCall(Some(Participant("agent-1")), true, "greet", "{}");
    assert ok.Ok? && ok.value.destinationIdentity == "agent-1";
  }

  /** Connect, hear the agent, disconnect, reconnect: the stop goes out, the
      heard-audio flag drops, and the loaded flag keeps the voice overlay off. */
  method ConnectDisconnectReconnect(video: TrackRef, now: int)
    requires video.kind == Video && video.isAgent
  {
    var s := new PlaygroundSession();
    s.SelectPersona(2);
    var on := s.LifecycleEffect(Connected, "room-1");
    assert on == [OfferRequest("room-1", "static/james.mp4", "am_adam", "James", "Coding Assistant")];
    var tile := s.CurrentVideoTile(Connected, [video]);
    assert tile.VideoShown? && tile.waitingForVoice;
    s.OnDataReceived(DataMessage(AudioReadyTopic, None), now);
    tile := s.CurrentVideoTile(Connected, [video]);
    assert tile.VideoShown? && !tile.waitingForVoice;

    var polls := s.OnConnectionStateChange(Disconnected);
    var off := s.LifecycleEffect(Disconnected, "room-1");
    assert polls == [StatusRequest] && off == [StopRequest("room-1")];
    assert !s.hasHeardAudio && s.serverLoaded;
    tile := s.CurrentVideoTile(Disconnected, [video]);
    assert tile == VideoDisconnected;

    polls := s.OnConnectionStateChange(Connected);
    assert polls == [];
    tile := s.CurrentVideoTile(Connected, [video]);
    assert tile.VideoShown? && !tile.waitingForVoice;
  }

  /** A status poll that fails, or reports the backend not loaded, leaves the flags down. */
  method StatusPoll()
  {
    var s := new PlaygroundSession();
    s.ApplyStatus(NotOk);
    s.ApplyStatus(Parsed(StatusResponse(false, None)));
    assert !s.serverLoaded && !s.hasHeardAudio;
    s.ApplyStatus(Parsed(StatusResponse(true, Some("room-1"))));
    assert s.serverLoaded && s.hasHeardAudio;
  }

  /** Audio output only: the tabs are Audio then Settings, and Settings opens first. */
  method AudioOnlyTabs()
  {
    var tabs, initial := MobileTabs(Config("", true, false, false));
    assert VideoTab !in tabs && AudioTab in tabs;
    assert tabs == [AudioTab, SettingsTab] by {
      assert TabRank(tabs[0]) < TabRank(tabs[1]);
      assert tabs[0] != VideoTab by { assert tabs[0] in tabs; }
    }
    assert initial == 1;
  }
}
