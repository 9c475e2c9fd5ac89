/** The component's own state (transcript, selected persona, readiness flags)
    and the handlers that update it. */
module Session {
  import opened Wrappers
  import opened Connection
  import opened Personas
  import opened Tracks
  import opened Requests
  import opened Views

  /** One line of the transcript. */
  datatype ChatMessage = ChatMessage(name: string, message: string, timestamp: int, isSelf: bool)

  /** A transcription payload once decoded from UTF-8 JSON: `{ text, timestamp? }`. */
  datatype TranscriptionPayload = TranscriptionPayload(text: string, timestamp: Option<int>)

  /** A data-channel message: its topic and, when its payload decodes as a
      JSON object, that object. */
  datatype DataMessage = DataMessage(topic: string, payload: Option<TranscriptionPayload>)

  const TranscriptionTopic: string := "transcription"
  const AudioReadyTopic: string := "agent_audio_ready"

  /** The payload's own timestamp when it carries a positive one, else the
      time the message was received. */
  function EntryTimestamp(p: TranscriptionPayload, now: int): (t: int)
    ensures t == now || (p.timestamp == Some(t) && t > 0)
    ensures p.timestamp.Some? && p.timestamp.value > 0 ==> t == p.timestamp.value
  {
    if p.timestamp.Some? && p.timestamp.value > 0 then p.timestamp.value else now
  }

  class PlaygroundSession {
    var transcripts: seq<ChatMessage>
    var selectedAgent: Persona
    var serverLoaded: bool
    var hasHeardAudio: bool

    /** The selected persona is always one of the catalog's. */
    ghost predicate Valid()
      reads this
    {
      selectedAgent in Catalog
    }

    constructor ()
      ensures Valid()
      ensures transcripts == [] && selectedAgent == DefaultPersona
      ensures !serverLoaded && !hasHeardAudio
    {
      transcripts := [];
      selectedAgent := DefaultPersona;
      serverLoaded := false;
      hasHeardAudio := false;
    }

    /** `onDataReceived`: a transcription appends one entry spoken by "You";
        the audio-ready signal sets both flags; any other topic is ignored. */
    method OnDataReceived(msg: DataMessage, now: int)
      requires Valid()
      requires msg.topic == TranscriptionTopic ==> msg.payload.Some?
      modifies this
      ensures Valid()
      ensures selectedAgent == old(selectedAgent)
      ensures msg.topic == TranscriptionTopic ==>
        && transcripts == old(transcripts)
             + [ChatMessage("You", msg.payload.value.text, EntryTimestamp(msg.payload.value, now), true)]
        && serverLoaded == old(serverLoaded) && hasHeardAudio == old(hasHeardAudio)
      ensures msg.topic == AudioReadyTopic ==>
        serverLoaded && hasHeardAudio && transcripts == old(transcripts)
      ensures msg.topic != TranscriptionTopic && msg.topic != AudioReadyTopic ==>
        transcripts == old(transcripts)
        && serverLoaded == old(serverLoaded) && hasHeardAudio == old(hasHeardAudio)
    {
      if msg.topic == TranscriptionTopic {
        var decoded := msg.payload.value;
        var timestamp := now;
        if decoded.timestamp.Some? && decoded.timestamp.value > 0 {
          timestamp := decoded.timestamp.value;
        }
        transcripts := transcripts + [ChatMessage("You", decoded.text, timestamp, true)];
      } else if msg.topic == AudioReadyTopic {
        hasHeardAudio := true;
        serverLoaded := true;
      }
    }

    /** `checkLoaded` once its `/status` call settles: both flags are set when
        the response is 2xx and reports the backend loaded; anything else
        (a failure, a non-2xx status, `loaded` false) changes nothing. */
    method ApplyStatus(outcome: FetchOutcome<StatusResponse>)
      requires Valid()
      modifies this
      ensures Valid()
      ensures transcripts == old(transcripts) && selectedAgent == old(selectedAgent)
      ensures outcome.Parsed? && outcome.body.loaded ==> serverLoaded && hasHeardAudio
      ensures !(outcome.Parsed? && outcome.body.loaded) ==>
        serverLoaded == old(serverLoaded) && hasHeardAudio == old(hasHeardAudio)
    {
      match outcome {
        case Parsed(s) =>
          if s.loaded {
            serverLoaded := true;
            hasHeardAudio := true;
          }
        case _ =>
      }
    }

    /** The effect on a connection-state change: outside Connected the heard-audio
        flag is cleared and the status is polled again. `serverLoaded` is not
        cleared. */
    method OnConnectionStateChange(state: ConnectionState) returns (requests: seq<Request>)
      requires Valid()
      modifies this
      ensures Valid()
      ensures transcripts == old(transcripts) && selectedAgent == old(selectedAgent)
      ensures serverLoaded == old(serverLoaded)
      ensures state != Connected ==> !hasHeardAudio && requests == [StatusRequest]
      ensures state == Connected ==> hasHeardAudio == old(hasHeardAudio) && requests == []
    {
      requests := [];
      if state != Connected {
        hasHeardAudio := false;
        requests := [StatusRequest];
      }
    }

    /** A click on catalog entry `k` selects that persona and nothing else. */
    method SelectPersona(k: nat)
      requires Valid()
      requires k < |Catalog|
      modifies this
      ensures Valid()
      ensures selectedAgent == Catalog[k]
      ensures forall i :: 0 <= i < |Catalog| ==> (Highlighted(selectedAgent, i) <==> i == k)
      ensures transcripts == old(transcripts)
      ensures serverLoaded == old(serverLoaded) && hasHeardAudio == old(hasHeardAudio)
    {
      selectedAgent := Catalog[k];
      SelectionHighlightsOne(k);
    }

    /** The offer/stop effect, with the persona selected now. */
    method LifecycleEffect(state: ConnectionState, roomName: string) returns (requests: seq<Request>)
      requires Valid()
      ensures |requests| <= 1
      ensures requests == LifecycleRequests(state, roomName, selectedAgent)
      ensures state == Connected && roomName != "" ==>
        requests == [OfferRequest(roomName, selectedAgent.inputImage, selectedAgent.voice,
                                  selectedAgent.name, selectedAgent.desc)]
    {
      requests := LifecycleRequests(state, roomName, selectedAgent);
    }

    /** `sendTranscription`, with the persona selected now. */
    method SendTranscription(text: string, state: ConnectionState, configRoom: string, liveRoom: string)
      returns (request: Option<Request>)
      requires Valid()
      ensures request == SpeakDecision(text, state, configRoom, liveRoom, selectedAgent)
      ensures request.Some? ==> request.value.voice in set p | p in Catalog :: p.voice
    {
      request := SpeakDecision(text, state, configRoom, liveRoom, selectedAgent);
    }

    /** The video tile for the current flags and track list. */
    function CurrentVideoTile(state: ConnectionState, tracks: seq<TrackRef>): (r: VideoTile)
      reads this
      ensures r == VideoTileOf(state, AgentVideoTrack(tracks), hasHeardAudio, serverLoaded)
      ensures r.VideoDisconnected? <==> state == Disconnected
      ensures r.VideoShown? ==> AgentVideoTrack(tracks) == Some(r.track)
      ensures r.VideoShown? ==> r.track.kind == Video && r.track.isAgent
      ensures r.VideoShown? ==> (r.waitingForVoice <==> !hasHeardAudio && !serverLoaded)
      ensures r.VideoLoading? <==>
        state != Disconnected && forall j :: 0 <= j < |tracks| ==> !(tracks[j].kind == Video && tracks[j].isAgent)
    {
      VideoTileOf(state, AgentVideoTrack(tracks), hasHeardAudio, serverLoaded)
    }
  }
}
