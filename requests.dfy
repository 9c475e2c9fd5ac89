/** The HTTP requests and the remote procedure call the component issues, as
    values: which one goes out, and with which body. */
module Requests {
  import opened Wrappers
  import opened Connection
  import opened Personas
  import opened JsText

  /** The four backend calls: `GET /status`, and `POST /offer`, `/stop`, `/speak`
      with their JSON bodies. */
  datatype Request =
    | StatusRequest
    | OfferRequest(room: string, inputImage: string, voice: string, name: string, desc: string)
    | StopRequest(room: string)
    | SpeakRequest(room: string, text: string, voice: string)

  /** How a `fetch` settled: it rejected (network failure, or a body that is
      not JSON), answered with a non-2xx status, or answered 2xx with a parsed
      JSON body. */
  datatype FetchOutcome<+T> = Failed | NotOk | Parsed(body: T)

  /** Body of `GET /status`. */
  datatype StatusResponse = StatusResponse(loaded: bool, room: Option<string>)

  /** The effect that runs whenever the connection state or the room name
      changes: an offer on entering Connected, a stop on entering Disconnected,
      in both cases only when the room has a name. */
  function LifecycleRequests(state: ConnectionState, roomName: string, agent: Persona): (r: seq<Request>)
    ensures |r| <= 1
    ensures OfferRequest(roomName, agent.inputImage, agent.voice, agent.name, agent.desc) in r
            <==> state == Connected && roomName != ""
    ensures StopRequest(roomName) in r <==> state == Disconnected && roomName != ""
    ensures r == [] <==> roomName == "" || state == Connecting || state == Reconnecting
    ensures forall q :: q in r ==>
      q == OfferRequest(roomName, agent.inputImage, agent.voice, agent.name, agent.desc)
      || q == StopRequest(roomName)
  {
    (if state == Connected && roomName != ""
     then [OfferRequest(roomName, agent.inputImage, agent.voice, agent.name, agent.desc)]
     else [])
    + (if state == Disconnected && roomName != "" then [StopRequest(roomName)] else [])
  }

  /** Once an offer or a stop settles, the status is polled only if the call
      answered 2xx with a JSON body; a non-2xx status throws before the poll. */
  function AfterLifecycleResponse<T>(outcome: FetchOutcome<T>): (r: seq<Request>)
    ensures r == [StatusRequest] <==> outcome.Parsed?
    ensures r == [] <==> !outcome.Parsed?
  {
    match outcome
    case Parsed(_) => [StatusRequest]
    case _ => []
  }

  /** The room a speak request names: the configured room when one is set, else
      the live room's name (JavaScript's `||` on strings). */
  function SpeakRoom(configRoom: string, liveRoom: string): (r: string)
    ensures r == "" <==> configRoom == "" && liveRoom == ""
    ensures configRoom != "" ==> r == configRoom
    ensures configRoom == "" ==> r == liveRoom
  {
    if configRoom != "" then configRoom else liveRoom
  }

  /** `sendTranscription`: nothing for text that trims to empty or while not
      Connected; otherwise one speak request with the trimmed text in the
      selected persona's voice. */
  function SpeakDecision(text: string, state: ConnectionState, configRoom: string,
                         liveRoom: string, agent: Persona): (r: Option<Request>)
    ensures r.None? <==> WhiteSpaceBetween(text, 0, |text|) || state != Connected
    ensures r.Some? ==> r.value.SpeakRequest? && r.value.voice == agent.voice
    ensures r.Some? ==> r.value.room == SpeakRoom(configRoom, liveRoom)
    ensures r.Some? ==> r.value.text == Trim(text)
    ensures r.Some? ==>
      (r.value.text != "" && !IsWhiteSpace(r.value.text[0]) && !IsWhiteSpace(r.value.text[|r.value.text| - 1]))
  {
    var trimmed := Trim(text);
    if trimmed == "" then None
    else if state != Connected then None
    else Some(SpeakRequest(SpeakRoom(configRoom, liveRoom), trimmed, agent.voice))
  }

  /** The agent participant, known by its identity. */
  datatype Participant = Participant(identity: string)

  /** `performRpc({ destinationIdentity, method, payload })`. */
  datatype RpcInvocation = RpcInvocation(destinationIdentity: string, rpcMethod: string, payload: string)

  datatype RpcError = NoAgentOrRoom

  /** `handleRpcCall`: refuses without an agent or a room, else addresses the
      agent's identity with the method and payload typed into the panel. */
  function RpcCall(agent: Option<Participant>, roomAvailable: bool,
                   rpcMethod: string, payload: string): (r: Result<RpcInvocation, RpcError>)
    ensures r.Err? <==> agent.None? || !roomAvailable
    ensures r.Ok? ==> r.value == RpcInvocation(agent.value.identity, rpcMethod, payload)
  {
    if agent.None? || !roomAvailable then Err(NoAgentOrRoom)
    else Ok(RpcInvocation(agent.value.identity, rpcMethod, payload))
  }
}
