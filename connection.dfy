/** The room's connection state as the real-time client reports it, and the
    status text the settings panel derives from it. */
module Connection {

  datatype ConnectionState = Disconnected | Connecting | Connected | Reconnecting

  /** The string value the client library gives each state. */
  function Wire(s: ConnectionState): string
  {
    match s
    case Disconnected => "disconnected"
    case Connecting => "connecting"
    case Connected => "connected"
    case Reconnecting => "reconnecting"
  }

  /** `toUpperCase` on one character; the state strings are plain ASCII. */
  function UpperAscii(c: char): char
  {
    if 'a' <= c <= 'z' then (c as int - 32) as char else c
  }

  /** `s.charAt(0).toUpperCase() + s.slice(1)`; `charAt(0)` of the empty string is empty. */
  function Capitalize(s: string): (r: string)
    ensures |r| == |s|
    ensures |s| > 0 ==> r[0] == UpperAscii(s[0]) && r[1..] == s[1..]
  {
    if s == "" then "" else [UpperAscii(s[0])] + s[1..]
  }

  /** What the "Status" row of the settings panel shows. */
  datatype StatusLabel = Spinner | Label(text: string)

  function StatusLabelOf(s: ConnectionState): (r: StatusLabel)
    ensures r.Spinner? <==> s == Connecting
    ensures r.Label? ==> |r.text| == |Wire(s)| && r.text[1..] == Wire(s)[1..]
    ensures r.Label? ==> r.text[0] == UpperAscii(Wire(s)[0]) && 'A' <= r.text[0] <= 'Z'
  {
    if s == Connecting then Spinner else Label(Capitalize(Wire(s)))
  }

  /** The three texts a user can see. */
  lemma StatusLabelTexts()
    ensures StatusLabelOf(Disconnected) == Label("Disconnected")
    ensures StatusLabelOf(Connected) == Label("Connected")
    ensures StatusLabelOf(Reconnecting) == Label("Reconnecting")
  {
  }
}
