/**
 * The JSON envelopes of the chat socket: what the page reads from an inbound message and the
 * messages it sends.
 */
module Envelopes {
  import opened Wrappers

  /** One slide of a deck: an optional title and optional bullet lines. */
  datatype Slide = Slide(title: Field<string>, bullets: Field<seq<string>>)

  /** A slides payload, `{ slides?: Slide[] }`. */
  datatype Deck = Deck(slides: Field<seq<Slide>>)

  /**
   * An inbound message after `JSON.parse`, reduced to the properties the page reads. `kind` is
   * `msg.type`; a message whose type is not a string is modelled by a `kind` no case names.
   * `totalMs` is the JSON number `msg.timings.total_ms`, `Undefined` also when `timings` itself is
   * missing.
   */
  datatype Envelope = Envelope(
    kind: string,
    runId: Field<string>,
    text: Field<string>,
    slides: Field<Deck>,
    slidesRaw: Field<string>,
    audio: Field<string>,
    totalMs: Field<real>)

  /** The message types the dispatcher tells apart; `OtherMsg` stands for every type it only logs. */
  datatype MsgKind =
    | ConnectedMsg | TextQueryMsg | ResponseStartMsg | TextResponseMsg | SlidesResponseMsg
    | AudioResponseMsg | ResponseDoneMsg | ResponseEndedMsg | StopAudioMsg | ErrorMsg | OtherMsg

  /** The `type` string of each handled kind, as the `switch` of the dispatcher spells it. */
  function TypeName(k: MsgKind): string {
    match k
    case ConnectedMsg => "connected"
    case TextQueryMsg => "text_query"
    case ResponseStartMsg => "response_start"
    case TextResponseMsg => "text_response"
    case SlidesResponseMsg => "slides_response"
    case AudioResponseMsg => "audio_response"
    case ResponseDoneMsg => "response_done"
    case ResponseEndedMsg => "response_ended"
    case StopAudioMsg => "stop_audio"
    case ErrorMsg => "error"
    case OtherMsg => ""
  }

  /** Which `case` of the dispatcher's `switch (msg.type)` a type string selects. */
  function KindOf(t: string): MsgKind {
    if t == "connected" then ConnectedMsg
    else if t == "text_query" then TextQueryMsg
    else if t == "response_start" then ResponseStartMsg
    else if t == "text_response" then TextResponseMsg
    else if t == "slides_response" then SlidesResponseMsg
    else if t == "audio_response" then AudioResponseMsg
    else if t == "response_done" then ResponseDoneMsg
    else if t == "response_ended" then ResponseEndedMsg
    else if t == "stop_audio" then StopAudioMsg
    else if t == "error" then ErrorMsg
    else OtherMsg
  }

  /** A string selects a handled kind only when it is exactly that kind's type string. */
  lemma TypeNameOfKind(t: string)
    ensures KindOf(t) != OtherMsg ==> TypeName(KindOf(t)) == t
  {
    if t == "connected" {
    } else if t == "text_query" {
    } else if t == "response_start" {
    } else if t == "text_response" {
    } else if t == "slides_response" {
    } else if t == "audio_response" {
    } else if t == "response_done" {
    } else if t == "response_ended" {
    } else if t == "stop_audio" {
    } else if t == "error" {
    } else {
      assert KindOf(t) == OtherMsg;
    }
  }

  /** Each handled kind's type string selects that kind. */
  lemma KindOfTypeName(k: MsgKind)
    requires k != OtherMsg
    ensures KindOf(TypeName(k)) == k
  {
    match k
    case ConnectedMsg =>
    case TextQueryMsg =>
    case ResponseStartMsg =>
    case TextResponseMsg =>
    case SlidesResponseMsg =>
    case AudioResponseMsg =>
    case ResponseDoneMsg =>
    case ResponseEndedMsg =>
    case StopAudioMsg =>
    case ErrorMsg =>
  }

  /** The messages the page sends. */
  datatype Outbound =
    | Ping
    | StopAudio
    | TextQuery(text: string, localTime: string, muteAudio: bool)
    | AudioQuery(audio: string, format: string, muteAudio: bool)

  /** The marker `slides_raw` carries when the slides sub-agent starts. */
  const StartedMarker: string := "__started__"

  /** `msg.run_id || null`: a missing, null or empty run id is no run id. */
  function RunIdOf(m: Envelope): (r: Option<string>)
    ensures r.Some? <==> m.runId.Val? && m.runId.value != ""
    ensures r.Some? ==> r.value == m.runId.value && r.value != ""
  {
    if m.runId.Val? && m.runId.value != "" then Some(m.runId.value) else None
  }

  /** `String(msg.text || "")`. */
  function TextOf(m: Envelope): (t: string)
    ensures m.text.Val? ==> t == m.text.value
    ensures !m.text.Val? ==> t == ""
  {
    m.text.Or("")
  }

  const AudioPrefix: string := "data:audio/mpeg;base64,"

  /** The data URL `audio_response` queues: the MPEG prefix and the payload (`msg.audio || ""`). */
  function AudioSrc(m: Envelope): (s: string)
    ensures |s| >= |AudioPrefix| && s[..|AudioPrefix|] == AudioPrefix
    ensures s[|AudioPrefix|..] == m.audio.Or("")
  {
    AudioPrefix + m.audio.Or("")
  }

  /** `Number(msg?.timings?.total_ms ?? 0) || 0`. */
  function TimingOf(m: Envelope): (ms: real)
    ensures m.totalMs.Val? ==> ms == m.totalMs.value
    ensures !m.totalMs.Val? ==> ms == 0.0
  {
    m.totalMs.Or(0.0)
  }

  /** The raw slides text a `slides_response` delivers: `slides_raw` when it is neither nullish nor
      the start marker. */
  function DeliveredRaw(m: Envelope): (r: Option<string>)
    ensures r.Some? <==> m.slidesRaw.Val? && m.slidesRaw.value != StartedMarker
    ensures r.Some? ==> r.value == m.slidesRaw.value
  {
    if m.slidesRaw.Val? && m.slidesRaw.value != StartedMarker then Some(m.slidesRaw.value) else None
  }
}
