/**
 * The mute flags of the preview page (src/pages/AgentPreviewPage.tsx): the page's `muted` state,
 * the audio element's `muted` property, and the copy of `muted` that the socket's message
 * handler sees. The handler, and the element's `ended` listener, are closures over the render
 * in which they were registered, so they can see an out-of-date `muted`.
 */
module AudioMute {

  /** The events that set one of the three flags. */
  datatype MuteEvent =
    | Toggle            // `toggleMute()`
    | SocketEffect      // the socket effect runs and captures this render's `handleWsMessage`
    | ClipFromMessage   // an `audio_response` starts a clip through the socket's handler
    | ClipAfterEnded    // the element's `ended` listener starts the next queued clip

  /** The page's flag, the element's flag, and the flag the socket's handler sees. */
  datatype Flags = Flags(page: bool, element: bool, handler: bool)

  /** All three flags on mount. */
  const Mounted: Flags := Flags(false, false, false)

  /**
   * One event as the code is written. The `ended` listener was registered by the first render,
   * whose `muted` is false; the socket's handler sees the `muted` of the render in which the
   * socket effect last ran.
   */
  function StepAsWritten(f: Flags, e: MuteEvent): Flags {
    match e
    case Toggle => Flags(!f.page, !f.page, f.handler)
    case SocketEffect => f.(handler := f.page)
    case ClipFromMessage => f.(element := f.handler)
    case ClipAfterEnded => f.(element := false)
  }

  /** One event as evidently intended: every clip starts with the page's current flag. */
  function StepIntended(f: Flags, e: MuteEvent): Flags {
    match e
    case Toggle => Flags(!f.page, !f.page, f.handler)
    case SocketEffect => f.(handler := f.page)
    case ClipFromMessage => f.(element := f.page)
    case ClipAfterEnded => f.(element := f.page)
  }

  function RunAsWritten(f: Flags, es: seq<MuteEvent>): Flags
    decreases |es|
  {
    if es == [] then f else RunAsWritten(StepAsWritten(f, es[0]), es[1..])
  }

  function RunIntended(f: Flags, es: seq<MuteEvent>): Flags
    decreases |es|
  {
    if es == [] then f else RunIntended(StepIntended(f, es[0]), es[1..])
  }

  /** As written, muting and then reaching the end of a clip plays the next queued clip aloud. */
  lemma MutedPageHearsNextClip()
    ensures var f := RunAsWritten(Mounted, [Toggle, ClipAfterEnded]); f.page && !f.element
  {
  }

  /** As written, muting after the socket was set up still plays the next `audio_response` aloud. */
  lemma MutedPageHearsNewClip()
    ensures var f := RunAsWritten(Mounted, [SocketEffect, Toggle, ClipFromMessage]); f.page && !f.element
  {
  }

  /** As intended, the element's flag always equals the page's flag, whatever happens. */
  lemma {:induction false} IntendedElementFollowsPage(f: Flags, es: seq<MuteEvent>)
    requires f.element == f.page
    ensures RunIntended(f, es).element == RunIntended(f, es).page
    decreases |es|
  {
    if es != [] {
      IntendedElementFollowsPage(StepIntended(f, es[0]), es[1..]);
    }
  }
}
