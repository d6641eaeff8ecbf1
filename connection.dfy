/**
 * The connection indicator of the chat page (`conn`) as a transition function over the socket
 * events of `open` and its handlers, with the status line each event writes and whether it
 * schedules the 900 ms reopen.
 */
module Connection {

  datatype ConnState = Connecting | Connected | Reconnecting | Error

  /** What happens to the socket, as the handlers of `open` see it. */
  datatype ConnEvent =
    | OpenCalled      // `open()` starts (first call, or the reopen timer)
    | TokenMissing    // `getIdToken()` gave nothing (no user, or an empty token)
    | InitFailed      // `getIdToken()` or `new WebSocket(...)` threw
    | SocketOpened    // `ws.onopen`
    | SocketError     // `ws.onerror`
    | SocketClosed    // `ws.onclose`

  /** The connection state after an event. */
  function Next(c: ConnState, e: ConnEvent): (r: ConnState)
    ensures r == Connected <==> e == SocketOpened
    ensures r == Error <==> e in {TokenMissing, InitFailed, SocketError}
    ensures e == OpenCalled ==> (r == Reconnecting <==> c == Connected) && (r == Connecting <==> c != Connected)
    ensures e == SocketClosed ==> r == Reconnecting
  {
    match e
    case OpenCalled => if c == Connected then Reconnecting else Connecting
    case TokenMissing => Error
    case InitFailed => Error
    case SocketOpened => Connected
    case SocketError => Error
    case SocketClosed => Reconnecting
  }

  /**
   * The status line of the chat page. Each fixed text is a constructor, so that the handlers can
   * be reasoned about without spelling the texts out; `Text` gives what the page displays.
   */
  datatype StatusLine =
    | ConnectingLine | AuthRequiredLine | WsInitFailedLine | ConnectedLine | SocketErrorLine | ReconnectingLine
    | InitializingLine | ReadyLine | SessionInitFailedLine | ResettingLine | ResetFailedLine
    | GeneratingLine | ProcessingAudioLine | UserSentLine | TypingLine | DoneLine | ServerErrorLine
  {
    function Text(): string {
      match this
      case ConnectingLine => "Connecting…"
      case AuthRequiredLine => "Auth required"
      case WsInitFailedLine => "WebSocket init failed"
      case ConnectedLine => "Connected"
      case SocketErrorLine => "WebSocket error"
      case ReconnectingLine => "Reconnecting…"
      case InitializingLine => "Initializing session…"
      case ReadyLine => "Ready"
      case SessionInitFailedLine => "Init failed"
      case ResettingLine => "Resetting…"
      case ResetFailedLine => "Reset failed"
      case GeneratingLine => "Generating response…"
      case ProcessingAudioLine => "Processing audio…"
      case UserSentLine => "User · sent"
      case TypingLine => "Assistant · typing…"
      case DoneLine => "Assistant · done"
      case ServerErrorLine => "Error"
    }
  }

  /** The status line each event writes. */
  function StatusAfter(e: ConnEvent): StatusLine {
    match e
    case OpenCalled => ConnectingLine
    case TokenMissing => AuthRequiredLine
    case InitFailed => WsInitFailedLine
    case SocketOpened => ConnectedLine
    case SocketError => SocketErrorLine
    case SocketClosed => ReconnectingLine
  }

  /** Only a close schedules `open` again; a missing token or a failed set-up leaves the page in
      `error` with no retry. */
  predicate SchedulesReopen(e: ConnEvent) {
    e == SocketClosed
  }

  /**
   * From any state, a close followed by the reopen and a successful open connects again; on the
   * way the indicator shows `reconnecting`, then `connecting` (a reopen starts from
   * `reconnecting`, which is not `connected`).
   */
  lemma CloseReopenRecovers(c: ConnState)
    ensures Next(c, SocketClosed) == Reconnecting
    ensures Next(Next(c, SocketClosed), OpenCalled) == Connecting
    ensures Next(Next(Next(c, SocketClosed), OpenCalled), SocketOpened) == Connected
    ensures SchedulesReopen(SocketClosed) && !SchedulesReopen(TokenMissing) && !SchedulesReopen(InitFailed)
  {
  }

  /**
   * Every failure event sets the indicator to `error` with a status line naming the failure, and
   * schedules nothing by itself. After a socket error the browser still fires `close`, which does
   * schedule a reopen (`SocketErrorRecovers`); only a missing token or a failed set-up is final.
   */
  lemma FailuresShowError(c: ConnState, e: ConnEvent)
    requires e in {TokenMissing, InitFailed, SocketError}
    ensures Next(c, e) == Error && !SchedulesReopen(e)
    ensures StatusAfter(e).Text() in {"Auth required", "WebSocket init failed", "WebSocket error"}
  {
  }

  /** The indicator after a sequence of events, in order. */
  function Run(c: ConnState, es: seq<ConnEvent>): ConnState
    decreases |es|
  {
    if es == [] then c else Run(Next(c, es[0]), es[1..])
  }

  /**
   * Whatever came before, the indicator is decided by the last event: `connected` exactly when it
   * was an open, `error` exactly when it was a failure.
   */
  lemma {:induction false} LastEventDecides(c: ConnState, es: seq<ConnEvent>)
    requires es != []
    ensures Run(c, es) == Next(Run(c, es[..|es| - 1]), es[|es| - 1])
    ensures Run(c, es) == Connected <==> es[|es| - 1] == SocketOpened
    ensures Run(c, es) == Error <==> es[|es| - 1] in {TokenMissing, InitFailed, SocketError}
    decreases |es|
  {
    if |es| > 1 {
      LastEventDecides(Next(c, es[0]), es[1..]);
      assert es[1..][..|es[1..]| - 1] == es[..|es| - 1][1..];
    }
  }

  /**
   * A socket error is not terminal: the `close` the browser fires after it schedules the reopen,
   * and the reopen followed by a successful open connects again.
   */
  lemma SocketErrorRecovers(c: ConnState)
    ensures Run(c, [SocketError]) == Error
    ensures Run(c, [SocketError, SocketClosed]) == Reconnecting && SchedulesReopen(SocketClosed)
    ensures Run(c, [SocketError, SocketClosed, OpenCalled]) == Connecting
    ensures Run(c, [SocketError, SocketClosed, OpenCalled, SocketOpened]) == Connected
  {
    LastEventDecides(c, [SocketError, SocketClosed, OpenCalled, SocketOpened]);
  }
}
