/**
 * The agent preview page (src/pages/AgentPreviewPage.tsx) as one object whose fields are the
 * component's state and refs, and whose methods are the event handlers that change them: socket
 * events, inbound envelopes, audio element events, timers and the user's actions. The clock is a
 * parameter, the socket and the audio element are status fields, and the two DOM helpers
 * (`escapeHTML`, `linkify`) are arbitrary string functions fixed at construction.
 */
module AgentPreview {
  import opened Wrappers
  import opened JsText
  import opened Types
  import opened Rows
  import opened Runs
  import opened Connection
  import opened SessionCache
  import opened Envelopes
  import opened Fmt
  import opened SlidePreview
  import AudioMute

  /** The socket in `wsRef.current`, by its `readyState` (`NoSocket` before the first one is made). */
  datatype Socket = NoSocket | WsConnecting | WsOpen | WsClosing | WsClosed

  /** The audio element: paused and not at the end, playing, or paused at the end of its source. */
  datatype Sink = SinkIdle | SinkPlaying | SinkEnded

  /** The answer of the agent-detail endpoint, reduced to what the page reads; `chatItems` is
      `data.chats?.items`, `Undefined` also when `chats` is missing. */
  datatype DetailReply = DetailReply(agent: Agent, chatItems: Field<seq<ChatItem>>)

  /** The avatar `fetchAgentAndHistory` previews for an agent: `a.avatar ?? null`. */
  function AvatarUrlOf(a: Agent): Option<string> {
    if a.avatar.Val? then Some(a.avatar.value) else None
  }

  /** The rows `fetchAgentAndHistory` shows for a reply: its exchanges, oldest first. */
  function LoadedRows(d: DetailReply, escape: string -> string, linkify: string -> string): seq<MsgRow> {
    HistoryRows(Reverse(d.chatItems.Or([])), escape, linkify)
  }

  /**
   * The page's bookkeeping per run: the run whose slides are shown, each run's live row and start
   * time, and each run's deck, raw slides text and loading flag.
   */
  datatype RunBook = RunBook(
    activeRunId: Option<string>,
    liveRowByRun: map<string, RowId>,
    runStartedAt: map<string, int>,
    slidesByRun: map<string, Option<Deck>>,
    slidesRawByRun: map<string, string>,
    slidesLoadingByRun: map<string, bool>)

  /** No run known: the bookkeeping on mount and after a reset. */
  const NoRuns: RunBook := RunBook(None, map[], map[], map[], map[], map[])

  /** The message types whose handlers change only the rows, the runs, the status and the timing. */
  predicate IsChatKind(k: MsgKind) {
    k.TextQueryMsg? || k.ResponseStartMsg? || k.TextResponseMsg? || k.SlidesResponseMsg? || k.ResponseDoneMsg? || k.ErrorMsg?
  }

  /** The message types whose handlers change the audio queue and element. */
  predicate IsAudioKind(k: MsgKind) {
    k.AudioResponseMsg? || k.ResponseEndedMsg? || k.StopAudioMsg?
  }

  /** `activeRunId ? slidesByRun[activeRunId] ?? null : null`. */
  function DerivedSlides(active: Option<string>, slidesByRun: map<string, Option<Deck>>): Option<Deck> {
    if active.Some? && active.value != "" && active.value in slidesByRun then slidesByRun[active.value] else None
  }

  /** `activeRunId ? slidesRawByRun[activeRunId] ?? null : null`. */
  function DerivedRaw(active: Option<string>, slidesRawByRun: map<string, string>): Option<string> {
    if active.Some? && active.value != "" && active.value in slidesRawByRun then Some(slidesRawByRun[active.value]) else None
  }

  /** `activeRunId ? !!slidesLoadingByRun[activeRunId] : false`. */
  function DerivedLoading(active: Option<string>, loadingByRun: map<string, bool>): bool {
    active.Some? && active.value != "" && active.value in loadingByRun && loadingByRun[active.value]
  }

  /** What the slides panel shows for the page's active run. */
  function PanelBody(active: Option<string>, slidesByRun: map<string, Option<Deck>>,
                     rawByRun: map<string, string>, loadingByRun: map<string, bool>): Body {
    BodyOf(DerivedLoading(active, loadingByRun), Cards(DerivedSlides(active, slidesByRun)), DerivedRaw(active, rawByRun))
  }

  /**
   * The panel follows the active run only: whatever other runs hold, a run that has just been
   * reset by `response_start` (null slides, empty raw text, not loading) shows the placeholder,
   * and after its "__started__" marker it shows the skeletons.
   */
  lemma PanelAfterReset(run: string, slidesByRun: map<string, Option<Deck>>,
                        rawByRun: map<string, string>, loadingByRun: map<string, bool>)
    requires run != ""
    ensures PanelBody(Some(run), slidesByRun[run := None], rawByRun[run := ""], loadingByRun[run := false]) == EmptyPlaceholder
    ensures PanelBody(Some(run), slidesByRun[run := None], rawByRun[run := ""], loadingByRun[run := true]) == Skeletons
  {
  }

  /** With no active run the panel shows the placeholder, whatever the maps hold. */
  lemma PanelWithoutActiveRun(slidesByRun: map<string, Option<Deck>>, rawByRun: map<string, string>,
                              loadingByRun: map<string, bool>)
    ensures PanelBody(None, slidesByRun, rawByRun, loadingByRun) == EmptyPlaceholder
  {
  }

  /**
   * A deck delivered for the active run is what the panel shows: its slides when it has any,
   * whatever raw text the run holds; raw text delivered for a run without cards shows as markdown.
   */
  lemma DeliveredDeckIsShown(run: string, d: Deck, raw: string, slidesByRun: map<string, Option<Deck>>,
                             rawByRun: map<string, string>, loadingByRun: map<string, bool>)
    requires run != ""
    ensures d.slides.Val? && d.slides.value != [] ==>
      PanelBody(Some(run), slidesByRun[run := Some(d)], rawByRun, loadingByRun[run := false]) == SlideCards(d.slides.value)
    ensures (run !in slidesByRun || Cards(slidesByRun[run]) == []) && raw != "" ==>
      PanelBody(Some(run), slidesByRun, rawByRun[run := raw], loadingByRun[run := false]) == RawMarkdown(raw)
  {
  }

  /**
   * The `runs` list handed to the panel: the runs of `runStartedAt`, newest first, at most ten,
   * each once, and each marked active iff it is the active run. Runs left out started no later
   * than the last one listed. Among runs started in the same millisecond the order follows
   * `Object.entries` and is not fixed here.
   */
  predicate IsRunList(bs: seq<RunButton>, startedAt: map<string, int>, active: Option<string>) {
    && |bs| == (if |startedAt| < 10 then |startedAt| else 10)
    && (forall i :: 0 <= i < |bs| ==> bs[i].id in startedAt && bs[i].active == (active == Some(bs[i].id)))
    && (forall i, j :: 0 <= i < j < |bs| ==> bs[i].id != bs[j].id && startedAt[bs[j].id] <= startedAt[bs[i].id])
    && (forall id :: id in startedAt && id !in RunIds(bs) ==> |bs| > 0 && startedAt[id] <= startedAt[bs[|bs| - 1].id])
  }

  function RunIds(bs: seq<RunButton>): set<string> {
    set i | 0 <= i < |bs| :: bs[i].id
  }

  /**
   * The switcher appears exactly when some run has started, at most one of its buttons is lit,
   * and a run that started strictly after every other is listed first and lit when it is active.
   */
  lemma SwitcherShowsStartedRuns(bs: seq<RunButton>, startedAt: map<string, int>, active: Option<string>)
    requires IsRunList(bs, startedAt, active)
    ensures ShowSwitcher(Some(bs)) <==> |startedAt| > 0
    ensures forall i, j :: 0 <= i < |bs| && 0 <= j < |bs| && bs[i].active && bs[j].active ==> i == j
    ensures forall r :: r in startedAt && (forall id :: id in startedAt && id != r ==> startedAt[id] < startedAt[r]) ==>
      |bs| > 0 && bs[0].id == r && (bs[0].active <==> active == Some(r))
  {
    forall r | r in startedAt && (forall id :: id in startedAt && id != r ==> startedAt[id] < startedAt[r])
      ensures |bs| > 0 && bs[0].id == r
    {
      if r !in RunIds(bs) {
        assert false;
      }
      var k :| 0 <= k < |bs| && bs[k].id == r;
      assert startedAt[bs[k].id] <= startedAt[bs[0].id];
    }
  }

  class PreviewPage {
    const botId: string
    const escape: string -> string
    const linkify: string -> string

    /** Browser storage, as far as the page uses it. */
    var cache: map<string, string>
    var sessionId: Option<string>
    var agent: Option<Agent>
    var avatarUrl: Option<string>
    var status: StatusLine
    var conn: ConnState
    var timingMs: Option<real>
    var history: seq<MsgRow>
    var inputVal: string

    /** The socket, the messages sent on it, the heartbeat interval, the `open` calls waiting for a
        token, and the 900 ms reopen timers not yet fired. */
    var socket: Socket
    var sent: seq<Outbound>
    var heartbeat: bool
    var pendingOpens: nat
    var pendingReopens: nat

    var runs: RunBook

    /** The audio queue, the one audio element (state, source, muted flag), and the flags. */
    var audioQueue: seq<string>
    var sink: Sink
    var src: string
    var sinkMuted: bool
    var responseEnd: bool
    var muted: bool
    var isSpeaking: bool

    /** The `muted` of the render whose `handleWsMessage` the socket's `onmessage` calls: taken
        when the socket effect runs, and kept by every reopen, which reuses the same `open`. */
    var handlerMuted: bool

    /** The `muted` of the render in which the microphone button went down: the recorder's `onstop`
        calls that render's callback, so the clip is sent with this flag. */
    var recMuted: bool

    /** The three mute flags, as `AudioMute` tracks them. */
    function Mute(): AudioMute.Flags
      reads this
    {
      AudioMute.Flags(muted, sinkMuted, handlerMuted)
    }

    /**
     * Every live-row id is filed under the run it was made for, every queued clip is a non-empty
     * data URL, and the audio element plays only a source it was given.
     */
    predicate Valid()
      reads this
    {
      && LiveIdsOwned(runs.liveRowByRun)
      && (forall i :: 0 <= i < |audioQueue| ==> audioQueue[i] != "")
      && (sink == SinkPlaying ==> src != "")
    }

    /** The page as first rendered, for the agent in the route and the storage found. */
    constructor (botId: string, cache: map<string, string>, escape: string -> string, linkify: string -> string)
      ensures Valid()
      ensures this.botId == botId && this.cache == cache && this.escape == escape && this.linkify == linkify
      ensures sessionId == None && agent == None && avatarUrl == None
      ensures status == ConnectingLine && conn == Connecting && timingMs == None
      ensures history == [] && inputVal == ""
      ensures socket == NoSocket && sent == [] && !heartbeat && pendingOpens == 0 && pendingReopens == 0
      ensures runs == NoRuns
      ensures audioQueue == [] && sink == SinkIdle && src == "" && !sinkMuted
      ensures !responseEnd && !muted && !isSpeaking && !handlerMuted && !recMuted
    {
      this.botId, this.cache, this.escape, this.linkify := botId, cache, escape, linkify;
      sessionId, agent, avatarUrl := None, None, None;
      status, conn, timingMs := ConnectingLine, Connecting, None;
      history, inputVal := [], "";
      socket, sent, heartbeat, pendingOpens, pendingReopens := NoSocket, [], false, 0, 0;
      runs := NoRuns;
      audioQueue, sink, src, sinkMuted := [], SinkIdle, "", false;
      responseEnd, muted, isSpeaking, handlerMuted, recMuted := false, false, false, false, false;
    }

    // ---- session ----

    /** `createSessionOnBackend()`: caches and returns the server's id, or throws (None) and writes nothing. */
    method CreateSessionOnBackend(reply: Option<string>) returns (id: Option<string>)
      modifies this`cache
      ensures Create(old(cache), botId, reply) == Outcome(id, cache, true)
    {
      if reply.None? || reply.value == "" {
        return None;
      }
      cache := cache[SessionKey(botId) := reply.value];
      id := reply;
    }

    /** `ensureSession()`: the cached id when there is a non-empty one, otherwise a new one. */
    method EnsureSession(reply: Option<string>) returns (id: Option<string>, posted: bool)
      modifies this`cache
      ensures Ensure(old(cache), botId, reply) == Outcome(id, cache, posted)
    {
      var cached := ReadCached(cache, botId);
      if cached.Some? && cached.value != "" {
        return cached, false;
      }
      id := CreateSessionOnBackend(reply);
      posted := true;
    }

    /** `fetchAgentAndHistory(sid)`: None for `reply` is a failed request (the call throws). */
    method FetchAgentAndHistory(reply: Option<DetailReply>) returns (ok: bool)
      modifies this`agent, this`avatarUrl, this`history
      ensures ok == reply.Some?
      ensures !ok ==> agent == old(agent) && avatarUrl == old(avatarUrl) && history == old(history)
      ensures ok ==> agent == Some(reply.value.agent)
      ensures ok ==> avatarUrl == AvatarUrlOf(reply.value.agent)
      ensures ok ==> history == LoadedRows(reply.value, escape, linkify)
    {
      if reply.None? {
        return false;
      }
      var a := reply.value.agent;
      agent := Some(a);
      avatarUrl := AvatarUrlOf(a);
      history := BuildHistoryRows(reply.value.chatItems.Or([]), escape, linkify);
      ok := true;
    }

    /** The mount effect: establish the session, then load the agent and its history. */
    method Init(sessionReply: Option<string>, detailReply: Option<DetailReply>)
      modifies this`cache, this`sessionId, this`agent, this`avatarUrl, this`history, this`status, this`conn
      ensures botId == "" ==> unchanged(this)
      ensures botId != "" ==> cache == Ensure(old(cache), botId, sessionReply).cache
      ensures botId != "" ==> sessionId == (if Ensure(old(cache), botId, sessionReply).id.Some?
                                            then Ensure(old(cache), botId, sessionReply).id else old(sessionId))
      ensures botId != "" && Ensure(old(cache), botId, sessionReply).id.Some? && detailReply.Some? ==>
        status == ReadyLine && conn == old(conn)
      ensures botId != "" && Ensure(old(cache), botId, sessionReply).id.Some? && detailReply.Some? ==>
        && agent == Some(detailReply.value.agent) && avatarUrl == AvatarUrlOf(detailReply.value.agent)
        && history == LoadedRows(detailReply.value, escape, linkify)
      ensures botId != "" && (Ensure(old(cache), botId, sessionReply).id.None? || detailReply.None?) ==>
        && status == SessionInitFailedLine && conn == Error
        && agent == old(agent) && avatarUrl == old(avatarUrl) && history == old(history)
    {
      if botId == "" {
        return;
      }
      status := InitializingLine;
      ghost var outcome := Ensure(cache, botId, sessionReply);
      var sid, _ := EnsureSession(sessionReply);
      assert sid == outcome.id && cache == outcome.cache;
      if sid.None? {
        conn, status := Error, SessionInitFailedLine;
        return;
      }
      sessionId := sid;
      var ok := FetchAgentAndHistory(detailReply);
      if !ok {
        conn, status := Error, SessionInitFailedLine;
        return;
      }
      status := ReadyLine;
    }

    /** The state `doReset()` clears once the new session exists: no rows, no slides, no runs. */
    method ForgetRuns()
      modifies this`history, this`runs, this`timingMs, this`isSpeaking
      ensures history == [] && runs == NoRuns && timingMs == None && !isSpeaking
    {
      history, runs := [], NoRuns;
      timingMs, isSpeaking := None, false;
    }

    /**
     * `doReset()`: stop the audio on the server and close the socket as the clean-up does, drop the
     * cached id and create a new session; on success start from an empty chat with no runs and
     * load the new history. A failure at either step shows "Reset failed".
     */
    method DoReset(sessionReply: Option<string>, detailReply: Option<DetailReply>)
      modifies this`status, this`sent, this`socket, this`cache, this`sessionId, this`history,
        this`runs, this`timingMs, this`isSpeaking, this`agent, this`avatarUrl, this`conn
      ensures sent == old(sent) + (if old(socket) == WsOpen then [StopAudio] else [])
      ensures socket == Closed(old(socket))
      ensures cache == Reset(old(cache), botId, sessionReply).cache
      ensures Reset(old(cache), botId, sessionReply).id.None? ==>
        && status == ResetFailedLine && conn == Error && sessionId == old(sessionId)
        && history == old(history) && runs == old(runs) && timingMs == old(timingMs) && isSpeaking == old(isSpeaking)
        && agent == old(agent) && avatarUrl == old(avatarUrl)
      ensures Reset(old(cache), botId, sessionReply).id.Some? ==>
        && sessionId == sessionReply && runs == NoRuns && timingMs == None && !isSpeaking
        && (detailReply.Some? ==>
              && status == ReadyLine && conn == old(conn) && history == LoadedRows(detailReply.value, escape, linkify)
              && agent == Some(detailReply.value.agent) && avatarUrl == AvatarUrlOf(detailReply.value.agent))
        && (detailReply.None? ==>
              && status == ResetFailedLine && conn == Error && history == []
              && agent == old(agent) && avatarUrl == old(avatarUrl))
    {
      var newId := BeginReset(sessionReply);
      if newId.None? {
        conn, status := Error, ResetFailedLine;
        return;
      }
      AdoptNewSession(newId.value, detailReply);
    }

    /** The first steps of `doReset()`: "Resetting…", the socket's clean-up, and a new session. */
    method BeginReset(sessionReply: Option<string>) returns (newId: Option<string>)
      modifies this`status, this`sent, this`socket, this`cache
      ensures status == ResettingLine
      ensures sent == old(sent) + (if old(socket) == WsOpen then [StopAudio] else [])
      ensures socket == Closed(old(socket))
      ensures Reset(old(cache), botId, sessionReply) == Outcome(newId, cache, true)
    {
      status := ResettingLine;
      Unmount();
      newId := RenewSession(sessionReply);
    }

    /** The cache part of `doReset()`: drop the cached id, then create a new session. */
    method RenewSession(reply: Option<string>) returns (id: Option<string>)
      modifies this`cache
      ensures Reset(old(cache), botId, reply) == Outcome(id, cache, true)
    {
      cache := cache - {SessionKey(botId)};
      id := CreateSessionOnBackend(reply);
    }

    /** The part of `doReset()` after the new session exists. */
    method AdoptNewSession(id: string, detailReply: Option<DetailReply>)
      modifies this`sessionId, this`history, this`runs, this`timingMs, this`isSpeaking,
        this`agent, this`avatarUrl, this`status, this`conn
      ensures sessionId == Some(id) && runs == NoRuns && timingMs == None && !isSpeaking
      ensures detailReply.Some? ==>
        && status == ReadyLine && conn == old(conn) && history == LoadedRows(detailReply.value, escape, linkify)
        && agent == Some(detailReply.value.agent) && avatarUrl == AvatarUrlOf(detailReply.value.agent)
      ensures detailReply.None? ==>
        && status == ResetFailedLine && conn == Error && history == []
        && agent == old(agent) && avatarUrl == old(avatarUrl)
    {
      sessionId := Some(id);
      ForgetRuns();
      var ok := FetchAgentAndHistory(detailReply);
      if !ok {
        conn, status := Error, ResetFailedLine;
        return;
      }
      status := ReadyLine;
    }

    // ---- connection ----

    /**
     * The socket effect runs (on mount and whenever the session id changes; the previous run's
     * clean-up is `Unmount`). Without an agent id or a session id it does nothing; otherwise the
     * `open` it defines captures this render's `handleWsMessage`, with the `muted` of this render,
     * and is called.
     */
    method RunSocketEffect()
      modifies this`handlerMuted, this`conn, this`status, this`pendingOpens
      ensures botId == "" || sessionId.None? || sessionId.value == "" ==>
        handlerMuted == old(handlerMuted) && conn == old(conn) && status == old(status) && pendingOpens == old(pendingOpens)
      ensures botId != "" && sessionId.Some? && sessionId.value != "" ==>
        && Mute() == AudioMute.StepAsWritten(old(Mute()), AudioMute.SocketEffect)
        && conn == Next(old(conn), OpenCalled) && status == StatusAfter(OpenCalled)
        && pendingOpens == old(pendingOpens) + 1
    {
      if botId == "" || sessionId.None? || sessionId.value == "" {
        return;
      }
      handlerMuted := muted;
      OpenBegin();
    }

    /** The synchronous start of `open()`, before the token is awaited. */
    method OpenBegin()
      modifies this`conn, this`status, this`pendingOpens
      ensures conn == Next(old(conn), OpenCalled) && status == StatusAfter(OpenCalled)
      ensures pendingOpens == old(pendingOpens) + 1
    {
      conn := Next(conn, OpenCalled);
      status := StatusAfter(OpenCalled);
      pendingOpens := pendingOpens + 1;
    }

    /**
     * The rest of `open()` once the token is known: `threw` when getting the token or building the
     * socket threw. A missing or empty token is an authentication failure; otherwise a new socket
     * starts connecting. Neither failure schedules a reopen.
     */
    method OpenResume(threw: bool, token: Option<string>)
      requires pendingOpens > 0
      modifies this`conn, this`status, this`pendingOpens, this`socket
      ensures pendingOpens == old(pendingOpens) - 1
      ensures threw ==> conn == Next(old(conn), InitFailed) && status == StatusAfter(InitFailed) && socket == old(socket)
      ensures !threw && (token.None? || token.value == "") ==>
        conn == Next(old(conn), TokenMissing) && status == StatusAfter(TokenMissing) && socket == old(socket)
      ensures !threw && token.Some? && token.value != "" ==>
        socket == WsConnecting && conn == old(conn) && status == old(status)
    {
      pendingOpens := pendingOpens - 1;
      if threw {
        conn, status := Next(conn, InitFailed), StatusAfter(InitFailed);
      } else if token.None? || token.value == "" {
        conn, status := Next(conn, TokenMissing), StatusAfter(TokenMissing);
      } else {
        socket := WsConnecting;
      }
    }

    /** `ws.onopen`: connected, and the 60 s heartbeat starts. */
    method OnSocketOpen()
      modifies this`socket, this`conn, this`status, this`heartbeat
      ensures socket == WsOpen && heartbeat
      ensures conn == Next(old(conn), SocketOpened) && status == StatusAfter(SocketOpened)
    {
      socket, heartbeat := WsOpen, true;
      conn, status := Next(conn, SocketOpened), StatusAfter(SocketOpened);
    }

    /** `ws.onerror`. */
    method OnSocketError()
      modifies this`conn, this`status
      ensures conn == Next(old(conn), SocketError) && status == StatusAfter(SocketError)
    {
      conn, status := Next(conn, SocketError), StatusAfter(SocketError);
    }

    /** `ws.onclose`: reconnecting, the heartbeat stops, and one more reopen is scheduled. */
    method OnSocketClose()
      modifies this`socket, this`conn, this`status, this`heartbeat, this`pendingReopens
      ensures socket == WsClosed && !heartbeat
      ensures conn == Next(old(conn), SocketClosed) && status == StatusAfter(SocketClosed)
      ensures pendingReopens == old(pendingReopens) + 1
    {
      socket, heartbeat := WsClosed, false;
      conn, status := Next(conn, SocketClosed), StatusAfter(SocketClosed);
      pendingReopens := pendingReopens + 1;
    }

    /** A 900 ms reopen timer fires: `open()` starts again. */
    method ReopenTimer()
      requires pendingReopens > 0
      modifies this`pendingReopens, this`conn, this`status, this`pendingOpens
      ensures pendingReopens == old(pendingReopens) - 1 && pendingOpens == old(pendingOpens) + 1
      ensures conn == Next(old(conn), OpenCalled) && status == StatusAfter(OpenCalled)
    {
      pendingReopens := pendingReopens - 1;
      OpenBegin();
    }

    /** A heartbeat tick: a ping goes out only while the socket is open. */
    method PingTick()
      requires heartbeat
      modifies this`sent
      ensures sent == old(sent) + (if socket == WsOpen then [Ping] else [])
    {
      if socket == WsOpen {
        sent := sent + [Ping];
      }
    }

    /** `close()` on the current socket, as far as its state goes. */
    static function Closed(s: Socket): Socket {
      if s == WsConnecting || s == WsOpen then WsClosing else s
    }

    /**
     * The socket effect's clean-up (unmount, or a new session id): stop the audio on the server if
     * the socket is open, then close it. Scheduled reopens are not cancelled, and the close that
     * follows schedules one more.
     */
    method Unmount()
      modifies this`sent, this`socket
      ensures sent == old(sent) + (if old(socket) == WsOpen then [StopAudio] else [])
      ensures socket == Closed(old(socket))
    {
      if socket == WsOpen {
        sent := sent + [StopAudio];
      }
      socket := Closed(socket);
    }

    /** The manual reconnect button: close the socket; its close event does the rest. */
    method Reconnect()
      modifies this`socket, this`status
      ensures socket == Closed(old(socket)) && status == ReconnectingLine
    {
      socket := Closed(socket);
      status := ReconnectingLine;
    }

    // ---- the row log ----

    /** `beginThinking()`. */
    method BeginThinking(now: int)
      modifies this`history
      ensures history == old(history) + [ThinkingRow(now)]
    {
      history := history + [ThinkingRow(now)];
    }

    /** `endThinking()`. */
    method EndThinking()
      modifies this`history
      ensures history == WithoutThinking(old(history))
    {
      history := WithoutThinking(history);
    }

    /** `growAssistantForRun(runId, chunk)` at time `now`. */
    method GrowAssistantForRun(runId: string, chunk: string, now: int)
      requires Valid()
      modifies this`history, this`runs
      ensures Valid()
      ensures var g := Grow(RunLog(old(history), old(runs).liveRowByRun), runId, chunk, now, escape);
        history == g.rows && runs == old(runs).(liveRowByRun := g.live)
    {
      GrowIsolatesRuns(RunLog(history, runs.liveRowByRun), runId, chunk, now, escape);
      var incoming := Trim(chunk);
      if incoming == [] {
        return;
      }
      if runId !in runs.liveRowByRun {
        var liveId := LiveId(runId, now);
        runs := runs.(liveRowByRun := runs.liveRowByRun[runId := liveId]);
        history := history + [MsgRow(liveId, Assistant, escape(incoming))];
        return;
      }
      var liveId := runs.liveRowByRun[runId];
      var idx := FindRow(history, liveId);
      if idx >= 0 {
        var prev := Normalize(history[idx].html);
        var next := (if prev != [] then prev + " " else []) + NewlinesToSpaces(incoming);
        history := history[idx := history[idx].(html := escape(next))];
      } else {
        history := history + [MsgRow(liveId, Assistant, escape(incoming))];
      }
    }

    /** `finalizeAssistantForRun(runId)` at time `now`. */
    method FinalizeAssistantForRun(runId: string, now: int)
      requires Valid()
      modifies this`history, this`runs
      ensures Valid()
      ensures var g := Finalize(RunLog(old(history), old(runs).liveRowByRun), runId, now, linkify);
        history == g.rows && runs == old(runs).(liveRowByRun := g.live)
    {
      FinalizeSettlesRun(RunLog(history, runs.liveRowByRun), runId, now, linkify);
      if runId !in runs.liveRowByRun {
        return;
      }
      var liveId := runs.liveRowByRun[runId];
      history := RenameRows(history, liveId, FinalId(runId, now), linkify);
      runs := runs.(liveRowByRun := runs.liveRowByRun - {runId});
    }

    // ---- the audio queue ----

    /**
     * `playQueueIfIdle()`: the element takes the head of the queue only when it is not playing
     * (a paused or finished element), and then plays it muted as `mute` says. `mute` is the
     * `muted` of the render the calling closure belongs to, which need not be the current one.
     */
    method PlayQueueIfIdle(mute: bool)
      requires Valid()
      modifies this`audioQueue, this`src, this`sinkMuted, this`sink
      ensures Valid()
      ensures old(sink) == SinkPlaying || old(audioQueue) == [] ==>
        audioQueue == old(audioQueue) && src == old(src) && sink == old(sink) && sinkMuted == old(sinkMuted)
      ensures old(sink) != SinkPlaying && old(audioQueue) != [] ==>
        && audioQueue == old(audioQueue)[1..]
        && src == old(audioQueue)[0] && sink == SinkPlaying && sinkMuted == mute
    {
      if sink == SinkPlaying || audioQueue == [] {
        return;
      }
      var next := audioQueue[0];
      audioQueue := audioQueue[1..];
      src, sinkMuted, sink := next, mute, SinkPlaying;
    }

    /** `finishPlaybackCycle()`. */
    method FinishPlaybackCycle()
      modifies this`responseEnd, this`isSpeaking
      ensures !responseEnd && !isSpeaking
    {
      responseEnd, isSpeaking := false, false;
    }

    /** The element's `play` event. */
    method OnPlay()
      modifies this`isSpeaking
      ensures isSpeaking
    {
      isSpeaking := true;
    }

    /** The element's `pause` event: speaking stops only when nothing is queued. */
    method OnPause()
      modifies this`isSpeaking
      ensures isSpeaking == (old(isSpeaking) && audioQueue != [])
    {
      if audioQueue == [] {
        isSpeaking := false;
      }
    }

    /**
     * The element reaches the end of its source (`ended`): the next queued chunk plays; with the
     * queue empty and the response over, the playback cycle finishes. The listener belongs to the
     * first render, so the next chunk plays with that render's `muted`, which is false.
     */
    method OnEnded()
      requires Valid()
      modifies this`sink, this`audioQueue, this`src, this`sinkMuted, this`responseEnd, this`isSpeaking
      ensures Valid()
      ensures old(audioQueue) != [] ==>
        && audioQueue == old(audioQueue)[1..] && src == old(audioQueue)[0] && sink == SinkPlaying
        && responseEnd == old(responseEnd) && isSpeaking == old(isSpeaking)
        && Mute() == AudioMute.StepAsWritten(old(Mute()), AudioMute.ClipAfterEnded)
      ensures old(audioQueue) == [] ==>
        audioQueue == [] && sink == SinkEnded && src == old(src) && sinkMuted == old(sinkMuted)
      ensures old(audioQueue) == [] && old(responseEnd) ==> !responseEnd && !isSpeaking
      ensures old(audioQueue) == [] && !old(responseEnd) ==> !responseEnd && isSpeaking == old(isSpeaking)
    {
      sink := SinkEnded;
      if audioQueue != [] {
        PlayQueueIfIdle(false);
      } else if responseEnd {
        FinishPlaybackCycle();
      }
    }

    /** Pausing the element and clearing its source, as `stop_audio` and `stopAll` do. */
    method Silence()
      modifies this`audioQueue, this`sink, this`src, this`isSpeaking
      ensures audioQueue == [] && sink == SinkIdle && src == "" && !isSpeaking
    {
      audioQueue := [];
      sink, src := SinkIdle, "";
      isSpeaking := false;
    }

    /** `stopAll()`: ask the server to stop (when the socket is open) and silence the page. */
    method StopAll()
      modifies this`sent, this`audioQueue, this`sink, this`src, this`isSpeaking
      ensures sent == old(sent) + (if socket == WsOpen then [StopAudio] else [])
      ensures audioQueue == [] && sink == SinkIdle && src == "" && !isSpeaking
    {
      if socket == WsOpen {
        sent := sent + [StopAudio];
      }
      Silence();
    }

    /** `toggleMute()`: the flag flips and the element follows it. */
    method ToggleMute()
      modifies this`muted, this`sinkMuted
      ensures muted == !old(muted) && sinkMuted == muted
      ensures Mute() == AudioMute.StepAsWritten(old(Mute()), AudioMute.Toggle)
    {
      muted := !muted;
      sinkMuted := muted;
    }

    // ---- user actions ----

    /** The input box's change handler. */
    method TypeInput(v: string)
      modifies this`inputVal
      ensures inputVal == v
    {
      inputVal := v;
    }

    /**
     * `sendText()`: with an open socket and a non-blank input, the trimmed text goes out with the
     * local time and the mute flag, the input clears and a thinking row is added.
     */
    method SendText(clock: DateParts, now: int)
      modifies this`sent, this`inputVal, this`history, this`status
      ensures socket == WsOpen && Trim(old(inputVal)) != [] ==>
        && sent == old(sent) + [TextQuery(Trim(old(inputVal)), FmtNow(clock), muted)]
        && inputVal == "" && history == old(history) + [ThinkingRow(now)] && status == GeneratingLine
      ensures socket != WsOpen || Trim(old(inputVal)) == [] ==>
        sent == old(sent) && inputVal == old(inputVal) && history == old(history) && status == old(status)
    {
      var text := Trim(inputVal);
      if socket != WsOpen || text == [] {
        return;
      }
      sent := sent + [TextQuery(text, FmtNow(clock), muted)];
      inputVal := "";
      BeginThinking(now);
      status := GeneratingLine;
    }

    /** The chat box's send action: nothing unless the input is non-blank and the page is connected. */
    method OnSend(clock: DateParts, now: int)
      modifies this`sent, this`inputVal, this`history, this`status
      ensures Trim(old(inputVal)) == [] || conn != Connected || socket != WsOpen ==>
        sent == old(sent) && inputVal == old(inputVal) && history == old(history) && status == old(status)
      ensures conn == Connected && socket == WsOpen && Trim(old(inputVal)) != [] ==>
        && sent == old(sent) + [TextQuery(Trim(old(inputVal)), FmtNow(clock), muted)]
        && inputVal == "" && history == old(history) + [ThinkingRow(now)] && status == GeneratingLine
    {
      if Trim(inputVal) == [] || conn != Connected {
        return;
      }
      SendText(clock, now);
    }

    /** `onMicDown`: the recording starts, and its callback is the one of this render. */
    method MicDown()
      modifies this`recMuted
      ensures recMuted == muted
    {
      recMuted := muted;
    }

    /**
     * The microphone's callback with a recorded clip: sent as an audio query when the socket is
     * open, with the mute flag of the render in which the recording started.
     */
    method OnRecorded(dataUrl: string, format: string, now: int)
      modifies this`sent, this`history, this`status
      ensures socket == WsOpen ==>
        && sent == old(sent) + [AudioQuery(dataUrl, format, recMuted)]
        && history == old(history) + [ThinkingRow(now)] && status == ProcessingAudioLine
      ensures socket != WsOpen ==> sent == old(sent) && history == old(history) && status == old(status)
    {
      if socket == WsOpen {
        sent := sent + [AudioQuery(dataUrl, format, recMuted)];
        BeginThinking(now);
        status := ProcessingAudioLine;
      }
    }

    /** `clearChat()`: the rows, the slides and the timing go; the live-row and start-time maps stay. */
    method ClearChat()
      modifies this`history, this`runs, this`timingMs
      ensures history == [] && timingMs == None
      ensures runs == old(runs).(slidesByRun := map[], slidesRawByRun := map[], slidesLoadingByRun := map[])
    {
      history := [];
      runs := runs.(slidesByRun := map[], slidesRawByRun := map[], slidesLoadingByRun := map[]);
      timingMs := None;
    }

    /**
     * A run button's `onClick`, `setActiveRunId(id)`: the run becomes active, nothing else about
     * the runs changes, and the panel then shows what is stored for that run.
     */
    method SelectRun(id: string)
      modifies this`runs
      ensures runs == old(runs).(activeRunId := Some(id))
      ensures id != "" ==>
        PanelBody(runs.activeRunId, runs.slidesByRun, runs.slidesRawByRun, runs.slidesLoadingByRun) ==
        BodyOf(id in runs.slidesLoadingByRun && runs.slidesLoadingByRun[id],
               Cards(if id in runs.slidesByRun then runs.slidesByRun[id] else None),
               if id in runs.slidesRawByRun then Some(runs.slidesRawByRun[id]) else None)
    {
      runs := runs.(activeRunId := Some(id));
    }

    // ---- the envelope dispatcher ----

    /** `text_query`: the server echoes the user's text as a user row. */
    method OnTextQuery(m: Envelope, now: int)
      modifies this`history, this`status
      ensures history == WithoutThinking(old(history)) + [MsgRow(EchoId(now), User, linkify(escape(TextOf(m))))]
      ensures status == UserSentLine && NoThinking(history)
    {
      EndThinking();
      AppendKeepsNoThinking(history, MsgRow(EchoId(now), User, linkify(escape(TextOf(m)))));
      history := history + [MsgRow(EchoId(now), User, linkify(escape(TextOf(m))))];
      status := UserSentLine;
    }

    /** `response_start`: a run with an id is recorded, may become active, and has its slides reset. */
    method OnResponseStart(m: Envelope, now: int)
      modifies this`runs, this`history, this`status
      ensures RunIdOf(m).None? ==> runs == old(runs)
      ensures RunIdOf(m).Some? ==>
        var r, b := RunIdOf(m).value, old(runs);
        runs == RunBook(ActiveAfterStart(b.activeRunId, b.runStartedAt, r, now), b.liveRowByRun,
                        b.runStartedAt[r := now], b.slidesByRun[r := None], b.slidesRawByRun[r := ""],
                        b.slidesLoadingByRun[r := false])
      ensures history == old(history) + [ThinkingRow(now)] && status == TypingLine
    {
      var r := RunIdOf(m);
      if r.Some? {
        var run := r.value;
        runs := runs.(
          activeRunId := ActiveAfterStart(runs.activeRunId, runs.runStartedAt, run, now),
          runStartedAt := runs.runStartedAt[run := now],
          slidesByRun := runs.slidesByRun[run := None],
          slidesRawByRun := runs.slidesRawByRun[run := ""],
          slidesLoadingByRun := runs.slidesLoadingByRun[run := false]);
      }
      BeginThinking(now);
      status := TypingLine;
    }

    /** `text_response`: thinking ends and the fragment grows its run's row; with no run id it is dropped. */
    method OnTextResponse(m: Envelope, now: int)
      requires Valid()
      modifies this`history, this`runs, this`status
      ensures Valid()
      ensures RunIdOf(m).Some? ==>
        var g := Grow(RunLog(WithoutThinking(old(history)), old(runs).liveRowByRun), RunIdOf(m).value, TextOf(m), now, escape);
        history == g.rows && runs == old(runs).(liveRowByRun := g.live)
      ensures RunIdOf(m).None? ==> history == WithoutThinking(old(history)) && runs == old(runs)
      ensures status == TypingLine && NoThinking(history)
    {
      EndThinking();
      var r := RunIdOf(m);
      if r.Some? {
        GrowKeepsNoThinking(RunLog(history, runs.liveRowByRun), r.value, TextOf(m), now, escape);
        GrowAssistantForRun(r.value, TextOf(m), now);
      }
      status := TypingLine;
    }

    /**
     * `slides_response` for a run: the start marker sets the run loading and applies the active-run
     * rule; otherwise a deck and a raw text are each stored when present, and either clears loading.
     */
    method OnSlidesResponse(m: Envelope, now: int)
      modifies this`runs
      ensures RunIdOf(m).None? ==> runs == old(runs)
      ensures RunIdOf(m).Some? && m.slidesRaw == Val(StartedMarker) ==>
        var r, b := RunIdOf(m).value, old(runs);
        runs == b.(slidesLoadingByRun := b.slidesLoadingByRun[r := true],
                   activeRunId := ActiveAfterSlidesStarted(b.activeRunId, b.runStartedAt, r, now))
      ensures RunIdOf(m).Some? && m.slidesRaw != Val(StartedMarker) ==>
        var r, b := RunIdOf(m).value, old(runs);
        && runs.activeRunId == b.activeRunId && runs.liveRowByRun == b.liveRowByRun && runs.runStartedAt == b.runStartedAt
        && runs.slidesByRun == (if m.slides.Val? then b.slidesByRun[r := Some(m.slides.value)] else b.slidesByRun)
        && runs.slidesRawByRun == (if DeliveredRaw(m).Some? then b.slidesRawByRun[r := DeliveredRaw(m).value] else b.slidesRawByRun)
        && runs.slidesLoadingByRun == (if m.slides.Val? || DeliveredRaw(m).Some? then b.slidesLoadingByRun[r := false] else b.slidesLoadingByRun)
    {
      var r := RunIdOf(m);
      if r.None? {
        return;
      }
      var run := r.value;
      if m.slidesRaw == Val(StartedMarker) {
        runs := runs.(slidesLoadingByRun := runs.slidesLoadingByRun[run := true],
                      activeRunId := ActiveAfterSlidesStarted(runs.activeRunId, runs.runStartedAt, run, now));
        return;
      }
      if m.slides.Val? {
        runs := runs.(slidesByRun := runs.slidesByRun[run := Some(m.slides.value)],
                      slidesLoadingByRun := runs.slidesLoadingByRun[run := false]);
      }
      var raw := DeliveredRaw(m);
      if raw.Some? {
        runs := runs.(slidesRawByRun := runs.slidesRawByRun[run := raw.value],
                      slidesLoadingByRun := runs.slidesLoadingByRun[run := false]);
      }
    }

    /**
     * `audio_response`: the clip joins the tail of the queue, and plays at once if the element is
     * idle, muted as the handler's own render had it (`handlerMuted`).
     */
    method OnAudioResponse(m: Envelope)
      requires Valid()
      modifies this`audioQueue, this`src, this`sinkMuted, this`sink
      ensures Valid()
      ensures old(sink) == SinkPlaying ==>
        audioQueue == old(audioQueue) + [AudioSrc(m)] && src == old(src) && sink == old(sink) && sinkMuted == old(sinkMuted)
      ensures old(sink) != SinkPlaying ==>
        var q := old(audioQueue) + [AudioSrc(m)];
        && audioQueue == q[1..] && src == q[0] && sink == SinkPlaying
        && Mute() == AudioMute.StepAsWritten(old(Mute()), AudioMute.ClipFromMessage)
    {
      audioQueue := audioQueue + [AudioSrc(m)];
      PlayQueueIfIdle(handlerMuted);
    }

    /** `response_done`: the reported total time is shown. */
    method OnResponseDone(m: Envelope)
      modifies this`timingMs, this`status
      ensures timingMs == Some(TimingOf(m)) && status == DoneLine
    {
      timingMs := Some(TimingOf(m));
      status := DoneLine;
    }

    /** `response_ended`: the run's row is settled; with nothing left to play the cycle finishes at once. */
    method OnResponseEnded(m: Envelope, now: int)
      requires Valid()
      modifies this`history, this`runs, this`responseEnd, this`isSpeaking
      ensures Valid()
      ensures RunIdOf(m).Some? ==>
        var g := Finalize(RunLog(old(history), old(runs).liveRowByRun), RunIdOf(m).value, now, linkify);
        history == g.rows && runs == old(runs).(liveRowByRun := g.live)
      ensures RunIdOf(m).None? ==> history == old(history) && runs == old(runs)
      ensures audioQueue == [] ==> !responseEnd && !isSpeaking
      ensures audioQueue != [] ==> responseEnd && isSpeaking == old(isSpeaking)
    {
      var r := RunIdOf(m);
      if r.Some? {
        FinalizeAssistantForRun(r.value, now);
      }
      responseEnd := true;
      if audioQueue == [] {
        FinishPlaybackCycle();
      }
    }

    /** `error`: thinking ends and the status shows the error. */
    method OnError()
      modifies this`history, this`status
      ensures history == WithoutThinking(old(history)) && NoThinking(history) && status == ServerErrorLine
    {
      EndThinking();
      status := ServerErrorLine;
    }

    /** `text_query`: the user's line is echoed as a row, replacing the thinking row. */
    twostate predicate TextQueryEffect(m: Envelope, now: int)
      reads this
    {
        && history == WithoutThinking(old(history)) + [MsgRow(EchoId(now), User, linkify(escape(TextOf(m))))]
        && status == UserSentLine && NoThinking(history)
    }

    /** `response_start`: a run with an id is registered, and a thinking row is shown. */
    twostate predicate ResponseStartEffect(m: Envelope, now: int)
      reads this
    {
        && (RunIdOf(m).None? ==> runs == old(runs))
        && (RunIdOf(m).Some? ==>
              var r, b := RunIdOf(m).value, old(runs);
              runs == RunBook(ActiveAfterStart(b.activeRunId, b.runStartedAt, r, now), b.liveRowByRun,
                              b.runStartedAt[r := now], b.slidesByRun[r := None], b.slidesRawByRun[r := ""],
                              b.slidesLoadingByRun[r := false]))
        && history == old(history) + [ThinkingRow(now)] && status == TypingLine
    }

    /** `text_response`: a chunk grows its run's live row, replacing the thinking row. */
    twostate predicate TextResponseEffect(m: Envelope, now: int)
      reads this
    {
        && (RunIdOf(m).None? ==> history == WithoutThinking(old(history)) && runs == old(runs))
        && (RunIdOf(m).Some? ==>
              var g := Grow(RunLog(WithoutThinking(old(history)), old(runs).liveRowByRun), RunIdOf(m).value, TextOf(m), now, escape);
              history == g.rows && runs == old(runs).(liveRowByRun := g.live))
        && status == TypingLine && NoThinking(history)
    }

    /** `slides_response`: the loading marker, or a delivered deck, for the run. */
    twostate predicate SlidesResponseEffect(m: Envelope, now: int)
      reads this
    {
        && (RunIdOf(m).None? ==> runs == old(runs))
        && (RunIdOf(m).Some? && m.slidesRaw == Val(StartedMarker) ==>
              var r, b := RunIdOf(m).value, old(runs);
              runs == b.(slidesLoadingByRun := b.slidesLoadingByRun[r := true],
                         activeRunId := ActiveAfterSlidesStarted(b.activeRunId, b.runStartedAt, r, now)))
        && (RunIdOf(m).Some? && m.slidesRaw != Val(StartedMarker) ==>
              var r, b := RunIdOf(m).value, old(runs);
              && runs.activeRunId == b.activeRunId && runs.liveRowByRun == b.liveRowByRun
              && runs.runStartedAt == b.runStartedAt
              && runs.slidesByRun == (if m.slides.Val? then b.slidesByRun[r := Some(m.slides.value)] else b.slidesByRun)
              && runs.slidesRawByRun == (if DeliveredRaw(m).Some? then b.slidesRawByRun[r := DeliveredRaw(m).value] else b.slidesRawByRun)
              && runs.slidesLoadingByRun == (if m.slides.Val? || DeliveredRaw(m).Some? then b.slidesLoadingByRun[r := false] else b.slidesLoadingByRun))
    }

    /** `response_done`: the timing is kept and the status says done. */
    twostate predicate ResponseDoneEffect(m: Envelope, now: int)
      reads this
    {
        && timingMs == Some(TimingOf(m)) && status == DoneLine
    }

    /** `error`: the thinking row goes and the status reports the server error. */
    twostate predicate ErrorEffect(m: Envelope, now: int)
      reads this
    {
        && history == WithoutThinking(old(history)) && NoThinking(history) && status == ServerErrorLine
    }

    /** `audio_response`: the clip is queued, and started through the handler's mute flag if nothing plays. */
    twostate predicate AudioResponseEffect(m: Envelope, now: int)
      reads this
    {
        && (old(sink) == SinkPlaying ==>
              audioQueue == old(audioQueue) + [AudioSrc(m)] && src == old(src) && sink == old(sink) && sinkMuted == old(sinkMuted))
        && (old(sink) != SinkPlaying ==>
              var q := old(audioQueue) + [AudioSrc(m)];
              audioQueue == q[1..] && src == q[0] && sink == SinkPlaying && sinkMuted == handlerMuted)
    }

    /** `response_ended`: the run's live row is finalised, and speaking ends unless clips are queued. */
    twostate predicate ResponseEndedEffect(m: Envelope, now: int)
      reads this
    {
        && (RunIdOf(m).None? ==> history == old(history) && runs == old(runs))
        && (RunIdOf(m).Some? ==>
              var g := Finalize(RunLog(old(history), old(runs).liveRowByRun), RunIdOf(m).value, now, linkify);
              history == g.rows && runs == old(runs).(liveRowByRun := g.live))
        && (audioQueue == [] ==> !responseEnd && !isSpeaking)
        && (audioQueue != [] ==> responseEnd && isSpeaking == old(isSpeaking))
    }

    /** `stop_audio`: the queue is dropped and the element stops. */
    twostate predicate StopAudioEffect(m: Envelope, now: int)
      reads this
    {
        && audioQueue == [] && sink == SinkIdle && src == "" && !isSpeaking
    }

    /**
     * The state each message type may change: a field outside this table keeps its value, so
     * `connected` and an unhandled type (only logged) change nothing.
     */
    twostate predicate ChangesOnly(m: Envelope)
      reads this
    {
      var k := KindOf(m.kind);
      && (history != old(history) ==>
            k in {TextQueryMsg, ResponseStartMsg, TextResponseMsg, ResponseEndedMsg, ErrorMsg})
      && (runs != old(runs) ==> k in {ResponseStartMsg, TextResponseMsg, SlidesResponseMsg, ResponseEndedMsg})
      && (status != old(status) ==>
            k in {TextQueryMsg, ResponseStartMsg, TextResponseMsg, ResponseDoneMsg, ErrorMsg})
      && (timingMs != old(timingMs) ==> k == ResponseDoneMsg)
      && (audioQueue != old(audioQueue) || src != old(src) || sink != old(sink) ==>
            k in {AudioResponseMsg, StopAudioMsg})
      && (sinkMuted != old(sinkMuted) ==> k == AudioResponseMsg)
      && (isSpeaking != old(isSpeaking) ==> k in {ResponseEndedMsg, StopAudioMsg})
      && (responseEnd != old(responseEnd) ==> k == ResponseEndedMsg)
    }

    /** What each handled message type does, as its handler's effect states it. */
    twostate predicate Handled(m: Envelope, now: int)
      reads this
    {
      match KindOf(m.kind)
      case TextQueryMsg => TextQueryEffect(m, now)
      case ResponseStartMsg => ResponseStartEffect(m, now)
      case TextResponseMsg => TextResponseEffect(m, now)
      case SlidesResponseMsg => SlidesResponseEffect(m, now)
      case ResponseDoneMsg => ResponseDoneEffect(m, now)
      case ErrorMsg => ErrorEffect(m, now)
      case AudioResponseMsg => AudioResponseEffect(m, now)
      case ResponseEndedMsg => ResponseEndedEffect(m, now)
      case StopAudioMsg => StopAudioEffect(m, now)
      case ConnectedMsg => true
      case OtherMsg => true
    }

    /**
     * `handleWsMessage(msg)` at time `now`: each handled type has its handler's effect and
     * changes nothing else.
     */
    method HandleWsMessage(m: Envelope, now: int)
      requires Valid()
      modifies this`history, this`runs, this`status, this`audioQueue, this`src,
        this`sinkMuted, this`sink, this`isSpeaking, this`timingMs, this`responseEnd
      ensures Valid()
      ensures ChangesOnly(m)
      ensures Handled(m, now)
    {
      match KindOf(m.kind) {
        case TextQueryMsg | ResponseStartMsg | TextResponseMsg | SlidesResponseMsg | ResponseDoneMsg | ErrorMsg =>
          HandleChatEnvelope(m, now);
        case AudioResponseMsg | ResponseEndedMsg | StopAudioMsg =>
          HandleAudioEnvelope(m, now);
        case _ =>
      }
    }

    /** The dispatcher's cases that change only the rows, the runs, the status and the timing. */
    method HandleChatEnvelope(m: Envelope, now: int)
      requires Valid() && IsChatKind(KindOf(m.kind))
      modifies this`history, this`runs, this`status, this`timingMs
      ensures Valid()
      ensures ChangesOnly(m)
      ensures Handled(m, now)
    {
      match KindOf(m.kind) {
        case TextQueryMsg =>
          OnTextQuery(m, now);
        case ResponseStartMsg =>
          OnResponseStart(m, now);
        case TextResponseMsg =>
          OnTextResponse(m, now);
        case SlidesResponseMsg =>
          OnSlidesResponse(m, now);
        case ResponseDoneMsg =>
          OnResponseDone(m);
        case ErrorMsg =>
          OnError();
      }
    }

    /** The dispatcher's cases that change the audio queue and element. */
    method HandleAudioEnvelope(m: Envelope, now: int)
      requires Valid() && IsAudioKind(KindOf(m.kind))
      modifies this`history, this`runs, this`audioQueue, this`src, this`sinkMuted, this`sink,
        this`isSpeaking, this`responseEnd
      ensures Valid()
      ensures ChangesOnly(m)
      ensures Handled(m, now)
    {
      match KindOf(m.kind) {
        case AudioResponseMsg =>
          OnAudioResponse(m);
        case ResponseEndedMsg =>
          OnResponseEnded(m, now);
        case StopAudioMsg =>
          Silence();
      }
    }
  }
}
