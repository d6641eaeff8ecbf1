/**
 * The run aggregator of the chat page as functions: how a text fragment grows a run's live row,
 * how `response_ended` settles it, and which run is active for the slide panel.
 */
module Runs {
  import opened Wrappers
  import opened JsText
  import opened Rows

  /** The row log together with the map from run id to the id of that run's live row. */
  datatype RunLog = RunLog(rows: seq<MsgRow>, live: map<string, RowId>)

  /** Every live-row id the map holds was made for the run it is filed under. */
  predicate LiveIdsOwned(live: map<string, RowId>) {
    forall run :: run in live ==> live[run].LiveId? && live[run].run == run
  }

  /** The rows that belong to `run`'s live accumulator. */
  predicate IsLiveRowOf(x: MsgRow, run: string) {
    x.id.LiveId? && x.id.run == run
  }

  /** `growAssistantForRun(runId, chunk)` at time `now`. */
  function Grow(g: RunLog, runId: string, chunk: string, now: int, escape: string -> string): RunLog {
    var incoming := Trim(chunk);
    if incoming == [] then g
    else if runId !in g.live then
      var id := LiveId(runId, now);
      RunLog(g.rows + [MsgRow(id, Assistant, escape(incoming))], g.live[runId := id])
    else
      var id := g.live[runId];
      var idx := FindRow(g.rows, id);
      if idx >= 0 then
        RunLog(g.rows[idx := g.rows[idx].(html := escape(JoinFragment(g.rows[idx].html, incoming)))], g.live)
      else
        RunLog(g.rows + [MsgRow(id, Assistant, escape(incoming))], g.live)
  }

  /** A fragment that is empty or only white space changes neither the rows nor the live map. */
  lemma GrowBlankIsNoOp(g: RunLog, runId: string, chunk: string, now: int, escape: string -> string)
    requires AllSpace(chunk)
    ensures Grow(g, runId, chunk, now, escape) == g
  {
    TrimEmptyIff(chunk);
  }

  /**
   * The first non-blank fragment of a run with no live row appends one assistant row at the end,
   * holding the escaped, trimmed fragment, and files its new live id under the run.
   */
  lemma GrowFirstFragment(g: RunLog, runId: string, chunk: string, now: int, escape: string -> string)
    requires !AllSpace(chunk) && runId !in g.live
    ensures var r := Grow(g, runId, chunk, now, escape);
      && |r.rows| == |g.rows| + 1
      && r.rows[..|g.rows|] == g.rows
      && r.rows[|g.rows|] == MsgRow(LiveId(runId, now), Assistant, escape(Trim(chunk)))
      && r.live.Keys == g.live.Keys + {runId}
      && r.live[runId] == LiveId(runId, now)
  {
    TrimEmptyIff(chunk);
    var r := Grow(g, runId, chunk, now, escape);
    assert r.rows[..|g.rows|] == g.rows;
  }

  /**
   * A later fragment rewrites only the run's live row, in place, keeping its id and kind; its text
   * becomes the previous text normalised, one space, and the fragment. Were the live row gone, the
   * row is appended again under the same id.
   */
  lemma GrowLaterFragment(g: RunLog, runId: string, chunk: string, now: int, escape: string -> string)
    requires !AllSpace(chunk) && runId in g.live
    ensures var r, id, idx := Grow(g, runId, chunk, now, escape), g.live[runId], FindRow(g.rows, g.live[runId]);
      && r.live == g.live
      && (idx >= 0 ==>
            && |r.rows| == |g.rows|
            && (forall i :: 0 <= i < |g.rows| && i != idx ==> r.rows[i] == g.rows[i])
            && r.rows[idx].id == id && r.rows[idx].kind == g.rows[idx].kind
            && r.rows[idx].html == escape(JoinFragment(g.rows[idx].html, Trim(chunk))))
      && (idx < 0 ==> r.rows == g.rows + [MsgRow(id, Assistant, escape(Trim(chunk)))])
  {
    TrimEmptyIff(chunk);
  }

  /**
   * Run isolation: growing run `runId` never alters a row that is not that run's live row, and
   * never alters another run's entry in the live map; rows are only ever added at the end.
   */
  lemma GrowIsolatesRuns(g: RunLog, runId: string, chunk: string, now: int, escape: string -> string)
    requires LiveIdsOwned(g.live)
    ensures var r := Grow(g, runId, chunk, now, escape);
      && LiveIdsOwned(r.live)
      && |g.rows| <= |r.rows| <= |g.rows| + 1
      && (forall i :: 0 <= i < |g.rows| && !IsLiveRowOf(g.rows[i], runId) ==> r.rows[i] == g.rows[i])
      && (forall i :: |g.rows| <= i < |r.rows| ==> IsLiveRowOf(r.rows[i], runId))
      && (forall other :: other != runId ==> (other in r.live <==> other in g.live))
      && (forall other :: other != runId && other in g.live ==> r.live[other] == g.live[other])
  {
    var r := Grow(g, runId, chunk, now, escape);
    var incoming := Trim(chunk);
    if incoming != [] && runId in g.live {
      var idx := FindRow(g.rows, g.live[runId]);
      if idx >= 0 {
        assert IsLiveRowOf(g.rows[idx], runId);
      }
    }
  }

  /** Growing never adds a thinking row: appended rows are assistant rows and a rewritten row keeps its kind. */
  lemma GrowKeepsNoThinking(g: RunLog, runId: string, chunk: string, now: int, escape: string -> string)
    requires NoThinking(g.rows)
    ensures NoThinking(Grow(g, runId, chunk, now, escape).rows)
  {
    var incoming := Trim(chunk);
    if incoming == [] {
    } else if runId !in g.live {
      AppendKeepsNoThinking(g.rows, MsgRow(LiveId(runId, now), Assistant, escape(incoming)));
    } else {
      var id := g.live[runId];
      var idx := FindRow(g.rows, id);
      if idx >= 0 {
        RewriteKeepsNoThinking(g.rows, idx, escape(JoinFragment(g.rows[idx].html, incoming)));
      } else {
        AppendKeepsNoThinking(g.rows, MsgRow(id, Assistant, escape(incoming)));
      }
    }
  }

  lemma RewriteKeepsNoThinking(rows: seq<MsgRow>, idx: nat, html: string)
    requires NoThinking(rows) && idx < |rows|
    ensures NoThinking(rows[idx := rows[idx].(html := html)])
  {
  }

  /**
   * After the chat is cleared the live-row map still names the run's old row, so the run's next
   * fragment re-creates a row under that old id instead of starting a new one.
   */
  lemma GrowAfterClear(live: map<string, RowId>, runId: string, chunk: string, now: int, escape: string -> string)
    requires runId in live && !AllSpace(chunk)
    ensures Grow(RunLog([], live), runId, chunk, now, escape) == RunLog([MsgRow(live[runId], Assistant, escape(Trim(chunk)))], live)
  {
    TrimEmptyIff(chunk);
  }

  /** `Array.prototype.map` of `finalizeAssistantForRun`: the assistant row(s) carrying `from`
      take the id `to` and have their links made clickable; every other row is kept. */
  function RenameRows(h: seq<MsgRow>, from: RowId, to: RowId, linkify: string -> string): (r: seq<MsgRow>)
    ensures |r| == |h|
    ensures forall i :: 0 <= i < |h| ==>
      r[i] == if h[i].id == from && h[i].kind == Assistant then MsgRow(to, Assistant, linkify(h[i].html)) else h[i]
  {
    if h == [] then []
    else
      [if h[0].id == from && h[0].kind == Assistant then MsgRow(to, Assistant, linkify(h[0].html)) else h[0]]
      + RenameRows(h[1..], from, to, linkify)
  }

  /** `finalizeAssistantForRun(runId)` at time `now`. */
  function Finalize(g: RunLog, runId: string, now: int, linkify: string -> string): RunLog {
    if runId !in g.live then g
    else RunLog(RenameRows(g.rows, g.live[runId], FinalId(runId, now), linkify), g.live - {runId})
  }

  /**
   * Finalising keeps the number and order of rows, gives the run's live row the permanent id
   * `a_<run>_<now>`, leaves every other row alone, leaves no assistant row of that run live,
   * and drops the run (only that run) from the live map. A run with no live row changes nothing.
   */
  lemma FinalizeSettlesRun(g: RunLog, runId: string, now: int, linkify: string -> string)
    requires LiveIdsOwned(g.live)
    ensures var r := Finalize(g, runId, now, linkify);
      && LiveIdsOwned(r.live)
      && (runId !in g.live ==> r == g)
      && |r.rows| == |g.rows|
      && runId !in r.live
      && r.live == g.live - {runId}
      && (forall i :: 0 <= i < |g.rows| ==> r.rows[i].kind == g.rows[i].kind)
      && (forall i :: 0 <= i < |g.rows| && !IsLiveRowOf(g.rows[i], runId) ==> r.rows[i] == g.rows[i])
      && (forall i ::
            (0 <= i < |g.rows| && g.rows[i].kind == Assistant && runId in g.live && g.rows[i].id == g.live[runId])
            ==> r.rows[i].id == FinalId(runId, now))
      && (forall i :: 0 <= i < |r.rows| && r.rows[i].kind == Assistant && runId in g.live ==> r.rows[i].id != g.live[runId])
  {
  }

  /** A start time as `runStartedAtRef.current[id] || 0` reads it. */
  function StartedAt(startedAt: map<string, int>, id: string): int {
    if id in startedAt then startedAt[id] else 0
  }

  /**
   * The updater of `setActiveRunId` on `response_start` for `runId` at time `now`; it first
   * records the start time, then compares it with the current active run's (newer or equal wins).
   */
  function ActiveAfterStart(curr: Option<string>, startedAt: map<string, int>, runId: string, now: int): Option<string> {
    if curr.None? then Some(runId)
    else if now >= StartedAt(startedAt[runId := now], curr.value) then Some(runId)
    else curr
  }

  /** The updater of `setActiveRunId` on the slides "__started__" marker: the run's own start time,
      or `now` if it has none (`|| Date.now()`), against the active run's. */
  function ActiveAfterSlidesStarted(curr: Option<string>, startedAt: map<string, int>, runId: string, now: int): Option<string> {
    if curr.None? then Some(runId)
    else
      var b := if StartedAt(startedAt, runId) != 0 then StartedAt(startedAt, runId) else now;
      if b >= StartedAt(startedAt, curr.value) then Some(runId) else curr
  }

  /** With no active run, or a start at least as late as the active run's, the new run becomes
      active; an earlier start leaves the active run in place. */
  lemma StartNewerOrEqualWins(curr: Option<string>, startedAt: map<string, int>, runId: string, now: int)
    ensures curr.None? ==> ActiveAfterStart(curr, startedAt, runId, now) == Some(runId)
    ensures curr.Some? && curr.value != runId ==>
      (ActiveAfterStart(curr, startedAt, runId, now) == Some(runId) <==> now >= StartedAt(startedAt, curr.value))
    ensures curr.Some? && curr.value != runId && now < StartedAt(startedAt, curr.value) ==>
      ActiveAfterStart(curr, startedAt, runId, now) == curr
    ensures curr == Some(runId) ==> ActiveAfterStart(curr, startedAt, runId, now) == curr
  {
  }

  /** The "__started__" marker follows the same rule, with the run's own recorded start time. */
  lemma SlidesStartedNewerOrEqualWins(curr: Option<string>, startedAt: map<string, int>, runId: string, now: int)
    requires runId in startedAt && startedAt[runId] != 0 && curr.Some?
    ensures ActiveAfterSlidesStarted(curr, startedAt, runId, now) == Some(runId)
      <==> startedAt[runId] >= StartedAt(startedAt, curr.value)
  {
  }

  /**
   * The active run started no earlier than any run with a recorded start; with no active run
   * nothing has started yet.
   */
  predicate LatestActive(curr: Option<string>, startedAt: map<string, int>) {
    match curr
    case None => startedAt == map[]
    case Some(a) => forall id :: id in startedAt ==> startedAt[id] <= StartedAt(startedAt, a)
  }

  /**
   * `response_start` keeps the active run the latest-started one, whatever the arrival order
   * and clock, unless the active run itself restarts with an earlier clock reading.
   */
  lemma StartKeepsLatestActive(curr: Option<string>, startedAt: map<string, int>, runId: string, now: int)
    requires LatestActive(curr, startedAt)
    requires curr == Some(runId) ==> StartedAt(startedAt, runId) <= now
    ensures LatestActive(ActiveAfterStart(curr, startedAt, runId, now), startedAt[runId := now])
  {
    var s := startedAt[runId := now];
    var next := ActiveAfterStart(curr, startedAt, runId, now);
    if curr.Some? && next == curr {
      forall id | id in s ensures s[id] <= StartedAt(s, curr.value) {
        if id != runId {
          assert s[id] == startedAt[id];
        }
      }
    }
  }

  /** Two starts at the same millisecond: the second run becomes active. */
  lemma TieGoesToSecond(first: string, second: string, t: int)
    requires first != second
    ensures var s1 := map[first := t];
      ActiveAfterStart(ActiveAfterStart(None, map[], first, t), s1, second, t) == Some(second)
  {
  }
}
