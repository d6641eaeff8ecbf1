/**
 * The chat page's message-row log: row identities, the thinking placeholder, the text rule that
 * grows an assistant row, and the rows rebuilt from stored chat history.
 */
module Rows {
  import opened JsText

  datatype Kind = User | Assistant | Thinking

  /**
   * Row identifiers. The page builds them as strings from a prefix and parts:
   * `th_<ms>`, `u_<ms>`, `live_<run>_<ms>`, `a_<run>_<ms>`, `u_<created_at>`, `a_<created_at>`.
   * The only identifiers the page ever searches for are live ones, and no other kind of
   * identifier starts with `live_`, so comparing these values agrees with comparing the strings.
   */
  datatype RowId =
    | ThinkingId(at: int)
    | EchoId(at: int)
    | LiveId(run: string, at: int)
    | FinalId(run: string, at: int)
    | HistoryUserId(createdAt: string)
    | HistoryAssistantId(createdAt: string)

  /** A row of the chat log; `html` is "" where the page leaves it unset (thinking rows). */
  datatype MsgRow = MsgRow(id: RowId, kind: Kind, html: string)

  function ThinkingRow(now: int): MsgRow {
    MsgRow(ThinkingId(now), Thinking, "")
  }

  predicate NoThinking(h: seq<MsgRow>) {
    forall i :: 0 <= i < |h| ==> h[i].kind != Thinking
  }

  /** The updater of `endThinking`: every thinking row is removed, the rest kept in order. */
  function WithoutThinking(h: seq<MsgRow>): (r: seq<MsgRow>)
    ensures NoThinking(r)
    ensures forall x :: x in r <==> x in h && x.kind != Thinking
    ensures |r| <= |h|
  {
    if h == [] then []
    else (if h[0].kind == Thinking then [] else [h[0]]) + WithoutThinking(h[1..])
  }

  /** Appending a row that is not a placeholder keeps a log free of placeholders. */
  lemma AppendKeepsNoThinking(h: seq<MsgRow>, x: MsgRow)
    requires NoThinking(h) && x.kind != Thinking
    ensures NoThinking(h + [x])
  {
    var r := h + [x];
    assert forall i :: 0 <= i < |h| ==> r[i] == h[i];
  }

  /** Removing thinking rows distributes over concatenation, so the kept rows stay in order. */
  lemma {:induction false} WithoutThinkingAppend(a: seq<MsgRow>, b: seq<MsgRow>)
    ensures WithoutThinking(a + b) == WithoutThinking(a) + WithoutThinking(b)
  {
    if a == [] {
      assert a + b == b;
    } else {
      assert (a + b)[0] == a[0] && (a + b)[1..] == a[1..] + b;
      WithoutThinkingAppend(a[1..], b);
    }
  }

  /** A log without thinking rows is left as it is. */
  lemma {:induction false} WithoutThinkingKeeps(h: seq<MsgRow>)
    requires NoThinking(h)
    ensures WithoutThinking(h) == h
  {
    if h != [] {
      WithoutThinkingKeeps(h[1..]);
    }
  }

  /** A placeholder appended by `beginThinking` and then cleared by `endThinking` leaves no trace. */
  lemma ThinkingRoundTrip(h: seq<MsgRow>, now: int)
    requires NoThinking(h)
    ensures WithoutThinking(h + [ThinkingRow(now)]) == h
  {
    WithoutThinkingAppend(h, [ThinkingRow(now)]);
    WithoutThinkingKeeps(h);
    assert WithoutThinking([ThinkingRow(now)]) == [];
  }

  /** `findIndex(x => x.id === id)`: the first row with that id, or -1. */
  function FindRow(h: seq<MsgRow>, id: RowId): (i: int)
    ensures -1 <= i < |h|
    ensures i >= 0 ==> h[i].id == id
    ensures forall j :: 0 <= j < |h| && (i < 0 || j < i) ==> h[j].id != id
  {
    if h == [] then -1
    else if h[0].id == id then 0
    else
      var k := FindRow(h[1..], id);
      if k < 0 then -1 else k + 1
  }

  /**
   * The text an existing assistant row grows to when `incoming` (already trimmed) arrives:
   * the previous text with white space runs collapsed and trimmed, one space, then the fragment
   * with its line feeds turned into spaces.
   */
  function JoinFragment(prev: string, incoming: string): string {
    var p := Normalize(prev);
    (if p != [] then p + " " else []) + NewlinesToSpaces(incoming)
  }

  /**
   * Exactly one space separates the previous text from a trimmed, non-empty fragment: neither
   * side of that space is white space, and nothing precedes the fragment when the previous
   * text was blank.
   */
  lemma {:induction false} JoinFragmentOneSpace(prev: string, chunk: string)
    requires Trim(chunk) != []
    ensures var p, f, r := Normalize(prev), NewlinesToSpaces(Trim(chunk)), JoinFragment(prev, Trim(chunk));
      && Normalized(p)
      && f != [] && !IsSpace(f[0])
      && (p == [] ==> r == f)
      && (p != [] ==> r[..|p|] == p && r[|p|] == ' ' && r[|p| + 1..] == f && !IsSpace(r[|p| - 1]))
  {
    NormalizeIsNormalized(prev);
    TrimShape(chunk);
    JoinShape(Normalize(prev), Trim(chunk));
  }

  /** The join of a normalised text and a fragment that starts with a visible character. */
  lemma JoinShape(p: string, t: string)
    requires Normalized(p) && t != [] && !IsSpace(t[0])
    ensures var f, r := NewlinesToSpaces(t), (if p != [] then p + " " else []) + NewlinesToSpaces(t);
      && f != [] && !IsSpace(f[0])
      && (p == [] ==> r == f)
      && (p != [] ==> r[..|p|] == p && r[|p|] == ' ' && r[|p| + 1..] == f && !IsSpace(r[|p| - 1]))
  {
    var f := NewlinesToSpaces(t);
    assert f[0] == t[0];
    if p != [] {
      var r := p + " " + f;
      assert r[..|p|] == p;
      assert r[|p| + 1..] == f;
    }
  }

  /** A stored exchange as the agent-detail reply lists it. */
  datatype ChatItem = ChatItem(query: string, response: string, createdAt: string)

  /** The rows one stored exchange contributes: the query, then the response, each only if non-empty. */
  function ChatRows(c: ChatItem, escape: string -> string, linkify: string -> string): seq<MsgRow> {
    (if c.query != "" then [MsgRow(HistoryUserId(c.createdAt), User, linkify(escape(c.query)))] else [])
    + (if c.response != "" then [MsgRow(HistoryAssistantId(c.createdAt), Assistant, linkify(escape(c.response)))] else [])
  }

  /** The rows of a list of exchanges in the order given. */
  function HistoryRows(cs: seq<ChatItem>, escape: string -> string, linkify: string -> string): seq<MsgRow> {
    if cs == [] then []
    else HistoryRows(cs[..|cs| - 1], escape, linkify) + ChatRows(cs[|cs| - 1], escape, linkify)
  }

  function Reverse<T>(s: seq<T>): (r: seq<T>)
    ensures |r| == |s|
  {
    if s == [] then [] else Reverse(s[1..]) + [s[0]]
  }

  /** `reverse()` puts element `i` at position `n - 1 - i`. */
  lemma {:induction false} ReverseAt<T>(s: seq<T>)
    ensures forall i :: 0 <= i < |s| ==> Reverse(s)[i] == s[|s| - 1 - i]
    decreases |s|
  {
    if s != [] {
      ReverseAt(s[1..]);
      forall i | 0 <= i < |s| ensures Reverse(s)[i] == s[|s| - 1 - i] {
        if i < |s| - 1 {
          assert Reverse(s)[i] == Reverse(s[1..])[i];
        }
      }
    }
  }

  /** Rows of consecutive stretches of history follow each other. */
  lemma {:induction false} HistoryRowsAppend(a: seq<ChatItem>, b: seq<ChatItem>, escape: string -> string, linkify: string -> string)
    ensures HistoryRows(a + b, escape, linkify) == HistoryRows(a, escape, linkify) + HistoryRows(b, escape, linkify)
    decreases |b|
  {
    if b != [] {
      assert (a + b)[..|a + b| - 1] == a + b[..|b| - 1];
      HistoryRowsAppend(a, b[..|b| - 1], escape, linkify);
    } else {
      assert a + b == a;
    }
  }

  /** Rebuilt history holds only finished user and assistant rows with stored-history ids. */
  lemma {:induction false} HistoryRowsAreSettled(cs: seq<ChatItem>, escape: string -> string, linkify: string -> string)
    ensures forall x :: x in HistoryRows(cs, escape, linkify) ==>
      (x.kind == User && x.id.HistoryUserId?) || (x.kind == Assistant && x.id.HistoryAssistantId?)
  {
    if cs != [] {
      HistoryRowsAreSettled(cs[..|cs| - 1], escape, linkify);
    }
  }

  function NonEmptyCount(c: ChatItem): nat {
    (if c.query != "" then 1 else 0) + (if c.response != "" then 1 else 0)
  }

  function TotalNonEmpty(cs: seq<ChatItem>): nat {
    if cs == [] then 0 else TotalNonEmpty(cs[..|cs| - 1]) + NonEmptyCount(cs[|cs| - 1])
  }

  /** One row per non-empty query or response, no more. */
  lemma {:induction false} HistoryRowsCount(cs: seq<ChatItem>, escape: string -> string, linkify: string -> string)
    ensures |HistoryRows(cs, escape, linkify)| == TotalNonEmpty(cs)
  {
    if cs != [] {
      HistoryRowsCount(cs[..|cs| - 1], escape, linkify);
    }
  }

  /**
   * The loop of `fetchAgentAndHistory`: the reply lists exchanges newest first; they are walked in
   * reverse so that the rows come out oldest first.
   */
  method BuildHistoryRows(items: seq<ChatItem>, escape: string -> string, linkify: string -> string)
    returns (rows: seq<MsgRow>)
    ensures rows == HistoryRows(Reverse(items), escape, linkify)
  {
    var chats := Reverse(items);
    rows := [];
    var i := 0;
    while i < |chats|
      invariant 0 <= i <= |chats|
      invariant rows == HistoryRows(chats[..i], escape, linkify)
    {
      var c := chats[i];
      if c.query != "" {
        rows := rows + [MsgRow(HistoryUserId(c.createdAt), User, linkify(escape(c.query)))];
      }
      if c.response != "" {
        rows := rows + [MsgRow(HistoryAssistantId(c.createdAt), Assistant, linkify(escape(c.response)))];
      }
      assert chats[..i + 1][..i] == chats[..i];
      i := i + 1;
    }
    assert chats[..|chats|] == chats;
  }
}
