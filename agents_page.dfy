/**
 * The agent list (src/pages/AgentsPage.tsx): paginated loading with replace-or-append, deleting
 * a card, the create dialog's enablement and request body, and the avatar shown on each card.
 */
module AgentsPage {
  import opened Wrappers
  import opened JsText
  import opened Types

  /** The page size the list asks for. */
  const PageSize: int := 12

  /** A call `listAgents(limit, cursor)`; `None` is a call without a cursor. */
  datatype ListCall = ListCall(limit: int, cursor: Option<string>)

  /** Whether the argument of `load` is truthy: present and non-empty. */
  predicate Truthy(c: Option<string>) {
    c.Some? && c.value != ""
  }

  /** The items after a page arrives: appended after the current ones when loading more, otherwise replacing them. */
  function MergePage(prev: seq<Agent>, c: Option<string>, page: seq<Agent>): (r: seq<Agent>)
    ensures Truthy(c) ==> |r| == |prev| + |page| && r[..|prev|] == prev && r[|prev|..] == page
    ensures !Truthy(c) ==> r == page
  {
    if Truthy(c) then prev + page else page
  }

  /** `items.filter(x => x.bot_id !== botId)`. */
  function Without(items: seq<Agent>, botId: string): (r: seq<Agent>)
    ensures |r| <= |items|
    ensures forall x :: x in r ==> x in items && x.botId != botId
    ensures forall x :: x in items && x.botId != botId ==> x in r
  {
    if items == [] then []
    else if items[0].botId == botId then Without(items[1..], botId)
    else [items[0]] + Without(items[1..], botId)
  }

  /** Filtering works piece by piece, so the kept items stay in their order. */
  lemma {:induction false} WithoutAppend(a: seq<Agent>, b: seq<Agent>, botId: string)
    ensures Without(a + b, botId) == Without(a, botId) + Without(b, botId)
    decreases |a|
  {
    if a == [] {
      assert a + b == b;
    } else {
      assert (a + b)[1..] == a[1..] + b;
      WithoutAppend(a[1..], b, botId);
    }
  }

  /** Deleting an agent the list does not hold changes nothing, and deleting twice is deleting once. */
  lemma {:induction false} WithoutIdempotent(items: seq<Agent>, botId: string)
    ensures (forall x :: x in items ==> x.botId != botId) ==> Without(items, botId) == items
    ensures Without(Without(items, botId), botId) == Without(items, botId)
    decreases |items|
  {
    if items != [] {
      WithoutIdempotent(items[1..], botId);
      if items[0].botId != botId {
        assert items == [items[0]] + items[1..];
        assert Without(items, botId)[1..] == Without(items[1..], botId);
      }
    }
  }

  /** The number of items an id holds. */
  function CountOf(items: seq<Agent>, botId: string): nat {
    if items == [] then 0 else (if items[0].botId == botId then 1 else 0) + CountOf(items[1..], botId)
  }

  /** Deleting removes every item with the id and no item with another id. */
  lemma {:induction false} WithoutCounts(items: seq<Agent>, botId: string, other: string)
    ensures CountOf(Without(items, botId), botId) == 0
    ensures other != botId ==> CountOf(Without(items, botId), other) == CountOf(items, other)
    ensures |Without(items, botId)| == |items| - CountOf(items, botId)
    decreases |items|
  {
    if items != [] {
      WithoutCounts(items[1..], botId, other);
      if items[0].botId != botId {
        assert Without(items, botId)[1..] == Without(items[1..], botId);
      }
    }
  }

  /** The list's state. */
  class AgentList {
    var items: seq<Agent>
    var cursor: Option<string>
    var nextCursor: Option<string>
    var loading: bool
    var loadingMore: bool
    /** The `listAgents` calls made, in order. */
    var calls: seq<ListCall>

    /** The state on mount, before the first `load(null)` runs. */
    constructor ()
      ensures items == [] && cursor == None && nextCursor == None && loading && !loadingMore && calls == []
    {
      items, cursor, nextCursor, loading, loadingMore, calls := [], None, None, true, false, [];
    }

    /** The start of `load(c)`: the flag for the kind of load is raised and the page requested. */
    method LoadBegin(c: Option<string>)
      modifies this`loading, this`loadingMore, this`calls
      ensures Truthy(c) ==> loadingMore && loading == old(loading)
      ensures !Truthy(c) ==> loading && loadingMore == old(loadingMore)
      ensures calls == old(calls) + [ListCall(PageSize, c)]
    {
      if Truthy(c) {
        loadingMore := true;
      } else {
        loading := true;
      }
      calls := calls + [ListCall(PageSize, c)];
    }

    /**
     * The end of `load(c)`: on an answer (`Some`) the items are replaced or appended to, and both
     * cursors are recorded; on a failure (`None`) they are kept. Either way the flag raised by
     * `LoadBegin(c)` is cleared, and only that flag.
     */
    method LoadFinish(c: Option<string>, reply: Option<PaginatedAgents>)
      modifies this`items, this`cursor, this`nextCursor, this`loading, this`loadingMore
      ensures reply.Some? ==>
        && items == MergePage(old(items), c, reply.value.items)
        && nextCursor == (if reply.value.nextCursor.Val? then Some(reply.value.nextCursor.value) else None)
        && cursor == c
      ensures reply.None? ==> items == old(items) && cursor == old(cursor) && nextCursor == old(nextCursor)
      ensures Truthy(c) ==> !loadingMore && loading == old(loading)
      ensures !Truthy(c) ==> !loading && loadingMore == old(loadingMore)
    {
      if reply.Some? {
        var data := reply.value;
        if Truthy(c) {
          items := items + data.items;
        } else {
          items := data.items;
        }
        nextCursor := if data.nextCursor.Val? then Some(data.nextCursor.value) else None;
        cursor := c;
      }
      if Truthy(c) {
        loadingMore := false;
      } else {
        loading := false;
      }
    }

    /** A card's delete: once `deleteAgent` has succeeded, the cards with that id go. */
    method Delete(botId: string, deleted: bool)
      modifies this`items
      ensures items == (if deleted then Without(old(items), botId) else old(items))
    {
      if deleted {
        items := Without(items, botId);
      }
    }
  }

  /** Two pages loaded in a row, the second through "Load more", show the first page's items then the second's. */
  lemma LoadMoreAppends(first: PaginatedAgents, second: PaginatedAgents, next: string)
    requires next != ""
    ensures MergePage(MergePage([], None, first.items), Some(next), second.items) == first.items + second.items
  {
  }

  /** What the list area shows. */
  datatype ListView = Skeletons(count: int) | EmptyState | Cards(items: seq<Agent>, loadMore: bool)

  /** Skeletons while loading, the empty state for no items, else the cards and, with a next cursor, "Load more". */
  function ListViewOf(loading: bool, items: seq<Agent>, nextCursor: Option<string>): (v: ListView)
    ensures v.Skeletons? <==> loading
    ensures v.EmptyState? <==> !loading && items == []
    ensures v.Cards? ==> v.items == items && (v.loadMore <==> Truthy(nextCursor))
  {
    if loading then Skeletons(6)
    else if items == [] then EmptyState
    else Cards(items, Truthy(nextCursor))
  }

  /** "Load more" is offered only with a truthy cursor, so it always appends. */
  lemma LoadMoreAlwaysAppends(items: seq<Agent>, nextCursor: Option<string>, page: seq<Agent>)
    requires ListViewOf(false, items, nextCursor).Cards? && ListViewOf(false, items, nextCursor).loadMore
    ensures MergePage(items, nextCursor, page) == items + page
  {
  }

  /** `name.trim().length > 0 && !busy`. */
  function CanCreate(name: string, busy: bool): (ok: bool)
    ensures ok <==> !busy && !AllSpace(name)
  {
    TrimEmptyIff(name);
    |Trim(name)| > 0 && !busy
  }

  /** The body of `createAgent`: the name trimmed, the voice trimmed or null when blank, the prompt as typed, no avatar. */
  function CreatePayload(name: string, voiceId: string, prompt: string): (r: AgentCreateRequest)
    ensures r.name == Trim(name)
    ensures r.voiceId.Null? <==> AllSpace(voiceId)
    ensures r.voiceId.Val? ==> r.voiceId.value == Trim(voiceId) && r.voiceId.value != ""
    ensures r.prompt == Val(prompt) && r.avatar == Undefined
  {
    TrimEmptyIff(voiceId);
    var v := Trim(voiceId);
    AgentCreateRequest(Trim(name), if v != "" then Val(v) else Null, Val(prompt), Undefined)
  }

  /** When Create is enabled the request carries a non-blank name with no white space at either end. */
  lemma CreateSendsCleanName(name: string, voiceId: string, prompt: string)
    requires CanCreate(name, false)
    ensures var r := CreatePayload(name, voiceId, prompt);
      r.name != [] && !IsSpace(r.name[0]) && !IsSpace(r.name[|r.name| - 1])
  {
    TrimEmptyIff(name);
    TrimShape(name);
  }

  /** The dialog and the page once the Create click's `createAgent` call has settled. */
  datatype CreateResult = CreateResult(busy: bool, open: bool, navigateTo: Option<string>)

  /**
   * The Create click, after `createAgent` answered with the new agent (`Some`) or threw (`None`):
   * `busy` is cleared either way (`finally`); on success the dialog closes and the page opens the
   * new agent, on failure the dialog stays as it was.
   */
  function AfterCreate(open: bool, reply: Option<Agent>): (r: CreateResult)
    ensures !r.busy
    ensures r.open <==> open && reply.None?
    ensures r.navigateTo.Some? <==> reply.Some?
    ensures reply.Some? ==> r.navigateTo.value == "/agents/" + reply.value.botId
  {
    match reply
    case Some(a) => CreateResult(false, false, Some("/agents/" + a.botId))
    case None => CreateResult(false, open, None)
  }

  /** `s.trim().charAt(0).toUpperCase()`: the first visible character, upper-cased, or "". */
  function FirstVisibleUpper(s: string): (r: string)
    ensures |r| <= 1
    ensures r == "" <==> AllSpace(s)
  {
    TrimEmptyIff(s);
    var t := Trim(s);
    if t == [] then "" else [UpperChar(t[0])]
  }

  /** `(name || "A").trim().charAt(0).toUpperCase()`. */
  function AvatarInitial(name: Field<string>): (initial: string)
    ensures |initial| <= 1
    ensures (!name.Val? || name.value == "") ==> initial == "A"
    ensures name.Val? && name.value != "" ==>
      (initial == "" <==> AllSpace(name.value))
  {
    var s := if name.Val? && name.value != "" then name.value else "A";
    FallbackInitial();
    FirstVisibleUpper(s)
  }

  /** The fallback name "A" shows as "A". */
  lemma FallbackInitial()
    ensures FirstVisibleUpper("A") == "A"
  {
    assert !IsSpace('A');
    assert Trim("A") == "A";
  }

  /** A name with something besides white space shows its first such character, upper-cased. */
  lemma InitialIsFirstVisibleChar(name: string)
    requires !AllSpace(name)
    ensures LeadLength(name) < |name| && AvatarInitial(Val(name)) == [UpperChar(name[LeadLength(name)])]
  {
    TrimEmptyIff(name);
    TrimShape(name);
    var t := Trim(name);
    assert t[0] == name[LeadLength(name)];
  }

  /** A card's avatar: the image when `src` is truthy, else the initial. */
  datatype AvatarView = Image(src: string) | Initial(text: string)

  function AvatarOf(src: Field<string>, name: Field<string>): (v: AvatarView)
    ensures v.Image? <==> src.Val? && src.value != ""
    ensures v.Image? ==> v.src == src.value
    ensures v.Initial? ==> v.text == AvatarInitial(name)
  {
    if src.Val? && src.value != "" then Image(src.value) else Initial(AvatarInitial(name))
  }

  /**
   * A card's avatar is blank only for a card without an image whose name is non-empty but all
   * white space; otherwise it is the image, the name's first visible character upper-cased, or "A".
   */
  lemma AvatarBlankIff(src: Field<string>, name: Field<string>)
    ensures var v := AvatarOf(src, name);
      && (v == Initial("") <==> !(src.Val? && src.value != "") && name.Val? && name.value != "" && AllSpace(name.value))
      && (v.Initial? && name.Val? && !AllSpace(name.value) ==>
            LeadLength(name.value) < |name.value| && v.text == [UpperChar(name.value[LeadLength(name.value)])])
      && (v.Initial? && (!name.Val? || name.value == "") ==> v.text == "A")
  {
    if name.Val? && !AllSpace(name.value) {
      InitialIsFirstVisibleChar(name.value);
    }
  }
}
