/**
 * What the slides panel shows (src/components/SlidePreview.tsx): the cards, the badge in its
 * header, which one body it renders, and the run switcher's labels.
 */
module SlidePreview {
  import opened Wrappers
  import opened JsText
  import opened Envelopes

  /** `slides?.slides ?? []`. */
  function Cards(slides: Option<Deck>): (cards: seq<Slide>)
    ensures slides.Some? && slides.value.slides.Val? ==> cards == slides.value.slides.value
    ensures slides.None? || !slides.value.slides.Val? ==> cards == []
  {
    if slides.Some? then slides.value.slides.Or([]) else []
  }

  datatype Badge = Preparing | SlideCount(text: string) | MarkdownBadge

  /** The badge at the right of the header. */
  function HeaderBadge(loading: bool, cards: seq<Slide>): Badge {
    if loading then Preparing
    else if |cards| > 0 then SlideCount(NatToString(|cards|) + " slide" + (if |cards| > 1 then "s" else ""))
    else MarkdownBadge
  }

  datatype Body = Skeletons | SlideCards(cards: seq<Slide>) | RawMarkdown(text: string) | EmptyPlaceholder

  /**
   * The panel's body: two skeleton cards while loading, else the slide cards if there are any,
   * else the raw markdown if it is non-empty, else the placeholder. Exactly one is chosen.
   */
  function BodyOf(loading: bool, cards: seq<Slide>, raw: Option<string>): (b: Body)
    ensures b.Skeletons? <==> loading
    ensures b.SlideCards? <==> !loading && |cards| > 0
    ensures b.RawMarkdown? <==> !loading && cards == [] && raw.Some? && raw.value != ""
    ensures b.EmptyPlaceholder? <==> !loading && cards == [] && (raw.None? || raw.value == "")
    ensures b.SlideCards? ==> b.cards == cards
    ensures b.RawMarkdown? ==> b.text == raw.value
  {
    if loading then Skeletons
    else if |cards| > 0 then SlideCards(cards)
    else if raw.Some? && raw.value != "" then RawMarkdown(raw.value)
    else EmptyPlaceholder
  }

  /**
   * The header never contradicts the body: "preparing…" exactly over the skeletons, a count
   * exactly over the cards (the number of cards, then " slide", with "s" only for more than one),
   * and "Markdown" over the raw text and over the placeholder alike.
   */
  lemma HeaderMatchesBody(loading: bool, cards: seq<Slide>, raw: Option<string>)
    ensures var h, b := HeaderBadge(loading, cards), BodyOf(loading, cards, raw);
      && (h.Preparing? <==> b.Skeletons?)
      && (h.SlideCount? <==> b.SlideCards?)
      && (h.MarkdownBadge? <==> b.RawMarkdown? || b.EmptyPlaceholder?)
      && (h.SlideCount? ==>
            var d := NatToString(|cards|);
            && h.text[..|d|] == d && DigitsValue(d) == |cards|
            && h.text[|d|..] == (if |cards| == 1 then " slide" else " slides"))
  {
    if HeaderBadge(loading, cards).SlideCount? {
      var d := NatToString(|cards|);
      var unit := if |cards| == 1 then " slide" else " slides";
      assert HeaderBadge(loading, cards).text == d + unit;
      assert (d + unit)[..|d|] == d && (d + unit)[|d|..] == unit;
    }
  }

  /** `"run-" + id.slice(-5)`. */
  function RunLabel(id: string): (tag: string)
    ensures |tag| == 4 + (if |id| < 5 then |id| else 5)
    ensures tag[..4] == "run-"
    ensures id == id[..|id| - (|tag| - 4)] + tag[4..]
  {
    "run-" + SliceLast(id, 5)
  }

  /** One button of the run switcher. */
  datatype RunButton = RunButton(id: string, active: bool)

  /** The switcher is drawn only when a non-empty list of runs is given. */
  function ShowSwitcher(runs: Option<seq<RunButton>>): (shown: bool)
    ensures shown <==> runs.Some? && |runs.value| > 0
  {
    runs.Some? && |runs.value| > 0
  }
}
