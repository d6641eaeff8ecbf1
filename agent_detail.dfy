/**
 * The agent edit page (src/pages/AgentDetailPage.tsx): the form built from a stored agent, the
 * `dirty` test that enables Save, the partial `patch`, and the page state after loading, saving,
 * reloading the preview and an avatar export. Each transition is a function from the page state
 * and the collaborator's answer to the next page state, because the page only ever replaces whole
 * state values.
 */
module AgentDetail {
  import opened Wrappers
  import opened Types

  /**
   * The form in canonical shape: the comparisons of `dirty` treat a missing voice or avatar as
   * null and a missing prompt as "", so two forms with the same canonical shape are the same edit.
   */
  function Canon(f: AgentCreateRequest): AgentCreateRequest {
    AgentCreateRequest(f.name, f.voiceId.OrNull(), Val(f.prompt.Or("")), f.avatar.OrNull())
  }

  /** Canonical forms carry no `undefined` and always carry a prompt. */
  predicate IsCanonical(f: AgentCreateRequest) {
    !f.voiceId.Undefined? && f.prompt.Val? && !f.avatar.Undefined?
  }

  lemma CanonIsCanonical(f: AgentCreateRequest)
    ensures IsCanonical(Canon(f))
    ensures IsCanonical(f) <==> Canon(f) == f
    ensures Canon(Canon(f)) == Canon(f)
  {
  }

  /** The form built from a stored agent (after a load and after a save). */
  function FormOf(a: Agent): (f: AgentCreateRequest)
    ensures IsCanonical(f)
    ensures f == Canon(AgentCreateRequest(a.name, a.voiceId, a.prompt, a.avatar))
  {
    AgentCreateRequest(a.name, a.voiceId.OrNull(), Val(a.prompt.Or("")), a.avatar.OrNull())
  }

  /** `dirty`: no baseline means nothing to save; otherwise any of the four compared keys differs. */
  function Dirty(initial: Option<AgentCreateRequest>, form: AgentCreateRequest): (d: bool)
    ensures initial.None? ==> !d
    ensures initial.Some? ==> (d <==> Canon(initial.value) != Canon(form))
  {
    if initial.None? then false
    else
      var i := initial.value;
      i.name != form.name
      || i.voiceId.OrNull() != form.voiceId.OrNull()
      || i.prompt.Or("") != form.prompt.Or("")
      || i.avatar.OrNull() != form.avatar.OrNull()
  }

  /** Being clean is an equivalence: reflexive, symmetric and transitive over forms. */
  lemma CleanIsEquivalence(a: AgentCreateRequest, b: AgentCreateRequest, c: AgentCreateRequest)
    ensures !Dirty(Some(a), a)
    ensures Dirty(Some(a), b) == Dirty(Some(b), a)
    ensures !Dirty(Some(a), b) && !Dirty(Some(b), c) ==> !Dirty(Some(a), c)
  {
  }

  /** A missing voice or avatar and a null one, and a missing prompt and "", are not edits. */
  lemma NullishIsNotAnEdit(f: AgentCreateRequest)
    ensures !Dirty(Some(f), f.(voiceId := if f.voiceId.Val? then f.voiceId else Undefined))
    ensures !Dirty(Some(f), f.(voiceId := if f.voiceId.Val? then f.voiceId else Null))
    ensures !Dirty(Some(f), f.(avatar := if f.avatar.Val? then f.avatar else Undefined))
    ensures !Dirty(Some(f), f.(prompt := if f.prompt.Val? && f.prompt.value != "" then f.prompt else Undefined))
  {
  }

  /** `patch(p)`: `{ ...prev, ...p }`. */
  function Patch(form: AgentCreateRequest, p: FormPatch): (r: AgentCreateRequest)
    ensures r.name == (if p.name.Some? then p.name.value else form.name)
    ensures r.voiceId == (if p.voiceId.Some? then p.voiceId.value else form.voiceId)
    ensures r.prompt == (if p.prompt.Some? then p.prompt.value else form.prompt)
    ensures r.avatar == (if p.avatar.Some? then p.avatar.value else form.avatar)
  {
    AgentCreateRequest(
      if p.name.Some? then p.name.value else form.name,
      if p.voiceId.Some? then p.voiceId.value else form.voiceId,
      if p.prompt.Some? then p.prompt.value else form.prompt,
      if p.avatar.Some? then p.avatar.value else form.avatar)
  }

  /** The patch with no keys. */
  const NoKeys: FormPatch := FormPatch(None, None, None, None)

  /** `{ ...p, ...q }`: the keys of `q` win over those of `p`. */
  function Merge(p: FormPatch, q: FormPatch): FormPatch {
    FormPatch(
      if q.name.Some? then q.name else p.name,
      if q.voiceId.Some? then q.voiceId else p.voiceId,
      if q.prompt.Some? then q.prompt else p.prompt,
      if q.avatar.Some? then q.avatar else p.avatar)
  }

  /** Two patches in a row act as their merge, and the empty patch changes nothing. */
  lemma PatchComposes(form: AgentCreateRequest, p: FormPatch, q: FormPatch)
    ensures Patch(Patch(form, p), q) == Patch(form, Merge(p, q))
    ensures Patch(form, NoKeys) == form
  {
  }

  /** What `getAgent` and `updateAgent` answer: the agent, or a failure with `e?.message` ("" if none). */
  datatype Reply = Fetched(agent: Agent) | FetchFailed(message: string)

  /** `e?.message || fallback`. */
  function FailureText(message: string, fallback: string): string {
    if message != "" then message else fallback
  }

  /** `ui`: saving, the error shown, and when the last save finished. */
  datatype Ui = Ui(saving: bool, error: Option<string>, savedAt: Option<int>)

  /** The page's state. `previewUrl` is what the avatar preview shows. */
  datatype DetailPage = DetailPage(
    agent: Option<Agent>,
    form: AgentCreateRequest,
    initial: Option<AgentCreateRequest>,
    previewUrl: Option<string>,
    ui: Ui)

  /** `x ?? null` for a value that is then held as `string | null`. */
  function NullishToOption(x: Field<string>): (o: Option<string>)
    ensures o.Some? <==> x.Val?
    ensures o.Some? ==> o.value == x.value
  {
    if x.Val? then Some(x.value) else None
  }

  /** The state on mount. */
  function Mounted(): (p: DetailPage)
    ensures p.agent.None? && p.initial.None? && !Dirty(p.initial, p.form)
  {
    DetailPage(None, AgentCreateRequest("", Null, Val(""), Null), None, None, Ui(false, None, None))
  }

  /** The fetch on mount: the agent and its form, or the load error with the rest kept. */
  function Loaded(p: DetailPage, reply: Reply): DetailPage {
    match reply
    case Fetched(a) =>
      var f := FormOf(a);
      p.(agent := Some(a), form := f, initial := Some(f), previewUrl := NullishToOption(f.avatar))
    case FetchFailed(message) =>
      p.(ui := p.ui.(error := Some(FailureText(message, "Failed to load agent"))))
  }

  /** An edit of the form. */
  function Patched(p: DetailPage, patch: FormPatch): DetailPage {
    p.(form := Patch(p.form, patch))
  }

  /** `setUi({ saving: true, error: null })` at the start of `save`; the body sent is `p.form`. */
  function SaveStarted(p: DetailPage): DetailPage {
    p.(ui := Ui(true, None, None))
  }

  /** The end of `save`, `now` standing for `Date.now()`. */
  function Saved(p: DetailPage, reply: Reply, now: int): DetailPage {
    match reply
    case Fetched(a) =>
      var f := FormOf(a);
      DetailPage(Some(a), f, Some(f), NullishToOption(f.avatar), Ui(false, None, Some(now)))
    case FetchFailed(message) =>
      p.(ui := Ui(false, Some(FailureText(message, "Failed to save")), None))
  }

  /** The Reload button: the preview follows the avatar field. */
  function PreviewReloaded(p: DetailPage): DetailPage {
    p.(previewUrl := NullishToOption(p.form.avatar))
  }

  /** An avatar exported from the embedded editor: the field is patched and the preview follows. */
  function AvatarExported(p: DetailPage, url: string): DetailPage {
    Patched(p, FormPatch(None, None, None, Some(Val(url)))).(previewUrl := Some(url))
  }

  /** `ui.saving || !dirty`. */
  function SaveDisabled(p: DetailPage): bool {
    p.ui.saving || !Dirty(p.initial, p.form)
  }

  /** The banner under the action bar. */
  datatype Banner = NoBanner | ErrorBanner(text: string) | SavedBanner(at: int)

  /** The error wins; the "Saved at" line shows only without an error and with a non-zero time. */
  function BannerOf(ui: Ui): (b: Banner)
    ensures b.ErrorBanner? <==> ui.error.Some? && ui.error.value != ""
    ensures b.SavedBanner? <==> !(ui.error.Some? && ui.error.value != "") && ui.savedAt.Some? && ui.savedAt.value != 0
  {
    if ui.error.Some? && ui.error.value != "" then ErrorBanner(ui.error.value)
    else if ui.savedAt.Some? && ui.savedAt.value != 0 then SavedBanner(ui.savedAt.value)
    else NoBanner
  }

  /** The form after a sequence of patches, in order. */
  function PatchAll(form: AgentCreateRequest, patches: seq<FormPatch>): AgentCreateRequest
    decreases |patches|
  {
    if patches == [] then form else PatchAll(Patch(form, patches[0]), patches[1..])
  }

  /** Before a load succeeds there is nothing to save, whatever is typed. */
  lemma NothingToSaveBeforeLoad(patches: seq<FormPatch>)
    ensures !Dirty(Mounted().initial, PatchAll(Mounted().form, patches))
    ensures SaveDisabled(Mounted().(form := PatchAll(Mounted().form, patches)))
  {
  }

  /** A successful load leaves a clean form that matches the agent, with Save disabled. */
  lemma LoadIsClean(p: DetailPage, a: Agent)
    ensures var q := Loaded(p, Fetched(a));
      && !Dirty(q.initial, q.form) && SaveDisabled(q)
      && q.form.name == a.name && q.agent == Some(a)
      && q.previewUrl == NullishToOption(a.avatar)
  {
  }

  /**
   * A successful save adopts the server's answer as both form and baseline, so the page is clean,
   * Save is disabled, no error is shown and the saved time is shown.
   */
  lemma SaveIsClean(p: DetailPage, a: Agent, now: int)
    requires now != 0
    ensures var q := Saved(SaveStarted(p), Fetched(a), now);
      && !Dirty(q.initial, q.form) && SaveDisabled(q)
      && BannerOf(q.ui) == SavedBanner(now)
      && q.form == FormOf(a)
  {
  }

  /** A failed save keeps the edits, so Save is enabled again exactly when it was before, and shows the error. */
  lemma FailedSaveKeepsEdits(p: DetailPage, message: string, now: int)
    ensures var q := Saved(SaveStarted(p), FetchFailed(message), now);
      && q.form == p.form && q.initial == p.initial && q.agent == p.agent
      && (SaveDisabled(q) <==> !Dirty(p.initial, p.form))
      && BannerOf(q.ui) == ErrorBanner(if message != "" then message else "Failed to save")
  {
  }

  /** While a save is in flight the button stays disabled. */
  lemma DisabledWhileSaving(p: DetailPage, patches: seq<FormPatch>)
    ensures SaveDisabled(SaveStarted(p).(form := PatchAll(p.form, patches)))
  {
  }

  /** Editing a loaded form and typing the old values back makes it clean again. */
  lemma {:induction false} RevertIsClean(p: DetailPage, a: Agent, edit: FormPatch)
    ensures var q := Loaded(p, Fetched(a));
      var undo := FormPatch(Some(q.form.name), Some(q.form.voiceId), Some(q.form.prompt), Some(q.form.avatar));
      !Dirty(q.initial, Patched(Patched(q, edit), undo).form)
  {
  }

  /**
   * An export makes the form dirty exactly when the exported URL is not already the avatar, and
   * puts the URL in the preview whether or not it does.
   */
  lemma ExportDirtiesOnlyOnChange(p: DetailPage, url: string)
    requires p.initial.Some? && !Dirty(p.initial, p.form)
    ensures var q := AvatarExported(p, url);
      && q.previewUrl == Some(url)
      && (Dirty(q.initial, q.form) <==> p.form.avatar.OrNull() != Val(url))
  {
  }

  /** Reload shows exactly the avatar the form holds. */
  lemma ReloadFollowsField(p: DetailPage)
    ensures var q := PreviewReloaded(p);
      && (q.previewUrl.Some? <==> p.form.avatar.Val?)
      && (q.previewUrl.Some? ==> q.previewUrl.value == p.form.avatar.value)
      && q.form == p.form && !Dirty(p.initial, p.form) == !Dirty(q.initial, q.form)
  {
  }
}
