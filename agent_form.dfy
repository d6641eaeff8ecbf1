/**
 * The agent form (src/components/AgentForm.tsx): the one-key patch an input produces, the value
 * each input displays, and how the embedded avatar editor's window messages are routed.
 */
module AgentForm {
  import opened Wrappers
  import opened Types
  import AgentDetail

  /** The inputs of the form, by the key of `AgentCreateRequest` they edit. */
  datatype FormKey = NameKey | VoiceKey | AvatarKey | PromptKey

  /** `onChange(key)` for the input's new value `v`: an empty input is null for voice and avatar, "" otherwise. */
  function OnChangePatch(key: FormKey, v: string): (p: FormPatch)
    ensures p.name.Some? <==> key == NameKey
    ensures p.voiceId.Some? <==> key == VoiceKey
    ensures p.avatar.Some? <==> key == AvatarKey
    ensures p.prompt.Some? <==> key == PromptKey
    ensures key == NameKey ==> p.name.value == v
    ensures key == PromptKey ==> p.prompt.value == Val(v)
    ensures key == VoiceKey ==> p.voiceId.value == (if v == "" then Null else Val(v))
    ensures key == AvatarKey ==> p.avatar.value == (if v == "" then Null else Val(v))
  {
    var empty := if key == AvatarKey || key == VoiceKey then Null else Val("");
    var value := if |v| > 0 then Val(v) else empty;
    match key
    case NameKey => FormPatch(Some(value.Or("")), None, None, None)
    case VoiceKey => FormPatch(None, Some(value), None, None)
    case AvatarKey => FormPatch(None, None, None, Some(value))
    case PromptKey => FormPatch(None, None, Some(value), None)
  }

  /** What an input shows: voice and avatar show "" when nullish; a missing prompt shows as empty. */
  function Displayed(form: AgentCreateRequest, key: FormKey): string {
    match key
    case NameKey => form.name
    case VoiceKey => form.voiceId.Or("")
    case AvatarKey => form.avatar.Or("")
    case PromptKey => form.prompt.Or("")
  }

  /** An edit lands in its own input, unchanged (no trimming), and leaves the other inputs alone. */
  lemma {:induction false} EditShowsTyped(form: AgentCreateRequest, key: FormKey, v: string, other: FormKey)
    ensures Displayed(AgentDetail.Patch(form, OnChangePatch(key, v)), key) == v
    ensures other != key ==> Displayed(AgentDetail.Patch(form, OnChangePatch(key, v)), other) == Displayed(form, other)
  {
    var p := OnChangePatch(key, v);
    var f := AgentDetail.Patch(form, p);
    match key
    case NameKey =>
    case VoiceKey =>
    case AvatarKey =>
    case PromptKey =>
  }

  /**
   * Typing back what an input shows is not an edit, provided the voice and avatar do not hold
   * "": an empty voice or avatar shows as blank, and typing blank back stores null instead.
   */
  lemma RetypingIsClean(form: AgentCreateRequest, key: FormKey)
    requires form.voiceId != Val("") && form.avatar != Val("")
    ensures !AgentDetail.Dirty(Some(form), AgentDetail.Patch(form, OnChangePatch(key, Displayed(form, key))))
  {
  }

  /** The exception: an avatar held as "" turns into null when its blank input is retyped, which is an edit. */
  lemma RetypingBlankAvatarIsAnEdit(form: AgentCreateRequest)
    requires form.avatar == Val("")
    ensures AgentDetail.Dirty(Some(form), AgentDetail.Patch(form, OnChangePatch(AvatarKey, Displayed(form, AvatarKey))))
  {
  }

  /** The properties of a window message from the embedded editor that the handler reads. */
  datatype RpmData = RpmData(source: Field<string>, eventName: Field<string>, url: Field<string>)

  /** `event.data` after parsing: unparsable text, a falsy value, or an object. */
  datatype RpmInput = Unparsable | Falsy | Data(data: RpmData)

  /** What the handler does: post the subscribe request to the editor, or report an exported avatar. */
  datatype RpmAction = PostSubscribe | Exported(url: string)

  /** `onMessage(event)`; `frameAttached` is whether the iframe's window is there to post to. */
  function RpmReaction(input: RpmInput, frameAttached: bool): (acts: seq<RpmAction>)
    ensures |acts| <= 1
  {
    if !input.Data? then []
    else
      var d := input.data;
      if d.source != Val("readyplayerme") then []
      else
        var ready := if d.eventName == Val("v1.frame.ready") && frameAttached then [PostSubscribe] else [];
        var exported :=
          if d.eventName == Val("v1.avatar.exported") && d.url.Val? && d.url.value != "" then [Exported(d.url.value)] else [];
        ready + exported
  }

  /** Unparsable and falsy messages, and messages from any other source, are ignored. */
  lemma ForeignMessagesIgnored(input: RpmInput, frameAttached: bool)
    requires !input.Data? || input.data.source != Val("readyplayerme")
    ensures RpmReaction(input, frameAttached) == []
  {
  }

  /**
   * For a message from the editor: it subscribes exactly on the ready event with the frame
   * there, and reports exactly the exported events that carry a non-empty URL, with that URL.
   */
  lemma EditorMessages(d: RpmData, frameAttached: bool)
    requires d.source == Val("readyplayerme")
    ensures var acts := RpmReaction(Data(d), frameAttached);
      && (acts == [PostSubscribe] <==> d.eventName == Val("v1.frame.ready") && frameAttached)
      && ((exists u :: acts == [Exported(u)]) <==>
            d.eventName == Val("v1.avatar.exported") && d.url.Val? && d.url.value != "")
      && (acts != [] ==> acts == [PostSubscribe] || acts == [Exported(d.url.value)])
  {
    var acts := RpmReaction(Data(d), frameAttached);
    if d.eventName == Val("v1.avatar.exported") && d.url.Val? && d.url.value != "" {
      assert "v1.avatar.exported" != "v1.frame.ready" by {
        assert "v1.avatar.exported"[3] != "v1.frame.ready"[3];
      }
      assert acts == [Exported(d.url.value)];
    }
  }

  /** An export reaches the page as an avatar patch and a preview of the URL the message carried. */
  lemma ExportReachesPage(p: AgentDetail.DetailPage, d: RpmData, frameAttached: bool, url: string)
    requires RpmReaction(Data(d), frameAttached) == [Exported(url)]
    ensures d.url == Val(url) && url != ""
    ensures var q := AgentDetail.AvatarExported(p, url);
      && q.form.avatar == Val(url) && q.previewUrl == Some(url)
      && q.form.name == p.form.name && q.form.voiceId == p.form.voiceId && q.form.prompt == p.form.prompt
  {
    EditorMessages(d, frameAttached);
    assert RpmReaction(Data(d), frameAttached)[0] == Exported(url);
  }
}
