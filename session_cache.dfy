/**
 * The per-agent session id kept in browser storage under `session_id:<botId>`, and the three
 * operations on it: `ensureSession`, `createSessionOnBackend` and the cache part of `doReset`.
 * Storage is a map from key to value; the backend's reply is a parameter.
 */
module SessionCache {
  import opened Wrappers

  const Prefix: string := "session_id:"

  /** `getSessionKey(botId)`. */
  function SessionKey(botId: string): (k: string)
    ensures |k| == |Prefix| + |botId|
    ensures k[..|Prefix|] == Prefix && k[|Prefix|..] == botId
  {
    Prefix + botId
  }

  /** Different agents never share a storage key. */
  lemma SessionKeyInjective(a: string, b: string)
    ensures SessionKey(a) == SessionKey(b) ==> a == b
  {
    if SessionKey(a) == SessionKey(b) {
      calc {
        a;
        SessionKey(a)[|Prefix|..];
        SessionKey(b)[|Prefix|..];
        b;
      }
    }
  }

  /** `readCachedSessionId(botId)`: `getItem` gives null when the key is absent. */
  function ReadCached(cache: map<string, string>, botId: string): Option<string> {
    if SessionKey(botId) in cache then Some(cache[SessionKey(botId)]) else None
  }

  /**
   * The outcome of one of the operations: the id it returns (None when it throws), the storage
   * afterwards, and whether it posted to the session-create endpoint.
   */
  datatype Outcome = Outcome(id: Option<string>, cache: map<string, string>, posted: bool)

  /**
   * `createSessionOnBackend()`. `reply` is the `session_id` of the server's answer: None when the
   * request failed or the field is missing or null. A missing or empty id throws before anything
   * is written.
   */
  function Create(cache: map<string, string>, botId: string, reply: Option<string>): Outcome {
    if reply.Some? && reply.value != "" then
      Outcome(reply, cache[SessionKey(botId) := reply.value], true)
    else
      Outcome(None, cache, true)
  }

  /** `ensureSession()`: a cached id is reused unless it is empty; otherwise one is created. */
  function Ensure(cache: map<string, string>, botId: string, reply: Option<string>): Outcome {
    var cached := ReadCached(cache, botId);
    if cached.Some? && cached.value != "" then Outcome(cached, cache, false)
    else Create(cache, botId, reply)
  }

  /** The cache part of `doReset()`: the entry is removed first, then a new session is created. */
  function Reset(cache: map<string, string>, botId: string, reply: Option<string>): Outcome {
    Create(cache - {SessionKey(botId)}, botId, reply)
  }

  /** A non-empty cached id is returned as it is, without asking the server. */
  lemma EnsureReusesCached(cache: map<string, string>, botId: string, reply: Option<string>)
    requires SessionKey(botId) in cache && cache[SessionKey(botId)] != ""
    ensures Ensure(cache, botId, reply) == Outcome(Some(cache[SessionKey(botId)]), cache, false)
  {
  }

  /**
   * With no usable cached id, `ensureSession` posts once; on a valid reply it returns that id and
   * caches it under the agent's key, leaving every other key alone; otherwise it throws and
   * storage is unchanged.
   */
  lemma EnsureCreatesWhenMissing(cache: map<string, string>, botId: string, reply: Option<string>)
    requires ReadCached(cache, botId) in {None, Some("")}
    ensures var o := Ensure(cache, botId, reply);
      && o.posted
      && (o.id.Some? <==> reply.Some? && reply.value != "")
      && (o.id.Some? ==> o.id == reply && ReadCached(o.cache, botId) == reply)
      && (o.id.None? ==> o.cache == cache)
      && (forall k :: k != SessionKey(botId) ==> (k in o.cache <==> k in cache))
      && (forall k :: k != SessionKey(botId) && k in cache ==> o.cache[k] == cache[k])
  {
  }

  /** Once `ensureSession` has produced an id, the next call returns the same id without posting. */
  lemma EnsureIsStable(cache: map<string, string>, botId: string, r1: Option<string>, r2: Option<string>)
    requires Ensure(cache, botId, r1).id.Some?
    ensures var o1 := Ensure(cache, botId, r1);
      var o2 := Ensure(o1.cache, botId, r2);
      o2.id == o1.id && !o2.posted && o2.cache == o1.cache
  {
  }

  /**
   * `doReset` never reuses the cached id: it always posts, and afterwards the agent's key holds the
   * new id, or nothing at all when creation failed. Other agents' entries are untouched.
   */
  lemma ResetAlwaysCreates(cache: map<string, string>, botId: string, other: string, reply: Option<string>)
    requires other != botId
    ensures var o := Reset(cache, botId, reply);
      && o.posted
      && (o.id.Some? ==> ReadCached(o.cache, botId) == o.id && o.id == reply)
      && (o.id.None? ==> ReadCached(o.cache, botId) == None)
      && ReadCached(o.cache, other) == ReadCached(cache, other)
  {
    SessionKeyInjective(botId, other);
  }
}
