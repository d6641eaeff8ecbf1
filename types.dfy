/** The resource shapes the client exchanges with the REST collaborators (src/types/index.ts). */
module Types {
  import opened Wrappers

  /** An agent persona as the server returns it. */
  datatype Agent = Agent(
    botId: string,
    name: string,
    voiceId: Field<string>,
    prompt: Field<string>,
    avatar: Field<string>,
    createdAt: string)

  /** The body of a create or update request; also the edit form's state. */
  datatype AgentCreateRequest = AgentCreateRequest(
    name: string,
    voiceId: Field<string>,
    prompt: Field<string>,
    avatar: Field<string>)

  /**
   * `Partial<AgentCreateRequest>`: for each key, whether the patch carries it (Some) and then the
   * value it carries; a carried `Undefined` is a key present with the value `undefined`.
   */
  datatype FormPatch = FormPatch(
    name: Option<string>,
    voiceId: Option<Field<string>>,
    prompt: Option<Field<string>>,
    avatar: Option<Field<string>>)

  /** One page of the agent list; `nextCursor` may be missing or null on the last page. */
  datatype PaginatedAgents = PaginatedAgents(items: seq<Agent>, nextCursor: Field<string>)
}
