/** The database rows the core reads and writes, and the outcome of a call
    into the gateway, which the model takes as an input. */
module Models {
  import opened Common

  /** The text form of a UUID primary key. */
  type Id = string

  datatype Agent = Agent(
    id: Id,
    name: string,
    status: string,
    boardId: Option<Id>,
    isBoardLead: bool,
    lastSeenAt: Option<int>,
    openclawSessionId: Option<string>,
    updatedAt: int)

  /** One entry of the append-only activity log. */
  datatype Activity = Activity(eventType: string, message: string, agentId: Option<Id>, createdAt: int)

  /** `url` is the empty string when the gateway has none. */
  datatype Gateway = Gateway(id: Id, organizationId: Id, url: string, token: Option<string>)

  datatype Board = Board(id: Id, organizationId: Id, gatewayId: Option<Id>)

  datatype Task = Task(
    id: Id,
    boardId: Id,
    title: string,
    description: string,
    status: string,
    assignedAgentId: Option<Id>,
    updatedAt: int)

  datatype Tag = Tag(
    id: Id,
    organizationId: Id,
    name: string,
    slug: string,
    color: string,
    description: string,
    updatedAt: int)

  /** A link between a task and a tag; the task column is nullable. */
  datatype TagAssignment = TagAssignment(taskId: Option<Id>, tagId: Id, createdAt: int)

  /** What one call into the gateway did: it returned a value, or it raised
      the gateway transport error carrying a message. */
  datatype GatewayReply<T> = Replied(result: T) | Raised(message: string)
}
