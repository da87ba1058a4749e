/**
 * The wire-level event objects that the agent's datafeed returns (the generated
 * `V4*` classes). Every reference-typed property may be null, so each one is an
 * `Option`; value-typed nullable properties (`long?`, `bool?`) are `Option` too.
 */
module V4 {
  import opened Wrappers

  /** The exceptions raised by the code this project models. */
  datatype Fault =
    | NullReference   // a member access through a null reference
    | ArgumentNull    // a framework call that refuses a null argument

  /**
   * The event kinds. The six the core names are listed; the remaining members of
   * the generated enumeration are collapsed into `OtherKind`.
   */
  datatype V4EventType =
    | MESSAGESENT
    | CONNECTIONREQUESTED
    | CONNECTIONACCEPTED
    | USERJOINEDROOM
    | USERLEFTROOM
    | ROOMUPDATED
    | OtherKind(name: string)

  datatype V4User = V4User(userId: Option<int>, displayName: Option<string>)

  datatype V4Stream = V4Stream(streamId: Option<string>, roomName: Option<string>, external: Option<bool>)

  datatype V4Message = V4Message(
    messageId: Option<string>,
    message: Option<string>,
    user: Option<V4User>,
    stream: Option<V4Stream>)

  datatype V4Initiator = V4Initiator(user: Option<V4User>)

  datatype V4MessageSent = V4MessageSent(message: Option<V4Message>)
  datatype V4ConnectionRequested = V4ConnectionRequested(toUser: Option<V4User>)
  datatype V4ConnectionAccepted = V4ConnectionAccepted(fromUser: Option<V4User>)
  datatype V4UserJoinedRoom = V4UserJoinedRoom(stream: Option<V4Stream>, affectedUser: Option<V4User>)
  datatype V4UserLeftRoom = V4UserLeftRoom(stream: Option<V4Stream>, affectedUser: Option<V4User>)

  datatype V4RoomProperties = V4RoomProperties(
    copyProtected: Option<bool>,
    createdDate: Option<int>,
    creatorUser: Option<V4User>,
    description: Option<string>,
    discoverable: Option<bool>,
    external: Option<bool>,
    membersCanInvite: Option<bool>,
    name: Option<string>,
    isPublic: Option<bool>,
    readOnly: Option<bool>)

  datatype V4RoomUpdated = V4RoomUpdated(stream: Option<V4Stream>, newRoomProperties: Option<V4RoomProperties>)

  /** One payload object; only the member matching the event's kind is normally set. */
  datatype V4Payload = V4Payload(
    messageSent: Option<V4MessageSent>,
    connectionRequested: Option<V4ConnectionRequested>,
    connectionAccepted: Option<V4ConnectionAccepted>,
    userJoinedRoom: Option<V4UserJoinedRoom>,
    userLeftRoom: Option<V4UserLeftRoom>,
    roomUpdated: Option<V4RoomUpdated>)

  datatype V4Event = V4Event(
    eventType: Option<V4EventType>,
    initiator: Option<V4Initiator>,
    payload: Option<V4Payload>)

  /** `e.Initiator?.User`: null when either the initiator or its user is null. */
  function InitiatorUser(e: V4Event): Option<V4User>
  {
    match e.initiator
    case None => None
    case Some(i) => i.user
  }
}
