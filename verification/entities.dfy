/**
 * The typed event-argument records handed to listeners, and the two factories
 * (`UserFactory.Create`, `MessageFactory.Create`) that turn wire objects into
 * domain entities. The factories' code is not part of this model: they are
 * parameters, so every property proved here holds for any factory.
 */
module Entities {
  import opened Wrappers
  import opened V4

  /** The domain user and message entities, built only by the factories. */
  type User(==)
  type Message(==)

  /** `UserFactory.Create` and `MessageFactory.Create`; both receive the possibly-null wire object. */
  datatype Factories = Factories(
    createUser: Option<V4User> -> User,
    createMessage: Option<V4Message> -> Message)

  datatype LiteRoom = LiteRoom(streamId: Option<string>, roomName: Option<string>, external: Option<bool>)

  datatype RoomProperties = RoomProperties(
    copyProtected: Option<bool>,
    createdDate: Option<int>,
    creatorUser: User,
    description: Option<string>,
    discoverable: Option<bool>,
    external: Option<bool>,
    membersCanInvite: Option<bool>,
    name: Option<string>,
    isPublic: Option<bool>,
    readOnly: Option<bool>)

  datatype MessageEventArgs = MessageEventArgs(message: Message)
  datatype ConnectionRequestedEventArgs = ConnectionRequestedEventArgs(fromUser: User, toUser: User)
  datatype ConnectionAcceptedEventArgs = ConnectionAcceptedEventArgs(fromUser: User, toUser: User)

  /** `initiator` is `None` where the C# object holds null. */
  datatype UserJoinedRoomEventArgs = UserJoinedRoomEventArgs(initiator: Option<User>, userThatJoined: User, room: LiteRoom)
  datatype UserLeftRoomEventArgs = UserLeftRoomEventArgs(initiator: Option<User>, userThatLeft: User, room: LiteRoom)
  datatype RoomUpdatedEventArgs = RoomUpdatedEventArgs(initiator: Option<User>, newRoomProperties: RoomProperties, room: LiteRoom)
}
