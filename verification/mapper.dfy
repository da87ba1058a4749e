/**
 * `Mapper`: the static functions that decode a wire event into the typed
 * argument record for its kind. Each one only copies fields; a member access
 * through a null reference raises `NullReference`, modelled as `Failure`.
 */
module Mapper {
  import opened Wrappers
  import opened V4
  import opened Entities

  /** `new LiteRoom(s.StreamId, s.RoomName, s.External)`, where reading through a null stream raises. */
  function RoomOf(s: Option<V4Stream>): Result<LiteRoom, Fault>
  {
    match s
    case None => Failure(NullReference)
    case Some(st) => Success(LiteRoom(st.streamId, st.roomName, st.external))
  }

  /** `message.Initiator?.User == null ? null : UserFactory.Create(message.Initiator.User)`. */
  function OptionalInitiator(f: Factories, e: V4Event): Option<User>
  {
    match InitiatorUser(e)
    case None => None
    case Some(u) => Some(f.createUser(Some(u)))
  }

  /** True when `e.Initiator?.User` is null. */
  predicate NoInitiatorUser(e: V4Event)
  {
    e.initiator.None? || e.initiator.value.user.None?
  }

  function ToMessage(f: Factories, e: V4Event): (r: Result<MessageEventArgs, Fault>)
    ensures r.Success? <==> e.payload.Some? && e.payload.value.messageSent.Some?
    ensures r.Success? ==> r.value.message == f.createMessage(e.payload.value.messageSent.value.message)
  {
    match e.payload
    case None => Failure(NullReference)
    case Some(p) =>
      match p.messageSent
      case None => Failure(NullReference)
      case Some(ms) => Success(MessageEventArgs(f.createMessage(ms.message)))
  }

  function ToConnectionRequested(f: Factories, e: V4Event): (r: Result<ConnectionRequestedEventArgs, Fault>)
    ensures r.Success? <==> e.initiator.Some? && e.payload.Some? && e.payload.value.connectionRequested.Some?
    ensures r.Success? ==> r.value.fromUser == f.createUser(e.initiator.value.user)
    ensures r.Success? ==> r.value.toUser == f.createUser(e.payload.value.connectionRequested.value.toUser)
  {
    match e.initiator
    case None => Failure(NullReference)
    case Some(i) =>
      var fromUser := f.createUser(i.user);
      match e.payload
      case None => Failure(NullReference)
      case Some(p) =>
        match p.connectionRequested
        case None => Failure(NullReference)
        case Some(cr) => Success(ConnectionRequestedEventArgs(fromUser, f.createUser(cr.toUser)))
  }

  function ToConnectionAccepted(f: Factories, e: V4Event): (r: Result<ConnectionAcceptedEventArgs, Fault>)
    ensures r.Success? <==> e.initiator.Some? && e.payload.Some? && e.payload.value.connectionAccepted.Some?
    ensures r.Success? ==> r.value.toUser == f.createUser(e.initiator.value.user)
    ensures r.Success? ==> r.value.fromUser == f.createUser(e.payload.value.connectionAccepted.value.fromUser)
  {
    match e.initiator
    case None => Failure(NullReference)
    case Some(i) =>
      var toUser := f.createUser(i.user);
      match e.payload
      case None => Failure(NullReference)
      case Some(p) =>
        match p.connectionAccepted
        case None => Failure(NullReference)
        case Some(ca) => Success(ConnectionAcceptedEventArgs(f.createUser(ca.fromUser), toUser))
  }

  function ToUserJoinedRoom(f: Factories, e: V4Event): (r: Result<UserJoinedRoomEventArgs, Fault>)
    ensures r.Success? <==>
      e.payload.Some? && e.payload.value.userJoinedRoom.Some? && e.payload.value.userJoinedRoom.value.stream.Some?
    ensures r.Success? ==> (r.value.initiator.None? <==> NoInitiatorUser(e))
    ensures r.Success? && !NoInitiatorUser(e) ==> r.value.initiator == Some(f.createUser(e.initiator.value.user))
    ensures r.Success? ==> r.value.userThatJoined == f.createUser(e.payload.value.userJoinedRoom.value.affectedUser)
    ensures r.Success? ==>
      var s := e.payload.value.userJoinedRoom.value.stream.value;
      r.value.room.streamId == s.streamId && r.value.room.roomName == s.roomName && r.value.room.external == s.external
  {
    var initiator := OptionalInitiator(f, e);
    match e.payload
    case None => Failure(NullReference)
    case Some(p) =>
      match p.userJoinedRoom
      case None => Failure(NullReference)
      case Some(uj) =>
        var userThatJoined := f.createUser(uj.affectedUser);
        match RoomOf(uj.stream)
        case Failure(err) => Failure(err)
        case Success(room) => Success(UserJoinedRoomEventArgs(initiator, userThatJoined, room))
  }

  function ToUserLeftRoom(f: Factories, e: V4Event): (r: Result<UserLeftRoomEventArgs, Fault>)
    ensures r.Success? <==>
      e.payload.Some? && e.payload.value.userLeftRoom.Some? && e.payload.value.userLeftRoom.value.stream.Some?
    ensures r.Success? ==> (r.value.initiator.None? <==> NoInitiatorUser(e))
    ensures r.Success? && !NoInitiatorUser(e) ==> r.value.initiator == Some(f.createUser(e.initiator.value.user))
    ensures r.Success? ==> r.value.userThatLeft == f.createUser(e.payload.value.userLeftRoom.value.affectedUser)
    ensures r.Success? ==>
      var s := e.payload.value.userLeftRoom.value.stream.value;
      r.value.room.streamId == s.streamId && r.value.room.roomName == s.roomName && r.value.room.external == s.external
  {
    var initiator := OptionalInitiator(f, e);
    match e.payload
    case None => Failure(NullReference)
    case Some(p) =>
      match p.userLeftRoom
      case None => Failure(NullReference)
      case Some(ul) =>
        var userThatLeft := f.createUser(ul.affectedUser);
        match RoomOf(ul.stream)
        case Failure(err) => Failure(err)
        case Success(room) => Success(UserLeftRoomEventArgs(initiator, userThatLeft, room))
  }

  function ToRoomProperties(f: Factories, p: Option<V4RoomProperties>): (r: Result<RoomProperties, Fault>)
    ensures r.Success? <==> p.Some?
    ensures r.Success? ==>
      && r.value.copyProtected == p.value.copyProtected
      && r.value.createdDate == p.value.createdDate
      && r.value.description == p.value.description
      && r.value.discoverable == p.value.discoverable
      && r.value.external == p.value.external
      && r.value.membersCanInvite == p.value.membersCanInvite
      && r.value.name == p.value.name
      && r.value.isPublic == p.value.isPublic
      && r.value.readOnly == p.value.readOnly
    ensures r.Success? ==> r.value.creatorUser == f.createUser(p.value.creatorUser)
  {
    match p
    case None => Failure(NullReference)
    case Some(rp) =>
      Success(RoomProperties(
        copyProtected := rp.copyProtected,
        createdDate := rp.createdDate,
        creatorUser := f.createUser(rp.creatorUser),
        description := rp.description,
        discoverable := rp.discoverable,
        external := rp.external,
        membersCanInvite := rp.membersCanInvite,
        name := rp.name,
        isPublic := rp.isPublic,
        readOnly := rp.readOnly))
  }

  function ToRoomUpdated(f: Factories, e: V4Event): (r: Result<RoomUpdatedEventArgs, Fault>)
    ensures r.Success? <==>
      && e.payload.Some? && e.payload.value.roomUpdated.Some?
      && e.payload.value.roomUpdated.value.newRoomProperties.Some?
      && e.payload.value.roomUpdated.value.stream.Some?
    ensures r.Success? ==> (r.value.initiator.None? <==> NoInitiatorUser(e))
    ensures r.Success? && !NoInitiatorUser(e) ==> r.value.initiator == Some(f.createUser(e.initiator.value.user))
    ensures r.Success? ==>
      Success(r.value.newRoomProperties) == ToRoomProperties(f, e.payload.value.roomUpdated.value.newRoomProperties)
    ensures r.Success? ==>
      var s := e.payload.value.roomUpdated.value.stream.value;
      r.value.room.streamId == s.streamId && r.value.room.roomName == s.roomName && r.value.room.external == s.external
  {
    var initiator := OptionalInitiator(f, e);
    match e.payload
    case None => Failure(NullReference)
    case Some(p) =>
      match p.roomUpdated
      case None => Failure(NullReference)
      case Some(ru) =>
        match ToRoomProperties(f, ru.newRoomProperties)
        case Failure(err) => Failure(err)
        case Success(props) =>
          match RoomOf(ru.stream)
          case Failure(err) => Failure(err)
          case Success(room) => Success(RoomUpdatedEventArgs(initiator, props, room))
  }

  /**
   * A connection request and the matching acceptance name the same two people
   * with their roles swapped: the initiator is the requester in one and the
   * accepted party in the other.
   */
  lemma ConnectionRolesReversed(f: Factories, req: V4Event, acc: V4Event)
    requires ToConnectionRequested(f, req).Success? && ToConnectionAccepted(f, acc).Success?
    requires req.initiator.value.user == acc.payload.value.connectionAccepted.value.fromUser
    requires acc.initiator.value.user == req.payload.value.connectionRequested.value.toUser
    ensures ToConnectionRequested(f, req).value.fromUser == ToConnectionAccepted(f, acc).value.fromUser
    ensures ToConnectionRequested(f, req).value.toUser == ToConnectionAccepted(f, acc).value.toUser
  {
  }
}
