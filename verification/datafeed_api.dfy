/**
 * `AbstractDatafeedApi`: the listener tables, the kind-to-action table and the
 * processing of one batch of wire events. The two tables the source changes in
 * place are fields of the class; tasks are the invocation log of `Dispatch`.
 */
module DatafeedApi {
  import opened Wrappers
  import opened V4
  import opened Entities
  import opened Dispatch
  import Mapper

  /** The handler table: the invocation list stored under each key; a missing key is a null delegate. */
  type HandlerTable = map<Slot, seq<Handler>>

  function Delegates(table: HandlerTable, slot: Slot): seq<Handler>
  {
    if slot in table then table[slot] else []
  }

  /**
   * `Delegate.Remove`: drops the last occurrence of `h` from the invocation
   * list, and leaves the list as it is when `h` is not in it.
   */
  function RemoveLast(s: seq<Handler>, h: Handler): (r: seq<Handler>)
    ensures h !in s ==> r == s
    ensures h in s ==> |r| == |s| - 1
    ensures multiset(r) == multiset(s) - multiset{h}
    ensures forall x :: x != h ==> multiset(r)[x] == multiset(s)[x]
    ensures h in s ==> exists j :: 0 <= j <= |r| && s == r[..j] + [h] + r[j..] && h !in r[j..]
    ensures forall g :: g in r ==> g in s
  {
    match LastIn(s, h)
    case None => s
    case Some(j) =>
      LastInIsLast(s, h);
      assert s == s[..j] + [s[j]] + s[j + 1..];
      var r := s[..j] + s[j + 1..];
      assert r[..j] == s[..j] && r[j..] == s[j + 1..];
      assert h !in r[j..] by {
        forall k | 0 <= k < |r[j..]| ensures r[j..][k] != h {
          assert r[j..][k] == s[j + 1 + k];
        }
      }
      r
  }

  /** The `whatToDo` table: which key's listeners an event kind is fired to. */
  function WhatToDo(t: V4EventType): (r: Option<Slot>)
    ensures r.Some? <==> t == MESSAGESENT || t == CONNECTIONREQUESTED || t == CONNECTIONACCEPTED || t == USERJOINEDROOM
  {
    match t
    case MESSAGESENT => Some(OnMessage)
    case CONNECTIONREQUESTED => Some(OnConnectionRequested)
    case CONNECTIONACCEPTED => Some(OnConnectionAccepted)
    case USERJOINEDROOM => Some(OnUserJoinedRoom)
    case _ => None
  }

  /** The mapper each entry of `whatToDo` passes to `Fire`, with its result wrapped as `EventArgs`. */
  function MapFor(f: Factories, slot: Slot, e: V4Event): (r: Result<EventArgs, Fault>)
    ensures r.Success? ==> KindOf(r.value) == slot
    ensures r.Failure? <==>
      match slot
      case OnMessage => Mapper.ToMessage(f, e).Failure?
      case OnConnectionRequested => Mapper.ToConnectionRequested(f, e).Failure?
      case OnConnectionAccepted => Mapper.ToConnectionAccepted(f, e).Failure?
      case OnUserJoinedRoom => Mapper.ToUserJoinedRoom(f, e).Failure?
  {
    match slot
    case OnMessage =>
      (match Mapper.ToMessage(f, e)
       case Success(a) => Success(MessageArgs(a))
       case Failure(err) => Failure(err))
    case OnConnectionRequested =>
      (match Mapper.ToConnectionRequested(f, e)
       case Success(a) => Success(ConnectionRequestedArgs(a))
       case Failure(err) => Failure(err))
    case OnConnectionAccepted =>
      (match Mapper.ToConnectionAccepted(f, e)
       case Success(a) => Success(ConnectionAcceptedArgs(a))
       case Failure(err) => Failure(err))
    case OnUserJoinedRoom =>
      (match Mapper.ToUserJoinedRoom(f, e)
       case Success(a) => Success(UserJoinedRoomArgs(a))
       case Failure(err) => Failure(err))
  }

  /** The key an event is fired to: none for a null event, an event without a type, or an unlisted kind. */
  function SlotOf(e: Option<V4Event>): Option<Slot>
  {
    match e
    case None => None
    case Some(ev) =>
      match ev.eventType
      case None => None
      case Some(t) => WhatToDo(t)
  }

  /**
   * One iteration of `ProcessMessageList`: skip, or map the event and schedule
   * one invocation per listener under its key. A mapper that raises stops
   * before anything is scheduled.
   */
  function EventStep(f: Factories, table: HandlerTable, l: Ledger, e: Option<V4Event>): (Ledger, Outcome<Fault>)
  {
    match SlotOf(e)
    case None => (l, Pass)
    case Some(slot) => FireStep(f, table, l, e.value, slot)
  }

  /** `Fire`: map the event for `slot`, then schedule that key's listeners. */
  function FireStep(f: Factories, table: HandlerTable, l: Ledger, e: V4Event, slot: Slot): (r: (Ledger, Outcome<Fault>))
    ensures r.1.Fail? <==> MapFor(f, slot, e).Failure?
    ensures r.1.Fail? ==> r.0 == l
    ensures r.1.Pass? ==> |r.0.log| == |l.log| + |Delegates(table, slot)| && r.0.log[..|l.log|] == l.log
  {
    match MapFor(f, slot, e)
    case Failure(err) => (l, Fail(err))
    case Success(args) => (ScheduleAll(l, Delegates(table, slot), args), Pass)
  }

  /**
   * The `foreach` of `ProcessMessageList`: events in batch order; an exception
   * from a mapper leaves the loop, so the events after it are not processed.
   */
  function ProcessEvents(f: Factories, table: HandlerTable, l: Ledger, es: seq<Option<V4Event>>): (r: (Ledger, Outcome<Fault>))
    ensures |l.log| <= |r.0.log| && r.0.log[..|l.log|] == l.log
    decreases |es|
  {
    if es == [] then (l, Pass)
    else
      var (l1, o) := EventStep(f, table, l, es[0]);
      if o.Fail? then (l1, o) else ProcessEvents(f, table, l1, es[1..])
  }

  /** `ProcessMessageList` on a possibly-null batch. */
  function ProcessBatch(f: Factories, table: HandlerTable, l: Ledger, batch: Option<seq<Option<V4Event>>>): (Ledger, Outcome<Fault>)
  {
    match batch
    case None => (l, Pass)
    case Some(es) => ProcessEvents(f, table, l, es)
  }

  /** The events that reach a listener key. */
  function Acting(es: seq<Option<V4Event>>): (r: seq<Option<V4Event>>)
    ensures forall k :: 0 <= k < |r| ==> SlotOf(r[k]).Some?
    ensures |r| <= |es|
    decreases |es|
  {
    if es == [] then []
    else if SlotOf(es[0]).Some? then [es[0]] + Acting(es[1..])
    else Acting(es[1..])
  }

  /**
   * Null events, events without a type and kinds outside the table are skipped
   * and processing goes on with the next event: a batch does exactly what its
   * acting events alone do.
   */
  lemma {:induction false} SkippedEventsChangeNothing(f: Factories, table: HandlerTable, l: Ledger, es: seq<Option<V4Event>>)
    ensures ProcessEvents(f, table, l, es) == ProcessEvents(f, table, l, Acting(es))
    decreases |es|
  {
    if es != [] {
      var (l1, o) := EventStep(f, table, l, es[0]);
      if SlotOf(es[0]).Some? {
        var rest := Acting(es[1..]);
        assert ([es[0]] + rest)[1..] == rest;
        if o.Pass? {
          SkippedEventsChangeNothing(f, table, l1, es[1..]);
        }
      } else {
        SkippedEventsChangeNothing(f, table, l, es[1..]);
      }
    }
  }

  /**
   * Only MESSAGESENT, CONNECTIONREQUESTED, CONNECTIONACCEPTED and USERJOINEDROOM
   * events act: a batch without them (user-left and room-updated events
   * included) schedules nothing and raises nothing.
   */
  lemma IgnoredKindsScheduleNothing(f: Factories, table: HandlerTable, l: Ledger, es: seq<Option<V4Event>>)
    requires forall k :: 0 <= k < |es| ==> SlotOf(es[k]).None?
    ensures ProcessEvents(f, table, l, es) == (l, Pass)
  {
    SkippedEventsChangeNothing(f, table, l, es);
    assert Acting(es) == [] by {
      if Acting(es) != [] {
        ActingComesFromBatch(es, 0);
      }
    }
  }

  /** Every acting event comes from the batch. */
  lemma {:induction false} ActingComesFromBatch(es: seq<Option<V4Event>>, k: nat)
    requires k < |Acting(es)|
    ensures Acting(es)[k] in es
    decreases |es|
  {
    if SlotOf(es[0]).Some? {
      if k > 0 {
        ActingComesFromBatch(es[1..], k - 1);
      }
    } else {
      ActingComesFromBatch(es[1..], k);
    }
  }

  /**
   * An exception from a mapper ends the batch: whatever follows the failing
   * prefix is not looked at.
   */
  lemma {:induction false} FaultAbortsBatch(f: Factories, table: HandlerTable, l: Ledger,
                                          es: seq<Option<V4Event>>, rest: seq<Option<V4Event>>)
    requires ProcessEvents(f, table, l, es).1.Fail?
    ensures ProcessEvents(f, table, l, es + rest) == ProcessEvents(f, table, l, es)
    decreases |es|
  {
    var (l1, o) := EventStep(f, table, l, es[0]);
    assert (es + rest)[0] == es[0];
    if o.Pass? {
      assert (es + rest)[1..] == es[1..] + rest;
      FaultAbortsBatch(f, table, l1, es[1..], rest);
    }
  }

  /** Processing a batch keeps every listener's invocations a single chain. */
  lemma {:induction false} ProcessKeepsChained(f: Factories, table: HandlerTable, l: Ledger, es: seq<Option<V4Event>>)
    requires Chained(l)
    ensures Chained(ProcessEvents(f, table, l, es).0)
    decreases |es|
  {
    if es != [] {
      var (l1, o) := EventStep(f, table, l, es[0]);
      var slot := SlotOf(es[0]);
      if slot.Some? && MapFor(f, slot.value, es[0].value).Success? {
        ScheduleAllKeepsChained(l, Delegates(table, slot.value), MapFor(f, slot.value, es[0].value).value);
      }
      if o.Pass? {
        ProcessKeepsChained(f, table, l1, es[1..]);
      }
    }
  }

  /**
   * An acting event whose mapping succeeds schedules exactly one invocation per
   * entry of its key's invocation list, in list order; listeners under other
   * keys get nothing, and an empty list schedules nothing.
   */
  lemma OneEventSchedulesItsListeners(f: Factories, table: HandlerTable, l: Ledger, e: Option<V4Event>, k: nat)
    requires SlotOf(e).Some? && MapFor(f, SlotOf(e).value, e.value).Success?
    ensures var hs := Delegates(table, SlotOf(e).value);
      var r := EventStep(f, table, l, e);
      && r.1 == Pass
      && |r.0.log| == |l.log| + |hs|
      && r.0.log[..|l.log|] == l.log
      && (k < |hs| ==> r.0.log[|l.log| + k].handler == hs[k]
                       && r.0.log[|l.log| + k].args == MapFor(f, SlotOf(e).value, e.value).value)
  {
    var hs := Delegates(table, SlotOf(e).value);
    if k < |hs| {
      ScheduleAllLog(l, hs, MapFor(f, SlotOf(e).value, e.value).value, k);
    }
  }

  /**
   * The `whatToDo` table entry by entry: each kind is fired to its own
   * listener key with its own mapper; a mapper that raises schedules nothing.
   */
  lemma EachKindFiresToItsOwnListeners(f: Factories, table: HandlerTable, l: Ledger, e: V4Event)
    ensures e.eventType == Some(MESSAGESENT) ==>
      EventStep(f, table, l, Some(e)) ==
        if Mapper.ToMessage(f, e).Success? then
          (ScheduleAll(l, Delegates(table, OnMessage), MessageArgs(Mapper.ToMessage(f, e).value)), Pass)
        else (l, Fail(Mapper.ToMessage(f, e).error))
    ensures e.eventType == Some(CONNECTIONREQUESTED) ==>
      EventStep(f, table, l, Some(e)) ==
        if Mapper.ToConnectionRequested(f, e).Success? then
          (ScheduleAll(l, Delegates(table, OnConnectionRequested), ConnectionRequestedArgs(Mapper.ToConnectionRequested(f, e).value)), Pass)
        else (l, Fail(Mapper.ToConnectionRequested(f, e).error))
    ensures e.eventType == Some(CONNECTIONACCEPTED) ==>
      EventStep(f, table, l, Some(e)) ==
        if Mapper.ToConnectionAccepted(f, e).Success? then
          (ScheduleAll(l, Delegates(table, OnConnectionAccepted), ConnectionAcceptedArgs(Mapper.ToConnectionAccepted(f, e).value)), Pass)
        else (l, Fail(Mapper.ToConnectionAccepted(f, e).error))
    ensures e.eventType == Some(USERJOINEDROOM) ==>
      EventStep(f, table, l, Some(e)) ==
        if Mapper.ToUserJoinedRoom(f, e).Success? then
          (ScheduleAll(l, Delegates(table, OnUserJoinedRoom), UserJoinedRoomArgs(Mapper.ToUserJoinedRoom(f, e).value)), Pass)
        else (l, Fail(Mapper.ToUserJoinedRoom(f, e).error))
  {
  }

  class AbstractDatafeedApi {
    var shouldStop: bool
    var listEventDelegates: HandlerTable
    var inflightEvents: map<Handler, nat>
    /** The tasks started so far, in the order `Task.Run` was called. */
    var invocations: seq<Invocation>
    /** `UserFactory` and `MessageFactory`, which the protected mappers call. */
    const factories: Factories

    ghost function Tables(): Ledger
      reads this
    {
      Ledger(inflightEvents, invocations)
    }

    /**
     * The chain invariant, and every listener is filed under the event its
     * delegate type belongs to.
     */
    ghost predicate Valid()
      reads this
    {
      && Chained(Tables())
      && forall slot, g :: slot in listEventDelegates && g in listEventDelegates[slot] ==> g.kind == slot
    }

    constructor (f: Factories)
      ensures Valid()
      ensures factories == f && !shouldStop
      ensures listEventDelegates == map[] && inflightEvents == map[] && invocations == []
    {
      factories := f;
      shouldStop := false;
      listEventDelegates := map[];
      inflightEvents := map[];
      invocations := [];
    }

    /**
     * The `add` accessor of each public event: append to that key's invocation
     * list. The event is the one `h`'s delegate type belongs to.
     */
    method Subscribe(h: Handler)
      requires Valid()
      modifies this`listEventDelegates
      ensures Valid()
      ensures listEventDelegates == old(listEventDelegates)[h.kind := Delegates(old(listEventDelegates), h.kind) + [h]]
    {
      listEventDelegates := listEventDelegates[h.kind := Delegates(listEventDelegates, h.kind) + [h]];
    }

    /**
     * The `remove` accessor of each public event: drop `h` from that key's list
     * and forget its in-flight entry, so its next invocation starts a new chain.
     * Already scheduled invocations are not cancelled.
     */
    method Unsubscribe(h: Handler)
      requires Valid()
      modifies this`listEventDelegates, this`inflightEvents
      ensures Valid()
      ensures listEventDelegates == old(listEventDelegates)[h.kind := RemoveLast(Delegates(old(listEventDelegates), h.kind), h)]
      ensures h !in inflightEvents
      ensures forall g :: g != h ==> Lookup(inflightEvents, g) == Lookup(old(inflightEvents), g)
      ensures invocations == old(invocations)
    {
      listEventDelegates := listEventDelegates[h.kind := RemoveLast(Delegates(listEventDelegates, h.kind), h)];
      inflightEvents := inflightEvents - {h};
    }

    /** Asks the listening loop to stop after its current request; calling it again changes nothing more. */
    method Stop()
      modifies this`shouldStop
      ensures shouldStop
    {
      shouldStop := true;
    }

    /**
     * Starts a task for `h` that first waits for `h`'s in-flight entry, read
     * before the task is returned. The caller records the task in the map.
     */
    method CreateInvocationTask(h: Handler, args: EventArgs) returns (task: nat)
      modifies this`invocations
      ensures task == |old(invocations)|
      ensures invocations == old(invocations) + [Invocation(h, args, Lookup(inflightEvents, h))]
    {
      var pendingTask := Lookup(inflightEvents, h);
      task := |invocations|;
      invocations := invocations + [Invocation(h, args, pendingTask)];
    }

    /** One task per entry of the invocation list, each then recorded as its listener's in-flight entry. */
    method InvokeEventHandlers(evtHandler: seq<Handler>, args: EventArgs)
      requires Valid()
      modifies this`inflightEvents, this`invocations
      ensures Valid()
      ensures Tables() == ScheduleAll(old(Tables()), evtHandler, args)
    {
      ghost var start := Tables();
      var i := 0;
      while i < |evtHandler|
        invariant 0 <= i <= |evtHandler|
        invariant Tables() == ScheduleAll(start, evtHandler[..i], args)
      {
        var subhandler := evtHandler[i];
        var task := CreateInvocationTask(subhandler, args);
        inflightEvents := inflightEvents[subhandler := task];
        assert evtHandler[..i + 1][..i] == evtHandler[..i];
        i := i + 1;
      }
      assert evtHandler[..i] == evtHandler;
      ScheduleAllKeepsChained(start, evtHandler, args);
    }

    function ToMessage(message: V4Event): (r: Result<MessageEventArgs, Fault>)
      ensures r == Mapper.ToMessage(factories, message)
    {
      match message.payload
      case None => Failure(NullReference)
      case Some(p) =>
        match p.messageSent
        case None => Failure(NullReference)
        case Some(ms) => Success(MessageEventArgs(factories.createMessage(ms.message)))
    }

    function ToConnectionRequested(message: V4Event): (r: Result<ConnectionRequestedEventArgs, Fault>)
      ensures r == Mapper.ToConnectionRequested(factories, message)
    {
      match message.initiator
      case None => Failure(NullReference)
      case Some(i) =>
        var fromUser := factories.createUser(i.user);
        match message.payload
        case None => Failure(NullReference)
        case Some(p) =>
          match p.connectionRequested
          case None => Failure(NullReference)
          case Some(cr) => Success(ConnectionRequestedEventArgs(fromUser, factories.createUser(cr.toUser)))
    }

    function ToConnectionAccepted(message: V4Event): (r: Result<ConnectionAcceptedEventArgs, Fault>)
      ensures r == Mapper.ToConnectionAccepted(factories, message)
    {
      match message.initiator
      case None => Failure(NullReference)
      case Some(i) =>
        var toUser := factories.createUser(i.user);
        match message.payload
        case None => Failure(NullReference)
        case Some(p) =>
          match p.connectionAccepted
          case None => Failure(NullReference)
          case Some(ca) => Success(ConnectionAcceptedEventArgs(factories.createUser(ca.fromUser), toUser))
    }

    function ToUserJoinedRoomEventArgs(message: V4Event): (r: Result<UserJoinedRoomEventArgs, Fault>)
      ensures r == Mapper.ToUserJoinedRoom(factories, message)
    {
      var initiator :=
        match InitiatorUser(message)
        case None => None
        case Some(u) => Some(factories.createUser(Some(u)));
      match message.payload
      case None => Failure(NullReference)
      case Some(p) =>
        match p.userJoinedRoom
        case None => Failure(NullReference)
        case Some(uj) =>
          var userThatJoined := factories.createUser(uj.affectedUser);
          match uj.stream
          case None => Failure(NullReference)
          case Some(s) => Success(UserJoinedRoomEventArgs(initiator, userThatJoined, LiteRoom(s.streamId, s.roomName, s.external)))
    }

    /** The mapper that the `whatToDo` entry for `slot` passes to `Fire`, using the protected mappers above. */
    function ProtectedMapFor(slot: Slot, message: V4Event): (r: Result<EventArgs, Fault>)
      ensures r == MapFor(factories, slot, message)
    {
      match slot
      case OnMessage =>
        (match ToMessage(message)
         case Success(a) => Success(MessageArgs(a))
         case Failure(err) => Failure(err))
      case OnConnectionRequested =>
        (match ToConnectionRequested(message)
         case Success(a) => Success(ConnectionRequestedArgs(a))
         case Failure(err) => Failure(err))
      case OnConnectionAccepted =>
        (match ToConnectionAccepted(message)
         case Success(a) => Success(ConnectionAcceptedArgs(a))
         case Failure(err) => Failure(err))
      case OnUserJoinedRoom =>
        (match ToUserJoinedRoomEventArgs(message)
         case Success(a) => Success(UserJoinedRoomArgs(a))
         case Failure(err) => Failure(err))
    }

    /** Maps the event, then schedules its listeners; a mapper that raises schedules nothing. */
    method Fire(message: V4Event, slot: Slot) returns (outcome: Outcome<Fault>)
      requires Valid()
      modifies this`inflightEvents, this`invocations
      ensures Valid()
      ensures (Tables(), outcome) == FireStep(factories, listEventDelegates, old(Tables()), message, slot)
    {
      var eventArgs := ProtectedMapFor(slot, message);
      match eventArgs
      case Failure(err) =>
        outcome := Fail(err);
      case Success(args) =>
        InvokeEventHandlers(Delegates(listEventDelegates, slot), args);
        outcome := Pass;
    }

    /**
     * Handles one batch: nothing for a null batch; otherwise each event in
     * order, skipping null and untyped events and kinds outside `whatToDo`.
     */
    method ProcessMessageList(messageList: Option<seq<Option<V4Event>>>) returns (outcome: Outcome<Fault>)
      requires Valid()
      modifies this`inflightEvents, this`invocations
      ensures Valid()
      ensures (Tables(), outcome) == ProcessBatch(factories, listEventDelegates, old(Tables()), messageList)
      ensures messageList.None? ==> Tables() == old(Tables()) && outcome == Pass
    {
      outcome := Pass;
      if messageList.None? {
        return;
      }
      var es := messageList.value;
      ghost var start := Tables();
      var i := 0;
      while i < |es|
        invariant 0 <= i <= |es|
        invariant Valid() && outcome == Pass
        invariant ProcessEvents(factories, listEventDelegates, start, es)
               == ProcessEvents(factories, listEventDelegates, Tables(), es[i..])
      {
        var message := es[i];
        assert es[i..][1..] == es[i + 1..];
        if message.None? || message.value.eventType.None? {
          i := i + 1;
          continue;
        }
        var action := WhatToDo(message.value.eventType.value);
        if action.Some? {
          ghost var before := Tables();
          outcome := Fire(message.value, action.value);
          assert EventStep(factories, listEventDelegates, before, message) == (Tables(), outcome);
          if outcome.Fail? {
            assert ProcessEvents(factories, listEventDelegates, before, es[i..]) == (Tables(), outcome);
            return;
          }
        }
        i := i + 1;
      }
      assert es[i..] == [];
    }
  }
}
