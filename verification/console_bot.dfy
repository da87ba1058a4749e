/**
 * The console bot's event handling: `Route` acts only on typed MESSAGESENT
 * events, `Talk` answers every sender except the bot's own user, and one
 * iteration of `Main`'s read loop swallows the "204 no content" exception.
 */
module ConsoleBot {
  import opened Wrappers
  import opened V4

  /** The bot's own user id; messages from it are not answered. */
  const BotUserId: int := 346621040656630

  /** The text the `SwaggerException` of a "no new events" read carries as its status code. */
  const NoContent: string := "204"

  /**
   * What handling one event does: nothing, reply in a stream quoting a message
   * text, or raise.
   */
  datatype Action = NoAction | Reply(streamId: Option<string>, quoted: string) | Faulted(fault: Fault)

  /** `message.Message.User` can be read without a null reference. */
  predicate HasSender(m: Option<V4MessageSent>)
  {
    m.Some? && m.value.message.Some? && m.value.message.value.user.Some?
  }

  /**
   * `Talk`: reads the sender through `message.Message.User` (a null on the way
   * raises), does nothing when the sender is the bot (a null user id is not the
   * bot's), and otherwise replies in the message's stream. A null message text
   * makes `new StringReader` raise; a null stream raises when the reply is
   * addressed.
   */
  function Talk(m: Option<V4MessageSent>): (r: Action)
    ensures r.Reply? ==>
      && m.Some? && m.value.message.Some? && m.value.message.value.user.Some?
      && m.value.message.value.user.value.userId != Some(BotUserId)
      && m.value.message.value.message == Some(r.quoted)
      && m.value.message.value.stream.Some? && r.streamId == m.value.message.value.stream.value.streamId
    ensures HasSender(m) ==> (r == NoAction <==> m.value.message.value.user.value.userId == Some(BotUserId))
    ensures !HasSender(m) ==> r == Faulted(NullReference)
    ensures HasSender(m) ==>
      var msg := m.value.message.value;
      msg.user.value.userId != Some(BotUserId) ==>
        && (msg.message.None? ==> r == Faulted(ArgumentNull))
        && (msg.message.Some? && msg.stream.None? ==> r == Faulted(NullReference))
        && (msg.message.Some? && msg.stream.Some? ==> r == Reply(msg.stream.value.streamId, msg.message.value))
  {
    match m
    case None => Faulted(NullReference)
    case Some(ms) =>
      match ms.message
      case None => Faulted(NullReference)
      case Some(msg) =>
        match msg.user
        case None => Faulted(NullReference)
        case Some(u) =>
          if u.userId == Some(BotUserId) then NoAction
          else
            match msg.message
            case None => Faulted(ArgumentNull)
            case Some(text) =>
              match msg.stream
              case None => Faulted(NullReference)
              case Some(s) => Reply(s.streamId, text)
  }

  /** `Route`: skips null and untyped events and every kind but MESSAGESENT. */
  function Route(e: Option<V4Event>): (r: Action)
    ensures r != NoAction ==> e.Some? && e.value.eventType == Some(MESSAGESENT)
    ensures e.Some? && e.value.eventType == Some(MESSAGESENT) && e.value.payload.Some? ==>
      r == Talk(e.value.payload.value.messageSent)
    ensures e.Some? && e.value.eventType == Some(MESSAGESENT) && e.value.payload.None? ==>
      r == Faulted(NullReference)
  {
    match e
    case None => NoAction
    case Some(ev) =>
      match ev.eventType
      case None => NoAction
      case Some(t) =>
        if t == MESSAGESENT then
          match ev.payload
          case None => Faulted(NullReference)
          case Some(p) => Talk(p.messageSent)
        else NoAction
  }

  /**
   * `Play`: one routing per event, started and not observed, so a routing that
   * raises does not make `Play` raise. A null batch makes `Select` raise.
   */
  function Play(events: Option<seq<Option<V4Event>>>): (r: Result<seq<Action>, Fault>)
    ensures r.Failure? <==> events.None?
    ensures r.Success? ==> |r.value| == |events.value|
    ensures r.Success? ==> forall k :: 0 <= k < |r.value| ==> r.value[k] == Route(events.value[k])
  {
    match events
    case None => Failure(ArgumentNull)
    case Some(es) => Success(seq(|es|, k requires 0 <= k < |es| => Route(es[k])))
  }

  /** What one read of the datafeed yields. */
  datatype ReadResult =
    | Events(batch: Option<seq<Option<V4Event>>>)
    | ApiException(statusCode: string)
    | OtherException

  datatype LoopStep = Continue(actions: seq<Action>) | Terminate

  /**
   * One iteration of `Main`'s loop: play the batch; an API exception whose status
   * is "204" is swallowed and polling goes on; any other exception (a 401
   * included, since this read does not go through the retrying pipeline) leaves
   * `Main`.
   */
  function MainStep(read: ReadResult): (r: LoopStep)
    ensures read == ApiException(NoContent) ==> r == Continue([])
    ensures read.ApiException? && read.statusCode != NoContent ==> r == Terminate
    ensures read.OtherException? ==> r == Terminate
    ensures read.Events? ==> (r.Continue? <==> read.batch.Some?)
    ensures read.Events? && read.batch.Some? ==> r == Continue(Play(read.batch).value)
  {
    match read
    case Events(batch) =>
      (match Play(batch)
       case Success(actions) => Continue(actions)
       case Failure(_) => Terminate)
    case ApiException(code) => if code == NoContent then Continue([]) else Terminate
    case OtherException => Terminate
  }

  /** How many iterations of the loop run to completion over a sequence of reads. */
  function Polls(results: seq<ReadResult>): (n: nat)
    ensures n <= |results|
    ensures forall k :: 0 <= k < n ==> MainStep(results[k]).Continue?
    ensures n < |results| ==> MainStep(results[n]).Terminate?
    decreases |results|
  {
    if results == [] then 0
    else if MainStep(results[0]).Terminate? then 0
    else
      var rest := Polls(results[1..]);
      assert forall k :: 1 <= k < 1 + rest ==> results[k] == results[1..][k - 1];
      1 + rest
  }

  /** Reads that return events or "no content" never stop the loop, whatever the listeners do. */
  lemma {:induction false} NoContentKeepsPolling(results: seq<ReadResult>)
    requires forall k :: 0 <= k < |results| ==>
      results[k] == ApiException(NoContent) || (results[k].Events? && results[k].batch.Some?)
    ensures Polls(results) == |results|
    decreases |results|
  {
    if results != [] {
      NoContentKeepsPolling(results[1..]);
    }
  }
}
