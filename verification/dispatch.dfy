/**
 * Predecessor bookkeeping of the datafeed dispatcher. A scheduled listener
 * invocation (a `Task.Run` in the source) is an entry of an append-only log and
 * is identified by its index there. Each entry records the invocation it waits
 * for; the in-flight map holds, per listener, the index of its most recently
 * scheduled invocation (`_inflightEvents`).
 */
module Dispatch {
  import opened Wrappers
  import opened Entities

  /** The four keys of `listEventDelegates`, one per public event. */
  datatype Slot = OnMessage | OnConnectionAccepted | OnConnectionRequested | OnUserJoinedRoom

  /**
   * The identity of one listener delegate. A delegate is typed for the event
   * arguments of one event, and delegates of different types never compare
   * equal, so the identity includes the event it is typed for.
   */
  datatype Handler = Handler(kind: Slot, id: nat)

  /** The argument record handed to a listener, one case per dispatched kind. */
  datatype EventArgs =
    | MessageArgs(message: MessageEventArgs)
    | ConnectionRequestedArgs(connectionRequested: ConnectionRequestedEventArgs)
    | ConnectionAcceptedArgs(connectionAccepted: ConnectionAcceptedEventArgs)
    | UserJoinedRoomArgs(userJoinedRoom: UserJoinedRoomEventArgs)

  /** The event an argument record is delivered for. */
  function KindOf(a: EventArgs): Slot
  {
    match a
    case MessageArgs(_) => OnMessage
    case ConnectionRequestedArgs(_) => OnConnectionRequested
    case ConnectionAcceptedArgs(_) => OnConnectionAccepted
    case UserJoinedRoomArgs(_) => OnUserJoinedRoom
  }

  /** One scheduled invocation: which listener, with what, after which earlier invocation. */
  datatype Invocation = Invocation(handler: Handler, args: EventArgs, waitsFor: Option<nat>)

  /** The two pieces of dispatcher state: the in-flight map and the log of scheduled invocations. */
  datatype Ledger = Ledger(inflight: map<Handler, nat>, log: seq<Invocation>)

  /** `TryGetValue` on the in-flight map. */
  function Lookup(m: map<Handler, nat>, h: Handler): Option<nat>
  {
    if h in m then Some(m[h]) else None
  }

  /** The index of the last occurrence of `h` in `s`, if any. */
  function LastIn(s: seq<Handler>, h: Handler): (r: Option<nat>)
    ensures r.None? <==> h !in s
    ensures r.Some? ==> r.value < |s| && s[r.value] == h
    decreases |s|
  {
    if s == [] then None
    else if s[|s| - 1] == h then Some(|s| - 1)
    else LastIn(s[..|s| - 1], h)
  }

  /** No occurrence of `h` follows the one `LastIn` finds. */
  lemma {:induction false} LastInIsLast(s: seq<Handler>, h: Handler)
    requires h in s
    ensures forall j :: LastIn(s, h).value < j < |s| ==> s[j] != h
    decreases |s|
  {
    var n := |s| - 1;
    if s[n] != h {
      LastInIsLast(s[..n], h);
      assert forall j :: LastIn(s, h).value < j < n ==> s[j] == s[..n][j];
    }
  }

  /**
   * `_inflightEvents[h] = CreateInvocationTask(h, args)`: the new invocation waits
   * for whatever entry `h` had, then becomes that entry.
   */
  function Schedule(l: Ledger, h: Handler, args: EventArgs): (r: Ledger)
    ensures |r.log| == |l.log| + 1 && r.log[..|l.log|] == l.log
    ensures r.log[|l.log|] == Invocation(h, args, Lookup(l.inflight, h))
    ensures Lookup(r.inflight, h) == Some(|l.log|)
    ensures forall g :: g != h ==> Lookup(r.inflight, g) == Lookup(l.inflight, g)
  {
    Ledger(l.inflight[h := |l.log|], l.log + [Invocation(h, args, Lookup(l.inflight, h))])
  }

  /**
   * What the predecessor of the `k`-th invocation of a batch over `hs` should be:
   * the previous invocation of the same listener in the batch, or else its
   * in-flight entry from before the batch.
   */
  function PredecessorIn(l: Ledger, hs: seq<Handler>, k: nat): Option<nat>
    requires k < |hs|
  {
    match LastIn(hs[..k], hs[k])
    case Some(j) => Some(|l.log| + j)
    case None => Lookup(l.inflight, hs[k])
  }

  /**
   * The `foreach` of `InvokeEventHandlers` over an invocation list `hs`: it
   * appends one invocation per entry and leaves the earlier log untouched. What
   * the new entries and the in-flight map hold is stated by `ScheduleAllLog`
   * and `ScheduleAllInflight`.
   */
  function ScheduleAll(l: Ledger, hs: seq<Handler>, args: EventArgs): (r: Ledger)
    ensures |r.log| == |l.log| + |hs|
    ensures r.log[..|l.log|] == l.log
    decreases |hs|
  {
    if hs == [] then l
    else
      var n := |hs| - 1;
      Schedule(ScheduleAll(l, hs[..n], args), hs[n], args)
  }

  /**
   * Listeners in `hs` end with their last new invocation in flight; every other
   * listener keeps the entry it had.
   */
  lemma {:induction false} ScheduleAllInflight(l: Ledger, hs: seq<Handler>, args: EventArgs, h: Handler)
    ensures Lookup(ScheduleAll(l, hs, args).inflight, h) ==
      match LastIn(hs, h)
      case Some(j) => Some(|l.log| + j)
      case None => Lookup(l.inflight, h)
    decreases |hs|
  {
    if hs != [] {
      var n := |hs| - 1;
      var before := ScheduleAll(l, hs[..n], args);
      assert ScheduleAll(l, hs, args) == Schedule(before, hs[n], args);
      if hs[n] == h {
        assert LastIn(hs, h) == Some(n);
        assert |before.log| == |l.log| + n;
      } else {
        assert LastIn(hs, h) == LastIn(hs[..n], h);
        ScheduleAllInflight(l, hs[..n], args, h);
      }
    }
  }

  /**
   * One new invocation per entry of `hs`, in list order, with the batch's
   * arguments, each chained to that listener's previous invocation.
   */
  lemma {:induction false} ScheduleAllLog(l: Ledger, hs: seq<Handler>, args: EventArgs, k: nat)
    requires k < |hs|
    ensures ScheduleAll(l, hs, args).log[|l.log| + k] == Invocation(hs[k], args, PredecessorIn(l, hs, k))
    decreases |hs|
  {
    var n := |hs| - 1;
    if k < n {
      ScheduleAllEarlier(l, hs, args, k);
      ScheduleAllLog(l, hs[..n], args, k);
      PredecessorInPrefix(l, hs, n, k);
    } else {
      ScheduleAllLast(l, hs, args);
    }
  }

  /** Scheduling the last listener of a list leaves the entries of the ones before it. */
  lemma ScheduleAllEarlier(l: Ledger, hs: seq<Handler>, args: EventArgs, k: nat)
    requires k < |hs| - 1
    ensures ScheduleAll(l, hs, args).log[|l.log| + k] == ScheduleAll(l, hs[..|hs| - 1], args).log[|l.log| + k]
  {
    var before := ScheduleAll(l, hs[..|hs| - 1], args);
    var after := Schedule(before, hs[|hs| - 1], args);
    assert ScheduleAll(l, hs, args) == after;
    assert after.log[..|before.log|][|l.log| + k] == after.log[|l.log| + k];
  }

  /** The entry of the last listener of a list waits for its previous invocation. */
  lemma ScheduleAllLast(l: Ledger, hs: seq<Handler>, args: EventArgs)
    requires hs != []
    ensures var n := |hs| - 1;
      ScheduleAll(l, hs, args).log[|l.log| + n] == Invocation(hs[n], args, PredecessorIn(l, hs, n))
  {
    var n := |hs| - 1;
    var before := ScheduleAll(l, hs[..n], args);
    assert ScheduleAll(l, hs, args) == Schedule(before, hs[n], args);
    ScheduleAllInflight(l, hs[..n], args, hs[n]);
  }

  /** The predecessor of an entry does not depend on the entries after it. */
  lemma PredecessorInPrefix(l: Ledger, hs: seq<Handler>, n: nat, k: nat)
    requires k < n <= |hs|
    ensures PredecessorIn(l, hs[..n], k) == PredecessorIn(l, hs, k)
  {
    assert hs[..n][..k] == hs[..k] && hs[..n][k] == hs[k];
  }

  /** `j` is the last invocation of `h` in `log`. */
  ghost predicate LatestOf(log: seq<Invocation>, h: Handler, j: nat)
  {
    j < |log| && log[j].handler == h && forall k :: j < k < |log| ==> log[k].handler != h
  }

  /** Every invocation waits, if at all, for the invocation of the same listener just before it. */
  ghost predicate ChainedLog(log: seq<Invocation>)
  {
    forall i :: 0 <= i < |log| && log[i].waitsFor.Some? ==> LatestOf(log[..i], log[i].handler, log[i].waitsFor.value)
  }

  /**
   * The dispatcher invariant: chains in the log are well formed and each
   * in-flight entry is its listener's most recent invocation.
   */
  ghost predicate Chained(l: Ledger)
  {
    && ChainedLog(l.log)
    && forall h :: h in l.inflight ==> LatestOf(l.log, h, l.inflight[h])
  }

  lemma ScheduleKeepsChained(l: Ledger, h: Handler, args: EventArgs)
    requires Chained(l)
    ensures Chained(Schedule(l, h, args))
  {
    var r := Schedule(l, h, args);
    var n := |l.log|;
    forall i | 0 <= i < |r.log| && r.log[i].waitsFor.Some?
      ensures LatestOf(r.log[..i], r.log[i].handler, r.log[i].waitsFor.value)
    {
      assert r.log[..i] == l.log[..i] by {
        if i == n { assert r.log[..n] == l.log; }
      }
    }
  }

  lemma {:induction false} ScheduleAllKeepsChained(l: Ledger, hs: seq<Handler>, args: EventArgs)
    requires Chained(l)
    ensures Chained(ScheduleAll(l, hs, args))
    decreases |hs|
  {
    if hs != [] {
      var n := |hs| - 1;
      ScheduleAllKeepsChained(l, hs[..n], args);
      ScheduleKeepsChained(ScheduleAll(l, hs[..n], args), hs[n], args);
    }
  }

  /**
   * The next invocation of `h` waits for the most recent invocation of `h`
   * exactly when `h` has an in-flight entry; once the entry is gone (the
   * listener was removed) it waits for nothing and starts a new chain.
   */
  lemma NextWaitsForLatest(l: Ledger, h: Handler, args: EventArgs)
    requires Chained(l)
    ensures var w := Schedule(l, h, args).log[|l.log|].waitsFor;
      && (w.Some? <==> h in l.inflight)
      && (w.Some? ==> LatestOf(l.log, h, w.value))
  {
  }

  /**
   * No invocation has two successors: two invocations that wait for the same
   * predecessor are the same invocation. So, as long as a listener is not
   * removed in between, its invocations form a single chain in submission
   * order and never run side by side; after a removal, `NextWaitsForLatest`
   * shows the next invocation starting a chain of its own.
   */
  lemma SuccessorUnique(log: seq<Invocation>, i1: nat, i2: nat)
    requires ChainedLog(log)
    requires i1 < |log| && i2 < |log|
    requires log[i1].waitsFor.Some? && log[i1].waitsFor == log[i2].waitsFor
    ensures i1 == i2
  {
  }

  /** Task status of a scheduled invocation. */
  datatype TaskStatus = RanToCompletion | Faulted

  /**
   * What one invocation's task does: whether the listener was called and
   * whether a warning was logged.
   */
  datatype Run = Run(handlerInvoked: bool, warningLogged: bool, status: TaskStatus)

  /**
   * The body of the task built by `CreateInvocationTask`. It first waits for its
   * predecessor, and `Wait()` on a faulted task raises outside the `try`, so the
   * task would fault without calling the listener. Otherwise the listener is
   * called; whether it raises is given by `throws`. An exception it raises is
   * caught and, through `Log?.`, logged only when a logger was configured
   * (`hasLogger`); the task still completes.
   */
  function RunOf(log: seq<Invocation>, throws: seq<bool>, hasLogger: bool, i: nat): (r: Run)
    requires ChainedLog(log) && |throws| == |log| && i < |log|
    ensures r.status == Faulted <==> !r.handlerInvoked
    ensures r.warningLogged ==> r.handlerInvoked && hasLogger && throws[i]
    ensures r.handlerInvoked ==> (r.warningLogged <==> hasLogger && throws[i])
    decreases i
  {
    var predecessorOk :=
      match log[i].waitsFor
      case None => true
      case Some(j) => RunOf(log, throws, hasLogger, j).status == RanToCompletion;
    if predecessorOk then Run(true, hasLogger && throws[i], RanToCompletion)
    else Run(false, false, Faulted)
  }

  /**
   * A listener that raises never stops other invocations: every scheduled
   * invocation calls its listener and completes, and, when a logger is
   * configured, a warning is logged exactly for the invocations whose listener
   * raised.
   */
  lemma {:induction false} EveryInvocationRuns(log: seq<Invocation>, throws: seq<bool>, hasLogger: bool, i: nat)
    requires ChainedLog(log) && |throws| == |log| && i < |log|
    ensures RunOf(log, throws, hasLogger, i) == Run(true, hasLogger && throws[i], RanToCompletion)
    decreases i
  {
    match log[i].waitsFor
    case None =>
    case Some(j) =>
      assert LatestOf(log[..i], log[i].handler, j);
      EveryInvocationRuns(log, throws, hasLogger, j);
  }
}
