/** What the invariant means for callers, for single steps and for whole runs. */
module Theorems {
  import opened Wire
  import opened Client
  import opened History
  import opened Protocol
  import opened Safety

  // ---------------------------------------------------------------- whole runs

  /** `steps[i]` leads from `ss[i]` to `ss[i + 1]`; a step that would raise `KeyError` may do anything. */
  ghost predicate Run(ss: seq<State>, steps: seq<Action>) {
    && |ss| == |steps| + 1 && ss[0] == INIT
    && forall i :: 0 <= i < |steps| ==> Steps(ss[i], steps[i], ss[i + 1])
  }

  ghost predicate Steps(s: State, a: Action, s': State) {
    Enabled(s, a) && (Defined(s, a) ==> s' == Next(s, a))
  }

  /** Every state of every run satisfies the invariant, and no step ever raises `KeyError`. */
  lemma {:induction false} RunInv(ss: seq<State>, steps: seq<Action>, i: nat)
    requires Run(ss, steps) && i < |ss|
    ensures Inv(ss[i])
    ensures i < |steps| ==> Defined(ss[i], steps[i])
  {
    if i == 0 {
      InitInv();
    } else {
      RunInv(ss, steps, i - 1);
      assert Steps(ss[i - 1], steps[i - 1], ss[i]);
      StepsInv(ss[i - 1], steps[i - 1], ss[i]);
    }
    if i < |steps| {
      assert Steps(ss[i], steps[i], ss[i + 1]);
      StepsInv(ss[i], steps[i], ss[i + 1]);
    }
  }

  lemma StepsInv(s: State, a: Action, s': State)
    requires Inv(s) && Steps(s, a, s')
    ensures Defined(s, a) && Inv(s')
  {
    StepInv(s, a);
  }

  /** Some run leads to `s`. */
  ghost predicate Reachable(s: State) {
    exists ss, steps :: Run(ss, steps) && ss[|ss| - 1] == s
  }

  lemma ReachableInv(s: State)
    requires Reachable(s)
    ensures Inv(s)
  {
    var ss, steps :| Run(ss, steps) && ss[|ss| - 1] == s;
    RunInv(ss, steps, |ss| - 1);
  }

  lemma RunReachable(ss: seq<State>, steps: seq<Action>, i: nat)
    requires Run(ss, steps) && i < |ss|
    ensures Reachable(ss[i])
  {
    var (ss', steps') := (ss[..i + 1], steps[..i]);
    forall j | 0 <= j < i
      ensures Steps(ss'[j], steps'[j], ss'[j + 1])
    {
      assert Steps(ss[j], steps[j], ss[j + 1]);
    }
    assert Run(ss', steps') && ss'[|ss'| - 1] == ss[i];
  }

  lemma ReachInit()
    ensures Reachable(INIT)
  {
    assert Run([INIT], []);
  }

  lemma ReachNext(s: State, a: Action)
    requires Reachable(s) && Enabled(s, a) && Defined(s, a)
    ensures Reachable(Next(s, a))
  {
    var ss, steps :| Run(ss, steps) && ss[|ss| - 1] == s;
    var (ss', steps') := (ss + [Next(s, a)], steps + [a]);
    forall i | 0 <= i < |steps'|
      ensures Steps(ss'[i], steps'[i], ss'[i + 1])
    {
      if i < |steps| {
        assert Steps(ss[i], steps[i], ss[i + 1]);
      }
    }
    assert Run(ss', steps') && ss'[|ss'| - 1] == Next(s, a);
  }

  // ---------------------------------------------------------------- locks

  /** Task `t` cannot go on before task `u` leaves the block whose lock it holds. */
  predicate WaitsFor(s: State, t: TaskId, u: TaskId) {
    t in s.tasks &&
    ((s.tasks[t].AwaitsMain() && s.lock == Some(u)) || (s.tasks[t].PrivateLock? && s.privateLock == Some(u)))
  }

  /** A suspended holder of the main lock is a connect() while there is no connection, a close
      whose socket is already detached, or a call sending on the current connection or on one
      detached meanwhile. So the one detach that runs without the lock cannot upset it. */
  lemma LockHolder(s: State)
    requires Reachable(s) && s.lock.Some?
    ensures s.lock.value in s.tasks
    ensures var pc := s.tasks[s.lock.value];
            || ((pc.Opening? || pc.LoggingIn? || pc.SendingOptions? || pc.ConnectCleanup?) && s.w.client.ws.None?)
            || ((pc.Closing? || pc.SendCleanup? || pc.FailCleanup?) && s.w.client.ws.None? && pc.Owns().Some?)
            || (pc.Sending? && (s.w.client.ws.None? || s.w.client.ws == Some(pc.c)))
  {
    ReachableInv(s);
    assert PcOk(s.w, s.tasks[s.lock.value]);
  }

  /** No task waits for itself, and chains of waiting tasks have at most two links: only a task
      that waits for the main lock can hold the private-methods lock. */
  lemma LockWaitsEnd(s: State, t: TaskId, u: TaskId, v: TaskId)
    requires Reachable(s) && WaitsFor(s, t, u)
    ensures t != u
    ensures WaitsFor(s, u, v) ==> s.tasks[t].PrivateLock? && s.lock == Some(v) && (forall x :: !WaitsFor(s, v, x))
  {
    ReachableInv(s);
    WaitsEnd(s, t, u, v);
  }

  lemma WaitsEnd(s: State, t: TaskId, u: TaskId, v: TaskId)
    requires LocksOk(s.tasks, s.lock, s.privateLock) && WaitsFor(s, t, u)
    ensures t != u
    ensures WaitsFor(s, u, v) ==> s.tasks[t].PrivateLock? && s.lock == Some(v) && (forall x :: !WaitsFor(s, v, x))
  {}

  // ---------------------------------------------------------------- calls

  /** A call still waiting on an undone future was sent on the current connection, and its future
      is in the pending table; every pending call belongs to a live task. */
  lemma NoOrphans(s: State, t: TaskId)
    requires Reachable(s) && t in s.tasks && s.tasks[t].WaitingReply?
    requires s.tasks[t].id in s.w.client.futures ==> s.w.client.futures[s.tasks[t].id] == Waiting
    ensures s.tasks[t].id in s.w.client.pending && s.w.client.ws == Some(s.tasks[t].c)
  {
    ReachableInv(s);
    assert PcOk(s.w, s.tasks[t]);
  }

  /** Any step that detaches the connection finishes every call in flight on it, whether it waits for
      its reply or is still being sent. */
  lemma DetachFinishesCalls(s: State, a: Action, t: TaskId)
    requires Reachable(s) && Enabled(s, a) && Defined(s, a)
    requires s.w.client.ws.Some? && Next(s, a).w.client.ws.None?
    requires t in Next(s, a).tasks && (Next(s, a).tasks[t].WaitingReply? || Next(s, a).tasks[t].Sending?)
    ensures var id := Next(s, a).tasks[t].id;
            id in Next(s, a).w.client.futures && Next(s, a).w.client.futures[id] != Waiting
  {
    ReachableInv(s);
    StepInv(s, a);
    NoConnectionNoWaiters(Next(s, a), t);
  }

  lemma NoConnectionNoWaiters(s: State, t: TaskId)
    requires s.w.Ids() && PcsOk(s.w, s.tasks) && s.w.client.ws.None?
    requires t in s.tasks && (s.tasks[t].WaitingReply? || s.tasks[t].Sending?)
    ensures s.tasks[t].id in s.w.client.futures && s.w.client.futures[s.tasks[t].id] != Waiting
  {
    assert PcOk(s.w, s.tasks[t]);
  }

  /** Hooks are of pending calls; the two subscription tables agree; request ids only grow. */
  lemma TablesAgree(s: State)
    requires Reachable(s)
    ensures s.w.client.hooks.Keys <= s.w.client.pending
    ensures s.w.client.subscriptions.Keys == s.w.client.events.Keys
    ensures forall id :: id in s.w.sentOn ==> id < s.w.client.nextId
    ensures forall id :: id in s.w.client.pending ==> exists t :: t in s.tasks && s.tasks[t].Uses() == Some(id)
    ensures forall id :: id in s.w.client.pending ==> id in s.w.sentOn && s.w.client.ws == Some(s.w.sentOn[id])
  {
    ReachableInv(s);
  }

  /** A call returns only a reply with its own id that its own connection routed. */
  lemma AnswerIsOwn(s: State, id: RpcId)
    requires Reachable(s) && id in s.w.client.futures && s.w.client.futures[id].Answered?
    ensures var f := s.w.client.futures[id];
            && f.reply.Reply? && f.reply.id == id
            && id in s.w.sentOn && f.via == s.w.sentOn[id] && f.via in s.w.log && f.reply in s.w.log[f.via]
  {
    ReachableInv(s);
  }

  // ---------------------------------------------------------------- sockets

  predicate Current(s: State, c: Conn) { s.w.client.ws == Some(c) }

  /** A socket never has two masters; one that is open has one, unless its reader crashed. */
  lemma SocketAccounting(s: State, c: Conn)
    requires Reachable(s) && c < s.w.sockets
    ensures forall t, u :: OwnedBy(s, t, c) && OwnedBy(s, u, c) ==> t == u
    ensures forall t :: OwnedBy(s, t, c) ==> !Current(s, c)
    ensures c !in s.w.dead + s.w.crashed ==> Current(s, c) || exists t :: OwnedBy(s, t, c)
  {
    ReachableInv(s);
    forall t | OwnedBy(s, t, c)
      ensures !Current(s, c)
    {
      UsesSent(s.w, s.tasks[t]);
    }
    if c !in s.w.dead + s.w.crashed && !Current(s, c) {
      var t :| t in s.tasks && s.tasks[t].Owns() == Some(c);
      assert OwnedBy(s, t, c);
    }
  }

  /** With no operation in progress, nothing but the current socket is open. */
  lemma QuietMeansReleased(s: State, c: Conn)
    requires Reachable(s) && s.tasks == map[] && c < s.w.sockets && c !in s.w.dead + s.w.crashed
    ensures Current(s, c) && s.lock.None? && s.privateLock.None?
  {
    ReachableInv(s);
    SocketAccounting(s, c);
  }

  // ---------------------------------------------------------------- subscription queues

  predicate Tracked(s: State, q: RpcId) { q in s.w.client.subscriptions.Values }

  /** The queue holds, once each and in order, the messages its connection routed for it after the
      reply to core.subscribe, up to `at`; then, if it ended, at most one more that was in flight. */
  ghost predicate Holds(s: State, q: RpcId, at: nat, extra: Option<Message>, ended: bool)
    requires q in s.w.subs && q in s.w.client.queues && s.w.subs[q].conn in s.w.log
  {
    var sub := s.w.subs[q];
    var log := s.w.log[sub.conn];
    && 0 < sub.start <= at <= |log|
    && log[sub.start - 1].Reply? && log[sub.start - 1].id == q && log[sub.start - 1].result == SubscriptionId(sub.sid)
    && (extra.Some? ==> Addressed(extra.value, sub.sid, sub.event))
    && s.w.client.queues[q] == Feed(log[sub.start..at], sub.sid, sub.event) + Extra(extra)
                             + if ended then [Terminator] else []
  }

  /** A returned queue is a filter of its connection's log. While it is tracked that log is
      complete up to the message being routed. It is tracked or else terminated, never both and
      never neither -- exactly unless the server gave its id to another request while it was still
      tracked, with the reply that is then next in the log, in which case it is fed no more and never
      terminated. */
  lemma QueueHistory(s: State, q: RpcId)
    requires Reachable(s) && q in s.w.returned
    ensures q in s.w.subs && q in s.w.client.queues && s.w.subs[q].conn in s.w.log
    ensures var sub := s.w.subs[q];
            var overwritten := sub.end.Some? && sub.end.value.how == Overwritten;
            && (Tracked(s, q) <==> sub.end.None?)
            && (Tracked(s, q) ==> Current(s, sub.conn))
            && (Tracked(s, q) ==> Holds(s, q, |s.w.log[sub.conn]|, InFlight(q, sub.conn, s.w.readers), false))
            && (!Tracked(s, q) ==> Holds(s, q, sub.end.value.at, sub.end.value.extra, !overwritten))
            && ((Terminator in s.w.client.queues[q]) <==> !Tracked(s, q) && !overwritten)
            && (overwritten ==> Reissued(q, sub.sid, sub.end.value.at, s.w.log[sub.conn]))
  {
    ReachableInv(s);
    QueueTracked(s, q);
    if s.w.subs[q].end.None? {
      LiveHistory(s, q);
    } else {
      EndedHistory(s, q);
    }
  }

  lemma QueueTracked(s: State, q: RpcId)
    requires s.w.Tables() && s.w.Subs() && s.w.Feeds() && q in s.w.returned
    ensures q in s.w.subs && q in s.w.client.queues && s.w.subs[q].conn in s.w.log
    ensures Tracked(s, q) <==> s.w.subs[q].end.None?
    ensures Tracked(s, q) ==> Current(s, s.w.subs[q].conn)
    ensures s.w.subs[q].end.Some? ==> s.w.subs[q].end.value.how != Untracked
    ensures FeedOk(q, s.w.client.queues[q], s.w.subs[q], s.w.log[s.w.subs[q].conn], s.w.readers)
  {
    if s.w.subs[q].end.None? {
      LiveIsTracked(s.w, q);
    }
  }

  lemma LiveHistory(s: State, q: RpcId)
    requires s.w.Tables() && s.w.Updates() && Tracked(s, q)
    requires q in s.w.subs && q in s.w.client.queues && s.w.subs[q].conn in s.w.log && s.w.subs[q].end.None?
    requires FeedOk(q, s.w.client.queues[q], s.w.subs[q], s.w.log[s.w.subs[q].conn], s.w.readers)
    ensures Holds(s, q, |s.w.log[s.w.subs[q].conn]|, InFlight(q, s.w.subs[q].conn, s.w.readers), false)
    ensures Terminator !in s.w.client.queues[q]
  {
    TrackedIsLive(s.w, q);
    var sub := s.w.subs[q];
    var log := s.w.log[sub.conn];
    assert log[sub.start..|log|] == log[sub.start..];
    FeedHasNoTerminator(log[sub.start..], sub.sid, sub.event);
  }

  lemma EndedHistory(s: State, q: RpcId)
    requires q in s.w.subs && q in s.w.client.queues && s.w.subs[q].conn in s.w.log && s.w.subs[q].end.Some?
    requires FeedOk(q, s.w.client.queues[q], s.w.subs[q], s.w.log[s.w.subs[q].conn], s.w.readers)
    ensures var e := s.w.subs[q].end.value;
            && Holds(s, q, e.at, e.extra, e.how == Terminated)
            && ((Terminator in s.w.client.queues[q]) <==> e.how == Terminated)
  {
    var sub := s.w.subs[q];
    FeedHasNoTerminator(s.w.log[sub.conn][sub.start..sub.end.value.at], sub.sid, sub.event);
  }

  // ---------------------------------------------------------------- connection isolation

  /** The connection a step acts for. connect() and close() act for none, and so does the start of a
      call, unless the call is to be sent on one connection only. */
  function ActsFor(s: State, a: Action): Option<Conn> {
    match a
    case Acquire(t) =>
      if t !in s.tasks then None
      else (match s.tasks[t]
            case FailLock(_, c, _) => Some(c)
            case ForgetLock(on, _) => on
            case CallLock(p) => p.Expected()
            case _ => None)
    case Await(t, _) =>
      if t !in s.tasks then None
      else (match s.tasks[t]
            case CallLock(p) => p.Expected()
            case AwaitingReader(c) => Some(c)
            case Closing(c) => Some(c)
            case Sending(_, c, _) => Some(c)
            case SendCleanup(_, c, _) => Some(c)
            case WaitingReply(_, c, _) => Some(c)
            case FailLock(_, c, _) => Some(c)
            case FailCleanup(_, c, _) => Some(c)
            case _ => None)
    case CancelWait(t) => if t in s.tasks && s.tasks[t].WaitingReply? then Some(s.tasks[t].c) else None
    case Receive(c, _) => Some(c)
    case Route(c) => Some(c)
    case Stop(c, _) => Some(c)
    case CancelReader(c) => Some(c)
    case _ => None
  }

  /** The current connection with its pending calls, hooks, subscriptions and their queues. */
  ghost predicate SameConnection(w: World, w': World) {
    SameFields(w.client, w'.client)
  }

  ghost predicate SameFields(c: Fields, c': Fields) {
    && c'.ws == c.ws && c'.reader == c.reader && c'.privateWs == c.privateWs
    && c'.pending == c.pending && c'.hooks == c.hooks
    && c'.subscriptions == c.subscriptions && c'.events == c.events
    && (forall id :: id in c.pending && id in c.futures ==> id in c'.futures && c'.futures[id] == c.futures[id])
    && (forall q :: q in c.queues && c.Tracks(q) ==> q in c'.queues && c'.queues[q] == c.queues[q])
  }

  /** Readers, teardowns, failed calls, subscribe cleanups and unsubscribes of a connection that is
      no longer current leave the current one untouched, whatever ids its server reuses. */
  lemma Isolation(s: State, a: Action)
    requires Reachable(s) && Enabled(s, a) && Defined(s, a)
    requires ActsFor(s, a).Some? && s.w.client.ws != ActsFor(s, a)
    ensures SameConnection(s.w, Next(s, a).w)
  {
    ReachableInv(s);
    match a
    case Acquire(t) => ForeignAcquire(s, t);
    case Await(t, e) => ForeignAwait(s, t, e);
    case CancelWait(t) => ForeignCancel(s, t);
    case Route(c) => ForeignRoute(s.w, c);
    case _ => ForeignReader(s, a);
  }

  lemma ForeignReader(s: State, a: Action)
    requires Enabled(s, a) && (a.Receive? || a.Stop? || a.CancelReader?)
    ensures SameConnection(s.w, Next(s, a).w)
  {}

  lemma ForeignAcquire(s: State, t: TaskId)
    requires Inv(s) && Enabled(s, Acquire(t))
    requires ActsFor(s, Acquire(t)).Some? && s.w.client.ws != ActsFor(s, Acquire(t))
    ensures SameConnection(s.w, Next(s, Acquire(t)).w)
  {
    assert PcOk(s.w, s.tasks[t]);
    ForeignLock(s.w, s.tasks[t]);
  }

  lemma ForeignLock(w: World, pc: Pc)
    requires w.Ids() && w.Tables() && w.Subs() && PcOk(w, pc)
    requires match pc
             case FailLock(_, c, _) => w.client.ws != Some(c)
             case ForgetLock(on, _) => w.client.ws != on
             case CallLock(p) => p.Expected().Some? && w.client.ws != p.Expected()
             case _ => false
    ensures SameConnection(w, AfterLock(w, pc).0)
  {
    if pc.FailLock? {
      ForeignEnd(w, w, pc.p, pc.c, pc.id, Raised);
    }
  }

  lemma ForeignRoute(w: World, c: Conn)
    requires w.Ids() && Routable(w, c) && w.client.ws != Some(c)
    ensures SameConnection(w, AfterRoute(w, c))
  {
    if w.readers[c].Routing? && w.readers[c].m.Reply? {
      ForeignReply(w, c, w.readers[c].m);
    } else {
      ForeignFed(w, c);
    }
  }

  lemma ForeignFed(w: World, c: Conn)
    requires Routable(w, c) && w.client.ws != Some(c) && !(w.readers[c].Routing? && w.readers[c].m.Reply?)
    ensures AfterRoute(w, c).client == w.client
  {
    if !w.readers[c].TearingDown? {
      ForeignPut(w, Note(w.readers[c].m));
    }
  }

  lemma ForeignReply(w: World, c: Conn, m: Message)
    requires m.Reply? && c in w.log && w.client.ws != Some(c) && w.client.pending <= w.client.futures.Keys
    ensures SameConnection(w, w.RouteReply(c, m))
  {}

  lemma ForeignPut(w: World, item: Item)
    ensures w.client.Put({}, item) == w.client
  {
    assert PutEach(w.client.queues, {}, item) == w.client.queues;
  }

  lemma ForeignCancel(s: State, t: TaskId)
    requires Inv(s) && t in s.tasks && s.tasks[t].WaitingReply?
    requires s.w.client.ws != Some(s.tasks[t].c)
    ensures SameConnection(s.w, s.w.CancelFuture(s.tasks[t].id))
  {
    assert PcOk(s.w, s.tasks[t]);
    CancelForeign(s.w, s.tasks[t].c, s.tasks[t].id);
  }

  lemma CancelForeign(w: World, c: Conn, id: RpcId)
    requires w.Ids() && id in w.sentOn && w.sentOn[id] == c && w.client.ws != Some(c)
    ensures SameConnection(w, w.CancelFuture(id))
  {
    CancelUnpending(w, id);
  }

  lemma CancelUnpending(w: World, id: RpcId)
    requires id !in w.client.pending
    ensures SameConnection(w, w.CancelFuture(id))
  {
    CancelKeeps(w.client, id);
  }

  lemma CancelKeeps(c: Fields, id: RpcId)
    requires id !in c.pending
    ensures SameFields(c, c.(futures := c.futures[id := Cancelled]))
  {}

  /** The end of a call on a connection that is not current. */
  lemma ForeignEnd(w0: World, w: World, p: Purpose, c: Conn, id: RpcId, o: Outcome)
    requires w0.Ids() && w0.Tables() && w0.Subs()
    requires IdOk(w0, p, c, id) && PurposeOk(w0, p) && w0.client.ws != Some(c)
    requires SameConnection(w0, w) && w.subs == w0.subs && w.client.queues == w0.client.queues
    ensures SameConnection(w0, Resume(w.Unregister(id), p, c, id, o).0)
    ensures SameConnection(w0, Resume(w, p, c, id, o).0)
  {
    ForeignIds(w0, c, id);
    ResumeForeign(w, p, c, id, o);
    assert w.client.hooks.Keys <= w.client.pending;
    assert w.Unregister(id).client == w.client;
  }

  lemma ForeignIds(w: World, c: Conn, id: RpcId)
    requires w.Ids() && w.Tables() && w.Subs() && id in w.sentOn && w.sentOn[id] == c && w.client.ws != Some(c)
    ensures id !in w.client.pending && id !in w.client.subscriptions.Values
  {}

  lemma ResumeForeign(w: World, p: Purpose, c: Conn, id: RpcId, o: Outcome)
    requires w.client.ws != Some(c) && id !in w.client.subscriptions.Values
    requires p.Expected().Some? ==> p.Expected() == Some(c)
    ensures Resume(w, p, c, id, o).0.client == w.client
  {}

  lemma ForeignAwait(s: State, t: TaskId, e: Ending)
    requires Inv(s) && Enabled(s, Await(t, e))
    requires ActsFor(s, Await(t, e)).Some? && s.w.client.ws != ActsFor(s, Await(t, e))
    ensures SameConnection(s.w, Next(s, Await(t, e)).w)
  {
    assert PcOk(s.w, s.tasks[t]);
    ForeignEnding(s.w, s.tasks[t], e);
  }

  lemma ForeignEnding(w: World, pc: Pc, e: Ending)
    requires w.Ids() && w.Tables() && w.Subs() && PcOk(w, pc) && CanEnd(w, pc, e)
    requires pc.InCall() || pc.AwaitingReader? || pc.Closing?
    requires pc.CallLock? || w.client.ws != Some(pc.c)
    ensures SameConnection(w, AfterAwait(w, pc, e).0)
  {
    if pc.InCall() {
      ForeignCall(w, pc, e);
    } else {
      ForeignClose(w, pc, e);
    }
  }

  lemma ForeignClose(w: World, pc: Pc, e: Ending)
    requires (pc.AwaitingReader? || pc.Closing?) && w.client.ws != Some(pc.c)
    ensures SameConnection(w, AfterConnection(w, pc, e).0)
  {}

  lemma ForeignCall(w: World, pc: Pc, e: Ending)
    requires w.Ids() && w.Tables() && w.Subs() && PcOk(w, pc) && CanEnd(w, pc, e) && pc.InCall()
    requires pc.CallLock? || w.client.ws != Some(pc.c)
    ensures SameConnection(w, AfterCall(w, pc, e).0)
  {
    if pc.WaitingReply? {
      ForeignWaiting(w, pc, e);
    } else if pc.SendCleanup? || pc.FailCleanup? {
      ForeignEnd(w, w.Release(pc.c), pc.p, pc.c, pc.id, Raised);
    } else if !pc.CallLock? {
      ForeignEnd(w, w, pc.p, pc.c, pc.id, Raised);
    }
  }

  lemma ForeignWaiting(w: World, pc: Pc, e: Ending)
    requires w.Ids() && w.Tables() && w.Subs() && PcOk(w, pc) && CanEnd(w, pc, e)
    requires pc.WaitingReply? && w.client.ws != Some(pc.c)
    ensures SameConnection(w, AfterCall(w, pc, e).0)
  {
    if e.Returns? {
      var f := w.client.futures[pc.id];
      ForeignEnd(w, w, pc.p, pc.c, pc.id, if f.Answered? then Got(f.reply) else Raised);
    } else {
      CancelForeign(w, pc.c, pc.id);
      ForeignEnd(w, w.CancelFuture(pc.id), pc.p, pc.c, pc.id, Raised);
    }
  }
}
