/** Many callers, one reader per connection and two locks: the client as a transition system.
    A step is a code segment between two points where a coroutine can really be suspended. */
module Protocol {
  import opened Wire
  import opened Client
  import opened History

  type TaskId = nat

  /** What a request is for; the caller's code after `_call_on_connection` depends on it. */
  datatype Purpose =
    | Plain
    | Subscribe(event: string)
    | Unsubscribe(sid: string, on: Option<Conn>)
    | SetOptions(target: Conn)
  {
    /** `expected_ws` */
    function Expected(): Option<Conn> {
      match this
      case Unsubscribe(_, on) => on
      case SetOptions(c) => Some(c)
      case _ => None
    }

    function Hook(): Option<string> { if Subscribe? then Some(event) else None }
  }

  /** Where a caller's coroutine is suspended. */
  datatype Pc =
    // connect()
    | ConnectLock
    | Opening
    | LoggingIn(c: Conn)
    | SendingOptions(c: Conn)
    | ConnectCleanup(c: Conn)
    // close()
    | CloseLock
    | Closing(c: Conn)
    | AwaitingReader(c: Conn)
    // _call_on_connection()
    | CallLock(p: Purpose)
    | Sending(p: Purpose, c: Conn, id: RpcId)
    | SendCleanup(p: Purpose, c: Conn, id: RpcId)
    | WaitingReply(p: Purpose, c: Conn, id: RpcId)
    | FailLock(p: Purpose, c: Conn, id: RpcId)
    | FailCleanup(p: Purpose, c: Conn, id: RpcId)
    // unsubscribe(), enable_private_methods()
    | UnsubscribeLock(sid: string)
    | ForgetLock(on: Option<Conn>, sid: string)
    | PrivateLock
  {
    predicate HoldsMain() {
      || Opening? || LoggingIn? || SendingOptions? || ConnectCleanup? || Closing?
      || Sending? || SendCleanup? || FailCleanup?
    }

    predicate AwaitsMain() {
      ConnectLock? || CloseLock? || CallLock? || FailLock? || UnsubscribeLock? || ForgetLock?
    }

    predicate InCall() { CallLock? || Sending? || SendCleanup? || WaitingReply? || FailLock? || FailCleanup? }

    predicate HoldsPrivate() { InCall() && p.SetOptions? }

    /** The socket this task alone is responsible for releasing. */
    function Owns(): Option<Conn> {
      match this
      case LoggingIn(c) => Some(c)
      case SendingOptions(c) => Some(c)
      case ConnectCleanup(c) => Some(c)
      case Closing(c) => Some(c)
      case AwaitingReader(c) => Some(c)
      case SendCleanup(_, c, _) => Some(c)
      case FailCleanup(_, c, _) => Some(c)
      case _ => None
    }

    /** The request this task is making. */
    function Uses(): Option<RpcId> {
      if InCall() && !CallLock? then Some(id) else None
    }
  }

  /** How the awaited operation ends. `Raises` is an error the code expects there (for a call
      waiting for its reply, the timeout); `Interrupted` is a cancel or anything unexpected. */
  datatype Ending = Returns | Raises | Interrupted

  datatype Outcome = Got(m: Message) | Raised

  /** The rest of the caller once its request `id` on `c` is over and unregistered. */
  ghost function Resume(w: World, p: Purpose, c: Conn, id: RpcId, o: Outcome): (World, Option<Pc>) {
    match p
    case Plain => (w, None)
    case Subscribe(_) =>
      if o.Got? && o.m.Reply? && !o.m.error && o.m.result.SubscriptionId? && w.client.ws == Some(c)
      then (w.Return(id), None)
      else (w.Untrack(id), None)
    case Unsubscribe(sid, on) =>
      if o.Got? && o.m.Reply? && o.m.error then (w, None) else (w, Some(ForgetLock(on, sid)))
    case SetOptions(c) => if o.Got? then (w.Answer(c).Mark(c), None) else (w, None)
  }

  /** The rest of the caller when its request was never sent. */
  function Abandon(p: Purpose): Option<Pc> {
    if p.Unsubscribe? then Some(ForgetLock(p.on, p.sid)) else None
  }

  /** From acquiring the main lock to the next suspension. */
  ghost function AfterLock(w: World, pc: Pc): (World, Option<Pc>) {
    match pc
    case ConnectLock => if w.client.ws.Some? then (w, None) else (w, Some(Opening))
    case CloseLock =>
      if w.client.ws.None? then (w, None) else (w.Detach(), Some(Closing(w.client.ws.value)))
    case CallLock(p) =>
      if w.client.ws.None? || (p.Expected().Some? && w.client.ws != p.Expected()) then (w, Abandon(p))
      else (w.Register(w.client.ws.value, p.Hook()), Some(Sending(p, w.client.ws.value, w.client.nextId)))
    case FailLock(p, c, id) =>
      if w.client.ws == Some(c) then (w.Detach(), Some(FailCleanup(p, c, id)))
      else Resume(w.Unregister(id), p, c, id, Raised)
    case UnsubscribeLock(sid) =>
      if sid in w.client.subscriptions then (w, Some(CallLock(Unsubscribe(sid, w.client.ws)))) else (w, None)
    case ForgetLock(on, sid) => (w.Forget(on, sid), None)
    case _ => (w, Some(pc))
  }

  /** From acquiring the private-methods lock to the next suspension. */
  function AfterPrivateLock(w: World): Option<Pc> {
    if w.client.ws.None? || w.client.privateWs == w.client.ws then None
    else Some(CallLock(SetOptions(w.client.ws.value)))
  }

  /** connect() after the login, and after the option if it had to be sent. */
  function Publish(w: World, c: Conn): (World, Option<Pc>) { (w.Publish(c), None) }

  /** Whether the operation `pc` awaits can end this way now. */
  predicate CanEnd(w: World, pc: Pc, e: Ending) {
    match pc
    case AwaitingReader(c) => e.Interrupted? || (e.Returns? && c in w.readers && w.readers[c].Ended?)
    case WaitingReply(_, _, id) =>
      !e.Returns? || (id in w.client.futures && (w.client.futures[id].Answered? || w.client.futures[id].Closed?))
    case FailLock(_, _, _) => e.Interrupted?
    case _ => pc.HoldsMain() || e.Interrupted?
  }

  /** From the end of the awaited operation (other than getting a lock) to the next suspension. */
  ghost function AfterAwait(w: World, pc: Pc, e: Ending): (World, Option<Pc>)
    requires CanEnd(w, pc, e)
  {
    if pc.InCall() then AfterCall(w, pc, e)
    else if pc.Owns().Some? || pc.Opening? then AfterConnection(w, pc, e)
    else (w, None)
  }

  /** In connect() and close(). */
  function AfterConnection(w: World, pc: Pc, e: Ending): (World, Option<Pc>)
    requires (pc.Owns().Some? && !pc.InCall()) || pc.Opening?
  {
    match pc
    case Opening => if e.Returns? then (w.Open(), Some(LoggingIn(w.sockets))) else (w, None)
    case LoggingIn(c) =>
      if e.Returns? then
        if w.client.privateMethods then (w.BumpId(), Some(SendingOptions(c))) else Publish(w, c)
      else if e.Raises? then (w, Some(ConnectCleanup(c)))
      else (w.Release(c), None)
    case SendingOptions(c) =>
      if e.Returns? then Publish(w.Answer(c), c)
      else if e.Raises? then (w, Some(ConnectCleanup(c)))
      else (w.Release(c), None)
    case ConnectCleanup(c) => (w.Release(c), None)
    case Closing(c) => if e.Interrupted? then (w.Release(c), None) else (w, Some(AwaitingReader(c)))
    case AwaitingReader(c) => (w.Release(c), None)
  }

  /** In _call_on_connection() and its callers. */
  ghost function AfterCall(w: World, pc: Pc, e: Ending): (World, Option<Pc>)
    requires CanEnd(w, pc, e) && pc.InCall()
  {
    match pc
    case CallLock(p) => (w, Abandon(p))
    case Sending(p, c, id) =>
      if e.Returns? then (w, Some(WaitingReply(p, c, id)))
      else if e.Raises? && w.client.ws == Some(c) then (w.Unregister(id).Detach(), Some(SendCleanup(p, c, id)))
      else Resume(w.Unregister(id), p, c, id, Raised)
    case SendCleanup(p, c, id) => Resume(w.Release(c), p, c, id, Raised)
    case WaitingReply(p, c, id) =>
      if e.Returns? then
        var f := w.client.futures[id];
        Resume(w.Unregister(id), p, c, id, if f.Answered? then Got(f.reply) else Raised)
      else if e.Raises? then (w.CancelFuture(id), Some(FailLock(p, c, id)))
      else Resume(w.CancelFuture(id).Unregister(id), p, c, id, Raised)
    case FailLock(p, c, id) =>
      Resume((if w.client.ws == Some(c) then w.Detach().Release(c) else w).Unregister(id), p, c, id, Raised)
    case FailCleanup(p, c, id) => Resume(w.Release(c).Unregister(id), p, c, id, Raised)
  }

  datatype State = State(w: World, tasks: map<TaskId, Pc>, lock: Option<TaskId>, privateLock: Option<TaskId>)

  const INIT := State(History.START, map[], None, None)

  /** Task `t` runs to its next suspension, or ends. Each lock is an `async with` block, so it is
      held exactly while the task is suspended inside that block. */
  function Go(s: State, t: TaskId, w: World, pc: Option<Pc>): State {
    State(w, if pc.Some? then s.tasks[t := pc.value] else s.tasks - {t},
          if pc.Some? && pc.value.HoldsMain() then Some(t) else if s.lock == Some(t) then None else s.lock,
          if pc.Some? && pc.value.HoldsPrivate() then Some(t)
          else if s.privateLock == Some(t) then None else s.privateLock)
  }

  datatype Action =
    | Spawn(t: TaskId, pc: Pc)
    | Acquire(t: TaskId)
    | AcquirePrivate(t: TaskId)
    | Unserializable(t: TaskId)       // json.dumps rejects the params, under the lock
    | Await(t: TaskId, e: Ending)
    | CancelWait(t: TaskId)           // cancels the future a call waits on; the call has yet to wake
    | Receive(c: Conn, m: Message)
    | Route(c: Conn)
    | Stop(c: Conn, gone: bool)       // recv() fails: the transport is gone, or the reader crashed
    | CancelReader(c: Conn)

  predicate Entry(pc: Pc) {
    || pc.ConnectLock? || pc.CloseLock? || pc.UnsubscribeLock? || pc.PrivateLock?
    || (pc.CallLock? && (pc.p.Plain? || pc.p.Subscribe?))
  }

  predicate Enabled(s: State, a: Action) {
    match a
    case Spawn(t, pc) => t !in s.tasks && Entry(pc)
    case Acquire(t) => s.lock.None? && t in s.tasks && s.tasks[t].AwaitsMain()
    case AcquirePrivate(t) => s.privateLock.None? && t in s.tasks && s.tasks[t].PrivateLock?
    case Unserializable(t) =>
      && s.lock.None? && t in s.tasks && s.tasks[t].CallLock? && s.w.client.ws.Some?
      && (s.tasks[t].p.Expected().Some? ==> s.w.client.ws == s.tasks[t].p.Expected())
    case Await(t, e) => t in s.tasks && CanEnd(s.w, s.tasks[t], e)
    case CancelWait(t) => t in s.tasks && s.tasks[t].WaitingReply?
    case Receive(c, _) => c in s.w.readers && c in s.w.log && s.w.readers[c].Receiving?
    case Route(c) =>
      && s.lock.None? && c in s.w.readers
      && (s.w.readers[c].Routing? || s.w.readers[c].Updating? || s.w.readers[c].TearingDown?)
    case Stop(c, _) => c in s.w.readers && s.w.readers[c].Receiving?
    case CancelReader(c) => c in s.w.cancelled && c in s.w.readers && !s.w.readers[c].Ended?
  }

  /** What a reader does with a message as it arrives: only the routing takes the lock. */
  function AfterReceive(w: World, c: Conn, m: Message): World
    requires c in w.log
  {
    if m.Collection? && m.collection.None? then
      if m.update.Some? then w.SetReader(c, Updating(m, {})) else w.Logged(c, m)
    else w.SetReader(c, Routing(m))
  }

  ghost predicate Routable(w: World, c: Conn) {
    && c in w.readers && c in w.log
    && (w.readers[c].Routing? || w.readers[c].TearingDown? || (w.readers[c].Updating? && w.readers[c].m.Collection?))
    && w.client.pending <= w.client.futures.Keys && w.client.subscriptions.Keys == w.client.events.Keys
  }

  /** A reader holding the lock, up to its next suspension. */
  ghost function AfterRoute(w: World, c: Conn): World
    requires Routable(w, c)
  {
    match w.readers[c]
    case Routing(m) =>
      (match m
       case Reply(_, _, _) => w.RouteReply(c, m)
       case Event(_, _) => w.RouteEvent(c, m)
       case Collection(_, _, _) => w.RouteCollection(c, m))
    case Updating(m, notified) => w.RouteUpdate(c, m, notified)
    case TearingDown => w.Teardown(c)
  }

  /** Routing looks the subscription tables up: whether it can do so without a `KeyError`. */
  ghost predicate Defined(s: State, a: Action) { a.Route? ==> Routable(s.w, a.c) }

  ghost function Next(s: State, a: Action): State
    requires Enabled(s, a) && Defined(s, a)
  {
    match a
    case Spawn(t, pc) => Go(s, t, if pc.PrivateLock? then s.w.EnablePrivate() else s.w, Some(pc))
    case Acquire(t) => var (w, pc) := AfterLock(s.w, s.tasks[t]); Go(s, t, w, pc)
    case AcquirePrivate(t) => Go(s, t, s.w, AfterPrivateLock(s.w))
    case Unserializable(t) => Go(s, t, s.w.BumpId(), Abandon(s.tasks[t].p))
    case Await(t, e) => var (w, pc) := AfterAwait(s.w, s.tasks[t], e); Go(s, t, w, pc)
    case CancelWait(t) => s.(w := s.w.CancelFuture(s.tasks[t].id))
    case Receive(c, m) => s.(w := AfterReceive(s.w, c, m))
    case Route(c) => s.(w := AfterRoute(s.w, c))
    case Stop(c, gone) =>
      var w := if gone then s.w.(dead := s.w.dead + {c}) else s.w.(crashed := s.w.crashed + {c});
      s.(w := w.SetReader(c, TearingDown))
    case CancelReader(c) =>
      s.(w := s.w.SetReader(c, if s.w.readers[c].TearingDown? then Ended else TearingDown))
  }
}
