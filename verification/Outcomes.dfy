/** What each operation achieves: the invariant alone would hold of a client that does nothing. */
module Outcomes {
  import opened Wire
  import opened Client
  import opened History
  import opened Protocol
  import opened Safety
  import opened Theorems
  import opened Progress
  import opened Delivery

  // ---------------------------------------------------------------- losing a connection

  /** From `f` to `f'` the client lost its connection: it has none, every pending call but `own` that was
      not done has failed, and every tracked queue has one terminator more, at its end. */
  ghost predicate Disconnected(f: Fields, f': Fields, own: Option<RpcId>) {
    && f'.ws.None? && f'.reader.None? && f'.privateWs.None?
    && f'.pending == {} && f'.hooks == map[] && f'.subscriptions == map[] && f'.events == map[]
    && (forall id :: id in f.futures ==> id in f'.futures)
    && (forall id :: id in f.futures && f.futures[id] == Waiting && id in f.pending && own != Some(id) ==>
          f'.futures[id] == Closed)
    && (forall q :: q in f.queues ==> q in f'.queues)
    && (forall q :: q in f.queues && !f.Tracks(q) ==> f'.queues[q] == f.queues[q])
    && (forall q :: q in f.queues && f.Tracks(q) ==> f'.queues[q] == f.queues[q] + [Terminator])
  }

  /** Every other call in flight that was still to be answered is finished. */
  predicate OthersFinished(s: State, s': State, t: TaskId) {
    forall u :: u in s.tasks && u != t && (s.tasks[u].WaitingReply? || s.tasks[u].Sending?)
                && s.tasks[u].id in s.w.client.futures && s.w.client.futures[s.tasks[u].id] == Waiting ==>
      s.tasks[u].id in s'.w.client.futures && s'.w.client.futures[s.tasks[u].id] == Closed
  }

  lemma InFlightPending(s: State, t: TaskId, s': State, own: Option<RpcId>)
    requires PcsOk(s.w, s.tasks) && Apart(s.tasks) && Disconnected(s.w.client, s'.w.client, own)
    requires own.Some? ==> t in s.tasks && s.tasks[t].Uses() == own
    ensures OthersFinished(s, s', t)
  {
    forall u | u in s.tasks && u != t && (s.tasks[u].WaitingReply? || s.tasks[u].Sending?)
      ensures PcOk(s.w, s.tasks[u]) && s.tasks[u].Uses() == Some(s.tasks[u].id) && own != Some(s.tasks[u].id)
    {}
  }

  lemma DetachDisconnects(w: World)
    ensures Disconnected(w.client, w.Detach().client, None)
  {}

  /** The end of a call, after a detach, leaves the client disconnected. */
  lemma ResumeDisconnected(f: Fields, w: World, p: Purpose, c: Conn, id: RpcId, o: Outcome, own: Option<RpcId>)
    requires Disconnected(f, w.client, own)
    ensures Disconnected(f, Resume(w.Unregister(id), p, c, id, o).0.client, own)
  {}

  /** A close() that gets the lock takes the connection away; with none there, it does nothing. */
  lemma CloseDisconnects(s: State, t: TaskId)
    requires Reachable(s) && Enabled(s, Acquire(t)) && s.tasks[t].CloseLock?
    ensures var s' := Next(s, Acquire(t));
            if s.w.client.ws.Some?
            then Disconnected(s.w.client, s'.w.client, None) && OthersFinished(s, s', t)
                 && Closes(s', t, s.w.client.ws.value) && s'.lock == Some(t)
            else s' == s.(tasks := s.tasks - {t})
  {
    ReachableInv(s);
    if s.w.client.ws.Some? {
      DetachDisconnects(s.w);
      InFlightPending(s, t, Next(s, Acquire(t)), None);
    }
  }

  /** So does a timed-out call on the current connection, as soon as it gets the lock. */
  lemma TimeoutDisconnects(s: State, t: TaskId)
    requires Reachable(s) && Enabled(s, Acquire(t)) && s.tasks[t].FailLock? && Current(s, s.tasks[t].c)
    ensures var s' := Next(s, Acquire(t));
            && Disconnected(s.w.client, s'.w.client, None) && OthersFinished(s, s', t)
            && Closes(s', t, s.tasks[t].c) && s'.tasks[t].Uses() == s.tasks[t].Uses()
  {
    ReachableInv(s);
    DetachDisconnects(s.w);
    InFlightPending(s, t, Next(s, Acquire(t)), None);
  }

  /** And one that is cancelled while it waits for the lock, at once. */
  lemma LocklessDisconnects(s: State, t: TaskId)
    requires Reachable(s) && Enabled(s, Await(t, Interrupted)) && s.tasks[t].FailLock? && Current(s, s.tasks[t].c)
    ensures var s' := Next(s, Await(t, Interrupted));
            && Disconnected(s.w.client, s'.w.client, None) && OthersFinished(s, s', t)
            && s.tasks[t].c in s'.w.dead
  {
    ReachableInv(s);
    var FailLock(p, c, id) := s.tasks[t];
    DetachDisconnects(s.w);
    ResumeDisconnected(s.w.client, s.w.Detach().Release(c), p, c, id, Raised, None);
    ResumeDead(s.w.Detach().Release(c).Unregister(id), p, c, id, Raised);
    InFlightPending(s, t, Next(s, Await(t, Interrupted)), None);
  }

  lemma ResumeDead(w: World, p: Purpose, c: Conn, id: RpcId, o: Outcome)
    ensures Resume(w, p, c, id, o).0.dead == w.dead
  {}

  /** A send that fails on the current connection does it too. */
  lemma SendFailureDisconnects(s: State, t: TaskId)
    requires Reachable(s) && Enabled(s, Await(t, Raises)) && s.tasks[t].Sending? && Current(s, s.tasks[t].c)
    ensures var s' := Next(s, Await(t, Raises));
            && Disconnected(s.w.client, s'.w.client, Some(s.tasks[t].id)) && OthersFinished(s, s', t)
            && Closes(s', t, s.tasks[t].c)
  {
    ReachableInv(s);
    SendDisconnects(s.w, s.tasks[t].id);
    InFlightPending(s, t, Next(s, Await(t, Raises)), Some(s.tasks[t].id));
  }

  lemma SendDisconnects(w: World, id: RpcId)
    ensures Disconnected(w.client, w.Unregister(id).Detach().client, Some(id))
  {}

  /** And a reader whose connection is lost, when it gets the lock. */
  lemma LossDisconnects(s: State, c: Conn)
    requires Reachable(s) && Enabled(s, Route(c)) && s.w.readers[c].TearingDown? && Current(s, c)
    ensures Defined(s, Route(c))
    ensures var s' := Next(s, Route(c));
            Disconnected(s.w.client, s'.w.client, None) && forall t :: OthersFinished(s, s', t)
  {
    RouteReady(s, c);
    ReachableInv(s);
    DetachDisconnects(s.w);
    forall t {
      InFlightPending(s, t, Next(s, Route(c)), None);
    }
  }

  /** The steps that take a connection away: a close(), a call that timed out or could not be sent on it,
      and its own reader. */
  predicate Disconnects(s: State, a: Action, c: Conn) {
    match a
    case Acquire(t) => t in s.tasks && (s.tasks[t].CloseLock? || (s.tasks[t].FailLock? && s.tasks[t].c == c))
    case Await(t, e) => t in s.tasks && ((e.Interrupted? && s.tasks[t].FailLock? && s.tasks[t].c == c)
                                         || (e.Raises? && s.tasks[t].Sending? && s.tasks[t].c == c))
    case Route(d) => d == c && c in s.w.readers && s.w.readers[c].TearingDown?
    case _ => false
  }

  /** Exactly these do: a step of any other kind, a cancelled send or wait included, leaves the current
      connection current. */
  lemma DisconnectsExactly(s: State, a: Action, c: Conn)
    requires Reachable(s) && Enabled(s, a) && Defined(s, a) && Current(s, c)
    ensures Disconnects(s, a, c) <==> !Current(Next(s, a), c)
  {
    ReachableInv(s);
    DisconnectsIff(s, a, c);
  }

  lemma DisconnectsIff(s: State, a: Action, c: Conn)
    requires PcsOk(s.w, s.tasks) && Enabled(s, a) && Defined(s, a) && Current(s, c)
    ensures Disconnects(s, a, c) <==> !Current(Next(s, a), c)
  {
    if a.Acquire? {
      AcquireDisconnects(s.w, s.tasks[a.t], c);
    } else if a.Await? {
      assert PcOk(s.w, s.tasks[a.t]);
      AwaitDisconnects(s.w, s.tasks[a.t], a.e, c);
    } else if a.Route? {
      RouteDisconnects(s.w, a.c, c);
    }
  }

  lemma AcquireDisconnects(w: World, pc: Pc, c: Conn)
    requires w.client.ws == Some(c)
    ensures AfterLock(w, pc).0.client.ws == Some(c) <==> !(pc.CloseLock? || (pc.FailLock? && pc.c == c))
  {
    if pc.FailLock? {
      ResumeKeepsFlag(w.Unregister(pc.id), pc.p, pc.c, pc.id, Raised);
    }
  }

  lemma AwaitDisconnects(w: World, pc: Pc, e: Ending, c: Conn)
    requires w.client.ws == Some(c) && PcOk(w, pc) && CanEnd(w, pc, e)
    ensures AfterAwait(w, pc, e).0.client.ws == Some(c)
       <==> !((e.Interrupted? && pc.FailLock? && pc.c == c) || (e.Raises? && pc.Sending? && pc.c == c))
  {
    if pc.InCall() && !pc.CallLock? {
      CallDisconnects(w, pc, e, c);
    }
  }

  lemma CallDisconnects(w: World, pc: Pc, e: Ending, c: Conn)
    requires w.client.ws == Some(c) && CanEnd(w, pc, e) && pc.InCall() && !pc.CallLock?
    ensures AfterCall(w, pc, e).0.client.ws == Some(c)
       <==> !((e.Interrupted? && pc.FailLock? && pc.c == c) || (e.Raises? && pc.Sending? && pc.c == c))
  {
    var (p, d, id) := (pc.p, pc.c, pc.id);
    match pc
    case Sending(_, _, _) => ResumeKeepsFlag(w.Unregister(id), p, d, id, Raised);
    case SendCleanup(_, _, _) => ResumeKeepsFlag(w.Release(d), p, d, id, Raised);
    case WaitingReply(_, _, _) =>
      ResumeKeepsFlag(w.CancelFuture(id).Unregister(id), p, d, id, Raised);
      if e.Returns? {
        var f := w.client.futures[id];
        ResumeKeepsFlag(w.Unregister(id), p, d, id, if f.Answered? then Got(f.reply) else Raised);
      }
    case FailLock(_, _, _) =>
      var w1 := if w.client.ws == Some(d) then w.Detach().Release(d) else w;
      ResumeKeepsFlag(w1.Unregister(id), p, d, id, Raised);
    case FailCleanup(_, _, _) => ResumeKeepsFlag(w.Release(d).Unregister(id), p, d, id, Raised);
  }

  lemma RouteDisconnects(w: World, d: Conn, c: Conn)
    requires Routable(w, d) && w.client.ws == Some(c)
    ensures AfterRoute(w, d).client.ws == Some(c) <==> !(d == c && w.readers[d].TearingDown?)
  {
    if w.readers[d].Routing? && w.readers[d].m.Reply? {
      ReplyKeepsFlag(w, d, w.readers[d].m);
    } else if w.readers[d].TearingDown? {
      assert AfterRoute(w, d) == w.Teardown(d);
    } else {
      FeedingKeepsClient(w, d);
    }
  }

  // ---------------------------------------------------------------- sockets are released

  /** Task `t` is on its way to release socket `c`. */
  predicate Closes(s: State, t: TaskId, c: Conn) {
    t in s.tasks && IsClosing(s.tasks[t], c)
  }

  predicate IsClosing(pc: Pc, c: Conn) {
    (pc.Closing? || pc.AwaitingReader? || pc.SendCleanup? || pc.FailCleanup?) && pc.c == c
  }

  lemma ClosingAwait(w: World, pc: Pc, e: Ending, c: Conn)
    requires CanEnd(w, pc, e) && IsClosing(pc, c)
    ensures var (w', pc') := AfterAwait(w, pc, e);
            (pc'.Some? && IsClosing(pc'.value, c) && pc'.value.Uses() == pc.Uses()) || c in w'.dead
  {
    if pc.InCall() {
      ResumeDead(w.Release(c), pc.p, c, pc.id, Raised);
      ResumeDead(w.Release(c).Unregister(pc.id), pc.p, c, pc.id, Raised);
    }
  }

  /** Socket `c` is released, or task `t` is on its way to, in the same operation as before. */
  predicate Releasing(s: State, t: TaskId, c: Conn, uses: Option<RpcId>) {
    c in s.w.dead || (Closes(s, t, c) && s.tasks[t].Uses() == uses)
  }

  lemma ClosingStep(s: State, a: Action, t: TaskId, c: Conn)
    requires Enabled(s, a) && Defined(s, a) && Closes(s, t, c)
    ensures Releasing(Next(s, a), t, c, s.tasks[t].Uses())
  {
    if a.Await? && a.t == t {
      ClosingAwait(s.w, s.tasks[t], a.e, c);
    }
  }

  /** In every run, a task on its way to release a socket lets go of it only when it has. */
  lemma {:induction false} ClosersRelease(ss: seq<State>, steps: seq<Action>, i: nat, j: nat, t: TaskId, c: Conn)
    requires Run(ss, steps) && i <= j < |ss| && Closes(ss[i], t, c)
    ensures Releasing(ss[j], t, c, ss[i].tasks[t].Uses())
  {
    if i < j {
      ClosersRelease(ss, steps, i, j - 1, t, c);
      ReleasingNext(ss, steps, j - 1, t, c, ss[i].tasks[t].Uses());
    }
  }

  lemma ReleasingNext(ss: seq<State>, steps: seq<Action>, i: nat, t: TaskId, c: Conn, uses: Option<RpcId>)
    requires Run(ss, steps) && i < |steps| && Releasing(ss[i], t, c, uses)
    ensures Releasing(ss[i + 1], t, c, uses)
  {
    RunStep(ss, steps, i);
    if c in ss[i].w.dead {
      RunStepLater(ss, steps, i);
    } else {
      ClosingStep(ss[i], steps[i], t, c);
    }
  }

  /** In every run, when a close() that got the lock ends, however its awaits end, the socket that was
      current then is released. */
  lemma CloseReleases(ss: seq<State>, steps: seq<Action>, i: nat, j: nat, t: TaskId, c: Conn)
    requires Run(ss, steps) && i < j < |ss| && steps[i] == Acquire(t)
    requires t in ss[i].tasks && ss[i].tasks[t].CloseLock? && Current(ss[i], c)
    requires t !in ss[j].tasks
    ensures c in ss[j].w.dead
  {
    RunReachable(ss, steps, i);
    RunStep(ss, steps, i);
    CloseDisconnects(ss[i], t);
    ClosersRelease(ss, steps, i + 1, j, t, c);
  }

  /** So it is when a timed-out call that found its connection current ends. */
  lemma TimeoutReleases(ss: seq<State>, steps: seq<Action>, i: nat, j: nat, t: TaskId, c: Conn)
    requires Run(ss, steps) && i < j < |ss| && (steps[i] == Acquire(t) || steps[i] == Await(t, Interrupted))
    requires t in ss[i].tasks && ss[i].tasks[t].FailLock? && ss[i].tasks[t].c == c && Current(ss[i], c)
    requires t !in ss[j].tasks || ss[j].tasks[t].Uses() != ss[i].tasks[t].Uses()
    ensures c in ss[j].w.dead
  {
    RunReachable(ss, steps, i);
    RunStep(ss, steps, i);
    RunLater(ss, steps, i + 1, j);
    if steps[i] == Acquire(t) {
      TimeoutDisconnects(ss[i], t);
      ClosersRelease(ss, steps, i + 1, j, t, c);
    } else {
      LocklessDisconnects(ss[i], t);
    }
  }

  // ---------------------------------------------------------------- old connections stay old

  lemma ReadersStay(s: State, a: Action, c: Conn)
    requires s.w.Conns() && PcsOk(s.w, s.tasks) && Enabled(s, a) && Defined(s, a) && c in s.w.readers
    ensures c in Next(s, a).w.readers
  {
    if !MovesReader(a, c) {
      ReaderAlone(s, a, c);
    } else if a.Route? {
      RouteLogs(s.w, c);
    }
  }

  /** A connection that is no longer the current one never is again. */
  lemma OldStaysOld(s: State, a: Action, c: Conn)
    requires PcsOk(s.w, s.tasks) && Enabled(s, a) && Defined(s, a) && c in s.w.readers && !Current(s, c)
    ensures !Current(Next(s, a), c)
  {
    match a
    case Acquire(t) => AcquireKeepsFlag(s.w, s.tasks[t]);
    case Await(t, e) =>
      assert PcOk(s.w, s.tasks[t]);
      AwaitOld(s.w, s.tasks[t], e, c);
    case Route(d) => RouteKeepsFlag(s.w, d);
    case _ =>
  }

  lemma AwaitOld(w: World, pc: Pc, e: Ending, c: Conn)
    requires PcOk(w, pc) && CanEnd(w, pc, e) && c in w.readers && w.client.ws != Some(c)
    ensures AfterAwait(w, pc, e).0.client.ws != Some(c)
  {
    if pc.InCall() {
      CallKeepsWs(w, pc, e);
    }
  }

  lemma CallKeepsWs(w: World, pc: Pc, e: Ending)
    requires CanEnd(w, pc, e) && pc.InCall()
    ensures var w' := AfterCall(w, pc, e).0; w'.client.ws == w.client.ws || w'.client.ws.None?
  {
    if !pc.CallLock? {
      var (p, c, id) := (pc.p, pc.c, pc.id);
      match pc
      case Sending(_, _, _) => ResumeKeepsFlag(w.Unregister(id), p, c, id, Raised);
      case SendCleanup(_, _, _) => ResumeKeepsFlag(w.Release(c), p, c, id, Raised);
      case WaitingReply(_, _, _) =>
        ResumeKeepsFlag(w.CancelFuture(id).Unregister(id), p, c, id, Raised);
        if e.Returns? {
          var f := w.client.futures[id];
          ResumeKeepsFlag(w.Unregister(id), p, c, id, if f.Answered? then Got(f.reply) else Raised);
        }
      case FailLock(_, _, _) =>
        var w1 := if w.client.ws == Some(c) then w.Detach().Release(c) else w;
        ResumeKeepsFlag(w1.Unregister(id), p, c, id, Raised);
      case FailCleanup(_, _, _) => ResumeKeepsFlag(w.Release(c).Unregister(id), p, c, id, Raised);
    }
  }

  /** The call `id` of task `t` timed out on `c` and has yet to get the lock, or `c` is not current. */
  predicate Failing(s: State, t: TaskId, c: Conn, id: RpcId) {
    && c in s.w.readers
    && (Current(s, c) ==> t in s.tasks && s.tasks[t].FailLock? && s.tasks[t].c == c && s.tasks[t].id == id)
  }

  lemma FailingStep(s: State, a: Action, t: TaskId, c: Conn, id: RpcId)
    requires s.w.Conns() && PcsOk(s.w, s.tasks) && Enabled(s, a) && Defined(s, a) && Failing(s, t, c, id)
    ensures Failing(Next(s, a), t, c, id)
  {
    ReadersStay(s, a, c);
    if !Current(s, c) {
      OldStaysOld(s, a, c);
    } else if a == Acquire(t) || (a.Await? && a.t == t) {
      DisconnectsIff(s, a, c);
    } else {
      OthersWait(s, a, t);
    }
  }

  lemma OthersWait(s: State, a: Action, t: TaskId)
    requires Enabled(s, a) && Defined(s, a) && t in s.tasks && s.tasks[t].FailLock?
    requires a != Acquire(t) && !(a.Await? && a.t == t)
    ensures t in Next(s, a).tasks && Next(s, a).tasks[t] == s.tasks[t]
  {}

  lemma {:induction false} StillFailing(ss: seq<State>, steps: seq<Action>, i: nat, j: nat, t: TaskId,
                                        c: Conn, id: RpcId)
    requires Run(ss, steps) && i <= j < |ss| && Failing(ss[i], t, c, id)
    ensures Failing(ss[j], t, c, id)
  {
    if i < j {
      StillFailing(ss, steps, i, j - 1, t, c, id);
      FailingNext(ss, steps, j - 1, t, c, id);
    }
  }

  /** In every run, once a call that timed out on a connection is over, that connection is not current
      and never will be, whoever closed it. */
  lemma TimeoutLosesConnection(ss: seq<State>, steps: seq<Action>, i: nat, j: nat, t: TaskId)
    requires Run(ss, steps) && i < j < |ss| && steps[i] == Await(t, Raises)
    requires t in ss[i].tasks && ss[i].tasks[t].WaitingReply? && !UsedBy(ss[j], t, ss[i].tasks[t].id)
    ensures !Current(ss[j], ss[i].tasks[t].c)
  {
    RunInv(ss, steps, i);
    RunStep(ss, steps, i);
    FailingStarts(ss[i], t);
    StillFailing(ss, steps, i + 1, j, t, ss[i].tasks[t].c, ss[i].tasks[t].id);
  }

  lemma FailingNext(ss: seq<State>, steps: seq<Action>, i: nat, t: TaskId, c: Conn, id: RpcId)
    requires Run(ss, steps) && i < |steps| && Failing(ss[i], t, c, id)
    ensures Failing(ss[i + 1], t, c, id)
  {
    RunInv(ss, steps, i);
    RunStep(ss, steps, i);
    FailingStep(ss[i], steps[i], t, c, id);
  }

  lemma FailingStarts(s: State, t: TaskId)
    requires s.w.Ids() && PcsOk(s.w, s.tasks) && t in s.tasks && s.tasks[t].WaitingReply?
    ensures Failing(Next(s, Await(t, Raises)), t, s.tasks[t].c, s.tasks[t].id)
  {
    assert PcOk(s.w, s.tasks[t]);
  }

  // ---------------------------------------------------------------- unsubscribing

  /** One queue is untracked, with a terminator at its end; the others stay as they are. */
  ghost predicate Unsubscribed(f: Fields, f': Fields, sid: string) {
    && sid in f.subscriptions && sid !in f'.subscriptions && sid !in f'.events
    && f'.subscriptions == f.subscriptions - {sid} && f'.queues.Keys == f.queues.Keys
    && forall q :: q in f.queues ==>
         f'.queues[q] == f.queues[q] + if q == f.subscriptions[sid] then [Terminator] else []
  }

  /** The last step of an unsubscribe(): it ends the subscription, if its connection is still current. */
  lemma ForgetEnds(s: State, t: TaskId)
    requires Enabled(s, Acquire(t)) && s.tasks[t].ForgetLock?
    ensures var (s', sid) := (Next(s, Acquire(t)), s.tasks[t].sid);
            && t !in s'.tasks
            && (if s.w.client.ws == s.tasks[t].on && sid in s.w.client.subscriptions
                then Unsubscribed(s.w.client, s'.w.client, sid) else s'.w == s.w)
  {}

  /** Task `t` is in an unsubscribe() from `sid`, which was tracked on `on`. */
  predicate Unsubscribing(s: State, t: TaskId, sid: string, on: Option<Conn>) {
    t in s.tasks && ((s.tasks[t].InCall() && s.tasks[t].p == Unsubscribe(sid, on)) || s.tasks[t] == ForgetLock(on, sid))
  }

  /** The server refused to unsubscribe. */
  predicate Refused(s: State, a: Action, t: TaskId) {
    && a == Await(t, Returns) && t in s.tasks && s.tasks[t].WaitingReply? && s.tasks[t].id in s.w.client.futures
    && s.w.client.futures[s.tasks[t].id].Answered?
    && s.w.client.futures[s.tasks[t].id].reply.Reply? && s.w.client.futures[s.tasks[t].id].reply.error
  }

  /** It was cancelled again as it waited for the lock to end the subscription. */
  predicate GaveUp(s: State, a: Action, t: TaskId) {
    a == Await(t, Interrupted) && t in s.tasks && s.tasks[t].ForgetLock?
  }

  lemma UnsubscribingStep(s: State, a: Action, t: TaskId, sid: string, on: Option<Conn>)
    requires Enabled(s, a) && Defined(s, a) && Unsubscribing(s, t, sid, on)
    ensures || Unsubscribing(Next(s, a), t, sid, on)
            || (t !in Next(s, a).tasks
                && (Refused(s, a, t) || GaveUp(s, a, t) || (a == Acquire(t) && s.tasks[t] == ForgetLock(on, sid))))
  {}

  lemma {:induction false} StillUnsubscribing(ss: seq<State>, steps: seq<Action>, i: nat, j: nat, t: TaskId,
                                              sid: string)
    requires Run(ss, steps) && i < j < |ss| && steps[i] == Acquire(t)
    requires t in ss[i].tasks && ss[i].tasks[t] == UnsubscribeLock(sid) && sid in ss[i].w.client.subscriptions
    requires forall k :: i < k <= j ==> t in ss[k].tasks
    ensures Unsubscribing(ss[j], t, sid, ss[i].w.client.ws)
  {
    RunStep(ss, steps, j - 1);
    if i < j - 1 {
      StillUnsubscribing(ss, steps, i, j - 1, t, sid);
      UnsubscribingStep(ss[j - 1], steps[j - 1], t, sid, ss[i].w.client.ws);
    }
  }

  /** In every run, when an unsubscribe() from a tracked id ends, whatever happened to its request and
      its connection, the queue is no longer tracked -- except if the server refused, or if the caller was
      cancelled once more while it waited for the lock. */
  lemma UnsubscribeEnds(ss: seq<State>, steps: seq<Action>, i: nat, j: nat, t: TaskId, sid: string)
    requires Run(ss, steps) && i < j < |steps| && steps[i] == Acquire(t)
    requires t in ss[i].tasks && ss[i].tasks[t] == UnsubscribeLock(sid) && sid in ss[i].w.client.subscriptions
    requires (forall k :: i < k <= j ==> t in ss[k].tasks) && t !in ss[j + 1].tasks
    ensures || Refused(ss[j], steps[j], t) || GaveUp(ss[j], steps[j], t)
            || !Tracked(ss[j + 1], ss[i].w.client.subscriptions[sid])
  {
    var (q, on) := (ss[i].w.client.subscriptions[sid], ss[i].w.client.ws);
    StillUnsubscribing(ss, steps, i, j, t, sid);
    RunStep(ss, steps, j);
    UnsubscribingStep(ss[j], steps[j], t, sid, on);
    if steps[j] == Acquire(t) {
      RunInv(ss, steps, i);
      RunInv(ss, steps, j);
      TrackedSub(ss[i].w, sid);
      SubStays(ss, steps, i, j, q);
      ForgetUntracks(ss[j], t, q);
    }
  }

  lemma TrackedSub(w: World, sid: string)
    requires w.Tables() && sid in w.client.subscriptions
    ensures var q := w.client.subscriptions[sid];
            q in w.subs && q in w.client.queues && w.subs[q].sid == sid && w.client.ws == Some(w.subs[q].conn)
  {}

  lemma ForgetUntracks(s: State, t: TaskId, q: RpcId)
    requires s.w.Tables() && Enabled(s, Acquire(t)) && s.tasks[t].ForgetLock?
    requires q in s.w.subs && s.w.subs[q].sid == s.tasks[t].sid && Some(s.w.subs[q].conn) == s.tasks[t].on
    ensures !Tracked(Next(s, Acquire(t)), q)
  {
    ForgetEnds(s, t);
    if Tracked(s, q) {
      var sid :| sid in s.w.client.subscriptions && s.w.client.subscriptions[sid] == q;
      assert sid == s.tasks[t].sid && s.w.client.ws == s.tasks[t].on;
    }
  }
}
