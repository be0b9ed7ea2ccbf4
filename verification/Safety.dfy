/** The protocol invariant, and that every step keeps it. */
module Safety {
  import opened Wire
  import opened Client
  import opened History
  import opened Protocol

  ghost predicate IdOk(w: World, p: Purpose, c: Conn, id: RpcId) {
    && id in w.sentOn && w.sentOn[id] == c
    && (p.Expected().Some? ==> p.Expected() == Some(c))
    && (p.Subscribe? ==>
          && id !in w.returned && id in w.client.queues
          && (id in w.subs && w.subs[id].end.Some? ==> w.subs[id].end.value.how != Untracked))
  }

  /** A call that can still be answered is in the pending table, with its hook if it has one; once it is
      answered with a subscription id, its queue has been registered. */
  ghost predicate CallOk(w: World, p: Purpose, c: Conn, id: RpcId) {
    && IdOk(w, p, c, id)
    && id in w.client.futures
    && (w.client.futures[id] == Waiting ==>
          && id in w.client.pending
          && (if p.Subscribe? then id in w.client.hooks && w.client.hooks[id] == p.event else id !in w.client.hooks))
    && (p.Subscribe? && w.client.futures[id].Answered? && w.client.futures[id].reply.Reply?
        && w.client.futures[id].reply.result.SubscriptionId? ==>
          id in w.subs && w.subs[id].sid == w.client.futures[id].reply.result.sid && w.subs[id].event == p.event)
  }

  ghost predicate PurposeOk(w: World, p: Purpose) {
    match p
    case Unsubscribe(_, on) => on.Some? && on.value in w.readers
    case SetOptions(c) => c in w.readers && c !in w.marked
    case _ => true
  }

  /** What a task suspended at `pc` may rely on, whatever the others do meanwhile. */
  ghost predicate PcOk(w: World, pc: Pc) {
    match pc
    case Opening => w.client.ws.None?
    case LoggingIn(c) => w.client.ws.None? && c < w.sockets && c !in w.readers
    case SendingOptions(c) => w.client.ws.None? && c < w.sockets && c !in w.readers
    case ConnectCleanup(c) => w.client.ws.None? && c < w.sockets && c !in w.readers
    case Closing(c) => w.client.ws.None? && c in w.readers
    case AwaitingReader(c) => w.client.ws != Some(c) && c in w.readers
    case CallLock(p) => PurposeOk(w, p)
    case Sending(p, c, id) => PurposeOk(w, p) && CallOk(w, p, c, id) && (w.client.ws.None? || w.client.ws == Some(c))
    case SendCleanup(p, c, id) => PurposeOk(w, p) && IdOk(w, p, c, id) && c in w.readers && w.client.ws.None?
    case WaitingReply(p, c, id) => PurposeOk(w, p) && CallOk(w, p, c, id)
    case FailLock(p, c, id) => PurposeOk(w, p) && CallOk(w, p, c, id) && w.client.futures[id] != Waiting
    case FailCleanup(p, c, id) => PurposeOk(w, p) && IdOk(w, p, c, id) && c in w.readers && w.client.ws.None?
    case ForgetLock(on, _) => on.Some? && on.value in w.readers
    case _ => true
  }

  ghost predicate PcsOk(w: World, tasks: map<TaskId, Pc>) {
    forall t :: t in tasks ==> PcOk(w, tasks[t])
  }

  /** Each lock is held by exactly the one task that is suspended inside its block. */
  ghost predicate LocksOk(tasks: map<TaskId, Pc>, lock: Option<TaskId>, privateLock: Option<TaskId>) {
    && (forall t :: t in tasks ==> (tasks[t].HoldsMain() <==> lock == Some(t)))
    && (lock.Some? ==> lock.value in tasks)
    && (forall t :: t in tasks ==> (tasks[t].HoldsPrivate() <==> privateLock == Some(t)))
    && (privateLock.Some? ==> privateLock.value in tasks)
  }

  /** No two tasks own one socket or use one request id. */
  ghost predicate Apart(tasks: map<TaskId, Pc>) {
    forall t, u :: t in tasks && u in tasks && t != u ==>
      && (tasks[t].Owns().Some? ==> tasks[t].Owns() != tasks[u].Owns())
      && (tasks[t].Uses().Some? ==> tasks[t].Uses() != tasks[u].Uses())
  }

  /** Every socket that is open and whose reader did not crash is current, or some task's to release. */
  ghost predicate SocketsOk(w: World, tasks: map<TaskId, Pc>) {
    forall c: Conn :: c < w.sockets && c !in w.dead + w.crashed && w.client.ws != Some(c) ==>
      exists t :: t in tasks && tasks[t].Owns() == Some(c)
  }

  /** Every pending call is some live task's. */
  ghost predicate PendingOk(w: World, tasks: map<TaskId, Pc>) {
    forall id :: id in w.client.pending ==> exists t :: t in tasks && tasks[t].Uses() == Some(id)
  }

  ghost predicate Inv(s: State) {
    && s.w.Ok()
    && PcsOk(s.w, s.tasks)
    && LocksOk(s.tasks, s.lock, s.privateLock)
    && Apart(s.tasks)
    && SocketsOk(s.w, s.tasks)
    && PendingOk(s.w, s.tasks)
  }

  lemma InitInv()
    ensures Inv(INIT)
  {
    StartOk();
  }

  // ---------------------------------------------------------------- one step of one task

  predicate OwnedBy(s: State, t: TaskId, c: Conn) { t in s.tasks && s.tasks[t].Owns() == Some(c) }
  predicate UsedBy(s: State, t: TaskId, id: RpcId) { t in s.tasks && s.tasks[t].Uses() == Some(id) }

  /** What task `t` must see to when it moves the world to `w` and itself to `pc`. */
  ghost predicate Fits(s: State, t: TaskId, w: World, pc: Option<Pc>) {
    && w.Ok()
    && (forall u :: u in s.tasks && u != t ==> PcOk(w, s.tasks[u]))
    && LockFits(s, t, pc)
    && SocketFits(s, t, w, pc)
    && IdFits(s, t, w, pc)
  }

  ghost predicate LockFits(s: State, t: TaskId, pc: Option<Pc>) {
    pc.Some? ==>
      && (pc.value.HoldsMain() ==> s.lock.None? || s.lock == Some(t))
      && (pc.value.HoldsPrivate() ==> s.privateLock.None? || s.privateLock == Some(t))
  }

  /** It takes charge only of a socket that was its own, current or new, and drops none. */
  ghost predicate SocketFits(s: State, t: TaskId, w: World, pc: Option<Pc>) {
    && (pc.Some? ==> PcOk(w, pc.value))
    && (pc.Some? && pc.value.Owns().Some? ==>
          var c := pc.value.Owns().value;
          OwnedBy(s, t, c) || s.w.client.ws == Some(c) || c >= s.w.sockets)
    && (forall c: Conn :: c < w.sockets && c !in w.dead + w.crashed && w.client.ws != Some(c)
                          && (pc.Some? ==> pc.value.Owns() != Some(c)) ==>
          c < s.w.sockets && c !in s.w.dead + s.w.crashed && s.w.client.ws != Some(c) && !OwnedBy(s, t, c))
  }

  ghost predicate IdFits(s: State, t: TaskId, w: World, pc: Option<Pc>) {
    && (pc.Some? && pc.value.Uses().Some? ==>
          var id := pc.value.Uses().value;
          UsedBy(s, t, id) || id !in s.w.sentOn)
    && (forall id :: id in w.client.pending && (pc.Some? ==> pc.value.Uses() != Some(id)) ==>
          id in s.w.client.pending && !UsedBy(s, t, id))
  }

  lemma GoInv(s: State, t: TaskId, w: World, pc: Option<Pc>)
    requires Inv(s) && Fits(s, t, w, pc)
    ensures Inv(Go(s, t, w, pc))
  {
    var s' := Go(s, t, w, pc);
    GoLocks(s, t, w, pc);
    GoApart(s, t, w, pc);
    GoAccounts(s, t, w, pc);
  }

  lemma GoLocks(s: State, t: TaskId, w: World, pc: Option<Pc>)
    requires LocksOk(s.tasks, s.lock, s.privateLock) && LockFits(s, t, pc)
    ensures var s' := Go(s, t, w, pc); LocksOk(s'.tasks, s'.lock, s'.privateLock)
  {}

  lemma UsesSent(w: World, pc: Pc)
    requires PcOk(w, pc) && w.Ids() && w.Conns()
    ensures pc.Uses().Some? ==> pc.Uses().value in w.sentOn
    ensures pc.Owns().Some? ==> pc.Owns().value < w.sockets && w.client.ws != pc.Owns()
  {}

  lemma GoApart(s: State, t: TaskId, w: World, pc: Option<Pc>)
    requires s.w.Ids() && s.w.Conns() && PcsOk(s.w, s.tasks) && Apart(s.tasks)
    requires SocketFits(s, t, w, pc) && IdFits(s, t, w, pc)
    ensures Apart(Go(s, t, w, pc).tasks)
  {
    forall u | u in s.tasks && u != t
      ensures pc.Some? && pc.value.Owns().Some? ==> s.tasks[u].Owns() != pc.value.Owns()
      ensures pc.Some? && pc.value.Uses().Some? ==> s.tasks[u].Uses() != pc.value.Uses()
    {
      UsesSent(s.w, s.tasks[u]);
    }
  }

  lemma GoAccounts(s: State, t: TaskId, w: World, pc: Option<Pc>)
    requires SocketsOk(s.w, s.tasks) && PendingOk(s.w, s.tasks)
    requires SocketFits(s, t, w, pc) && IdFits(s, t, w, pc)
    ensures SocketsOk(w, Go(s, t, w, pc).tasks) && PendingOk(w, Go(s, t, w, pc).tasks)
  {
    var tasks := Go(s, t, w, pc).tasks;
    forall c: Conn | c < w.sockets && c !in w.dead + w.crashed && w.client.ws != Some(c)
      ensures exists u :: u in tasks && tasks[u].Owns() == Some(c)
    {
      if pc.Some? && pc.value.Owns() == Some(c) {
        assert tasks[t].Owns() == Some(c);
      } else {
        var u :| u in s.tasks && s.tasks[u].Owns() == Some(c);
        assert u != t && tasks[u].Owns() == Some(c);
      }
    }
    forall id | id in w.client.pending
      ensures exists u :: u in tasks && tasks[u].Uses() == Some(id)
    {
      if pc.Some? && pc.value.Uses() == Some(id) {
        assert tasks[t].Uses() == Some(id);
      } else {
        var u :| u in s.tasks && s.tasks[u].Uses() == Some(id);
        assert u != t && tasks[u].Uses() == Some(id);
      }
    }
  }

  // ---------------------------------------------------------------- what others rely on survives

  lemma IdStepsPc(w: World, pc: Pc)
    requires PcOk(w, pc)
    ensures PcOk(w.Open(), pc) && PcOk(w.BumpId(), pc)
  {}

  lemma AnswerPc(w: World, c: Conn, pc: Pc)
    requires PcOk(w, pc)
    ensures PcOk(w.Answer(c), pc)
  {}

  lemma EnablePrivatePc(w: World, pc: Pc)
    requires PcOk(w, pc)
    ensures PcOk(w.EnablePrivate(), pc)
  {}

  lemma ReleasePc(w: World, c: Conn, pc: Pc)
    requires PcOk(w, pc)
    ensures PcOk(w.Release(c), pc)
  {}

  lemma PublishPc(w: World, c: Conn, pc: Pc)
    requires PcOk(w, pc) && !pc.HoldsMain() && c !in w.readers
    ensures PcOk(w.Publish(c), pc)
  {}

  lemma RegisterPc(w: World, c: Conn, hook: Option<string>, pc: Pc)
    requires PcOk(w, pc) && w.Ids()
    ensures PcOk(w.Register(c, hook), pc)
  {}

  lemma UnregisterPc(w: World, id: RpcId, pc: Pc)
    requires PcOk(w, pc) && pc.Uses() != Some(id)
    ensures PcOk(w.Unregister(id), pc)
  {}

  lemma CancelFuturePc(w: World, id: RpcId, pc: Pc)
    requires PcOk(w, pc)
    ensures PcOk(w.CancelFuture(id), pc)
  {}

  lemma DetachPc(w: World, pc: Pc)
    requires PcOk(w, pc) && w.Ids()
    ensures PcOk(w.Detach(), pc)
  {}

  lemma ReturnPc(w: World, q: RpcId, pc: Pc)
    requires PcOk(w, pc) && pc.Uses() != Some(q)
    ensures PcOk(w.Return(q), pc)
  {}

  lemma UntrackPc(w: World, q: RpcId, pc: Pc)
    requires PcOk(w, pc) && pc.Uses() != Some(q)
    ensures PcOk(w.Untrack(q), pc)
  {}

  lemma ForgetPc(w: World, on: Option<Conn>, sid: string, pc: Pc)
    requires PcOk(w, pc)
    ensures PcOk(w.Forget(on, sid), pc)
  {}

  lemma MarkPc(w: World, c: Conn, pc: Pc)
    requires PcOk(w, pc) && !pc.HoldsPrivate()
    ensures PcOk(w.Mark(c), pc)
  {}

  lemma SetReaderPc(w: World, c: Conn, r: Reader, pc: Pc)
    requires PcOk(w, pc) && c in w.readers
    ensures PcOk(w.SetReader(c, r), pc)
  {}

  lemma PutPc(w: World, qs: set<RpcId>, m: Message, pc: Pc)
    requires PcOk(w, pc)
    ensures PcOk(w.(client := w.client.Put(qs, Note(m))), pc)
  {}

  lemma LoggedPc(w: World, c: Conn, m: Message, pc: Pc)
    requires PcOk(w, pc) && c in w.readers && c in w.log
    ensures PcOk(w.Logged(c, m), pc)
  {}

  lemma RouteReplyId(w: World, c: Conn, m: Message, p: Purpose, on: Conn, id: RpcId)
    requires IdOk(w, p, on, id) && w.Ids() && m.Reply? && c in w.log
    ensures IdOk(w.RouteReply(c, m), p, on, id)
  {}

  lemma RouteReplyCall(w: World, c: Conn, m: Message, p: Purpose, on: Conn, id: RpcId)
    requires CallOk(w, p, on, id) && w.Ids() && m.Reply? && c in w.log
    ensures CallOk(w.RouteReply(c, m), p, on, id)
    ensures w.client.futures[id] != Waiting ==> w.RouteReply(c, m).client.futures[id] != Waiting
  {
    RouteReplyId(w, c, m, p, on, id);
    if w.Registers(c, m) {
      assert m.id in w.client.hooks;
    } else {
      RouteReplyKeeps(w, c, m);
    }
  }

  lemma RouteReplyPc(w: World, c: Conn, m: Message, pc: Pc)
    requires PcOk(w, pc) && w.Ids() && m.Reply? && c in w.readers && c in w.log
    ensures PcOk(w.RouteReply(c, m), pc)
  {
    if pc.Sending? || pc.WaitingReply? || pc.FailLock? {
      RouteReplyCall(w, c, m, pc.p, pc.c, pc.id);
    } else if pc.SendCleanup? || pc.FailCleanup? {
      RouteReplyId(w, c, m, pc.p, pc.c, pc.id);
    }
    RouteReplyReaders(w, c, m);
  }

  lemma RouteReplyReaders(w: World, c: Conn, m: Message)
    requires m.Reply? && c in w.readers && c in w.log && w.client.pending <= w.client.futures.Keys
    ensures var w' := w.RouteReply(c, m);
            w'.readers.Keys == w.readers.Keys && w'.marked == w.marked && w'.sockets == w.sockets
            && w'.client.ws == w.client.ws
  {}

  // ---------------------------------------------------------------- the end of a call

  /** What a call knows when its request is over and unregistered. */
  ghost predicate Over(w: World, p: Purpose, c: Conn, id: RpcId, o: Outcome) {
    && w.Ok() && PurposeOk(w, p) && IdOk(w, p, c, id) && id !in w.client.pending
    && (o.Got? && p.Subscribe? && o.m.Reply? && o.m.result.SubscriptionId? ==> id in w.subs)
  }

  lemma ResumeOk(w: World, p: Purpose, c: Conn, id: RpcId, o: Outcome)
    requires Over(w, p, c, id, o)
    ensures Resume(w, p, c, id, o).0.Ok()
  {
    if p.Subscribe? {
      ResumeSubscribeOk(w, p, c, id, o);
    } else if p.SetOptions? {
      AnswerMarkOk(w, p.target);
    } else {
      assert Resume(w, p, c, id, o).0 == w;
    }
  }

  lemma ResumeKeeps(w: World, p: Purpose, c: Conn, id: RpcId, o: Outcome)
    requires PurposeOk(w, p)
    ensures var (w', pc) := Resume(w, p, c, id, o); Resumed(w, w', pc)
  {}

  /** What the end of a call leaves alone, and where its task may go on. */
  ghost predicate Resumed(w: World, w': World, pc: Option<Pc>) {
    && (pc.Some? ==> PcOk(w', pc.value) && pc.value.ForgetLock?)
    && w'.client.ws == w.client.ws && w'.client.pending == w.client.pending
    && w'.sockets == w.sockets && w'.dead == w.dead && w'.crashed == w.crashed
  }

  lemma ResumeSubscribeOk(w: World, p: Purpose, c: Conn, id: RpcId, o: Outcome)
    requires Over(w, p, c, id, o) && p.Subscribe?
    ensures Resume(w, p, c, id, o).0.Ok()
  {
    if o.Got? && o.m.Reply? && !o.m.error && o.m.result.SubscriptionId? && w.client.ws == Some(c) {
      ReturnOk(w, id);
    } else {
      UntrackOk(w, id);
    }
  }

  lemma AnswerMarkOk(w: World, c: Conn)
    requires w.Ok()
    ensures w.Answer(c).Mark(c).Ok()
  {
    AnswerOk(w, c);
    MarkOk(w.Answer(c), c);
  }

  lemma ResumePc(w: World, p: Purpose, c: Conn, id: RpcId, o: Outcome, other: Pc)
    requires PcOk(w, other) && other.Uses() != Some(id) && (p.SetOptions? ==> !other.HoldsPrivate())
    ensures PcOk(Resume(w, p, c, id, o).0, other)
  {
    match p
    case Plain =>
    case Subscribe(_) => ReturnPc(w, id, other); UntrackPc(w, id, other);
    case Unsubscribe(_, _) =>
    case SetOptions(on) => AnswerPc(w, on, other); MarkPc(w.Answer(on), on, other);
  }

  /** A task may stop, or go on to wait for the lock, once nothing is left in its charge. */
  lemma LeaveFits(s: State, t: TaskId, w: World, pc: Option<Pc>)
    requires pc.Some? ==> PcOk(w, pc.value) && pc.value.Owns().None? && pc.value.Uses().None?
                          && !pc.value.HoldsMain()
                          && (pc.value.HoldsPrivate() ==> s.privateLock.None? || s.privateLock == Some(t))
    requires w.sockets == s.w.sockets && s.w.dead <= w.dead && s.w.crashed <= w.crashed
    requires w.client.pending <= s.w.client.pending
    requires w.client.ws != s.w.client.ws ==> s.w.client.ws.Some? && s.w.client.ws.value in w.dead
    requires t in s.tasks && s.tasks[t].Owns().Some? ==> s.tasks[t].Owns().value in w.dead
    requires t in s.tasks && s.tasks[t].Uses().Some? ==> s.tasks[t].Uses().value !in w.client.pending
    ensures LockFits(s, t, pc) && SocketFits(s, t, w, pc) && IdFits(s, t, w, pc)
  {}

  /** So may one that leaves the world as it is. */
  lemma IdleFits(s: State, t: TaskId, pc: Option<Pc>)
    requires s.w.Ok() && PcsOk(s.w, s.tasks)
    requires t in s.tasks && s.tasks[t].Owns().None? && s.tasks[t].Uses().None?
    requires pc.Some? ==> PcOk(s.w, pc.value) && pc.value.Owns().None? && pc.value.Uses().None?
                          && !pc.value.HoldsMain() && !pc.value.HoldsPrivate()
    ensures Fits(s, t, s.w, pc)
  {
    LeaveFits(s, t, s.w, pc);
  }

  /** A task whose call is over, and that leaves no socket behind, may resume its caller. */
  lemma ResumeFits(s: State, t: TaskId, w: World, p: Purpose, c: Conn, id: RpcId, o: Outcome)
    requires LocksOk(s.tasks, s.lock, s.privateLock) && Apart(s.tasks)
    requires t in s.tasks && s.tasks[t].InCall() && s.tasks[t].p == p && s.tasks[t].Uses() == Some(id)
    requires Over(w, p, c, id, o)
    requires forall u :: u in s.tasks && u != t ==> PcOk(w, s.tasks[u])
    requires w.sockets == s.w.sockets && s.w.dead <= w.dead && s.w.crashed <= w.crashed
    requires w.client.pending <= s.w.client.pending
    requires w.client.ws != s.w.client.ws ==> s.w.client.ws.Some? && s.w.client.ws.value in w.dead
    requires s.tasks[t].Owns().Some? ==> s.tasks[t].Owns().value in w.dead
    ensures var (w', pc) := Resume(w, p, c, id, o); Fits(s, t, w', pc)
  {
    var (w', pc) := Resume(w, p, c, id, o);
    ResumeOk(w, p, c, id, o);
    ResumeKeeps(w, p, c, id, o);
    ResumeOthers(s, t, w, p, c, id, o);
    ResumedFits(s, t, w, w', pc);
  }

  /** The same, of any world `w'` that differs in nothing the others are concerned with. */
  lemma ResumedFits(s: State, t: TaskId, w: World, w': World, pc: Option<Pc>)
    requires t in s.tasks && w'.Ok() && Resumed(w, w', pc)
    requires forall u :: u in s.tasks && u != t ==> PcOk(w', s.tasks[u])
    requires w.sockets == s.w.sockets && s.w.dead <= w.dead && s.w.crashed <= w.crashed
    requires w.client.pending <= s.w.client.pending
    requires w.client.ws != s.w.client.ws ==> s.w.client.ws.Some? && s.w.client.ws.value in w.dead
    requires s.tasks[t].Owns().Some? ==> s.tasks[t].Owns().value in w.dead
    requires s.tasks[t].Uses().Some? ==> s.tasks[t].Uses().value !in w.client.pending
    ensures Fits(s, t, w', pc)
  {
    LeaveFits(s, t, w', pc);
  }

  lemma ResumeOthers(s: State, t: TaskId, w: World, p: Purpose, c: Conn, id: RpcId, o: Outcome)
    requires LocksOk(s.tasks, s.lock, s.privateLock) && Apart(s.tasks)
    requires t in s.tasks && s.tasks[t].InCall() && s.tasks[t].p == p && s.tasks[t].Uses() == Some(id)
    requires forall u :: u in s.tasks && u != t ==> PcOk(w, s.tasks[u])
    ensures forall u :: u in s.tasks && u != t ==> PcOk(Resume(w, p, c, id, o).0, s.tasks[u])
  {
    forall u | u in s.tasks && u != t
      ensures PcOk(Resume(w, p, c, id, o).0, s.tasks[u])
    {
      ResumePc(w, p, c, id, o, s.tasks[u]);
    }
  }

  // ---------------------------------------------------------------- every step of a task

  lemma AbandonFits(s: State, t: TaskId, w: World)
    requires w.Ok() && PcsOk(s.w, s.tasks)
    requires t in s.tasks && s.tasks[t].CallLock? && (w == s.w || w == s.w.BumpId())
    ensures Fits(s, t, w, Abandon(s.tasks[t].p))
  {
    forall u | u in s.tasks
      ensures PcOk(w, s.tasks[u])
    {
      IdStepsPc(s.w, s.tasks[u]);
    }
    LeaveFits(s, t, w, Abandon(s.tasks[t].p));
  }

  /** close(), a failed send or a failed call detaches the connection it then closes. */
  lemma DetachFits(s: State, t: TaskId, w: World, pc: Pc)
    requires Inv(s) && t in s.tasks && (s.lock.None? || s.lock == Some(t)) && s.tasks[t].Owns().None?
    requires w.Ok() && s.w.client.ws.Some? && w.client.ws == s.w.client.ws && w.client.pending <= s.w.client.pending
    requires w.(client := s.w.client) == s.w
    requires forall u :: u in s.tasks && u != t ==> PcOk(w, s.tasks[u])
    requires pc.HoldsMain() && pc.Owns() == s.w.client.ws && PcOk(w.Detach(), pc)
    requires pc.Uses() == s.tasks[t].Uses() && pc.HoldsPrivate() == s.tasks[t].HoldsPrivate()
    ensures Fits(s, t, w.Detach(), Some(pc))
  {
    DetachOk(w);
    forall u | u in s.tasks && u != t
      ensures PcOk(w.Detach(), s.tasks[u])
    {
      DetachPc(w, s.tasks[u]);
    }
  }

  lemma AcquireFits(s: State, t: TaskId)
    requires Inv(s) && Enabled(s, Acquire(t))
    ensures var (w, pc) := AfterLock(s.w, s.tasks[t]); Fits(s, t, w, pc)
  {
    var pc := s.tasks[t];
    if pc.CloseLock? {
      CloseFits(s, t);
    } else if pc.CallLock? {
      CallFits(s, t);
    } else if pc.FailLock? {
      FailFits(s, t);
    } else if pc.ForgetLock? {
      ForgetFits(s, t, pc.on, pc.sid);
    } else if pc.ConnectLock? {
      ConnectLockFits(s, t);
    } else {
      UnsubscribeLockFits(s, t);
    }
  }

  lemma CloseFits(s: State, t: TaskId)
    requires Inv(s) && Enabled(s, Acquire(t)) && s.tasks[t].CloseLock?
    ensures var (w, pc) := AfterLock(s.w, s.tasks[t]); Fits(s, t, w, pc)
  {
    if s.w.client.ws.Some? {
      DetachPc(s.w, s.tasks[t]);
      DetachFits(s, t, s.w, Closing(s.w.client.ws.value));
    } else {
      IdleFits(s, t, None);
    }
  }

  lemma CallFits(s: State, t: TaskId)
    requires Inv(s) && Enabled(s, Acquire(t)) && s.tasks[t].CallLock?
    ensures var (w, pc) := AfterLock(s.w, s.tasks[t]); Fits(s, t, w, pc)
  {
    var p := s.tasks[t].p;
    if s.w.client.ws.None? || (p.Expected().Some? && s.w.client.ws != p.Expected()) {
      AbandonFits(s, t, s.w);
    } else {
      RegisterFits(s, t);
    }
  }

  lemma FailFits(s: State, t: TaskId)
    requires Inv(s) && Enabled(s, Acquire(t)) && s.tasks[t].FailLock?
    ensures var (w, pc) := AfterLock(s.w, s.tasks[t]); Fits(s, t, w, pc)
  {
    var FailLock(p, c, id) := s.tasks[t];
    if s.w.client.ws == Some(c) {
      FailLockPc(s.w, p, c, id);
      DetachFits(s, t, s.w, FailCleanup(p, c, id));
    } else {
      UnregisterFits(s, t, s.w, p, c, id, Raised);
    }
  }

  lemma ConnectLockFits(s: State, t: TaskId)
    requires s.w.Ok() && PcsOk(s.w, s.tasks) && Enabled(s, Acquire(t)) && s.tasks[t].ConnectLock?
    ensures var (w, pc) := AfterLock(s.w, s.tasks[t]); Fits(s, t, w, pc)
  {}

  lemma UnsubscribeLockFits(s: State, t: TaskId)
    requires s.w.Ok() && PcsOk(s.w, s.tasks) && Enabled(s, Acquire(t)) && s.tasks[t].UnsubscribeLock?
    ensures var (w, pc) := AfterLock(s.w, s.tasks[t]); Fits(s, t, w, pc)
  {
    UnsubscribePc(s.w, s.tasks[t]);
    IdleFits(s, t, AfterLock(s.w, s.tasks[t]).1);
  }

  lemma UnsubscribePc(w: World, pc: Pc)
    requires w.Conns() && w.Tables() && pc.UnsubscribeLock?
    ensures var (w', pc') := AfterLock(w, pc);
            && w' == w
            && (pc'.Some? ==> PcOk(w, pc'.value) && pc'.value.CallLock? && pc'.value.p.Unsubscribe?)
  {}

  lemma ForgetFits(s: State, t: TaskId, on: Option<Conn>, sid: string)
    requires s.w.Ok() && PcsOk(s.w, s.tasks) && t in s.tasks && s.tasks[t] == ForgetLock(on, sid)
    ensures Fits(s, t, s.w.Forget(on, sid), None)
  {
    ForgetOk(s.w, on, sid);
    ForgetOthers(s, on, sid);
    LeaveFits(s, t, s.w.Forget(on, sid), None);
  }

  lemma ForgetOthers(s: State, on: Option<Conn>, sid: string)
    requires PcsOk(s.w, s.tasks)
    ensures PcsOk(s.w.Forget(on, sid), s.tasks)
  {
    forall u | u in s.tasks
      ensures PcOk(s.w.Forget(on, sid), s.tasks[u])
    {
      ForgetPc(s.w, on, sid, s.tasks[u]);
    }
  }

  lemma FailLockPc(w: World, p: Purpose, c: Conn, id: RpcId)
    requires w.Ids() && PcOk(w, FailLock(p, c, id))
    ensures PcOk(w.Detach(), FailCleanup(p, c, id))
  {
    DetachPc(w, FailLock(p, c, id));
  }

  lemma RegisterFits(s: State, t: TaskId)
    requires s.w.Ok() && PcsOk(s.w, s.tasks) && LocksOk(s.tasks, s.lock, s.privateLock)
    requires Enabled(s, Acquire(t)) && s.tasks[t].CallLock? && s.w.client.ws.Some?
    requires s.tasks[t].p.Expected().Some? ==> s.tasks[t].p.Expected() == s.w.client.ws
    ensures var (p, c) := (s.tasks[t].p, s.w.client.ws.value);
            Fits(s, t, s.w.Register(c, p.Hook()), Some(Sending(p, c, s.w.client.nextId)))
  {
    var (p, c) := (s.tasks[t].p, s.w.client.ws.value);
    RegisterOk(s.w, c, p.Hook());
    RegisterOthers(s, c, p.Hook());
    RegisterSelf(s.w, c, p);
    RegisterAccounts(s, t);
  }

  lemma RegisterOthers(s: State, c: Conn, hook: Option<string>)
    requires s.w.Ids() && PcsOk(s.w, s.tasks)
    ensures PcsOk(s.w.Register(c, hook), s.tasks)
  {
    forall u | u in s.tasks
      ensures PcOk(s.w.Register(c, hook), s.tasks[u])
    {
      RegisterPc(s.w, c, hook, s.tasks[u]);
    }
  }

  lemma RegisterSelf(w: World, c: Conn, p: Purpose)
    requires w.Ids() && w.Subs() && PurposeOk(w, p) && w.client.ws == Some(c)
    requires p.Expected().Some? ==> p.Expected() == Some(c)
    ensures PcOk(w.Register(c, p.Hook()), Sending(p, c, w.client.nextId))
  {
    assert w.client.nextId !in w.sentOn;
    assert w.client.nextId !in w.returned;
  }

  lemma RegisterAccounts(s: State, t: TaskId)
    requires s.w.Ids() && LocksOk(s.tasks, s.lock, s.privateLock)
    requires t in s.tasks && s.lock.None? && s.tasks[t].CallLock? && s.w.client.ws.Some?
    requires var (p, c) := (s.tasks[t].p, s.w.client.ws.value);
             PcOk(s.w.Register(c, p.Hook()), Sending(p, c, s.w.client.nextId))
    ensures var (p, c) := (s.tasks[t].p, s.w.client.ws.value);
            var (w, pc) := (s.w.Register(c, p.Hook()), Some(Sending(p, c, s.w.client.nextId)));
            LockFits(s, t, pc) && SocketFits(s, t, w, pc) && IdFits(s, t, w, pc)
  {}

  /** The call `id` of task `t` ends here, on a world `w` that differs in futures only. */
  lemma UnregisterFits(s: State, t: TaskId, w: World, p: Purpose, c: Conn, id: RpcId, o: Outcome)
    requires Inv(s) && t in s.tasks && s.tasks[t].InCall() && s.tasks[t].p == p && s.tasks[t].Uses() == Some(id)
    requires s.tasks[t].Owns().None?
    requires w.Ok() && w.(client := s.w.client) == s.w && w.client.ws == s.w.client.ws
    requires w.client.pending == s.w.client.pending
    requires PurposeOk(w, p) && IdOk(w, p, c, id)
    requires o.Got? && p.Subscribe? && o.m.Reply? && o.m.result.SubscriptionId? ==> id in w.subs
    requires forall u :: u in s.tasks && u != t ==> PcOk(w, s.tasks[u])
    ensures var (w', pc) := Resume(w.Unregister(id), p, c, id, o); Fits(s, t, w', pc)
  {
    UnregisterOk(w, id);
    forall u | u in s.tasks && u != t
      ensures PcOk(w.Unregister(id), s.tasks[u])
    {
      UnregisterPc(w, id, s.tasks[u]);
    }
    assert w.client.ws == s.w.client.ws;
    ResumeFits(s, t, w.Unregister(id), p, c, id, o);
  }

  lemma AcquirePrivateFits(s: State, t: TaskId)
    requires s.w.Ok() && PcsOk(s.w, s.tasks) && Enabled(s, AcquirePrivate(t))
    ensures Fits(s, t, s.w, AfterPrivateLock(s.w))
  {
    LeaveFits(s, t, s.w, AfterPrivateLock(s.w));
  }

  lemma SpawnFits(s: State, t: TaskId, pc: Pc)
    requires s.w.Ok() && PcsOk(s.w, s.tasks) && Enabled(s, Spawn(t, pc))
    ensures Fits(s, t, if pc.PrivateLock? then s.w.EnablePrivate() else s.w, Some(pc))
  {
    EnablePrivateOk(s.w);
    var w := if pc.PrivateLock? then s.w.EnablePrivate() else s.w;
    forall u | u in s.tasks
      ensures PcOk(w, s.tasks[u])
    {
      EnablePrivatePc(s.w, s.tasks[u]);
    }
    LeaveFits(s, t, w, Some(pc));
  }

  lemma OpenFits(s: State, t: TaskId)
    requires s.w.Ok() && PcsOk(s.w, s.tasks) && LocksOk(s.tasks, s.lock, s.privateLock)
    requires t in s.tasks && s.tasks[t].Opening?
    ensures Fits(s, t, s.w.Open(), Some(LoggingIn(s.w.sockets)))
  {
    OpenOk(s.w);
    forall u | u in s.tasks
      ensures PcOk(s.w.Open(), s.tasks[u])
    {
      IdStepsPc(s.w, s.tasks[u]);
    }
    OpenAccounts(s, t);
  }

  lemma OpenAccounts(s: State, t: TaskId)
    requires s.w.Conns() && PcsOk(s.w, s.tasks) && LocksOk(s.tasks, s.lock, s.privateLock)
    requires t in s.tasks && s.tasks[t].Opening?
    ensures var (w, pc) := (s.w.Open(), Some(LoggingIn(s.w.sockets)));
            LockFits(s, t, pc) && SocketFits(s, t, w, pc) && IdFits(s, t, w, pc)
  {
    assert PcOk(s.w, s.tasks[t]);
  }

  lemma PublishFits(s: State, t: TaskId, w: World, c: Conn)
    requires w.Ok() && LocksOk(s.tasks, s.lock, s.privateLock) && PcsOk(w, s.tasks)
    requires t in s.tasks && s.tasks[t].HoldsMain() && s.tasks[t].Owns() == Some(c) && s.tasks[t].Uses().None?
    requires w == s.w || w == s.w.Answer(c)
    requires w.client.ws.None? && c < w.sockets && c !in w.readers && (w.client.privateMethods ==> c in w.answered)
    ensures Fits(s, t, w.Publish(c), None)
  {
    PublishOk(w, c);
    forall u | u in s.tasks && u != t
      ensures PcOk(w.Publish(c), s.tasks[u])
    {
      PublishPc(w, c, s.tasks[u]);
    }
  }

  /** Any suspended task may drop the socket it owns and end. */
  lemma ReleaseFits(s: State, t: TaskId, c: Conn)
    requires s.w.Ok() && PcsOk(s.w, s.tasks)
    requires t in s.tasks && s.tasks[t].Owns() == Some(c) && s.tasks[t].Uses().None?
    ensures Fits(s, t, s.w.Release(c), None)
  {
    UsesSent(s.w, s.tasks[t]);
    ReleaseOk(s.w, c);
    forall u | u in s.tasks
      ensures PcOk(s.w.Release(c), s.tasks[u])
    {
      ReleasePc(s.w, c, s.tasks[u]);
    }
    LeaveFits(s, t, s.w.Release(c), None);
  }

  /** A task that moves on in charge of the same socket, call and locks as before, or of none. */
  lemma MoveFits(s: State, t: TaskId, w: World, pc: Option<Pc>)
    requires w.Ok() && PcsOk(w, s.tasks) && LocksOk(s.tasks, s.lock, s.privateLock) && t in s.tasks
    requires w.sockets == s.w.sockets && w.dead == s.w.dead && w.crashed == s.w.crashed
    requires w.client.ws == s.w.client.ws && w.client.pending == s.w.client.pending
    requires pc.Some? ==> PcOk(w, pc.value) && (pc.value.HoldsMain() ==> s.tasks[t].HoldsMain())
                          && (pc.value.HoldsPrivate() ==> s.tasks[t].HoldsPrivate())
    requires (if pc.Some? then pc.value.Owns() else None) == s.tasks[t].Owns()
    requires (if pc.Some? then pc.value.Uses() else None) == s.tasks[t].Uses()
    ensures Fits(s, t, w, pc)
  {}

  lemma OpeningFits(s: State, t: TaskId, e: Ending)
    requires Inv(s) && t in s.tasks && s.tasks[t].Opening?
    ensures var (w, pc) := AfterConnection(s.w, s.tasks[t], e); Fits(s, t, w, pc)
  {
    if e.Returns? {
      OpenFits(s, t);
    } else {
      MoveFits(s, t, s.w, None);
    }
  }

  lemma LoginFits(s: State, t: TaskId, e: Ending)
    requires Inv(s) && t in s.tasks && s.tasks[t].LoggingIn?
    ensures var (w, pc) := AfterConnection(s.w, s.tasks[t], e); Fits(s, t, w, pc)
  {
    var c := s.tasks[t].c;
    if !e.Returns? {
      ConnectFailsFits(s, t, e);
    } else if s.w.client.privateMethods {
      BumpFits(s, t, SendingOptions(c));
    } else {
      assert PcOk(s.w, s.tasks[t]);
      PublishFits(s, t, s.w, c);
    }
  }

  lemma OptionsFits(s: State, t: TaskId, e: Ending)
    requires Inv(s) && t in s.tasks && s.tasks[t].SendingOptions?
    ensures var (w, pc) := AfterConnection(s.w, s.tasks[t], e); Fits(s, t, w, pc)
  {
    if e.Returns? {
      AnsweredFits(s, t, s.tasks[t].c);
    } else {
      ConnectFailsFits(s, t, e);
    }
  }

  lemma ConnectFailsFits(s: State, t: TaskId, e: Ending)
    requires Inv(s) && t in s.tasks && (s.tasks[t].LoggingIn? || s.tasks[t].SendingOptions?) && !e.Returns?
    ensures var (w, pc) := AfterConnection(s.w, s.tasks[t], e); Fits(s, t, w, pc)
  {
    var c := s.tasks[t].c;
    if e.Raises? {
      assert PcOk(s.w, s.tasks[t]);
      MoveFits(s, t, s.w, Some(ConnectCleanup(c)));
    } else {
      ReleaseFits(s, t, c);
    }
  }

  lemma BumpFits(s: State, t: TaskId, pc: Pc)
    requires s.w.Ok() && PcsOk(s.w, s.tasks) && LocksOk(s.tasks, s.lock, s.privateLock) && t in s.tasks
    requires s.tasks[t].LoggingIn? && pc == SendingOptions(s.tasks[t].c)
    ensures Fits(s, t, s.w.BumpId(), Some(pc))
  {
    BumpIdOk(s.w);
    forall u | u in s.tasks
      ensures PcOk(s.w.BumpId(), s.tasks[u])
    {
      IdStepsPc(s.w, s.tasks[u]);
    }
    MoveFits(s, t, s.w.BumpId(), Some(pc));
  }

  lemma AnsweredFits(s: State, t: TaskId, c: Conn)
    requires s.w.Ok() && PcsOk(s.w, s.tasks) && LocksOk(s.tasks, s.lock, s.privateLock) && t in s.tasks
    requires s.tasks[t] == SendingOptions(c)
    ensures Fits(s, t, s.w.Answer(c).Publish(c), None)
  {
    AnswerOk(s.w, c);
    forall u | u in s.tasks
      ensures PcOk(s.w.Answer(c), s.tasks[u])
    {
      AnswerPc(s.w, c, s.tasks[u]);
    }
    assert PcOk(s.w, s.tasks[t]);
    PublishFits(s, t, s.w.Answer(c), c);
  }

  /** The world after call `id` of task `t` is unregistered, as the others see it. */
  lemma UnregisterOthers(s: State, t: TaskId, w: World, id: RpcId)
    requires Apart(s.tasks) && t in s.tasks && s.tasks[t].Uses() == Some(id)
    requires forall u :: u in s.tasks && u != t ==> PcOk(w, s.tasks[u])
    ensures forall u :: u in s.tasks && u != t ==> PcOk(w.Unregister(id), s.tasks[u])
  {
    forall u | u in s.tasks && u != t
      ensures PcOk(w.Unregister(id), s.tasks[u])
    {
      UnregisterPc(w, id, s.tasks[u]);
    }
  }

  lemma SendingFits(s: State, t: TaskId, e: Ending)
    requires Inv(s) && t in s.tasks && s.tasks[t].Sending?
    ensures var (w, pc) := AfterCall(s.w, s.tasks[t], e); Fits(s, t, w, pc)
  {
    var Sending(p, c, id) := s.tasks[t];
    if e.Raises? && s.w.client.ws == Some(c) {
      SendFailsFits(s, t, p, c, id);
    } else {
      assert PcOk(s.w, s.tasks[t]);
      if e.Returns? {
        MoveFits(s, t, s.w, Some(WaitingReply(p, c, id)));
      } else {
        UnregisterFits(s, t, s.w, p, c, id, Raised);
      }
    }
  }

  lemma SendFailsFits(s: State, t: TaskId, p: Purpose, c: Conn, id: RpcId)
    requires Inv(s) && t in s.tasks && s.tasks[t] == Sending(p, c, id) && s.w.client.ws == Some(c)
    ensures Fits(s, t, s.w.Unregister(id).Detach(), Some(SendCleanup(p, c, id)))
  {
    assert PcOk(s.w, s.tasks[t]);
    UnregisterOk(s.w, id);
    UnregisterOthers(s, t, s.w, id);
    SendCleanupPc(s.w, p, c, id);
    DetachFits(s, t, s.w.Unregister(id), SendCleanup(p, c, id));
  }

  lemma SendCleanupPc(w: World, p: Purpose, c: Conn, id: RpcId)
    requires w.Ids() && PcOk(w, Sending(p, c, id))
    ensures PcOk(w.Unregister(id).Detach(), SendCleanup(p, c, id))
  {}

  lemma WaitingFits(s: State, t: TaskId, e: Ending)
    requires Inv(s) && t in s.tasks && s.tasks[t].WaitingReply? && CanEnd(s.w, s.tasks[t], e)
    ensures var (w, pc) := AfterCall(s.w, s.tasks[t], e); Fits(s, t, w, pc)
  {
    var WaitingReply(p, c, id) := s.tasks[t];
    assert PcOk(s.w, s.tasks[t]);
    if e.Returns? {
      var f := s.w.client.futures[id];
      UnregisterFits(s, t, s.w, p, c, id, if f.Answered? then Got(f.reply) else Raised);
    } else {
      GiveUpFits(s, t, e);
    }
  }

  /** A call times out or is cancelled while waiting: its future is cancelled first. */
  lemma GiveUpFits(s: State, t: TaskId, e: Ending)
    requires Inv(s) && t in s.tasks && s.tasks[t].WaitingReply? && !e.Returns?
    ensures var (w, pc) := AfterCall(s.w, s.tasks[t], e); Fits(s, t, w, pc)
  {
    var WaitingReply(p, c, id) := s.tasks[t];
    if e.Raises? {
      TimeoutFits(s, t, p, c, id);
    } else {
      CancelFits(s, t, p, c, id);
    }
  }

  lemma TimeoutFits(s: State, t: TaskId, p: Purpose, c: Conn, id: RpcId)
    requires s.w.Ok() && PcsOk(s.w, s.tasks) && LocksOk(s.tasks, s.lock, s.privateLock)
    requires t in s.tasks && s.tasks[t] == WaitingReply(p, c, id)
    ensures Fits(s, t, s.w.CancelFuture(id), Some(FailLock(p, c, id)))
  {
    assert PcOk(s.w, s.tasks[t]);
    CancelFutureOk(s.w, id);
    CancelFutureOthers(s, id);
    CancelFutureSelf(s.w, p, c, id);
    CancelFutureKeeps(s.w, id);
    MoveFits(s, t, s.w.CancelFuture(id), Some(FailLock(p, c, id)));
  }

  lemma CancelFits(s: State, t: TaskId, p: Purpose, c: Conn, id: RpcId)
    requires Inv(s) && t in s.tasks && s.tasks[t] == WaitingReply(p, c, id)
    ensures var (w, pc) := Resume(s.w.CancelFuture(id).Unregister(id), p, c, id, Raised); Fits(s, t, w, pc)
  {
    assert PcOk(s.w, s.tasks[t]);
    CancelFutureOk(s.w, id);
    CancelFutureOthers(s, id);
    CancelFutureSelf(s.w, p, c, id);
    UnregisterFits(s, t, s.w.CancelFuture(id), p, c, id, Raised);
  }

  lemma CancelFutureSelf(w: World, p: Purpose, c: Conn, id: RpcId)
    requires PcOk(w, WaitingReply(p, c, id))
    ensures PcOk(w.CancelFuture(id), FailLock(p, c, id))
  {}

  lemma CancelFutureKeeps(w: World, id: RpcId)
    ensures var w' := w.CancelFuture(id);
            && w' == w.(client := w'.client)
            && w'.client == w.client.(futures := w'.client.futures)
  {}

  lemma CancelFutureOthers(s: State, id: RpcId)
    requires PcsOk(s.w, s.tasks)
    ensures PcsOk(s.w.CancelFuture(id), s.tasks)
  {
    forall u | u in s.tasks
      ensures PcOk(s.w.CancelFuture(id), s.tasks[u])
    {
      CancelFuturePc(s.w, id, s.tasks[u]);
    }
  }

  /** A failed send is cleaned up: the socket is released and the call over. */
  lemma SendCleanupFits(s: State, t: TaskId, e: Ending)
    requires Inv(s) && t in s.tasks && s.tasks[t].SendCleanup?
    ensures var (w, pc) := AfterCall(s.w, s.tasks[t], e); Fits(s, t, w, pc)
  {
    var SendCleanup(p, c, id) := s.tasks[t];
    assert PcOk(s.w, s.tasks[t]);
    ReleaseOk(s.w, c);
    ReleaseOthers(s, c);
    ResumeFits(s, t, s.w.Release(c), p, c, id, Raised);
  }

  /** So is a failed call, which is unregistered only now. */
  lemma FailCleanupFits(s: State, t: TaskId, e: Ending)
    requires Inv(s) && t in s.tasks && s.tasks[t].FailCleanup?
    ensures var (w, pc) := AfterCall(s.w, s.tasks[t], e); Fits(s, t, w, pc)
  {
    var FailCleanup(p, c, id) := s.tasks[t];
    assert PcOk(s.w, s.tasks[t]);
    ReleaseOk(s.w, c);
    ReleaseOthers(s, c);
    UnregisterOthers(s, t, s.w.Release(c), id);
    UnregisterOk(s.w.Release(c), id);
    FailCleanupSelf(s.w, p, c, id);
    ResumeFits(s, t, s.w.Release(c).Unregister(id), p, c, id, Raised);
  }

  lemma FailCleanupSelf(w: World, p: Purpose, c: Conn, id: RpcId)
    requires PcOk(w, FailCleanup(p, c, id))
    ensures var w' := w.Release(c).Unregister(id); PurposeOk(w', p) && IdOk(w', p, c, id) && id !in w'.client.pending
  {}

  lemma ReleaseOthers(s: State, c: Conn)
    requires PcsOk(s.w, s.tasks)
    ensures PcsOk(s.w.Release(c), s.tasks)
  {
    forall u | u in s.tasks
      ensures PcOk(s.w.Release(c), s.tasks[u])
    {
      ReleasePc(s.w, c, s.tasks[u]);
    }
  }

  /** The one detach that runs without the lock: a cancel while a failed call waits for it. */
  lemma LocklessFits(s: State, t: TaskId)
    requires Inv(s) && t in s.tasks && s.tasks[t].FailLock?
    ensures var (w, pc) := AfterCall(s.w, s.tasks[t], Interrupted); Fits(s, t, w, pc)
  {
    var FailLock(p, c, id) := s.tasks[t];
    if s.w.client.ws == Some(c) {
      LocklessCurrentFits(s, t, p, c, id);
    } else {
      assert PcOk(s.w, s.tasks[t]);
      UnregisterFits(s, t, s.w, p, c, id, Raised);
    }
  }

  lemma LocklessCurrentFits(s: State, t: TaskId, p: Purpose, c: Conn, id: RpcId)
    requires Inv(s) && t in s.tasks && s.tasks[t] == FailLock(p, c, id) && s.w.client.ws == Some(c)
    ensures var (w, pc) := Resume(s.w.Detach().Release(c).Unregister(id), p, c, id, Raised); Fits(s, t, w, pc)
  {
    assert PcOk(s.w, s.tasks[t]);
    LocklessDetach(s.w, c);
    LocklessOthers(s, t, c, id);
    LocklessSelf(s.w, p, c, id);
    ResumeFits(s, t, s.w.Detach().Release(c).Unregister(id), p, c, id, Raised);
  }

  lemma LocklessDetach(w: World, c: Conn)
    requires w.Ok()
    ensures w.Detach().Release(c).Ok()
    ensures forall id :: w.Detach().Release(c).Unregister(id).Ok()
  {
    DetachOk(w);
    ReleaseOk(w.Detach(), c);
    forall id {
      UnregisterOk(w.Detach().Release(c), id);
    }
  }

  lemma LocklessSelf(w: World, p: Purpose, c: Conn, id: RpcId)
    requires w.Ids() && PcOk(w, FailLock(p, c, id))
    ensures var w' := w.Detach().Release(c).Unregister(id); PurposeOk(w', p) && IdOk(w', p, c, id)
  {
    DetachPc(w, FailLock(p, c, id));
  }

  lemma LocklessOthers(s: State, t: TaskId, c: Conn, id: RpcId)
    requires s.w.Ids() && PcsOk(s.w, s.tasks) && Apart(s.tasks) && t in s.tasks && s.tasks[t].Uses() == Some(id)
    ensures var w := s.w.Detach().Release(c).Unregister(id);
            forall u :: u in s.tasks && u != t ==> PcOk(w, s.tasks[u])
  {
    forall u | u in s.tasks
      ensures PcOk(s.w.Detach().Release(c), s.tasks[u])
    {
      DetachPc(s.w, s.tasks[u]);
      ReleasePc(s.w.Detach(), c, s.tasks[u]);
    }
    UnregisterOthers(s, t, s.w.Detach().Release(c), id);
  }

  lemma AwaitFits(s: State, t: TaskId, e: Ending)
    requires Inv(s) && Enabled(s, Await(t, e))
    ensures var (w, pc) := AfterAwait(s.w, s.tasks[t], e); Fits(s, t, w, pc)
  {
    if s.tasks[t].InCall() {
      CallEndFits(s, t, e);
    } else if s.tasks[t].Owns().Some? || s.tasks[t].Opening? {
      ConnectionFits(s, t, e);
    } else {
      IdleFits(s, t, None);
    }
  }

  lemma CallEndFits(s: State, t: TaskId, e: Ending)
    requires Inv(s) && Enabled(s, Await(t, e)) && s.tasks[t].InCall()
    ensures var (w, pc) := AfterCall(s.w, s.tasks[t], e); Fits(s, t, w, pc)
  {
    match s.tasks[t]
    case Sending(_, _, _) => SendingFits(s, t, e);
    case SendCleanup(_, _, _) => SendCleanupFits(s, t, e);
    case WaitingReply(_, _, _) => WaitingFits(s, t, e);
    case FailLock(_, _, _) => LocklessFits(s, t);
    case FailCleanup(_, _, _) => FailCleanupFits(s, t, e);
    case CallLock(_) => AbandonFits(s, t, s.w);
  }

  lemma ConnectionFits(s: State, t: TaskId, e: Ending)
    requires Inv(s) && t in s.tasks
    requires (s.tasks[t].Owns().Some? && !s.tasks[t].InCall()) || s.tasks[t].Opening?
    ensures var (w, pc) := AfterConnection(s.w, s.tasks[t], e); Fits(s, t, w, pc)
  {
    match s.tasks[t]
    case Opening => OpeningFits(s, t, e);
    case LoggingIn(_) => LoginFits(s, t, e);
    case SendingOptions(_) => OptionsFits(s, t, e);
    case ConnectCleanup(c) => ReleaseFits(s, t, c);
    case Closing(c) => if e.Interrupted? { ReleaseFits(s, t, c); } else { ClosedFits(s, t, c); }
    case AwaitingReader(c) => ReleaseFits(s, t, c);
  }

  lemma ClosedFits(s: State, t: TaskId, c: Conn)
    requires s.w.Ok() && PcsOk(s.w, s.tasks) && LocksOk(s.tasks, s.lock, s.privateLock)
    requires t in s.tasks && s.tasks[t] == Closing(c)
    ensures Fits(s, t, s.w, Some(AwaitingReader(c)))
  {
    assert PcOk(s.w, s.tasks[t]);
    MoveFits(s, t, s.w, Some(AwaitingReader(c)));
  }

  // ---------------------------------------------------------------- every step of a reader

  /** A step that moves no task: it may only shrink what the tasks have in their charge. */
  ghost predicate FitsAll(s: State, w: World) {
    && w.Ok() && PcsOk(w, s.tasks)
    && w.sockets == s.w.sockets && w.client.pending <= s.w.client.pending
    && s.w.dead <= w.dead && s.w.crashed <= w.crashed
    && (w.client.ws != s.w.client.ws ==> s.w.client.ws.Some? && s.w.client.ws.value in w.dead + w.crashed)
  }

  lemma WorldInv(s: State, w: World)
    requires Inv(s) && FitsAll(s, w)
    ensures Inv(s.(w := w))
  {}

  /** What receiving and routing leave alone; only a reader whose socket is lost detaches it. */
  ghost predicate Keeps(w: World, c: Conn, w': World) {
    && w'.sockets == w.sockets && w'.dead == w.dead && w'.crashed == w.crashed
    && w'.client.pending <= w.client.pending
    && (w'.client.ws == w.client.ws || (w.client.ws == Some(c) && c in w.dead + w.crashed))
  }

  lemma ReceiveFits(s: State, c: Conn, m: Message)
    requires s.w.Ok() && PcsOk(s.w, s.tasks) && Enabled(s, Receive(c, m))
    ensures FitsAll(s, AfterReceive(s.w, c, m))
  {
    ReceiveOk(s.w, c, m);
    ReceiveOthers(s, c, m);
    ReceiveKeeps(s.w, c, m);
    KeepsFits(s, c, AfterReceive(s.w, c, m));
  }

  lemma ReceiveKeeps(w: World, c: Conn, m: Message)
    requires c in w.log
    ensures Keeps(w, c, AfterReceive(w, c, m))
  {}

  lemma KeepsFits(s: State, c: Conn, w: World)
    requires w.Ok() && PcsOk(w, s.tasks) && Keeps(s.w, c, w)
    ensures FitsAll(s, w)
  {}

  lemma ReceiveOthers(s: State, c: Conn, m: Message)
    requires PcsOk(s.w, s.tasks) && c in s.w.readers && c in s.w.log
    ensures PcsOk(AfterReceive(s.w, c, m), s.tasks)
  {
    forall u | u in s.tasks
      ensures PcOk(AfterReceive(s.w, c, m), s.tasks[u])
    {
      LoggedPc(s.w, c, m, s.tasks[u]);
      SetReaderPc(s.w, c, Updating(m, {}), s.tasks[u]);
      SetReaderPc(s.w, c, Routing(m), s.tasks[u]);
    }
  }

  lemma ReceiveOk(w: World, c: Conn, m: Message)
    requires w.Ok() && c in w.readers && w.readers[c].Receiving?
    ensures AfterReceive(w, c, m).Ok()
  {
    if m.Collection? && m.collection.None? && m.update.Some? {
      SetReaderOk(w, c, Updating(m, {}));
    } else {
      SetReaderOk(w, c, Routing(m));
      if m.Collection? && m.collection.None? {
        UnroutedOk(w.SetReader(c, Routing(m)), c, m);
        SkipRouting(w, c, m);
      }
    }
  }

  lemma SkipRouting(w: World, c: Conn, m: Message)
    requires c in w.log
    ensures w.SetReader(c, Routing(m)).Logged(c, m) == w.Logged(c, m)
  {}

  /** A message that names no collection is routed to nobody. */
  lemma UnroutedOk(w: World, c: Conn, m: Message)
    requires w.Ok() && m.Collection? && m.collection.None? && m.update.None?
    requires c in w.readers && w.readers[c] == Routing(m)
    ensures w.Logged(c, m).Ok()
  {
    LoggedOk(w, c, m);
    LoggedAnswers(w, c, m);
    UnroutedFeeds(w, c, m);
  }

  lemma UnroutedFeeds(w: World, c: Conn, m: Message)
    requires w.Feeds() && m.Collection? && m.collection.None? && m.update.None?
    requires c in w.readers && c in w.log && w.readers[c] == Routing(m)
    ensures w.Logged(c, m).Feeds()
  {
    LoggedFeeds(w.client.queues, w.client.queues, w.subs, w.log, w.readers, c, m);
  }

  lemma RouteFits(s: State, c: Conn)
    requires s.w.Ok() && PcsOk(s.w, s.tasks) && Enabled(s, Route(c))
    ensures Routable(s.w, c) && FitsAll(s, AfterRoute(s.w, c))
  {
    RouteOk(s.w, c);
    RouteKeeps(s.w, c);
    forall u | u in s.tasks
      ensures PcOk(AfterRoute(s.w, c), s.tasks[u])
    {
      RoutePc(s.w, c, s.tasks[u]);
    }
    KeepsFits(s, c, AfterRoute(s.w, c));
  }

  lemma RouteOk(w: World, c: Conn)
    requires w.Ok() && Routable(w, c)
    ensures AfterRoute(w, c).Ok()
  {
    match w.readers[c]
    case Routing(m) =>
      match m {
        case Reply(_, _, _) => RouteReplyOk(w, c, m);
        case Event(_, _) => RouteEventOk(w, c, m);
        case Collection(_, _, _) => RouteCollectionOk(w, c, m);
      }
    case Updating(m, notified) => RouteUpdateOk(w, c, m, notified);
    case TearingDown => TeardownOk(w, c);
  }

  lemma RouteKeeps(w: World, c: Conn)
    requires w.Ids() && w.Conns() && Routable(w, c)
    ensures Keeps(w, c, AfterRoute(w, c))
  {
    if w.readers[c].Routing? && w.readers[c].m.Reply? {
      RouteReplyShrinks(w, c, w.readers[c].m);
    }
  }

  lemma RouteReplyShrinks(w: World, c: Conn, m: Message)
    requires w.Ids() && m.Reply? && c in w.log
    ensures Keeps(w, c, w.RouteReply(c, m))
  {}

  lemma RoutePc(w: World, c: Conn, pc: Pc)
    requires w.Ids() && PcOk(w, pc) && Routable(w, c)
    ensures PcOk(AfterRoute(w, c), pc)
  {
    match w.readers[c]
    case Routing(m) =>
      match m {
        case Reply(_, _, _) => RouteReplyPc(w, c, m, pc);
        case Event(_, _) => FedPc(w, c, w.client.Addressee(c, m.sid), m, Receiving, pc);
        case Collection(_, _, _) =>
          var qs := w.client.Matching(c, m.collection);
          FedPc(w, c, qs, m, Updating(m, qs), pc);
      }
    case Updating(m, notified) => FedPc(w, c, w.client.Matching(c, m.update) - notified, m, Receiving, pc);
    case TearingDown =>
      DetachPc(w, pc);
      SetReaderPc(w, c, Ended, pc);
      SetReaderPc(w.Detach(), c, Ended, pc);
  }

  lemma FedPc(w: World, c: Conn, qs: set<RpcId>, m: Message, r: Reader, pc: Pc)
    requires PcOk(w, pc) && c in w.readers && c in w.log
    ensures var fed := w.(client := w.client.Put(qs, Note(m)));
            PcOk(fed.Logged(c, m), pc) && PcOk(fed.SetReader(c, r), pc)
  {
    PutPc(w, qs, m, pc);
    var fed := w.(client := w.client.Put(qs, Note(m)));
    LoggedPc(fed, c, m, pc);
    SetReaderPc(fed, c, r, pc);
  }

  lemma StopFits(s: State, c: Conn, gone: bool)
    requires s.w.Ok() && PcsOk(s.w, s.tasks) && Enabled(s, Stop(c, gone))
    ensures FitsAll(s, Next(s, Stop(c, gone)).w)
  {
    var dead := if gone then s.w.dead + {c} else s.w.dead;
    var crashed := if gone then s.w.crashed else s.w.crashed + {c};
    var w := s.w.(dead := dead, crashed := crashed);
    LostOk(s.w, dead, crashed);
    SetReaderOk(w, c, TearingDown);
    forall u | u in s.tasks
      ensures PcOk(w.SetReader(c, TearingDown), s.tasks[u])
    {
      LostPc(s.w, dead, crashed, s.tasks[u]);
      SetReaderPc(w, c, TearingDown, s.tasks[u]);
    }
  }

  lemma LostPc(w: World, dead: set<Conn>, crashed: set<Conn>, pc: Pc)
    requires PcOk(w, pc)
    ensures PcOk(w.(dead := dead, crashed := crashed), pc)
  {}

  lemma CancelReaderFits(s: State, c: Conn)
    requires s.w.Ok() && PcsOk(s.w, s.tasks) && Enabled(s, CancelReader(c))
    ensures FitsAll(s, Next(s, CancelReader(c)).w)
  {
    var r := if s.w.readers[c].TearingDown? then Ended else TearingDown;
    SetReaderOk(s.w, c, r);
    forall u | u in s.tasks
      ensures PcOk(s.w.SetReader(c, r), s.tasks[u])
    {
      SetReaderPc(s.w, c, r, s.tasks[u]);
    }
  }

  lemma CancelWaitFits(s: State, t: TaskId)
    requires s.w.Ok() && PcsOk(s.w, s.tasks) && Enabled(s, CancelWait(t))
    ensures FitsAll(s, s.w.CancelFuture(s.tasks[t].id))
  {
    CancelFutureOk(s.w, s.tasks[t].id);
    CancelFutureOthers(s, s.tasks[t].id);
  }

  /** Every step, whatever the interleaving, cancels and timeouts, keeps the invariant. */
  lemma StepInv(s: State, a: Action)
    requires Inv(s) && Enabled(s, a)
    ensures Defined(s, a) && Inv(Next(s, a))
  {
    if a.Acquire? || a.Await? {
      TaskStepInv(s, a);
    } else if a.Spawn? || a.AcquirePrivate? || a.Unserializable? {
      EntryStepInv(s, a);
    } else {
      WorldStepInv(s, a);
    }
  }

  lemma TaskStepInv(s: State, a: Action)
    requires Inv(s) && Enabled(s, a) && (a.Acquire? || a.Await?)
    ensures Inv(Next(s, a))
  {
    if a.Acquire? {
      var (w, pc) := AfterLock(s.w, s.tasks[a.t]);
      AcquireFits(s, a.t);
      GoInv(s, a.t, w, pc);
    } else {
      var (w, pc) := AfterAwait(s.w, s.tasks[a.t], a.e);
      AwaitFits(s, a.t, a.e);
      GoInv(s, a.t, w, pc);
    }
  }

  lemma EntryStepInv(s: State, a: Action)
    requires Inv(s) && Enabled(s, a) && (a.Spawn? || a.AcquirePrivate? || a.Unserializable?)
    ensures Inv(Next(s, a))
  {
    match a
    case Spawn(t, pc) =>
      SpawnFits(s, t, pc);
      GoInv(s, t, if pc.PrivateLock? then s.w.EnablePrivate() else s.w, Some(pc));
    case AcquirePrivate(t) =>
      AcquirePrivateFits(s, t);
      GoInv(s, t, s.w, AfterPrivateLock(s.w));
    case Unserializable(t) =>
      BumpIdOk(s.w);
      AbandonFits(s, t, s.w.BumpId());
      GoInv(s, t, s.w.BumpId(), Abandon(s.tasks[t].p));
  }

  lemma WorldStepInv(s: State, a: Action)
    requires Inv(s) && Enabled(s, a)
    requires a.CancelWait? || a.Receive? || a.Route? || a.Stop? || a.CancelReader?
    ensures Defined(s, a) && Inv(Next(s, a))
  {
    match a
    case CancelWait(t) => CancelWaitFits(s, t); WorldInv(s, s.w.CancelFuture(s.tasks[t].id));
    case Receive(c, m) => ReceiveFits(s, c, m); WorldInv(s, AfterReceive(s.w, c, m));
    case Route(c) => RouteFits(s, c); WorldInv(s, AfterRoute(s.w, c));
    case Stop(c, gone) => StopFits(s, c, gone); WorldInv(s, Next(s, a).w);
    case CancelReader(c) => CancelReaderFits(s, c); WorldInv(s, Next(s, a).w);
  }
}
