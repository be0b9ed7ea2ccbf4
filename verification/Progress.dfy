/** What only ever grows: ids, logs, queues, answers and the private-methods mark. */
module Progress {
  import opened Wire
  import opened Client
  import opened History
  import opened Protocol
  import opened Safety
  import opened Theorems

  /** `w'` extends the history of `w`: nothing recorded is taken back, a future that is done stays
      as it is, queues are only appended to, and one whose subscription has ended not even that. */
  ghost predicate Later(w: World, w': World) {
    && w.client.nextId <= w'.client.nextId
    && w.returned <= w'.returned && w.marked <= w'.marked && w.dead <= w'.dead
    && CallsLater(w.sentOn, w.client.futures, w'.sentOn, w'.client.futures)
    && LogsLater(w.log, w'.log)
    && SubsLater(w.subs, w.client.queues, w'.subs, w'.client.queues)
  }

  ghost predicate CallsLater(sentOn: map<RpcId, Conn>, futures: map<RpcId, Future>,
                             sentOn': map<RpcId, Conn>, futures': map<RpcId, Future>) {
    && (forall id :: id in sentOn ==> id in sentOn' && sentOn'[id] == sentOn[id])
    && (forall id :: id in futures && futures[id] != Waiting ==> id in futures' && futures'[id] == futures[id])
  }

  ghost predicate LogsLater(log: map<Conn, seq<Message>>, log': map<Conn, seq<Message>>) {
    forall c :: c in log ==> c in log' && log[c] <= log'[c]
  }

  ghost predicate SubsLater(subs: map<RpcId, Sub>, queues: map<RpcId, seq<Item>>,
                            subs': map<RpcId, Sub>, queues': map<RpcId, seq<Item>>) {
    forall q :: q in subs && q in queues ==>
      && q in subs' && q in queues' && queues[q] <= queues'[q]
      && subs'[q] == subs[q].(end := subs'[q].end)
      && (subs[q].end.Some? ==> subs'[q].end == subs[q].end && queues'[q] == queues[q])
  }

  lemma LaterTransitive(w: World, w': World, w'': World)
    requires Later(w, w') && Later(w', w'')
    ensures Later(w, w'')
  {
    SubsLaterTransitive(w.subs, w.client.queues, w'.subs, w'.client.queues, w''.subs, w''.client.queues);
  }

  lemma SubsLaterTransitive(subs: map<RpcId, Sub>, queues: map<RpcId, seq<Item>>,
                            subs': map<RpcId, Sub>, queues': map<RpcId, seq<Item>>,
                            subs'': map<RpcId, Sub>, queues'': map<RpcId, seq<Item>>)
    requires SubsLater(subs, queues, subs', queues') && SubsLater(subs', queues', subs'', queues'')
    ensures SubsLater(subs, queues, subs'', queues'')
  {}

  lemma ResumeLater(w: World, p: Purpose, c: Conn, id: RpcId, o: Outcome)
    ensures Later(w, Resume(w, p, c, id, o).0)
  {
    match p
    case Subscribe(_) => ReturnLater(w, id); UntrackLater(w, id);
    case SetOptions(on) => MarkLater(w, on);
    case _ =>
  }

  lemma ReturnLater(w: World, q: RpcId)
    ensures Later(w, w.Return(q))
  {}

  lemma UntrackLater(w: World, q: RpcId)
    ensures Later(w, w.Untrack(q))
  {
    if q in w.subs && w.subs[q].end.None? {
      EndEachLater(w.subs, w.client.queues, w.client.queues, w.log, w.readers, {q}, Untracked);
    }
  }

  /** Live subscriptions may end, and their queues grow as they do. */
  lemma EndEachLater(subs: map<RpcId, Sub>, queues: map<RpcId, seq<Item>>, queues': map<RpcId, seq<Item>>,
                     log: map<Conn, seq<Message>>, readers: map<Conn, Reader>, qs: set<RpcId>, how: EndKind)
    requires forall q :: q in qs && q in subs ==> subs[q].end.None?
    requires forall q :: q in queues ==>
               q in queues' && queues[q] <= queues'[q] && (q !in qs ==> queues'[q] == queues[q])
    ensures SubsLater(subs, queues, EndEach(subs, log, readers, qs, how), queues')
  {}

  lemma MarkLater(w: World, c: Conn)
    ensures Later(w, w.Answer(c).Mark(c))
  {}

  lemma UnregisterLater(w: World, id: RpcId)
    ensures Later(w, w.Unregister(id)) && Later(w, w.CancelFuture(id)) && Later(w, w.CancelFuture(id).Unregister(id))
  {}

  lemma DetachLater(w: World)
    requires w.Tables() && w.Subs()
    ensures Later(w, w.Detach())
  {
    forall q | q in w.subs && q in w.client.subscriptions.Values
      ensures w.subs[q].end.None?
    {}
  }

  lemma ReleaseLater(w: World, c: Conn)
    ensures Later(w, w.Release(c))
  {}

  lemma ForgetLater(w: World, on: Option<Conn>, sid: string)
    requires w.Tables()
    ensures Later(w, w.Forget(on, sid))
  {
    if w.client.ws == on && sid in w.client.subscriptions {
      EndEachLater(w.subs, w.client.queues, w.Forget(on, sid).client.queues, w.log, w.readers,
                   {w.client.subscriptions[sid]}, Terminated);
    }
  }

  lemma RegisterLater(w: World, c: Conn, hook: Option<string>)
    requires w.Ids()
    ensures Later(w, w.Register(c, hook))
  {
    assert w.client.nextId !in w.sentOn;
  }

  lemma PublishLater(w: World, c: Conn)
    requires c !in w.log
    ensures Later(w, w.Publish(c)) && Later(w, w.Answer(c).Publish(c))
  {}

  lemma RouteReplyLater(w: World, c: Conn, m: Message)
    requires w.Ids() && w.Tables() && m.Reply? && c in w.log
    ensures Later(w, w.RouteReply(c, m))
  {
    RouteReplySubs(w, c, m);
    RouteReplyCalls(w, c, m);
  }

  lemma RouteReplyCalls(w: World, c: Conn, m: Message)
    requires m.Reply? && w.client.pending <= w.client.futures.Keys && c in w.log
    ensures var w' := w.RouteReply(c, m); CallsLater(w.sentOn, w.client.futures, w'.sentOn, w'.client.futures)
  {
    var futures := w.RouteReply(c, m).client.futures;
    assert futures == w.client.futures || w.client.futures[m.id] == Waiting;
  }

  lemma RouteReplySubs(w: World, c: Conn, m: Message)
    requires w.Ids() && w.Tables() && m.Reply? && c in w.log
    ensures var w' := w.RouteReply(c, m); SubsLater(w.subs, w.client.queues, w'.subs, w'.client.queues)
  {
    if w.Registers(c, m) {
      assert m.id !in w.subs;
      EarlierIsLive(w, m);
      RegistersLater(w, c, m);
    } else {
      RouteReplyKeeps(w, c, m);
    }
  }

  lemma EarlierIsLive(w: World, m: Message)
    requires w.Tables() && m.Reply? && m.result.SubscriptionId?
    ensures forall q :: q in Earlier(w, m) ==> q in w.subs && w.subs[q].end.None?
  {}

  lemma RegistersLater(w: World, c: Conn, m: Message)
    requires m.Reply? && c in w.log && w.client.pending <= w.client.futures.Keys && w.Registers(c, m)
    requires m.id !in w.subs && forall q :: q in Earlier(w, m) ==> q in w.subs && w.subs[q].end.None?
    ensures var w' := w.RouteReply(c, m); SubsLater(w.subs, w.client.queues, w'.subs, w'.client.queues)
  {
    assert w.RouteReply(c, m).client.queues == w.client.queues;
  }

  lemma FedLater(w: World, c: Conn, qs: set<RpcId>, m: Message, r: Reader)
    requires w.Tables() && qs <= w.client.subscriptions.Values && c in w.log
    ensures var fed := w.(client := w.client.Put(qs, Note(m)));
            Later(w, fed.Logged(c, m)) && Later(w, fed.SetReader(c, r))
  {
    forall q | q in qs
      ensures q in w.subs && w.subs[q].end.None?
    {}
  }

  lemma RouteLater(w: World, c: Conn)
    requires w.Ids() && w.Tables() && w.Subs() && Routable(w, c)
    ensures Later(w, AfterRoute(w, c))
  {
    match w.readers[c]
    case Routing(m) =>
      match m {
        case Reply(_, _, _) => RouteReplyLater(w, c, m);
        case Event(_, _) => FedLater(w, c, w.client.Addressee(c, m.sid), m, Receiving);
        case Collection(_, _, _) =>
          var qs := w.client.Matching(c, m.collection);
          FedLater(w, c, qs, m, Updating(m, qs));
      }
    case Updating(m, notified) => FedLater(w, c, w.client.Matching(c, m.update) - notified, m, Receiving);
    case TearingDown => DetachLater(w);
  }

  lemma AcquireLater(w: World, pc: Pc)
    requires w.Ids() && w.Tables() && w.Subs()
    ensures Later(w, AfterLock(w, pc).0)
  {
    if pc.CallLock? {
      CallLater(w, pc);
    } else if pc.CloseLock? {
      CloseLater(w, pc);
    } else if pc.FailLock? {
      FailLater(w, pc);
    } else if pc.ForgetLock? {
      ForgetLockLater(w, pc);
    } else {
      LaterReflexive(w);
      assert AfterLock(w, pc).0 == w;
    }
  }

  lemma ForgetLockLater(w: World, pc: Pc)
    requires w.Tables() && pc.ForgetLock?
    ensures Later(w, AfterLock(w, pc).0)
  {
    ForgetLater(w, pc.on, pc.sid);
    assert AfterLock(w, pc).0 == w.Forget(pc.on, pc.sid);
  }

  lemma LaterReflexive(w: World)
    ensures Later(w, w)
  {}

  lemma CloseLater(w: World, pc: Pc)
    requires w.Tables() && w.Subs() && pc.CloseLock?
    ensures Later(w, AfterLock(w, pc).0)
  {
    DetachLater(w);
    LaterReflexive(w);
  }

  lemma FailLater(w: World, pc: Pc)
    requires w.Tables() && w.Subs() && pc.FailLock?
    ensures Later(w, AfterLock(w, pc).0)
  {
    if w.client.ws == Some(pc.c) {
      DetachLater(w);
      assert AfterLock(w, pc).0 == w.Detach();
    } else {
      UnregisteredLater(w, pc.p, pc.c, pc.id, Raised);
      assert AfterLock(w, pc).0 == Resume(w.Unregister(pc.id), pc.p, pc.c, pc.id, Raised).0;
    }
  }

  lemma UnregisteredLater(w: World, p: Purpose, c: Conn, id: RpcId, o: Outcome)
    ensures Later(w, Resume(w.Unregister(id), p, c, id, o).0)
  {
    UnregisterLater(w, id);
    EndLater(w, w.Unregister(id), p, c, id, o);
  }

  lemma CallLater(w: World, pc: Pc)
    requires w.Ids() && pc.CallLock?
    ensures Later(w, AfterLock(w, pc).0)
  {
    LaterReflexive(w);
    if w.client.ws.Some? {
      RegisterLater(w, w.client.ws.value, pc.p.Hook());
    }
  }

  lemma EndLater(w: World, w1: World, p: Purpose, c: Conn, id: RpcId, o: Outcome)
    requires Later(w, w1)
    ensures Later(w, Resume(w1, p, c, id, o).0)
  {
    ResumeLater(w1, p, c, id, o);
    LaterTransitive(w, w1, Resume(w1, p, c, id, o).0);
  }

  lemma AwaitLater(w: World, pc: Pc, e: Ending)
    requires w.Conns() && w.Tables() && w.Subs() && PcOk(w, pc) && CanEnd(w, pc, e)
    ensures Later(w, AfterAwait(w, pc, e).0)
  {
    LaterReflexive(w);
    if pc.InCall() {
      CallEndLater(w, pc, e);
    } else if pc.Owns().Some? || pc.Opening? {
      ConnectionLater(w, pc, e);
    }
  }

  lemma ConnectionLater(w: World, pc: Pc, e: Ending)
    requires w.Conns() && PcOk(w, pc) && ((pc.Owns().Some? && !pc.InCall()) || pc.Opening?)
    ensures Later(w, AfterConnection(w, pc, e).0)
  {
    if pc.Owns().Some? {
      ReleaseLater(w, pc.Owns().value);
      if pc.LoggingIn? || pc.SendingOptions? {
        PublishLater(w, pc.c);
      }
    }
  }

  lemma CallEndLater(w: World, pc: Pc, e: Ending)
    requires w.Tables() && w.Subs() && CanEnd(w, pc, e) && pc.InCall()
    ensures Later(w, AfterCall(w, pc, e).0)
  {
    if pc.Sending? {
      SendingLater(w, pc, e);
    } else if pc.WaitingReply? {
      WaitingLater(w, pc, e);
    } else if pc.FailLock? {
      LocklessLater(w, pc, e);
    } else if pc.SendCleanup? || pc.FailCleanup? {
      CleanupLater(w, pc, e);
    } else {
      LaterReflexive(w);
    }
  }

  lemma SendingLater(w: World, pc: Pc, e: Ending)
    requires w.Tables() && w.Subs() && pc.Sending? && CanEnd(w, pc, e)
    ensures Later(w, AfterCall(w, pc, e).0)
  {
    LaterReflexive(w);
    UnregisterLater(w, pc.id);
    DetachLater(w.Unregister(pc.id));
    LaterTransitive(w, w.Unregister(pc.id), w.Unregister(pc.id).Detach());
    UnregisteredLater(w, pc.p, pc.c, pc.id, Raised);
  }

  lemma WaitingLater(w: World, pc: Pc, e: Ending)
    requires pc.WaitingReply? && CanEnd(w, pc, e)
    ensures Later(w, AfterCall(w, pc, e).0)
  {
    UnregisterLater(w, pc.id);
    if e.Returns? {
      var f := w.client.futures[pc.id];
      UnregisteredLater(w, pc.p, pc.c, pc.id, if f.Answered? then Got(f.reply) else Raised);
    } else {
      EndLater(w, w.CancelFuture(pc.id).Unregister(pc.id), pc.p, pc.c, pc.id, Raised);
    }
  }

  lemma LocklessLater(w: World, pc: Pc, e: Ending)
    requires w.Tables() && w.Subs() && pc.FailLock? && CanEnd(w, pc, e)
    ensures Later(w, AfterCall(w, pc, e).0)
  {
    var w1 := if w.client.ws == Some(pc.c) then w.Detach().Release(pc.c) else w;
    LaterReflexive(w);
    DetachLater(w);
    ReleaseLater(w.Detach(), pc.c);
    LaterTransitive(w, w.Detach(), w.Detach().Release(pc.c));
    UnregisterLater(w1, pc.id);
    LaterTransitive(w, w1, w1.Unregister(pc.id));
    EndLater(w, w1.Unregister(pc.id), pc.p, pc.c, pc.id, Raised);
  }

  lemma CleanupLater(w: World, pc: Pc, e: Ending)
    requires (pc.SendCleanup? || pc.FailCleanup?) && CanEnd(w, pc, e)
    ensures Later(w, AfterCall(w, pc, e).0)
  {
    ReleaseLater(w, pc.c);
    EndLater(w, w.Release(pc.c), pc.p, pc.c, pc.id, Raised);
    UnregisterLater(w.Release(pc.c), pc.id);
    LaterTransitive(w, w.Release(pc.c), w.Release(pc.c).Unregister(pc.id));
    EndLater(w, w.Release(pc.c).Unregister(pc.id), pc.p, pc.c, pc.id, Raised);
  }

  /** Every step only extends the history. */
  lemma StepLater(s: State, a: Action)
    requires Inv(s) && Enabled(s, a) && Defined(s, a)
    ensures Later(s.w, Next(s, a).w)
  {
    match a
    case Acquire(t) => AcquireLater(s.w, s.tasks[t]);
    case Await(t, e) => assert PcOk(s.w, s.tasks[t]); AwaitLater(s.w, s.tasks[t], e);
    case CancelWait(t) => UnregisterLater(s.w, s.tasks[t].id);
    case Receive(c, m) => ReceiveLater(s.w, c, m);
    case Route(c) => RouteLater(s.w, c);
    case _ => OtherLater(s, a);
  }

  lemma ReceiveLater(w: World, c: Conn, m: Message)
    requires c in w.log
    ensures Later(w, AfterReceive(w, c, m))
  {}

  lemma OtherLater(s: State, a: Action)
    requires Enabled(s, a) && !a.Acquire? && !a.Await? && !a.CancelWait? && !a.Route? && !a.Receive?
    ensures Later(s.w, Next(s, a).w)
  {}

  lemma RunStepLater(ss: seq<State>, steps: seq<Action>, i: nat)
    requires Run(ss, steps) && i < |steps|
    ensures Later(ss[i].w, ss[i + 1].w)
  {
    RunInv(ss, steps, i);
    assert Steps(ss[i], steps[i], ss[i + 1]);
    StepLater(ss[i], steps[i]);
  }

  /** In every run, history is only ever extended. */
  lemma {:induction false} RunLater(ss: seq<State>, steps: seq<Action>, i: nat, j: nat)
    requires Run(ss, steps) && i <= j < |ss|
    ensures Later(ss[i].w, ss[j].w)
  {
    if i < j {
      RunLater(ss, steps, i, j - 1);
      RunOneLater(ss, steps, i, j - 1);
    } else {
      LaterReflexive(ss[i].w);
    }
  }

  lemma RunOneLater(ss: seq<State>, steps: seq<Action>, i: nat, j: nat)
    requires Run(ss, steps) && i <= j < |steps| && Later(ss[i].w, ss[j].w)
    ensures Later(ss[i].w, ss[j + 1].w)
  {
    RunStepLater(ss, steps, j);
    LaterTransitive(ss[i].w, ss[j].w, ss[j + 1].w);
  }

  /** Once a queue is terminated, or orphaned, nothing is ever put into it again. */
  lemma EndedQueueIsFrozen(ss: seq<State>, steps: seq<Action>, i: nat, j: nat, q: RpcId)
    requires Run(ss, steps) && i <= j < |ss|
    requires q in ss[i].w.returned && !Tracked(ss[i], q)
    ensures q in ss[i].w.client.queues && q in ss[j].w.client.queues
    ensures ss[j].w.client.queues[q] == ss[i].w.client.queues[q] && !Tracked(ss[j], q)
  {
    RunInv(ss, steps, i);
    RunInv(ss, steps, j);
    RunLater(ss, steps, i, j);
    QueueTracked(ss[i], q);
    QueueTracked(ss[j], q);
  }

  // ---------------------------------------------------------------- replies

  /** No future that was waiting is answered between `w` and `w'`. */
  ghost predicate Unanswered(w: World, w': World) {
    forall id :: id in w.client.futures && w.client.futures[id] == Waiting && id in w'.client.futures ==>
      !w'.client.futures[id].Answered?
  }

  lemma ResumeUnanswered(w: World, p: Purpose, c: Conn, id: RpcId, o: Outcome)
    ensures Resume(w, p, c, id, o).0.client.futures == w.client.futures
  {}

  lemma AwaitUnanswered(w: World, pc: Pc, e: Ending)
    requires CanEnd(w, pc, e)
    ensures Unanswered(w, AfterAwait(w, pc, e).0)
  {
    if pc.InCall() && !pc.CallLock? {
      var (p, c, id) := (pc.p, pc.c, pc.id);
      match pc
      case Sending(_, _, _) => ResumeUnanswered(w.Unregister(id), p, c, id, Raised);
      case SendCleanup(_, _, _) => ResumeUnanswered(w.Release(c), p, c, id, Raised);
      case WaitingReply(_, _, _) =>
        ResumeUnanswered(w.CancelFuture(id).Unregister(id), p, c, id, Raised);
        if e.Returns? {
          var f := w.client.futures[id];
          ResumeUnanswered(w.Unregister(id), p, c, id, if f.Answered? then Got(f.reply) else Raised);
        }
      case FailLock(_, _, _) =>
        var w1 := if w.client.ws == Some(c) then w.Detach().Release(c) else w;
        ResumeUnanswered(w1.Unregister(id), p, c, id, Raised);
      case FailCleanup(_, _, _) => ResumeUnanswered(w.Release(c).Unregister(id), p, c, id, Raised);
    }
  }

  lemma AcquireUnanswered(w: World, pc: Pc)
    ensures Unanswered(w, AfterLock(w, pc).0)
  {
    if pc.FailLock? {
      ResumeUnanswered(w.Unregister(pc.id), pc.p, pc.c, pc.id, Raised);
    }
  }

  lemma RouteAnswers(w: World, c: Conn, id: RpcId)
    requires w.Ids() && Routable(w, c)
    requires id in w.client.futures && w.client.futures[id] == Waiting
    requires id in AfterRoute(w, c).client.futures && AfterRoute(w, c).client.futures[id].Answered?
    ensures id in w.sentOn && c == w.sentOn[id] && w.client.ws == Some(c)
    ensures w.readers[c] == Routing(AfterRoute(w, c).client.futures[id].reply)
    ensures AfterRoute(w, c).client.futures[id].reply.Reply? && AfterRoute(w, c).client.futures[id].reply.id == id
  {
    if w.readers[c].Routing? && w.readers[c].m.Reply? {
      ReplyAnswers(w, c, w.readers[c].m, id);
    } else {
      NoReplyNoAnswer(w, c, id);
    }
  }

  lemma ReplyAnswers(w: World, c: Conn, m: Message, id: RpcId)
    requires w.Ids() && m.Reply? && c in w.log
    requires id in w.client.futures && w.client.futures[id] == Waiting
    requires id in w.RouteReply(c, m).client.futures && w.RouteReply(c, m).client.futures[id].Answered?
    ensures w.client.ws == Some(c) && m.id == id && id in w.client.pending
    ensures w.RouteReply(c, m).client.futures[id].reply == m
  {}

  lemma NoReplyNoAnswer(w: World, c: Conn, id: RpcId)
    requires Routable(w, c) && !(w.readers[c].Routing? && w.readers[c].m.Reply?)
    requires id in w.client.futures && w.client.futures[id] == Waiting
    ensures id in AfterRoute(w, c).client.futures ==> !AfterRoute(w, c).client.futures[id].Answered?
  {
    if w.readers[c].TearingDown? {
      TeardownNoAnswer(w, c, id);
    } else {
      FeedingKeepsClient(w, c);
    }
  }

  lemma TeardownNoAnswer(w: World, c: Conn, id: RpcId)
    requires id in w.client.futures && w.client.futures[id] == Waiting
    ensures id in w.Teardown(c).client.futures && !w.Teardown(c).client.futures[id].Answered?
  {}

  /** Feeding a notification to queues changes nothing else. */
  lemma FeedingKeepsClient(w: World, c: Conn)
    requires Routable(w, c) && !w.readers[c].TearingDown? && !(w.readers[c].Routing? && w.readers[c].m.Reply?)
    ensures AfterRoute(w, c).client == w.client.(queues := AfterRoute(w, c).client.queues)
  {
    if w.readers[c].Updating? {
      UpdateKeepsClient(w, c, w.readers[c].m, w.readers[c].notified);
    } else if w.readers[c].m.Event? {
      EventKeepsClient(w, c, w.readers[c].m);
    } else {
      CollectionKeepsClient(w, c, w.readers[c].m);
    }
  }

  lemma UpdateKeepsClient(w: World, c: Conn, m: Message, notified: set<RpcId>)
    requires m.Collection? && c in w.log && w.client.subscriptions.Keys == w.client.events.Keys
    ensures w.RouteUpdate(c, m, notified).client == w.client.(queues := w.RouteUpdate(c, m, notified).client.queues)
  {}

  lemma EventKeepsClient(w: World, c: Conn, m: Message)
    requires m.Event? && c in w.log
    ensures w.RouteEvent(c, m).client == w.client.(queues := w.RouteEvent(c, m).client.queues)
  {}

  lemma CollectionKeepsClient(w: World, c: Conn, m: Message)
    requires m.Collection? && c in w.log && w.client.subscriptions.Keys == w.client.events.Keys
    ensures w.RouteCollection(c, m).client == w.client.(queues := w.RouteCollection(c, m).client.queues)
  {}

  /** Only one kind of step answers a call: its own connection's reader routing a reply with its
      id, while that connection is the current one. */
  lemma AnsweredWhileCurrent(s: State, a: Action, id: RpcId)
    requires Reachable(s) && Enabled(s, a) && Defined(s, a)
    requires id in s.w.client.futures && s.w.client.futures[id] == Waiting
    requires id in Next(s, a).w.client.futures && Next(s, a).w.client.futures[id].Answered?
    ensures a.Route? && id in s.w.sentOn && a.c == s.w.sentOn[id] && Current(s, a.c)
    ensures s.w.readers[a.c] == Routing(Next(s, a).w.client.futures[id].reply)
    ensures Next(s, a).w.client.futures[id].reply.Reply? && Next(s, a).w.client.futures[id].reply.id == id
  {
    ReachableInv(s);
    if a.Route? {
      RouteAnswers(s.w, a.c, id);
    } else {
      OtherUnanswered(s, a);
    }
  }

  lemma OtherUnanswered(s: State, a: Action)
    requires Enabled(s, a) && !a.Route?
    ensures Unanswered(s.w, Next(s, a).w)
  {
    match a
    case Acquire(t) => AcquireUnanswered(s.w, s.tasks[t]);
    case Await(t, e) => AwaitUnanswered(s.w, s.tasks[t], e);
    case _ =>
  }

  // ---------------------------------------------------------------- the private-methods mark

  /** The connection a step sends core.set_options on, if it does. */
  function SendsOptions(s: State, a: Action): Option<Conn> {
    match a
    case Acquire(t) =>
      if t in s.tasks && s.tasks[t].CallLock? && s.tasks[t].p.SetOptions? && s.w.client.ws == Some(s.tasks[t].p.target)
      then s.w.client.ws else None
    case Await(t, e) =>
      if t in s.tasks && s.tasks[t].LoggingIn? && e.Returns? && s.w.client.privateMethods
      then Some(s.tasks[t].c) else None
    case _ => None
  }

  /** The mark names the current connection, on which the option was answered. */
  lemma MarkIsAnswered(s: State, c: Conn)
    requires Reachable(s) && s.w.client.privateWs == Some(c)
    ensures Current(s, c) && c in s.w.answered && c in s.w.marked
  {
    ReachableInv(s);
  }

  /** Once a connection was marked, no later step of the run sends the option on it again. */
  lemma NeverSentAgain(ss: seq<State>, steps: seq<Action>, i: nat, j: nat, c: Conn)
    requires Run(ss, steps) && i <= j < |steps| && ss[i].w.client.privateWs == Some(c)
    ensures SendsOptions(ss[j], steps[j]) != Some(c)
  {
    RunReachable(ss, steps, i);
    MarkIsAnswered(ss[i], c);
    RunLater(ss, steps, i, j);
    RunInv(ss, steps, j);
    NotSentOnMarked(ss[j], steps[j], c);
  }

  lemma NotSentOnMarked(s: State, a: Action, c: Conn)
    requires PcsOk(s.w, s.tasks) && s.w.Marks() && c in s.w.marked
    ensures SendsOptions(s, a) != Some(c)
  {
    if (a.Acquire? || a.Await?) && a.t in s.tasks {
      assert PcOk(s.w, s.tasks[a.t]);
    }
  }

  /** At most one enable_private_methods() call has the option in flight. */
  lemma OneEnableInFlight(s: State, t: TaskId, u: TaskId)
    requires Reachable(s) && t in s.tasks && u in s.tasks && s.tasks[t].HoldsPrivate() && s.tasks[u].HoldsPrivate()
    ensures t == u
  {
    ReachableInv(s);
  }

  /** A connection published while the flag is set is marked at once: an enable that overlaps a
      connect() is never lost. No step clears the flag. */
  lemma ConnectMarks(s: State, a: Action)
    requires Enabled(s, a) && Defined(s, a) && s.w.client.privateMethods
    ensures Next(s, a).w.client.privateMethods
    ensures var ws := Next(s, a).w.client.ws;
            ws.Some? && ws != s.w.client.ws ==> Next(s, a).w.client.privateWs == ws
  {
    match a
    case Acquire(t) => AcquireKeepsFlag(s.w, s.tasks[t]);
    case Await(t, e) => AwaitMarks(s.w, s.tasks[t], e);
    case Route(c) => RouteKeepsFlag(s.w, c);
    case _ =>
  }

  lemma ResumeKeepsFlag(w: World, p: Purpose, c: Conn, id: RpcId, o: Outcome)
    ensures var w' := Resume(w, p, c, id, o).0;
            w'.client.privateMethods == w.client.privateMethods && w'.client.ws == w.client.ws
  {}

  lemma AcquireKeepsFlag(w: World, pc: Pc)
    ensures var w' := AfterLock(w, pc).0;
            w'.client.privateMethods == w.client.privateMethods && (w'.client.ws == w.client.ws || w'.client.ws.None?)
  {
    if pc.FailLock? {
      ResumeKeepsFlag(w.Unregister(pc.id), pc.p, pc.c, pc.id, Raised);
    }
  }

  lemma RouteKeepsFlag(w: World, c: Conn)
    requires Routable(w, c)
    ensures var w' := AfterRoute(w, c);
            w'.client.privateMethods == w.client.privateMethods && (w'.client.ws == w.client.ws || w'.client.ws.None?)
  {
    if w.readers[c].Routing? && w.readers[c].m.Reply? {
      ReplyKeepsFlag(w, c, w.readers[c].m);
    }
  }

  lemma ReplyKeepsFlag(w: World, c: Conn, m: Message)
    requires m.Reply? && c in w.log && w.client.pending <= w.client.futures.Keys
    ensures var w' := w.RouteReply(c, m);
            w'.client.privateMethods == w.client.privateMethods && w'.client.ws == w.client.ws
  {}

  /** A connection that `w'` newly has is marked if the flag is set. */
  ghost predicate Marked(w: World, w': World) {
    && w'.client.privateMethods == w.client.privateMethods
    && (w.client.privateMethods && w'.client.ws.Some? && w'.client.ws != w.client.ws ==>
          w'.client.privateWs == w'.client.ws)
  }

  lemma AwaitMarks(w: World, pc: Pc, e: Ending)
    requires CanEnd(w, pc, e)
    ensures Marked(w, AfterAwait(w, pc, e).0)
  {
    if pc.InCall() {
      CallMarks(w, pc, e);
    } else if pc.Owns().Some? || pc.Opening? {
      ConnectionMarks(w, pc, e);
    }
  }

  lemma ConnectionMarks(w: World, pc: Pc, e: Ending)
    requires (pc.Owns().Some? && !pc.InCall()) || pc.Opening?
    ensures Marked(w, AfterConnection(w, pc, e).0)
  {}

  lemma CallMarks(w: World, pc: Pc, e: Ending)
    requires CanEnd(w, pc, e) && pc.InCall()
    ensures Marked(w, AfterCall(w, pc, e).0)
  {
    if !pc.CallLock? {
      var (p, c, id) := (pc.p, pc.c, pc.id);
      match pc
      case Sending(_, _, _) => ResumeKeepsFlag(w.Unregister(id), p, c, id, Raised);
      case SendCleanup(_, _, _) => ResumeKeepsFlag(w.Release(c), p, c, id, Raised);
      case WaitingReply(_, _, _) =>
        ResumeKeepsFlag(w.CancelFuture(id).Unregister(id), p, c, id, Raised);
        if e.Returns? {
          var f := w.client.futures[id];
          ResumeKeepsFlag(w.Unregister(id), p, c, id, if f.Answered? then Got(f.reply) else Raised);
        }
      case FailLock(_, _, _) =>
        var w1 := if w.client.ws == Some(c) then w.Detach().Release(c) else w;
        ResumeKeepsFlag(w1.Unregister(id), p, c, id, Raised);
      case FailCleanup(_, _, _) => ResumeKeepsFlag(w.Release(c).Unregister(id), p, c, id, Raised);
    }
  }
}
