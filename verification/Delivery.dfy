/** Which queues a message reaches, told from the event each subscription is for. */
module Delivery {
  import opened Wire
  import opened Client
  import opened History
  import opened Protocol
  import opened Safety
  import opened Theorems
  import opened Progress

  /** The queues of `f'` are those of `f`, with `m` at the end of each tracked one whose event
      `collection` concerns and `served` does not. */
  ghost predicate Delivered(f: Fields, f': Fields, m: Message, collection: Option<string>, served: Option<string>) {
    && f' == f.(queues := f'.queues) && f'.queues.Keys == f.queues.Keys
    && f.subscriptions.Keys == f.events.Keys && f.subscriptions.Values <= f.queues.Keys
    && (forall sid :: sid in f.subscriptions ==>
          var (q, event) := (f.subscriptions[sid], f.events[sid]);
          f'.queues[q]
          == f.queues[q] + if Concerns(collection, event) && !Concerns(served, event) then [Note(m)] else [])
    && (forall q :: q in f.queues && !f.Tracks(q) ==> f'.queues[q] == f.queues[q])
  }

  // ---------------------------------------------------------------- one turn of a reader

  /** What a reader may rely on as it gets the lock. */
  lemma RouteReady(s: State, c: Conn)
    requires Reachable(s) && Enabled(s, Route(c))
    ensures Defined(s, Route(c)) && s.w.client.Consistent() && s.w.Updates()
  {
    ReachableInv(s);
    StepInv(s, Route(c));
  }

  /** Routing a notification puts it into the queue of every subscription of the current connection
      whose event its collection concerns, once, and into no other. */
  lemma CollectionDelivered(s: State, c: Conn, m: Message)
    requires Reachable(s) && Enabled(s, Route(c)) && Current(s, c)
    requires s.w.readers[c] == Routing(m) && m.Collection?
    ensures Defined(s, Route(c))
    ensures Delivered(s.w.client, Next(s, Route(c)).w.client, m, m.collection, None)
    ensures var r := Next(s, Route(c)).w.readers[c]; if m.update.Some? then r.Updating? && r.m == m else r.Receiving?
  {
    RouteReady(s, c);
    CollectionTurn(s.w, c, m);
  }

  lemma CollectionTurn(w: World, c: Conn, m: Message)
    requires w.client.Consistent() && w.client.ws == Some(c)
    requires Routable(w, c) && w.readers[c] == Routing(m) && m.Collection?
    ensures Delivered(w.client, AfterRoute(w, c).client, m, m.collection, None)
  {
    MatchingDelivers(w.client, c, m, m.collection, None, {});
  }

  /** The second turn of an update serves those its params' collection concerns and the first did not. */
  lemma UpdateDelivered(s: State, c: Conn, m: Message)
    requires Reachable(s) && Enabled(s, Route(c)) && Current(s, c)
    requires s.w.readers[c].Updating? && s.w.readers[c].m == m
    ensures Defined(s, Route(c)) && m.Collection?
    ensures Delivered(s.w.client, Next(s, Route(c)).w.client, m, m.update, m.collection)
    ensures Next(s, Route(c)).w.readers[c] == Receiving
  {
    RouteReady(s, c);
    UpdateTurn(s.w, c, m);
  }

  lemma UpdateTurn(w: World, c: Conn, m: Message)
    requires w.client.Consistent() && w.client.ws == Some(c) && w.Updates()
    requires Routable(w, c) && w.readers[c].Updating? && w.readers[c].m == m
    ensures m.Collection? && Delivered(w.client, AfterRoute(w, c).client, m, m.update, m.collection)
  {
    forall sid | sid in w.client.subscriptions
      ensures w.client.subscriptions[sid] in w.readers[c].notified <==> Concerns(m.collection, w.client.events[sid])
    {
      MatchesIff(m.collection, w.client.events[sid]);
    }
    MatchingDelivers(w.client, c, m, m.update, m.collection, w.readers[c].notified);
  }

  lemma MatchingDelivers(f: Fields, c: Conn, m: Message, collection: Option<string>, served: Option<string>,
                         notified: set<RpcId>)
    requires f.Consistent() && f.ws == Some(c)
    requires forall sid :: sid in f.subscriptions ==>
               (f.subscriptions[sid] in notified <==> Concerns(served, f.events[sid]))
    ensures Delivered(f, f.Put(f.Matching(c, collection) - notified, Note(m)), m, collection, served)
    ensures f.Matching(c, collection) - {} == f.Matching(c, collection)
  {
    forall sid | sid in f.subscriptions
      ensures f.subscriptions[sid] in f.Matching(c, collection) <==> Concerns(collection, f.events[sid])
    {
      MatchesIff(collection, f.events[sid]);
    }
  }

  /** `m` is put into the queue tracked under its subscription id, and into no other. */
  ghost predicate DeliveredTo(f: Fields, f': Fields, m: Message, sid: string) {
    && f' == f.(queues := f'.queues) && f'.queues.Keys == f.queues.Keys
    && forall q :: q in f.queues ==>
         f'.queues[q] == f.queues[q] + if sid in f.subscriptions && f.subscriptions[sid] == q then [Note(m)] else []
  }

  /** A subscription notification reaches the one queue tracked under its id, and no other. */
  lemma EventDelivered(s: State, c: Conn, m: Message)
    requires Reachable(s) && Enabled(s, Route(c)) && Current(s, c)
    requires s.w.readers[c] == Routing(m) && m.Event?
    ensures Defined(s, Route(c)) && DeliveredTo(s.w.client, Next(s, Route(c)).w.client, m, m.sid)
    ensures Next(s, Route(c)).w.readers[c] == Receiving
  {
    RouteReady(s, c);
    EventTurn(s.w, c, m);
  }

  lemma EventTurn(w: World, c: Conn, m: Message)
    requires w.client.ws == Some(c) && Routable(w, c) && w.readers[c] == Routing(m) && m.Event?
    ensures DeliveredTo(w.client, AfterRoute(w, c).client, m, m.sid)
  {}

  /** A connection that is not current delivers nothing at all. */
  lemma OldDeliversNothing(s: State, c: Conn)
    requires Reachable(s) && Enabled(s, Route(c)) && !Current(s, c)
    ensures Defined(s, Route(c)) && Next(s, Route(c)).w.client == s.w.client
  {
    RouteReady(s, c);
    if s.w.readers[c].Routing? && s.w.readers[c].m.Reply? {
      assert s.w.RouteReply(c, s.w.readers[c].m).client == s.w.client;
    } else {
      ForeignFed(s.w, c);
    }
  }

  // ---------------------------------------------------------------- from arrival to the queues

  /** `m` is meant for the subscription `sid` to `event`: by its id, or by either of its collections. */
  predicate MeantFor(m: Message, sid: string, event: string) {
    || (m.Event? && m.sid == sid)
    || (m.Collection? && (Concerns(m.collection, event) || Concerns(m.update, event)))
  }

  lemma AddressedIff(m: Message, sid: string, event: string)
    ensures Addressed(m, sid, event) <==> MeantFor(m, sid, event)
  {
    if m.Collection? {
      MatchesIff(m.collection, event);
      MatchesIff(m.update, event);
    }
  }

  /** The reader of `c` has `m` and is not done with it. */
  predicate Handling(w: World, c: Conn, m: Message) {
    c in w.readers && (w.readers[c] == Routing(m) || (w.readers[c].Updating? && w.readers[c].m == m))
  }

  predicate Stopped(w: World, c: Conn) {
    c in w.readers && (w.readers[c].TearingDown? || w.readers[c].Ended?)
  }

  predicate MovesReader(a: Action, c: Conn) {
    (a.Receive? || a.Route? || a.Stop? || a.CancelReader?) && a.c == c
  }

  /** A reader only moves by steps of its own. */
  lemma ReaderAlone(s: State, a: Action, c: Conn)
    requires PcsOk(s.w, s.tasks) && Enabled(s, a) && Defined(s, a) && !MovesReader(a, c)
    requires c in s.w.readers && c in s.w.log
    ensures var w' := Next(s, a).w;
            c in w'.readers && w'.readers[c] == s.w.readers[c] && c in w'.log && w'.log[c] == s.w.log[c]
  {
    match a
    case Acquire(t) => AcquireReaders(s.w, s.tasks[t]);
    case Await(t, e) =>
      assert PcOk(s.w, s.tasks[t]);
      AwaitReaders(s.w, s.tasks[t], e, c);
    case Route(_) => RouteReaders(s.w, a.c, c);
    case _ =>
  }

  lemma ResumeReaders(w: World, p: Purpose, c: Conn, id: RpcId, o: Outcome)
    ensures var w' := Resume(w, p, c, id, o).0; w'.readers == w.readers && w'.log == w.log
  {}

  lemma AcquireReaders(w: World, pc: Pc)
    ensures var w' := AfterLock(w, pc).0; w'.readers == w.readers && w'.log == w.log
  {
    if pc.FailLock? {
      ResumeReaders(w.Unregister(pc.id), pc.p, pc.c, pc.id, Raised);
    }
  }

  lemma AwaitReaders(w: World, pc: Pc, e: Ending, c: Conn)
    requires PcOk(w, pc) && CanEnd(w, pc, e) && c in w.readers && c in w.log
    ensures var w' := AfterAwait(w, pc, e).0;
            c in w'.readers && w'.readers[c] == w.readers[c] && c in w'.log && w'.log[c] == w.log[c]
  {
    if pc.InCall() {
      CallReaders(w, pc, e);
    } else if pc.Owns().Some? || pc.Opening? {
      ConnectionReaders(w, pc, e, c);
    }
  }

  lemma ConnectionReaders(w: World, pc: Pc, e: Ending, c: Conn)
    requires PcOk(w, pc) && ((pc.Owns().Some? && !pc.InCall()) || pc.Opening?) && c in w.readers && c in w.log
    ensures var w' := AfterConnection(w, pc, e).0;
            c in w'.readers && w'.readers[c] == w.readers[c] && c in w'.log && w'.log[c] == w.log[c]
  {}

  lemma CallReaders(w: World, pc: Pc, e: Ending)
    requires CanEnd(w, pc, e) && pc.InCall()
    ensures var w' := AfterCall(w, pc, e).0; w'.readers == w.readers && w'.log == w.log
  {
    if !pc.CallLock? {
      var (p, c, id) := (pc.p, pc.c, pc.id);
      match pc
      case Sending(_, _, _) => ResumeReaders(w.Unregister(id), p, c, id, Raised);
      case SendCleanup(_, _, _) => ResumeReaders(w.Release(c), p, c, id, Raised);
      case WaitingReply(_, _, _) =>
        ResumeReaders(w.CancelFuture(id).Unregister(id), p, c, id, Raised);
        if e.Returns? {
          var f := w.client.futures[id];
          ResumeReaders(w.Unregister(id), p, c, id, if f.Answered? then Got(f.reply) else Raised);
        }
      case FailLock(_, _, _) =>
        var w1 := if w.client.ws == Some(c) then w.Detach().Release(c) else w;
        ResumeReaders(w1.Unregister(id), p, c, id, Raised);
      case FailCleanup(_, _, _) => ResumeReaders(w.Release(c).Unregister(id), p, c, id, Raised);
    }
  }

  lemma RouteReaders(w: World, d: Conn, c: Conn)
    requires Routable(w, d) && c != d && c in w.readers && c in w.log
    ensures var w' := AfterRoute(w, d);
            c in w'.readers && w'.readers[c] == w.readers[c] && c in w'.log && w'.log[c] == w.log[c]
  {}

  /** From `w` to `w'` the reader still has `m`, and has routed nothing else. */
  ghost predicate Holding(w: World, w': World, c: Conn, m: Message) {
    Handling(w', c, m) && c in w.log && c in w'.log && w'.log[c] == w.log[c]
  }

  /** From `w` to `w'` the reader has routed `m`, and nothing else. */
  ghost predicate Routed(w: World, w': World, c: Conn, m: Message) {
    c in w'.readers && w'.readers[c] == Receiving && c in w.log && c in w'.log && w'.log[c] == w.log[c] + [m]
  }

  /** A reader keeps its message until it has routed it, and then enters it into the log, or stops. */
  lemma HandlingStep(w: World, s: State, a: Action, c: Conn, m: Message)
    requires PcsOk(s.w, s.tasks) && Enabled(s, a) && Defined(s, a)
    requires (Stopped(s.w, c) && c in s.w.log) || Holding(w, s.w, c, m)
    ensures var w' := Next(s, a).w; Stopped(w', c) || Holding(w, w', c, m) || Routed(w, w', c, m)
  {
    if MovesReader(a, c) {
      if a.Route? {
        RouteLogs(s.w, c);
      }
    } else {
      ReaderAlone(s, a, c);
    }
  }

  lemma RouteLogs(w: World, c: Conn)
    requires Routable(w, c)
    ensures var w' := AfterRoute(w, c);
            && c in w'.log && c in w'.readers
            && match w.readers[c]
               case Routing(m) => (w'.readers[c].Updating? && w'.readers[c].m == m && w'.log[c] == w.log[c])
                                  || (w'.readers[c] == Receiving && w'.log[c] == w.log[c] + [m])
               case Updating(m, _) => w'.readers[c] == Receiving && w'.log[c] == w.log[c] + [m]
               case _ => w'.readers[c] == Ended
  {}

  lemma ReceiveLogs(s: State, c: Conn, m: Message)
    requires Enabled(s, Receive(c, m))
    ensures var w' := Next(s, Receive(c, m)).w; Holding(s.w, w', c, m) || Routed(s.w, w', c, m)
  {}

  /** The reader of `c` gets `m` in step `i`, and state `j` is the first in which it waits for the next
      message. */
  ghost predicate Handles(ss: seq<State>, steps: seq<Action>, i: nat, j: nat, c: Conn, m: Message) {
    && Run(ss, steps) && i < j < |ss| && steps[i] == Receive(c, m)
    && Waits(ss[j], c) && forall k :: i < k < j ==> !Waits(ss[k], c)
  }

  predicate Waits(s: State, c: Conn) { c in s.w.readers && s.w.readers[c] == Receiving }

  lemma {:induction false} HandledIsLogged(ss: seq<State>, steps: seq<Action>, i: nat, j: nat, k: nat,
                                           c: Conn, m: Message)
    requires Handles(ss, steps, i, j, c, m) && i < k <= j
    ensures Stopped(ss[k].w, c) || Holding(ss[i].w, ss[k].w, c, m) || (k == j && Routed(ss[i].w, ss[k].w, c, m))
    decreases k
  {
    if k == i + 1 {
      RunStep(ss, steps, i);
      ReceiveLogs(ss[i], c, m);
    } else {
      HandledIsLogged(ss, steps, i, j, k - 1, c, m);
      HandledNext(ss, steps, i, k - 1, c, m);
    }
  }

  lemma RunStep(ss: seq<State>, steps: seq<Action>, i: nat)
    requires Run(ss, steps) && i < |steps|
    ensures Enabled(ss[i], steps[i]) && Defined(ss[i], steps[i]) && ss[i + 1] == Next(ss[i], steps[i])
  {
    RunInv(ss, steps, i);
    assert Steps(ss[i], steps[i], ss[i + 1]);
  }

  lemma HandledNext(ss: seq<State>, steps: seq<Action>, i: nat, k: nat, c: Conn, m: Message)
    requires Run(ss, steps) && i < k < |steps|
    requires Stopped(ss[k].w, c) || Holding(ss[i].w, ss[k].w, c, m)
    ensures || Stopped(ss[k + 1].w, c) || Holding(ss[i].w, ss[k + 1].w, c, m)
            || Routed(ss[i].w, ss[k + 1].w, c, m)
  {
    RunInv(ss, steps, k);
    RunStep(ss, steps, k);
    HandlingStep(ss[i].w, ss[k], steps[k], c, m);
  }

  /** The queue of the live subscription `q` to `event`, while the reader of `c` waits. */
  ghost predicate Fed(w: World, c: Conn, sid: string, q: RpcId, sub: Sub) {
    && q in w.subs && w.subs[q] == sub && sub.sid == sid && c in w.log && sub.start <= |w.log[c]|
    && sid in w.client.events && w.client.events[sid] == sub.event
    && q in w.client.queues && w.client.queues[q] == Feed(w.log[c][sub.start..], sid, sub.event)
  }

  lemma IdleFeed(s: State, c: Conn, sid: string)
    requires s.w.Tables() && s.w.Feeds() && Current(s, c) && Waits(s, c) && sid in s.w.client.subscriptions
    ensures var q := s.w.client.subscriptions[sid];
            q in s.w.subs && s.w.subs[q].end.None? && Fed(s.w, c, sid, q, s.w.subs[q])
  {
    var q := s.w.client.subscriptions[sid];
    assert FeedOk(q, s.w.client.queues[q], s.w.subs[q], s.w.log[s.w.subs[q].conn], s.w.readers);
  }

  lemma FedOnce(w: World, w': World, c: Conn, m: Message, sid: string, q: RpcId, sub: Sub)
    requires Fed(w, c, sid, q, sub) && Fed(w', c, sid, q, sub) && Routed(w, w', c, m)
    ensures w'.client.queues[q] == w.client.queues[q] + if MeantFor(m, sid, sub.event) then [Note(m)] else []
  {
    AddressedIff(m, sid, sub.event);
    FeedSnoc(w.log[c], sub.start, m, sid, sub.event);
  }

  lemma SubStays(ss: seq<State>, steps: seq<Action>, i: nat, j: nat, q: RpcId)
    requires Run(ss, steps) && i <= j < |ss| && q in ss[i].w.subs && q in ss[i].w.client.queues
    ensures q in ss[j].w.subs && ss[j].w.subs[q] == ss[i].w.subs[q].(end := ss[j].w.subs[q].end)
  {
    RunLater(ss, steps, i, j);
  }

  /** In every run, whatever others do meanwhile: by the time the reader of a connection waits for its
      next message, the last one is in the queue of every subscription it was meant for, once, and in no
      other. */
  lemma ReceivedOnce(ss: seq<State>, steps: seq<Action>, i: nat, j: nat, c: Conn, m: Message, sid: string)
    requires Handles(ss, steps, i, j, c, m) && Current(ss[i], c) && Current(ss[j], c)
    requires sid in ss[i].w.client.subscriptions && sid in ss[j].w.client.subscriptions
    requires ss[j].w.client.subscriptions[sid] == ss[i].w.client.subscriptions[sid]
    ensures var q := ss[i].w.client.subscriptions[sid];
            && q in ss[i].w.client.queues && q in ss[j].w.client.queues && sid in ss[i].w.client.events
            && ss[j].w.client.queues[q]
               == ss[i].w.client.queues[q] + if MeantFor(m, sid, ss[i].w.client.events[sid]) then [Note(m)] else []
  {
    var q := ss[i].w.client.subscriptions[sid];
    RunInv(ss, steps, i);
    RunInv(ss, steps, j);
    RunStep(ss, steps, i);
    IdleFeed(ss[i], c, sid);
    IdleFeed(ss[j], c, sid);
    SubStays(ss, steps, i, j, q);
    HandledIsLogged(ss, steps, i, j, j, c, m);
    FedOnce(ss[i].w, ss[j].w, c, m, sid, q, ss[i].w.subs[q]);
  }
}
