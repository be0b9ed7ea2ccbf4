/** Runs that show the two assumptions of the main results are needed. */
module Witness {
  import opened Wire
  import opened Client
  import opened History
  import opened Protocol
  import opened Theorems

  lemma OpeningReachable() returns (s: State)
    ensures Reachable(s) && s.tasks == map[0 := Opening] && s.lock == Some(0) && s.privateLock.None? && s.w == START
  {
    ReachInit();
    s := INIT;
    ReachNext(s, Spawn(0, ConnectLock));
    s := Next(s, Spawn(0, ConnectLock));
    ReachNext(s, Acquire(0));
    s := Next(s, Acquire(0));
  }

  lemma LoggingInReachable() returns (s: State)
    ensures Reachable(s) && s.tasks == map[0 := LoggingIn(0)] && s.lock == Some(0) && s.privateLock.None?
    ensures s.w == START.Open()
  {
    s := OpeningReachable();
    ReachNext(s, Await(0, Returns));
    s := Next(s, Await(0, Returns));
  }

  /** connect() succeeds: connection 0 is current and nothing is in progress. */
  lemma ConnectedReachable() returns (s: State)
    ensures Reachable(s) && s.tasks == map[] && s.lock.None?
    ensures s.w == World(INITIAL.(ws := Some(0), reader := Some(0), nextId := 2), map[0 := Receiving], 1, {}, {}, {},
                         map[], map[0 := []], map[], {}, {}, {})
  {
    s := LoggingInReachable();
    ReachNext(s, Await(0, Returns));
    s := Next(s, Await(0, Returns));
  }

  /** A reader that stops on an unexpected error leaves its socket open with nobody to close it. */
  lemma CrashLeaksSocket() returns (s: State)
    ensures Reachable(s) && s.tasks == map[] && s.w.client.ws.None?
    ensures 0 < s.w.sockets && 0 !in s.w.dead
  {
    s := ConnectedReachable();
    ReachNext(s, Stop(0, false));
    s := Next(s, Stop(0, false));
    ReachNext(s, Route(0));
    s := Next(s, Route(0));
  }

  /** Connection 0 is up and idle, and its next request id is fresh. */
  ghost predicate Idle(s: State) {
    && Reachable(s) && s.tasks == map[] && s.lock.None? && s.w.client.ws == Some(0)
    && s.w.readers == map[0 := Receiving] && 0 in s.w.log
    && s.w.client.pending == {} && s.w.client.hooks == map[]
    && s.w.client.subscriptions.Keys == s.w.client.events.Keys
    && s.w.client.nextId !in s.w.subs
  }

  lemma SendingReachable(s0: State, event: string) returns (s: State)
    requires Idle(s0)
    ensures Reachable(s) && s.lock == Some(0) && s.w == s0.w.Register(0, Some(event))
    ensures s.tasks == map[0 := Sending(Subscribe(event), 0, s0.w.client.nextId)]
  {
    s := s0;
    ReachNext(s, Spawn(0, CallLock(Subscribe(event))));
    s := Next(s, Spawn(0, CallLock(Subscribe(event))));
    ReachNext(s, Acquire(0));
    s := Next(s, Acquire(0));
  }

  lemma SentReachable(s0: State, event: string) returns (s: State)
    requires Idle(s0)
    ensures Reachable(s) && s.lock.None? && s.w == s0.w.Register(0, Some(event))
    ensures s.tasks == map[0 := WaitingReply(Subscribe(event), 0, s0.w.client.nextId)]
  {
    s := SendingReachable(s0, event);
    ReachNext(s, Await(0, Returns));
    s := Next(s, Await(0, Returns));
  }

  /** With nobody in its way, the reader of connection 0 receives the reply `m` and routes it. */
  lemma RouteReachable(s0: State, m: Message) returns (s: State)
    requires Reachable(s0) && s0.lock.None? && m.Reply?
    requires s0.w.readers == map[0 := Receiving] && 0 in s0.w.log
    requires s0.w.client.pending <= s0.w.client.futures.Keys
    requires s0.w.client.subscriptions.Keys == s0.w.client.events.Keys
    ensures Reachable(s) && s.lock.None? && s.tasks == s0.tasks && s.w == s0.w.RouteReply(0, m)
  {
    s := s0;
    ReachNext(s, Receive(0, m));
    s := Next(s, Receive(0, m));
    assert s.w == s0.w.SetReader(0, Routing(m));
    ReachNext(s, Route(0));
    s := Next(s, Route(0));
    RouteFromRouting(s0.w, m);
  }

  lemma RouteFromRouting(w: World, m: Message)
    requires m.Reply? && w.readers == map[0 := Receiving] && 0 in w.log && w.client.pending <= w.client.futures.Keys
    ensures w.SetReader(0, Routing(m)).RouteReply(0, m) == w.RouteReply(0, m)
  {
    if w.Registers(0, m) {
      EndWhileRouting(w.subs, w.log, w.readers, Earlier(w, m), m);
    }
    assert w.readers[0 := Routing(m)][0 := Receiving] == w.readers[0 := Receiving];
  }

  lemma EndWhileRouting(subs: map<RpcId, Sub>, log: map<Conn, seq<Message>>, readers: map<Conn, Reader>,
                        qs: set<RpcId>, m: Message)
    requires readers == map[0 := Receiving]
    ensures EndEach(subs, log, readers[0 := Routing(m)], qs, Overwritten)
         == EndEach(subs, log, readers, qs, Overwritten)
  {}

  lemma RoutedReachable(s0: State, event: string, m: Message) returns (s: State)
    requires Idle(s0) && m.Reply?
    ensures Reachable(s) && s.lock.None?
    ensures s0.w.client.pending <= s0.w.client.futures.Keys
    ensures s.w == s0.w.Register(0, Some(event)).RouteReply(0, m)
    ensures s.tasks == map[0 := WaitingReply(Subscribe(event), 0, s0.w.client.nextId)]
  {
    s := SentReachable(s0, event);
    s := RouteReachable(s, m);
  }

  /** What a subscribe() that got `sid` leaves behind. */
  lemma SubscribedWorld(w0: World, event: string, sid: string, m: Message)
    requires w0.client.ws == Some(0) && w0.readers == map[0 := Receiving] && 0 in w0.log
    requires w0.client.pending == {} && w0.client.hooks == map[] && w0.client.nextId !in w0.subs
    requires m == Reply(w0.client.nextId, false, SubscriptionId(sid))
    ensures var (w, id) := (w0.Register(0, Some(event)).RouteReply(0, m), w0.client.nextId);
            && w.client.ws == Some(0) && w.readers == map[0 := Receiving] && 0 in w.log
            && w.client.pending == {} && w.client.hooks == map[] && w.client.nextId == id + 1
            && w.client.queues == w0.client.queues[id := []]
            && w.client.subscriptions == w0.client.subscriptions[sid := id]
            && w.client.events == w0.client.events[sid := event]
            && w.subs.Keys == w0.subs.Keys + {id} && w.returned == w0.returned
            && id in w.client.futures && w.client.futures[id] == Answered(m, 0)
  {
    SubscribedClient(w0.client, event, sid, m);
  }

  lemma SubscribedClient(c0: Fields, event: string, sid: string, m: Message)
    requires c0.ws == Some(0) && c0.pending == {} && c0.hooks == map[]
    requires m == Reply(c0.nextId, false, SubscriptionId(sid))
    ensures var (c, id) := (c0.Register(Some(event)).RouteReply(0, m), c0.nextId);
            && c.ws == Some(0) && c.pending == {} && c.hooks == map[] && c.nextId == id + 1
            && c.queues == c0.queues[id := []]
            && c.subscriptions == c0.subscriptions[sid := id] && c.events == c0.events[sid := event]
            && id in c.futures && c.futures[id] == Answered(m, 0)
  {}

  lemma ReturnedWorld(w: World, event: string, m: Message)
    requires m.Reply? && !m.error && m.result.SubscriptionId? && m.id >= 0
    requires w.client.ws == Some(0) && m.id in w.client.futures && w.client.futures[m.id] == Answered(m, 0)
    requires w.client.pending == {} && w.client.hooks == map[]
    ensures var pc := WaitingReply(Subscribe(event), 0, m.id);
            CanEnd(w, pc, Returns) && AfterAwait(w, pc, Returns) == (w.Return(m.id), None)
  {
    assert w.Unregister(m.id).client.hooks == w.client.hooks;
    assert w.Unregister(m.id) == w;
  }

  lemma SubscribeReachable(s0: State, event: string, sid: string) returns (s: State)
    requires Idle(s0) && s0.w.client.nextId + 1 !in s0.w.subs
    ensures Idle(s) && s.w.client.nextId == s0.w.client.nextId + 1
    ensures s.w.client.queues == s0.w.client.queues[s0.w.client.nextId := []]
    ensures s.w.client.subscriptions == s0.w.client.subscriptions[sid := s0.w.client.nextId]
    ensures s.w.returned == s0.w.returned + {s0.w.client.nextId}
    ensures s.w.subs.Keys == s0.w.subs.Keys + {s0.w.client.nextId}
  {
    var m := Reply(s0.w.client.nextId, false, SubscriptionId(sid));
    s := RoutedReachable(s0, event, m);
    SubscribedWorld(s0.w, event, sid, m);
    s := ReturnReachable(s, event, m);
  }

  /** The subscribe() that `m` answers returns its queue. */
  lemma ReturnReachable(s0: State, event: string, m: Message) returns (s: State)
    requires m.Reply? && !m.error && m.result.SubscriptionId? && m.id >= 0
    requires Reachable(s0) && s0.lock.None? && s0.tasks == map[0 := WaitingReply(Subscribe(event), 0, m.id)]
    requires s0.w.client.ws == Some(0) && s0.w.client.pending == {} && s0.w.client.hooks == map[]
    requires m.id in s0.w.client.futures && s0.w.client.futures[m.id] == Answered(m, 0)
    ensures Reachable(s) && s.lock.None? && s.tasks == map[] && s.w == s0.w.Return(m.id)
  {
    s := s0;
    ReturnedWorld(s.w, event, m);
    ReachNext(s, Await(0, Returns));
    s := Next(s, Await(0, Returns));
  }

  /** A server that issues a tracked id again leaves a returned queue neither tracked nor terminated. */
  lemma ReissuedIdOrphansQueue() returns (s: State)
    ensures Reachable(s) && 2 in s.w.returned && !Tracked(s, 2)
    ensures 2 in s.w.client.queues && s.w.client.queues[2] == []
  {
    s := ConnectedReachable();
    s := SubscribeReachable(s, "alert.list", "id");
    s := SubscribeReachable(s, "pool.query", "id");
  }
}
