/** What the client does for a caller that nobody disturbs: each operation, from its start to its end. */
module Service {
  import opened Wire
  import opened Client
  import opened History
  import opened Protocol
  import opened Safety
  import opened Theorems
  import opened Delivery
  import opened Outcomes

  // ---------------------------------------------------------------- steps in a row

  /** The steps, one after the other, lead from `s` to `s'`. */
  ghost predicate Leads(s: State, steps: seq<Action>, s': State)
    decreases |steps|
  {
    if steps == [] then s' == s
    else Enabled(s, steps[0]) && Defined(s, steps[0]) && Leads(Next(s, steps[0]), steps[1..], s')
  }

  /** One step more. */
  lemma {:induction false} Then(s: State, steps: seq<Action>, s': State, a: Action)
    requires Leads(s, steps, s') && Enabled(s', a) && Defined(s', a)
    ensures Leads(s, steps + [a], Next(s', a))
    decreases |steps|
  {
    if steps == [] {
      assert ([] + [a])[1..] == [] && Leads(Next(s', a), [], Next(s', a));
    } else {
      Then(Next(s, steps[0]), steps[1..], s', a);
      assert (steps + [a])[1..] == steps[1..] + [a];
    }
  }

  lemma {:induction false} LeadsReachable(s: State, steps: seq<Action>, s': State)
    requires Reachable(s) && Leads(s, steps, s')
    ensures Reachable(s')
    decreases |steps|
  {
    if steps != [] {
      ReachNext(s, steps[0]);
      LeadsReachable(Next(s, steps[0]), steps[1..], s');
    }
  }

  /** The locks are not held by a task that is not there. */
  lemma NotThere(s: State, t: TaskId)
    requires Reachable(s) && t !in s.tasks
    ensures s.lock != Some(t) && s.privateLock != Some(t)
  {
    ReachableInv(s);
  }

  // ---------------------------------------------------------------- connecting

  /** connect() on a free client: it opens a new socket, which becomes the current connection with its
      reader running, and marked if the private-methods flag is set. */
  lemma Connects(s: State, t: TaskId) returns (steps: seq<Action>, s': State)
    requires Reachable(s) && t !in s.tasks && s.lock.None? && s.w.client.ws.None?
    ensures Leads(s, steps, s') && s'.tasks == s.tasks && s'.lock.None? && s'.privateLock == s.privateLock
    ensures Current(s', s.w.sockets) && s'.w.client.reader == Some(s.w.sockets) && Waits(s', s.w.sockets)
    ensures s'.w.client.privateWs == if s.w.client.privateMethods then Some(s.w.sockets) else s.w.client.privateWs
  {
    NotThere(s, t);
    steps, s' := Starts(s, t, ConnectLock);
    Then(s, steps, s', Acquire(t));
    steps, s' := steps + [Acquire(t)], Next(s', Acquire(t));
    steps, s' := Opens(s, steps, s', t);
    steps, s' := LogsIn(s, steps, s', t);
    assert s'.tasks == s.tasks;
  }

  /** Task `t` starts an operation. */
  lemma Starts(s: State, t: TaskId, pc: Pc) returns (steps: seq<Action>, s': State)
    requires t !in s.tasks && Entry(pc) && !pc.PrivateLock? && s.lock != Some(t) && s.privateLock != Some(t)
    ensures Leads(s, steps, s') && s' == s.(tasks := s.tasks[t := pc])
  {
    Then(s, [], s, Spawn(t, pc));
    steps, s' := [] + [Spawn(t, pc)], Next(s, Spawn(t, pc));
  }

  lemma Opens(s0: State, before: seq<Action>, s: State, t: TaskId) returns (steps: seq<Action>, s': State)
    requires Leads(s0, before, s)
    requires t in s.tasks && s.tasks[t].Opening? && s.lock == Some(t) && s.privateLock != Some(t)
    ensures Leads(s0, steps, s')
    ensures s' == s.(w := s.w.Open(), tasks := s.tasks[t := LoggingIn(s.w.sockets)])
  {
    Then(s0, before, s, Await(t, Returns));
    steps, s' := before + [Await(t, Returns)], Next(s, Await(t, Returns));
  }

  lemma LogsIn(s0: State, before: seq<Action>, s: State, t: TaskId) returns (steps: seq<Action>, s': State)
    requires Leads(s0, before, s)
    requires t in s.tasks && s.tasks[t].LoggingIn? && s.lock == Some(t) && s.privateLock != Some(t)
    ensures Leads(s0, steps, s') && s'.tasks == s.tasks - {t} && s'.lock.None? && s'.privateLock == s.privateLock
    ensures var c := s.tasks[t].c;
            && Current(s', c) && s'.w.client.reader == Some(c) && Waits(s', c)
            && s'.w.client.privateWs == if s.w.client.privateMethods then Some(c) else s.w.client.privateWs
  {
    Then(s0, before, s, Await(t, Returns));
    steps, s' := before + [Await(t, Returns)], Next(s, Await(t, Returns));
    if s.w.client.privateMethods {
      Then(s0, steps, s', Await(t, Returns));
      steps, s' := steps + [Await(t, Returns)], Next(s', Await(t, Returns));
    }
  }

  // ---------------------------------------------------------------- calling

  /** The call `m.id`, made for `p`, has its answer, and its queue is tracked if it asked for one. */
  ghost predicate Answers(f: Fields, f': Fields, c: Conn, m: Message, p: Purpose)
    requires m.Reply? && m.id >= 0
  {
    && f' == f.(futures := f'.futures, pending := f'.pending, hooks := f'.hooks,
                subscriptions := f'.subscriptions, events := f'.events)
    && f'.futures == f.futures[m.id := Answered(m, c)] && f'.pending == f.pending - {m.id}
    && (if p.Subscribe? && m.result.SubscriptionId?
        then f'.subscriptions == f.subscriptions[m.result.sid := m.id] && f'.events == f.events[m.result.sid := p.event]
        else f'.subscriptions == f.subscriptions && f'.events == f.events)
  }

  /** The reply to a call in flight on the current connection finishes it, whoever's it is. If the call is
      a subscribe() and the reply has an id, its queue is tracked under that id from then on. */
  lemma AnswerDelivered(s: State, c: Conn, m: Message, t: TaskId)
    requires Reachable(s) && Enabled(s, Route(c)) && Current(s, c) && s.w.readers[c] == Routing(m) && m.Reply?
    requires t in s.tasks && (s.tasks[t].WaitingReply? || s.tasks[t].Sending?) && s.tasks[t].id == m.id
    requires s.tasks[t].id in s.w.client.futures && s.w.client.futures[s.tasks[t].id] == Waiting
    ensures Defined(s, Route(c))
    ensures Answers(s.w.client, Next(s, Route(c)).w.client, c, m, s.tasks[t].p)
  {
    RouteReady(s, c);
    ReachableInv(s);
    assert PcOk(s.w, s.tasks[t]);
    AnswerTurn(s.w, c, m, s.tasks[t].p);
  }

  lemma AnswerTurn(w: World, c: Conn, m: Message, p: Purpose)
    requires Routable(w, c) && w.client.ws == Some(c) && w.readers[c] == Routing(m) && m.Reply?
    requires m.id >= 0 && CallOk(w, p, c, m.id) && w.client.futures[m.id] == Waiting
    ensures Answers(w.client, AfterRoute(w, c).client, c, m, p)
  {}

  /** Every operation that sends a request starts like this: with the lock free and the connection it is
      for, it sends the request under a new id and waits for the reply. */
  lemma Sends(s0: State, before: seq<Action>, s: State, t: TaskId) returns (steps: seq<Action>, s': State)
    requires Leads(s0, before, s) && s.lock.None? && t in s.tasks && s.tasks[t].CallLock? && s.w.client.ws.Some?
    requires s.tasks[t].p.Expected().Some? ==> s.tasks[t].p.Expected() == s.w.client.ws
    requires s.tasks[t].HoldsPrivate() <==> s.privateLock == Some(t)
    ensures Leads(s0, steps, s')
    ensures var (p, c) := (s.tasks[t].p, s.w.client.ws.value);
            s' == s.(w := s.w.Register(c, p.Hook()), tasks := s.tasks[t := WaitingReply(p, c, s.w.client.nextId)])
  {
    Then(s0, before, s, Acquire(t));
    steps, s' := before + [Acquire(t)], Next(s, Acquire(t));
    Then(s0, steps, s', Await(t, Returns));
    steps, s' := steps + [Await(t, Returns)], Next(s', Await(t, Returns));
    assert s'.tasks == s.tasks[t := WaitingReply(s.tasks[t].p, s.w.client.ws.value, s.w.client.nextId)];
  }

  /** The reader receives a reply and routes it. */
  lemma Replies(s0: State, before: seq<Action>, s: State, c: Conn, m: Message, t: TaskId)
      returns (steps: seq<Action>, s': State)
    requires Reachable(s0) && Leads(s0, before, s) && s.lock.None? && Current(s, c) && Waits(s, c) && m.Reply?
    requires t in s.tasks && s.tasks[t].WaitingReply? && s.tasks[t].id == m.id
    requires m.id in s.w.client.futures && s.w.client.futures[m.id] == Waiting
    ensures Leads(s0, steps, s') && s'.tasks == s.tasks && s'.lock.None? && s'.privateLock == s.privateLock
    ensures Answers(s.w.client, s'.w.client, c, m, s.tasks[t].p)
    ensures s'.w.returned == s.w.returned && s'.w.sentOn == s.w.sentOn && s'.w.answered == s.w.answered
  {
    LeadsReachable(s0, before, s);
    ReachableInv(s);
    Then(s0, before, s, Receive(c, m));
    steps, s' := before + [Receive(c, m)], Next(s, Receive(c, m));
    ReachNext(s, Receive(c, m));
    AnswerDelivered(s', c, m, t);
    Then(s0, steps, s', Route(c));
    steps, s' := steps + [Route(c)], Next(s', Route(c));
  }

  /** A request is made for `p`, and `m` comes back. */
  lemma RoundTrip(s0: State, before: seq<Action>, s: State, t: TaskId, c: Conn, m: Message)
      returns (steps: seq<Action>, s': State)
    requires Reachable(s0) && Leads(s0, before, s) && s.lock.None? && Current(s, c) && Waits(s, c)
    requires t in s.tasks && s.tasks[t].CallLock? && (s.tasks[t].HoldsPrivate() <==> s.privateLock == Some(t))
    requires s.tasks[t].p.Expected().Some? ==> s.tasks[t].p.Expected() == Some(c)
    requires m.Reply? && m.id == s.w.client.nextId
    ensures Leads(s0, steps, s') && s'.lock.None? && s'.privateLock == s.privateLock
    ensures s'.tasks == s.tasks[t := WaitingReply(s.tasks[t].p, c, m.id)]
    ensures Answers(s.w.client.Register(s.tasks[t].p.Hook()), s'.w.client, c, m, s.tasks[t].p)
    ensures s'.w.returned == s.w.returned && s'.w.sentOn == s.w.sentOn[m.id := c] && s'.w.answered == s.w.answered
    ensures m.id !in s.w.client.subscriptions.Values && m.id !in s.w.returned
  {
    LeadsReachable(s0, before, s);
    ReachableInv(s);
    NewIdIsUnused(s.w);
    steps, s' := Sends(s0, before, s, t);
    steps, s' := Replies(s0, steps, s', c, m, t);
  }

  lemma NewIdIsUnused(w: World)
    requires w.Ids() && w.Tables() && w.Subs()
    ensures w.client.nextId !in w.client.subscriptions.Values && w.client.nextId !in w.returned
  {}

  /** The caller goes on with the answer. */
  lemma Finishes(s0: State, before: seq<Action>, s: State, t: TaskId, m: Message)
      returns (steps: seq<Action>, s': State)
    requires Leads(s0, before, s) && s.lock.None? && t in s.tasks && s.tasks[t].WaitingReply?
    requires var id := s.tasks[t].id; id in s.w.client.futures && s.w.client.futures[id] == Answered(m, s.tasks[t].c)
    ensures Leads(s0, steps, s')
    ensures var (w, pc) := Resume(s.w.Unregister(s.tasks[t].id), s.tasks[t].p, s.tasks[t].c, s.tasks[t].id, Got(m));
            s' == Go(s, t, w, pc)
  {
    Then(s0, before, s, Await(t, Returns));
    steps, s' := before + [Await(t, Returns)], Next(s, Await(t, Returns));
  }

  /** The whole of a call: it gets its answer, and leaves nothing behind. */
  lemma Calls(s: State, t: TaskId, c: Conn, m: Message) returns (steps: seq<Action>, s': State)
    requires Reachable(s) && t !in s.tasks && s.lock.None? && Current(s, c) && Waits(s, c)
    requires m.Reply? && m.id == s.w.client.nextId
    ensures Leads(s, steps, s') && s'.tasks == s.tasks && Current(s', c)
    ensures s'.lock.None? && s'.privateLock == s.privateLock
    ensures m.id in s'.w.client.futures && s'.w.client.futures[m.id] == Answered(m, c)
    ensures m.id !in s'.w.client.pending && s'.w.client.subscriptions == s.w.client.subscriptions
  {
    NotThere(s, t);
    steps, s' := Starts(s, t, CallLock(Plain));
    steps, s' := RoundTrip(s, steps, s', t, c, m);
    steps, s' := Finishes(s, steps, s', t, m);
    assert s'.tasks == s.tasks;
  }

  /** The queue `q` is returned with the tables as they are, or it is untracked. */
  ghost predicate SubscribeEnds(w: World, w': World, q: RpcId, succeeds: bool) {
    && w'.client.ws == w.client.ws && w'.client.queues == w.client.queues
    && if succeeds
       then && w'.client.subscriptions == w.client.subscriptions && w'.client.events == w.client.events
            && w'.returned == w.returned + {q}
       else q !in w'.client.subscriptions.Values && w'.returned == w.returned
  }

  /** A subscribe() that is told a subscription id while its connection is current returns its queue, and
      leaves the tables alone. Any other answered one returns nothing and leaves its queue untracked. */
  lemma SubscribeAnswered(s: State, t: TaskId, m: Message)
    requires Reachable(s) && t in s.tasks && s.tasks[t].WaitingReply? && s.tasks[t].p.Subscribe? && m.Reply?
    requires var id := s.tasks[t].id; id in s.w.client.futures && s.w.client.futures[id] == Answered(m, s.tasks[t].c)
    ensures Enabled(s, Await(t, Returns)) && Next(s, Await(t, Returns)).tasks == s.tasks - {t}
    ensures SubscribeEnds(s.w, Next(s, Await(t, Returns)).w, s.tasks[t].id,
                          !m.error && m.result.SubscriptionId? && Current(s, s.tasks[t].c))
  {
    ReachableInv(s);
    SubscribeResumes(s.w, s.tasks[t], m);
  }

  lemma SubscribeResumes(w: World, pc: Pc, m: Message)
    requires w.Tables() && w.Subs() && pc.WaitingReply? && pc.p.Subscribe? && m.Reply?
    requires pc.id in w.client.futures && w.client.futures[pc.id] == Answered(m, pc.c)
    ensures AfterAwait(w, pc, Returns).1.None?
    ensures SubscribeEnds(w, AfterAwait(w, pc, Returns).0, pc.id,
                          !m.error && m.result.SubscriptionId? && w.client.ws == Some(pc.c))
  {
    UntrackedAfter(w.Unregister(pc.id), pc.id);
  }

  lemma UntrackedAfter(w: World, q: RpcId)
    requires w.Tables() && w.Subs()
    ensures q !in w.Untrack(q).client.subscriptions.Values
  {
    if q in w.client.subscriptions.Values {
      var sid :| sid in w.client.subscriptions && w.client.subscriptions[sid] == q;
      assert w.subs[q].sid == sid;
    }
  }

  /** The whole of a subscribe(): if the server gives a subscription id, its new and empty queue is
      tracked under that id and handed to the caller; otherwise nothing is. */
  lemma Subscribes(s: State, t: TaskId, c: Conn, event: string, m: Message) returns (steps: seq<Action>, s': State)
    requires Reachable(s) && t !in s.tasks && s.lock.None? && Current(s, c) && Waits(s, c)
    requires m.Reply? && m.id == s.w.client.nextId
    ensures Leads(s, steps, s') && s'.tasks == s.tasks && Current(s', c)
    ensures s'.lock.None? && s'.privateLock == s.privateLock
    ensures s'.w.client.queues == s.w.client.queues[m.id := []]
    ensures var (f, f') := (s.w.client, s'.w.client);
            if !m.error && m.result.SubscriptionId?
            then && f'.subscriptions == f.subscriptions[m.result.sid := m.id]
                 && f'.events == f.events[m.result.sid := event] && s'.w.returned == s.w.returned + {m.id}
            else m.id !in f'.subscriptions.Values && s'.w.returned == s.w.returned
  {
    NotThere(s, t);
    steps, s' := Starts(s, t, CallLock(Subscribe(event)));
    steps, s' := RoundTrip(s, steps, s', t, c, m);
    steps, s' := Concludes(s, steps, s', t, m);
    assert s'.tasks == s.tasks;
  }

  lemma Concludes(s0: State, before: seq<Action>, s: State, t: TaskId, m: Message)
      returns (steps: seq<Action>, s': State)
    requires Reachable(s0) && Leads(s0, before, s) && s.lock.None? && s.privateLock != Some(t)
    requires t in s.tasks && s.tasks[t].WaitingReply? && s.tasks[t].p.Subscribe? && m.Reply?
    requires var id := s.tasks[t].id; id in s.w.client.futures && s.w.client.futures[id] == Answered(m, s.tasks[t].c)
    ensures Leads(s0, steps, s') && s'.tasks == s.tasks - {t} && s'.lock.None? && s'.privateLock == s.privateLock
    ensures SubscribeEnds(s.w, s'.w, s.tasks[t].id, !m.error && m.result.SubscriptionId? && Current(s, s.tasks[t].c))
  {
    LeadsReachable(s0, before, s);
    SubscribeAnswered(s, t, m);
    Then(s0, before, s, Await(t, Returns));
    steps, s' := before + [Await(t, Returns)], Next(s, Await(t, Returns));
  }

  // ---------------------------------------------------------------- unsubscribing

  /** The whole of an unsubscribe() that the server does not refuse: the id is gone, and its queue has a
      terminator at its end. If the server refuses, the subscription stays. */
  lemma Unsubscribes(s: State, t: TaskId, c: Conn, sid: string, m: Message) returns (steps: seq<Action>, s': State)
    requires Reachable(s) && t !in s.tasks && s.lock.None? && Current(s, c) && Waits(s, c)
    requires sid in s.w.client.subscriptions && m.Reply? && m.id == s.w.client.nextId
    ensures Leads(s, steps, s') && s'.tasks == s.tasks && Current(s', c)
    ensures s'.lock.None? && s'.privateLock == s.privateLock
    ensures if m.error
            then s'.w.client.subscriptions == s.w.client.subscriptions && s'.w.client.queues == s.w.client.queues
            else Unsubscribed(s.w.client, s'.w.client, sid)
  {
    steps, s' := IsTold(s, t, c, sid, m);
    steps, s' := Forgets(s, steps, s', t, c, sid, m);
    assert s'.tasks == s.tasks;
  }

  lemma IsTold(s: State, t: TaskId, c: Conn, sid: string, m: Message) returns (steps: seq<Action>, s': State)
    requires Reachable(s) && t !in s.tasks && s.lock.None? && Current(s, c) && Waits(s, c)
    requires sid in s.w.client.subscriptions && m.Reply? && m.id == s.w.client.nextId
    ensures Leads(s, steps, s') && s'.lock.None? && s'.privateLock == s.privateLock && s.privateLock != Some(t)
    ensures s'.tasks == s.tasks[t := WaitingReply(Unsubscribe(sid, Some(c)), c, m.id)] && Current(s', c)
    ensures m.id in s'.w.client.futures && s'.w.client.futures[m.id] == Answered(m, c)
    ensures s.w.client.subscriptions.Keys == s.w.client.events.Keys
    ensures s.w.client.subscriptions[sid] in s.w.client.queues
    ensures s'.w.client.subscriptions == s.w.client.subscriptions && s'.w.client.events == s.w.client.events
    ensures s'.w.client.queues == s.w.client.queues
  {
    NotThere(s, t);
    TablesConsistent(s);
    steps, s' := Asks(s, t, c, sid);
    steps, s' := RoundTrip(s, steps, s', t, c, m);
  }

  lemma TablesConsistent(s: State)
    requires Reachable(s)
    ensures s.w.client.Consistent()
  {
    ReachableInv(s);
  }

  lemma Asks(s: State, t: TaskId, c: Conn, sid: string) returns (steps: seq<Action>, s': State)
    requires t !in s.tasks && s.lock.None? && s.privateLock != Some(t)
    requires Current(s, c) && sid in s.w.client.subscriptions
    ensures Leads(s, steps, s') && s' == s.(tasks := s.tasks[t := CallLock(Unsubscribe(sid, Some(c)))])
  {
    steps, s' := Starts(s, t, UnsubscribeLock(sid));
    Then(s, steps, s', Acquire(t));
    steps, s' := steps + [Acquire(t)], Next(s', Acquire(t));
    assert s'.tasks == s.tasks[t := CallLock(Unsubscribe(sid, Some(c)))];
  }

  lemma Forgets(s0: State, before: seq<Action>, s: State, t: TaskId, c: Conn, sid: string, m: Message)
      returns (steps: seq<Action>, s': State)
    requires Leads(s0, before, s) && s.lock.None? && s.privateLock != Some(t) && Current(s, c) && m.Reply?
    requires m.id >= 0 && t in s.tasks && s.tasks[t] == WaitingReply(Unsubscribe(sid, Some(c)), c, m.id)
    requires m.id in s.w.client.futures && s.w.client.futures[m.id] == Answered(m, c)
    requires sid in s.w.client.subscriptions && s.w.client.subscriptions.Keys == s.w.client.events.Keys
    requires s.w.client.subscriptions[sid] in s.w.client.queues
    ensures Leads(s0, steps, s') && s'.tasks == s.tasks - {t} && s'.lock.None? && s'.privateLock == s.privateLock
    ensures Current(s', c)
    ensures if m.error
            then s'.w.client.subscriptions == s.w.client.subscriptions && s'.w.client.queues == s.w.client.queues
            else Unsubscribed(s.w.client, s'.w.client, sid)
  {
    steps, s' := Finishes(s0, before, s, t, m);
    if !m.error {
      ForgetEnds(s', t);
      Then(s0, steps, s', Acquire(t));
      steps, s' := steps + [Acquire(t)], Next(s', Acquire(t));
    }
    assert s'.tasks == s.tasks - {t};
  }

  // ---------------------------------------------------------------- private methods

  /** The whole of an enable_private_methods() on a connection that is not marked: the option is sent and
      answered there, and the connection is marked; on one that is marked, nothing is sent. */
  lemma Enables(s: State, t: TaskId, c: Conn, m: Message) returns (steps: seq<Action>, s': State)
    requires Reachable(s) && t !in s.tasks && s.lock.None? && s.privateLock.None? && Current(s, c) && Waits(s, c)
    requires m.Reply? && m.id == s.w.client.nextId
    ensures Leads(s, steps, s') && s'.tasks == s.tasks && s'.lock.None? && s'.privateLock.None? && Current(s', c)
    ensures s'.w.client.privateMethods && s'.w.client.privateWs == Some(c)
    ensures if s.w.client.privateWs == Some(c) then s'.w.sentOn == s.w.sentOn
            else s'.w.sentOn == s.w.sentOn[m.id := c] && c in s'.w.answered
  {
    steps, s' := Prepares(s, t, c);
    if s.w.client.privateWs != Some(c) {
      steps, s' := RoundTrip(s, steps, s', t, c, m);
      steps, s' := Finishes(s, steps, s', t, m);
    }
    assert s'.tasks == s.tasks;
  }

  lemma Prepares(s: State, t: TaskId, c: Conn) returns (steps: seq<Action>, s': State)
    requires t !in s.tasks && s.lock.None? && s.privateLock.None? && Current(s, c)
    ensures Leads(s, steps, s') && s'.w == s.w.EnablePrivate() && s'.lock.None?
    ensures if s.w.client.privateWs == Some(c) then s'.tasks == s.tasks && s'.privateLock.None?
            else s'.tasks == s.tasks[t := CallLock(SetOptions(c))] && s'.privateLock == Some(t)
  {
    Then(s, [], s, Spawn(t, PrivateLock));
    steps, s' := [] + [Spawn(t, PrivateLock)], Next(s, Spawn(t, PrivateLock));
    Then(s, steps, s', AcquirePrivate(t));
    steps, s' := steps + [AcquirePrivate(t)], Next(s', AcquirePrivate(t));
    assert s.w.client.privateWs == Some(c) ==> s'.tasks == s.tasks;
    assert s.w.client.privateWs != Some(c) ==> s'.tasks == s.tasks[t := CallLock(SetOptions(c))];
  }
}
