/** The fields of `TrueNASClient` and the synchronous code segments that change them. */
module Client {
  import opened Wire

  /** `futures` after every pending one that is not done has failed. */
  ghost function FailAll(futures: map<RpcId, Future>, pending: set<RpcId>): map<RpcId, Future> {
    map id | id in futures :: if id in pending && futures[id] == Waiting then Closed else futures[id]
  }

  /** `queues` after `item` was put into each of `qs`. */
  ghost function PutEach(queues: map<RpcId, seq<Item>>, qs: set<RpcId>, item: Item): map<RpcId, seq<Item>> {
    map q | q in queues :: if q in qs then queues[q] + [item] else queues[q]
  }

  /** No queue is tracked under two subscription ids, and every tracked queue exists. */
  ghost predicate InjectiveInto(subscriptions: map<string, RpcId>, queues: set<RpcId>) {
    && subscriptions.Values <= queues
    && (forall a, b :: a in subscriptions && b in subscriptions && subscriptions[a] == subscriptions[b] ==> a == b)
  }

  /** `queues` while the subscriptions `sids` are still to be ended. */
  ghost predicate PartlyEnded(before: map<RpcId, seq<Item>>, queues: map<RpcId, seq<Item>>,
                              subscriptions: map<string, RpcId>, sids: set<string>)
    requires subscriptions.Values <= before.Keys
  {
    && queues.Keys == before.Keys
    && (forall s :: s in subscriptions ==>
          queues[subscriptions[s]] == before[subscriptions[s]] + if s in sids then [] else [Terminator])
    && (forall q :: q in queues && q !in subscriptions.Values ==> queues[q] == before[q])
  }

  lemma EndOne(before: map<RpcId, seq<Item>>, queues: map<RpcId, seq<Item>>, subscriptions: map<string, RpcId>,
               sids: set<string>, sid: string)
    requires InjectiveInto(subscriptions, before.Keys) && PartlyEnded(before, queues, subscriptions, sids)
    requires sid in sids && sid in subscriptions
    ensures PartlyEnded(before, queues[subscriptions[sid] := queues[subscriptions[sid]] + [Terminator]],
                        subscriptions, sids - {sid})
  {}

  /** A snapshot of the client's fields. Each function is the effect of one code segment that
      runs without suspending. `futures` and `queues` stand for the asyncio objects themselves;
      a queue's sequence is everything ever put into it, whether or not it has been read. */
  datatype Fields = Fields(
    ws: Option<Conn>,
    reader: Option<Conn>,
    nextId: nat,
    pending: set<RpcId>,
    hooks: map<RpcId, string>,
    subscriptions: map<string, RpcId>,
    events: map<string, string>,
    privateMethods: bool,
    privateWs: Option<Conn>,
    futures: map<RpcId, Future>,
    queues: map<RpcId, seq<Item>>)
  {
    /** What the synchronous segments rely on: no `KeyError` on the two subscription tables, no
        queue under two ids, and a future (and queue) behind every table entry. */
    ghost predicate Consistent() {
      && subscriptions.Keys == events.Keys
      && InjectiveInto(subscriptions, queues.Keys)
      && pending <= futures.Keys
    }

    ghost predicate Tracks(q: RpcId) { q in subscriptions.Values }

    function Register(hook: Option<string>): Fields {
      var id := nextId;
      this.(nextId := id + 1,
      pending := pending + {id},
      futures := futures[id := Waiting],
      hooks := if hook.Some? then hooks[id := hook.value] else hooks,
      queues := if hook.Some? then queues[id := []] else queues)
    }

    function Unregister(id: RpcId): Fields {
      this.(pending := pending - {id}, hooks := hooks - {id})
    }

    ghost function Detach(): Fields {
      Fields(None, None, nextId, {}, map[], map[], map[], privateMethods, None,
             FailAll(futures, pending), PutEach(queues, subscriptions.Values, Terminator))
    }

    /** The `register` closure of `subscribe`, for the request `id` to `event`. */
    function RunHook(id: RpcId, event: string, reply: Message): Fields {
      if reply.Reply? && reply.result.SubscriptionId? then
        this.(subscriptions := subscriptions[reply.result.sid := id],
        events := events[reply.result.sid := event])
      else this
    }

    function RouteReply(c: Conn, m: Message): Fields
      requires m.Reply? && pending <= futures.Keys
    {
      if ws != Some(c) then this
      else if m.id < 0 then this
      else if m.id !in pending || futures[m.id] != Waiting then Unregister(m.id)
      else
        var popped := Unregister(m.id);
        var hooked := if m.id in hooks then popped.RunHook(m.id, hooks[m.id], m) else popped;
        hooked.(futures := hooked.futures[m.id := Answered(m, c)])
    }

    /** The queues of `c`'s subscriptions that match `collection`. */
    ghost function Matching(c: Conn, collection: Option<string>): set<RpcId>
      requires subscriptions.Keys == events.Keys
    {
      if ws != Some(c) then {}
      else set sid | sid in subscriptions && MatchesOptional(collection, events[sid]) :: subscriptions[sid]
    }

    /** The queue a notification for `sid` goes to, if any. */
    ghost function Addressee(c: Conn, sid: string): set<RpcId> {
      if ws == Some(c) && sid in subscriptions then {subscriptions[sid]} else {}
    }

    ghost function Put(qs: set<RpcId>, item: Item): Fields {
      this.(queues := PutEach(queues, qs, item))
    }

    /** `_forget_subscription` on the connection `w` that was current when `unsubscribe` began. */
    ghost function Forget(w: Option<Conn>, sid: string): Fields {
      if ws != w || sid !in subscriptions then this
      else
        Put({subscriptions[sid]}, Terminator).
        (subscriptions := subscriptions - {sid}, events := events - {sid})
    }

    /** The cleanup in `subscribe` when its caller never gets queue `q`, registered as `sid`. */
    function Untrack(sid: string, q: RpcId): Fields {
      if sid in subscriptions && subscriptions[sid] == q then
        this.(subscriptions := subscriptions - {sid}, events := events - {sid})
      else this
    }

    function Publish(c: Conn): Fields {
      this.(ws := Some(c), reader := Some(c), privateWs := if privateMethods then Some(c) else privateWs)
    }
  }

  const INITIAL := Fields(None, None, 1, {}, map[], map[], map[], false, None, map[], map[])

  /** The client object itself. Every method is one uninterrupted code segment; the ones that
      suspend are cut into these segments by the transition system in module Protocol. */
  class TrueNASClient {
    var ws: Option<Conn>
    var reader: Option<Conn>
    var nextId: nat
    var pending: set<RpcId>
    var hooks: map<RpcId, string>
    var subscriptions: map<string, RpcId>
    var events: map<string, string>
    var privateMethods: bool
    var privateWs: Option<Conn>
    var futures: map<RpcId, Future>
    var queues: map<RpcId, seq<Item>>

    function View(): Fields
      reads this
    {
      Fields(ws, reader, nextId, pending, hooks, subscriptions, events,
             privateMethods, privateWs, futures, queues)
    }

    constructor ()
      ensures View() == INITIAL
    {
      ws, reader, nextId := None, None, 1;
      pending, hooks, subscriptions, events := {}, map[], map[], map[];
      privateMethods, privateWs, futures, queues := false, None, map[], map[];
    }

    method RegisterCall(hook: Option<string>) returns (id: RpcId)
      modifies this
      ensures id == old(nextId) && View() == old(View()).Register(hook)
    {
      id := nextId;
      nextId := nextId + 1;
      futures := futures[id := Waiting];
      pending := pending + {id};
      if hook.Some? {
        queues := queues[id := []];
        hooks := hooks[id := hook.value];
      }
    }

    /** The end of a successful `connect`. */
    method PublishConnection(c: Conn)
      modifies this
      ensures View() == old(View()).Publish(c)
    {
      ws := Some(c);
      if privateMethods {
        privateWs := Some(c);
      }
      reader := Some(c);
    }

    /** The cleanup of a `subscribe` whose caller never gets queue `q`, registered as `sid`. */
    method UntrackSubscription(sid: string, q: RpcId)
      requires View().Consistent()
      modifies this
      ensures View() == old(View()).Untrack(sid, q)
    {
      if sid in subscriptions && subscriptions[sid] == q {
        subscriptions := subscriptions - {sid};
        events := events - {sid};
      }
    }

    method UnregisterCall(id: RpcId)
      modifies this
      ensures View() == old(View()).Unregister(id)
    {
      pending := pending - {id};
      hooks := hooks - {id};
    }

    /** The first loop of `_detach_connection_locked`: every call still waiting fails. */
    method FailPending()
      requires pending <= futures.Keys
      modifies this`futures
      ensures futures == FailAll(old(futures), pending)
    {
      ghost var before := futures;
      var calls := pending;
      while calls != {}
        invariant calls <= pending && futures.Keys == before.Keys
        invariant forall id :: id in futures ==>
            futures[id] == if id in pending - calls && before[id] == Waiting then Closed else before[id]
        decreases calls
      {
        var id :| id in calls;
        if futures[id] == Waiting {
          futures := futures[id := Closed];
        }
        calls := calls - {id};
      }
    }

    /** The second loop of `_detach_connection_locked`: every tracked queue is terminated. */
    method EndSubscriptions()
      requires InjectiveInto(subscriptions, queues.Keys)
      modifies this`queues
      ensures queues == PutEach(old(queues), subscriptions.Values, Terminator)
    {
      ghost var before := queues;
      var sids := subscriptions.Keys;
      while sids != {}
        invariant sids <= subscriptions.Keys && PartlyEnded(before, queues, subscriptions, sids)
        decreases sids
      {
        var sid :| sid in sids;
        EndOne(before, queues, subscriptions, sids, sid);
        queues := queues[subscriptions[sid] := queues[subscriptions[sid]] + [Terminator]];
        sids := sids - {sid};
      }
    }

    /** Returns the reader task; fails every pending call and ends every subscription. */
    method DetachConnectionLocked() returns (readerTask: Option<Conn>)
      requires View().Consistent()
      modifies this
      ensures readerTask == old(reader) && View() == old(View()).Detach()
    {
      ws, privateWs := None, None;
      readerTask := reader;
      reader := None;
      FailPending();
      pending, hooks := {}, map[];
      EndSubscriptions();
      subscriptions, events := map[], map[];
    }

    /** `_handle_rpc_response`: a reply of `c` completes its call, running the hook first. */
    method HandleRpcResponse(c: Conn, m: Message)
      requires m.Reply? && View().Consistent()
      modifies this
      ensures View() == old(View()).RouteReply(c, m)
    {
      if ws != Some(c) || m.id < 0 {
        return;
      }
      var found := m.id in pending;
      var hook := if m.id in hooks then Some(hooks[m.id]) else None;
      UnregisterCall(m.id);
      if !found || futures[m.id] != Waiting {
        return;
      }
      if hook.Some? && m.result.SubscriptionId? {
        subscriptions := subscriptions[m.result.sid := m.id];
        events := events[m.result.sid := hook.value];
      }
      futures := futures[m.id := Answered(m, c)];
    }

    method GetMatchingQueues(c: Conn, collection: Option<string>) returns (qs: set<RpcId>)
      requires View().Consistent()
      ensures qs == View().Matching(c, collection)
      ensures forall q :: q in qs <==>
                ws == Some(c) && exists sid :: sid in subscriptions && subscriptions[sid] == q
                                               && Concerns(collection, events[sid])
    {
      forall sid | sid in subscriptions
        ensures MatchesOptional(collection, events[sid]) <==> Concerns(collection, events[sid])
      {
        MatchesIff(collection, events[sid]);
      }
      qs := {};
      if collection.None? || ws != Some(c) {
        return;
      }
      var sids := events.Keys;
      while sids != {}
        invariant sids <= events.Keys
        invariant qs == set s | s in subscriptions && s !in sids && MatchesOptional(collection, events[s])
                        :: subscriptions[s]
        decreases sids
      {
        var sid :| sid in sids;
        if MatchesSubscription(collection.value, events[sid]) {
          qs := qs + {subscriptions[sid]};
        }
        sids := sids - {sid};
      }
    }

    /** `queue.put` on each queue of `qs`; an unbounded queue never suspends the putter. */
    method PutAll(qs: set<RpcId>, item: Item)
      requires qs <= queues.Keys
      modifies this`queues
      ensures View() == old(View()).Put(qs, item)
    {
      ghost var before := queues;
      var todo := qs;
      while todo != {}
        invariant todo <= qs && queues.Keys == before.Keys
        invariant forall q :: q in queues ==>
            queues[q] == if q in qs - todo then before[q] + [item] else before[q]
        decreases todo
      {
        var q :| q in todo;
        queues := queues[q := queues[q] + [item]];
        todo := todo - {q};
      }
      assert queues == PutEach(before, qs, item);
    }

    method HandleSubscriptionNotification(c: Conn, m: Message)
      requires m.Event? && View().Consistent()
      modifies this`queues
      ensures View() == old(View()).Put(old(View()).Addressee(c, m.sid), Note(m))
    {
      var qs := {};
      if ws == Some(c) && m.sid in subscriptions {
        qs := {subscriptions[m.sid]};
      }
      PutAll(qs, Note(m));
    }

    method ForgetSubscription(w: Option<Conn>, sid: string)
      requires View().Consistent()
      modifies this
      ensures View() == old(View()).Forget(w, sid)
    {
      if ws == w && sid in subscriptions {
        var q := subscriptions[sid];
        subscriptions := subscriptions - {sid};
        events := events - {sid};
        PutAll({q}, Terminator);
      }
    }

    method TeardownConnection(c: Conn)
      requires View().Consistent()
      modifies this
      ensures View() == if old(ws) == Some(c) then old(View()).Detach() else old(View())
    {
      if ws == Some(c) {
        var _ := DetachConnectionLocked();
      }
    }
  }
}
