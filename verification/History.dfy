/** The client's fields together with its readers, its sockets and a record of what happened. */
module History {
  import opened Wire
  import opened Client

  /** The reader task of one connection. It waits for the lock in `Routing`, `Updating` and
      `TearingDown`, and never suspends while holding it. In `Updating` the queues `notified`
      already hold `m`, by its own collection; those of its params' collection are to follow. */
  datatype Reader =
    | Receiving
    | Routing(m: Message)
    | Updating(m: Message, notified: set<RpcId>)
    | TearingDown
    | Ended

  datatype EndKind = Terminated | Untracked | Overwritten

  /** How a subscription ended: after how many of its connection's messages, whether it had
      already been fed the message that was being routed, and why. `Untracked` is the cleanup
      of a subscribe() that failed; `Overwritten` is a server issuing the same id twice. */
  datatype End = End(at: nat, extra: Option<Message>, how: EndKind)

  /** A registered subscription; `start` is how many messages its connection had then routed. */
  datatype Sub = Sub(conn: Conn, sid: string, event: string, start: nat, end: Option<End>)

  // ------------------------------------------------------------ what holds at all times

  /** Ids grow; pending calls and their hooks are of the current connection. */
  ghost predicate IdsOk(nextId: nat, ws: Option<Conn>, futures: map<RpcId, Future>, pending: set<RpcId>,
                        hooks: map<RpcId, string>, queues: map<RpcId, seq<Item>>,
                        sentOn: map<RpcId, Conn>, readers: map<Conn, Reader>, subs: map<RpcId, Sub>) {
    && futures.Keys == sentOn.Keys
    && queues.Keys <= sentOn.Keys
    && subs.Keys <= queues.Keys
    && hooks.Keys <= pending <= sentOn.Keys
    && (forall id :: id in sentOn ==> id < nextId && sentOn[id] in readers)
    && (forall id :: id in pending ==> ws == Some(sentOn[id]))
    && (forall id :: id in hooks ==> id in queues && id !in subs && queues[id] == [])
  }

  ghost predicate ConnsOk(ws: Option<Conn>, reader: Option<Conn>, readers: map<Conn, Reader>,
                          log: map<Conn, seq<Message>>, sockets: nat, cancelled: set<Conn>,
                          lost: set<Conn>) {
    && reader == ws
    && cancelled <= readers.Keys
    && readers.Keys == log.Keys
    && (forall c :: c in readers ==> c < sockets)
    && (ws.Some? ==> ws.value in readers && readers[ws.value] != Ended && ws.value !in cancelled)
    && (ws.Some? && readers[ws.value].TearingDown? ==> ws.value in lost)
  }

  /** The private-methods mark names the current connection or none, and stays while it does. */
  ghost predicate MarksOk(ws: Option<Conn>, privateWs: Option<Conn>, marked: set<Conn>, answered: set<Conn>,
                          readers: map<Conn, Reader>) {
    && marked <= answered
    && marked <= readers.Keys
    && (privateWs.Some? ==> privateWs == ws && privateWs.value in marked)
    && (ws.Some? && ws.value in marked ==> privateWs == ws)
  }

  /** A future is answered only by a reply with its own id, routed on its own connection. */
  ghost predicate AnswersOk(futures: map<RpcId, Future>, sentOn: map<RpcId, Conn>, log: map<Conn, seq<Message>>) {
    forall id :: id in futures && futures[id].Answered? ==>
      && id in sentOn && futures[id].via == sentOn[id] && futures[id].via in log
      && futures[id].reply.Reply? && futures[id].reply.id == id
      && futures[id].reply in log[futures[id].via]
  }

  /** The subscription tables hold live subscriptions of the current connection only. */
  ghost predicate TablesOk(ws: Option<Conn>, subscriptions: map<string, RpcId>, events: map<string, string>,
                           queues: map<RpcId, seq<Item>>, subs: map<RpcId, Sub>) {
    && subscriptions.Keys == events.Keys
    && InjectiveInto(subscriptions, queues.Keys)
    && (ws.None? ==> subscriptions == map[])
    && (forall sid :: sid in subscriptions ==>
          && subscriptions[sid] in subs
          && subs[subscriptions[sid]].sid == sid && subs[subscriptions[sid]].event == events[sid]
          && subs[subscriptions[sid]].end.None? && ws == Some(subs[subscriptions[sid]].conn))
  }

  /** A live subscription is in the tables; one that was returned never just vanishes. */
  ghost predicate SubsOk(subscriptions: map<string, RpcId>, subs: map<RpcId, Sub>, log: map<Conn, seq<Message>>,
                         sentOn: map<RpcId, Conn>, returned: set<RpcId>) {
    && (forall q :: q in subs ==> q in sentOn && subs[q].conn == sentOn[q] && subs[q].conn in log)
    && (forall q :: q in subs && subs[q].end.None? ==>
          subs[q].sid in subscriptions && subscriptions[subs[q].sid] == q)
    && ReturnedOk(subs, returned)
    && ReissuesOk(subs, log)
  }

  ghost predicate ReturnedOk(subs: map<RpcId, Sub>, returned: set<RpcId>) {
    forall q :: q in returned ==> q in subs && (subs[q].end.Some? ==> subs[q].end.value.how != Untracked)
  }

  /** A subscription is only overwritten by the reply that gives its id to another request. */
  ghost predicate ReissuesOk(subs: map<RpcId, Sub>, log: map<Conn, seq<Message>>) {
    forall q :: q in subs && subs[q].end.Some? && subs[q].end.value.how == Overwritten ==>
      subs[q].conn in log && Reissued(q, subs[q].sid, subs[q].end.value.at, log[subs[q].conn])
  }

  /** The message at `at` is a reply to another request than `q`, with the same subscription id. */
  ghost predicate Reissued(q: RpcId, sid: string, at: nat, all: seq<Message>) {
    at < |all| && all[at].Reply? && all[at].id != q && all[at].result == SubscriptionId(sid)
  }

  /** While a message is half routed, exactly the queues its own collection matched have it. */
  ghost predicate UpdatesOk(ws: Option<Conn>, subscriptions: map<string, RpcId>, events: map<string, string>,
                            readers: map<Conn, Reader>) {
    && subscriptions.Keys == events.Keys
    && (forall c :: c in readers && readers[c].Updating? ==>
          && readers[c].m.Collection? && readers[c].m.update.Some?
          && (ws == Some(c) ==>
                forall sid :: sid in subscriptions ==>
                  (subscriptions[sid] in readers[c].notified <==>
                   MatchesOptional(readers[c].m.collection, events[sid]))))
  }

  ghost predicate FeedsOk(queues: map<RpcId, seq<Item>>, subs: map<RpcId, Sub>, log: map<Conn, seq<Message>>,
                          readers: map<Conn, Reader>) {
    forall q :: q in subs ==>
      q in queues && subs[q].conn in log && FeedOk(q, queues[q], subs[q], log[subs[q].conn], readers)
  }

  /** The queue holds what its connection's log had for it, then what is in flight, then its end. */
  ghost predicate FeedOk(q: RpcId, items: seq<Item>, s: Sub, all: seq<Message>, readers: map<Conn, Reader>) {
    && 0 < s.start <= |all|
    && all[s.start - 1].Reply? && all[s.start - 1].id == q && all[s.start - 1].result == SubscriptionId(s.sid)
    && match s.end
       case None => items == Feed(all[s.start..], s.sid, s.event) + Extra(InFlight(q, s.conn, readers))
       case Some(e) => FeedEnded(items, s, e, all)
  }

  ghost predicate FeedEnded(items: seq<Item>, s: Sub, e: End, all: seq<Message>) {
    && s.start <= e.at <= |all|
    && (e.extra.Some? ==> Addressed(e.extra.value, s.sid, s.event))
    && items == Feed(all[s.start..e.at], s.sid, s.event) + Extra(e.extra)
              + if e.how == Terminated then [Terminator] else []
  }

  /** The message that is being routed on `c`, if queue `q` has already been fed it. */
  ghost function InFlight(q: RpcId, c: Conn, readers: map<Conn, Reader>): Option<Message> {
    if c in readers && readers[c].Updating? && q in readers[c].notified then Some(readers[c].m) else None
  }

  /** The subscriptions after those of `qs` ended now. */
  ghost function EndEach(subs: map<RpcId, Sub>, log: map<Conn, seq<Message>>, readers: map<Conn, Reader>,
                         qs: set<RpcId>, how: EndKind): map<RpcId, Sub> {
    map q | q in subs ::
      if q in qs && subs[q].conn in log then
        subs[q].(end := Some(End(|log[subs[q].conn]|, InFlight(q, subs[q].conn, readers), how)))
      else subs[q]
  }

  datatype World = World(
    client: Fields,
    readers: map<Conn, Reader>,
    sockets: nat,              // sockets opened so far
    dead: set<Conn>,           // sockets whose transport is gone or was aborted
    crashed: set<Conn>,        // connections whose reader stopped on an unexpected error
    cancelled: set<Conn>,      // connections whose reader was asked to stop
    sentOn: map<RpcId, Conn>,  // the connection each call was sent on
    log: map<Conn, seq<Message>>,  // the messages each reader has routed
    subs: map<RpcId, Sub>,     // every subscription registered so far, by its queue
    returned: set<RpcId>,      // the queues subscribe() returned
    answered: set<Conn>,       // connections core.set_options was answered on
    marked: set<Conn>)         // connections the private-methods mark ever named
  {
    ghost predicate Ids() {
      IdsOk(client.nextId, client.ws, client.futures, client.pending, client.hooks, client.queues, sentOn,
            readers, subs)
    }
    ghost predicate Conns() { ConnsOk(client.ws, client.reader, readers, log, sockets, cancelled, dead + crashed) }
    ghost predicate Marks() { MarksOk(client.ws, client.privateWs, marked, answered, readers) }
    ghost predicate Answers() { AnswersOk(client.futures, sentOn, log) }
    ghost predicate Tables() { TablesOk(client.ws, client.subscriptions, client.events, client.queues, subs) }
    ghost predicate Subs() { SubsOk(client.subscriptions, subs, log, sentOn, returned) }
    ghost predicate Updates() { UpdatesOk(client.ws, client.subscriptions, client.events, readers) }
    ghost predicate Feeds() { FeedsOk(client.queues, subs, log, readers) }

    ghost predicate Ok() {
      Ids() && Conns() && Marks() && Answers() && Tables() && Subs() && Updates() && Feeds()
    }

    // ------------------------------------------------------------ what callers do

    function Open(): World { this.(sockets := sockets + 1, client := client.(nextId := client.nextId + 1)) }

    function BumpId(): World { this.(client := client.(nextId := client.nextId + 1)) }

    function Answer(c: Conn): World { this.(answered := answered + {c}) }

    function Publish(c: Conn): World {
      this.(client := client.Publish(c), readers := readers[c := Receiving], log := log[c := []],
      marked := if client.privateMethods then marked + {c} else marked)
    }

    function Register(c: Conn, hook: Option<string>): World {
      this.(client := client.Register(hook), sentOn := sentOn[client.nextId := c])
    }

    function Unregister(id: RpcId): World { this.(client := client.Unregister(id)) }

    /** A cancelled task cancels the future it awaits. */
    function CancelFuture(id: RpcId): World {
      if id in client.futures && client.futures[id] == Waiting then
        this.(client := client.(futures := client.futures[id := Cancelled]))
      else this
    }

    ghost function Detach(): World {
      this.(client := client.Detach(), subs := EndEach(subs, log, readers, client.subscriptions.Values, Terminated))
    }

    /** `_release_socket`: abort the transport, and cancel the reader if it ever had one. */
    function Release(c: Conn): World {
      this.(dead := dead + {c}, cancelled := if c in readers then cancelled + {c} else cancelled)
    }

    /** subscribe() hands queue `q` to its caller. */
    function Return(q: RpcId): World { this.(returned := returned + {q}) }

    /** subscribe() fails: its queue is untracked if the reply had registered it. */
    ghost function Untrack(q: RpcId): World {
      if q !in subs then this
      else
        this.(client := client.Untrack(subs[q].sid, q),
        subs := if subs[q].end.None? then EndEach(subs, log, readers, {q}, Untracked) else subs)
    }

    ghost function Forget(w: Option<Conn>, sid: string): World {
      this.(client := client.Forget(w, sid),
      subs := if client.ws == w && sid in client.subscriptions
              then EndEach(subs, log, readers, {client.subscriptions[sid]}, Terminated) else subs)
    }

    function Mark(c: Conn): World {
      if client.ws == Some(c) then
        this.(client := client.(privateWs := Some(c)), marked := marked + {c})
      else this
    }

    function EnablePrivate(): World { this.(client := client.(privateMethods := true)) }

    // ------------------------------------------------------------ what readers do

    function SetReader(c: Conn, r: Reader): World { this.(readers := readers[c := r]) }

    function Logged(c: Conn, m: Message): World
      requires c in log
    {
      this.(log := log[c := log[c] + [m]], readers := readers[c := Receiving])
    }

    /** Whether routing the reply `m` runs a hook that registers a subscription. */
    predicate Registers(c: Conn, m: Message)
      requires m.Reply? && client.pending <= client.futures.Keys
    {
      && client.ws == Some(c) && m.id in client.pending && client.futures[m.id] == Waiting
      && m.id in client.hooks && m.result.SubscriptionId?
    }

    ghost function RouteReply(c: Conn, m: Message): World
      requires m.Reply? && client.pending <= client.futures.Keys && c in log
    {
      var subs' :=
        if Registers(c, m) then
          var sid := m.result.sid;
          var earlier := if sid in client.subscriptions then {client.subscriptions[sid]} else {};
          EndEach(subs, log, readers, earlier, Overwritten)[m.id := Sub(c, sid, client.hooks[m.id], |log[c]| + 1, None)]
        else subs;
      this.(client := client.RouteReply(c, m), subs := subs').Logged(c, m)
    }

    ghost function RouteEvent(c: Conn, m: Message): World
      requires m.Event? && c in log
    {
      this.(client := client.Put(client.Addressee(c, m.sid), Note(m))).Logged(c, m)
    }

    /** By the message's own collection; `Updating` waits for the lock a second time. */
    ghost function RouteCollection(c: Conn, m: Message): World
      requires m.Collection? && c in log && client.subscriptions.Keys == client.events.Keys
    {
      var qs := client.Matching(c, m.collection);
      var fed := this.(client := client.Put(qs, Note(m)));
      if m.update.Some? then fed.SetReader(c, Updating(m, qs)) else fed.Logged(c, m)
    }

    /** By its params' collection, leaving out the queues already notified. */
    ghost function RouteUpdate(c: Conn, m: Message, notified: set<RpcId>): World
      requires m.Collection? && c in log && client.subscriptions.Keys == client.events.Keys
    {
      this.(client := client.Put(client.Matching(c, m.update) - notified, Note(m))).Logged(c, m)
    }

    ghost function Teardown(c: Conn): World {
      (if client.ws == Some(c) then Detach() else this).SetReader(c, Ended)
    }
  }

  const START := World(INITIAL, map[], 0, {}, {}, {}, map[], map[], map[], {}, {}, {})

  lemma StartOk()
    ensures START.Ok()
  {}

  lemma OpenOk(w: World)
    requires w.Ok()
    ensures w.Open().Ok()
  {}

  lemma BumpIdOk(w: World)
    requires w.Ok()
    ensures w.BumpId().Ok()
  {}

  lemma AnswerOk(w: World, c: Conn)
    requires w.Ok()
    ensures w.Answer(c).Ok()
  {}

  lemma EnablePrivateOk(w: World)
    requires w.Ok()
    ensures w.EnablePrivate().Ok()
  {}

  lemma ReleaseOk(w: World, c: Conn)
    requires w.Ok() && w.client.ws != Some(c)
    ensures w.Release(c).Ok()
  {}

  /** A socket may be lost at any time. */
  lemma LostOk(w: World, dead: set<Conn>, crashed: set<Conn>)
    requires w.Ok() && w.dead <= dead && w.crashed <= crashed
    ensures w.(dead := dead, crashed := crashed).Ok()
  {}

  lemma PublishOk(w: World, c: Conn)
    requires w.Ok() && w.client.ws.None? && c < w.sockets && c !in w.readers
    requires w.client.privateMethods ==> c in w.answered
    ensures w.Publish(c).Ok()
  {
    PublishRecords(w, c);
    PublishFeeds(w, c);
  }

  lemma PublishRecords(w: World, c: Conn)
    requires w.Ids() && w.Conns() && w.Answers() && w.Subs() && c !in w.readers && c < w.sockets
    requires w.client.ws.None?
    ensures var w' := w.Publish(c); w'.Ids() && w'.Conns() && w'.Answers() && w'.Subs()
  {}

  lemma PublishFeeds(w: World, c: Conn)
    requires w.Feeds() && w.Conns() && c !in w.readers
    ensures w.Publish(c).Feeds()
  {
    forall q | q in w.subs
      ensures InFlight(q, w.subs[q].conn, w.Publish(c).readers) == InFlight(q, w.subs[q].conn, w.readers)
    {}
  }

  lemma RegisterOk(w: World, c: Conn, hook: Option<string>)
    requires w.Ok() && w.client.ws == Some(c)
    ensures w.Register(c, hook).Ok()
  {
    RegisterIds(w, c, hook);
    RegisterTables(w, c, hook);
    RegisterFeeds(w, c, hook);
  }

  lemma RegisterIds(w: World, c: Conn, hook: Option<string>)
    requires w.Ids() && w.Answers() && w.client.ws == Some(c) && c in w.readers
    ensures w.Register(c, hook).Ids() && w.Register(c, hook).Answers()
  {}

  lemma RegisterTables(w: World, c: Conn, hook: Option<string>)
    requires w.Tables() && w.Subs() && w.client.nextId !in w.sentOn
    ensures w.Register(c, hook).Tables() && w.Register(c, hook).Subs()
  {}

  lemma RegisterFeeds(w: World, c: Conn, hook: Option<string>)
    requires w.Feeds() && w.client.nextId !in w.subs
    ensures w.Register(c, hook).Feeds()
  {}

  lemma UnregisterOk(w: World, id: RpcId)
    requires w.Ok()
    ensures w.Unregister(id).Ok()
  {}

  lemma CancelFutureOk(w: World, id: RpcId)
    requires w.Ok()
    ensures w.CancelFuture(id).Ok()
  {}

  /** A queue that is tracked is live, and was fed the message in flight only if meant for it. */
  lemma TrackedIsLive(w: World, q: RpcId)
    requires w.Tables() && w.Updates() && q in w.client.subscriptions.Values
    ensures q in w.subs && w.subs[q].end.None? && w.client.ws == Some(w.subs[q].conn)
    ensures var late := InFlight(q, w.subs[q].conn, w.readers);
            late.Some? ==> Addressed(late.value, w.subs[q].sid, w.subs[q].event)
  {
    var sid :| sid in w.client.subscriptions && w.client.subscriptions[sid] == q;
  }

  /** The feed of `q` once it has ended for the reason `how`. */
  ghost predicate FeedEndable(q: RpcId, items: seq<Item>, s: Sub, all: seq<Message>, readers: map<Conn, Reader>,
                              how: EndKind) {
    FeedOk(q, items + if how == Terminated then [Terminator] else [],
           s.(end := Some(End(|all|, InFlight(q, s.conn, readers), how))), all, readers)
  }

  lemma LiveFeedEndable(q: RpcId, items: seq<Item>, s: Sub, all: seq<Message>, readers: map<Conn, Reader>, how: EndKind)
    requires FeedOk(q, items, s, all, readers) && s.end.None?
    requires var late := InFlight(q, s.conn, readers); late.Some? ==> Addressed(late.value, s.sid, s.event)
    ensures FeedEndable(q, items, s, all, readers, how)
  {
    assert all[s.start..] == all[s.start..|all|];
  }

  lemma EndFeeds(queues: map<RpcId, seq<Item>>, subs: map<RpcId, Sub>, log: map<Conn, seq<Message>>,
                 readers: map<Conn, Reader>, qs: set<RpcId>, how: EndKind)
    requires FeedsOk(queues, subs, log, readers)
    requires forall q :: q in qs ==> (q in subs && q in queues && subs[q].conn in log
                                      && FeedEndable(q, queues[q], subs[q], log[subs[q].conn], readers, how))
    ensures FeedsOk(if how == Terminated then PutEach(queues, qs, Terminator) else queues,
                    EndEach(subs, log, readers, qs, how), log, readers)
  {
    var queues' := if how == Terminated then PutEach(queues, qs, Terminator) else queues;
    var subs' := EndEach(subs, log, readers, qs, how);
    forall q | q in subs'
      ensures q in queues' && subs'[q].conn in log
           && FeedOk(q, queues'[q], subs'[q], log[subs'[q].conn], readers)
    {
      if q in qs {
        assert FeedEndable(q, queues[q], subs[q], log[subs[q].conn], readers, how);
      }
    }
  }

  lemma EndedFeeds(w: World, qs: set<RpcId>, how: EndKind)
    requires w.Tables() && w.Updates() && w.Feeds() && qs <= w.client.subscriptions.Values
    ensures FeedsOk(if how == Terminated then PutEach(w.client.queues, qs, Terminator) else w.client.queues,
                    EndEach(w.subs, w.log, w.readers, qs, how), w.log, w.readers)
  {
    forall q | q in qs
      ensures q in w.subs && q in w.client.queues && w.subs[q].conn in w.log
      ensures FeedEndable(q, w.client.queues[q], w.subs[q], w.log[w.subs[q].conn], w.readers, how)
    {
      TrackedIsLive(w, q);
      LiveFeedEndable(q, w.client.queues[q], w.subs[q], w.log[w.subs[q].conn], w.readers, how);
    }
    EndFeeds(w.client.queues, w.subs, w.log, w.readers, qs, how);
  }

  lemma DetachOk(w: World)
    requires w.Ok()
    ensures w.Detach().Ok()
  {
    EndedFeeds(w, w.client.subscriptions.Values, Terminated);
    DetachIds(w);
    DetachSubs(w);
  }

  lemma DetachIds(w: World)
    requires w.Ids() && w.Answers()
    ensures w.Detach().Ids() && w.Detach().Answers()
  {}

  lemma DetachSubs(w: World)
    requires w.Subs()
    ensures w.Detach().Subs()
  {
    EndReturned(w.subs, w.log, w.readers, w.client.subscriptions.Values, Terminated, w.returned);
    EndReissues(w.subs, w.log, w.readers, w.client.subscriptions.Values, Terminated);
  }

  lemma ReturnOk(w: World, q: RpcId)
    requires w.Ok() && q in w.subs && (w.subs[q].end.Some? ==> w.subs[q].end.value.how != Untracked)
    ensures w.Return(q).Ok()
  {
    ReturnSubs(w, q);
  }

  lemma ReturnSubs(w: World, q: RpcId)
    requires w.Subs() && q in w.subs && (w.subs[q].end.Some? ==> w.subs[q].end.value.how != Untracked)
    ensures w.Return(q).Subs()
  {}

  /** Dropping `sid` from the tables as its queue ends keeps the tables in step. */
  lemma DropTables(w: World, sid: string, how: EndKind, queues: map<RpcId, seq<Item>>)
    requires w.Tables() && sid in w.client.subscriptions && queues.Keys == w.client.queues.Keys
    ensures TablesOk(w.client.ws, w.client.subscriptions - {sid}, w.client.events - {sid}, queues,
                     EndEach(w.subs, w.log, w.readers, {w.client.subscriptions[sid]}, how))
  {}

  lemma DropSubs(w: World, sid: string, how: EndKind)
    requires w.Tables() && w.Subs() && sid in w.client.subscriptions
    requires how != Overwritten && (how == Untracked ==> w.client.subscriptions[sid] !in w.returned)
    ensures SubsOk(w.client.subscriptions - {sid},
                   EndEach(w.subs, w.log, w.readers, {w.client.subscriptions[sid]}, how), w.log, w.sentOn, w.returned)
  {
    var ended := EndEach(w.subs, w.log, w.readers, {w.client.subscriptions[sid]}, how);
    forall q | q in ended && ended[q].end.None?
      ensures ended[q].sid in w.client.subscriptions - {sid} && w.client.subscriptions[ended[q].sid] == q
    {
      DropLive(w, sid, how, q);
    }
    EndReturned(w.subs, w.log, w.readers, {w.client.subscriptions[sid]}, how, w.returned);
    EndReissues(w.subs, w.log, w.readers, {w.client.subscriptions[sid]}, how);
  }

  lemma DropLive(w: World, sid: string, how: EndKind, q: RpcId)
    requires w.Tables() && w.Subs() && sid in w.client.subscriptions && q in w.subs
    ensures var ended := EndEach(w.subs, w.log, w.readers, {w.client.subscriptions[sid]}, how);
            ended[q].end.None? ==>
              ended[q].sid in w.client.subscriptions - {sid} && w.client.subscriptions[ended[q].sid] == q
  {
    if w.subs[q].end.None? {
      LiveIsTracked(w, q);
    }
  }

  lemma EndReturned(subs: map<RpcId, Sub>, log: map<Conn, seq<Message>>, readers: map<Conn, Reader>,
                    qs: set<RpcId>, how: EndKind, returned: set<RpcId>)
    requires ReturnedOk(subs, returned) && (how == Untracked ==> qs !! returned)
    ensures ReturnedOk(EndEach(subs, log, readers, qs, how), returned)
  {}

  lemma EndReissues(subs: map<RpcId, Sub>, log: map<Conn, seq<Message>>, readers: map<Conn, Reader>,
                    qs: set<RpcId>, how: EndKind)
    requires ReissuesOk(subs, log) && how != Overwritten
    ensures ReissuesOk(EndEach(subs, log, readers, qs, how), log)
  {}

  lemma DropUpdates(w: World, sid: string)
    requires w.Updates()
    ensures UpdatesOk(w.client.ws, w.client.subscriptions - {sid}, w.client.events - {sid}, w.readers)
  {}

  lemma UntrackOk(w: World, q: RpcId)
    requires w.Ok() && q !in w.returned
    ensures w.Untrack(q).Ok()
  {
    if q in w.subs && w.subs[q].end.None? {
      var sid := w.subs[q].sid;
      EndedFeeds(w, {q}, Untracked);
      DropTables(w, sid, Untracked, w.client.queues);
      DropSubs(w, sid, Untracked);
      DropUpdates(w, sid);
    } else {
      assert q in w.subs ==> q !in w.client.subscriptions.Values;
    }
  }

  lemma ForgetOk(w: World, conn: Option<Conn>, sid: string)
    requires w.Ok()
    ensures w.Forget(conn, sid).Ok()
  {
    if w.client.ws == conn && sid in w.client.subscriptions {
      EndedFeeds(w, {w.client.subscriptions[sid]}, Terminated);
      ForgetIds(w, conn, sid);
      ForgetTables(w, conn, sid);
      DropUpdates(w, sid);
    }
  }

  lemma ForgetTables(w: World, conn: Option<Conn>, sid: string)
    requires w.Tables() && w.Subs() && w.client.ws == conn && sid in w.client.subscriptions
    ensures w.Forget(conn, sid).Tables() && w.Forget(conn, sid).Subs()
  {
    DropTables(w, sid, Terminated, w.Forget(conn, sid).client.queues);
    DropSubs(w, sid, Terminated);
  }

  lemma ForgetIds(w: World, conn: Option<Conn>, sid: string)
    requires w.Ids() && w.Tables()
    ensures w.Forget(conn, sid).Ids()
  {}

  lemma MarkOk(w: World, c: Conn)
    requires w.Ok() && c in w.answered
    ensures w.Mark(c).Ok()
  {}

  lemma SetReaderOk(w: World, c: Conn, r: Reader)
    requires w.Ok() && c in w.readers && (w.readers[c].Updating? ==> w.client.ws != Some(c))
    requires r.Receiving? || r.Routing? || (r.Ended? && w.client.ws != Some(c))
             || (r.TearingDown? && (w.client.ws == Some(c) ==> c in w.dead + w.crashed))
             || (r.Updating? && r.m.Collection? && r.m.update.Some? && r.m.collection.None? && r.notified == {})
    ensures w.SetReader(c, r).Ok()
  {
    SetReaderRecords(w, c, r);
    SetReaderFeeds(w, c, r, w.client.queues);
    SetReaderUpdates(w, c, r);
  }

  lemma SetReaderRecords(w: World, c: Conn, r: Reader)
    requires w.Ids() && w.Conns() && w.Marks() && c in w.readers && (r.Ended? ==> w.client.ws != Some(c))
    requires r.TearingDown? && w.client.ws == Some(c) ==> c in w.dead + w.crashed
    ensures var w' := w.SetReader(c, r); w'.Ids() && w'.Conns() && w'.Marks()
  {}

  lemma SetReaderUpdates(w: World, c: Conn, r: Reader)
    requires w.Updates()
    requires r.Updating? ==> && r.m.Collection? && r.m.update.Some?
                             && w.client.subscriptions.Keys == w.client.events.Keys
                             && (w.client.ws == Some(c) ==>
                                   forall sid :: sid in w.client.subscriptions ==>
                                     (w.client.subscriptions[sid] in r.notified <==>
                                      MatchesOptional(r.m.collection, w.client.events[sid])))
    ensures w.SetReader(c, r).Updates()
  {}

  ghost function JustFed(q: RpcId, s: Sub, c: Conn, r: Reader): Option<Message> {
    if s.conn == c && s.end.None? && r.Updating? && q in r.notified then Some(r.m) else None
  }

  lemma MovedFeed(q: RpcId, items: seq<Item>, s: Sub, all: seq<Message>, readers: map<Conn, Reader>, c: Conn, r: Reader)
    requires FeedOk(q, items, s, all, readers) && c in readers
    requires s.end.None? && s.conn == c ==> !readers[c].Updating?
    ensures FeedOk(q, items + Extra(JustFed(q, s, c, r)), s, all, readers[c := r])
  {}

  /** A reader moves on; the live queues that newly have its message were just fed it. */
  lemma SetReaderFeeds(w: World, c: Conn, r: Reader, fed: map<RpcId, seq<Item>>)
    requires w.Tables() && w.Subs() && w.Feeds() && c in w.readers
    requires w.readers[c].Updating? ==> w.client.ws != Some(c)
    requires fed.Keys == w.client.queues.Keys
    requires forall q :: q in w.subs ==>
               (q in fed && fed[q] == w.client.queues[q] + Extra(JustFed(q, w.subs[q], c, r)))
    ensures FeedsOk(fed, w.subs, w.log, w.readers[c := r])
  {
    forall q | q in w.subs
      ensures q in fed && w.subs[q].conn in w.log
           && FeedOk(q, fed[q], w.subs[q], w.log[w.subs[q].conn], w.readers[c := r])
    {
      if w.subs[q].end.None? {
        LiveIsTracked(w, q);
      }
      MovedFeed(q, w.client.queues[q], w.subs[q], w.log[w.subs[q].conn], w.readers, c, r);
    }
  }

  /** Routing `m` on `c` appends it to the log and to the live queues it is addressed to. */
  lemma LoggedFeeds(queues: map<RpcId, seq<Item>>, fed: map<RpcId, seq<Item>>, subs: map<RpcId, Sub>,
                    log: map<Conn, seq<Message>>, readers: map<Conn, Reader>, c: Conn, m: Message)
    requires FeedsOk(queues, subs, log, readers) && c in readers && c in log
    requires readers[c] == Routing(m) || (readers[c].Updating? && readers[c].m == m)
    requires forall q :: q in subs ==> q in fed && FedOne(q, queues[q], fed[q], subs[q], c, m, readers)
    ensures FeedsOk(fed, subs, log[c := log[c] + [m]], readers[c := Receiving])
  {
    var log' := log[c := log[c] + [m]];
    forall q | q in subs
      ensures q in fed && subs[q].conn in log'
           && FeedOk(q, fed[q], subs[q], log'[subs[q].conn], readers[c := Receiving])
    {
      LoggedFeed(q, queues[q], fed[q], subs[q], log[subs[q].conn], readers, c, m);
    }
  }

  /** `fed` is `items` after routing `m` on `c` is complete. */
  ghost predicate FedOne(q: RpcId, items: seq<Item>, fed: seq<Item>, s: Sub, c: Conn, m: Message,
                         readers: map<Conn, Reader>) {
    if s.end.Some? || s.conn != c then fed == items
    else if InFlight(q, c, readers).Some? then fed == items && Addressed(m, s.sid, s.event)
    else fed == items + if Addressed(m, s.sid, s.event) then [Note(m)] else []
  }

  lemma LoggedFeed(q: RpcId, items: seq<Item>, fed: seq<Item>, s: Sub, all: seq<Message>,
                   readers: map<Conn, Reader>, c: Conn, m: Message)
    requires FeedOk(q, items, s, all, readers) && FedOne(q, items, fed, s, c, m, readers) && c in readers
    requires readers[c] == Routing(m) || (readers[c].Updating? && readers[c].m == m)
    ensures FeedOk(q, fed, s, if s.conn == c then all + [m] else all, readers[c := Receiving])
  {
    if s.conn == c {
      FeedSnoc(all, s.start, m, s.sid, s.event);
      if s.end.Some? {
        assert (all + [m])[s.start..s.end.value.at] == all[s.start..s.end.value.at];
      }
    }
  }

  lemma LiveIsTracked(w: World, q: RpcId)
    requires w.Tables() && w.Subs() && q in w.subs && w.subs[q].end.None?
    ensures var s := w.subs[q];
            && w.client.ws == Some(s.conn)
            && s.sid in w.client.subscriptions && w.client.subscriptions[s.sid] == q
            && s.sid in w.client.events && w.client.events[s.sid] == s.event
  {}

  lemma RouteReplyOk(w: World, c: Conn, m: Message)
    requires w.Ok() && m.Reply? && c in w.readers && w.readers[c] == Routing(m)
    ensures w.RouteReply(c, m).Ok()
  {
    RouteReplyIds(w, c, m);
    RouteReplyAnswers(w, c, m);
    RouteReplyRecords(w, c, m);
    if w.Registers(c, m) {
      RegistersTables(w, c, m);
      RegistersSubs(w, c, m);
      RegistersUpdates(w, c, m);
      RegistersFeeds(w, c, m);
    } else {
      RouteReplyKeeps(w, c, m);
      LoggedOk(w, c, m);
      UnaddressedFeeds(w, w.subs, c, m);
    }
  }

  lemma RouteReplyRecords(w: World, c: Conn, m: Message)
    requires w.Ids() && w.Conns() && w.Marks() && m.Reply? && c in w.readers && w.readers[c] == Routing(m)
    ensures w.RouteReply(c, m).Conns() && w.RouteReply(c, m).Marks()
  {
    assert w.RouteReply(c, m).readers.Keys == w.readers.Keys;
  }

  lemma UnaddressedFeeds(w: World, subs: map<RpcId, Sub>, c: Conn, m: Message)
    requires FeedsOk(w.client.queues, subs, w.log, w.readers)
    requires m.Reply? && c in w.readers && c in w.log && w.readers[c] == Routing(m)
    ensures FeedsOk(w.client.queues, subs, w.log[c := w.log[c] + [m]], w.readers[c := Receiving])
  {
    LoggedFeeds(w.client.queues, w.client.queues, subs, w.log, w.readers, c, m);
  }

  /** Appending to a log leaves all but the ids, answers and feeds alone. */
  lemma LoggedOk(w: World, c: Conn, m: Message)
    requires w.Conns() && w.Marks() && w.Subs() && w.Updates() && c in w.readers
    requires !w.readers[c].Ended?
    ensures var w' := w.Logged(c, m); w'.Conns() && w'.Marks() && w'.Subs() && w'.Updates()
  {}

  lemma RouteReplyKeeps(w: World, c: Conn, m: Message)
    requires w.Ids() && m.Reply? && c in w.log && !w.Registers(c, m)
    ensures var w' := w.RouteReply(c, m);
            && w'.subs == w.subs && w'.client.futures.Keys == w.client.futures.Keys
            && w'.client == w.client.(pending := w'.client.pending, hooks := w'.client.hooks,
                                      futures := w'.client.futures)
            && (w.client.ws == Some(c) && m.id >= 0 ==>
                  w'.client.pending == w.client.pending - {m.id} && w'.client.hooks == w.client.hooks - {m.id})
  {}

  lemma RouteReplyIds(w: World, c: Conn, m: Message)
    requires w.Ids() && m.Reply? && c in w.readers && c in w.log
    ensures w.RouteReply(c, m).Ids()
  {
    if w.client.ws != Some(c) || m.id < 0 {
    } else if w.Registers(c, m) {
      assert m.id in w.client.queues;
      RegistersIds(w, c, m);
    } else {
      RouteReplyKeeps(w, c, m);
      PoppedIds(w, c, m);
    }
  }

  lemma PoppedIds(w: World, c: Conn, m: Message)
    requires w.Ids() && m.Reply? && m.id >= 0 && c in w.readers && c in w.log && !w.Registers(c, m)
    requires w.client.ws == Some(c)
    ensures w.RouteReply(c, m).Ids()
  {
    RouteReplyKeeps(w, c, m);
    UnregisterOnlyIds(w, m.id, w.RouteReply(c, m).client.futures, w.readers[c := Receiving]);
  }

  lemma UnregisterOnlyIds(w: World, id: RpcId, futures: map<RpcId, Future>, readers: map<Conn, Reader>)
    requires w.Ids() && futures.Keys == w.client.futures.Keys && w.readers.Keys <= readers.Keys
    ensures IdsOk(w.client.nextId, w.client.ws, futures, w.client.pending - {id}, w.client.hooks - {id},
                  w.client.queues, w.sentOn, readers, w.subs)
  {}

  lemma RegistersIds(w: World, c: Conn, m: Message)
    requires w.Ids() && m.Reply? && c in w.readers && c in w.log && w.Registers(c, m) && m.id in w.client.queues
    ensures w.RouteReply(c, m).Ids()
  {
    var w' := w.RouteReply(c, m);
    assert w'.subs.Keys == w.subs.Keys + {m.id};
    assert w'.client.futures.Keys == w.client.futures.Keys;
  }

  lemma RouteReplyAnswers(w: World, c: Conn, m: Message)
    requires w.Ids() && w.Answers() && m.Reply? && c in w.log
    ensures w.RouteReply(c, m).Answers()
  {
    LogAnswers(w.client.futures, w.sentOn, w.log, c, m);
    if w.client.ws == Some(c) && m.id in w.client.pending && w.client.futures[m.id] == Waiting {
      AddAnswer(w.client.futures, w.sentOn, w.log[c := w.log[c] + [m]], c, m);
    }
  }

  lemma LogAnswers(futures: map<RpcId, Future>, sentOn: map<RpcId, Conn>, log: map<Conn, seq<Message>>,
                   c: Conn, m: Message)
    requires AnswersOk(futures, sentOn, log) && c in log
    ensures AnswersOk(futures, sentOn, log[c := log[c] + [m]])
  {}

  lemma AddAnswer(futures: map<RpcId, Future>, sentOn: map<RpcId, Conn>, log: map<Conn, seq<Message>>,
                  c: Conn, m: Message)
    requires AnswersOk(futures, sentOn, log) && c in log && m in log[c] && m.Reply?
    requires m.id >= 0 && m.id in sentOn && sentOn[m.id] == c
    ensures AnswersOk(futures[m.id := Answered(m, c)], sentOn, log)
  {}

  /** The earlier holder of the subscription id a reply registers: a server repeating itself. */
  ghost function Earlier(w: World, m: Message): set<RpcId>
    requires m.Reply? && m.result.SubscriptionId?
  {
    if m.result.sid in w.client.subscriptions then {w.client.subscriptions[m.result.sid]} else {}
  }

  lemma RegistersTables(w: World, c: Conn, m: Message)
    requires w.Ids() && w.Tables() && c in w.log && m.Reply? && w.Registers(c, m)
    ensures w.RouteReply(c, m).Tables()
  {
    var sid := m.result.sid;
    var subs := EndEach(w.subs, w.log, w.readers, Earlier(w, m), Overwritten);
    if sid in w.client.subscriptions {
      DropTables(w, sid, Overwritten, w.client.queues);
    } else {
      assert subs == w.subs;
    }
    AddTables(w.client.ws, w.client.subscriptions, w.client.events, w.client.queues, subs, m.id,
              Sub(c, sid, w.client.hooks[m.id], |w.log[c]| + 1, None));
  }

  /** A new subscription of the current connection takes the place of any other with its id. */
  lemma AddTables(ws: Option<Conn>, subscriptions: map<string, RpcId>, events: map<string, string>,
                  queues: map<RpcId, seq<Item>>, subs: map<RpcId, Sub>, id: RpcId, sub: Sub)
    requires TablesOk(ws, subscriptions - {sub.sid}, events - {sub.sid}, queues, subs)
    requires id in queues && id !in subs && ws == Some(sub.conn) && sub.end.None?
    requires subscriptions.Keys == events.Keys
    ensures TablesOk(ws, subscriptions[sub.sid := id], events[sub.sid := sub.event], queues, subs[id := sub])
  {
    var (before, after) := (subscriptions - {sub.sid}, subscriptions[sub.sid := id]);
    forall sid | sid in after && sid != sub.sid
      ensures sid in before && after[sid] == before[sid] && after[sid] != id
    {}
  }

  lemma RegistersSubs(w: World, c: Conn, m: Message)
    requires w.Ids() && w.Tables() && w.Subs() && c in w.log && m.Reply? && w.Registers(c, m)
    ensures w.RouteReply(c, m).Subs()
  {
    var w' := w.RouteReply(c, m);
    assert m.id !in w.subs;
    forall q | q in w'.subs && q != m.id
      ensures w'.subs[q].conn == w.subs[q].conn
      ensures w'.subs[q].end.None? ==> w'.subs[q].sid in w'.client.subscriptions
                                       && w'.client.subscriptions[w'.subs[q].sid] == q
    {
      RegistersLive(w, c, m, q);
    }
    EndReturned(w.subs, w.log, w.readers, Earlier(w, m), Overwritten, w.returned);
    assert ReturnedOk(w'.subs, w.returned);
    RegistersReissues(w, c, m);
  }

  lemma RegistersLive(w: World, c: Conn, m: Message, q: RpcId)
    requires w.Ids() && w.Tables() && w.Subs() && c in w.log && m.Reply? && w.Registers(c, m)
    requires q in w.subs && q != m.id
    ensures var w' := w.RouteReply(c, m);
            && w'.subs[q].conn == w.subs[q].conn
            && (w'.subs[q].end.None? ==> w'.subs[q].sid in w'.client.subscriptions
                                         && w'.client.subscriptions[w'.subs[q].sid] == q)
  {
    if w.subs[q].end.None? {
      LiveIsTracked(w, q);
    }
  }

  lemma RegistersReissues(w: World, c: Conn, m: Message)
    requires w.Ids() && w.Tables() && w.Subs() && c in w.log && m.Reply? && w.Registers(c, m)
    ensures ReissuesOk(w.RouteReply(c, m).subs, w.RouteReply(c, m).log)
  {
    var w' := w.RouteReply(c, m);
    assert m.id !in w.subs;
    forall q | q in w'.subs && w'.subs[q].end.Some? && w'.subs[q].end.value.how == Overwritten
      ensures w'.subs[q].conn in w'.log && Reissued(q, w'.subs[q].sid, w'.subs[q].end.value.at, w'.log[w'.subs[q].conn])
    {
      if w.subs[q].end.Some? {
        assert Reissued(q, w.subs[q].sid, w.subs[q].end.value.at, w.log[w.subs[q].conn]);
      }
    }
  }

  lemma RegistersUpdates(w: World, c: Conn, m: Message)
    requires w.Updates() && c in w.log && m.Reply? && w.client.pending <= w.client.futures.Keys && w.Registers(c, m)
    ensures w.RouteReply(c, m).Updates()
  {}

  lemma RegistersFeeds(w: World, c: Conn, m: Message)
    requires w.Ids() && w.Tables() && w.Updates() && w.Feeds()
    requires m.Reply? && c in w.readers && c in w.log && w.readers[c] == Routing(m) && w.Registers(c, m)
    ensures w.RouteReply(c, m).Feeds()
  {
    assert m.id in w.client.queues && w.client.queues[m.id] == [];
    OverwriteFeeds(w, c, m);
    var ended := EndEach(w.subs, w.log, w.readers, Earlier(w, m), Overwritten);
    AddFeed(w.client.queues, ended, w.log[c := w.log[c] + [m]], w.readers[c := Receiving], c, m, w.client.hooks[m.id]);
  }

  lemma OverwriteFeeds(w: World, c: Conn, m: Message)
    requires w.Tables() && w.Updates() && w.Feeds()
    requires m.Reply? && c in w.readers && c in w.log && w.readers[c] == Routing(m) && m.result.SubscriptionId?
    ensures FeedsOk(w.client.queues, EndEach(w.subs, w.log, w.readers, Earlier(w, m), Overwritten),
                    w.log[c := w.log[c] + [m]], w.readers[c := Receiving])
  {
    EndedFeeds(w, Earlier(w, m), Overwritten);
    UnaddressedFeeds(w, EndEach(w.subs, w.log, w.readers, Earlier(w, m), Overwritten), c, m);
  }

  /** A new subscription starts empty, right after its reply. */
  lemma AddFeed(queues: map<RpcId, seq<Item>>, subs: map<RpcId, Sub>, log: map<Conn, seq<Message>>,
                readers: map<Conn, Reader>, c: Conn, m: Message, event: string)
    requires FeedsOk(queues, subs, log, readers) && c in readers && !readers[c].Updating?
    requires c in log && |log[c]| > 0 && log[c][|log[c]| - 1] == m
    requires m.Reply? && m.result.SubscriptionId? && m.id in queues && queues[m.id] == []
    ensures FeedsOk(queues, subs[m.id := Sub(c, m.result.sid, event, |log[c]|, None)], log, readers)
  {
    assert log[c][|log[c]|..] == [];
  }

  lemma RouteEventOk(w: World, c: Conn, m: Message)
    requires w.Ok() && m.Event? && c in w.readers && w.readers[c] == Routing(m)
    ensures w.RouteEvent(c, m).Ok()
  {
    PutOk(w, w.client.Addressee(c, m.sid), m);
    LoggedOk(w, c, m);
    LoggedAnswers(w, c, m);
    forall q | q in w.subs
      ensures FedOne(q, w.client.queues[q], w.RouteEvent(c, m).client.queues[q], w.subs[q], c, m, w.readers)
    {
      EventFed(w, c, m, q);
    }
    LoggedFeeds(w.client.queues, w.RouteEvent(c, m).client.queues, w.subs, w.log, w.readers, c, m);
  }

  lemma EventFed(w: World, c: Conn, m: Message, q: RpcId)
    requires w.Tables() && w.Subs() && m.Event? && c in w.readers && c in w.log && w.readers[c] == Routing(m)
    requires q in w.subs && q in w.client.queues
    ensures FedOne(q, w.client.queues[q], w.RouteEvent(c, m).client.queues[q], w.subs[q], c, m, w.readers)
  {
    if w.subs[q].end.None? {
      LiveIsTracked(w, q);
    }
  }

  /** Feeding tracked queues changes no table and no id. */
  lemma PutOk(w: World, qs: set<RpcId>, m: Message)
    requires w.Ids() && w.Tables() && qs <= w.client.subscriptions.Values
    ensures var w' := w.(client := w.client.Put(qs, Note(m))); w'.Ids() && w'.Tables()
  {}

  lemma LoggedAnswers(w: World, c: Conn, m: Message)
    requires w.Ids() && w.Answers() && c in w.readers && c in w.log
    ensures w.Logged(c, m).Ids() && w.Logged(c, m).Answers()
  {}

  lemma RouteCollectionOk(w: World, c: Conn, m: Message)
    requires w.Ok() && m.Collection? && c in w.readers && w.readers[c] == Routing(m)
    ensures w.RouteCollection(c, m).Ok()
  {
    var qs := w.client.Matching(c, m.collection);
    PutOk(w, qs, m);
    if m.update.None? {
      LoggedOk(w, c, m);
      LoggedAnswers(w, c, m);
      CollectionFed(w, c, m);
    } else {
      HalfRoutedOk(w, c, m, qs);
    }
  }

  lemma CollectionFed(w: World, c: Conn, m: Message)
    requires w.Tables() && w.Subs() && w.Feeds()
    requires m.Collection? && m.update.None? && c in w.readers && c in w.log && w.readers[c] == Routing(m)
    ensures FeedsOk(PutEach(w.client.queues, w.client.Matching(c, m.collection), Note(m)),
                    w.subs, w.log[c := w.log[c] + [m]], w.readers[c := Receiving])
  {
    var fed := PutEach(w.client.queues, w.client.Matching(c, m.collection), Note(m));
    forall q | q in w.subs
      ensures FedOne(q, w.client.queues[q], fed[q], w.subs[q], c, m, w.readers)
    {
      CollectionFedOne(w, c, m, q);
    }
    LoggedFeeds(w.client.queues, fed, w.subs, w.log, w.readers, c, m);
  }

  lemma CollectionFedOne(w: World, c: Conn, m: Message, q: RpcId)
    requires w.Tables() && w.Subs() && m.Collection? && m.update.None? && c in w.readers && w.readers[c] == Routing(m)
    requires q in w.subs && q in w.client.queues
    ensures var fed := PutEach(w.client.queues, w.client.Matching(c, m.collection), Note(m));
            FedOne(q, w.client.queues[q], fed[q], w.subs[q], c, m, w.readers)
  {
    MatchingLive(w, c, m.collection, q);
  }

  lemma HalfRoutedOk(w: World, c: Conn, m: Message, qs: set<RpcId>)
    requires w.Ids() && w.Conns() && w.Marks() && w.Tables() && w.Subs() && w.Updates() && w.Feeds()
    requires m.Collection? && m.update.Some? && c in w.readers && w.readers[c] == Routing(m)
    requires qs == w.client.Matching(c, m.collection)
    ensures var r := Updating(m, qs);
            && w.SetReader(c, r).Conns() && w.SetReader(c, r).Marks() && w.SetReader(c, r).Updates()
            && FeedsOk(PutEach(w.client.queues, qs, Note(m)), w.subs, w.log, w.readers[c := r])
  {
    SetReaderRecords(w, c, Updating(m, qs));
    SetReaderUpdates(w, c, Updating(m, qs));
    HalfRoutedFeeds(w, c, m, qs);
  }

  lemma HalfRoutedFeeds(w: World, c: Conn, m: Message, qs: set<RpcId>)
    requires w.Tables() && w.Subs() && w.Feeds()
    requires m.Collection? && c in w.readers && w.readers[c] == Routing(m) && qs == w.client.Matching(c, m.collection)
    ensures FeedsOk(PutEach(w.client.queues, qs, Note(m)), w.subs, w.log, w.readers[c := Updating(m, qs)])
  {
    forall q | q in w.subs && q in qs
      ensures w.subs[q].end.None? && w.subs[q].conn == c
    {
      MatchingLive(w, c, m.collection, q);
    }
    SetReaderFeeds(w, c, Updating(m, qs), PutEach(w.client.queues, qs, Note(m)));
  }

  /** The matching queues are those of the live subscriptions of `c` to a matching event. */
  lemma MatchingLive(w: World, c: Conn, collection: Option<string>, q: RpcId)
    requires w.Tables() && w.Subs() && q in w.subs
    ensures q in w.client.Matching(c, collection) <==>
              w.subs[q].end.None? && w.subs[q].conn == c && MatchesOptional(collection, w.subs[q].event)
  {
    if w.subs[q].end.None? {
      LiveIsTracked(w, q);
    }
  }

  lemma RouteUpdateOk(w: World, c: Conn, m: Message, notified: set<RpcId>)
    requires w.Ok() && m.Collection? && c in w.readers && w.readers[c] == Updating(m, notified)
    ensures w.RouteUpdate(c, m, notified).Ok()
  {
    var qs := w.client.Matching(c, m.update) - notified;
    PutOk(w, qs, m);
    LoggedOk(w, c, m);
    LoggedAnswers(w, c, m);
    forall q | q in w.subs
      ensures FedOne(q, w.client.queues[q], PutEach(w.client.queues, qs, Note(m))[q], w.subs[q], c, m, w.readers)
    {
      UpdateFed(w, c, m, notified, q);
    }
    LoggedFeeds(w.client.queues, PutEach(w.client.queues, qs, Note(m)), w.subs, w.log, w.readers, c, m);
  }

  lemma UpdateFed(w: World, c: Conn, m: Message, notified: set<RpcId>, q: RpcId)
    requires w.Tables() && w.Subs() && w.Updates()
    requires m.Collection? && c in w.readers && w.readers[c] == Updating(m, notified)
    requires q in w.subs && q in w.client.queues
    ensures var qs := w.client.Matching(c, m.update) - notified;
            FedOne(q, w.client.queues[q], PutEach(w.client.queues, qs, Note(m))[q], w.subs[q], c, m, w.readers)
  {
    MatchingLive(w, c, m.update, q);
    if w.subs[q].end.None? {
      LiveIsTracked(w, q);
    }
  }

  lemma TeardownOk(w: World, c: Conn)
    requires w.Ok() && c in w.readers && w.readers[c].TearingDown?
    ensures w.Teardown(c).Ok()
  {
    if w.client.ws == Some(c) {
      DetachOk(w);
      SetReaderOk(w.Detach(), c, Ended);
    } else {
      SetReaderOk(w, c, Ended);
    }
  }
}
