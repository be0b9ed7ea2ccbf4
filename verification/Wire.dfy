/** The messages a TrueNAS server sends, and the objects the client hands out for them. */
module Wire {
  datatype Option<+T> = None | Some(value: T)

  /** Sockets are numbered in the order they were opened, and never reused. */
  type Conn = nat
  /** JSON-RPC request ids. A queue returned by `subscribe` is named by the id of its request. */
  type RpcId = nat

  datatype ReplyResult = Absent | SubscriptionId(sid: string) | Other

  /** A decoded message, classified the way the reader classifies it: an integer `id` makes a
      reply, a string `id` a subscription notification, anything else a collection notification. */
  datatype Message =
    | Reply(id: int, error: bool, result: ReplyResult)
    | Event(sid: string, payload: nat)
    | Collection(collection: Option<string>, update: Option<string>, payload: nat)

  datatype Item = Note(message: Message) | Terminator

  /** The state of the future a call waits on; `via` is the connection the reply arrived on. */
  datatype Future = Waiting | Answered(reply: Message, via: Conn) | Closed | Cancelled

  /** The part of `s` before its first colon. */
  function BeforeColon(s: string): (r: string)
    ensures ':' !in r && r <= s
    ensures r == s || (|r| < |s| && s[|r|] == ':')
  {
    if s == "" || s[0] == ':' then "" else [s[0]] + BeforeColon(s[1..])
  }

  predicate MatchesSubscription(collection: string, event: string) {
    collection == event || (':' in collection && BeforeColon(collection) == event)
  }

  predicate MatchesOptional(collection: Option<string>, event: string) {
    collection.Some? && MatchesSubscription(collection.value, event)
  }

  /** A notification for `collection` concerns `event`: it names the event itself, or the event, a
      colon and anything more. */
  predicate Concerns(collection: Option<string>, event: string) {
    collection.Some? && (collection.value == event || (':' !in event && event + ":" <= collection.value))
  }

  lemma MatchesIff(collection: Option<string>, event: string)
    ensures MatchesOptional(collection, event) <==> Concerns(collection, event)
  {
    if collection.Some? && ':' !in event {
      var (s, head) := (collection.value, BeforeColon(collection.value));
      if ':' in s && head == event {
        assert s[|head|] == ':' && event + ":" == s[..|event| + 1];
      }
      if event + ":" <= s {
        assert s[|event|] == ':' && s[..|event|] == event;
        assert |head| <= |event| && |event| <= |head|;
      }
    }
  }

  /** Whether `m` is meant for the subscription `sid` to `event`. */
  predicate Addressed(m: Message, sid: string, event: string) {
    match m
    case Reply(_, _, _) => false
    case Event(s, _) => s == sid
    case Collection(collection, update, _) =>
      MatchesOptional(collection, event) || MatchesOptional(update, event)
  }

  /** What a subscription should have been fed from `log`: its messages, in order, once each. */
  ghost function Feed(log: seq<Message>, sid: string, event: string): seq<Item> {
    if log == [] then []
    else
      var m := log[|log| - 1];
      Feed(log[..|log| - 1], sid, event) + if Addressed(m, sid, event) then [Note(m)] else []
  }

  function Extra(m: Option<Message>): seq<Item> {
    if m.Some? then [Note(m.value)] else []
  }

  lemma FeedSnoc(log: seq<Message>, start: nat, m: Message, sid: string, event: string)
    requires start <= |log|
    ensures Feed((log + [m])[start..], sid, event)
         == Feed(log[start..], sid, event) + if Addressed(m, sid, event) then [Note(m)] else []
  {
    var longer := (log + [m])[start..];
    assert longer[..|longer| - 1] == log[start..];
  }

  lemma {:induction false} FeedHasNoTerminator(log: seq<Message>, sid: string, event: string)
    ensures Terminator !in Feed(log, sid, event)
  {
    if log != [] {
      FeedHasNoTerminator(log[..|log| - 1], sid, event);
    }
  }
}
