/** The broker: queues, their listeners, and tag-filtered delivery. */
module NodeCore {
  import opened Basics

  /** The regular-expression engine: which patterns compile, and what a compiled pattern matches. */
  datatype Engine = Engine(valid: Text -> bool, matches: (Text, Text) -> bool)

  datatype Listener = Listener(isOwner: bool, isSubscribed: bool, settings: SubscriptionParams)

  type Listeners = map<nat, Listener>

  datatype Queue = Queue(queueId: nat, name: Text)

  datatype Action = Create | Subscribe | Unsubscribe

  datatype NodeState = NodeState(
    queues: map<Text, Queue>,
    subs: map<Text, Listeners>,
    nextQueueId: nat)

  const EMPTY_NODE := NodeState(map[], map[], 0)

  function ListenersOf(s: NodeState, q: Text): Listeners {
    if q in s.subs then s.subs[q] else map[]
  }

  /** The listener entry after a Create or Subscribe by `id`. */
  function Enlist(ls: Listeners, action: Action, settings: SubscriptionParams, id: nat): Listeners {
    if id !in ls then ls[id := Listener(action.Create?, false, settings)]
    else if action.Create? then ls
    else ls[id := ls[id].(isSubscribed := true, settings := settings)]
  }

  /** `changeSubscription_impl`; `None` is the exception for an unknown client. */
  function ChangeSubscription(s: NodeState, users: set<nat>, action: Action, settings: SubscriptionParams, id: nat)
    : Option<NodeState>
  {
    var q := settings.queueName;
    if q !in s.queues && action.Unsubscribe? then Some(s)
    else if id !in users then None
    else
      var ls := ListenersOf(s, q);
      Some(s.(subs := s.subs[q := if action.Unsubscribe? then ls - {id} else Enlist(ls, action, settings, id)]))
  }

  /** Storing a new queue, before its owner is recorded. */
  function StoreQueue(s: NodeState, name: Text): NodeState {
    s.(queues := s.queues[name := Queue(s.nextQueueId, name)], nextQueueId := s.nextQueueId + 1)
  }

  /** Creating a queue that exists replaces its settings, which are its name. */
  function Resettle(s: NodeState, name: Text): NodeState
    requires name in s.queues
  {
    s.(queues := s.queues[name := s.queues[name].(name := name)])
  }

  function CreateQueue(s: NodeState, users: set<nat>, name: Text, id: nat): Option<NodeState> {
    if id !in users then None
    else if name in s.queues then Some(Resettle(s, name))
    else ChangeSubscription(StoreQueue(s, name), users, Create, SubscriptionParams(name, []), id)
  }

  /** What is left of a queue's listeners makes `eraseClient` drop the queue. */
  predicate MustBeRemoved(rest: Listeners) {
    rest == map[] || (SERVER_ID in rest && !rest[SERVER_ID].isOwner)
  }

  predicate Doomed(s: NodeState, q: Text, id: nat) {
    q in s.subs && id in s.subs[q] && MustBeRemoved(s.subs[q] - {id})
  }

  /** `eraseClient`, without a loop: the client is in no listener map and the doomed queues are gone. */
  function EraseClient(s: NodeState, id: nat): NodeState {
    s.(subs := map q | q in s.subs :: s.subs[q] - {id},
       queues := map q | q in s.queues && !Doomed(s, q, id) :: s.queues[q])
  }

  /** One round of the erasing loop: the listeners of queue `q`. */
  function EraseFrom(s: NodeState, q: Text, id: nat): NodeState
    requires q in s.subs
  {
    s.(subs := s.subs[q := s.subs[q] - {id}],
       queues := if Doomed(s, q, id) then s.queues - {q} else s.queues)
  }

  /** The rounds of the erasing loop for the queues in `some`, all at once. */
  function EraseIn(s: NodeState, id: nat, some: set<Text>): NodeState {
    s.(subs := map q | q in s.subs :: if q in some then s.subs[q] - {id} else s.subs[q],
       queues := map q | q in s.queues && !(q in some && Doomed(s, q, id)) :: s.queues[q])
  }

  lemma EraseInNone(s: NodeState, id: nat)
    ensures EraseIn(s, id, {}) == s
  {
    assert EraseIn(s, id, {}).subs == s.subs;
    assert EraseIn(s, id, {}).queues == s.queues;
  }

  /** All rounds together are the loop-free form. */
  lemma EraseInAll(s: NodeState, id: nat)
    ensures EraseIn(s, id, s.subs.Keys) == EraseClient(s, id)
  {
    assert EraseIn(s, id, s.subs.Keys).subs == EraseClient(s, id).subs;
    assert EraseIn(s, id, s.subs.Keys).queues == EraseClient(s, id).queues;
  }

  /** A round adds its queue to those done ... */
  lemma RoundAfter(s: NodeState, id: nat, some: set<Text>, q: Text)
    requires q in s.subs && q !in some
    ensures q in EraseIn(s, id, some).subs && EraseFrom(EraseIn(s, id, some), q, id) == EraseIn(s, id, some + {q})
  {
    var a, b := EraseIn(s, id, some), EraseIn(s, id, some + {q});
    var c := EraseFrom(a, q, id);
    assert Doomed(a, q, id) == Doomed(s, q, id);
    assert c.subs == b.subs;
    assert c.queues == b.queues;
  }

  /** ... and leaves the others as they were to be done. */
  lemma RoundBefore(s: NodeState, id: nat, some: set<Text>, q: Text)
    requires q in some && some <= s.subs.Keys
    ensures EraseIn(EraseFrom(s, q, id), id, some - {q}) == EraseIn(s, id, some)
  {
    var s1 := EraseFrom(s, q, id);
    var x, y := EraseIn(s1, id, some - {q}), EraseIn(s, id, some);
    assert forall r :: r != q ==> Doomed(s1, r, id) == Doomed(s, r, id);
    assert x.subs == y.subs;
    assert x.queues == y.queues;
  }

  /** Erasing twice is erasing once. */
  lemma EraseIsIdempotent(s: NodeState, id: nat)
    ensures EraseClient(EraseClient(s, id), id) == EraseClient(s, id)
  {
    var s' := EraseClient(s, id);
    var s'' := EraseClient(s', id);
    assert forall q :: q in s.subs ==> s''.subs[q] == s'.subs[q];
    assert s''.subs == s'.subs;
    assert s''.queues == s'.queues;
  }

  // ---------------------------------------------------------------- delivery

  /** An owner receives messages only if it has also subscribed. */
  predicate Eligible(l: Listener) {
    !l.isOwner || l.isSubscribed
  }

  /** `checkTag`, on a pattern that compiles. */
  predicate TagAccepts(rx: Engine, pattern: Text, tag: Text) {
    pattern == [] || (rx.valid(pattern) && rx.matches(pattern, tag))
  }

  /** Checking this listener's tag throws, because its pattern does not compile. */
  predicate Bad(rx: Engine, l: Listener) {
    Eligible(l) && l.settings.tag != [] && !rx.valid(l.settings.tag)
  }

  predicate Wanted(rx: Engine, l: Listener, tag: Text) {
    Eligible(l) && TagAccepts(rx, l.settings.tag, tag)
  }

  ghost predicate StrictlyAscending(ids: seq<nat>) {
    forall i, j :: 0 <= i < j < |ids| ==> ids[i] < ids[j]
  }

  lemma AscendingAppend(a: seq<nat>, x: nat)
    requires StrictlyAscending(a) && forall y :: y in a ==> y < x
    ensures StrictlyAscending(a + [x])
  {
    var b := a + [x];
    forall i, j | 0 <= i < j < |b| ensures b[i] < b[j] {
      assert b[i] == a[i] && a[i] in a;
    }
  }

  /** The listeners a message is delivered to: those that want it, up to the first bad pattern. */
  ghost function TargetSet(rx: Engine, ls: Listeners, tag: Text): set<nat> {
    set id | id in ls && Wanted(rx, ls[id], tag) && NoBadUpTo(rx, ls, id)
  }

  ghost predicate NoBadUpTo(rx: Engine, ls: Listeners, id: nat) {
    forall other :: other in ls && other <= id ==> !Bad(rx, ls[other])
  }

  ghost predicate AnyBad(rx: Engine, ls: Listeners) {
    exists id :: id in ls && Bad(rx, ls[id])
  }

  lemma {:induction false} LeastExists(s: set<nat>) returns (m: nat)
    requires s != {}
    ensures m in s && forall x :: x in s ==> m <= x
    decreases |s|
  {
    var y :| y in s;
    if s == {y} {
      m := y;
    } else {
      var rest := s - {y};
      assert s == rest + {y};
      assert rest != {};
      var r := LeastExists(rest);
      m := if y < r then y else r;
    }
  }

  lemma AscendingPrepend(x: nat, a: seq<nat>)
    requires StrictlyAscending(a) && forall y :: y in a ==> x < y
    ensures StrictlyAscending([x] + a)
  {
    var b := [x] + a;
    forall i, j | 0 <= i < j < |b| ensures b[i] < b[j] {
      assert b[j] == a[j - 1] && a[j - 1] in a;
    }
  }

  /** The elements of a set in ascending order: how a `std::map` is iterated. */
  ghost function Ascending(s: set<nat>): (r: seq<nat>)
    ensures StrictlyAscending(r)
    ensures forall x :: x in r <==> x in s
    decreases |s|
  {
    if s == {} then []
    else
      var least := LeastOf(s);
      assert s == {least} + (s - {least});
      var rest := Ascending(s - {least});
      AscendingPrepend(least, rest);
      [least] + rest
  }

  ghost function LeastOf(s: set<nat>): (m: nat)
    requires s != {}
    ensures m in s && forall x :: x in s ==> m <= x
  {
    assert exists m :: m in s && forall x :: x in s ==> m <= x by {
      var m := LeastExists(s);
    }
    var m :| m in s && forall x :: x in s ==> m <= x;
    m
  }

  /** Ascending sequences with the same elements are the same. */
  lemma {:induction false} AscendingIsUnique(a: seq<nat>, b: seq<nat>)
    requires StrictlyAscending(a) && StrictlyAscending(b)
    requires forall x :: x in a <==> x in b
    ensures a == b
  {
    if b != [] {
      assert b[0] in a;
    }
    if a != [] {
      assert a[0] in b;
      assert a[0] == b[0];
      forall x ensures x in a[1..] <==> x in b[1..] {
        assert x in a[1..] <==> x in a && x != a[0];
        assert x in b[1..] <==> x in b && x != b[0];
      }
      AscendingIsUnique(a[1..], b[1..]);
    }
  }

  /** The order in which the handler is called for a message published to `q`. */
  ghost function Targets(rx: Engine, s: NodeState, params: PublishParams): seq<nat> {
    if params.queueName in s.queues
    then Ascending(TargetSet(rx, ListenersOf(s, params.queueName), params.tag))
    else []
  }

  /** Delivery to `q` ends in an exception. */
  ghost predicate DeliveryThrows(rx: Engine, s: NodeState, params: PublishParams) {
    params.queueName in s.queues && AnyBad(rx, ListenersOf(s, params.queueName))
  }

  // ---------------------------------------------------------------- structure

  /** Queues are filed under their names with distinct ids below the counter, listeners under their queues. */
  ghost predicate Filed(s: NodeState) {
    && (forall q :: q in s.queues ==> s.queues[q].name == q && s.queues[q].queueId < s.nextQueueId)
    && (forall q, r :: q in s.queues && r in s.queues && q != r ==> s.queues[q].queueId != s.queues[r].queueId)
    && (forall q, id :: q in s.subs && id in s.subs[q] ==> s.subs[q][id].settings.queueName == q)
  }

  ghost predicate Structured(s: NodeState) {
    Filed(s) && forall q :: q in s.queues ==> q in s.subs
  }
}
