/** `IQueueClient`: which local consumers are called for a message. */
module Handlers {
  import opened Basics
  import opened NodeCore

  /** A consumer object, named by a handle. */
  type Consumer = nat

  datatype Entry = Entry(consumer: Consumer, settings: SubscriptionParams)

  datatype HandlerState = HandlerState(
    ids: map<Consumer, nat>,          // the ids this client has given to consumers
    handlers: map<nat, Entry>,        // `_eventHandlers`
    index: map<Text, set<nat>>,       // `_queue2handler`
    next: nat)

  const NO_HANDLERS := HandlerState(map[], map[], map[], 0)

  function IdsFor(s: HandlerState, q: Text): set<nat> {
    if q in s.index then s.index[q] else {}
  }

  function File(s: HandlerState, id: nat, e: Entry): HandlerState {
    s.(handlers := s.handlers[id := e],
       index := s.index[e.settings.queueName := IdsFor(s, e.settings.queueName) + {id}])
  }

  /** `addHandler` of a consumer whose id field holds `carried`, `None` being the default id of a
   *  consumer that was never registered anywhere; the result is `None` for the "Reuse of the handler"
   *  exception. */
  function Register(s: HandlerState, settings: SubscriptionParams, c: Consumer, carried: Option<nat>): Option<HandlerState> {
    match carried
    case None => Some(File(s.(ids := s.ids[c := s.next], next := s.next + 1), s.next, Entry(c, settings)))
    case Some(id) => if id !in s.handlers then None else Some(File(s, id, s.handlers[id].(settings := settings)))
  }

  /** What the id field of a consumer used with this client only holds. */
  function Carried(s: HandlerState, c: Consumer): Option<nat> {
    if c in s.ids then Some(s.ids[c]) else None
  }

  /** The handler entries a message for `q` is offered to, in the order of their ids. */
  ghost function Offered(s: HandlerState, q: Text): seq<nat> {
    Ascending(IdsFor(s, q))
  }

  /** The consumers called: those whose settings accept the tag. */
  ghost function Called(rx: Engine, s: HandlerState, tag: Text, order: seq<nat>): seq<Consumer>
    requires forall id :: id in order ==> id in s.handlers
  {
    if order == [] then []
    else
      var n := |order| - 1;
      var e := s.handlers[order[n]];
      Called(rx, s, tag, order[..n]) + if TagAccepts(rx, e.settings.tag, tag) then [e.consumer] else []
  }

  // ---------------------------------------------------------------- histories

  /** A call of `addHandler` with a consumer. */
  datatype Registration = Registration(consumer: Consumer, settings: SubscriptionParams)

  ghost predicate RegisteredFor(h: seq<Registration>, q: Text, c: Consumer) {
    exists i :: 0 <= i < |h| && h[i].consumer == c && h[i].settings.queueName == q
  }

  /** The settings of the last registration of `c`, for whatever queue. */
  function LatestSettings(h: seq<Registration>, c: Consumer): Option<SubscriptionParams> {
    if h == [] then None
    else if h[|h| - 1].consumer == c then Some(h[|h| - 1].settings)
    else LatestSettings(h[..|h| - 1], c)
  }

  /** The state after a history of registrations, if none of them threw. */
  function After(h: seq<Registration>): Option<HandlerState> {
    if h == [] then Some(NO_HANDLERS)
    else
      var s := After(h[..|h| - 1]);
      var r := h[|h| - 1];
      if s.None? then None else Register(s.value, r.settings, r.consumer, Carried(s.value, r.consumer))
  }

  /** The two maps agree with the consumers' own ids. */
  ghost predicate IdsAgree(s: HandlerState) {
    && (forall c :: c in s.ids ==> s.ids[c] in s.handlers && s.handlers[s.ids[c]].consumer == c)
    && (forall id :: id in s.handlers ==> id < s.next && s.handlers[id].consumer in s.ids && s.ids[s.handlers[id].consumer] == id)
    && (forall q :: q in s.index ==> s.index[q] <= s.handlers.Keys)
  }

  /** What the maps say about consumer `c` and queue `q` is what was registered. */
  ghost predicate FollowsHistory(s: HandlerState, h: seq<Registration>, q: Text, c: Consumer) {
    && (c in s.ids <==> LatestSettings(h, c).Some?)
    && (c in s.ids && s.ids[c] in s.handlers ==> LatestSettings(h, c) == Some(s.handlers[s.ids[c]].settings))
    && (RegisteredFor(h, q, c) <==> c in s.ids && s.ids[c] in IdsFor(s, q))
  }

  lemma RegisteredAfter(h: seq<Registration>, q: Text, c: Consumer)
    requires h != []
    ensures var g, r := h[..|h| - 1], h[|h| - 1];
            RegisteredFor(h, q, c) <==> RegisteredFor(g, q, c) || (r.consumer == c && r.settings.queueName == q)
  {
    var g := h[..|h| - 1];
    if i :| 0 <= i < |h| && h[i].consumer == c && h[i].settings.queueName == q {
      assert i < |g| ==> g[i] == h[i];
    }
    if i :| 0 <= i < |g| && g[i].consumer == c && g[i].settings.queueName == q {
      assert h[i] == g[i];
    }
  }

  /** Registrations never throw, keep the ids in agreement, and leave other consumers alone. */
  lemma AddKeepsIds(s: HandlerState, r: Registration)
    requires IdsAgree(s)
    ensures var s' := Register(s, r.settings, r.consumer, Carried(s, r.consumer)); s'.Some? && IdsAgree(s'.value)
  {
  }

  lemma {:induction false} IndexFollowsHistory(h: seq<Registration>, q: Text, c: Consumer)
    ensures After(h).Some? && IdsAgree(After(h).value) && FollowsHistory(After(h).value, h, q, c)
  {
    if h != [] {
      var g, r := h[..|h| - 1], h[|h| - 1];
      IndexFollowsHistory(g, q, c);
      AddKeepsIds(After(g).value, r);
      RegisteredAfter(h, q, c);
    }
  }

  lemma {:induction false} CalledMember(rx: Engine, s: HandlerState, tag: Text, order: seq<nat>, c: Consumer)
    requires IdsAgree(s) && forall id :: id in order ==> id in s.handlers
    ensures c in Called(rx, s, tag, order) <==>
            c in s.ids && s.ids[c] in order && TagAccepts(rx, s.handlers[s.ids[c]].settings.tag, tag)
  {
    if order != [] {
      var n := |order| - 1;
      CalledMember(rx, s, tag, order[..n], c);
      assert forall id :: id in order <==> id in order[..n] || id == order[n];
    }
  }

  lemma {:induction false} CalledOnce(rx: Engine, s: HandlerState, tag: Text, order: seq<nat>)
    requires IdsAgree(s) && StrictlyAscending(order) && forall id :: id in order ==> id in s.handlers
    ensures var called := Called(rx, s, tag, order);
            forall i, j :: 0 <= i < j < |called| ==> called[i] != called[j]
  {
    if order != [] {
      var n := |order| - 1;
      CalledOnce(rx, s, tag, order[..n]);
      var c := s.handlers[order[n]].consumer;
      CalledMember(rx, s, tag, order[..n], c);
      assert order[n] !in order[..n];
    }
  }

  /** Consumers in the order of their ids. */
  ghost predicate ById(s: HandlerState, cs: seq<Consumer>) {
    && (forall c :: c in cs ==> c in s.ids)
    && forall i, j :: 0 <= i < j < |cs| ==> cs[i] in s.ids && cs[j] in s.ids && s.ids[cs[i]] < s.ids[cs[j]]
  }

  lemma ByIdGains(s: HandlerState, cs: seq<Consumer>, c: Consumer)
    requires ById(s, cs) && c in s.ids && forall x :: x in cs ==> x in s.ids && s.ids[x] < s.ids[c]
    ensures ById(s, cs + [c])
  {
    forall i, j | 0 <= i < j < |cs + [c]| ensures s.ids[(cs + [c])[i]] < s.ids[(cs + [c])[j]] {
      assert cs[i] in cs;
    }
  }

  /** Entries are called in the order of their ids. */
  lemma {:induction false} CalledAscending(rx: Engine, s: HandlerState, tag: Text, order: seq<nat>)
    requires IdsAgree(s) && StrictlyAscending(order) && forall id :: id in order ==> id in s.handlers
    ensures ById(s, Called(rx, s, tag, order))
  {
    if order != [] {
      var n := |order| - 1;
      var head, c := Called(rx, s, tag, order[..n]), s.handlers[order[n]].consumer;
      CalledAscending(rx, s, tag, order[..n]);
      forall x | x in head ensures x in s.ids && s.ids[x] < order[n] {
        CalledMember(rx, s, tag, order[..n], x);
        var k :| 0 <= k < n && order[..n][k] == s.ids[x];
        assert order[k] < order[n];
      }
      assert order[n] in order;
      ByIdGains(s, head, c);
    }
  }

  /** When consumer `c` was first registered. */
  function First(h: seq<Registration>, c: Consumer): nat {
    if h == [] then 0
    else if LatestSettings(h[..|h| - 1], c).Some? then First(h[..|h| - 1], c)
    else |h| - 1
  }

  lemma {:induction false} FirstIsBefore(h: seq<Registration>, c: Consumer)
    requires LatestSettings(h, c).Some?
    ensures First(h, c) < |h|
  {
    if LatestSettings(h[..|h| - 1], c).Some? {
      FirstIsBefore(h[..|h| - 1], c);
    }
  }

  /** Ids are given out in the order of first registration. */
  lemma {:induction false} IdsFollowFirst(h: seq<Registration>, c: Consumer, d: Consumer)
    requires LatestSettings(h, c).Some? && LatestSettings(h, d).Some? && c != d
    ensures After(h).Some? && c in After(h).value.ids && d in After(h).value.ids
    ensures After(h).value.ids[c] < After(h).value.ids[d] <==> First(h, c) < First(h, d)
  {
    IndexFollowsHistory(h, [], c);
    IndexFollowsHistory(h, [], d);
    var g := h[..|h| - 1];
    IndexFollowsHistory(g, [], c);
    IndexFollowsHistory(g, [], d);
    if LatestSettings(g, c).Some? && LatestSettings(g, d).Some? {
      IdsFollowFirst(g, c, d);
    } else if LatestSettings(g, c).Some? {
      FirstIsBefore(g, c);
    } else {
      FirstIsBefore(g, d);
    }
  }

  /** Over any history of registrations, a message calls exactly once each consumer ever registered for its
   *  queue whose most recent settings have no pattern, or one that compiles and matches the tag; it calls
   *  them in the order of their first registrations; and every entry it looks up exists. */
  lemma CallsFollowRegistrations(rx: Engine, h: seq<Registration>, info: PublishParams)
    ensures After(h).Some? && forall id :: id in Offered(After(h).value, info.queueName) ==> id in After(h).value.handlers
    ensures var called := Called(rx, After(h).value, info.tag, Offered(After(h).value, info.queueName));
            && (forall i, j :: 0 <= i < j < |called| ==> called[i] != called[j] && First(h, called[i]) < First(h, called[j]))
            && forall c :: c in called <==> RegisteredFor(h, info.queueName, c) && Wants(rx, LatestSettings(h, c), info.tag)
  {
    IndexFollowsHistory(h, info.queueName, 0);
    var s := After(h).value;
    var order := Offered(s, info.queueName);
    CalledOnce(rx, s, info.tag, order);
    CalledAscending(rx, s, info.tag, order);
    forall c: Consumer
      ensures c in Called(rx, s, info.tag, order) <==> RegisteredFor(h, info.queueName, c) && Wants(rx, LatestSettings(h, c), info.tag)
    {
      IndexFollowsHistory(h, info.queueName, c);
      CalledMember(rx, s, info.tag, order, c);
    }
    CalledByFirst(rx, h, info.tag, order);
  }

  lemma CalledByFirst(rx: Engine, h: seq<Registration>, tag: Text, order: seq<nat>)
    requires After(h).Some? && IdsAgree(After(h).value) && StrictlyAscending(order) && forall id :: id in order ==> id in After(h).value.handlers
    ensures var called := Called(rx, After(h).value, tag, order);
            forall i, j :: 0 <= i < j < |called| ==> First(h, called[i]) < First(h, called[j])
  {
    var called := Called(rx, After(h).value, tag, order);
    CalledAscending(rx, After(h).value, tag, order);
    forall i, j | 0 <= i < j < |called| ensures First(h, called[i]) < First(h, called[j]) {
      assert called[i] in called && called[j] in called;
      assert After(h).value.ids[called[i]] < After(h).value.ids[called[j]];
      IndexFollowsHistory(h, [], called[i]);
      IndexFollowsHistory(h, [], called[j]);
      IdsFollowFirst(h, called[i], called[j]);
    }
  }

  /** The settings have no pattern, or one that compiles and matches. */
  ghost predicate Wants(rx: Engine, settings: Option<SubscriptionParams>, tag: Text) {
    settings.Some? && (settings.value.tag == [] || (rx.valid(settings.value.tag) && rx.matches(settings.value.tag, tag)))
  }

  /** Consumer `c` is filed for its queue with exactly these settings. */
  ghost predicate Callable(s: HandlerState, c: Consumer, settings: SubscriptionParams) {
    exists id :: id in s.handlers && s.handlers[id] == Entry(c, settings) && id in IdsFor(s, settings.queueName)
  }

  /** Every entry of another consumer is as before. */
  ghost predicate OthersKept(s: HandlerState, s': HandlerState, c: Consumer) {
    forall id :: id in s.handlers && s.handlers[id].consumer != c ==> id in s'.handlers && s'.handlers[id] == s.handlers[id]
  }

  /** Registration of a consumer, whatever id another client has put in its id field (the field is
   *  written once, so a consumer known here carries the id it got here): it throws exactly when the id
   *  is set and unknown here; and it files the consumer and leaves the others alone exactly when the id
   *  is unset or is the consumer's own. */
  lemma RegistrationIsSafeIff(s: HandlerState, settings: SubscriptionParams, c: Consumer, carried: Option<nat>)
    requires IdsAgree(s) && (c in s.ids ==> carried == Some(s.ids[c]))
    ensures var r := Register(s, settings, c, carried);
            && (r.None? <==> carried.Some? && carried.value !in s.handlers)
            && (r.Some? ==>
                  (OthersKept(s, r.value, c) && Callable(r.value, c, settings) <==>
                   carried.None? || s.handlers[carried.value].consumer == c))
  {
    var r := Register(s, settings, c, carried);
    if r.Some? {
      var id := if carried.None? then s.next else carried.value;
      assert id in r.value.handlers && id in IdsFor(r.value, settings.queueName);
      if carried.None? || s.handlers[id].consumer == c {
        assert r.value.handlers[id] == Entry(c, settings);
      } else {
        assert forall x :: x in r.value.handlers ==> r.value.handlers[x].consumer != c;
      }
    }
  }

  /** A registration of a consumer with whatever its id field holds. */
  datatype Attempt = Attempt(consumer: Consumer, settings: SubscriptionParams, carried: Option<nat>)

  /** The maps after any attempts; one that throws changes nothing. */
  function AfterAttempts(h: seq<Attempt>): HandlerState {
    if h == [] then NO_HANDLERS
    else
      var s, a := AfterAttempts(h[..|h| - 1]), h[|h| - 1];
      var r := Register(s, a.settings, a.consumer, a.carried);
      if r.Some? then r.value else s
  }

  /** A consumer that got its id here carries that id ever after. */
  ghost predicate FieldsStay(h: seq<Attempt>) {
    h != [] ==>
      var s, a := AfterAttempts(h[..|h| - 1]), h[|h| - 1];
      FieldsStay(h[..|h| - 1]) && (a.consumer in s.ids ==> a.carried == Some(s.ids[a.consumer]))
  }

  lemma RegisterKeepsIds(s: HandlerState, settings: SubscriptionParams, c: Consumer, carried: Option<nat>)
    requires IdsAgree(s) && (c in s.ids ==> carried == Some(s.ids[c]))
    ensures var r := Register(s, settings, c, carried); r.Some? ==> IdsAgree(r.value)
  {
  }

  /** The maps agree after any registrations, foreign consumers included, so `RegistrationIsSafeIff`
   *  applies to each. */
  lemma {:induction false} AttemptsKeepIds(h: seq<Attempt>)
    requires FieldsStay(h)
    ensures IdsAgree(AfterAttempts(h))
  {
    if h != [] {
      AttemptsKeepIds(h[..|h| - 1]);
      RegisterKeepsIds(AfterAttempts(h[..|h| - 1]), h[|h| - 1].settings, h[|h| - 1].consumer, h[|h| - 1].carried);
    }
  }

  /** From the start: consumer 1 registers for queue `[7]`; then consumer 2, to which another client gave
   *  id 0, registers for queue `[8]`. It does not throw; consumer 2 is never called, consumer 1 is called
   *  for queue `[8]`, and its own settings are gone. */
  lemma ForeignConsumerHijacks(rx: Engine)
    ensures var s := After([Registration(1, SubscriptionParams([7], []))]);
            s.Some? && IdsAgree(s.value) &&
            var r := Register(s.value, SubscriptionParams([8], []), 2, Some(0));
            && r.Some? && r.value.handlers == map[0 := Entry(1, SubscriptionParams([8], []))]
            && IdsFor(r.value, [7]) == {0} && IdsFor(r.value, [8]) == {0}
            && Called(rx, r.value, [], [0]) == [1]
            && !OthersKept(s.value, r.value, 2) && !Callable(r.value, 2, SubscriptionParams([8], []))
  {
    var h := [Registration(1, SubscriptionParams([7], []))];
    assert h[..0] == [];
    var s := After(h).value;
    assert s.handlers == map[0 := Entry(1, SubscriptionParams([7], []))];
    RegistrationIsSafeIff(s, SubscriptionParams([8], []), 2, Some(0));
    var r := Register(s, SubscriptionParams([8], []), 2, Some(0)).value;
    assert r.handlers == map[0 := Entry(1, SubscriptionParams([8], []))];
    assert 0 in s.handlers && 0 in r.handlers && s.handlers[0] != r.handlers[0];
    assert [0][..0] == [];
  }
}

/** The class, proved against the functions of `Handlers`. */
module QueueClient {
  import opened Basics
  import opened NodeCore
  import opened Handlers
  import Broker
  import ClientCore

  class IQueueClient {
    const reCache: Broker.ReCache
    var consumerIds: map<Consumer, nat>
    var eventHandlers: map<nat, Entry>
    var queue2handler: map<Text, set<nat>>
    var nextConsumersId: nat

    ghost function State(): HandlerState
      reads this
    {
      HandlerState(consumerIds, eventHandlers, queue2handler, nextConsumersId)
    }

    constructor (cache: Broker.ReCache)
      ensures State() == NO_HANDLERS && reCache == cache
    {
      reCache := cache;
      consumerIds, eventHandlers, queue2handler, nextConsumersId := map[], map[], map[], 0;
    }

    /** `addHandler`: `carried` is the consumer's id field before the call, `id` after it. */
    method AddHandler(settings: SubscriptionParams, handler: Option<Consumer>, carried: Option<nat>)
      returns (id: Option<nat>, threw: bool)
      modifies this
      ensures handler.None? ==> State() == old(State()) && id == carried && !threw
      ensures handler.Some? ==>
                var r := Register(old(State()), settings, handler.value, carried);
                && threw == r.None? && State() == (if threw then old(State()) else r.value)
                && id == if carried.None? then Some(old(nextConsumersId)) else carried
    {
      id, threw := carried, false;
      if handler.Some? {
        var c, q := handler.value, settings.queueName;
        if id.Some? {
          if id.value !in eventHandlers {
            threw := true;
            return;
          }
          eventHandlers := eventHandlers[id.value := eventHandlers[id.value].(settings := settings)];
        } else {
          id := Some(nextConsumersId);
          consumerIds := consumerIds[c := id.value];
          nextConsumersId := nextConsumersId + 1;
          eventHandlers := eventHandlers[id.value := Entry(c, settings)];
        }
        var filed := if q in queue2handler then queue2handler[q] else {};
        queue2handler := queue2handler[q := filed + {id.value}];
      }
    }

    /** Offering a message to handler entries in turn; it ends early where a pattern does not compile. */
    method Offer(order: seq<nat>, tag: Text) returns (called: seq<Consumer>, threw: bool)
      requires reCache.Valid() && forall id :: id in order ==> id in eventHandlers
      modifies reCache
      ensures reCache.Valid()
      ensures threw <==> Readable(reCache.rx, State(), order) < |order|
      ensures called == Called(reCache.rx, State(), tag, order[..Readable(reCache.rx, State(), order)])
    {
      called, threw := [], false;
      var i := 0;
      while i < |order|
        invariant i <= |order| && reCache.Valid()
        invariant forall j :: 0 <= j < i ==> !Unreadable(reCache.rx, eventHandlers[order[j]])
        invariant called == Called(reCache.rx, State(), tag, order[..i])
      {
        var es := eventHandlers[order[i]];
        var accepted := reCache.CheckTag(es.settings.tag, tag);
        if accepted.None? {
          ReadableIs(reCache.rx, State(), order, i);
          return called, true;
        }
        assert order[..i + 1][..i] == order[..i];
        if accepted.value {
          called := called + [es.consumer];
        }
        i := i + 1;
      }
      ReadableIs(reCache.rx, State(), order, i);
    }

    /** `callConsumer`: the consumers called are those due among the entries before the first one whose
     *  pattern does not compile, and it throws exactly when there is such an entry. */
    method CallConsumer(info: PublishParams) returns (called: seq<Consumer>, threw: bool)
      requires reCache.Valid() && IdsAgree(State())
      modifies reCache
      ensures reCache.Valid()
      ensures var order := Offered(State(), info.queueName);
              var n := Readable(reCache.rx, State(), order);
              && (threw <==> n < |order|)
              && called == Called(reCache.rx, State(), info.tag, order[..n])
    {
      var order := Broker.SortedIds(if info.queueName in queue2handler then queue2handler[info.queueName] else {});
      assert order == Offered(State(), info.queueName);
      called, threw := Offer(order, info.tag);
      assert order == Offered(State(), info.queueName);
    }
  }

  predicate Unreadable(rx: Engine, e: Entry) {
    e.settings.tag != [] && !rx.valid(e.settings.tag)
  }

  /** How many entries of `order` come before the first one whose pattern does not compile. */
  function Readable(rx: Engine, s: HandlerState, order: seq<nat>): (n: nat)
    requires forall id :: id in order ==> id in s.handlers
    ensures n <= |order|
  {
    if order == [] || Unreadable(rx, s.handlers[order[0]]) then 0 else 1 + Readable(rx, s, order[1..])
  }

  lemma {:induction false} ReadableIs(rx: Engine, s: HandlerState, order: seq<nat>, n: nat)
    requires forall id :: id in order ==> id in s.handlers
    requires n <= |order| && forall j :: 0 <= j < n ==> !Unreadable(rx, s.handlers[order[j]])
    requires n < |order| ==> Unreadable(rx, s.handlers[order[n]])
    ensures Readable(rx, s, order) == n
  {
    if n > 0 {
      ReadableIs(rx, s, order[1..], n - 1);
    }
  }

  /** `Client::subscribe` up to the wait for its answer: a registration that throws numbers, pools and
   *  sends nothing. */
  method Subscribe(client: ClientCore.Client, handlers: IQueueClient, settings: SubscriptionParams,
                   handler: Option<Consumer>, carried: Option<nat>)
    returns (id: Option<nat>, msgId: Option<nat>)
    modifies client, client.messagePool, handlers
    ensures msgId.None? <==> handler.Some? && Register(old(handlers.State()), settings, handler.value, carried).None?
    ensures msgId.None? ==>
              && client.State() == old(client.State()) && handlers.State() == old(handlers.State())
              && client.sent == old(client.sent) && id == carried
    ensures msgId.Some? ==>
              && msgId.value == old(client.nextMessageId)
              && client.State() == ClientCore.Enroll(old(client.State()), ClientCore.Subscribe(settings))
              && client.sent == (if client.connected then old(client.sent) + [ClientCore.Req(msgId.value, ClientCore.Subscribe(settings))]
                                 else old(client.sent))
              && (handler.None? ==> handlers.State() == old(handlers.State()))
              && (handler.Some? ==> Some(handlers.State()) == Register(old(handlers.State()), settings, handler.value, carried))
    ensures client.connected == old(client.connected) && client.consumed == old(client.consumed)
  {
    var threw;
    msgId := None;
    id, threw := handlers.AddHandler(settings, handler, carried);
    if !threw {
      var n := client.Call(ClientCore.Subscribe(settings));
      msgId := Some(n);
    }
  }
}
