/** The broker's classes, proved against the functions of `NodeCore`. */
module Broker {
  import opened Basics
  import opened NodeCore

  datatype CompiledRegex = CompiledRegex(pattern: Text)

  /** `ReCache`: compiled patterns, filled on a miss. */
  class ReCache {
    const rx: Engine
    var cache: map<Text, CompiledRegex>

    ghost predicate Valid()
      reads this
    {
      forall p :: p in cache ==> cache[p].pattern == p && rx.valid(p)
    }

    constructor (rx: Engine)
      ensures Valid() && this.rx == rx
    {
      this.rx := rx;
      cache := map[];
    }

    /** Compiling through the cache gives what compiling directly gives, and throws when that throws. */
    method Compile(p: Text) returns (r: Option<CompiledRegex>)
      requires Valid()
      modifies this
      ensures Valid()
      ensures r == if rx.valid(p) then Some(CompiledRegex(p)) else None
    {
      if p in cache {
        r := Some(cache[p]);
      } else if !rx.valid(p) {
        r := None;
      } else {
        cache := cache[p := CompiledRegex(p)];
        r := Some(CompiledRegex(p));
      }
    }

    /** `SubscriptionParams::checkTag`; `None` when compiling the pattern throws. */
    method CheckTag(pattern: Text, tag: Text) returns (r: Option<bool>)
      requires Valid()
      modifies this
      ensures Valid()
      ensures r.None? <==> pattern != [] && !rx.valid(pattern)
      ensures r.Some? ==> r.value == (pattern == [] || rx.matches(pattern, tag))
    {
      if pattern == [] {
        r := Some(true);
      } else {
        var c := Compile(pattern);
        r := if c.None? then None else Some(rx.matches(c.value.pattern, tag));
      }
    }
  }

  class Node {
    const rx: Engine
    const reCache: ReCache
    var queues: map<Text, Queue>
    var subscriptions: map<Text, Listeners>
    var nextQueueId: nat

    ghost function State(): NodeState
      reads this
    {
      NodeState(queues, subscriptions, nextQueueId)
    }

    ghost predicate Valid()
      reads this, reCache
    {
      reCache.Valid() && reCache.rx == rx
    }

    constructor (rx: Engine)
      ensures Valid() && this.rx == rx && State() == EMPTY_NODE && fresh(reCache)
    {
      this.rx := rx;
      reCache := new ReCache(rx);
      queues, subscriptions, nextQueueId := map[], map[], 0;
    }

    method ChangeSubscription(users: set<nat>, action: Action, settings: SubscriptionParams, id: nat)
      returns (threw: bool)
      modifies this
      ensures var r := NodeCore.ChangeSubscription(old(State()), users, action, settings, id);
              threw == r.None? && State() == if threw then old(State()) else r.value
    {
      var q := settings.queueName;
      if q !in queues && action.Unsubscribe? {
        return false;
      }
      if id !in users {
        return true;
      }
      var clients: Listeners := if q in subscriptions then subscriptions[q] else map[];
      if action.Unsubscribe? {
        clients := clients - {id};
      } else if id !in clients {
        clients := clients[id := Listener(action.Create?, false, settings)];
      } else if !action.Create? {
        clients := clients[id := clients[id].(isSubscribed := true, settings := settings)];
      }
      subscriptions := subscriptions[q := clients];
      return false;
    }

    method CreateQueue(users: set<nat>, name: Text, id: nat) returns (threw: bool)
      modifies this
      ensures var r := NodeCore.CreateQueue(old(State()), users, name, id);
              threw == r.None? && State() == if threw then old(State()) else r.value
    {
      if id !in users {
        return true;
      }
      if name in queues {
        queues := queues[name := queues[name].(name := name)];
        return false;
      }
      queues := queues[name := Queue(nextQueueId, name)];
      nextQueueId := nextQueueId + 1;
      threw := ChangeSubscription(users, Create, SubscriptionParams(name, []), id);
    }

    /** One round of the erasing loop: the listeners of queue `q`. */
    method EraseFrom(q: Text, id: nat)
      requires q in subscriptions
      modifies this
      ensures State() == NodeCore.EraseFrom(old(State()), q, id)
    {
      if id in subscriptions[q] {
        subscriptions := subscriptions[q := subscriptions[q] - {id}];
        var mustBeRemoved := subscriptions[q] == map[];
        if !mustBeRemoved && SERVER_ID in subscriptions[q] {
          mustBeRemoved := !subscriptions[q][SERVER_ID].isOwner;
        }
        if mustBeRemoved {
          queues := queues - {q};
        }
      } else {
        assert subscriptions[q] - {id} == subscriptions[q];
      }
    }

    /** The erasing loop, one listener map after another, against its loop-free form. */
    method EraseClient(id: nat)
      modifies this
      ensures State() == NodeCore.EraseClient(old(State()), id)
    {
      ghost var s := State();
      var keys, todo := subscriptions.Keys, subscriptions.Keys;
      EraseInNone(s, id);
      assert keys - todo == {};
      while todo != {}
        invariant todo <= keys == s.subs.Keys && State() == EraseIn(s, id, keys - todo)
        decreases |todo|
      {
        var q :| q in todo;
        RoundAfter(s, id, keys - todo, q);
        assert keys - (todo - {q}) == (keys - todo) + {q};
        EraseFrom(q, id);
        todo := todo - {q};
      }
      assert keys - todo == keys;
      EraseInAll(s, id);
    }

    /** The delivery loop over a copied listener map: the ids the handler is called with. */
    method Deliver(copy: Listeners, order: seq<nat>, tag: Text) returns (called: seq<nat>, threw: bool)
      requires Valid()
      requires StrictlyAscending(order) && forall id :: id in order <==> id in copy
      modifies reCache
      ensures Valid()
      ensures called == Ascending(TargetSet(rx, copy, tag))
      ensures threw <==> AnyBad(rx, copy)
    {
      called := [];
      var i := 0;
      while i < |order|
        invariant i <= |order| && Valid()
        invariant forall j :: 0 <= j < i ==> !Bad(rx, copy[order[j]])
        invariant called == Visited(rx, copy, tag, order[..i])
      {
        var l := copy[order[i]];
        assert order[..i + 1] == order[..i] + [order[i]];
        if !l.isOwner || l.isSubscribed {
          var accepted := reCache.CheckTag(l.settings.tag, tag);
          if accepted.None? {
            VisitedAreTargets(rx, copy, tag, order, i);
            return called, true;
          }
          if accepted.value {
            called := called + [order[i]];
          }
        }
        i := i + 1;
      }
      VisitedAreTargets(rx, copy, tag, order, i);
      threw := false;
    }

    method Publish(params: PublishParams) returns (called: seq<nat>, threw: bool)
      requires Valid()
      modifies reCache
      ensures Valid()
      ensures called == Targets(rx, State(), params)
      ensures threw <==> DeliveryThrows(rx, State(), params)
    {
      if params.queueName !in queues {
        return [], false;
      }
      var copy := if params.queueName in subscriptions then subscriptions[params.queueName] else map[];
      var order := SortedIds(copy.Keys);
      called, threw := Deliver(copy, order, params.tag);
    }
  }

  /** The listeners of `order` that want the message, in that order. */
  ghost function Visited(rx: Engine, ls: Listeners, tag: Text, order: seq<nat>): seq<nat>
    requires forall id :: id in order ==> id in ls
  {
    if order == [] then []
    else
      var n := |order| - 1;
      Visited(rx, ls, tag, order[..n]) + if Wanted(rx, ls[order[n]], tag) then [order[n]] else []
  }

  lemma {:induction false} VisitedMember(rx: Engine, ls: Listeners, tag: Text, order: seq<nat>, id: nat)
    requires forall x :: x in order ==> x in ls
    ensures id in Visited(rx, ls, tag, order) <==> id in order && Wanted(rx, ls[id], tag)
  {
    if order != [] {
      var n := |order| - 1;
      VisitedMember(rx, ls, tag, order[..n], id);
      assert id in order <==> id in order[..n] || id == order[n];
    }
  }

  lemma {:induction false} VisitedAscends(rx: Engine, ls: Listeners, tag: Text, order: seq<nat>)
    requires StrictlyAscending(order) && forall x :: x in order ==> x in ls
    ensures StrictlyAscending(Visited(rx, ls, tag, order))
  {
    if order != [] {
      var n := |order| - 1;
      var v := Visited(rx, ls, tag, order[..n]);
      VisitedAscends(rx, ls, tag, order[..n]);
      forall y | y in v ensures y < order[n] {
        VisitedMember(rx, ls, tag, order[..n], y);
      }
      AscendingAppend(v, order[n]);
    }
  }

  /** Visiting the listeners in order, up to the first bad pattern, calls exactly the targets. */
  lemma VisitedAreTargets(rx: Engine, ls: Listeners, tag: Text, order: seq<nat>, i: nat)
    requires StrictlyAscending(order) && (forall id :: id in order <==> id in ls) && i <= |order|
    requires forall j :: 0 <= j < i ==> !Bad(rx, ls[order[j]])
    requires i < |order| ==> Bad(rx, ls[order[i]])
    ensures Visited(rx, ls, tag, order[..i]) == Ascending(TargetSet(rx, ls, tag))
    ensures AnyBad(rx, ls) <==> i < |order|
  {
    VisitedAscends(rx, ls, tag, order[..i]);
    forall id ensures id in Visited(rx, ls, tag, order[..i]) <==> id in order[..i] && Wanted(rx, ls[id], tag) {
      VisitedMember(rx, ls, tag, order[..i], id);
    }
    forall id | id in ls ensures id in order[..i] <==> NoBadUpTo(rx, ls, id) {
      var k :| 0 <= k < |order| && order[k] == id;
      assert id in order[..i] <==> k < i;
      if k < i {
        forall other | other in ls && other <= id ensures !Bad(rx, ls[other]) {
          var j :| 0 <= j < |order| && order[j] == other;
        }
      }
    }
    AscendingIsUnique(Visited(rx, ls, tag, order[..i]), Ascending(TargetSet(rx, ls, tag)));
    if AnyBad(rx, ls) {
      var id :| id in ls && Bad(rx, ls[id]);
      var k :| 0 <= k < |order| && order[k] == id;
    }
  }

  /** The iteration order of a `std::set`, or of the keys of a `std::map`. */
  method SortedIds(ids: set<nat>) returns (order: seq<nat>)
    ensures order == Ascending(ids)
  {
    order := [];
    var todo := ids;
    while todo != {}
      invariant todo <= ids && StrictlyAscending(order)
      invariant forall x :: x in ids <==> x in order || x in todo
      invariant forall x, y :: x in order && y in todo ==> x < y
      decreases |todo|
    {
      ghost var least := LeastOf(todo);
      var id :| id in todo && forall x :: x in todo ==> id <= x;
      AscendingAppend(order, id);
      order := order + [id];
      todo := todo - {id};
    }
    AscendingIsUnique(order, Ascending(ids));
  }
}
