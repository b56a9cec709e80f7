/** dispatch in src/worker/index.ts: one promise chain for each key.  A request is chained
    after the promise its key's entry names, and an entry is deleted when the promise it
    names settles. */
module Chains {
  import opened Wrappers

  type Id = nat
  type Key = nat

  datatype Status = Waiting | Active | Settled

  /** A dispatched request: the promise it was chained after, and its place in arrival order. */
  datatype Link = Link(key: Key, prev: Option<Id>, status: Status, at: nat)

  datatype State = State(tail: map<Key, Id>, links: map<Id, Link>, arrivals: nat)

  function Get(m: map<Key, Id>, k: Key): Option<Id> { if k in m then Some(m[k]) else None }

  function Dispatch(c: State, id: Id, key: Key): State {
    State(c.tail[key := id], c.links[id := Link(key, Get(c.tail, key), Waiting, c.arrivals)], c.arrivals + 1)
  }

  /** The promise a request waits for has settled. */
  predicate CanStart(c: State, id: Id) {
    && id in c.links && c.links[id].status.Waiting?
    && match c.links[id].prev
       case None => true
       case Some(p) => p in c.links && c.links[p].status.Settled?
  }

  function Start(c: State, id: Id): State
    requires id in c.links
  {
    c.(links := c.links[id := c.links[id].(status := Active)])
  }

  /** The finally of a chain link. */
  function Settle(c: State, id: Id): State
    requires id in c.links
  {
    var key := c.links[id].key;
    State(if Get(c.tail, key) == Some(id) then c.tail - {key} else c.tail,
          c.links[id := c.links[id].(status := Settled)], c.arrivals)
  }

  /** `a` arrived before `b` on the same chain. */
  ghost predicate Before(c: State, a: Id, b: Id) {
    a in c.links && b in c.links && c.links[a].key == c.links[b].key && c.links[a].at < c.links[b].at
  }

  ghost predicate PlaceInv(c: State) {
    && (forall a :: a in c.links ==> c.links[a].at < c.arrivals)
    && (forall a, b :: a in c.links && b in c.links && c.links[a].at == c.links[b].at ==> a == b)
  }

  /** Whatever has started had everything before it on its chain settled. */
  ghost predicate OrderInv(c: State) {
    forall a, b :: Before(c, a, b) && !c.links[b].status.Waiting? ==> c.links[a].status.Settled?
  }

  /** A request that waits for nothing has nothing outstanding before it. */
  ghost predicate FirstInv(c: State) {
    forall a, b :: Before(c, a, b) && c.links[b].prev.None? ==> c.links[a].status.Settled?
  }

  /** Any other waits for the request just before it. */
  ghost predicate PrevInv(c: State) {
    && (forall b :: b in c.links && c.links[b].prev.Some? ==> Before(c, c.links[b].prev.value, b))
    && (forall a, b :: Before(c, a, b) && c.links[b].prev.Some? ==>
          a == c.links[b].prev.value || Before(c, a, c.links[b].prev.value))
  }

  /** An entry names the last arrival, which is outstanding; without one, nothing is. */
  ghost predicate TailInv(c: State) {
    && (forall k :: k in c.tail ==>
          c.tail[k] in c.links && c.links[c.tail[k]].key == k && !c.links[c.tail[k]].status.Settled?)
    && (forall a :: a in c.links ==>
          if c.links[a].key in c.tail then c.links[a].at <= c.links[c.tail[c.links[a].key]].at
          else c.links[a].status.Settled?)
  }

  ghost predicate Inv(c: State) {
    PlaceInv(c) && OrderInv(c) && FirstInv(c) && PrevInv(c) && TailInv(c)
  }

  lemma DispatchPlaces(c: State, id: Id, key: Key)
    requires PlaceInv(c) && id !in c.links
    ensures PlaceInv(Dispatch(c, id, key))
  {}

  lemma DispatchTail(c: State, id: Id, key: Key)
    requires TailInv(c) && PlaceInv(c) && id !in c.links
    ensures TailInv(Dispatch(c, id, key))
  {}

  lemma DispatchFirst(c: State, id: Id, key: Key)
    requires FirstInv(c) && TailInv(c) && PlaceInv(c) && id !in c.links
    ensures FirstInv(Dispatch(c, id, key))
  {
    var d := Dispatch(c, id, key);
    forall a, b | Before(d, a, b) && d.links[b].prev.None? ensures d.links[a].status.Settled? {
      if b != id { assert Before(c, a, b); }
    }
  }

  lemma DispatchPrev(c: State, id: Id, key: Key)
    requires PrevInv(c) && TailInv(c) && PlaceInv(c) && id !in c.links
    ensures PrevInv(Dispatch(c, id, key))
  {
    var d := Dispatch(c, id, key);
    forall b | b in d.links && d.links[b].prev.Some? ensures Before(d, d.links[b].prev.value, b) {
      if b != id {
        assert Before(c, c.links[b].prev.value, b);
      } else {
        assert key in c.tail && d.links[c.tail[key]] == c.links[c.tail[key]];
      }
    }
    forall a, b | Before(d, a, b) && d.links[b].prev.Some?
      ensures a == d.links[b].prev.value || Before(d, a, d.links[b].prev.value)
    {
      if b != id {
        assert Before(c, a, b) && Before(c, c.links[b].prev.value, b);
        assert d.links[b] == c.links[b];
        assert a == c.links[b].prev.value || Before(c, a, c.links[b].prev.value);
      } else {
        assert key in c.tail && d.links[c.tail[key]] == c.links[c.tail[key]];
        assert a in c.links && d.links[a] == c.links[a];
        assert c.links[a].at <= c.links[c.tail[key]].at;
        assert c.links[a].at == c.links[c.tail[key]].at ==> a == c.tail[key];
        assert Get(c.tail, key) == Some(c.tail[key]) && d.links[b].prev.value == c.tail[key];
      }
    }
  }

  lemma DispatchOrder(c: State, id: Id, key: Key)
    requires OrderInv(c) && PlaceInv(c) && id !in c.links
    ensures OrderInv(Dispatch(c, id, key))
  {
    var d := Dispatch(c, id, key);
    forall a, b | Before(d, a, b) && !d.links[b].status.Waiting? ensures d.links[a].status.Settled? {
      assert Before(c, a, b);
    }
  }

  lemma DispatchKeeps(c: State, id: Id, key: Key)
    requires Inv(c) && id !in c.links
    ensures Inv(Dispatch(c, id, key))
  {
    hide PlaceInv, OrderInv, FirstInv, PrevInv, TailInv, Dispatch;
    DispatchPlaces(c, id, key);
    DispatchOrder(c, id, key);
    DispatchFirst(c, id, key);
    DispatchPrev(c, id, key);
    DispatchTail(c, id, key);
  }

  /** A request starts only when everything before it on its chain has settled. */
  lemma StartsInOrder(c: State, id: Id)
    requires Inv(c) && CanStart(c, id)
    ensures forall a :: Before(c, a, id) ==> c.links[a].status.Settled?
  {
    forall a | Before(c, a, id) ensures c.links[a].status.Settled? {
      if c.links[id].prev.Some? && a != c.links[id].prev.value {
        assert Before(c, a, c.links[id].prev.value);
      }
    }
  }

  /** A waiting request may start exactly when everything before it on its chain has settled; while
      something has not, neither has the request begun. */
  lemma StartsInTurn(c: State, id: Id)
    requires Inv(c) && id in c.links
    ensures c.links[id].status.Waiting? ==>
              (CanStart(c, id) <==> forall a :: Before(c, a, id) ==> c.links[a].status.Settled?)
    ensures (exists a :: Before(c, a, id) && !c.links[a].status.Settled?) ==> c.links[id].status.Waiting?
  {
    if CanStart(c, id) { StartsInOrder(c, id); }
    hide PlaceInv, FirstInv, TailInv;
    assert c.links[id].prev.Some? ==> Before(c, c.links[id].prev.value, id);
  }

  /** A change of one request's status. */
  function SetStatus(c: State, id: Id, status: Status): State
    requires id in c.links
  {
    c.(links := c.links[id := c.links[id].(status := status)])
  }

  lemma StatusKeepsShape(c: State, id: Id, status: Status)
    requires PlaceInv(c) && PrevInv(c) && id in c.links
    ensures PlaceInv(SetStatus(c, id, status)) && PrevInv(SetStatus(c, id, status))
    ensures forall a, b :: Before(SetStatus(c, id, status), a, b) <==> Before(c, a, b)
  {
    var d := SetStatus(c, id, status);
    forall a, b ensures Before(d, a, b) <==> Before(c, a, b) {}
    assert forall a :: a in c.links ==> d.links[a].at == c.links[a].at && d.links[a].prev == c.links[a].prev;
    hide Before, SetStatus;
    assert PlaceInv(d) && PrevInv(d);
  }

  /** Moving a request on whose predecessors have all settled keeps the order. */
  lemma StatusKeepsOrder(c: State, id: Id, status: Status)
    requires PlaceInv(c) && PrevInv(c) && OrderInv(c) && FirstInv(c) && id in c.links
    requires forall a :: Before(c, a, id) ==> c.links[a].status.Settled?
    requires !c.links[id].status.Settled? && !status.Waiting?
    ensures OrderInv(SetStatus(c, id, status)) && FirstInv(SetStatus(c, id, status))
  {
    var d := SetStatus(c, id, status);
    StatusKeepsShape(c, id, status);
    hide PlaceInv, PrevInv;
    forall a, b | Before(d, a, b)
      ensures !d.links[b].status.Waiting? ==> d.links[a].status.Settled?
      ensures d.links[b].prev.None? ==> d.links[a].status.Settled?
    {
      assert Before(c, a, b);
      if a == id { assert b != id && c.links[b].status == d.links[b].status; }
    }
  }

  lemma StartTail(c: State, id: Id)
    requires TailInv(c) && id in c.links && !c.links[id].status.Settled?
    ensures TailInv(Start(c, id))
  {}

  lemma StartKeeps(c: State, id: Id)
    requires Inv(c) && CanStart(c, id)
    ensures Inv(Start(c, id))
  {
    hide PlaceInv, OrderInv, FirstInv, PrevInv, TailInv, Before;
    StartsInOrder(c, id);
    StatusKeepsShape(c, id, Active);
    StatusKeepsOrder(c, id, Active);
    StartTail(c, id);
  }

  lemma SettleTail(c: State, id: Id)
    requires TailInv(c) && PlaceInv(c) && id in c.links
    requires forall a :: Before(c, a, id) ==> c.links[a].status.Settled?
    ensures TailInv(Settle(c, id))
  {
    var d := Settle(c, id);
    forall a | a in d.links && d.links[a].key !in d.tail ensures d.links[a].status.Settled? {
      if a != id && c.links[a].key == c.links[id].key && c.links[a].key in c.tail {
        assert Before(c, a, id);
      }
    }
  }

  lemma SettleKeeps(c: State, id: Id)
    requires Inv(c) && id in c.links && c.links[id].status.Active?
    ensures Inv(Settle(c, id))
  {
    assert forall a :: Before(c, a, id) ==> c.links[a].status.Settled? by { assert OrderInv(c); }
    hide PlaceInv, OrderInv, FirstInv, PrevInv, TailInv, Before;
    StatusKeepsShape(c, id, Settled);
    StatusKeepsOrder(c, id, Settled);
    SettleTail(c, id);
    SameLinks(SetStatus(c, id, Settled), Settle(c, id));
  }

  lemma SameLinks(c: State, d: State)
    requires PlaceInv(c) && PrevInv(c) && OrderInv(c) && FirstInv(c) && d == c.(tail := d.tail)
    ensures PlaceInv(d) && PrevInv(d) && OrderInv(d) && FirstInv(d)
  {
    forall a, b ensures Before(d, a, b) <==> Before(c, a, b) {}
    hide Before;
  }

  /** Two requests of one chain never overlap, and while one runs nothing else of its chain
      may start, whether or not the chain's entry has been deleted and made again. */
  lemma NeverOverlap(c: State, a: Id, b: Id)
    requires Inv(c) && a in c.links && b in c.links && a != b && c.links[a].key == c.links[b].key
    requires c.links[a].status.Active?
    ensures !c.links[b].status.Active? && !CanStart(c, b)
  {
    hide FirstInv, PrevInv, TailInv;
    assert Before(c, a, b) || Before(c, b, a);
    if CanStart(c, b) { StartsInOrder(c, b); }
  }

  /** The map keeps an entry exactly as long as something of its chain is outstanding. */
  lemma EntryWhileOutstanding(c: State, key: Key)
    requires Inv(c)
    ensures key in c.tail <==> exists a :: a in c.links && c.links[a].key == key && !c.links[a].status.Settled?
  {
    hide PlaceInv, OrderInv, FirstInv, PrevInv;
    if key in c.tail { assert c.tail[key] in c.links; }
  }

  /** The chains map of the worker, and the promises it points into. */
  class Dispatcher {
    var tail: map<Key, Id>
    var links: map<Id, Link>
    var arrivals: nat

    function Value(): State
      reads this
    {
      State(tail, links, arrivals)
    }

    constructor ()
      ensures Value() == State(map[], map[], 0) && Inv(Value())
    {
      tail, links, arrivals := map[], map[], 0;
    }

    method Enqueue(id: Id, key: Key)
      requires Inv(Value()) && id !in links
      modifies this
      ensures Value() == Dispatch(old(Value()), id, key) && Inv(Value())
    {
      DispatchKeeps(Value(), id, key);
      hide Inv;
      var after := if key in tail then Some(tail[key]) else None;
      links := links[id := Link(key, after, Waiting, arrivals)];
      arrivals := arrivals + 1;
      tail := tail[key := id];
    }

    method Begin(id: Id)
      requires Inv(Value()) && CanStart(Value(), id)
      modifies this
      ensures Value() == Start(old(Value()), id) && Inv(Value())
    {
      StartKeeps(Value(), id);
      hide Inv;
      links := links[id := links[id].(status := Active)];
    }

    method Finally(id: Id)
      requires Inv(Value()) && id in links && links[id].status.Active?
      modifies this
      ensures Value() == Settle(old(Value()), id) && Inv(Value())
    {
      SettleKeeps(Value(), id);
      hide Inv;
      var key := links[id].key;
      links := links[id := links[id].(status := Settled)];
      if key in tail && tail[key] == id { tail := tail - {key}; }
    }
  }
}
