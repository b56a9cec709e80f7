/** The routes of one worker, binding/worker.go: begin, end, receive and die. */
module Transport {
  import opened Wrappers
  import opened Route

  /** Request ids count up from 1, and after the last uint32 begin again at 1. */
  function After(id: nat): nat { if id + 1 == ID_LIMIT then 1 else id + 1 }

  /** The id that `k` requests after this one get. */
  function Later(id: nat, k: nat): nat { if k == 0 then id else After(Later(id, k - 1)) }

  lemma {:induction false} LaterIs(id: nat, k: nat)
    requires 0 < id < ID_LIMIT && k < ID_LIMIT - 1
    ensures Later(id, k) == if id + k < ID_LIMIT then id + k else id + k - ID_LIMIT + 1
  {
    if k > 0 { LaterIs(id, k - 1); }
  }

  /** Ids come round only after every other one: of 2^32-1 requests in a row no two share an id, and
      none has the id 0. */
  lemma IdsAreDistinct(id: nat, i: nat, j: nat)
    requires 0 < id < ID_LIMIT && i < j < ID_LIMIT - 1
    ensures Later(id, i) != Later(id, j) && 0 < Later(id, j) < ID_LIMIT
  {
    hide Later;
    LaterIs(id, i);
    LaterIs(id, j);
  }

  class Worker {
    var routes: map<nat, Route>
    var nextID: nat
    var dead: Option<Error>

    /** No two requests share a route, and a dead worker has none. */
    ghost predicate Valid()
      reads this
    {
      && 0 < nextID < ID_LIMIT
      && (forall i, j :: i in routes && j in routes && routes[i] == routes[j] ==> i == j)
      && (dead.Some? ==> routes == map[])
    }

    constructor ()
      ensures Valid() && dead.None? && routes == map[] && nextID == 1
    {
      routes, nextID, dead := map[], 1, None;
    }

    /** begin: a new route under an id that is never 0, which means "no request" in the
        cancellation word. */
    method Begin() returns (result: Option<(nat, Route)>)
      requires Valid()
      modifies this
      ensures Valid() && dead == old(dead)
      ensures result.None? <==> dead.Some?
      ensures result.None? ==> routes == old(routes) && nextID == old(nextID)
      ensures match result
              case None => true
              case Some((id, r)) =>
                && fresh(r) && r.Value() == Empty() && id == old(nextID) != 0 && nextID == After(id)
                && routes == old(routes)[id := r]
    {
      if dead.Some? { return None; }
      var id := nextID;
      nextID := (nextID + 1) % ID_LIMIT;
      if nextID == 0 { nextID := 1; }
      var r := new Route();
      routes := routes[id := r];
      result := Some((id, r));
    }

    method End(id: nat)
      requires Valid()
      modifies this
      ensures Valid() && routes == old(routes) - {id} && dead == old(dead) && nextID == old(nextID)
    {
      routes := routes - {id};
    }

    /** receive: a frame goes to its request's route and to no other; a late one is dropped. */
    method Receive(id: nat, frame: FrameBytes) returns (kept: bool)
      requires Valid()
      modifies routes.Values
      ensures Valid() && kept == (id in routes)
      ensures forall k :: k in routes ==>
                routes[k].Value() ==
                  if k == id then Pushed(old(routes[k].Value()), frame).(token := true)
                  else old(routes[k].Value())
    {
      kept := id in routes;
      if kept {
        var r := routes[id];
        r.PushLocked(frame);
        r.Signal();
      }
    }

    /** The loop of die over the routes it took off the table. */
    static method FailAll(all: map<nat, Route>, e: Error)
      requires forall i, j :: i in all && j in all && all[i] == all[j] ==> i == j
      modifies all.Values
      ensures forall k :: k in all ==> all[k].Value() == FailedWith(old(all[k].Value()), e).(token := true)
    {
      var left := all.Keys;
      while left != {}
        invariant left <= all.Keys
        invariant forall k :: k in left ==> all[k].Value() == old(all[k].Value())
        invariant forall k :: k in all && k !in left ==>
                    all[k].Value() == FailedWith(old(all[k].Value()), e).(token := true)
        decreases left
      {
        var k :| k in left;
        assert all[k] in all.Values;
        all[k].FailLocked(e);
        all[k].Signal();
        left := left - {k};
      }
    }

    /** die: every outstanding request fails with this error unless it had failed before, and the
        worker keeps its first error for good. */
    method Die(e: Error)
      requires Valid()
      modifies this, routes.Values
      ensures Valid() && routes == map[] && nextID == old(nextID)
      ensures dead == if old(dead).None? then Some(e) else old(dead)
      ensures forall k :: k in old(routes) ==>
                old(routes)[k].Value() == FailedWith(old(routes[k].Value()), e).(token := true)
    {
      if dead.None? { dead := Some(e); }
      var all := routes;
      routes := map[];
      FailAll(all, e);
    }
  }
}
