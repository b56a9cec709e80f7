/** The worker's memory of aborts that overtook their request: abortedBeforeStart in
    src/worker/index.ts. */
module EarlyAborts {
  import opened Protocol

  /** A JavaScript Set keeps its elements in insertion order. */
  class AbortedBeforeStart {
    var ids: seq<Id>

    constructor ()
      ensures ids == []
    {
      ids := [];
    }

    /** rememberAbort: add, then drop the oldest until the limit holds. */
    method RememberAbort(id: Id)
      modifies this
      ensures ids == AddEarly(old(ids), id)
    {
      if id !in ids { ids := ids + [id]; }
      ghost var more := ids;
      while |ids| > MAX_EARLY_ABORTS
        invariant |ids| <= |more| && ids == more[|more| - |ids|..]
        invariant |more| > MAX_EARLY_ABORTS ==> |ids| >= MAX_EARLY_ABORTS
        invariant |more| <= MAX_EARLY_ABORTS ==> ids == more
      {
        ids := ids[1..];
      }
    }

    /** takeEarlyAbort, and the finally of a request: the id is forgotten. */
    method TakeEarlyAbort(id: Id) returns (was: bool)
      modifies this
      ensures was == (id in old(ids)) && ids == Remove(old(ids), id)
    {
      was := id in ids;
      ids := Remove(ids, id);
    }
  }

  /** rememberAbort for one id after another. */
  function AddAll(early: seq<Id>, ids: seq<Id>): seq<Id> {
    if ids == [] then early else AddEarly(AddAll(early, ids[..|ids| - 1]), ids[|ids| - 1])
  }

  function Newest(ids: seq<Id>): seq<Id> {
    if |ids| > MAX_EARLY_ABORTS then ids[|ids| - MAX_EARLY_ABORTS..] else ids
  }

  lemma {:induction false} AddAllIs(early: seq<Id>, ids: seq<Id>)
    requires |early| <= MAX_EARLY_ABORTS
    requires forall i :: 0 <= i < |ids| ==> ids[i] !in early && ids[i] !in ids[..i]
    ensures AddAll(early, ids) == Newest(early + ids)
  {
    if ids == [] {
      assert early + ids == early;
    } else {
      var n := |ids| - 1;
      var before := early + ids[..n];
      assert forall i :: 0 <= i < n ==> ids[..n][i] == ids[i] && ids[..n][..i] == ids[..i];
      AddAllIs(early, ids[..n]);
      assert early + ids == before + [ids[n]];
      assert ids[n] !in before;
      NewestMore(before, ids[n]);
    }
  }

  lemma NewestMore(ids: seq<Id>, id: Id)
    requires id !in ids
    ensures AddEarly(Newest(ids), id) == Newest(ids + [id])
  {
    assert id !in Newest(ids);
  }

  /** An abort that overtook its request is remembered exactly until 1024 others have been
      remembered after it: the bound of NoWedge is the worker's own. */
  lemma RememberedUntil(early: seq<Id>, id: Id, ids: seq<Id>)
    requires |early| <= MAX_EARLY_ABORTS && id !in early
    requires forall i :: 0 <= i < |ids| ==> ids[i] != id && ids[i] !in early && ids[i] !in ids[..i]
    ensures id in AddAll(AddEarly(early, id), ids) <==> |ids| < MAX_EARLY_ABORTS
  {
    OnlyLast(early, id);
    hide AddEarly;
    AddAllIs(AddEarly(early, id), ids);
    NewestHas(AddEarly(early, id), ids, id);
  }

  lemma NewestHas(first: seq<Id>, ids: seq<Id>, id: Id)
    requires first != [] && first[|first| - 1] == id && forall i :: 0 <= i < |first| - 1 ==> first[i] != id
    requires forall i :: 0 <= i < |ids| ==> ids[i] != id
    ensures id in Newest(first + ids) <==> |ids| < MAX_EARLY_ABORTS
  {
    var all := first + ids;
    assert all[|first| - 1] == id && forall i :: 0 <= i < |all| && i != |first| - 1 ==> all[i] != id;
    if |ids| < MAX_EARLY_ABORTS {
      var drop := if |all| > MAX_EARLY_ABORTS then |all| - MAX_EARLY_ABORTS else 0;
      assert Newest(all)[|first| - 1 - drop] == id;
    }
  }

  lemma OnlyLast(early: seq<Id>, id: Id)
    requires |early| <= MAX_EARLY_ABORTS && id !in early
    ensures var first := AddEarly(early, id);
            && 0 < |first| <= MAX_EARLY_ABORTS && first[|first| - 1] == id
            && (forall i :: 0 <= i < |first| - 1 ==> first[i] != id)
            && (forall k :: k in first ==> k in early || k == id)
  {}
}
