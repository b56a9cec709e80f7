/** The statement cache of one database: src/worker/session.ts. */
module Session {
  import opened Wrappers

  const STATEMENT_CACHE_LIMIT := 64

  type Sql = string
  type Handle = nat

  datatype Stmt = Stmt(handle: Handle, sql: Sql, cacheable: bool)

  /** A JavaScript Map from SQL to statement: its entries, and the order they were set in. */
  datatype Cache = Cache(stmts: map<Sql, Stmt>, order: seq<Sql>)

  const EMPTY_CACHE := Cache(map[], [])

  /** What SQLite makes of a text: an error; only white space and comments; one statement, with
      nothing or only white space and comments after it; a second statement after the first;
      a tail that does not compile. */
  datatype Compiled = CompileError | NoStatement | OneStatement(whole: bool) | TwoStatements | TailError

  // ---- The Map -----------------------------------------------------------------

  function Without(order: seq<Sql>, sql: Sql): seq<Sql> {
    if order == [] then []
    else (if order[0] == sql then [] else [order[0]]) + Without(order[1..], sql)
  }

  function Delete(c: Cache, sql: Sql): Cache { Cache(c.stmts - {sql}, Without(c.order, sql)) }

  function Insert(c: Cache, stmt: Stmt): Cache
    requires stmt.sql !in c.stmts
  {
    Cache(c.stmts[stmt.sql := stmt], c.order + [stmt.sql])
  }

  ghost predicate MapInv(c: Cache) {
    && NoDup(c.order)
    && (forall q :: q in c.order <==> q in c.stmts)
    && (forall q :: q in c.stmts ==> c.stmts[q].sql == q && c.stmts[q].cacheable)
  }

  /** The cache refines a bounded sequence of distinct texts, each with the one statement
      compiled from the whole of it. */
  ghost predicate CacheInv(c: Cache) {
    MapInv(c) && |c.order| <= STATEMENT_CACHE_LIMIT
  }

  lemma {:induction false} WithoutHas(order: seq<Sql>, sql: Sql)
    requires NoDup(order)
    ensures NoDup(Without(order, sql))
    ensures forall q :: q in Without(order, sql) <==> q in order && q != sql
    ensures |Without(order, sql)| == |order| - (if sql in order then 1 else 0)
  {
    if order != [] {
      WithoutHas(order[1..], sql);
      assert order == [order[0]] + order[1..];
      assert order[0] !in order[1..];
    }
  }

  lemma {:induction false} WithoutFirst(order: seq<Sql>)
    requires order != [] && NoDup(order)
    ensures Without(order, order[0]) == order[1..]
  {
    WithoutMissing(order[1..], order[0]);
  }

  lemma {:induction false} WithoutMissing(order: seq<Sql>, sql: Sql)
    requires sql !in order
    ensures Without(order, sql) == order
  {
    if order != [] { WithoutMissing(order[1..], sql); }
  }

  lemma DeleteKeeps(c: Cache, sql: Sql)
    requires MapInv(c)
    ensures MapInv(Delete(c, sql)) && |Delete(c, sql).order| <= |c.order|
  {
    WithoutHas(c.order, sql);
  }

  // ---- Session -------------------------------------------------------------------

  /** The outcome of prepareOne: the statement or an error, and the handles finalised and lost
      on the way.  A tail probe that throws loses the first statement's handle. */
  datatype Prepared = Prepared(cache: Cache, stmt: Option<Stmt>, used: nat, finalised: seq<Handle>, lost: seq<Handle>)

  /** prepareOne when SQLite hands out the handles `next`, `next + 1`, ... */
  function PrepareOne(c: Cache, sql: Sql, compiled: Compiled, next: Handle): Prepared {
    if sql in c.stmts then Prepared(Delete(c, sql), Some(c.stmts[sql]), 0, [], [])
    else match compiled
      case CompileError => Prepared(c, None, 0, [], [])
      case NoStatement => Prepared(c, None, 0, [], [])
      case OneStatement(whole) => Prepared(c, Some(Stmt(next, sql, whole)), 1, [], [])
      case TwoStatements => Prepared(c, None, 2, [next + 1, next], [])
      case TailError => Prepared(c, None, 1, [], [next])
  }

  /** Drop the oldest entries until the limit holds. */
  function Evict(c: Cache): (Cache, seq<Handle>)
    requires MapInv(c)
    decreases |c.order|
  {
    if |c.order| <= STATEMENT_CACHE_LIMIT then (c, [])
    else
      DeleteKeeps(c, c.order[0]);
      WithoutHas(c.order, c.order[0]);
      var (d, victims) := Evict(Delete(c, c.order[0]));
      (d, [c.stmts[c.order[0]].handle] + victims)
  }

  lemma EvictOnce(c: Cache)
    requires MapInv(c) && |c.order| > STATEMENT_CACHE_LIMIT
    ensures c.order[0] in c.stmts
    ensures var d := Delete(c, c.order[0]);
            && MapInv(d) && |d.order| < |c.order|
            && Evict(c) == (Evict(d).0, [c.stmts[c.order[0]].handle] + Evict(d).1)
  {
    DeleteKeeps(c, c.order[0]);
    WithoutHas(c.order, c.order[0]);
    assert c.order[0] in c.order;
  }

  lemma InsertKeeps(c: Cache, stmt: Stmt)
    requires MapInv(c) && stmt.sql !in c.stmts && stmt.cacheable
    ensures MapInv(Insert(c, stmt))
  {}

  function Release(c: Cache, closed: bool, stmt: Stmt): (Cache, seq<Handle>)
    requires MapInv(c)
  {
    if !stmt.cacheable || closed || stmt.sql in c.stmts then (c, [stmt.handle])
    else InsertKeeps(c, stmt); Evict(Insert(c, stmt))
  }

  function Discard(c: Cache, stmt: Stmt): Cache {
    if stmt.sql in c.stmts && c.stmts[stmt.sql] == stmt then Delete(c, stmt.sql) else c
  }

  function HandlesOf(c: Cache, order: seq<Sql>): seq<Handle>
    requires forall q :: q in order ==> q in c.stmts
  {
    seq(|order|, i requires 0 <= i < |order| => c.stmts[order[i]].handle)
  }

  /** The cache refines a bounded sequence: a released statement goes to the end, and when the
      bound would be passed exactly the oldest is dropped and finalised. */
  lemma ReleaseRefines(c: Cache, stmt: Stmt)
    requires CacheInv(c)
    ensures var (d, fin) := Release(c, false, stmt);
            && CacheInv(d)
            && (if !stmt.cacheable || stmt.sql in c.stmts then d == c && fin == [stmt.handle]
                else if |c.order| < STATEMENT_CACHE_LIMIT then
                  d == Cache(c.stmts[stmt.sql := stmt], c.order + [stmt.sql]) && fin == []
                else
                  d == Cache(c.stmts[stmt.sql := stmt] - {c.order[0]}, c.order[1..] + [stmt.sql]) &&
                  fin == [c.stmts[c.order[0]].handle])
  {
    if stmt.cacheable && stmt.sql !in c.stmts {
      InsertKeeps(c, stmt);
      var e := Insert(c, stmt);
      if |c.order| == STATEMENT_CACHE_LIMIT {
        DeleteKeeps(e, e.order[0]);
        WithoutFirst(e.order);
        assert e.order[1..] == c.order[1..] + [stmt.sql];
        assert Evict(Delete(e, e.order[0])) == (Delete(e, e.order[0]), []);
      }
    }
  }

  lemma PrepareKeeps(c: Cache, sql: Sql, compiled: Compiled, next: Handle)
    requires CacheInv(c)
    ensures var p := PrepareOne(c, sql, compiled, next);
            && CacheInv(p.cache) && sql !in p.cache.stmts
            && (p.stmt.Some? ==> p.stmt.value.sql == sql)
  {
    DeleteKeeps(c, sql);
  }

  /** A text prepared and released again: it is in the cache afterwards if it was before, or if it is one
      whole statement; one with anything after it is finalised, as is one that is not one statement. */
  lemma PrepareThenRelease(c: Cache, sql: Sql, compiled: Compiled, next: Handle)
    requires CacheInv(c) && forall q :: q in c.stmts ==> c.stmts[q].handle < next
    ensures var p := PrepareOne(c, sql, compiled, next);
            && MapInv(p.cache)
            && (p.stmt.Some? <==> sql in c.stmts || compiled.OneStatement?)
            && (p.stmt.Some? ==>
                  var (d, fin) := Release(p.cache, false, p.stmt.value);
                  if sql in c.stmts then sql in d.stmts && d.stmts[sql] == c.stmts[sql] && fin == [] && p.used == 0
                  else if compiled.whole then
                    sql in d.stmts && d.stmts[sql].handle == next && next !in fin + p.finalised
                  else d == c && fin == [next])
            && (p.stmt.None? ==> p.cache == c)
  {
    PrepareKeeps(c, sql, compiled, next);
    var p := PrepareOne(c, sql, compiled, next);
    if sql in c.stmts { assert sql in c.order; DeletedIsShorter(c, sql); }
    if p.stmt.Some? { ReleaseRefines(p.cache, p.stmt.value); }
    hide Release;
  }

  /** A closed session caches nothing more: what is released is finalised. */
  lemma ClosedCachesNothing(c: Cache, stmt: Stmt)
    requires MapInv(c)
    ensures Release(c, true, stmt) == (c, [stmt.handle])
  {
    hide MapInv, Evict;
  }

  lemma DeletedIsShorter(c: Cache, sql: Sql)
    requires MapInv(c) && sql in c.order
    ensures |Delete(c, sql).order| == |c.order| - 1
  {
    WithoutHas(c.order, sql);
  }

  /** The Session object, and a log of the handles it has finalised. */
  class Session {
    var stmts: map<Sql, Stmt>
    var order: seq<Sql>
    var closed: bool
    var finalised: seq<Handle>

    function Value(): Cache
      reads this
    {
      Cache(stmts, order)
    }

    constructor ()
      ensures Value() == EMPTY_CACHE && !closed && finalised == [] && CacheInv(Value())
    {
      stmts, order, closed, finalised := map[], [], false, [];
    }

    method DeleteKey(sql: Sql)
      modifies this`stmts, this`order
      ensures Value() == Delete(old(Value()), sql)
    {
      stmts := stmts - {sql};
      order := Without(order, sql);
    }

    method Prepare(sql: Sql, compiled: Compiled, next: Handle) returns (stmt: Option<Stmt>, ghost lost: seq<Handle>)
      requires CacheInv(Value())
      modifies this`stmts, this`order, this`finalised
      ensures var p := PrepareOne(old(Value()), sql, compiled, next);
              && Value() == p.cache && stmt == p.stmt && lost == p.lost
              && finalised == old(finalised) + p.finalised
      ensures CacheInv(Value())
    {
      PrepareKeeps(Value(), sql, compiled, next);
      lost := [];
      if sql in stmts {
        stmt := Some(stmts[sql]);
        DeleteKey(sql);
        return;
      }
      match compiled
      case CompileError => stmt := None;
      case NoStatement => stmt := None;
      case OneStatement(whole) => stmt := Some(Stmt(next, sql, whole));
      case TwoStatements =>
        finalised := finalised + [next + 1];
        finalised := finalised + [next];
        stmt := None;
      case TailError =>
        stmt := None;
        lost := [next];
    }

    /** The loop that keeps the cache within its limit. */
    method EvictOldest()
      requires MapInv(Value())
      modifies this`stmts, this`order, this`finalised
      ensures var (c, fin) := Evict(old(Value())); Value() == c && finalised == old(finalised) + fin
    {
      ghost var goal := Evict(Value());
      ghost var before := finalised;
      while |order| > STATEMENT_CACHE_LIMIT
        invariant MapInv(Value())
        invariant var (c, fin) := Evict(Value());
                  goal.0 == c && before + goal.1 == finalised + fin
        decreases |order|
      {
        EvictOnce(Value());
        hide MapInv, Evict;
        var oldest := order[0];
        var victim := stmts[oldest];
        DeleteKey(oldest);
        finalised := finalised + [victim.handle];
      }
    }

    method ReleaseStmt(stmt: Stmt)
      requires CacheInv(Value())
      modifies this`stmts, this`order, this`finalised
      ensures var (c, fin) := Release(old(Value()), closed, stmt);
              Value() == c && finalised == old(finalised) + fin
      ensures CacheInv(Value())
    {
      ReleaseRefines(Value(), stmt);
      if !stmt.cacheable || closed || stmt.sql in stmts {
        finalised := finalised + [stmt.handle];
        return;
      }
      InsertKeeps(Value(), stmt);
      stmts := stmts[stmt.sql := stmt];
      order := order + [stmt.sql];
      EvictOldest();
    }

    method DiscardStmt(stmt: Stmt)
      requires CacheInv(Value())
      modifies this`stmts, this`order, this`finalised
      ensures Value() == Discard(old(Value()), stmt) && finalised == old(finalised) + [stmt.handle]
      ensures CacheInv(Value())
    {
      DeleteKeeps(Value(), stmt.sql);
      if stmt.sql in stmts && stmts[stmt.sql] == stmt { DeleteKey(stmt.sql); }
      finalised := finalised + [stmt.handle];
    }

    /** close(): every cached statement is finalised, oldest first. */
    method Close()
      requires CacheInv(Value())
      modifies this
      ensures closed
      ensures Value() == if old(closed) then old(Value()) else EMPTY_CACHE
      ensures finalised == old(finalised) + if old(closed) then [] else old(HandlesOf(Value(), order))
    {
      if closed { return; }
      closed := true;
      var i := 0;
      while i < |order|
        invariant closed && 0 <= i <= |order|
        invariant stmts == old(stmts) && order == old(order)
        invariant CacheInv(Value())
        invariant finalised == old(finalised) + HandlesOf(Value(), order)[..i]
      {
        finalised := finalised + [stmts[order[i]].handle];
        i := i + 1;
      }
      assert HandlesOf(Value(), order)[..|order|] == HandlesOf(Value(), order);
      stmts, order := map[], [];
    }
  }
}
