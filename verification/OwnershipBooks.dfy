/** The rest of OwnershipInv.Inv: every step keeps the account of handles, and of slots. */
module OwnershipBooks {
  import opened Wrappers
  import opened Session
  import opened Ledger
  import opened Ownership
  import opened OwnershipInv
  import Chains

  // ---- What the effects do to the places ---------------------------------------------

  lemma AtIs(s: State)
    ensures forall p :: p in At(s) <==> InPlace(s, p)
    ensures forall p :: p in At(s) ==> At(s)[p] == HandleAt(s, p)
  {}

  /** A map with the same places and handles is the map of places. */
  lemma AtEquals(s: State, m: map<Place, Handle>)
    requires forall p :: p in m <==> InPlace(s, p)
    requires forall p :: p in m ==> m[p] == HandleAt(s, p)
    ensures At(s) == m
  {
    AtIs(s);
    hide At, InPlace, HandleAt;
  }

  lemma PutCache(s: State, db: Db, c: Cache, p: Place)
    requires db in s.dbs
    ensures var t := SetCache(s, db, c);
            if p.Cached? && p.db == db then
              (InPlace(t, p) <==> p.sql in c.stmts) && (InPlace(t, p) ==> HandleAt(t, p) == c.stmts[p.sql].handle)
            else
              (InPlace(t, p) <==> InPlace(s, p)) && (InPlace(t, p) ==> HandleAt(t, p) == HandleAt(s, p))
  {}

  lemma AtDelete(s: State, db: Db, sql: Sql)
    requires db in s.dbs
    ensures At(SetCache(s, db, Delete(s.dbs[db].cache, sql))) == At(s) - {Cached(db, sql)}
  {
    var c := Delete(s.dbs[db].cache, sql);
    AtIs(s);
    forall p: Place ensures var t := SetCache(s, db, c);
                     && (InPlace(t, p) <==> InPlace(s, p) && p != Cached(db, sql))
                     && (InPlace(t, p) ==> HandleAt(t, p) == HandleAt(s, p))
    {
      PutCache(s, db, c, p);
    }
    hide At, InPlace, HandleAt, SetCache;
    AtEquals(SetCache(s, db, c), At(s) - {Cached(db, sql)});
  }

  lemma AtInsert(s: State, db: Db, stmt: Stmt)
    requires db in s.dbs && stmt.sql !in s.dbs[db].cache.stmts
    ensures At(SetCache(s, db, Insert(s.dbs[db].cache, stmt))) == At(s)[Cached(db, stmt.sql) := stmt.handle]
  {
    var c := Insert(s.dbs[db].cache, stmt);
    AtIs(s);
    forall p: Place ensures var t := SetCache(s, db, c);
                     && (InPlace(t, p) <==> InPlace(s, p) || p == Cached(db, stmt.sql))
                     && (InPlace(t, p) ==>
                           HandleAt(t, p) == if p == Cached(db, stmt.sql) then stmt.handle else HandleAt(s, p))
    {
      PutCache(s, db, c, p);
    }
    hide At, InPlace, HandleAt, SetCache;
    AtEquals(SetCache(s, db, c), At(s)[Cached(db, stmt.sql) := stmt.handle]);
  }

  /** The places depend on the databases, the entries and the runs alone. */
  lemma AtSame(s: State, t: State)
    requires t.dbs == s.dbs && t.stmts == s.stmts && t.runs == s.runs
    ensures At(t) == At(s)
  {}

  lemma AtHold(s: State, id: Id, run: Run)
    requires id !in s.runs
    ensures At(s.(runs := s.runs[id := run])) ==
              if run.owned then At(s)[Held(id) := run.stmt.handle] else At(s)
  {
    var t := s.(runs := s.runs[id := run]);
    AtIs(s);
    hide At;
    assert forall p :: p != Held(id) ==> (InPlace(t, p) <==> InPlace(s, p));
    assert forall p :: p != Held(id) && InPlace(t, p) ==> HandleAt(t, p) == HandleAt(s, p);
    AtEquals(t, if run.owned then At(s)[Held(id) := run.stmt.handle] else At(s));
  }

  lemma AtUnhold(s: State, id: Id)
    requires id in s.runs
    ensures At(s.(runs := s.runs - {id})) == At(s) - {Held(id)}
  {
    var t := s.(runs := s.runs - {id});
    AtIs(s);
    hide At;
    assert forall p :: InPlace(t, p) <==> InPlace(s, p) && p != Held(id);
    assert forall p :: InPlace(t, p) ==> HandleAt(t, p) == HandleAt(s, p);
    hide InPlace, HandleAt;
    AtEquals(t, At(s) - {Held(id)});
  }

  lemma AtList(s: State, k: StmtId, entry: Entry)
    requires k !in s.stmts
    ensures At(s.(stmts := s.stmts[k := entry])) == At(s)[Listed(k) := entry.stmt.handle]
  {
    var t := s.(stmts := s.stmts[k := entry]);
    AtIs(s);
    hide At;
    assert forall p :: p != Listed(k) ==> (InPlace(t, p) <==> InPlace(s, p));
    assert forall p :: p != Listed(k) && InPlace(t, p) ==> HandleAt(t, p) == HandleAt(s, p);
    AtEquals(t, At(s)[Listed(k) := entry.stmt.handle]);
  }

  lemma AtUnlist(s: State, k: StmtId)
    ensures At(s.(stmts := s.stmts - {k})) == At(s) - {Listed(k)}
  {
    var t := s.(stmts := s.stmts - {k});
    AtIs(s);
    hide At;
    assert forall p :: InPlace(t, p) <==> InPlace(s, p) && p != Listed(k);
    assert forall p :: InPlace(t, p) ==> HandleAt(t, p) == HandleAt(s, p);
    hide InPlace, HandleAt;
    AtEquals(t, At(s) - {Listed(k)});
  }

  lemma {:induction false} MarkHomeIs(home: map<Handle, Db>, from: Handle, n: nat, db: Db)
    ensures var m := MarkHome(home, from, n, db);
            && (forall h :: h in m <==> h in home || from <= h < from + n)
            && (forall h :: h in m ==> m[h] == if from <= h < from + n then db else home[h])
  {
    if n > 0 { MarkHomeIs(home, from, n - 1, db); }
  }

  // ---- Compiling -----------------------------------------------------------------------

  /** The account once the statement of a prepareOne has been put at `p`. */
  function Placed(s: State, p: Place, h: Handle): Book {
    Book(At(s)[p := h], s.finalised, s.lost, s.nextHandle)
  }

  lemma PrepareBalanced(s: State, db: Db, sql: Sql, compiled: Compiled, p: Place)
    requires Balanced(View(s)) && db in s.dbs && p !in At(s)
    ensures var (t, stmt) := PrepareIn(s, db, sql, compiled);
            match stmt
            case Some(st) => Balanced(Placed(t, p, st.handle))
            case None => Balanced(View(t))
  {
    hide Balanced, At, MarkHome;
    var c := s.dbs[db].cache;
    var (t, stmt) := PrepareIn(s, db, sql, compiled);
    assert s.finalised + [] == s.finalised && s.lost + [] == s.lost;
    if sql in c.stmts {
      AtDelete(s, db, sql);
      AtSame(SetCache(s, db, Delete(c, sql)), t);
      AtIs(s);
      MoveBalanced(View(s), Cached(db, sql), p);
    } else {
      assert SetCache(s, db, c) == s;
      AtSame(s, t);
      match compiled
      case OneStatement(_) => NewBalanced(View(s), p);
      case TwoStatements => NewDeadPairBalanced(View(s));
      case TailError => NewLostBalanced(View(s));
      case _ =>
    }
  }

  // ---- Giving a statement back ---------------------------------------------------------

  /** `s` is `s0` with the statement at `p` in hand. */
  ghost predicate InHand(s0: State, s: State, p: Place, stmt: Stmt) {
    && !p.Cached? && InPlace(s0, p) && HandleAt(s0, p) == stmt.handle
    && At(s) == At(s0) - {p}
    && s == s0.(stmts := s.stmts, runs := s.runs)
    && (forall k :: k in s.stmts ==> k in s0.stmts && s.stmts[k] == s0.stmts[k])
    && (forall r :: r in s.runs ==> r in s0.runs && s.runs[r] == s0.runs[r])
  }

  lemma AtEvict(s: State, db: Db, stmt: Stmt, oldest: Sql, c: Cache)
    requires db in s.dbs && oldest in s.dbs[db].cache.stmts && stmt.sql !in s.dbs[db].cache.stmts
    requires c.stmts == s.dbs[db].cache.stmts[stmt.sql := stmt] - {oldest}
    ensures At(SetCache(s, db, c)) == At(s)[Cached(db, stmt.sql) := stmt.handle] - {Cached(db, oldest)}
  {
    AtIs(s);
    forall p: Place ensures var t := SetCache(s, db, c);
                     && (InPlace(t, p) <==> (InPlace(s, p) || p == Cached(db, stmt.sql)) && p != Cached(db, oldest))
                     && (InPlace(t, p) ==>
                           HandleAt(t, p) == if p == Cached(db, stmt.sql) then stmt.handle else HandleAt(s, p))
    {
      PutCache(s, db, c, p);
    }
    hide At, InPlace, HandleAt, SetCache;
    AtEquals(SetCache(s, db, c), At(s)[Cached(db, stmt.sql) := stmt.handle] - {Cached(db, oldest)});
  }

  lemma ReleaseBalanced(s0: State, s: State, p: Place, db: Db, stmt: Stmt)
    requires Balanced(View(s0)) && InHand(s0, s, p, stmt) && db in s.dbs && CacheInv(s.dbs[db].cache)
    ensures Balanced(View(ReleaseIn(s, db, stmt)))
  {
    var c := s.dbs[db].cache;
    var t := ReleaseIn(s, db, stmt);
    var (d, fin) := Release(c, false, stmt);
    ReleaseRefines(c, stmt);
    AtIs(s0);
    AtIs(s);
    hide Balanced, At, Release, MapInv;
    AtSame(SetCache(s, db, d), t);
    if !stmt.cacheable || stmt.sql in c.stmts {
      assert SetCache(s, db, c) == s;
      KillBalanced(View(s0), p);
    } else {
      assert Cached(db, stmt.sql) !in At(s0);
      MoveBalanced(View(s0), p, Cached(db, stmt.sql));
      if |c.order| < STATEMENT_CACHE_LIMIT {
        AtInsert(s, db, stmt);
        assert s.finalised + [] == s.finalised;
      } else {
        var oldest := c.order[0];
        assert oldest in c.stmts by { assert MapInv(c); assert oldest in c.order; }
        AtEvict(s, db, stmt, oldest, d);
        KillBalanced(Move(View(s0), p, Cached(db, stmt.sql)), Cached(db, oldest));
      }
    }
  }

  /** A statement in hand is not in the cache, so its text's entry is another's. */
  lemma DiscardBalanced(s0: State, s: State, p: Place, db: Db, stmt: Stmt)
    requires Balanced(View(s0)) && InHand(s0, s, p, stmt) && db in s.dbs
    ensures Balanced(View(DiscardIn(s, db, stmt)))
  {
    var c := s.dbs[db].cache;
    var t := DiscardIn(s, db, stmt);
    AtIs(s0);
    assert stmt.sql in c.stmts && c.stmts[stmt.sql] == stmt ==> Cached(db, stmt.sql) in At(s0);
    assert Discard(c, stmt) == c;
    hide Balanced, At, Discard;
    assert SetCache(s, db, c) == s;
    AtSame(s, t);
    KillBalanced(View(s0), p);
  }

  /** A cache only ever gains the statement given back. */
  ghost predicate Gains(c: Cache, d: Cache, stmt: Stmt) {
    forall q :: q in d.stmts ==> (q in c.stmts && d.stmts[q] == c.stmts[q]) || (q == stmt.sql && d.stmts[q] == stmt)
  }

  lemma GiveBackGains(c: Cache, stmt: Stmt)
    requires CacheInv(c)
    ensures Gains(c, Release(c, false, stmt).0, stmt) && Gains(c, Discard(c, stmt), stmt)
  {
    ReleaseRefines(c, stmt);
    hide MapInv, Release;
  }

  lemma InHandHome(s0: State, s: State, p: Place, stmt: Stmt)
    requires HomeInv(s0) && InHand(s0, s, p, stmt)
    ensures HomeInv(s) && stmt.handle in s.home && s.home[stmt.handle] == DbOf(s0, p)
  {
    hide At;
    forall q | InPlace(s, q)
      ensures HandleAt(s, q) in s.home && s.home[HandleAt(s, q)] == DbOf(s, q)
    {
      assert InPlace(s0, q) && HandleAt(s0, q) == HandleAt(s, q);
    }
  }

  lemma GainHome(s: State, t: State, db: Db, stmt: Stmt, c: Cache)
    requires HomeInv(s) && db in s.dbs && Gains(s.dbs[db].cache, c, stmt)
    requires stmt.handle in s.home && s.home[stmt.handle] == db
    requires t == SetCache(s, db, c).(finalised := t.finalised)
    ensures HomeInv(t)
  {
    forall q | InPlace(t, q)
      ensures HandleAt(t, q) in t.home && t.home[HandleAt(t, q)] == DbOf(t, q)
    {
      if InPlace(s, q) { assert HandleAt(s, q) in s.home; }
    }
  }

  lemma GiveBackHome(s0: State, s: State, p: Place, db: Db, stmt: Stmt)
    requires HomeInv(s0) && InHand(s0, s, p, stmt) && DbOf(s0, p) == db && db in s.dbs && CacheInv(s.dbs[db].cache)
    ensures HomeInv(DiscardIn(s, db, stmt)) && HomeInv(ReleaseIn(s, db, stmt))
  {
    InHandHome(s0, s, p, stmt);
    GiveBackGains(s.dbs[db].cache, stmt);
    hide HomeInv, Gains, Release, Discard, InHand, InPlace;
    GainHome(s, ReleaseIn(s, db, stmt), db, stmt, Release(s.dbs[db].cache, false, stmt).0);
    GainHome(s, DiscardIn(s, db, stmt), db, stmt, Discard(s.dbs[db].cache, stmt));
  }

  /** Compiling puts nothing at a place; a hit takes a statement from one. */
  lemma PreparePlaces(s: State, db: Db, sql: Sql, compiled: Compiled)
    requires db in s.dbs
    ensures var (t, stmt) := PrepareIn(s, db, sql, compiled);
            && (forall q :: InPlace(t, q) ==>
                  InPlace(s, q) && HandleAt(t, q) == HandleAt(s, q) && DbOf(t, q) == DbOf(s, q))
            && (stmt.Some? ==>
                  || stmt.value.handle == s.nextHandle < t.nextHandle
                  || (InPlace(s, Cached(db, sql)) && HandleAt(s, Cached(db, sql)) == stmt.value.handle))
  {
    hide MarkHome;
  }

  lemma PrepareHome(s: State, db: Db, sql: Sql, compiled: Compiled)
    requires Books(s) && db in s.dbs
    ensures var (t, stmt) := PrepareIn(s, db, sql, compiled);
            HomeInv(t) && (stmt.Some? ==> stmt.value.handle in t.home && t.home[stmt.value.handle] == db)
  {
    var used := PrepareOne(s.dbs[db].cache, sql, compiled, s.nextHandle).used;
    var (t, stmt) := PrepareIn(s, db, sql, compiled);
    MarkHomeIs(s.home, s.nextHandle, used, db);
    assert forall q :: InPlace(s, q) ==> HandleAt(s, q) < s.nextHandle by { AtIs(s); hide At; }
    PreparePlaces(s, db, sql, compiled);
    assert t.nextHandle == s.nextHandle + used && t.home == MarkHome(s.home, s.nextHandle, used, db);
    assert InPlace(s, Cached(db, sql)) ==> DbOf(s, Cached(db, sql)) == db;
    hide MarkHome, Balanced, At, PrepareIn, PrepareOne, InPlace, HandleAt, DbOf;
    forall h | 0 <= h < t.nextHandle ensures h in t.home {}
  }

  // ---- Closing ---------------------------------------------------------------------------

  lemma {:induction false} ListedOfIs(stmts: map<StmtId, Entry>, db: Db, n: StmtId)
    ensures var ps := ListedOf(stmts, db, n);
            && (forall p :: p in ps <==> p.Listed? && p.stmt < n && p.stmt in stmts && stmts[p.stmt].db == db)
            && NoDup(ps)
  {
    if n > 0 { ListedOfIs(stmts, db, n - 1); }
  }

  lemma CachedOfIs(db: Db, order: seq<Sql>)
    requires NoDup(order)
    ensures var ps := CachedOf(db, order);
            && (forall p :: p in ps <==> p.Cached? && p.db == db && p.sql in order)
            && NoDup(ps)
  {
    forall p: Place | p.Cached? && p.db == db && p.sql in order ensures p in CachedOf(db, order) {
      var i :| 0 <= i < |order| && order[i] == p.sql;
      assert CachedOf(db, order)[i] == p;
    }
  }

  lemma ConcatDistinct(a: seq<Place>, b: seq<Place>)
    requires NoDup(a) && NoDup(b) && forall p :: p in a ==> p !in b
    ensures NoDup(a + b)
    ensures forall p :: p in a + b <==> p in a || p in b
  {
    forall i, j | 0 <= i < j < |a + b| ensures (a + b)[i] != (a + b)[j] {
      if i < |a| && j >= |a| { assert a[i] in a && b[j - |a|] in b; }
    }
  }

  /** closeDatabase lists every place of the database once, when no query runs on it. */
  lemma CloseListIs(s: State, db: Db)
    requires db in s.dbs && IdsInv(s) && MapInv(s.dbs[db].cache)
    requires forall r :: r in s.runs ==> s.runs[r].db != db
    ensures forall p :: p in CloseList(s, db) <==> InPlace(s, p) && DbOf(s, p) == db
    ensures NoDup(CloseList(s, db))
  {
    var order := s.dbs[db].cache.order;
    ListedOfIs(s.stmts, db, s.nextStmt);
    CachedOfIs(db, order);
    hide ListedOf, CachedOf, NoDup;
    ConcatDistinct(ListedOf(s.stmts, db, s.nextStmt), CachedOf(db, order));
  }

  lemma InPlaceClosed(s: State, t: State, db: Db)
    requires t.runs == s.runs && t.dbs == s.dbs - {db}
    requires t.stmts == map k | k in s.stmts && s.stmts[k].db != db :: s.stmts[k]
    requires forall r :: r in s.runs ==> s.runs[r].db != db
    ensures forall p :: InPlace(t, p) <==> InPlace(s, p) && DbOf(s, p) != db
    ensures forall p :: InPlace(t, p) ==> HandleAt(t, p) == HandleAt(s, p) && DbOf(t, p) == DbOf(s, p)
  {}

  lemma AtClosed(s: State, db: Db)
    requires db in s.dbs && forall p :: p in CloseList(s, db) <==> InPlace(s, p) && DbOf(s, p) == db
    requires forall r :: r in s.runs ==> s.runs[r].db != db
    ensures View(CloseDb(s, db)) == KillAll(View(s), CloseList(s, db))
  {
    var t := CloseDb(s, db);
    AtIs(s);
    AtIs(t);
    hide At, CloseList;
    InPlaceClosed(s, t, db);
    hide InPlace, HandleAt, DbOf, HandlesAt;
    assert View(t).at == KillAll(View(s), CloseList(s, db)).at;
  }

  lemma CloseBooks(s: State, db: Db)
    requires Books(s) && db in s.dbs && IdsInv(s) && MapInv(s.dbs[db].cache)
    requires forall r :: r in s.runs ==> s.runs[r].db != db
    ensures forall p :: p in CloseList(s, db) ==> InPlace(s, p)
    ensures Books(CloseDb(s, db))
  {
    CloseListIs(s, db);
    AtClosed(s, db);
    AtIs(s);
    hide CloseList, Balanced, At, MapInv;
    KillAllBalanced(View(s), CloseList(s, db));
  }
}
