/** Every step keeps the account of handles and of slots, and so the whole of OwnershipInv.Inv. */
module OwnershipSteps {
  import opened Wrappers
  import opened Session
  import opened Ledger
  import opened Ownership
  import opened OwnershipInv
  import opened OwnershipBooks
  import Chains

  // ---- The account -----------------------------------------------------------------------

  lemma SameBooks(s: State, t: State)
    requires Books(s)
    requires t == s.(chains := t.chains, ops := t.ops, opening := t.opening, free := t.free, nextStmt := t.nextStmt)
    ensures Books(t)
  {
    AtSame(s, t);
    hide At, Balanced;
    forall p | InPlace(t, p) ensures HandleAt(t, p) in t.home && t.home[HandleAt(t, p)] == DbOf(t, p) {
      assert InPlace(s, p);
    }
  }

  lemma HoldBooks(s: State, id: Id, run: Run)
    requires HomeInv(s) && id !in s.runs
    requires if run.owned then Balanced(Placed(s, Held(id), run.stmt.handle)) else Balanced(View(s))
    requires run.owned ==> run.stmt.handle in s.home && s.home[run.stmt.handle] == run.db
    ensures Books(s.(runs := s.runs[id := run]))
  {
    var t := s.(runs := s.runs[id := run]);
    AtHold(s, id, run);
    hide At, Balanced;
    forall p | InPlace(t, p) ensures HandleAt(t, p) in t.home && t.home[HandleAt(t, p)] == DbOf(t, p) {
      assert p != Held(id) ==> InPlace(s, p) && HandleAt(s, p) == HandleAt(t, p);
    }
  }

  lemma ListBooks(s: State, k: StmtId, entry: Entry)
    requires HomeInv(s) && k !in s.stmts && Balanced(Placed(s, Listed(k), entry.stmt.handle))
    requires entry.stmt.handle in s.home && s.home[entry.stmt.handle] == entry.db
    ensures Books(s.(stmts := s.stmts[k := entry]))
  {
    var t := s.(stmts := s.stmts[k := entry]);
    AtList(s, k, entry);
    hide At, Balanced;
    forall p | InPlace(t, p) ensures HandleAt(t, p) in t.home && t.home[HandleAt(t, p)] == DbOf(t, p) {
      assert p != Listed(k) ==> InPlace(s, p) && HandleAt(s, p) == HandleAt(t, p);
    }
  }

  lemma QueryBooks(s: State, id: Id, compiled: Compiled)
    requires Core(s) && Books(s) && MayStart(s, id) && s.ops[id].QUERY?
    ensures Books(QueryStep(s, id, compiled))
  {
    hide Core, Books, HomeInv, Balanced, At, PrepareIn, Chains.CanStart, Placed;
    CoreNotRunning(s, id);
    var t := QueryStep(s, id, compiled);
    var db := s.ops[id].db;
    if db !in s.dbs {
      SameBooks(s, t);
    } else {
      var (p, stmt) := PrepareIn(s, db, s.ops[id].sql, compiled);
      CompileBooks(s, db, s.ops[id].sql, compiled, Held(id));
      match stmt
      case None => SameBooks(p, t);
      case Some(st) =>
        HoldBooks(p, id, Run(db, st, true));
        SameBooks(p.(runs := s.runs[id := Run(db, st, true)]), t);
    }
  }

  /** Compiling, for a request whose statement will be at `q`. */
  lemma CompileBooks(s: State, db: Db, sql: Sql, compiled: Compiled, q: Place)
    requires Books(s) && db in s.dbs && !InPlace(s, q)
    ensures var (p, stmt) := PrepareIn(s, db, sql, compiled);
            && HomeInv(p) && p.runs == s.runs && p.stmts == s.stmts && p.nextStmt == s.nextStmt && p.chains == s.chains
            && p.opening == s.opening && p.ops == s.ops
            && match stmt
               case Some(st) => Balanced(Placed(p, q, st.handle)) && st.handle in p.home && p.home[st.handle] == db
               case None => Books(p)
  {
    AtIs(s);
    PrepareBalanced(s, db, sql, compiled, q);
    PrepareHome(s, db, sql, compiled);
    hide HomeInv, Balanced, At, Placed;
  }

  lemma NewEntry(s: State)
    requires IdsInv(s)
    ensures s.nextStmt !in s.stmts && !InPlace(s, Listed(s.nextStmt))
  {}

  lemma PrepareBooks(s: State, id: Id, compiled: Compiled)
    requires Core(s) && Books(s) && MayStart(s, id) && s.ops[id].PREPARE?
    ensures Books(PrepareStep(s, id, compiled))
  {
    NewEntry(s);
    hide Core, Books, HomeInv, Balanced, At, PrepareIn, Chains.CanStart, Placed, InPlace;
    var t := PrepareStep(s, id, compiled);
    var db := s.ops[id].db;
    if db !in s.dbs {
      SameBooks(s, t);
    } else {
      var (p, stmt) := PrepareIn(s, db, s.ops[id].sql, compiled);
      CompileBooks(s, db, s.ops[id].sql, compiled, Listed(s.nextStmt));
      match stmt
      case None => SameBooks(p, t);
      case Some(st) =>
        ListBooks(p, s.nextStmt, Entry(db, st));
        SameBooks(p.(stmts := s.stmts[s.nextStmt := Entry(db, st)]), t);
    }
  }

  lemma QueryStmtBooks(s: State, id: Id)
    requires Core(s) && Books(s) && MayStart(s, id) && s.ops[id].QUERY_STMT?
    ensures Books(QueryStmtStep(s, id))
  {
    hide Core, HomeInv, Balanced, At, Chains.CanStart;
    CoreNotRunning(s, id);
    var k := s.ops[id].stmtId;
    if k !in s.stmts {
      SameBooks(s, QueryStmtStep(s, id));
    } else {
      var run := Run(s.stmts[k].db, s.stmts[k].stmt, false);
      HoldBooks(s, id, run);
      SameBooks(s.(runs := s.runs[id := run]), QueryStmtStep(s, id));
    }
  }

  /** A borrowed statement is at no place of the run's own. */
  lemma UnborrowBooks(s: State, id: Id)
    requires Books(s) && id in s.runs && !s.runs[id].owned
    ensures Books(s.(runs := s.runs - {id}))
  {
    var t := s.(runs := s.runs - {id});
    assert At(t) == At(s) by { AtIs(s); AtIs(t); hide At; }
    hide At, Balanced;
    forall p | InPlace(t, p) ensures HandleAt(t, p) in t.home && t.home[HandleAt(t, p)] == DbOf(t, p) {
      assert InPlace(s, p);
    }
  }

  lemma GiveBackBooks(s: State, id: Id, drop: bool)
    requires Books(s) && id in s.runs && s.runs[id].db in s.dbs && CacheInv(s.dbs[s.runs[id].db].cache)
    ensures Books(GiveBack(s.(runs := s.runs - {id}), s.runs[id], drop))
  {
    var run := s.runs[id];
    var u := s.(runs := s.runs - {id});
    AtUnhold(s, id);
    hide HomeInv, Balanced, At, ReleaseIn, DiscardIn, MapInv;
    if run.owned {
      assert InHand(s, u, Held(id), run.stmt);
      hide InHand, InPlace;
      GiveBackHome(s, u, Held(id), run.db, run.stmt);
      if drop { DiscardBalanced(s, u, Held(id), run.db, run.stmt); }
      else { ReleaseBalanced(s, u, Held(id), run.db, run.stmt); }
    } else {
      UnborrowBooks(s, id);
    }
  }

  lemma DoneBooks(s: State, id: Id, drop: bool)
    requires CachesOk(s) && Books(s) && id in s.runs && id in s.chains.links && s.runs[id].db in s.dbs
    ensures MapInv(s.dbs[s.runs[id].db].cache) && Books(QueryDone(s, id, drop))
  {
    GiveBackBooks(s, id, drop);
    hide CachesOk, Books, GiveBack, MapInv;
    SameBooks(GiveBack(s.(runs := s.runs - {id}), s.runs[id], drop), QueryDone(s, id, drop));
  }

  lemma FinalizeBooks(s: State, id: Id)
    requires Core(s) && Books(s) && MayStart(s, id) && s.ops[id].FINALIZE?
    requires s.ops[id].stmtId in s.stmts ==> s.stmts[s.ops[id].stmtId].db in s.dbs
    ensures s.ops[id].stmtId in s.stmts ==> MapInv(s.dbs[s.stmts[s.ops[id].stmtId].db].cache)
    ensures Books(FinalizeStep(s, id))
  {
    var k := s.ops[id].stmtId;
    assert k in s.stmts ==> CacheInv(s.dbs[s.stmts[k].db].cache) by { assert CachesOk(s); }
    hide Core, HomeInv, Balanced, At, ReleaseIn, MapInv, CacheInv, Chains.CanStart;
    if k !in s.stmts {
      SameBooks(s, FinalizeStep(s, id));
    } else {
      var u := s.(stmts := s.stmts - {k});
      var entry := s.stmts[k];
      AtUnlist(s, k);
      assert InHand(s, u, Listed(k), entry.stmt);
      GiveBackHome(s, u, Listed(k), entry.db, entry.stmt);
      ReleaseBalanced(s, u, Listed(k), entry.db, entry.stmt);
      SameBooks(ReleaseIn(u, entry.db, entry.stmt), FinalizeStep(s, id));
    }
  }

  lemma ExecBooks(s: State, id: Id, n: nat)
    requires Books(s) && MayStart(s, id) && s.ops[id].EXEC?
    ensures Books(ExecStep(s, id, n))
  {
    hide Balanced, At, Chains.CanStart;
    var t := ExecStep(s, id, n);
    if s.ops[id].db !in s.dbs {
      SameBooks(s, t);
    } else {
      assert forall p :: InPlace(s, p) ==> HandleAt(s, p) < s.nextHandle by { HandlesBelow(s); }
      AtSame(s, t);
      NewDeadManyBalanced(View(s), n);
      assert View(t) == NewDeadMany(View(s), n);
      MarkHomeIs(s.home, s.nextHandle, n, s.ops[id].db);
      hide MarkHome;
      forall h | 0 <= h < t.nextHandle ensures h in t.home {}
      forall p | InPlace(t, p) ensures HandleAt(t, p) in t.home && t.home[HandleAt(t, p)] == DbOf(t, p) {
        assert InPlace(s, p);
      }
    }
  }

  lemma HandlesBelow(s: State)
    requires Balanced(View(s))
    ensures forall p :: InPlace(s, p) ==> HandleAt(s, p) < s.nextHandle
  {
    AtIs(s);
    hide At;
  }

  lemma CloseStepBooks(s: State, id: Id)
    requires Core(s) && Books(s) && MayStart(s, id) && s.ops[id].CLOSE?
    requires s.ops[id].db in s.dbs ==> forall p :: p in CloseList(s, s.ops[id].db) ==> InPlace(s, p)
    ensures Books(CloseStep(s, id))
  {
    var db := s.ops[id].db;
    assert db in s.dbs ==> MapInv(s.dbs[db].cache) by { assert CachesOk(s); }
    CoreFacts(s);
    OthersElsewhere(s, id);
    assert WorksOn(s, id) == Some(db);
    hide Core, CachesOk, Books, CloseList, CloseDb, MapInv, InPlace, Chains.CanStart, ChainInv, At;
    if db !in s.dbs {
      SameBooks(s, CloseStep(s, id));
    } else {
      CloseBooks(s, db);
      assert CloseStep(s, id) == Ended(Started(CloseDb(s, db), id), id);
      SameBooks(CloseDb(s, db), CloseStep(s, id));
    }
  }

  lemma OpenBooks(s: State, id: Id)
    requires Books(s) && MayStart(s, id)
    ensures Books(OpenStep(s, id))
  {
    hide Books, Chains.CanStart;
    SameBooks(s, OpenStep(s, id));
  }

  lemma EndedBooks(s: State, id: Id)
    requires Books(s) && MayStart(s, id)
    ensures Books(Ended(Started(s, id), id))
  {
    assert id in s.chains.links;
    hide Books, Chains.CanStart;
    SameBooks(s, Ended(Started(s, id), id));
  }

  /** The steps that begin a request and end it at once. */
  predicate AtOnce(a: Action) { a.DoPrepare? || a.DoFinalize? || a.DoClose? || a.DoExec? || a.DoExecStmt? }

  lemma AtOnceBooks(s: State, a: Action)
    requires Core(s) && Books(s) && Enabled(s, a) && AtOnce(a)
    ensures Books(Step(s, a))
  {
    hide Core, CachesOk, Books, MapInv, PrepareStep, FinalizeStep, CloseStep, ExecStep, CloseList, Chains.CanStart;
    match a
    case DoPrepare(id, c) => PrepareBooks(s, id, c);
    case DoFinalize(id) => FinalizeBooks(s, id);
    case DoClose(id) => CloseStepBooks(s, id);
    case DoExec(id, n) => ExecBooks(s, id, n);
    case DoExecStmt(id) => EndedBooks(s, id);
  }

  lemma OtherBooks(s: State, a: Action)
    requires Core(s) && Books(s) && Enabled(s, a) && !AtOnce(a)
    ensures Books(Step(s, a))
  {
    CoreFacts(s);
    hide Core, CachesOk, IdsInv, ChainInv, Books, MapInv, QueryStep, QueryStmtStep, QueryDone, OpenedStep, OpenStep,
      ChainKey, Chains.Dispatch, Chains.CanStart;
    match a
    case BeginQuery(id, c) => QueryBooks(s, id, c);
    case BeginQueryStmt(id) => QueryStmtBooks(s, id);
    case EndQuery(id, drop) => DoneBooks(s, id, drop);
    case EndOpen(id, ok) => OpenedBooks(s, id, ok);
    case BeginOpen(id) => OpenBooks(s, id);
    case StepQuery(_) =>
    case Arrive(id, op) => SameBooks(s, Step(s, a));
  }

  lemma AtOpened(s: State, db: Db, slot: nat)
    requires db !in s.dbs
    ensures At(s.(dbs := s.dbs[db := OpenDb(EMPTY_CACHE, slot)])) == At(s)
  {
    var t := s.(dbs := s.dbs[db := OpenDb(EMPTY_CACHE, slot)]);
    AtIs(s);
    AtIs(t);
    hide At;
    assert forall p :: InPlace(t, p) <==> InPlace(s, p);
    assert forall p :: InPlace(t, p) ==> HandleAt(t, p) == HandleAt(s, p);
    hide InPlace, HandleAt;
  }

  lemma OpenedBooks(s: State, id: Id, ok: bool)
    requires IdsInv(s) && Books(s) && id in s.opening && id in s.chains.links
    ensures Books(OpenedStep(s, id, ok))
  {
    var t := OpenedStep(s, id, ok);
    var u := if ok then s.(dbs := s.dbs[s.nextDb := OpenDb(EMPTY_CACHE, s.opening[id])]) else s;
    AtOpened(s, s.nextDb, s.opening[id]);
    AtSame(u, t);
    hide At, Balanced;
    forall p | InPlace(t, p) ensures HandleAt(t, p) in t.home && t.home[HandleAt(t, p)] == DbOf(t, p) {
      assert InPlace(s, p);
    }
  }

  // ---- Slots -------------------------------------------------------------------------------

  lemma Grown<K, V>(m: map<K, V>, k: K, v: V)
    requires k !in m
    ensures |m[k := v]| == |m| + 1
  {
    assert m[k := v].Keys == m.Keys + {k};
  }

  lemma Shrunk<K, V>(m: map<K, V>, k: K)
    requires k in m
    ensures |m - {k}| == |m| - 1
  {
    assert m.Keys == (m - {k}).Keys + {k};
  }

  lemma PopSlot(free: seq<nat>, used: map<Db, nat>, opening: map<Id, nat>, id: Id)
    requires SlotsOk(free, used, opening) && free != [] && id !in opening
    ensures SlotsOk(free[..|free| - 1], used, opening[id := free[|free| - 1]])
  {
    var n := |free| - 1;
    Grown(opening, id, free[n]);
    var rest := free[..n];
    assert free == rest + [free[n]];
    assert free[n] in free && free[n] !in rest;
    assert forall k :: k in rest ==> k in free;
    assert forall i, j :: 0 <= i < j < n ==> rest[i] == free[i] && rest[j] == free[j];
  }

  lemma UseSlot(free: seq<nat>, used: map<Db, nat>, opening: map<Id, nat>, id: Id, db: Db)
    requires SlotsOk(free, used, opening) && id in opening && db !in used
    ensures SlotsOk(free, used[db := opening[id]], opening - {id})
  {
    Shrunk(opening, id);
    Grown(used, db, opening[id]);
  }

  lemma PushSlot(free: seq<nat>, used: map<Db, nat>, opening: map<Id, nat>, id: Id)
    requires SlotsOk(free, used, opening) && id in opening
    ensures SlotsOk(free + [opening[id]], used, opening - {id})
  {
    Shrunk(opening, id);
  }

  lemma FreeSlot(free: seq<nat>, used: map<Db, nat>, opening: map<Id, nat>, db: Db)
    requires SlotsOk(free, used, opening) && db in used
    ensures SlotsOk(free + [used[db]], used - {db}, opening)
  {
    Shrunk(used, db);
  }

  /** Databases and slots stay. */
  ghost predicate SlotsStay(s: State, t: State) {
    && t.free == s.free && t.opening == s.opening && t.dbs.Keys == s.dbs.Keys
    && forall d :: d in s.dbs ==> t.dbs[d].slot == s.dbs[d].slot
  }

  lemma SameSlots(s: State, t: State)
    requires SlotInv(s) && SlotsStay(s, t)
    ensures SlotInv(t)
  {
    assert SlotsOf(t.dbs) == SlotsOf(s.dbs);
    hide SlotsOk;
  }

  lemma OpenedSlots(s: State, id: Id, ok: bool)
    requires IdsInv(s) && SlotInv(s) && id in s.opening && id in s.chains.links
    ensures SlotInv(OpenedStep(s, id, ok))
  {
    var t := OpenedStep(s, id, ok);
    hide SlotsOk;
    if ok {
      assert SlotsOf(t.dbs) == SlotsOf(s.dbs)[s.nextDb := s.opening[id]];
      UseSlot(s.free, SlotsOf(s.dbs), s.opening, id, s.nextDb);
    } else {
      PushSlot(s.free, SlotsOf(s.dbs), s.opening, id);
    }
  }

  lemma OpenSlots(s: State, id: Id)
    requires SlotInv(s) && MayStart(s, id) && id !in s.opening
    ensures SlotInv(OpenStep(s, id))
  {
    hide SlotsOk, Chains.CanStart;
    if s.free != [] { PopSlot(s.free, SlotsOf(s.dbs), s.opening, id); }
  }

  lemma CloseSlots(s: State, db: Db)
    requires SlotInv(s) && db in s.dbs && forall p :: p in CloseList(s, db) ==> InPlace(s, p)
    ensures SlotInv(CloseDb(s, db))
  {
    hide CloseList, At, HandlesAt, InPlace, SlotsOk;
    assert SlotsOf(CloseDb(s, db).dbs) == SlotsOf(s.dbs) - {db};
    FreeSlot(s.free, SlotsOf(s.dbs), s.opening, db);
  }

  lemma CompileSlots(s: State, db: Db, sql: Sql, c: Compiled)
    requires CachesOk(s)
    ensures db in s.dbs ==> CacheOnly(s, PrepareIn(s, db, sql, c).0)
  {
    if db in s.dbs { PrepareOk(s, db, sql, c); }
  }

  lemma QuerySlots(s: State, id: Id, c: Compiled)
    requires CachesOk(s) && MayStart(s, id) && s.ops[id].QUERY?
    ensures SlotsStay(s, QueryStep(s, id, c))
  {
    CompileSlots(s, s.ops[id].db, s.ops[id].sql, c);
    hide CachesOk, PrepareIn, Chains.CanStart;
  }

  lemma PrepareSlots(s: State, id: Id, c: Compiled)
    requires CachesOk(s) && MayStart(s, id) && s.ops[id].PREPARE?
    ensures SlotsStay(s, PrepareStep(s, id, c))
  {
    CompileSlots(s, s.ops[id].db, s.ops[id].sql, c);
    hide CachesOk, PrepareIn, Chains.CanStart;
  }

  lemma ExecSlots(s: State, id: Id, n: nat)
    requires MayStart(s, id) && s.ops[id].EXEC?
    ensures SlotsStay(s, ExecStep(s, id, n))
  {}

  lemma QueryStmtSlots(s: State, id: Id)
    requires MayStart(s, id) && s.ops[id].QUERY_STMT?
    ensures SlotsStay(s, QueryStmtStep(s, id))
  {}

  lemma DoneSlots(s: State, id: Id, drop: bool)
    requires CachesOk(s) && id in s.runs && id in s.chains.links && s.runs[id].db in s.dbs
    requires MapInv(s.dbs[s.runs[id].db].cache)
    ensures SlotsStay(s, QueryDone(s, id, drop))
  {
    SameCaches(s, s.(runs := s.runs - {id}));
    GiveBackOk(s.(runs := s.runs - {id}), s.runs[id], drop);
    hide CachesOk, GiveBack, MapInv;
  }

  lemma FinalizeSlots(s: State, id: Id)
    requires CachesOk(s) && MayStart(s, id) && s.ops[id].FINALIZE?
    requires s.ops[id].stmtId in s.stmts ==>
               var db := s.stmts[s.ops[id].stmtId].db; db in s.dbs && MapInv(s.dbs[db].cache)
    ensures SlotsStay(s, FinalizeStep(s, id))
  {
    var k := s.ops[id].stmtId;
    if k in s.stmts {
      SameCaches(s, s.(stmts := s.stmts - {k}));
      ReleaseOk(s.(stmts := s.stmts - {k}), s.stmts[k].db, s.stmts[k].stmt);
    }
    hide CachesOk, ReleaseIn, MapInv, Chains.CanStart;
  }

  /** Steps other than those of OPEN and CLOSE leave databases and slots alone. */
  lemma SlotsAlone(s: State, a: Action)
    requires Enabled(s, a) && !a.BeginOpen? && !a.EndOpen? && !a.DoClose?
    ensures SlotsStay(s, Step(s, a))
  {
    assert a.EndQuery? ==> MapInv(s.dbs[s.runs[a.id].db].cache);
    assert a.DoFinalize? && s.ops[a.id].stmtId in s.stmts ==>
             MapInv(s.dbs[s.stmts[s.ops[a.id].stmtId].db].cache);
    assert CachesOk(s);
    hide CachesOk, MapInv, PrepareIn, Chains.CanStart, QueryDone, FinalizeStep, QueryStep, PrepareStep, ExecStep,
      QueryStmtStep, CloseList;
    match a
    case BeginQuery(id, c) => QuerySlots(s, id, c);
    case DoPrepare(id, c) => PrepareSlots(s, id, c);
    case EndQuery(id, drop) => DoneSlots(s, id, drop);
    case DoFinalize(id) => FinalizeSlots(s, id);
    case BeginQueryStmt(id) => QueryStmtSlots(s, id);
    case DoExec(id, n) => ExecSlots(s, id, n);
    case _ =>
  }

  lemma CloseStepSlots(s: State, id: Id)
    requires SlotInv(s) && MayStart(s, id) && s.ops[id].CLOSE?
    requires s.ops[id].db in s.dbs ==> forall p :: p in CloseList(s, s.ops[id].db) ==> InPlace(s, p)
    ensures SlotInv(CloseStep(s, id))
  {
    hide SlotInv, CloseDb, CloseList, Chains.CanStart;
    if s.ops[id].db in s.dbs {
      CloseSlots(s, s.ops[id].db);
      SameSlots(CloseDb(s, s.ops[id].db), CloseStep(s, id));
    } else {
      SameSlots(s, CloseStep(s, id));
    }
  }

  lemma StepSlots(s: State, a: Action)
    requires Core(s) && SlotInv(s) && Enabled(s, a)
    ensures SlotInv(Step(s, a))
  {
    CoreFacts(s);
    if a.BeginOpen? { CoreNotRunning(s, a.id); }
    hide Core, CachesOk, SlotInv, ChainInv, IdsInv, CloseStep, CloseList, OpenStep, OpenedStep, MayStart;
    match a
    case BeginOpen(id) => OpenSlots(s, id);
    case EndOpen(id, ok) => OpenedSlots(s, id, ok);
    case DoClose(id) => CloseStepSlots(s, id);
    case _ =>
      SlotsAlone(s, a);
      hide Enabled, Step, SlotsStay;
      SameSlots(s, Step(s, a));
  }

  lemma StepKeeps(s: State, a: Action)
    requires Inv(s) && Enabled(s, a)
    ensures Inv(Step(s, a))
  {
    hide Core, Books, SlotInv, Enabled, Step;
    StepCore(s, a);
    if AtOnce(a) { AtOnceBooks(s, a); } else { OtherBooks(s, a); }
    StepSlots(s, a);
  }
}
