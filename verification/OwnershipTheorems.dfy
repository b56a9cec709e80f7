/** What the machine of Ownership guarantees over whole runs: statements are conserved and never
    used after they are finalised, closing a database leaves none of its statements alive,
    requests of one database never overlap, and open databases never share a slot. */
module OwnershipTheorems {
  import opened Wrappers
  import opened Session
  import opened Ledger
  import opened Ownership
  import opened OwnershipInv
  import opened OwnershipBooks
  import opened OwnershipSteps
  import Chains

  ghost predicate IsRun(ss: seq<State>, acts: seq<Action>) {
    && |ss| == |acts| + 1
    && ss[0] == INIT
    && forall i :: 0 <= i < |acts| ==> Enabled(ss[i], acts[i]) && ss[i + 1] == Step(ss[i], acts[i])
  }

  lemma {:induction false} CountdownIs(n: nat)
    ensures var s := Countdown(n);
            && |s| == n && (forall k :: k in s ==> k < n)
            && forall i :: 0 <= i < n ==> s[i] == n - 1 - i
  {
    if n > 0 { CountdownIs(n - 1); }
  }

  lemma InitSlots()
    ensures SlotInv(INIT)
  {
    CountdownIs(CANCEL_SLOTS);
    assert SlotsOf(INIT.dbs) == map[];
  }

  lemma InitBooks()
    ensures Books(INIT)
  {
    assert forall p :: !InPlace(INIT, p);
    AtIs(INIT);
    hide At, InPlace;
    assert At(INIT) == map[];
  }

  lemma InitCore()
    ensures Core(INIT)
  {}

  lemma InitInv()
    ensures Inv(INIT)
  {
    InitSlots();
    InitBooks();
    InitCore();
    hide SlotInv, Books, Core;
  }

  lemma {:induction false} RunKeeps(ss: seq<State>, acts: seq<Action>, i: nat)
    requires IsRun(ss, acts) && i <= |acts|
    ensures Inv(ss[i])
  {
    hide Inv, Enabled, Step;
    if i == 0 {
      InitInv();
    } else {
      RunKeeps(ss, acts, i - 1);
      StepKeeps(ss[i - 1], acts[i - 1]);
    }
  }

  lemma CloseGuard(s: State, id: Id)
    requires Core(s) && MayStart(s, id) && s.ops[id].CLOSE? && s.ops[id].db in s.dbs
    ensures forall p :: p in CloseList(s, s.ops[id].db) ==> InPlace(s, p)
  {
    CoreFacts(s);
    assert MapInv(s.dbs[s.ops[id].db].cache);
    assert WorksOn(s, id) == Some(s.ops[id].db);
    hide Core, CachesOk, CloseList, InPlace, MapInv, Chains.CanStart, ChainInv;
    OthersElsewhere(s, id);
    CloseListIs(s, s.ops[id].db);
  }

  lemma EndGuard(s: State, id: Id)
    requires Core(s) && id in s.runs
    ensures id in s.chains.links && s.runs[id].db in s.dbs
  {
    hide ChainInv, KeyInv, CachesOk, IdsInv;
    assert RunOk(s, id);
  }

  /** What the worker itself waits for before a step. */
  predicate Ready(s: State, a: Action) {
    match a
    case EndOpen(id, _) => id in s.opening
    case EndQuery(id, _) => id in s.runs
    case DoFinalize(id) => MayStart(s, id) && s.ops[id].FINALIZE?
    case DoClose(id) => MayStart(s, id) && s.ops[id].CLOSE?
    case _ => false
  }

  /** The guards that the worker does not test always hold: a query that ends, a FINALIZE and a
      CLOSE find the database, the cache and the places they take for granted. */
  lemma GuardsFollow(s: State, a: Action)
    requires Inv(s) && Ready(s, a)
    ensures Enabled(s, a)
  {
    CoreFacts(s);
    if a.EndQuery? { EndGuard(s, a.id); }
    if a.EndOpen? { ActiveNow(s, a.id); }
    if a.DoClose? && s.ops[a.id].db in s.dbs { CloseGuard(s, a.id); }
    hide Core, CachesOk, Books, SlotInv, ChainInv, CloseList, InPlace, Chains.CanStart;
  }

  // ---- Statements ------------------------------------------------------------------------

  lemma AccountOf(s: State, h: Handle)
    requires Balanced(View(s)) && h < s.nextHandle
    ensures (exists p :: InPlace(s, p) && HandleAt(s, p) == h) || h in s.finalised || h in s.lost
    ensures forall p :: InPlace(s, p) && HandleAt(s, p) == h ==>
              && h !in s.finalised && h !in s.lost
              && forall q :: InPlace(s, q) && HandleAt(s, q) == h ==> q == p
    ensures (h in s.finalised ==> h !in s.lost) && NoDup(s.finalised)
  {
    AtIs(s);
    hide At, InPlace, HandleAt;
    if IsAt(View(s), h) {
      var p :| p in View(s).at && View(s).at[p] == h;
      assert InPlace(s, p) && HandleAt(s, p) == h;
    }
  }

  /** Conservation: in every reachable state each handle compiled so far is at exactly one place,
      or has been finalised exactly once, or is lost. */
  lemma StatementsConserved(ss: seq<State>, acts: seq<Action>, i: nat, h: Handle)
    requires IsRun(ss, acts) && i <= |acts| && h < ss[i].nextHandle
    ensures (exists p :: InPlace(ss[i], p) && HandleAt(ss[i], p) == h)
            || h in ss[i].finalised || h in ss[i].lost
    ensures forall p :: InPlace(ss[i], p) && HandleAt(ss[i], p) == h ==>
              && h !in ss[i].finalised && h !in ss[i].lost
              && forall q :: InPlace(ss[i], q) && HandleAt(ss[i], q) == h ==> q == p
    ensures (h in ss[i].finalised ==> h !in ss[i].lost) && NoDup(ss[i].finalised)
  {
    RunKeeps(ss, acts, i);
    var s := ss[i];
    hide Core, HomeInv, SlotInv, IsRun, InPlace, HandleAt;
    AccountOf(s, h);
  }

  /** The one way to lose a handle: prepareOne compiles a text that is not cached, and the probe
      of the text's tail throws. */
  predicate Loses(s: State, a: Action) {
    match a
    case BeginQuery(id, c) => id in s.ops && s.ops[id].QUERY? && Leaks(s, s.ops[id].db, s.ops[id].sql, c)
    case DoPrepare(id, c) => id in s.ops && s.ops[id].PREPARE? && Leaks(s, s.ops[id].db, s.ops[id].sql, c)
    case _ => false
  }

  predicate Leaks(s: State, db: Db, sql: Sql, c: Compiled) {
    c.TailError? && db in s.dbs && sql !in s.dbs[db].cache.stmts
  }

  /** What only ever grows. */
  ghost predicate Grows(s: State, t: State) {
    && s.finalised <= t.finalised && s.nextHandle <= t.nextHandle && s.nextDb <= t.nextDb
    && (forall d :: d in t.dbs ==> d in s.dbs || d >= s.nextDb)
  }

  lemma GrowsSelf(s: State)
    ensures Grows(s, s)
  {}

  lemma GrowsAlike(s: State, t: State, u: State)
    requires Grows(s, t)
    requires u.finalised == t.finalised && u.nextHandle == t.nextHandle && u.nextDb == t.nextDb && u.dbs == t.dbs
    ensures Grows(s, u)
  {}

  lemma GiveBackGrows(s: State, run: Run, drop: bool)
    requires run.db in s.dbs && MapInv(s.dbs[run.db].cache)
    ensures Grows(s, GiveBack(s, run, drop)) && GiveBack(s, run, drop).lost == s.lost
  {
    hide MapInv, Release;
  }

  lemma CompileGrows(s: State, db: Db, sql: Sql, c: Compiled)
    requires db in s.dbs
    ensures var t := PrepareIn(s, db, sql, c).0;
            && Grows(s, t) && t.lost == s.lost + (if Leaks(s, db, sql, c) then [s.nextHandle] else [])
  {
    hide MarkHome;
  }

  lemma QueryGrows(s: State, id: Id, c: Compiled)
    requires MayStart(s, id) && s.ops[id].QUERY?
    ensures var t := QueryStep(s, id, c);
            && Grows(s, t)
            && t.lost == s.lost + (if Leaks(s, s.ops[id].db, s.ops[id].sql, c) then [s.nextHandle] else [])
  {
    hide PrepareIn, Chains.CanStart, Chains.Start, Chains.Settle, Grows;
    var db := s.ops[id].db;
    if db in s.dbs {
      CompileGrows(s, db, s.ops[id].sql, c);
      GrowsAlike(s, PrepareIn(s, db, s.ops[id].sql, c).0, QueryStep(s, id, c));
    } else {
      GrowsSelf(s);
      GrowsAlike(s, s, QueryStep(s, id, c));
    }
  }

  lemma PrepareGrows(s: State, id: Id, c: Compiled)
    requires MayStart(s, id) && s.ops[id].PREPARE?
    ensures var t := PrepareStep(s, id, c);
            && Grows(s, t)
            && t.lost == s.lost + (if Leaks(s, s.ops[id].db, s.ops[id].sql, c) then [s.nextHandle] else [])
  {
    hide PrepareIn, Chains.CanStart, Chains.Start, Chains.Settle, Grows;
    var db := s.ops[id].db;
    if db in s.dbs {
      CompileGrows(s, db, s.ops[id].sql, c);
      GrowsAlike(s, PrepareIn(s, db, s.ops[id].sql, c).0, PrepareStep(s, id, c));
    } else {
      GrowsSelf(s);
      GrowsAlike(s, s, PrepareStep(s, id, c));
    }
  }

  lemma DoneGrows(s: State, id: Id, drop: bool)
    requires id in s.runs && id in s.chains.links && s.runs[id].db in s.dbs
    requires MapInv(s.dbs[s.runs[id].db].cache)
    ensures Grows(s, QueryDone(s, id, drop)) && QueryDone(s, id, drop).lost == s.lost
  {
    GiveBackGrows(s.(runs := s.runs - {id}), s.runs[id], drop);
    hide GiveBack, MapInv;
  }

  lemma FinalizeGrows(s: State, id: Id)
    requires MayStart(s, id) && s.ops[id].FINALIZE?
    requires s.ops[id].stmtId in s.stmts ==>
               var db := s.stmts[s.ops[id].stmtId].db; db in s.dbs && MapInv(s.dbs[db].cache)
    ensures Grows(s, FinalizeStep(s, id)) && FinalizeStep(s, id).lost == s.lost
  {
    hide Release, Chains.CanStart, MapInv;
  }

  lemma CloseGrows(s: State, id: Id)
    requires MayStart(s, id) && s.ops[id].CLOSE?
    requires s.ops[id].db in s.dbs ==> forall p :: p in CloseList(s, s.ops[id].db) ==> InPlace(s, p)
    ensures Grows(s, CloseStep(s, id)) && CloseStep(s, id).lost == s.lost
    ensures s.ops[id].db !in CloseStep(s, id).dbs
  {
    hide Chains.CanStart, At, CloseList, HandlesAt;
  }

  lemma OpenGrows(s: State, id: Id)
    requires MayStart(s, id)
    ensures Grows(s, OpenStep(s, id)) && OpenStep(s, id).lost == s.lost
  {
    hide Chains.CanStart;
  }

  lemma OpenedGrows(s: State, id: Id, ok: bool)
    requires id in s.opening && id in s.chains.links
    ensures Grows(s, OpenedStep(s, id, ok)) && OpenedStep(s, id, ok).lost == s.lost
  {}

  lemma QueryStmtGrows(s: State, id: Id)
    requires MayStart(s, id) && s.ops[id].QUERY_STMT?
    ensures Grows(s, QueryStmtStep(s, id)) && QueryStmtStep(s, id).lost == s.lost
  {
    hide Chains.CanStart;
  }

  lemma ExecGrows(s: State, id: Id, n: nat)
    requires MayStart(s, id) && s.ops[id].EXEC?
    ensures Grows(s, ExecStep(s, id, n)) && ExecStep(s, id, n).lost == s.lost
  {
    hide Chains.CanStart, MarkHome;
  }

  lemma StepGrows(s: State, a: Action)
    requires Enabled(s, a)
    ensures Grows(s, Step(s, a))
    ensures Step(s, a).lost == s.lost + if Loses(s, a) then [s.nextHandle] else []
  {
    assert a.EndQuery? ==> MapInv(s.dbs[s.runs[a.id].db].cache) by { assert CachesOk(s); }
    hide CachesOk, MapInv, QueryStep, PrepareStep, QueryDone, FinalizeStep, CloseStep, CloseList, Grows,
      Chains.CanStart, OpenStep, OpenedStep, QueryStmtStep, ExecStep, Chains.Dispatch, ChainKey;
    match a
    case BeginQuery(id, c) => QueryGrows(s, id, c);
    case DoPrepare(id, c) => PrepareGrows(s, id, c);
    case EndQuery(id, drop) => DoneGrows(s, id, drop);
    case DoFinalize(id) => FinalizeGrows(s, id);
    case DoClose(id) => CloseGrows(s, id);
    case BeginOpen(id) => OpenGrows(s, id);
    case EndOpen(id, ok) => OpenedGrows(s, id, ok);
    case BeginQueryStmt(id) => QueryStmtGrows(s, id);
    case DoExec(id, n) => ExecGrows(s, id, n);
    case _ =>
      GrowsSelf(s);
      GrowsAlike(s, s, Step(s, a));
  }

  lemma GrowsOn(s: State, t: State, u: State)
    requires Grows(s, t) && Grows(t, u)
    ensures Grows(s, u)
  {}

  lemma {:induction false} RunGrows(ss: seq<State>, acts: seq<Action>, i: nat, j: nat)
    requires IsRun(ss, acts) && i <= j <= |acts|
    ensures Grows(ss[i], ss[j])
    decreases j - i
  {
    hide Enabled, Step, Grows;
    if i == j {
      GrowsSelf(ss[i]);
    } else {
      RunGrows(ss, acts, i, j - 1);
      StepGrows(ss[j - 1], acts[j - 1]);
      assert ss[j] == Step(ss[j - 1], acts[j - 1]);
      hide IsRun;
      GrowsOn(ss[i], ss[j - 1], ss[j]);
    }
  }

  /** Nothing is lost in a run exactly when no tail probe of an uncached text threw. */
  lemma {:induction false} LostOnlyByTailErrors(ss: seq<State>, acts: seq<Action>, i: nat)
    requires IsRun(ss, acts) && i <= |acts|
    ensures ss[i].lost == [] <==> forall k :: 0 <= k < i ==> !Loses(ss[k], acts[k])
  {
    hide Enabled, Step, Loses;
    if i > 0 {
      LostOnlyByTailErrors(ss, acts, i - 1);
      StepGrows(ss[i - 1], acts[i - 1]);
    }
  }

  /** At a place, or not compiled before this step. */
  ghost predicate LiveOrNew(s: State, h: Handle) {
    h >= s.nextHandle || exists p :: InPlace(s, p) && HandleAt(s, p) == h
  }

  lemma PreparedIsLive(s: State, db: Db, sql: Sql, c: Compiled, h: Handle)
    requires h in TouchedNew(s, db, sql, c)
    ensures LiveOrNew(s, h)
  {
    if h < s.nextHandle {
      var p := Cached(db, sql);
      assert InPlace(s, p) && HandleAt(s, p) == h;
    }
  }

  lemma EntryIsLive(s: State, t: StmtId, h: Handle)
    requires h in TouchedEntry(s, t)
    ensures LiveOrNew(s, h)
  {
    assert InPlace(s, Listed(t)) && HandleAt(s, Listed(t)) == h;
  }

  lemma RunIsLive(s: State, id: Id)
    requires Core(s) && id in s.runs
    ensures LiveOrNew(s, s.runs[id].stmt.handle)
  {
    hide ChainInv, KeyInv, IdsInv, CachesOk;
    assert RunOk(s, id);
    var p := if s.runs[id].owned then Held(id) else Listed(s.ops[id].stmtId);
    assert InPlace(s, p) && HandleAt(s, p) == s.runs[id].stmt.handle;
  }

  lemma TouchedIsLive(s: State, a: Action, h: Handle)
    requires Inv(s) && Enabled(s, a) && h in Touched(s, a)
    ensures LiveOrNew(s, h)
  {
    hide Core, Books, SlotInv, CachesOk, TouchedNew, TouchedEntry, InPlace, HandleAt, Chains.CanStart;
    match a
    case StepQuery(id) => RunIsLive(s, id);
    case EndQuery(id, _) => RunIsLive(s, id);
    case BeginQuery(id, c) => PreparedIsLive(s, s.ops[id].db, s.ops[id].sql, c, h);
    case DoPrepare(id, c) => PreparedIsLive(s, s.ops[id].db, s.ops[id].sql, c, h);
    case BeginQueryStmt(id) => EntryIsLive(s, s.ops[id].stmtId, h);
    case DoExecStmt(id) => EntryIsLive(s, s.ops[id].stmtId, h);
    case DoFinalize(id) => EntryIsLive(s, s.ops[id].stmtId, h);
    case DoExec(_, _) =>
  }

  lemma FinalisedIsNotTouched(s: State, a: Action, h: Handle)
    requires Inv(s) && Enabled(s, a) && h in s.finalised
    ensures h !in Touched(s, a)
  {
    FinalisedBelow(s);
    assert Balanced(View(s)) by { hide Core, HomeInv, SlotInv; }
    hide Inv, Touched, Enabled, InPlace, HandleAt;
    AccountOf(s, h);
    if h in Touched(s, a) { TouchedIsLive(s, a, h); }
  }

  /** Once finalised, a handle is never stepped, reset, bound or described again. */
  lemma NoUseAfterFinalise(ss: seq<State>, acts: seq<Action>, i: nat, j: nat, h: Handle)
    requires IsRun(ss, acts) && i <= j < |acts| && h in ss[i].finalised
    ensures h !in Touched(ss[j], acts[j])
  {
    hide Inv, Touched, Enabled, Step;
    RunKeeps(ss, acts, j);
    RunGrows(ss, acts, i, j);
    FinalisedIsNotTouched(ss[j], acts[j], h);
  }

  /** Where a statement goes when it is released: into the cache under its text, if it may be cached and
      its text is not there, and otherwise it is finalised. */
  predicate GoesBack(s: State, t: State, db: Db, stmt: Stmt) {
    if db in s.dbs && stmt.cacheable && stmt.sql !in s.dbs[db].cache.stmts then
      InPlace(t, Cached(db, stmt.sql)) && HandleAt(t, Cached(db, stmt.sql)) == stmt.handle
    else stmt.handle in t.finalised
  }

  lemma ReleasedGoesBack(s: State, db: Db, stmt: Stmt)
    requires db in s.dbs && CacheInv(s.dbs[db].cache)
    ensures GoesBack(s, ReleaseIn(s, db, stmt), db, stmt)
  {
    ReleaseRefines(s.dbs[db].cache, stmt);
    hide Release;
  }

  /** A query that ends gives its statement back, unless it was interrupted or aborted: then the statement
      is finalised and never cached.  A borrowed statement stays where it is. */
  lemma QueryReturns(s: State, id: Id, drop: bool)
    requires Enabled(s, EndQuery(id, drop))
    ensures var run := s.runs[id]; var t := Step(s, EndQuery(id, drop));
            if !run.owned then t.stmts == s.stmts && t.dbs == s.dbs && t.finalised == s.finalised
            else if drop then run.stmt.handle in t.finalised
            else GoesBack(s, t, run.db, run.stmt)
  {
    var run := s.runs[id];
    assert CacheInv(s.dbs[run.db].cache) by { assert CachesOk(s); }
    hide CachesOk, MapInv, Release, Discard;
    var u := s.(runs := s.runs - {id});
    if run.owned && !drop { ReleasedGoesBack(u, run.db, run.stmt); }
  }

  /** So does FINALIZE with a prepared statement, and the map forgets it. */
  lemma FinalizeReturns(s: State, id: Id)
    requires Enabled(s, DoFinalize(id)) && s.ops[id].stmtId in s.stmts
    ensures var e := s.stmts[s.ops[id].stmtId]; var t := Step(s, DoFinalize(id));
            GoesBack(s, t, e.db, e.stmt) && t.stmts == s.stmts - {s.ops[id].stmtId}
  {
    var e := s.stmts[s.ops[id].stmtId];
    assert CacheInv(s.dbs[e.db].cache) by { assert CachesOk(s); }
    hide CachesOk, MapInv, Release, Chains.CanStart;
    ReleasedGoesBack(s.(stmts := s.stmts - {s.ops[id].stmtId}), e.db, e.stmt);
  }

  lemma FinalisedBelow(s: State)
    requires Inv(s)
    ensures forall h :: h in s.finalised ==> h < s.nextHandle
  {
    hide Core, HomeInv, SlotInv;
  }

  lemma PlacesAreOpen(s: State)
    requires Core(s)
    ensures forall p :: InPlace(s, p) ==> DbOf(s, p) in s.dbs
  {
    hide ChainInv, KeyInv, CachesOk;
    forall p | InPlace(s, p) ensures DbOf(s, p) in s.dbs {
      if p.Held? { assert RunOk(s, p.request); }
    }
  }

  /** Of a database that is not open, no statement is left. */
  lemma ClosedHasNoStatements(s: State, h: Handle)
    requires Inv(s) && h < s.nextHandle && h in s.home && s.home[h] !in s.dbs
    ensures h in s.finalised || h in s.lost
  {
    PlacesAreOpen(s);
    AtIs(s);
    hide Core, SlotInv, At, InPlace, DbOf;
    assert !IsAt(View(s), h);
  }

  /** After its CLOSE a database is never open again, and every handle that was ever compiled for
      it is finalised, or lost to a tail probe. */
  lemma NothingAliveAfterClose(ss: seq<State>, acts: seq<Action>, i: nat, j: nat, h: Handle)
    requires IsRun(ss, acts) && i < j <= |acts| && acts[i].DoClose? && ss[i].ops[acts[i].id].db in ss[i].dbs
    requires h < ss[j].nextHandle && h in ss[j].home && ss[j].home[h] == ss[i].ops[acts[i].id].db
    ensures ss[i].ops[acts[i].id].db !in ss[j].dbs && (h in ss[j].finalised || h in ss[j].lost)
  {
    var db := ss[i].ops[acts[i].id].db;
    RunKeeps(ss, acts, i);
    RunKeeps(ss, acts, j);
    assert db < ss[i].nextDb by { assert IdsInv(ss[i]); }
    assert db !in ss[i + 1].dbs by { ClosedNow(ss[i], acts[i].id); }
    RunGrows(ss, acts, i, i + 1);
    RunGrows(ss, acts, i + 1, j);
    hide Inv;
    ClosedHasNoStatements(ss[j], h);
  }

  lemma ClosedNow(s: State, id: Id)
    requires Enabled(s, DoClose(id))
    ensures s.ops[id].db !in Step(s, DoClose(id)).dbs
  {
    CloseGrows(s, id);
    hide CachesOk, CloseList, Chains.CanStart, CloseStep;
  }

  // ---- Requests and slots ------------------------------------------------------------------

  /** Requests of one database run in arrival order and never overlap: while one has not finished,
      parked streams included, none that arrived after it has started or may start. */
  lemma OneAtATime(ss: seq<State>, acts: seq<Action>, i: nat, a: Id, b: Id)
    requires IsRun(ss, acts) && i <= |acts| && a in ss[i].ops && b in ss[i].ops && a != b
    requires a in ss[i].chains.links && b in ss[i].chains.links
    requires WorksOn(ss[i], a).Some? && WorksOn(ss[i], a) == WorksOn(ss[i], b)
    requires ss[i].chains.links[a].at < ss[i].chains.links[b].at && !ss[i].chains.links[a].status.Settled?
    ensures ss[i].chains.links[b].status.Waiting? && !MayStart(ss[i], b)
  {
    var s := ss[i];
    RunKeeps(ss, acts, i);
    CoreFacts(s);
    assert Chains.Inv(s.chains);
    hide Inv, IsRun, ChainInv, Chains.Inv;
    assert Chains.Before(s.chains, a, b);
    Chains.StartsInTurn(s.chains, b);
  }

  /** A request waits for nothing but the requests of its own database: it may start exactly when
      all that arrived before it on its chain have finished. */
  lemma WaitsForItsOwnDatabase(ss: seq<State>, acts: seq<Action>, i: nat, id: Id)
    requires IsRun(ss, acts) && i <= |acts| && id in ss[i].chains.links && ss[i].chains.links[id].status.Waiting?
    ensures MayStart(ss[i], id) <==>
              forall a :: Chains.Before(ss[i].chains, a, id) ==> ss[i].chains.links[a].status.Settled?
  {
    RunKeeps(ss, acts, i);
    CoreFacts(ss[i]);
    assert Chains.Inv(ss[i].chains);
    hide Inv, IsRun, Chains.Inv;
    Chains.StartsInTurn(ss[i].chains, id);
  }

  /** Two open databases never share a slot of the cancellation word, nor does one that is being
      opened; and no slot is ever lost. */
  lemma SlotsNeverShared(ss: seq<State>, acts: seq<Action>, i: nat)
    requires IsRun(ss, acts) && i <= |acts|
    ensures forall d, e :: d in ss[i].dbs && e in ss[i].dbs && d != e ==> ss[i].dbs[d].slot != ss[i].dbs[e].slot
    ensures forall d, r :: d in ss[i].dbs && r in ss[i].opening ==> ss[i].dbs[d].slot != ss[i].opening[r]
    ensures |ss[i].free| + |ss[i].dbs| + |ss[i].opening| == CANCEL_SLOTS
  {
    RunKeeps(ss, acts, i);
    var s := ss[i];
    assert SlotsOk(s.free, SlotsOf(s.dbs), s.opening);
    assert SlotsOf(s.dbs).Keys == s.dbs.Keys;
    assert |SlotsOf(s.dbs).Keys| == |s.dbs.Keys|;
    assert forall d :: d in s.dbs ==> SlotsOf(s.dbs)[d] == s.dbs[d].slot;
    hide Inv, IsRun, SlotsOf;
  }
}
