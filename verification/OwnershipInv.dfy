/** The invariant of Ownership: admission, handles and slots; and the part of the proof that is
    about admission. */
module OwnershipInv {
  import opened Wrappers
  import opened Session
  import opened Ledger
  import opened Ownership
  import Chains

  ghost predicate ChainInv(s: State) {
    Chains.Inv(s.chains) && s.ops.Keys == s.chains.links.Keys
  }

  /** A request that works on a database is on that database's chain. */
  ghost predicate KeyInv(s: State) {
    forall id :: id in s.ops && id in s.chains.links ==>
      && (WorksOn(s, id).Some? ==> s.chains.links[id].key == WorksOn(s, id).value)
      && (s.ops[id].OPEN? ==> s.chains.links[id].key == 0)
      && (s.ops[id].FINALIZE? || s.ops[id].QUERY_STMT? || s.ops[id].EXEC_STMT? ==> s.ops[id].stmtId < s.nextStmt)
  }

  ghost predicate RunOk(s: State, r: Id) {
    && r in s.runs && r in s.chains.links && r in s.ops
    && s.chains.links[r].status.Active? && s.chains.links[r].key == s.runs[r].db
    && s.runs[r].db in s.dbs && r !in s.opening
    && (!s.runs[r].owned ==>
          && s.ops[r].QUERY_STMT? && s.ops[r].stmtId in s.stmts
          && s.stmts[s.ops[r].stmtId] == Entry(s.runs[r].db, s.runs[r].stmt))
  }

  ghost predicate RunInv(s: State) {
    && (forall r :: r in s.runs ==> RunOk(s, r))
    && (forall r :: r in s.opening ==> r in s.chains.links && s.chains.links[r].status.Active? &&
                                       s.chains.links[r].key == 0)
  }

  ghost predicate IdsInv(s: State) {
    && (forall d :: d in s.dbs ==> 0 < d < s.nextDb)
    && (forall t :: t in s.stmts ==> t < s.nextStmt && s.stmts[t].db in s.dbs)
    && 0 < s.nextDb
  }

  ghost predicate Core(s: State) {
    ChainInv(s) && KeyInv(s) && RunInv(s) && IdsInv(s) && CachesOk(s)
  }

  /** Every place belongs to an open database, and so does the handle at it. */
  ghost predicate HomeInv(s: State) {
    && (forall p :: InPlace(s, p) ==> HandleAt(s, p) in s.home && s.home[HandleAt(s, p)] == DbOf(s, p))
    && (forall h :: 0 <= h < s.nextHandle ==> h in s.home)
  }

  ghost predicate Books(s: State) { Balanced(View(s)) && HomeInv(s) }

  /** Slots in use are distinct and not free, and none is missing. */
  ghost predicate SlotsOk(free: seq<nat>, used: map<Db, nat>, opening: map<Id, nat>) {
    && NoDup(free)
    && (forall n :: n in free ==> n < CANCEL_SLOTS)
    && (forall d :: d in used ==> used[d] < CANCEL_SLOTS && used[d] !in free)
    && (forall r :: r in opening ==> opening[r] < CANCEL_SLOTS && opening[r] !in free)
    && (forall d, e :: d in used && e in used && used[d] == used[e] ==> d == e)
    && (forall r, q :: r in opening && q in opening && opening[r] == opening[q] ==> r == q)
    && (forall d, r :: d in used && r in opening ==> used[d] != opening[r])
    && |free| + |used| + |opening| == CANCEL_SLOTS
  }

  function SlotsOf(dbs: map<Db, OpenDb>): map<Db, nat> {
    map d | d in dbs :: dbs[d].slot
  }

  ghost predicate SlotInv(s: State) { SlotsOk(s.free, SlotsOf(s.dbs), s.opening) }

  ghost predicate Inv(s: State) { Core(s) && Books(s) && SlotInv(s) }

  // ---- Admission -----------------------------------------------------------------

  /** While a request may start, or runs, no other request works on its chain's database. */
  lemma AloneOnChain(s: State, id: Id, r: Id)
    requires ChainInv(s) && RunInv(s) && id in s.chains.links && r in s.runs && r != id
    requires Chains.CanStart(s.chains, id) || s.chains.links[id].status.Active?
    ensures s.runs[r].db != s.chains.links[id].key
  {
    assert RunOk(s, r);
    hide Chains.Inv;
    if s.chains.links[r].key == s.chains.links[id].key {
      Chains.NeverOverlap(s.chains, r, id);
    }
  }

  /** What taking a request from one status to another leaves alone. */
  lemma ChainStarted(s: State, id: Id)
    requires ChainInv(s) && MayStart(s, id)
    ensures ChainInv(Started(s, id)) && id in s.chains.links
  {
    Chains.StartKeeps(s.chains, id);
    hide Chains.Inv;
  }

  lemma ChainEnded(s: State, id: Id)
    requires ChainInv(s) && id in s.chains.links && s.chains.links[id].status.Active?
    ensures ChainInv(Ended(s, id))
  {
    Chains.SettleKeeps(s.chains, id);
    hide Chains.Inv;
  }

  /** The links of `t` are those of `s` but for the status of `id`. */
  ghost predicate LinksBut(s: State, t: State, id: Id) {
    && t.ops == s.ops && t.chains.links.Keys == s.chains.links.Keys
    && forall k :: k in s.chains.links ==>
         && t.chains.links[k].key == s.chains.links[k].key
         && (k != id ==> t.chains.links[k] == s.chains.links[k])
  }

  /** Entries of the `statements` map never change; new ones have new ids. */
  ghost predicate EntriesGrow(s: State, t: State) {
    && s.nextStmt <= t.nextStmt
    && forall k :: k in t.stmts ==> (k in s.stmts && t.stmts[k] == s.stmts[k]) || k >= s.nextStmt
  }

  lemma KeyKept(s: State, t: State, id: Id)
    requires KeyInv(s) && s.ops.Keys == s.chains.links.Keys && LinksBut(s, t, id) && EntriesGrow(s, t)
    ensures KeyInv(t)
  {
    forall k | k in t.ops && k in t.chains.links
      ensures WorksOn(t, k).Some? ==> t.chains.links[k].key == WorksOn(t, k).value
      ensures t.ops[k].FINALIZE? || t.ops[k].QUERY_STMT? || t.ops[k].EXEC_STMT? ==> t.ops[k].stmtId < t.nextStmt
    {
      assert WorksOn(t, k).Some? ==> WorksOn(t, k) == WorksOn(s, k);
    }
  }

  /** Whatever a step about `id` must leave of the other runs. */
  ghost predicate RunsBut(s: State, t: State, id: Id) {
    && (forall r :: r in t.runs && r != id ==>
          && r in s.runs && t.runs[r] == s.runs[r] && t.runs[r].db in t.dbs && r !in t.opening
          && (!t.runs[r].owned && r in s.ops ==>
                s.ops[r].QUERY_STMT? && s.ops[r].stmtId in t.stmts && s.ops[r].stmtId < s.nextStmt))
    && (forall r :: r in t.opening && r != id ==> r in s.opening)
  }

  lemma RunKept(s: State, t: State, id: Id)
    requires RunInv(s) && LinksBut(s, t, id) && EntriesGrow(s, t) && RunsBut(s, t, id)
    requires id in s.chains.links
    requires id in t.runs ==> RunOk(t, id)
    requires id in t.opening ==> t.chains.links[id].status.Active? && t.chains.links[id].key == 0
    ensures RunInv(t)
  {
    forall r | r in t.runs ensures RunOk(t, r) {
      if r != id { assert RunOk(s, r); }
    }
  }

  /** Core for a step that lets request `id` on, ends it, or both. */
  lemma CoreKept(s: State, t: State, id: Id)
    requires Core(s) && LinksBut(s, t, id) && id in s.chains.links
    requires ChainInv(t) && IdsInv(t) && CachesOk(t)
    requires EntriesGrow(s, t) && RunsBut(s, t, id)
    requires id in t.runs ==> RunOk(t, id)
    requires id in t.opening ==> t.chains.links[id].status.Active? && t.chains.links[id].key == 0
    ensures Core(t)
  {
    assert s.ops.Keys == s.chains.links.Keys;
    hide Chains.Inv, CachesOk, ChainInv, KeyInv, RunInv, IdsInv, EntriesGrow, RunsBut, LinksBut, RunOk;
    KeyKept(s, t, id);
    RunKept(s, t, id);
  }

  lemma StartedLinks(s: State, t: State, id: Id)
    requires id in s.chains.links && t.ops == s.ops
    requires t.chains == Chains.Start(s.chains, id) || t.chains == Chains.Settle(s.chains, id) ||
             t.chains == Chains.Settle(Chains.Start(s.chains, id), id)
    ensures LinksBut(s, t, id)
  {}

  // ---- Caches ----------------------------------------------------------------------

  lemma SameCaches(s: State, t: State)
    requires CachesOk(s) && t.dbs == s.dbs
    ensures CachesOk(t)
  {}

  /** Nothing but caches and handle counts changes. */
  ghost predicate CacheOnly(s: State, t: State) {
    && t == s.(dbs := t.dbs, finalised := t.finalised, lost := t.lost, nextHandle := t.nextHandle, home := t.home)
    && t.dbs.Keys == s.dbs.Keys
    && forall d :: d in s.dbs ==> t.dbs[d].slot == s.dbs[d].slot
  }

  lemma ReleaseOk(s: State, db: Db, stmt: Stmt)
    requires CachesOk(s) && db in s.dbs
    ensures CachesOk(ReleaseIn(s, db, stmt)) && CacheOnly(s, ReleaseIn(s, db, stmt))
  {
    ReleaseRefines(s.dbs[db].cache, stmt);
    hide MapInv;
  }

  lemma DiscardOk(s: State, db: Db, stmt: Stmt)
    requires CachesOk(s) && db in s.dbs
    ensures CachesOk(DiscardIn(s, db, stmt)) && CacheOnly(s, DiscardIn(s, db, stmt))
  {
    DeleteKeeps(s.dbs[db].cache, stmt.sql);
    hide MapInv;
  }

  lemma PrepareOk(s: State, db: Db, sql: Sql, compiled: Compiled)
    requires CachesOk(s) && db in s.dbs
    ensures CachesOk(PrepareIn(s, db, sql, compiled).0) && CacheOnly(s, PrepareIn(s, db, sql, compiled).0)
  {
    PrepareKeeps(s.dbs[db].cache, sql, compiled, s.nextHandle);
    hide CacheInv, PrepareOne;
  }

  lemma GiveBackOk(s: State, run: Run, drop: bool)
    requires CachesOk(s) && run.db in s.dbs
    ensures CachesOk(GiveBack(s, run, drop)) && CacheOnly(s, GiveBack(s, run, drop))
  {
    ReleaseOk(s, run.db, run.stmt);
    DiscardOk(s, run.db, run.stmt);
    hide CacheInv, ReleaseIn, DiscardIn;
  }

  // ---- Core, step by step -----------------------------------------------------------

  lemma ArriveKeys(s: State, id: Id, op: Op)
    requires KeyInv(s) && Enabled(s, Arrive(id, op))
    ensures KeyInv(Step(s, Arrive(id, op)))
  {
    hide CachesOk;
    var t := Step(s, Arrive(id, op));
    forall k | k in t.ops && k in t.chains.links
      ensures WorksOn(t, k).Some? ==> t.chains.links[k].key == WorksOn(t, k).value
      ensures t.ops[k].FINALIZE? || t.ops[k].QUERY_STMT? || t.ops[k].EXEC_STMT? ==> t.ops[k].stmtId < t.nextStmt
    {
      if k != id { assert WorksOn(t, k) == WorksOn(s, k); }
    }
  }

  lemma ArriveRuns(s: State, id: Id, op: Op)
    requires RunInv(s) && Enabled(s, Arrive(id, op))
    ensures RunInv(Step(s, Arrive(id, op)))
  {
    hide CachesOk;
    var t := Step(s, Arrive(id, op));
    forall r | r in t.runs ensures RunOk(t, r) { assert RunOk(s, r); }
  }

  lemma ArriveCore(s: State, id: Id, op: Op)
    requires Core(s) && Enabled(s, Arrive(id, op))
    ensures Core(Step(s, Arrive(id, op)))
  {
    hide Chains.Inv, CachesOk, KeyInv, RunInv, ChainKey;
    Chains.DispatchKeeps(s.chains, id, ChainKey(s, op));
    ArriveKeys(s, id, op);
    ArriveRuns(s, id, op);
    SameCaches(s, Step(s, Arrive(id, op)));
  }

  /** The runs besides `id` are in order. */
  ghost predicate RunsOk(s: State, id: Id) {
    forall r :: r in s.runs && r != id ==>
      && s.runs[r].db in s.dbs && r !in s.opening && r in s.ops
      && (!s.runs[r].owned ==>
            && s.ops[r].QUERY_STMT? && s.ops[r].stmtId in s.stmts
            && s.stmts[s.ops[r].stmtId].db == s.runs[r].db && s.ops[r].stmtId < s.nextStmt)
  }

  /** What the other runs look like when `id` may start, or runs. */
  lemma OtherRuns(s: State, id: Id)
    requires Core(s)
    ensures RunsOk(s, id)
  {
    hide Chains.Inv, CachesOk, KeyInv, ChainInv;
    forall r | r in s.runs && r != id
      ensures && s.runs[r].db in s.dbs && r !in s.opening && r in s.ops
              && (!s.runs[r].owned ==>
                    && s.ops[r].QUERY_STMT? && s.ops[r].stmtId in s.stmts
                    && s.stmts[s.ops[r].stmtId].db == s.runs[r].db && s.ops[r].stmtId < s.nextStmt)
    {
      assert RunOk(s, r);
    }
  }

  /** A request that may start is neither running nor opening. */
  lemma NotRunningYet(s: State, id: Id)
    requires RunInv(s) && MayStart(s, id)
    ensures id !in s.runs && id !in s.opening
  {
    assert id in s.runs ==> RunOk(s, id);
  }

  /** Core for a step that admits `id`, and may end it at once, and does `t` otherwise. */
  lemma AdmitCore(s: State, t: State, id: Id)
    requires Core(s) && MayStart(s, id) && t.ops == s.ops
    requires t.chains == Chains.Start(s.chains, id) || t.chains == Chains.Settle(Chains.Start(s.chains, id), id)
    requires IdsInv(t) && CachesOk(t) && EntriesGrow(s, t) && RunsBut(s, t, id)
    requires id in t.runs ==> RunOk(t, id)
    requires id in t.opening ==> t.chains.links[id].status.Active? && t.chains.links[id].key == 0
    ensures Core(t)
  {
    hide Chains.Inv, CachesOk, KeyInv, RunInv, IdsInv, EntriesGrow, RunsBut, RunOk;
    ChainStarted(s, id);
    if t.chains != Chains.Start(s.chains, id) { ChainEnded(Started(s, id), id); }
    StartedLinks(s, t, id);
    CoreKept(s, t, id);
  }

  /** A request that is admitted and refused at once. */
  lemma RefusedCore(s: State, id: Id)
    requires Core(s) && MayStart(s, id)
    ensures Core(Ended(Started(s, id), id))
  {
    assert id in s.chains.links;
    hide Chains.Inv, Chains.CanStart, CachesOk, KeyInv, RunInv, ChainInv;
    OtherRuns(s, id);
    NotRunningYet(s, id);
    AdmitCore(s, Ended(Started(s, id), id), id);
  }

  lemma CoreFacts(s: State)
    requires Core(s)
    ensures CachesOk(s) && IdsInv(s) && ChainInv(s) && s.ops.Keys == s.chains.links.Keys
    ensures forall id :: id in s.ops && WorksOn(s, id).Some? ==> s.chains.links[id].key == WorksOn(s, id).value
    ensures forall id :: id in s.ops && s.ops[id].OPEN? ==> s.chains.links[id].key == 0
  {
    hide Chains.Inv, CachesOk, RunInv, IdsInv;
  }

  /** A request that runs or opens is active, and does not do both. */
  lemma ActiveNow(s: State, id: Id)
    requires Core(s) && (id in s.runs || id in s.opening)
    ensures id in s.chains.links && s.chains.links[id].status.Active? && !(id in s.runs && id in s.opening)
  {
    hide Chains.Inv, CachesOk, KeyInv, ChainInv;
    assert id in s.runs ==> RunOk(s, id);
  }

  lemma EmptyCacheOk()
    ensures CacheInv(EMPTY_CACHE)
  {}

  lemma OpenedCaches(s: State, id: Id, ok: bool)
    requires CachesOk(s) && id in s.opening && id in s.chains.links
    ensures CachesOk(OpenedStep(s, id, ok))
  {
    EmptyCacheOk();
    hide CacheInv;
  }

  /** Core for a step that ends `id`, and does `t` otherwise. */
  lemma EndCore(s: State, t: State, id: Id)
    requires Core(s) && (id in s.runs || id in s.opening) && t.ops == s.ops
    requires t.chains == Chains.Settle(s.chains, id)
    requires IdsInv(t) && CachesOk(t) && EntriesGrow(s, t) && RunsBut(s, t, id)
    requires id !in t.runs && id !in t.opening
    ensures Core(t)
  {
    hide Chains.Inv, CachesOk, KeyInv, RunInv, IdsInv, EntriesGrow, RunsBut, RunOk;
    ActiveNow(s, id);
    ChainEnded(s, id);
    StartedLinks(s, t, id);
    CoreKept(s, t, id);
  }

  lemma OpenedCore(s: State, id: Id, ok: bool)
    requires Core(s) && id in s.opening && id in s.chains.links
    ensures Core(OpenedStep(s, id, ok))
  {
    hide Core, CachesOk, ChainInv;
    CoreFacts(s);
    ActiveNow(s, id);
    OtherRuns(s, id);
    OpenedCaches(s, id, ok);
    EndCore(s, OpenedStep(s, id, ok), id);
  }

  /** A change of caches alone. */
  lemma CacheOnlyCore(s: State, t: State)
    requires Core(s) && CacheOnly(s, t) && CachesOk(t)
    ensures Core(t)
  {
    hide Chains.Inv, CachesOk;
    forall id | id in t.ops ensures WorksOn(t, id) == WorksOn(s, id) {}
    forall r | r in t.runs ensures RunOk(t, r) { assert RunOk(s, r); }
  }

  lemma QueryCore(s: State, id: Id, compiled: Compiled)
    requires Core(s) && MayStart(s, id) && s.ops[id].QUERY?
    ensures Core(QueryStep(s, id, compiled))
  {
    hide Core, CachesOk, ChainInv, PrepareIn, Chains.CanStart;
    var db := s.ops[id].db;
    if db !in s.dbs {
      RefusedCore(s, id);
    } else {
      CoreFacts(s);
      PrepareOk(s, db, s.ops[id].sql, compiled);
      var (p, stmt) := PrepareIn(s, db, s.ops[id].sql, compiled);
      CacheOnlyCore(s, p);
      match stmt
      case None => RefusedCore(p, id);
      case Some(st) => HoldCore(p, id, Run(db, st, true));
    }
  }

  /** The other runs do not notice a step that only changes `id`'s own run, entries that are
      new, or handle counts. */
  lemma OthersUnmoved(s: State, t: State, id: Id)
    requires Core(s) && MayStart(s, id) && EntriesGrow(s, t)
    requires t.dbs == s.dbs && t.opening == s.opening && s.stmts.Keys <= t.stmts.Keys
    requires forall r :: r in t.runs && r != id ==> r in s.runs && t.runs[r] == s.runs[r]
    ensures RunsBut(s, t, id)
  {
    OtherRuns(s, id);
    hide Core, EntriesGrow, Chains.CanStart;
  }

  lemma HoldRuns(s: State, t: State, id: Id, run: Run)
    requires Core(s) && MayStart(s, id) && t == s.(chains := t.chains, runs := s.runs[id := run])
    ensures IdsInv(t) && EntriesGrow(s, t) && RunsBut(s, t, id)
  {
    CoreFacts(s);
    hide Core, CachesOk, ChainInv, Chains.CanStart;
    OthersUnmoved(s, t, id);
  }

  /** A request admitted to run on the database of its chain. */
  lemma HoldOk(s: State, t: State, id: Id, run: Run)
    requires Core(s) && MayStart(s, id) && WorksOn(s, id) == Some(run.db) && run.db in s.dbs
    requires !run.owned ==> s.ops[id].QUERY_STMT? && s.ops[id].stmtId in s.stmts &&
                            s.stmts[s.ops[id].stmtId] == Entry(run.db, run.stmt)
    requires t == s.(chains := Chains.Start(s.chains, id), runs := s.runs[id := run])
    ensures RunOk(t, id)
  {
    CoreFacts(s);
    CoreNotRunning(s, id);
    hide Core, CachesOk, ChainInv, Chains.CanStart, IdsInv;
  }

  lemma HoldCore(s: State, id: Id, run: Run)
    requires Core(s) && MayStart(s, id) && WorksOn(s, id) == Some(run.db) && run.db in s.dbs
    requires !run.owned ==> s.ops[id].QUERY_STMT? && s.ops[id].stmtId in s.stmts &&
                            s.stmts[s.ops[id].stmtId] == Entry(run.db, run.stmt)
    ensures id in s.chains.links && Core(Started(s, id).(runs := s.runs[id := run]))
  {
    CoreNotRunning(s, id);
    CoreFacts(s);
    hide Core, CachesOk, ChainInv, Chains.CanStart, IdsInv, EntriesGrow, RunsBut, RunOk;
    var t := Started(s, id).(runs := s.runs[id := run]);
    HoldRuns(s, t, id, run);
    HoldOk(s, t, id, run);
    SameCaches(s, t);
    AdmitCore(s, t, id);
  }

  lemma CoreNotRunning(s: State, id: Id)
    requires Core(s) && MayStart(s, id)
    ensures id !in s.runs && id !in s.opening && id in s.chains.links
  {
    NotRunningYet(s, id);
  }

  lemma OpenCore(s: State, id: Id)
    requires Core(s) && MayStart(s, id) && s.ops[id].OPEN?
    ensures Core(OpenStep(s, id))
  {
    hide Core, CachesOk, ChainInv, Chains.CanStart;
    if s.free == [] {
      RefusedCore(s, id);
    } else {
      CoreFacts(s);
      OtherRuns(s, id);
      CoreNotRunning(s, id);
      SameCaches(s, OpenStep(s, id));
      AdmitCore(s, OpenStep(s, id), id);
    }
  }

  lemma PrepareCore(s: State, id: Id, compiled: Compiled)
    requires Core(s) && MayStart(s, id) && s.ops[id].PREPARE?
    ensures Core(PrepareStep(s, id, compiled))
  {
    hide Core, CachesOk, ChainInv, PrepareIn, Chains.CanStart;
    var db := s.ops[id].db;
    if db !in s.dbs {
      RefusedCore(s, id);
    } else {
      CoreFacts(s);
      PrepareOk(s, db, s.ops[id].sql, compiled);
      var (p, stmt) := PrepareIn(s, db, s.ops[id].sql, compiled);
      CacheOnlyCore(s, p);
      match stmt
      case None => RefusedCore(p, id);
      case Some(st) => ListCore(p, id, Entry(db, st));
    }
  }

  /** A request admitted, and ended at once with a new entry. */
  lemma ListParts(s: State, t: State, id: Id, entry: Entry)
    requires Core(s) && MayStart(s, id) && entry.db in s.dbs
    requires t == s.(chains := t.chains, stmts := s.stmts[s.nextStmt := entry], nextStmt := s.nextStmt + 1)
    ensures IdsInv(t) && EntriesGrow(s, t) && RunsBut(s, t, id)
  {
    CoreFacts(s);
    hide Core, CachesOk, ChainInv, Chains.CanStart;
    OthersUnmoved(s, t, id);
  }

  lemma ListCore(s: State, id: Id, entry: Entry)
    requires Core(s) && MayStart(s, id) && entry.db in s.dbs
    ensures id in s.chains.links
    ensures Core(Ended(Started(s, id), id).(stmts := s.stmts[s.nextStmt := entry], nextStmt := s.nextStmt + 1))
  {
    CoreNotRunning(s, id);
    CoreFacts(s);
    hide Core, CachesOk, ChainInv, Chains.CanStart, IdsInv, EntriesGrow, RunsBut, RunOk;
    var t := Ended(Started(s, id), id).(stmts := s.stmts[s.nextStmt := entry], nextStmt := s.nextStmt + 1);
    ListParts(s, t, id, entry);
    SameCaches(s, t);
    AdmitCore(s, t, id);
  }

  lemma QueryStmtCore(s: State, id: Id)
    requires Core(s) && MayStart(s, id) && s.ops[id].QUERY_STMT?
    ensures Core(QueryStmtStep(s, id))
  {
    hide Core, Chains.CanStart;
    var k := s.ops[id].stmtId;
    if k !in s.stmts {
      RefusedCore(s, id);
    } else {
      CoreFacts(s);
      hide CachesOk, ChainInv;
      HoldCore(s, id, Run(s.stmts[k].db, s.stmts[k].stmt, false));
    }
  }

  lemma DoneCore(s: State, id: Id, drop: bool)
    requires Core(s) && id in s.runs && id in s.chains.links && s.runs[id].db in s.dbs
    requires MapInv(s.dbs[s.runs[id].db].cache)
    ensures Core(QueryDone(s, id, drop))
  {
    hide Core, CachesOk, ChainInv, GiveBack, MapInv;
    var u := s.(runs := s.runs - {id});
    var t := QueryDone(s, id, drop);
    CoreFacts(s);
    ActiveNow(s, id);
    OtherRuns(s, id);
    SameCaches(s, u);
    GiveBackOk(u, s.runs[id], drop);
    SameCaches(GiveBack(u, s.runs[id], drop), t);
    EndCore(s, t, id);
  }

  lemma FinalizeCore(s: State, id: Id)
    requires Core(s) && MayStart(s, id) && s.ops[id].FINALIZE?
    requires s.ops[id].stmtId in s.stmts ==>
               var db := s.stmts[s.ops[id].stmtId].db; db in s.dbs && MapInv(s.dbs[db].cache)
    ensures Core(FinalizeStep(s, id))
  {
    hide Core, CachesOk, ChainInv, ReleaseIn, MapInv, Chains.CanStart;
    var k := s.ops[id].stmtId;
    var t := FinalizeStep(s, id);
    if k !in s.stmts {
      RefusedCore(s, id);
    } else {
      var db := s.stmts[k].db;
      var u := s.(stmts := s.stmts - {k});
      CoreFacts(s);
      assert WorksOn(s, id) == Some(db);
      OtherRuns(s, id);
      OthersElsewhere(s, id);
      CoreNotRunning(s, id);
      SameCaches(s, u);
      ReleaseOk(u, db, s.stmts[k].stmt);
      SameCaches(ReleaseIn(u, db, s.stmts[k].stmt), t);
      AdmitCore(s, t, id);
    }
  }

  /** No run is on the database of a request that may start. */
  lemma OthersElsewhere(s: State, id: Id)
    requires Core(s) && MayStart(s, id)
    ensures forall r :: r in s.runs ==> s.runs[r].db != s.chains.links[id].key
  {
    NotRunningYet(s, id);
    hide Chains.Inv, KeyInv, CachesOk, IdsInv, RunInv, ChainInv;
    forall r | r in s.runs ensures s.runs[r].db != s.chains.links[id].key { AloneOnChain(s, id, r); }
  }

  /** What a CLOSE takes away. */
  ghost predicate Closed(s: State, t: State, db: Db) {
    && t == s.(chains := t.chains, stmts := t.stmts, dbs := t.dbs, free := t.free, finalised := t.finalised)
    && t.dbs == s.dbs - {db}
    && t.stmts == map k | k in s.stmts && s.stmts[k].db != db :: s.stmts[k]
  }

  lemma CloseIds(s: State, t: State, db: Db)
    requires IdsInv(s) && Closed(s, t, db)
    ensures IdsInv(t) && EntriesGrow(s, t)
  {}

  lemma CloseRuns(s: State, t: State, id: Id, db: Db)
    requires RunsOk(s, id) && Closed(s, t, db) && forall r :: r in s.runs ==> s.runs[r].db != db
    ensures RunsBut(s, t, id)
  {}

  lemma CloseCore(s: State, id: Id)
    requires Core(s) && MayStart(s, id) && s.ops[id].CLOSE?
    requires s.ops[id].db in s.dbs ==> forall p :: p in CloseList(s, s.ops[id].db) ==> InPlace(s, p)
    ensures Core(CloseStep(s, id))
  {
    hide Core, CachesOk, ChainInv, CloseList, At, InPlace, HandlesAt, Chains.CanStart, IdsInv, EntriesGrow, RunsBut,
      RunOk;
    var db := s.ops[id].db;
    var t := CloseStep(s, id);
    if db !in s.dbs {
      RefusedCore(s, id);
    } else {
      CoreFacts(s);
      CoreNotRunning(s, id);
      assert WorksOn(s, id) == Some(db);
      OthersElsewhere(s, id);
      OtherRuns(s, id);
      CloseIds(s, t, db);
      CloseRuns(s, t, id, db);
      FewerCaches(s, t);
      AdmitCore(s, t, id);
    }
  }

  lemma FewerCaches(s: State, t: State)
    requires CachesOk(s) && forall d :: d in t.dbs ==> d in s.dbs && t.dbs[d] == s.dbs[d]
    ensures CachesOk(t)
  {
    hide CacheInv;
  }

  lemma ExecCore(s: State, id: Id, n: nat)
    requires Core(s) && MayStart(s, id) && s.ops[id].EXEC?
    ensures Core(ExecStep(s, id, n))
  {
    hide Core, CachesOk, MarkHome, Chains.CanStart;
    if s.ops[id].db !in s.dbs {
      RefusedCore(s, id);
    } else {
      var p := s.(nextHandle := s.nextHandle + n,
                  finalised := s.finalised + HandlesFrom(s.nextHandle, n),
                  home := MarkHome(s.home, s.nextHandle, n, s.ops[id].db));
      CoreFacts(s);
      SameCaches(s, p);
      CacheOnlyCore(s, p);
      RefusedCore(p, id);
      assert ExecStep(s, id, n) == Ended(Started(p, id), id);
    }
  }

  lemma StepCore(s: State, a: Action)
    requires Core(s) && Enabled(s, a)
    ensures Core(Step(s, a))
  {
    assert a.EndQuery? ==> MapInv(s.dbs[s.runs[a.id].db].cache) by { hide Core; }
    assert a.DoFinalize? && s.ops[a.id].stmtId in s.stmts ==>
             MapInv(s.dbs[s.stmts[s.ops[a.id].stmtId].db].cache) by { hide Core; }
    hide Core, CachesOk, MapInv, OpenStep, OpenedStep, QueryStep, PrepareStep, QueryStmtStep, QueryDone, FinalizeStep,
      CloseStep, ExecStep, CloseList;
    match a
    case Arrive(id, op) => ArriveCore(s, id, op);
    case BeginOpen(id) => OpenCore(s, id);
    case EndOpen(id, ok) => OpenedCore(s, id, ok);
    case BeginQuery(id, c) => QueryCore(s, id, c);
    case BeginQueryStmt(id) => QueryStmtCore(s, id);
    case StepQuery(_) =>
    case EndQuery(id, drop) => DoneCore(s, id, drop);
    case DoPrepare(id, c) => PrepareCore(s, id, c);
    case DoFinalize(id) => FinalizeCore(s, id);
    case DoClose(id) => CloseCore(s, id);
    case DoExec(id, n) => ExecCore(s, id, n);
    case DoExecStmt(id) => RefusedCore(s, id);
  }
}
