/** Databases, prepared statements and running requests of the worker: src/worker/index.ts over
    Session, with requests admitted by the promise chains.  It accounts for every statement
    handle and every cancellation slot. */
module Ownership {
  import opened Wrappers
  import opened Session
  import opened Ledger
  import Chains

  const CANCEL_SLOTS := 256

  type Db = nat
  type StmtId = nat
  type Id = nat

  datatype Op =
    | OPEN | CLOSE(db: Db) | PREPARE(db: Db, sql: Sql) | FINALIZE(stmtId: StmtId)
    | QUERY(db: Db, sql: Sql) | QUERY_STMT(stmtId: StmtId)
    | EXEC(db: Db) | EXEC_STMT(stmtId: StmtId)

  /** An open database; an entry of the `statements` map; a query between its first step and its
      finally, which holds its statement or borrows an entry's. */
  datatype OpenDb = OpenDb(cache: Cache, slot: nat)
  datatype Entry = Entry(db: Db, stmt: Stmt)
  datatype Run = Run(db: Db, stmt: Stmt, owned: bool)

  /** `home` is history: the database a handle was compiled for. */
  datatype State = State(
    chains: Chains.State, ops: map<Id, Op>,
    dbs: map<Db, OpenDb>, stmts: map<StmtId, Entry>, runs: map<Id, Run>,
    opening: map<Id, nat>, free: seq<nat>,
    nextDb: Db, nextStmt: StmtId, nextHandle: Handle,
    finalised: seq<Handle>, lost: seq<Handle>, home: map<Handle, Db>)

  function Countdown(n: nat): seq<nat> { if n == 0 then [] else [n - 1] + Countdown(n - 1) }

  const INIT := State(Chains.State(map[], map[], 0), map[], map[], map[], map[], map[],
                      Countdown(CANCEL_SLOTS), 1, 1, 0, [], [], map[])

  datatype Action =
    | Arrive(id: Id, op: Op)
    | BeginOpen(id: Id) | EndOpen(id: Id, ok: bool)
    | BeginQuery(id: Id, compiled: Compiled) | BeginQueryStmt(id: Id)
    | StepQuery(id: Id) | EndQuery(id: Id, drop: bool)
    | DoPrepare(id: Id, compiled: Compiled) | DoFinalize(id: Id) | DoClose(id: Id)
    | DoExec(id: Id, statements: nat) | DoExecStmt(id: Id)

  /** chainKey, when the frame is dispatched. */
  function ChainKey(s: State, op: Op): Chains.Key {
    match op
    case OPEN => 0
    case CLOSE(db) => db
    case PREPARE(db, _) => db
    case QUERY(db, _) => db
    case EXEC(db) => db
    case FINALIZE(t) => if t in s.stmts then s.stmts[t].db else 0
    case QUERY_STMT(t) => if t in s.stmts then s.stmts[t].db else 0
    case EXEC_STMT(t) => if t in s.stmts then s.stmts[t].db else 0
  }

  // ---- Effects -----------------------------------------------------------------

  function SetCache(s: State, db: Db, c: Cache): State
    requires db in s.dbs
  {
    s.(dbs := s.dbs[db := s.dbs[db].(cache := c)])
  }

  function MarkHome(home: map<Handle, Db>, from: Handle, n: nat, db: Db): map<Handle, Db> {
    if n == 0 then home else MarkHome(home, from, n - 1, db)[from + n - 1 := db]
  }

  /** prepareOne on an open database; the statement, if any, is not yet at a place. */
  function PrepareIn(s: State, db: Db, sql: Sql, compiled: Compiled): (State, Option<Stmt>)
    requires db in s.dbs
  {
    var p := PrepareOne(s.dbs[db].cache, sql, compiled, s.nextHandle);
    (SetCache(s, db, p.cache).(
       nextHandle := s.nextHandle + p.used, finalised := s.finalised + p.finalised,
       lost := s.lost + p.lost, home := MarkHome(s.home, s.nextHandle, p.used, db)),
     p.stmt)
  }

  function ReleaseIn(s: State, db: Db, stmt: Stmt): State
    requires db in s.dbs && MapInv(s.dbs[db].cache)
  {
    var (c, fin) := Release(s.dbs[db].cache, false, stmt);
    SetCache(s, db, c).(finalised := s.finalised + fin)
  }

  function DiscardIn(s: State, db: Db, stmt: Stmt): State
    requires db in s.dbs
  {
    SetCache(s, db, Discard(s.dbs[db].cache, stmt)).(finalised := s.finalised + [stmt.handle])
  }

  function ListedOf(stmts: map<StmtId, Entry>, db: Db, n: StmtId): seq<Place> {
    if n == 0 then []
    else ListedOf(stmts, db, n - 1) +
         (if n - 1 in stmts && stmts[n - 1].db == db then [Listed(n - 1)] else [])
  }

  function CachedOf(db: Db, order: seq<Sql>): seq<Place> {
    seq(|order|, i requires 0 <= i < |order| => Cached(db, order[i]))
  }

  /** What closeDatabase finalises, in order: the database's entries, then its cache. */
  function CloseList(s: State, db: Db): seq<Place>
    requires db in s.dbs
  {
    ListedOf(s.stmts, db, s.nextStmt) + CachedOf(db, s.dbs[db].cache.order)
  }

  // ---- Places ------------------------------------------------------------------

  predicate InPlace(s: State, p: Place) {
    match p
    case Cached(d, q) => d in s.dbs && q in s.dbs[d].cache.stmts
    case Listed(t) => t in s.stmts
    case Held(r) => r in s.runs && s.runs[r].owned
  }

  function HandleAt(s: State, p: Place): Handle
    requires InPlace(s, p)
  {
    match p
    case Cached(d, q) => s.dbs[d].cache.stmts[q].handle
    case Listed(t) => s.stmts[t].stmt.handle
    case Held(r) => s.runs[r].stmt.handle
  }

  function DbOf(s: State, p: Place): Db
    requires InPlace(s, p)
  {
    match p
    case Cached(d, _) => d
    case Listed(t) => s.stmts[t].db
    case Held(r) => s.runs[r].db
  }

  function Places(s: State): set<Place> {
    (set d, q | d in s.dbs && q in s.dbs[d].cache.stmts :: Cached(d, q)) +
    (set t | t in s.stmts :: Listed(t)) +
    (set r | r in s.runs && s.runs[r].owned :: Held(r))
  }

  function At(s: State): (at: map<Place, Handle>)
    ensures forall p :: p in at <==> InPlace(s, p)
    ensures forall p :: p in at ==> at[p] == HandleAt(s, p)
  {
    assert forall p :: p in Places(s) <==> InPlace(s, p);
    map p | p in Places(s) :: HandleAt(s, p)
  }

  /** The ledger of the state. */
  function View(s: State): Book {
    Book(At(s), s.finalised, s.lost, s.nextHandle)
  }

  // ---- The machine -------------------------------------------------------------

  ghost predicate CachesOk(s: State) { forall d :: d in s.dbs ==> CacheInv(s.dbs[d].cache) }

  function Started(s: State, id: Id): State
    requires id in s.chains.links
  {
    s.(chains := Chains.Start(s.chains, id))
  }

  function Ended(s: State, id: Id): State
    requires id in s.chains.links
  {
    s.(chains := Chains.Settle(s.chains, id))
  }

  predicate MayStart(s: State, id: Id) { id in s.ops && Chains.CanStart(s.chains, id) }

  ghost predicate Enabled(s: State, a: Action) {
    && CachesOk(s)
    && match a
       case Arrive(id, op) =>
         // Clients only use statement ids they were sent.
         id !in s.ops && id !in s.chains.links &&
         (op.FINALIZE? || op.QUERY_STMT? || op.EXEC_STMT? ==> op.stmtId < s.nextStmt)
       case BeginOpen(id) => MayStart(s, id) && s.ops[id].OPEN?
       case EndOpen(id, _) => id in s.opening && id in s.chains.links
       case BeginQuery(id, _) => MayStart(s, id) && s.ops[id].QUERY?
       case BeginQueryStmt(id) => MayStart(s, id) && s.ops[id].QUERY_STMT?
       case StepQuery(id) => id in s.runs
       case EndQuery(id, _) => id in s.runs && id in s.chains.links && s.runs[id].db in s.dbs
       case DoPrepare(id, _) => MayStart(s, id) && s.ops[id].PREPARE?
       case DoFinalize(id) => MayStart(s, id) && s.ops[id].FINALIZE? &&
                              (s.ops[id].stmtId in s.stmts ==> s.stmts[s.ops[id].stmtId].db in s.dbs)
       case DoClose(id) => MayStart(s, id) && s.ops[id].CLOSE? &&
                           (s.ops[id].db in s.dbs ==> forall p :: p in CloseList(s, s.ops[id].db) ==> InPlace(s, p))
       case DoExec(id, _) => MayStart(s, id) && s.ops[id].EXEC?
       case DoExecStmt(id) => MayStart(s, id) && s.ops[id].EXEC_STMT?
  }

  function OpenStep(s: State, id: Id): State
    requires MayStart(s, id)
  {
    if s.free == [] then Ended(Started(s, id), id)
    else Started(s, id).(opening := s.opening[id := s.free[|s.free| - 1]], free := s.free[..|s.free| - 1])
  }

  function OpenedStep(s: State, id: Id, ok: bool): State
    requires id in s.opening && id in s.chains.links
  {
    var rest := Ended(s, id).(opening := s.opening - {id});
    if ok then rest.(dbs := s.dbs[s.nextDb := OpenDb(EMPTY_CACHE, s.opening[id])], nextDb := s.nextDb + 1)
    else rest.(free := s.free + [s.opening[id]])
  }

  function QueryStep(s: State, id: Id, compiled: Compiled): State
    requires MayStart(s, id) && s.ops[id].QUERY?
  {
    var op := s.ops[id];
    if op.db !in s.dbs then Ended(Started(s, id), id)
    else
      var (t, stmt) := PrepareIn(s, op.db, op.sql, compiled);
      match stmt
      case None => Ended(Started(t, id), id)
      case Some(st) => Started(t, id).(runs := s.runs[id := Run(op.db, st, true)])
  }

  function PrepareStep(s: State, id: Id, compiled: Compiled): State
    requires MayStart(s, id) && s.ops[id].PREPARE?
  {
    var op := s.ops[id];
    if op.db !in s.dbs then Ended(Started(s, id), id)
    else
      var (t, stmt) := PrepareIn(s, op.db, op.sql, compiled);
      var u := Ended(Started(t, id), id);
      match stmt
      case None => u
      case Some(st) => u.(stmts := s.stmts[s.nextStmt := Entry(op.db, st)], nextStmt := s.nextStmt + 1)
  }

  function QueryStmtStep(s: State, id: Id): State
    requires MayStart(s, id) && s.ops[id].QUERY_STMT?
  {
    var t := s.ops[id].stmtId;
    if t !in s.stmts then Ended(Started(s, id), id)
    else Started(s, id).(runs := s.runs[id := Run(s.stmts[t].db, s.stmts[t].stmt, false)])
  }

  /** What runQuery's finally does with its statement. */
  function GiveBack(s: State, run: Run, drop: bool): State
    requires run.db in s.dbs && MapInv(s.dbs[run.db].cache)
  {
    if !run.owned then s
    else if drop then DiscardIn(s, run.db, run.stmt)
    else ReleaseIn(s, run.db, run.stmt)
  }

  function QueryDone(s: State, id: Id, drop: bool): State
    requires id in s.runs && id in s.chains.links && s.runs[id].db in s.dbs
    requires MapInv(s.dbs[s.runs[id].db].cache)
  {
    Ended(GiveBack(s.(runs := s.runs - {id}), s.runs[id], drop), id)
  }

  function FinalizeStep(s: State, id: Id): State
    requires MayStart(s, id) && s.ops[id].FINALIZE?
    requires s.ops[id].stmtId in s.stmts ==>
               var db := s.stmts[s.ops[id].stmtId].db; db in s.dbs && MapInv(s.dbs[db].cache)
  {
    var t := s.ops[id].stmtId;
    Ended(Started(if t !in s.stmts then s
                  else ReleaseIn(s.(stmts := s.stmts - {t}), s.stmts[t].db, s.stmts[t].stmt), id), id)
  }

  function CloseStep(s: State, id: Id): State
    requires MayStart(s, id) && s.ops[id].CLOSE?
    requires s.ops[id].db in s.dbs ==> forall p :: p in CloseList(s, s.ops[id].db) ==> InPlace(s, p)
  {
    var db := s.ops[id].db;
    Ended(Started(if db !in s.dbs then s else CloseDb(s, db), id), id)
  }

  function CloseDb(s: State, db: Db): State
    requires db in s.dbs && forall p :: p in CloseList(s, db) ==> InPlace(s, p)
  {
    s.(stmts := map t | t in s.stmts && s.stmts[t].db != db :: s.stmts[t],
       dbs := s.dbs - {db}, free := s.free + [s.dbs[db].slot],
       finalised := s.finalised + HandlesAt(At(s), CloseList(s, db)))
  }

  /** forEachStatement: each statement is compiled, run and finalised before the next. */
  function ExecStep(s: State, id: Id, n: nat): State
    requires MayStart(s, id) && s.ops[id].EXEC?
  {
    var u := Ended(Started(s, id), id);
    if s.ops[id].db !in s.dbs then u
    else u.(nextHandle := s.nextHandle + n,
            finalised := s.finalised + HandlesFrom(s.nextHandle, n),
            home := MarkHome(s.home, s.nextHandle, n, s.ops[id].db))
  }

  ghost function Step(s: State, a: Action): State
    requires Enabled(s, a)
  {
    match a
    case Arrive(id, op) =>
      s.(chains := Chains.Dispatch(s.chains, id, ChainKey(s, op)), ops := s.ops[id := op])
    case BeginOpen(id) => OpenStep(s, id)
    case EndOpen(id, ok) => OpenedStep(s, id, ok)
    case BeginQuery(id, compiled) => QueryStep(s, id, compiled)
    case BeginQueryStmt(id) => QueryStmtStep(s, id)
    case StepQuery(id) => s
    case EndQuery(id, drop) => QueryDone(s, id, drop)
    case DoPrepare(id, compiled) => PrepareStep(s, id, compiled)
    case DoFinalize(id) => FinalizeStep(s, id)
    case DoClose(id) => CloseStep(s, id)
    case DoExec(id, n) => ExecStep(s, id, n)
    case DoExecStmt(id) => Ended(Started(s, id), id)
  }

  /** The handles a step passes to SQLite, other than only to finalise them: to be stepped, reset,
      bound or described. */
  ghost function Touched(s: State, a: Action): set<Handle>
    requires Enabled(s, a)
  {
    match a
    case StepQuery(id) => {s.runs[id].stmt.handle}
    case EndQuery(id, _) => {s.runs[id].stmt.handle}
    case BeginQuery(id, compiled) => TouchedNew(s, s.ops[id].db, s.ops[id].sql, compiled)
    case DoPrepare(id, compiled) => TouchedNew(s, s.ops[id].db, s.ops[id].sql, compiled)
    case BeginQueryStmt(id) => TouchedEntry(s, s.ops[id].stmtId)
    case DoExecStmt(id) => TouchedEntry(s, s.ops[id].stmtId)
    case DoFinalize(id) => TouchedEntry(s, s.ops[id].stmtId)
    case DoExec(id, n) => if s.ops[id].db in s.dbs then set h | h in HandlesFrom(s.nextHandle, n) else {}
    case Arrive(_, _) => {}
    case BeginOpen(_) => {}
    case EndOpen(_, _) => {}
    case DoClose(_) => {}
  }

  /** The statement prepareOne compiles or takes out of the cache. */
  function TouchedNew(s: State, db: Db, sql: Sql, compiled: Compiled): set<Handle> {
    if db !in s.dbs then {}
    else match PrepareOne(s.dbs[db].cache, sql, compiled, s.nextHandle).stmt
      case None => {}
      case Some(st) => {st.handle}
  }

  function TouchedEntry(s: State, t: StmtId): set<Handle> {
    if t in s.stmts then {s.stmts[t].stmt.handle} else {}
  }

  /** The database a request works on once it runs, if it works on one. */
  function WorksOn(s: State, id: Id): Option<Db>
    requires id in s.ops
  {
    match s.ops[id]
    case OPEN => None
    case CLOSE(db) => Some(db)
    case PREPARE(db, _) => Some(db)
    case QUERY(db, _) => Some(db)
    case EXEC(db) => Some(db)
    case FINALIZE(t) => if t in s.stmts then Some(s.stmts[t].db) else None
    case QUERY_STMT(t) => if t in s.stmts then Some(s.stmts[t].db) else None
    case EXEC_STMT(t) => if t in s.stmts then Some(s.stmts[t].db) else None
  }
}
