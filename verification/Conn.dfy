/** A pooled connection's transactions: driver/conn.go and driver/tx.go over one SQLite handle.
    User SQL has no transaction control, PRAGMA statements succeed, and no context ends while a
    BEGIN or a PRAGMA runs. */
module Conn {

  /** What of a handle the driver's bookkeeping is about. */
  datatype Sqlite = Sqlite(autocommit: bool, queryOnly: bool)

  /** How SQLite takes a statement; an error such as SQLITE_FULL may also roll back. */
  datatype Outcome = Fine | Fails | RollsBack

  function Begin(s: Sqlite, o: Outcome): (Sqlite, bool) {
    if s.autocommit && o == Fine then (s.(autocommit := false), true) else (s, false)
  }

  /** COMMIT and ROLLBACK: an error outside a transaction; a COMMIT that fails keeps it open. */
  function End(s: Sqlite, o: Outcome): (Sqlite, bool) {
    if s.autocommit then (s, false)
    else match o
      case Fine => (s.(autocommit := true), true)
      case Fails => (s, false)
      case RollsBack => (s.(autocommit := true), false)
  }

  function Run(s: Sqlite, o: Outcome): (Sqlite, bool) {
    (if o == RollsBack then s.(autocommit := true) else s, o == Fine)
  }

  /** The connection.  `open` is history: the Tx values handed out and not finished yet, and
      whether each is read-only. */
  datatype State = State(sqlite: Sqlite, inTx: bool, poisoned: bool, dead: bool, open: map<nat, bool>, nextTx: nat)

  const FRESH := State(Sqlite(true, false), false, false, false, map[], 0)

  datatype Action =
    | BeginTx(readOnly: bool, begin: Outcome)
    | Finish(tx: nat, end: Outcome)
    | Exec(outcome: Outcome)
    | Abandon                 // a context ends during user SQL that cannot be interrupted
    | Die                     // the worker is gone
    | Reset(rollback: Outcome)

  predicate Enabled(s: State, a: Action) { a.Finish? ==> a.tx in s.open }

  function AfterBegin(s: State, readOnly: bool, o: Outcome): State {
    var asked := if readOnly then s.sqlite.(queryOnly := true) else s.sqlite;
    var (began, ok) := Begin(asked, o);
    if ok then
      s.(sqlite := began, inTx := true, open := s.open[s.nextTx := readOnly], nextTx := s.nextTx + 1)
    else
      s.(sqlite := if readOnly then began.(queryOnly := false) else began)
  }

  function AfterFinish(s: State, tx: nat, o: Outcome): State
    requires tx in s.open
  {
    var (ended, ok) := End(s.sqlite, o);
    s.(sqlite := if s.open[tx] then ended.(queryOnly := false) else ended,
       inTx := if ok then false else s.inTx, open := s.open - {tx})
  }

  /** Whether ResetSession returns nil, and the state it leaves. */
  function AfterReset(s: State, o: Outcome): (State, bool) {
    if s.poisoned || s.dead then (s, false)
    else if s.inTx then
      var (ended, ok) := End(s.sqlite, o);
      (s.(sqlite := ended, inTx := false), ok)
    else (s, true)
  }

  function Step(s: State, a: Action): State
    requires Enabled(s, a)
  {
    match a
    case BeginTx(readOnly, o) => AfterBegin(s, readOnly, o)
    case Finish(tx, o) => AfterFinish(s, tx, o)
    case Exec(o) => s.(sqlite := Run(s.sqlite, o).0)
    case Abandon => s.(poisoned := true)
    case Die => s.(dead := true)
    case Reset(o) => AfterReset(s, o).0
  }

  /** database/sql does not reuse a connection that a failed ResetSession has condemned. */
  predicate Reused(s: State, a: Action) { a.Reset? ==> AfterReset(s, a.rollback).1 }

  ghost predicate IsRun(ss: seq<State>, acts: seq<Action>) {
    && |ss| == |acts| + 1 && ss[0] == FRESH
    && forall i :: 0 <= i < |acts| ==>
         Enabled(ss[i], acts[i]) && Reused(ss[i], acts[i]) && ss[i + 1] == Step(ss[i], acts[i])
  }

  ghost predicate ReadOnlyOpen(s: State) { exists tx :: tx in s.open && s.open[tx] }

  ghost predicate Inv(s: State) {
    && (!s.sqlite.autocommit ==> s.inTx)
    && (s.sqlite.queryOnly ==> ReadOnlyOpen(s))
    && (forall tx :: tx in s.open ==> tx < s.nextTx)
  }

  lemma StepKeeps(s: State, a: Action)
    requires Inv(s) && Enabled(s, a) && Reused(s, a)
    ensures Inv(Step(s, a))
  {
    var t := Step(s, a);
    if t.sqlite.queryOnly {
      if s.sqlite.queryOnly {
        var tx :| tx in s.open && s.open[tx];
        assert tx in t.open && t.open[tx];
      } else {
        assert s.nextTx in t.open && t.open[s.nextTx];
      }
    }
  }

  lemma {:induction false} RunKeeps(ss: seq<State>, acts: seq<Action>, i: nat)
    requires IsRun(ss, acts) && i <= |acts|
    ensures Inv(ss[i])
  {
    if i > 0 {
      RunKeeps(ss, acts, i - 1);
      StepKeeps(ss[i - 1], acts[i - 1]);
    }
  }

  /** A connection that ResetSession passes is in autocommit, whatever became of its transactions:
      left open, rolled back by SQLite, or kept open by a COMMIT that failed.  Its query_only is
      off if every read-only transaction was finished. */
  lemma CleanAfterReset(ss: seq<State>, acts: seq<Action>, i: nat)
    requires IsRun(ss, acts) && i < |acts| && acts[i].Reset?
    ensures ss[i + 1].sqlite.autocommit && !ss[i + 1].inTx
    ensures !ReadOnlyOpen(ss[i + 1]) ==> !ss[i + 1].sqlite.queryOnly
  {
    RunKeeps(ss, acts, i);
    RunKeeps(ss, acts, i + 1);
  }

  /** A BEGIN of the driver succeeded, and since then no COMMIT or ROLLBACK of it has. */
  ghost predicate BegunAndNotEnded(ss: seq<State>, acts: seq<Action>, i: nat)
    requires |ss| == |acts| + 1 && i <= |acts|
  {
    i > 0 &&
    var s := ss[i - 1];
    match acts[i - 1]
    case BeginTx(_, o) => (s.sqlite.autocommit && o == Fine) || BegunAndNotEnded(ss, acts, i - 1)
    case Finish(_, o) => (s.sqlite.autocommit || o != Fine) && BegunAndNotEnded(ss, acts, i - 1)
    case Reset(_) => false
    case _ => BegunAndNotEnded(ss, acts, i - 1)
  }

  /** What inTx stands for: neither more nor less than SQLite told the driver. */
  lemma {:induction false} InTxSays(ss: seq<State>, acts: seq<Action>, i: nat)
    requires IsRun(ss, acts) && i <= |acts|
    ensures ss[i].inTx <==> BegunAndNotEnded(ss, acts, i)
  {
    if i > 0 { InTxSays(ss, acts, i - 1); }
  }

  lemma {:induction false} CondemnedSince(ss: seq<State>, acts: seq<Action>, i: nat)
    requires IsRun(ss, acts) && i <= |acts|
    ensures ss[i].poisoned <==> Abandon in acts[..i]
    ensures ss[i].dead <==> Die in acts[..i]
  {
    if i > 0 {
      CondemnedSince(ss, acts, i - 1);
      assert acts[..i] == acts[..i - 1] + [acts[i - 1]];
    }
  }

  /** ResetSession passes a connection exactly when no context was abandoned on it, its worker is alive,
      and a transaction that it knows to be open can be rolled back. */
  lemma ResetPasses(ss: seq<State>, acts: seq<Action>, i: nat, o: Outcome)
    requires IsRun(ss, acts) && i <= |acts|
    ensures AfterReset(ss[i], o).1 <==>
              Abandon !in acts[..i] && Die !in acts[..i] && (ss[i].inTx ==> !ss[i].sqlite.autocommit && o == Fine)
  {
    CondemnedSince(ss, acts, i);
  }

  /** BeginTx is not called while a Tx is unfinished. */
  ghost predicate OneAtATime(ss: seq<State>, acts: seq<Action>) {
    |ss| == |acts| + 1 && forall i :: 0 <= i < |acts| && acts[i].BeginTx? ==> ss[i].open == map[]
  }

  ghost predicate AtMostOne(s: State) { forall a, b :: a in s.open && b in s.open ==> a == b }

  lemma FollowsStep(s: State, a: Action)
    requires Enabled(s, a) && (a.BeginTx? ==> s.open == map[])
    requires AtMostOne(s) && (s.sqlite.queryOnly <==> ReadOnlyOpen(s))
    ensures var t := Step(s, a); AtMostOne(t) && (t.sqlite.queryOnly <==> ReadOnlyOpen(t))
  {
    var t := Step(s, a);
    if a.BeginTx? && s.nextTx in t.open {
      assert t.open[s.nextTx] == a.readOnly;
    } else if a.Finish? {
      assert t.open == map[];
      assert s.open[a.tx] <==> ReadOnlyOpen(s);
    } else {
      assert t.open == s.open;
    }
  }

  lemma {:induction false} QueryOnlyFollows(ss: seq<State>, acts: seq<Action>, i: nat)
    requires IsRun(ss, acts) && OneAtATime(ss, acts) && i <= |acts|
    ensures AtMostOne(ss[i]) && (ss[i].sqlite.queryOnly <==> ReadOnlyOpen(ss[i]))
  {
    if i > 0 {
      QueryOnlyFollows(ss, acts, i - 1);
      hide Step, AtMostOne, ReadOnlyOpen;
      FollowsStep(ss[i - 1], acts[i - 1]);
    }
  }

  /** With one transaction at a time, a connection that ResetSession passes has query_only off
      exactly when no read-only transaction was left unfinished. */
  lemma QueryOnlyAfterReset(ss: seq<State>, acts: seq<Action>, i: nat)
    requires IsRun(ss, acts) && OneAtATime(ss, acts) && i < |acts| && acts[i].Reset?
    ensures ss[i + 1].sqlite == Sqlite(true, ReadOnlyOpen(ss[i + 1]))
  {
    CleanAfterReset(ss, acts, i);
    QueryOnlyFollows(ss, acts, i + 1);
  }

  /** ResetSession rolls back a read-only transaction that was left open, but does not turn
      query_only off again. */
  lemma LeakedReadOnly()
    ensures exists ss: seq<State>, acts: seq<Action> ::
              && IsRun(ss, acts) && OneAtATime(ss, acts) && |acts| == 2 && acts[1].Reset?
              && ss[2].sqlite == Sqlite(true, true)
  {
    var acts := [BeginTx(true, Fine), Reset(Fine)];
    var s1 := Step(FRESH, acts[0]);
    var ss := [FRESH, s1, Step(s1, acts[1])];
    assert IsRun(ss, acts) && OneAtATime(ss, acts);
  }

  /** Conn, with the SQLite handle it drives.  SQLite's answers are parameters. */
  class Conn {
    var sqlite: Sqlite
    var inTx: bool
    var poisoned: bool
    var dead: bool
    ghost var open: map<nat, bool>
    ghost var nextTx: nat

    ghost function Value(): State
      reads this
    {
      State(sqlite, inTx, poisoned, dead, open, nextTx)
    }

    constructor ()
      ensures Value() == FRESH && Inv(Value())
    {
      sqlite, inTx, poisoned, dead := Sqlite(true, false), false, false, false;
      open, nextTx := map[], 0;
    }

    method BeginTx(readOnly: bool, o: Outcome) returns (ok: bool)
      requires Inv(Value())
      modifies this
      ensures Value() == AfterBegin(old(Value()), readOnly, o) && Inv(Value())
      ensures ok <==> old(sqlite.autocommit) && o == Fine
    {
      StepKeeps(Value(), Action.BeginTx(readOnly, o));
      hide Inv;
      if readOnly { sqlite := sqlite.(queryOnly := true); }
      ok := Begin(sqlite, o).1;
      sqlite := Begin(sqlite, o).0;
      if !ok {
        if readOnly { sqlite := sqlite.(queryOnly := false); }
        return;
      }
      inTx := true;
      open, nextTx := open[nextTx := readOnly], nextTx + 1;
    }

    /** finish: only a COMMIT or ROLLBACK that succeeded has ended the transaction. */
    method Finish(ghost tx: nat, readOnly: bool, o: Outcome) returns (ok: bool)
      requires Inv(Value()) && tx in open && open[tx] == readOnly
      modifies this
      ensures Value() == AfterFinish(old(Value()), tx, o) && Inv(Value())
      ensures ok <==> !old(sqlite.autocommit) && o == Fine
    {
      StepKeeps(Value(), Action.Finish(tx, o));
      hide Inv;
      ok := End(sqlite, o).1;
      sqlite := End(sqlite, o).0;
      if ok { inTx := false; }
      if readOnly { sqlite := sqlite.(queryOnly := false); }
      open := open - {tx};
    }

    /** ResetSession: `ok` is a nil error. */
    method ResetSession(o: Outcome) returns (ok: bool)
      requires Inv(Value())
      modifies this
      ensures (Value(), ok) == AfterReset(old(Value()), o)
      ensures ok ==> Inv(Value()) && sqlite.autocommit && !inTx
    {
      if AfterReset(Value(), o).1 { StepKeeps(Value(), Reset(o)); }
      if poisoned || dead { return false; }
      if inTx {
        inTx := false;
        ok := End(sqlite, o).1;
        sqlite := End(sqlite, o).0;
        return;
      }
      ok := true;
    }
  }
}
