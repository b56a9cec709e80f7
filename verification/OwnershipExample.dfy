/** A run of Ownership that loses a handle: the probe of a text's tail throws. */
module OwnershipExample {
  import opened Wrappers
  import opened Session
  import opened Ledger
  import opened Ownership
  import opened OwnershipInv
  import opened OwnershipSteps
  import opened OwnershipTheorems
  import Chains

  ghost predicate Reached(s: State) { exists ss, acts :: IsRun(ss, acts) && ss[|acts|] == s }

  lemma Starts()
    ensures Reached(INIT)
  {
    assert IsRun([INIT], []) && [INIT][0] == INIT;
  }

  lemma GoesOn(s: State, a: Action)
    requires Reached(s) && Enabled(s, a)
    ensures Reached(Step(s, a))
  {
    hide Enabled, Step;
    var ss, acts :| IsRun(ss, acts) && ss[|acts|] == s;
    var ts, more := ss + [Step(s, a)], acts + [a];
    forall i | 0 <= i < |more| ensures Enabled(ts[i], more[i]) && ts[i + 1] == Step(ts[i], more[i]) {
      if i < |acts| { assert Enabled(ss[i], acts[i]) && ss[i + 1] == Step(ss[i], acts[i]); }
    }
    assert IsRun(ts, more) && ts[|more|] == Step(s, a);
  }

  lemma ReachedKeeps(s: State)
    requires Reached(s)
    ensures Inv(s) && CachesOk(s)
  {
    hide IsRun, CachesOk, Books, SlotInv, Core;
    Settled(s);
    CoreFacts(s);
  }

  lemma Settled(s: State)
    requires Reached(s)
    ensures Inv(s)
  {
    hide Inv, Enabled, Step;
    var ss, acts :| IsRun(ss, acts) && ss[|acts|] == s;
    RunKeeps(ss, acts, |acts|);
  }

  /** A database is opened. */
  lemma Opens() returns (s: State)
    ensures Reached(s) && 1 in s.dbs && s.dbs[1].cache == EMPTY_CACHE && s.lost == []
    ensures 2 !in s.ops && 2 !in s.chains.links && 1 !in s.chains.tail
  {
    hide Reached, Inv, CachesOk;
    Starts();
    ReachedKeeps(INIT);
    CountdownIs(CANCEL_SLOTS);
    GoesOn(INIT, Arrive(1, OPEN));
    var s1 := Step(INIT, Arrive(1, OPEN));
    ReachedKeeps(s1);
    GoesOn(s1, BeginOpen(1));
    var s2 := Step(s1, BeginOpen(1));
    ReachedKeeps(s2);
    GoesOn(s2, EndOpen(1, true));
    s := Step(s2, EndOpen(1, true));
  }

  lemma Asks(s: State, sql: Sql) returns (t: State)
    requires Reached(s) && 1 in s.dbs && 2 !in s.ops && 2 !in s.chains.links && 1 !in s.chains.tail
    ensures Reached(t) && MayStart(t, 2) && t.ops[2] == QUERY(1, sql) && t.dbs == s.dbs && t.lost == s.lost
  {
    hide Reached, Inv, CachesOk;
    ReachedKeeps(s);
    GoesOn(s, Arrive(2, QUERY(1, sql)));
    t := Step(s, Arrive(2, QUERY(1, sql)));
  }

  /** The limit of LostOnlyByTailErrors: for any text there is a run that loses a handle. */
  lemma TailErrorLoses(sql: Sql)
    ensures exists ss: seq<State>, acts :: IsRun(ss, acts) && ss[|acts|].lost != []
  {
    hide Inv, CachesOk, Enabled, Step, Chains.CanStart, Grows;
    var s := Opens();
    var t := Asks(s, sql);
    ReachedKeeps(t);
    MayBegin(t, sql);
    GoesOn(t, BeginQuery(2, TailError));
    StepGrows(t, BeginQuery(2, TailError));
    var ss, acts :| IsRun(ss, acts) && ss[|acts|] == Step(t, BeginQuery(2, TailError));
  }

  lemma MayBegin(t: State, sql: Sql)
    requires MayStart(t, 2) && t.ops[2] == QUERY(1, sql) && CachesOk(t)
    ensures Enabled(t, BeginQuery(2, TailError))
  {
    hide CachesOk, Chains.CanStart;
  }
}
