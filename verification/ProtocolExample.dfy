/** A run of Protocol from the query to io.EOF: the results about runs are about something. */
module ProtocolExample {
  import opened Wrappers
  import opened QueryStream
  import opened GoRows
  import opened Protocol

  const EMPTY := Script(0, [], EndDone)

  function Asked(): Request { NewQuery(EMPTY, 1, 0) }

  function With(q: Request, up: seq<Command>, down: seq<Reply>): State {
    INIT.(reqs := map[1 := q], nextId := 2, toWorker := up, toGo := down)
  }

  const LAST := ROWS(true, true, [])

  function Reached(n: nat): State {
    var running := Running(QueryStream.Begin(EMPTY, false, false));
    var sent := Asked().(job := Finished, sent := [LAST]);
    var seen := sent.(phase := Idle, taken := [LAST], cursor := Cursor([], true, false, false));
    if n == 0 then INIT
    else if n == 1 then With(Asked(), [QUERY(1)], [])
    else if n == 2 then With(Asked().(job := Queued), [], [])
    else if n == 3 then With(Asked().(job := running), [], [])
    else if n == 4 then With(sent, [], [Reply(1, LAST)])
    else if n == 5 then With(sent.(queue := [LAST]), [], [])
    else if n == 6 then With(seen, [], [])
    else With(seen.(outcome := Some(Eof)), [], [])
  }

  function Taken(n: nat): Action {
    if n == 0 then Action.Begin(EMPTY, 1, 0)
    else if n == 1 then Dispatch
    else if n == 2 then Start(1, false)
    else if n == 3 then RunTurn(1, false)
    else if n == 4 then Deliver
    else if n == 5 then Action.Open(1)
    else NextRow(1)
  }

  lemma Begun()
    ensures Transition(Reached(0), Reached(1))
  {
    assert INIT.reqs[1 := Asked()] == map[1 := Asked()];
    assert [] + [QUERY(1)] == [QUERY(1)];
    assert Enabled(Reached(0), Taken(0)) && Step(Reached(0), Taken(0)) == Reached(1);
  }

  lemma Same(t: State, n: nat)
    requires 0 < n && t.reqs.Keys == {1} && t.reqs[1] == Reached(n).reqs[1] && t == Reached(n).(reqs := t.reqs)
    ensures t == Reached(n)
  {
    assert t.reqs == Reached(n).reqs;
  }

  lemma Queue()
    ensures Transition(Reached(1), Reached(2))
  {
    Same(Step(Reached(1), Taken(1)), 2);
  }

  lemma StartIt()
    ensures Transition(Reached(2), Reached(3))
  {
    assert Remove([], 1) == [];
    Same(Step(Reached(2), Taken(2)), 3);
  }

  lemma Turn()
    ensures Transition(Reached(3), Reached(4))
  {
    assert Remove([], 1) == [];
    assert [] + [LAST] == [LAST] && [] + [Reply(1, LAST)] == [Reply(1, LAST)];
    Same(Step(Reached(3), Taken(3)), 4);
  }

  lemma Arrive()
    ensures Transition(Reached(4), Reached(5))
  {
    assert [] + [LAST] == [LAST];
    Same(Step(Reached(4), Taken(4)), 5);
  }

  lemma Open()
    ensures Transition(Reached(5), Reached(6))
  {
    assert [] + [LAST] == [LAST] && [LAST][1..] == [];
    Same(Step(Reached(5), Taken(5)), 6);
  }

  lemma Read()
    ensures Transition(Reached(6), Reached(7))
  {
    Same(Step(Reached(6), Taken(6)), 7);
  }

  lemma OneStep(i: nat)
    requires i < 7
    ensures Transition(Reached(i), Reached(i + 1))
  {
    hide *;
    if i == 0 { Begun(); } else if i == 1 { Queue(); } else if i == 2 { StartIt(); } else if i == 3 { Turn(); }
    else if i == 4 { Arrive(); } else if i == 5 { Open(); } else { Read(); }
  }

  lemma LastReached()
    ensures Reached(0) == INIT && 1 in Reached(7).reqs && Reached(7).reqs[1].outcome == Some(Eof)
  {}

  /** An empty result is asked for, run, delivered and read to io.EOF. */
  lemma EofIsReached()
    ensures exists run: seq<State> :: IsRun(run) && 1 in Last(run).reqs && Last(run).reqs[1].outcome == Some(Eof)
  {
    hide Enabled, Step, Reached, Taken, Transition;
    LastReached();
    var run := seq(8, i requires 0 <= i < 8 => Reached(i));
    forall i | 0 <= i < 7 ensures Transition(run[i], run[i + 1]) { OneStep(i); }
    assert IsRun(run);
  }
}
