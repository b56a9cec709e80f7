/** Left to itself Protocol comes to rest: its own steps use up a measure of the work there is, so a
    reader that waits gets its frame unless it is held up. */
module ProtocolProgress {
  import opened Wrappers
  import opened QueryStream
  import opened GoRows
  import opened Protocol
  import opened ProtocolInv
  import opened ProtocolSteps
  import opened ProtocolWork
  import opened ProtocolTheorems
  import opened ProtocolRest

  // ---- The work there is ------------------------------------------------------------

  /** Each row still to be stepped over may take a turn, a batch, its delivery and a macrotask. */
  function StreamWork(rows: nat, st: Stream): nat {
    var left := if st.pos <= rows then rows - st.pos else 0;
    match st.wait
    case Ready => 4 * left + 2
    case Yielding => 4 * left + 3
    case Parked => 4 * left
  }

  function WorkOf(q: Request): nat {
    match q.job
    case InTransit => 4 * |q.script.rows| + 3
    case Queued => 4 * |q.script.rows| + 3
    case Running(st) => StreamWork(|q.script.rows|, st)
    case Finished => 0
  }

  function WorkBelow(reqs: map<Id, Request>, n: nat): nat {
    if n == 0 then 0 else WorkBelow(reqs, n - 1) + if n - 1 in reqs then WorkOf(reqs[n - 1]) else 0
  }

  function CallsBelow(others: map<Id, Other>, n: nat): nat {
    if n == 0 then 0 else CallsBelow(others, n - 1) + if n - 1 in others && !others[n - 1].done then 1 else 0
  }

  /** A command on the way may wake a parked stream. */
  function Work(s: State): nat {
    WorkBelow(s.reqs, s.nextId) + CallsBelow(s.others, s.nextId) + 4 * |s.toWorker| + |s.toGo|
  }

  lemma {:induction false} WorkChanged(reqs: map<Id, Request>, id: Id, q: Request, n: nat)
    requires id in reqs
    ensures WorkBelow(reqs[id := q], n) ==
              WorkBelow(reqs, n) + if id < n then WorkOf(q) - WorkOf(reqs[id]) else 0
  {
    hide WorkOf;
    if n > 0 { WorkChanged(reqs, id, q, n - 1); }
  }

  lemma {:induction false} CallChanged(others: map<Id, Other>, id: Id, o: Other, n: nat)
    requires id in others && !others[id].done && o.done
    ensures CallsBelow(others[id := o], n) == CallsBelow(others, n) - if id < n then 1 else 0
  {
    if n > 0 { CallChanged(others, id, o, n - 1); }
  }

  /** A step about one stream uses up work if it posts less than it has done. */
  lemma StreamShrinks(s: State, t: State, id: Id)
    requires id in s.reqs && id < s.nextId && id in t.reqs && t.reqs == s.reqs[id := t.reqs[id]]
    requires t.nextId == s.nextId && t.others == s.others
    requires WorkOf(t.reqs[id]) + 4 * |t.toWorker| + |t.toGo| < WorkOf(s.reqs[id]) + 4 * |s.toWorker| + |s.toGo|
    ensures Work(t) < Work(s)
  {
    hide WorkOf, WorkBelow, CallsBelow;
    WorkChanged(s.reqs, id, t.reqs[id], s.nextId);
  }

  // ---- Every own step uses up work -----------------------------------------------------

  lemma TurnShrinks(q: Request)
    requires q.job.Running? && q.job.st.wait.Ready? && Coherent(q.script, q.job.st)
    ensures forall i :: match Iterate(q.script, q.job.st, i)
                        case Over(_) => WorkOf(q) >= 2
                        case More(st, post) => StreamWork(|q.script.rows|, st) + |post| < WorkOf(q)
  {
    hide Full, SqliteStep;
  }

  lemma RunTurnShrinks(s: State, id: Id, i: bool)
    requires HasStream(s, id) && s.reqs[id].job.st.wait.Ready? && id < s.nextId
    ensures Work(Turned(s, id, Iterate(s.reqs[id].script, s.reqs[id].job.st, i))) < Work(s)
  {
    var turn := Iterate(s.reqs[id].script, s.reqs[id].job.st, i);
    TurnShrinks(s.reqs[id]);
    hide Iterate, Coherent, StreamWork, Work, Remove;
    StreamShrinks(s, Turned(s, id, turn), id);
  }

  lemma FinishShrinks(s: State, id: Id)
    requires id in s.reqs && s.reqs[id].job.Queued? && id < s.nextId
    ensures Work(Finish(s, id, ERROR)) < Work(s)
  {
    hide Work, Remove;
    StreamShrinks(s, Finish(s, id, ERROR), id);
  }

  lemma StartShrinks(s: State, id: Id, i: bool)
    requires id in s.reqs && s.reqs[id].job.Queued? && id < s.nextId
    ensures Work(StartRun(s, id, i)) < Work(s)
  {
    hide Work, Remove, BatchLength, SqliteStep;
    StreamShrinks(s, StartRun(s, id, i), id);
  }

  lemma MacrotaskShrinks(s: State, id: Id, i: bool)
    requires HasStream(s, id) && s.reqs[id].job.st.wait.Yielding? && id < s.nextId
    ensures Work(Put(s, id, s.reqs[id].(job := Running(Resume(s.reqs[id].script, s.reqs[id].job.st, i))))) < Work(s)
  {
    var q := s.reqs[id];
    var q' := q.(job := Running(Resume(q.script, q.job.st, i)));
    assert WorkOf(q') == WorkOf(q) - 1;
    hide Work, WorkOf, Resume, Coherent;
    StreamShrinks(s, Put(s, id, q'), id);
  }

  lemma DeliverShrinks(s: State)
    requires s.toGo != [] && s.toGo[0].id in s.reqs && s.toGo[0].id < s.nextId
    ensures Work(Received(s)) < Work(s)
  {
    hide Work;
    var id := s.toGo[0].id;
    assert s.reqs[id := s.reqs[id]] == s.reqs;
    StreamShrinks(s, Received(s), id);
  }

  lemma WokenWork(rows: nat, st: Stream)
    ensures StreamWork(rows, OnCredit(st, 1)) <= StreamWork(rows, st) + 3
    ensures StreamWork(rows, OnAbort(st)) <= StreamWork(rows, st) + 3
  {}

  /** A command changes its own request alone. */
  lemma DispatchedOne(s: State)
    requires s.toWorker != [] && s.toWorker[0].id in s.reqs
    ensures var t := DispatchHead(s); var id := s.toWorker[0].id;
            && id in t.reqs && t.reqs == s.reqs[id := t.reqs[id]] && t.nextId == s.nextId && t.others == s.others
            && |t.toWorker| == |s.toWorker| - 1 && t.toGo == s.toGo
  {
    hide AddEarly, OnCredit, OnAbort;
  }

  /** ... and may wake its stream. */
  lemma DispatchedWork(s: State)
    requires s.toWorker != [] && s.toWorker[0].id in s.reqs && s.toWorker[0].id in DispatchHead(s).reqs
    requires s.toWorker[0].QUERY? ==> s.reqs[s.toWorker[0].id].job.InTransit?
    ensures var id := s.toWorker[0].id; WorkOf(DispatchHead(s).reqs[id]) <= WorkOf(s.reqs[id]) + 3
  {
    var q := s.reqs[s.toWorker[0].id];
    if q.job.Running? { WokenWork(|q.script.rows|, q.job.st); }
    hide AddEarly, OnCredit, OnAbort, StreamWork;
  }

  lemma QueryIsNew(s: State)
    requires Inv(s) && Enabled(s, Dispatch)
    ensures s.toWorker[0].QUERY? ==> s.reqs[s.toWorker[0].id].job.InTransit?
  {
    hide Inv, Up, Expected;
    HeadExpected(s);
  }

  lemma DispatchShrinks(s: State)
    requires Inv(s) && Enabled(s, Dispatch)
    ensures Work(DispatchHead(s)) < Work(s)
  {
    QueryIsNew(s);
    IdIsBelow(s, s.toWorker[0].id);
    hide Inv, Work, WorkOf, DispatchHead;
    DispatchedOne(s);
    DispatchedWork(s);
    StreamShrinks(s, DispatchHead(s), s.toWorker[0].id);
  }

  lemma IdIsBelow(s: State, id: Id)
    requires Inv(s) && (id in s.reqs || id in s.others)
    ensures id < s.nextId
  {
    hide ReqInv, WordInv;
  }

  lemma FinishOtherShrinks(s: State, id: Id, i: bool)
    requires id in s.others && !s.others[id].done && id < s.nextId
    ensures Work(s.(others := s.others[id := s.others[id].(done := true, interrupted := i)])) < Work(s)
  {
    CallChanged(s.others, id, s.others[id].(done := true, interrupted := i), s.nextId);
  }

  lemma TurnStep(s: State, id: Id, i: bool)
    requires Inv(s) && Enabled(s, RunTurn(id, i))
    ensures Work(Step(s, RunTurn(id, i))) < Work(s)
  {
    hide Inv, Work, Turned, Iterate, InTurn, HandlerFires, Coherent;
    IdIsBelow(s, id);
    RunTurnShrinks(s, id, i);
  }

  lemma MacrotaskStep(s: State, id: Id, i: bool)
    requires Inv(s) && Enabled(s, Macrotask(id, i))
    ensures Work(Step(s, Macrotask(id, i))) < Work(s)
  {
    hide Inv, Work, Put, Resume, InTurn, HandlerFires, Coherent;
    IdIsBelow(s, id);
    MacrotaskShrinks(s, id, i);
  }

  lemma StartStep(s: State, id: Id, i: bool)
    requires Inv(s) && Enabled(s, Start(id, i))
    ensures Work(Step(s, Start(id, i))) < Work(s)
  {
    hide Inv, Work, StartRun, InTurn, HandlerFires;
    IdIsBelow(s, id);
    StartShrinks(s, id, i);
  }

  lemma StartFailStep(s: State, id: Id)
    requires Inv(s) && Enabled(s, StartFail(id))
    ensures Work(Step(s, StartFail(id))) < Work(s)
  {
    hide Inv, Work, Finish, InTurn, HandlerFires;
    IdIsBelow(s, id);
    FinishShrinks(s, id);
  }

  lemma DispatchStep(s: State)
    requires Inv(s) && Enabled(s, Dispatch)
    ensures Work(Step(s, Dispatch)) < Work(s)
  {
    hide Inv, Work, DispatchHead;
    DispatchShrinks(s);
  }

  lemma DeliverStep(s: State)
    requires Inv(s) && Enabled(s, Deliver)
    ensures Work(Step(s, Deliver)) < Work(s)
  {
    hide Inv, Work, Received;
    IdIsBelow(s, s.toGo[0].id);
    DeliverShrinks(s);
  }

  lemma FinishOtherStep(s: State, id: Id, i: bool)
    requires Inv(s) && Enabled(s, FinishOther(id, i))
    ensures Work(Step(s, FinishOther(id, i))) < Work(s)
  {
    hide Inv, Work, InTurn, HandlerFires;
    IdIsBelow(s, id);
    FinishOtherShrinks(s, id, i);
  }

  /** Every step the machine takes on its own uses up work. */
  lemma OwnStepShrinks(s: State, a: Action)
    requires Inv(s) && OnItsOwn(a) && Enabled(s, a)
    ensures Work(Step(s, a)) < Work(s)
  {
    hide Inv, Work, Enabled, Step;
    match a
    case Dispatch => DispatchStep(s);
    case Deliver => DeliverStep(s);
    case Start(id, i) => StartStep(s, id, i);
    case StartFail(id) => StartFailStep(s, id);
    case RunTurn(id, i) => TurnStep(s, id, i);
    case Macrotask(id, i) => MacrotaskStep(s, id, i);
    case FinishOther(id, i) => FinishOtherStep(s, id, i);
  }

  // ---- Runs of own steps -----------------------------------------------------------------

  ghost predicate OwnTransition(s: State, t: State) {
    exists a :: OnItsOwn(a) && Enabled(s, a) && t == Step(s, a)
  }

  /** From its n-th state on, the run is one of own steps. */
  ghost predicate OwnFrom(run: seq<State>, n: nat) {
    n < |run| && forall i :: n <= i < |run| - 1 ==> OwnTransition(run[i], run[i + 1])
  }

  lemma OwnBefore(run: seq<State>, n: nat, k: nat)
    requires OwnFrom(run, n) && n <= k < |run|
    ensures OwnFrom(run[..k + 1], n)
  {
    hide OwnTransition;
    var upTo := run[..k + 1];
    forall i | n <= i < |upTo| - 1 ensures OwnTransition(upTo[i], upTo[i + 1]) {
      assert OwnTransition(run[i], run[i + 1]);
    }
  }

  /** It is never longer than the work there was. */
  lemma {:induction false} OwnStepsAreFew(run: seq<State>, n: nat)
    requires IsRun(run) && OwnFrom(run, n)
    ensures |run| - 1 - n + Work(Last(run)) <= Work(run[n])
    decreases |run|
  {
    hide Inv, Work, OwnTransition, Transition;
    if n < |run| - 1 {
      var k := |run| - 2;
      RunUpTo(run, k);
      OwnBefore(run, n, k);
      OwnStepsAreFew(run[..k + 1], n);
      assert OwnTransition(run[k], run[k + 1]);
      OneOwnStep(run[k], run[k + 1]);
    }
  }

  lemma OneOwnStep(s: State, t: State)
    requires Inv(s) && OwnTransition(s, t)
    ensures Work(t) < Work(s)
  {
    hide Inv, Work, Enabled, Step;
    var a :| OnItsOwn(a) && Enabled(s, a) && t == Step(s, a);
    OwnStepShrinks(s, a);
  }

  lemma OneMore(run: seq<State>, n: nat, a: Action)
    requires IsRun(run) && OwnFrom(run, n) && OnItsOwn(a) && Enabled(Last(run), a)
    ensures IsRun(run + [Step(Last(run), a)]) && OwnFrom(run + [Step(Last(run), a)], n)
  {
    hide Enabled, Step, OnItsOwn;
    var more := run + [Step(Last(run), a)];
    assert OwnTransition(Last(run), more[|run|]);
    forall i | 0 <= i < |more| - 1 ensures Transition(more[i], more[i + 1]) {
      if i < |run| - 1 { assert Transition(run[i], run[i + 1]); }
    }
    forall i | n <= i < |more| - 1 ensures OwnTransition(more[i], more[i + 1]) {
      if i < |run| - 1 { assert OwnTransition(run[i], run[i + 1]); }
    }
  }

  /** From any state of any run the machine can come to rest by steps of its own. */
  lemma {:induction false} ComesToRest(run: seq<State>, n: nat) returns (more: seq<State>)
    requires IsRun(run) && OwnFrom(run, n)
    ensures IsRun(more) && run <= more && OwnFrom(more, n) && AtRest(Last(more))
    decreases Work(Last(run))
  {
    hide Inv, Work, Enabled, Step, OnItsOwn, OwnFrom;
    if a :| OnItsOwn(a) && Enabled(Last(run), a) {
      RunKeeps(run);
      OneMore(run, n, a);
      OwnStepShrinks(Last(run), a);
      more := ComesToRest(run + [Step(Last(run), a)], n);
    } else {
      more := run;
    }
  }

  // ---- Readers ------------------------------------------------------------------------------

  /** Own steps leave the readers where they are. */
  predicate SameReaders(s: State, t: State) {
    s.dead == t.dead && forall k :: k in s.reqs ==> k in t.reqs && t.reqs[k].phase == s.reqs[k].phase
  }

  lemma PutLeavesReaders(s: State, id: Id, q: Request)
    requires id in s.reqs && q.phase == s.reqs[id].phase
    ensures SameReaders(s, Put(s, id, q))
  {}

  lemma DispatchLeavesReaders(s: State)
    requires s.toWorker != [] && s.toWorker[0].id in s.reqs
    ensures SameReaders(s, DispatchHead(s))
  {
    hide OnCredit, OnAbort, AddEarly;
  }

  lemma TurnedLeavesReaders(s: State, id: Id, turn: Turn)
    requires id in s.reqs
    ensures SameReaders(s, Turned(s, id, turn))
  {
    hide Remove;
  }

  lemma StartLeavesReaders(s: State, id: Id, i: bool)
    requires id in s.reqs
    ensures SameReaders(s, StartRun(s, id, i)) && SameReaders(s, Finish(s, id, ERROR))
  {
    hide Remove;
  }

  lemma DeliverLeavesReaders(s: State)
    requires s.toGo != [] && s.toGo[0].id in s.reqs
    ensures SameReaders(s, Received(s))
  {}

  lemma OwnStepLeavesReaders(s: State, a: Action)
    requires OnItsOwn(a) && Enabled(s, a)
    ensures SameReaders(s, Step(s, a))
  {
    hide Iterate, Resume, Coherent, HandlerFires, InTurn, DispatchHead, Turned, StartRun, Finish, Received, Put;
    match a
    case Dispatch => DispatchLeavesReaders(s);
    case Deliver => DeliverLeavesReaders(s);
    case Start(id, i) => StartLeavesReaders(s, id, i);
    case StartFail(id) => StartLeavesReaders(s, id, false);
    case RunTurn(id, i) => TurnedLeavesReaders(s, id, Iterate(s.reqs[id].script, s.reqs[id].job.st, i));
    case Macrotask(id, i) =>
      PutLeavesReaders(s, id, s.reqs[id].(job := Running(Resume(s.reqs[id].script, s.reqs[id].job.st, i))));
    case FinishOther(_, _) =>
  }

  lemma {:induction false} OwnStepsLeaveReaders(run: seq<State>, n: nat)
    requires OwnFrom(run, n)
    ensures SameReaders(run[n], Last(run))
    decreases |run|
  {
    hide OwnTransition, Enabled, Step;
    if n < |run| - 1 {
      var k := |run| - 2;
      OwnBefore(run, n, k);
      OwnStepsLeaveReaders(run[..k + 1], n);
      assert OwnTransition(run[k], run[k + 1]);
      OneLeavesReaders(run[k], run[k + 1]);
    }
  }

  lemma OneLeavesReaders(s: State, t: State)
    requires OwnTransition(s, t)
    ensures SameReaders(s, t)
  {
    hide Enabled, Step, SameReaders;
    var a :| OnItsOwn(a) && Enabled(s, a) && t == Step(s, a);
    OwnStepLeavesReaders(s, a);
  }

  /** Progress.  Whatever the order of its steps, the machine left to itself is at rest after no
      more of them than there was work; a reader that waited then has its frame, unless its request
      is held up behind a stream of its own database that its caller has left open. */
  lemma ReaderIsServed(run: seq<State>, n: nat, id: Id)
    requires IsRun(run) && OwnFrom(run, n) && !run[n].dead && id in run[n].reqs && Waiting(run[n].reqs[id])
    ensures |run| - 1 - n <= Work(run[n])
    ensures id in Last(run).reqs && Waiting(Last(run).reqs[id])
    ensures AtRest(Last(run)) && AbortsKept(Last(run), id) ==>
              (Last(run).reqs[id].queue != [] <==> !HeldUp(Last(run), id))
  {
    hide OwnFrom, Work, AtRest, HeldUp, AbortsKept;
    OwnStepsAreFew(run, n);
    OwnStepsLeaveReaders(run, n);
    if AtRest(Last(run)) && AbortsKept(Last(run), id) { NoDeadlock(run, id); }
  }
}
