/** Two runs of Protocol that show its limits: a query held up behind a stream whose caller left it
    open, and a stream that wedges because its abort was forgotten. */
module ProtocolWedge {
  import opened Wrappers
  import opened QueryStream
  import opened GoRows
  import opened Protocol
  import opened ProtocolInv
  import opened ProtocolSteps
  import opened ProtocolWork
  import opened ProtocolTheorems
  import opened ProtocolRest
  import opened EarlyAborts

  ghost predicate Reachable(s: State) { exists run :: IsRun(run) && Last(run) == s }

  lemma Starts()
    ensures Reachable(INIT)
  {
    assert IsRun([INIT]) && Last([INIT]) == INIT;
  }

  lemma GoesOn(s: State, a: Action)
    requires Reachable(s) && Enabled(s, a)
    ensures Reachable(Step(s, a))
  {
    hide Enabled, Step;
    var run :| IsRun(run) && Last(run) == s;
    var more := run + [Step(s, a)];
    forall i | 0 <= i < |more| - 1 ensures Transition(more[i], more[i + 1]) {
      if i < |run| - 1 { assert Transition(run[i], run[i + 1]); }
    }
    assert IsRun(more) && Last(more) == Step(s, a);
  }

  lemma ReachedKeeps(s: State)
    requires Reachable(s)
    ensures Inv(s)
  {
    hide Inv;
    var run :| IsRun(run) && Last(run) == s;
    RunKeeps(run);
  }

  // ---- A stream that nobody reads or stops parks within 585 rows -----------------

  /** The rows of the first `n` batches, if none was cut for its size. */
  function TargetSum(n: nat): nat { if n == 0 then 0 else TargetSum(n - 1) + RowTarget(StageOf(n - 1)) }

  const WINDOW_ROWS := 585

  lemma {:induction false} BatchesAreBounded(s: Script, sent: seq<Frame>)
    requires AllGood(s, sent)
    ensures |Payloads(sent)| <= TargetSum(|sent|)
  {
    hide Full, BatchLength;
    if sent != [] {
      var n := |sent| - 1;
      assert GoodBatch(s, n, sent[n]);
      assert AllGood(s, sent[..n]) by { forall i | 0 <= i < n ensures GoodBatch(s, i, sent[..n][i]) {
        assert GoodBatch(s, i, sent[i]); } }
      BatchesAreBounded(s, sent[..n]);
    }
  }

  lemma WindowRows(n: nat)
    requires n < CREDIT_WINDOW
    ensures TargetSum(n) + RowTarget(StageOf(n)) <= WINDOW_ROWS
  {
    assert TargetSum(1) == 1 && TargetSum(2) == 9;
    assert TargetSum(3) == 73;
  }

  /** Running, without a credit, an abort or an interrupt so far, and with rows enough. */
  predicate Flowing(q: Request) {
    && q.job.Running? && !q.job.st.aborted && q.received == 0 && |q.script.rows| >= WINDOW_ROWS
    && q.job.st.pos <= |q.script.rows|
    && (q.job.st.wait.Ready? ==> q.job.st.rc == SQLITE_ROW)
  }

  /** At the head of the loop there is another row: the window is shorter than the result. */
  lemma MoreRows(s: Script, sent: seq<Frame>, st: Stream)
    requires StreamInv(s, sent, 0, st) && st.wait.Ready? && !st.aborted
    ensures st.pos < WINDOW_ROWS
  {
    BatchesAreBounded(s, sent);
    WindowRows(|sent|);
    assert |Payloads(sent) + st.batch| == |s.rows[..st.pos]|;
    hide AllGood, Payloads, TargetSum, BatchLength;
  }

  lemma FlowsOn(q: Request)
    requires JobInv(q) && Flowing(q) && q.job.st.wait.Ready?
    ensures Coherent(q.script, q.job.st)
    ensures var t := Iterate(q.script, q.job.st, false);
            && t.More? && |t.post| <= 1 && Flowing(WithJob(q, Running(t.next), t.post))
            && t.next.pos == q.job.st.pos + 1
  {
    hide StreamInv, Full;
    assert Coherent(q.script, q.job.st) by { StreamCoherent(q.script, q.sent, q.received, q.job.st); }
    IterateInv(q.script, q.sent, 0, q.job.st, false);
    var t := Iterate(q.script, q.job.st, false);
    if t.next.wait.Ready? { MoreRows(q.script, q.sent + t.post, t.next); }
  }

  /** Only this request's job and frames differ, and the channel to Go. */
  predicate Ran(s: State, t: State, id: Id) {
    && id in s.reqs && id in t.reqs
    && t == s.(toGo := t.toGo,
               reqs := s.reqs[id := s.reqs[id].(job := t.reqs[id].job, sent := t.reqs[id].sent)])
  }

  lemma RanTwice(s: State, t: State, u: State, id: Id)
    requires Ran(s, t, id) && Ran(t, u, id)
    ensures Ran(s, u, id)
  {
    var q := u.reqs[id];
    assert s.reqs[id := t.reqs[id]][id := q] == s.reqs[id := q];
  }

  lemma TurnIsStep(s: State, id: Id)
    requires id in s.reqs && s.reqs[id].job.Running? && s.reqs[id].job.st.wait.Ready?
    requires Coherent(s.reqs[id].script, s.reqs[id].job.st)
    ensures Enabled(s, RunTurn(id, false))
    ensures Step(s, RunTurn(id, false)) == Turned(s, id, Iterate(s.reqs[id].script, s.reqs[id].job.st, false))
  {
    hide Coherent, Iterate, Turned, InTurn, HandlerFires;
  }

  lemma TurnedRan(s: State, id: Id, turn: Turn)
    requires id in s.reqs && turn.More?
    ensures Ran(s, Turned(s, id, turn), id)
    ensures Turned(s, id, turn).reqs[id] == WithJob(s.reqs[id], Running(turn.next), turn.post)
  {}

  lemma OneTurn(s: State, id: Id) returns (t: State)
    requires Reachable(s) && id in s.reqs && Flowing(s.reqs[id]) && s.reqs[id].job.st.wait.Ready?
    ensures Reachable(t) && Ran(s, t, id) && Flowing(t.reqs[id])
    ensures t.reqs[id].script == s.reqs[id].script && t.reqs[id].job.st.pos == s.reqs[id].job.st.pos + 1
  {
    hide Reachable, Inv, JobInv, UpInv, RouteInv, GoInv, AbortInv, Iterate, Coherent, Enabled, Step, Turned, Ran;
    var q := s.reqs[id];
    ReachedKeeps(s);
    Have(s, id);
    FlowsOn(q);
    var turn := Iterate(q.script, q.job.st, false);
    TurnIsStep(s, id);
    GoesOn(s, RunTurn(id, false));
    t := Turned(s, id, turn);
    TurnedRan(s, id, turn);
  }

  lemma MacrotaskIsStep(s: State, id: Id)
    requires id in s.reqs && s.reqs[id].job.Running? && s.reqs[id].job.st.wait.Yielding?
    requires Coherent(s.reqs[id].script, s.reqs[id].job.st)
    ensures Enabled(s, Macrotask(id, false))
    ensures Step(s, Macrotask(id, false)) ==
              Put(s, id, s.reqs[id].(job := Running(Resume(s.reqs[id].script, s.reqs[id].job.st, false))))
  {
    hide Coherent, Resume, InTurn, HandlerFires;
  }

  lemma PutRan(s: State, id: Id, job: Job)
    requires id in s.reqs
    ensures Ran(s, Put(s, id, s.reqs[id].(job := job)), id)
  {}

  lemma OneMacrotask(s: State, id: Id) returns (t: State)
    requires Reachable(s) && id in s.reqs && Flowing(s.reqs[id]) && s.reqs[id].job.st.wait.Yielding?
    ensures Reachable(t) && Ran(s, t, id) && Flowing(t.reqs[id]) && t.reqs[id].job.st.wait.Ready?
    ensures t.reqs[id].script == s.reqs[id].script && t.reqs[id].job.st.pos == s.reqs[id].job.st.pos
  {
    hide Reachable, Inv, JobInv, UpInv, RouteInv, GoInv, AbortInv, Coherent, Enabled, Step, Ran;
    var q := s.reqs[id];
    ReachedKeeps(s);
    Have(s, id);
    Resumes(q);
    MacrotaskIsStep(s, id);
    GoesOn(s, Macrotask(id, false));
    t := Put(s, id, q.(job := Running(Resume(q.script, q.job.st, false))));
    PutRan(s, id, t.reqs[id].job);
  }

  lemma Resumes(q: Request)
    requires JobInv(q) && Flowing(q) && q.job.st.wait.Yielding?
    ensures Coherent(q.script, q.job.st)
    ensures Flowing(q.(job := Running(Resume(q.script, q.job.st, false))))
  {
    hide StreamInv;
    assert Coherent(q.script, q.job.st) by { StreamCoherent(q.script, q.sent, q.received, q.job.st); }
    ResumeInv(q.script, q.sent, 0, q.job.st, false);
    MoreRows(q.script, q.sent, Resume(q.script, q.job.st, false));
  }

  /** ... so the stream goes on until its window is spent. */
  lemma {:induction false} RunsUntilParked(s: State, id: Id) returns (t: State)
    requires Reachable(s) && id in s.reqs && Flowing(s.reqs[id])
    ensures Reachable(t) && Ran(s, t, id) && IsParked(t.reqs[id])
    decreases |s.reqs[id].script.rows| - s.reqs[id].job.st.pos, s.reqs[id].job.st.wait.Yielding?
  {
    hide Reachable;
    var q := s.reqs[id];
    match q.job.st.wait
    case Parked =>
      t := s;
      assert s.reqs[id := q] == s.reqs;
    case Ready =>
      var u := OneTurn(s, id);
      t := RunsUntilParked(u, id);
      RanTwice(s, u, t, id);
    case Yielding =>
      var u := OneMacrotask(s, id);
      t := RunsUntilParked(u, id);
      RanTwice(s, u, t, id);
  }

  // ---- The steps of the two runs --------------------------------------------------

  lemma StartIsStep(s: State, id: Id)
    requires MayStart(s, id)
    ensures Enabled(s, Start(id, false)) && Step(s, Start(id, false)) == StartRun(s, id, false)
  {
    hide InTurn, HandlerFires, StartRun;
  }

  lemma BeginsFlowing(s: State, id: Id)
    requires Inv(s) && id in s.reqs && s.reqs[id].job.Queued? && id !in s.early
    requires |s.reqs[id].script.rows| >= WINDOW_ROWS
    ensures var t := StartRun(s, id, false);
            && Flowing(t.reqs[id])
            && t == s.(early := Remove(s.early, id),
                       reqs := s.reqs[id := s.reqs[id].(startMark := s.remembered, job := t.reqs[id].job)])
  {
    hide RouteInv, JobInv, GoInv, AbortInv, WordInv, ShapeInv, Up, Down, Expected, Remove, BatchLength;
    Have(s, id);
  }

  /** A request whose turn it is, and that is left alone from then on, parks. */
  lemma ParksAlone(s: State, id: Id) returns (t: State)
    requires Reachable(s) && MayStart(s, id) && id !in s.early
    requires |s.reqs[id].script.rows| >= WINDOW_ROWS
    ensures Reachable(t) && id in t.reqs && IsParked(t.reqs[id])
    ensures t == s.(early := Remove(s.early, id), toGo := t.toGo,
                    reqs := s.reqs[id := s.reqs[id].(startMark := s.remembered, job := t.reqs[id].job,
                                                     sent := t.reqs[id].sent)])
  {
    hide Reachable, Inv, InTurn, Enabled, Step, Flowing, StartRun, Remove;
    ReachedKeeps(s);
    StartIsStep(s, id);
    GoesOn(s, Start(id, false));
    var u := StartRun(s, id, false);
    BeginsFlowing(s, id);
    t := RunsUntilParked(u, id);
    assert s.reqs[id := u.reqs[id]][id := t.reqs[id]] == s.reqs[id := t.reqs[id]];
  }

  /** Only what the readers have been brought differs. */
  predicate Brought(s: State, t: State) {
    && t == s.(toGo := t.toGo, reqs := t.reqs) && t.reqs.Keys == s.reqs.Keys
    && forall k :: k in s.reqs ==> t.reqs[k] == s.reqs[k].(queue := t.reqs[k].queue)
  }

  lemma DeliverIsStep(s: State)
    requires s.toGo != [] && s.toGo[0].id in s.reqs
    ensures Enabled(s, Deliver) && Step(s, Deliver) == Received(s)
    ensures Brought(s, Received(s)) && |Received(s).toGo| < |s.toGo|
  {
    hide InTurn, HandlerFires;
  }

  lemma {:induction false} DeliversAll(s: State) returns (t: State)
    requires Reachable(s)
    ensures Reachable(t) && Brought(s, t) && t.toGo == []
    decreases |s.toGo|
  {
    hide Reachable, Inv, Enabled, Step, Received;
    ReachedKeeps(s);
    if s.toGo == [] {
      t := s;
    } else {
      HeadsKnown(s);
      DeliverIsStep(s);
      GoesOn(s, Deliver);
      t := DeliversAll(Received(s));
    }
  }

  lemma HeadsKnown(s: State)
    requires Inv(s)
    ensures s.toWorker != [] ==> s.toWorker[0].id in s.reqs
    ensures s.toGo != [] ==> s.toGo[0].id in s.reqs
  {
    hide ReqInv, WordInv;
    HeadsAreKnown(s);
  }

  /** A query that has reached the worker and waits for its turn. */
  function Waited(script: Script, key: nat, slot: nat): Request {
    NewQuery(script, key, slot).(job := Queued)
  }

  function Asked(s: State, script: Script, key: nat, slot: nat): State {
    s.(reqs := s.reqs[s.nextId := Waited(script, key, slot)], nextId := s.nextId + 1)
  }

  lemma AskIsSteps(s: State, script: Script, key: nat, slot: nat)
    requires !s.dead && s.nextId < ID_LIMIT && s.toWorker == []
    ensures var a := Action.Begin(script, key, slot);
            && Enabled(s, a) && Enabled(Step(s, a), Dispatch)
            && Step(Step(s, a), Dispatch) == Asked(s, script, key, slot)
  {
    hide InTurn, HandlerFires, Coherent;
    var id := s.nextId;
    var q := Waited(script, key, slot);
    assert s.reqs[id := q.(job := InTransit)][id := q] == s.reqs[id := q];
    assert ([] + [QUERY(id)])[1..] == [];
  }

  /** A query is sent and reaches the worker. */
  lemma Ask(s: State, script: Script, key: nat, slot: nat)
    requires Reachable(s) && !s.dead && s.nextId < ID_LIMIT && s.toWorker == []
    ensures Reachable(Asked(s, script, key, slot))
  {
    hide Reachable, Enabled, Step, Asked;
    var a := Action.Begin(script, key, slot);
    AskIsSteps(s, script, key, slot);
    GoesOn(s, a);
    GoesOn(Step(s, a), Dispatch);
  }

  lemma FirstFrame(q: Request, dead: bool)
    requires JobInv(q) && GoInv(q) && RouteInv(q, [], dead) && IsParked(q) && q.phase.Opening? && q.route.Live?
    ensures q.queue != [] && q.queue[0].ROWS?
  {
    hide Payloads, CutExactlyWhenFull;
    assert [] + q.queue + [] == q.queue;
    assert GoodBatch(q.script, 0, q.sent[0]);
  }

  lemma OpenIsStep(s: State, id: Id)
    requires id in s.reqs && s.reqs[id].phase.Opening? && s.reqs[id].queue != [] && s.reqs[id].queue[0].ROWS?
    ensures Enabled(s, Action.Open(id))
    ensures Step(s, Action.Open(id)) == Put(s, id, Took(s.reqs[id]).(phase := Idle))
  {
    hide InTurn, HandlerFires, Coherent;
  }

  /** query() returns with the first batch of a stream that has parked. */
  lemma Opens(s: State, id: Id) returns (t: State)
    requires Reachable(s) && id in s.reqs && IsParked(s.reqs[id]) && s.toGo == []
    requires s.reqs[id].phase.Opening? && s.reqs[id].route.Live?
    ensures Reachable(t) && id in t.reqs && t == s.(reqs := s.reqs[id := t.reqs[id]])
    ensures t.reqs[id].phase.Idle? && IsParked(t.reqs[id]) && t.reqs[id].key == s.reqs[id].key
  {
    hide Reachable, Inv, Enabled, Step, JobInv, GoInv, RouteInv;
    ReachedKeeps(s);
    Have(s, id);
    FirstFrame(s.reqs[id], s.dead);
    OpenIsStep(s, id);
    GoesOn(s, Action.Open(id));
    t := Put(s, id, Took(s.reqs[id]).(phase := Idle));
  }

  // ---- A query held up ---------------------------------------------------------------

  /** Two queries on one database: the first parked and its caller idle, the second waiting. */
  predicate Held(s: State) {
    && s.nextId == 3 && s.reqs.Keys == {1, 2} && s.others == map[] && !s.dead
    && s.toWorker == [] && s.toGo == [] && s.reqs[1].key == s.reqs[2].key
    && IsParked(s.reqs[1]) && s.reqs[1].phase.Idle?
    && s.reqs[2].job.Queued? && s.reqs[2].phase.Opening? && s.reqs[2].queue == []
  }

  lemma HeldRests(s: State)
    requires Held(s)
    ensures AtRest(s) && HeldUp(s, 2)
  {
    assert LeftByItsCaller(s.reqs[1]);
    assert 1 in s.reqs && !InTurn(s, 2, s.reqs[2].key);
    hide Coherent, HandlerFires;
  }

  lemma ReachesHeld(a: Script, b: Script, key: nat, slot: nat) returns (s: State)
    requires |a.rows| >= WINDOW_ROWS
    ensures Reachable(s) && Held(s) && s.reqs[2].script == b
  {
    hide Reachable, Enabled, Step, Ran;
    Starts();
    Ask(INIT, a, key, slot);
    var s1 := Asked(INIT, a, key, slot);
    var s2 := ParksAlone(s1, 1);
    var s3 := DeliversAll(s2);
    var s4 := Opens(s3, 1);
    Ask(s4, b, key, slot);
    s := Asked(s4, b, key, slot);
  }

  /** The limit of NoDeadlock.  A query that is left open after its first rows holds up the next
      one on its database: nothing is in flight, the worker can do nothing, and the second
      query() waits without a frame until the first caller reads on or closes. */
  lemma QueryHeldUp(a: Script, b: Script, key: nat, slot: nat)
    requires |a.rows| >= WINDOW_ROWS
    ensures exists run: seq<State> ::
              && IsRun(run) && AtRest(Last(run)) && !Last(run).dead
              && 1 in Last(run).reqs && IsParked(Last(run).reqs[1]) && Last(run).reqs[1].phase.Idle?
              && 2 in Last(run).reqs && Last(run).reqs[2].script == b && HeldUp(Last(run), 2)
              && Waiting(Last(run).reqs[2]) && Last(run).reqs[2].queue == []
  {
    hide AtRest, HeldUp, Transition;
    var s := ReachesHeld(a, b, key, slot);
    HeldRests(s);
    var run :| IsRun(run) && Last(run) == s;
  }

  // ---- An abort forgotten --------------------------------------------------------------

  /** A query whose context ended while it waited for its turn, and whose ABORT has come. */
  function GivenUp(q: Request, n: nat): Request {
    q.(ctxDone := true, phase := Closed, route := Gone, queue := [], cursor := q.cursor.(closed := true),
       abortUp := false, remembered := true, mark := n)
  }

  function WithGivenUp(s: State, id: Id): State
    requires id in s.reqs
  {
    s.(early := AddEarly(s.early, id), remembered := s.remembered + 1,
       reqs := s.reqs[id := GivenUp(s.reqs[id], s.remembered + 1)])
  }

  lemma GiveUpIsSteps(s: State, id: Id)
    requires id in s.reqs && s.reqs[id].job.Queued? && s.reqs[id].phase.Opening?
    requires !s.reqs[id].cursor.eof && s.toWorker == [] && id !in s.early
    ensures Enabled(s, CtxEnd(id))
    ensures var u := Step(s, CtxEnd(id));
            && Enabled(u, FailOpen(id)) && Enabled(Step(u, FailOpen(id)), Dispatch)
            && Step(Step(u, FailOpen(id)), Dispatch) == WithGivenUp(s, id)
  {
    hide InTurn, HandlerFires, Coherent, AddEarly;
    assert ([] + [ABORT(id)])[1..] == [];
    var q := s.reqs[id].(ctxDone := true);
    var shut := Shut(q);
    assert s.reqs[id := q][id := shut][id := GivenUp(s.reqs[id], s.remembered + 1)] ==
           s.reqs[id := GivenUp(s.reqs[id], s.remembered + 1)];
  }

  lemma NotRememberedYet(s: State, id: Id)
    requires Inv(s) && id in s.reqs && s.reqs[id].phase.Opening?
    ensures id !in s.early && !s.reqs[id].cursor.eof && |s.early| <= MAX_EARLY_ABORTS
  {
    hide RouteInv, JobInv, AbortInv, WordInv, Up, Down, Expected, Payloads;
    Have(s, id);
  }

  lemma GivesUp(s: State, id: Id)
    requires Reachable(s) && id in s.reqs && s.reqs[id].job.Queued? && s.reqs[id].phase.Opening? && s.toWorker == []
    ensures Reachable(WithGivenUp(s, id)) && id !in s.early && |s.early| <= MAX_EARLY_ABORTS
  {
    hide Reachable, Inv, Enabled, Step, WithGivenUp;
    ReachedKeeps(s);
    NotRememberedYet(s, id);
    GiveUpIsSteps(s, id);
    GoesOn(s, CtxEnd(id));
    GoesOn(Step(s, CtxEnd(id)), FailOpen(id));
    GoesOn(Step(Step(s, CtxEnd(id)), FailOpen(id)), Dispatch);
  }

  function IdsFrom(first: Id, n: nat): seq<Id> { if n == 0 then [] else IdsFrom(first, n - 1) + [first + n - 1] }

  lemma {:induction false} IdsAre(first: Id, n: nat)
    ensures |IdsFrom(first, n)| == n && forall i :: 0 <= i < n ==> IdsFrom(first, n)[i] == first + i
  {
    if n > 0 { IdsAre(first, n - 1); }
  }

  /** What `n` queries of database `key`, each given up in its queue, leave behind. */
  predicate ManyGivenUp(s: State, t: State, n: nat, key: nat) {
    && t == s.(reqs := t.reqs, nextId := s.nextId + n, early := AddAll(s.early, IdsFrom(s.nextId, n)),
               remembered := s.remembered + n)
    && (forall k :: k in s.reqs ==> k in t.reqs && t.reqs[k] == s.reqs[k])
    && (forall k :: k in t.reqs && k !in s.reqs ==> t.reqs[k].job.Queued? && t.reqs[k].key == key)
  }

  lemma OneMoreGivenUp(s: State, t: State, n: nat, script: Script, key: nat)
    requires ManyGivenUp(s, t, n, key) && t.nextId !in t.reqs
    ensures ManyGivenUp(s, WithGivenUp(Asked(t, script, key, 0), t.nextId), n + 1, key)
  {
    hide AddEarly;
    var ids := IdsFrom(s.nextId, n + 1);
    assert ids[..|ids| - 1] == IdsFrom(s.nextId, n);
  }

  lemma OneGivenUp(s: State, script: Script, key: nat)
    requires Reachable(s) && s.toWorker == [] && !s.dead && s.nextId < ID_LIMIT
    ensures Reachable(WithGivenUp(Asked(s, script, key, 0), s.nextId)) && s.nextId !in s.reqs
  {
    hide Reachable, WithGivenUp;
    Ask(s, script, key, 0);
    GivesUp(Asked(s, script, key, 0), s.nextId);
    NextIsNew(s);
  }

  lemma NoneGivenUp(s: State, key: nat)
    ensures ManyGivenUp(s, s, 0, key)
  {}

  lemma ManyGivenUpHas(s: State, t: State, n: nat, key: nat)
    requires ManyGivenUp(s, t, n, key)
    ensures t.toWorker == s.toWorker && t.dead == s.dead && t.nextId == s.nextId + n
  {
    hide AddAll, IdsFrom;
  }

  lemma {:induction false} GiveUpMany(s: State, n: nat, script: Script, key: nat) returns (t: State)
    requires Reachable(s) && s.toWorker == [] && !s.dead && s.nextId + n <= ID_LIMIT
    ensures Reachable(t) && ManyGivenUp(s, t, n, key)
  {
    hide Reachable, WithGivenUp, ManyGivenUp;
    if n == 0 {
      t := s;
      NoneGivenUp(s, key);
    } else {
      var u := GiveUpMany(s, n - 1, script, key);
      ManyGivenUpHas(s, u, n - 1, key);
      OneGivenUp(u, script, key);
      t := WithGivenUp(Asked(u, script, key, 0), u.nextId);
      OneMoreGivenUp(s, u, n - 1, script, key);
    }
  }

  lemma NextIsNew(s: State)
    requires Reachable(s)
    ensures s.nextId !in s.reqs
  {
    hide Reachable, WordInv, ReqInv;
    ReachedKeeps(s);
  }

  /** A parked stream whose reader has closed and whose ABORT has come. */
  function Aborting(q: Request): Request
    requires q.job.Running?
  {
    q.(phase := Closed, route := Gone, queue := [], cursor := q.cursor.(closed := true),
       job := Running(OnAbort(q.job.st)))
  }

  lemma CloseIsSteps(s: State, id: Id)
    requires id in s.reqs && IsParked(s.reqs[id]) && s.reqs[id].phase.Idle?
    requires !s.reqs[id].cursor.eof && !s.reqs[id].abortUp && s.toWorker == []
    ensures Enabled(s, Action.Close(id))
    ensures Enabled(Step(s, Action.Close(id)), Dispatch)
    ensures Step(Step(s, Action.Close(id)), Dispatch) == Put(s, id, Aborting(s.reqs[id]))
  {
    hide InTurn, HandlerFires, Coherent, OnAbort;
    assert ([] + [ABORT(id)])[1..] == [];
    assert s.reqs[id := Shut(s.reqs[id])][id := Aborting(s.reqs[id])] == s.reqs[id := Aborting(s.reqs[id])];
  }

  /** An aborted stream, woken, ends. */
  lemma EndIsSteps(s: State, id: Id)
    requires id in s.reqs && s.reqs[id].job.Running? && s.reqs[id].job.st.wait.Yielding? && s.reqs[id].job.st.aborted
    requires Coherent(s.reqs[id].script, s.reqs[id].job.st)
    ensures Enabled(s, Macrotask(id, false)) && Enabled(Step(s, Macrotask(id, false)), RunTurn(id, false))
    ensures var t := Step(Step(s, Macrotask(id, false)), RunTurn(id, false));
            && id in t.reqs && t.reqs[id].job.Finished? && t.reqs[id].key == s.reqs[id].key
            && t == s.(early := Remove(s.early, id), toGo := t.toGo, reqs := s.reqs[id := t.reqs[id]])
  {
    MacrotaskIsStep(s, id);
    hide Enabled, Step, Coherent, Remove;
    var st := Resume(s.reqs[id].script, s.reqs[id].job.st, false);
    var u := Put(s, id, s.reqs[id].(job := Running(st)));
    TurnIsStep(u, id);
    assert Turned(u, id, Over(ABORTED)).reqs == s.reqs[id := Turned(u, id, Over(ABORTED)).reqs[id]];
  }

  lemma IdleIsNotOver(q: Request, id: Id)
    requires UpInv(q, id, []) && GoInv(q) && JobInv(q) && IsParked(q)
    ensures !q.cursor.eof && !q.abortUp
    ensures Coherent(q.script, q.job.st)
  {
    hide Payloads;
    ExpectedNothing(id, q.job.InTransit?, q.creditsUp, q.abortUp);
  }

  /** The caller that held the others up closes at last, and its stream ends. */
  lemma ClosesAndEnds(s: State, id: Id) returns (t: State)
    requires Reachable(s) && id in s.reqs && IsParked(s.reqs[id]) && s.reqs[id].phase.Idle? && s.toWorker == []
    ensures Reachable(t) && id in t.reqs && t.reqs[id].job.Finished? && t.reqs[id].key == s.reqs[id].key
    ensures t == s.(early := Remove(s.early, id), toGo := t.toGo, reqs := s.reqs[id := t.reqs[id]])
  {
    hide Reachable, Inv, Enabled, Step, JobInv, GoInv, UpInv, RouteInv, AbortInv, Remove, Coherent;
    ReachedKeeps(s);
    Have(s, id);
    IdleIsNotOver(s.reqs[id], id);
    CloseIsSteps(s, id);
    GoesOn(s, Action.Close(id));
    GoesOn(Step(s, Action.Close(id)), Dispatch);
    var u := Put(s, id, Aborting(s.reqs[id]));
    StillCoherent(s.reqs[id].script, s.reqs[id].job.st);
    EndIsSteps(u, id);
    GoesOn(u, Macrotask(id, false));
    GoesOn(Step(u, Macrotask(id, false)), RunTurn(id, false));
    t := Step(Step(u, Macrotask(id, false)), RunTurn(id, false));
    assert u.reqs[id := t.reqs[id]] == s.reqs[id := t.reqs[id]];
  }

  lemma StillCoherent(script: Script, st: Stream)
    requires Coherent(script, st)
    ensures Coherent(script, OnAbort(st))
  {}

  /** Of `n` queries given up behind it, 1024 are enough to push out the first one's abort. */
  lemma PushedOut(s: State, t: State, key: nat)
    requires Inv(s) && Held(s) && ManyGivenUp(WithGivenUp(s, 2), t, MAX_EARLY_ABORTS, key)
    ensures 2 !in t.early
  {
    hide ReqInv, WordInv, AddAll, AddEarly, IdsFrom;
    var ids := IdsFrom(3, MAX_EARLY_ABORTS);
    IdsAre(3, MAX_EARLY_ABORTS);
    NotRememberedYet(s, 2);
    assert forall i :: 0 <= i < |ids| ==> ids[i] !in s.early && ids[i] !in ids[..i];
    RememberedUntil(s.early, 2, ids);
  }

  /** Everything before the second query of Held has finished, once the first has. */
  lemma SecondIsNext(s: State)
    requires Inv(s) && 1 in s.reqs && s.reqs[1].job.Finished? && s.others == map[]
    requires 2 in s.reqs && s.reqs[2].job.Queued?
    ensures MayStart(s, 2)
  {
    hide ReqInv, WordInv;
  }

  /** A wedged stream: parked, its reader closed, and no command for it on the way. */
  predicate Wedged(s: State, id: Id) {
    && id in s.reqs && IsParked(s.reqs[id]) && s.reqs[id].phase.Closed?
    && forall c :: c in s.toWorker ==> c.id != id
  }

  lemma EndsWedged(s: State) returns (t: State)
    requires Reachable(s) && !s.dead && s.toWorker == [] && 2 !in s.early && MayStart(s, 2)
    requires |s.reqs[2].script.rows| >= WINDOW_ROWS && s.reqs[2].remembered && s.reqs[2].phase.Closed?
    ensures Reachable(t) && !t.dead && Wedged(t, 2) && t.toGo == []
    ensures t.reqs[2].remembered && t.reqs[2].mark == s.reqs[2].mark && t.reqs[2].startMark == s.remembered
  {
    hide Reachable, MayStart;
    var u := ParksAlone(s, 2);
    t := DeliversAll(u);
  }

  /** The limit of NoWedge.  1024 queries given up in the queue behind one that was given up
      itself push its abort out; when its turn comes it runs for nobody, parks, and is never
      woken. */
  lemma AbortForgotten(a: Script, b: Script, key: nat, slot: nat)
    requires |a.rows| >= WINDOW_ROWS && |b.rows| >= WINDOW_ROWS
    ensures exists run: seq<State> ::
              && IsRun(run) && !Last(run).dead && Wedged(Last(run), 2)
              && LateAborts(Last(run).reqs[2]) == MAX_EARLY_ABORTS && !Wakeable(Last(run), 2)
  {
    hide Inv, Transition, IsParked, Remove, AddAll, IdsFrom, MayStart, AddEarly;
    var s1 := ReachesHeld(a, b, key, slot);
    ReachedKeeps(s1);
    GivesUp(s1, 2);
    var s2 := WithGivenUp(s1, 2);
    var s3 := GiveUpMany(s2, MAX_EARLY_ABORTS, b, key);
    PushedOut(s1, s3, key);
    var s4 := ClosesAndEnds(s3, 1);
    RemoveShrinks(s3.early, 1);
    ReachedKeeps(s4);
    SecondIsNext(s4);
    var s5 := EndsWedged(s4);
    ReachedKeeps(s5);
    ClosedIsGone(s5, 2);
    var run :| IsRun(run) && Last(run) == s5;
  }

  lemma ClosedIsGone(s: State, id: Id)
    requires Inv(s) && Wedged(s, id)
    ensures !Wakeable(s, id)
  {
    hide UpInv, JobInv, GoInv, AbortInv, WordInv, Up, Down;
    Have(s, id);
  }

  // ---- A wedged stream stays wedged --------------------------------------------------------

  /** Nothing that is done to another request wakes it. */
  lemma PutLeaves(s: State, k: Id, id: Id)
    requires Wedged(s, id) && k != id
    ensures forall q :: Wedged(Put(s, k, q), id)
    ensures forall q :: Wedged(CloseRows(s, k, q), id)
    ensures forall q :: Wedged(ReadOn(s, k, q), id)
  {
    hide IsParked;
  }

  function ReaderOf(a: Action): Id
    requires OfAReader(a)
  {
    a.id
  }

  lemma ReaderIsAnother(s: State, a: Action, id: Id)
    requires Enabled(s, a) && OfAReader(a) && Wedged(s, id)
    ensures ReaderOf(a) != id
  {
    hide IsParked;
  }

  lemma ReaderLeavesWedged(s: State, a: Action, id: Id)
    requires Enabled(s, a) && OfAReader(a) && Wedged(s, id)
    ensures Wedged(Step(s, a), id)
  {
    ReaderIsAnother(s, a, id);
    PutLeaves(s, ReaderOf(a), id);
    hide Wedged, Put, CloseRows, ReadOn, Settle, Ending, Accept, Coherent, HandlerFires, InTurn, DispatchHead, Turned,
         StartRun, Finish, Received;
  }

  lemma DispatchLeaves(s: State, id: Id)
    requires Wedged(s, id) && s.toWorker != [] && s.toWorker[0].id in s.reqs
    ensures Wedged(DispatchHead(s), id)
  {
    hide IsParked, AddEarly, OnCredit, OnAbort;
    assert s.toWorker[0] in s.toWorker;
  }

  lemma TurnedLeaves(s: State, k: Id, turn: Turn, id: Id)
    requires Wedged(s, id) && k in s.reqs && k != id
    ensures Wedged(Turned(s, k, turn), id)
  {
    hide IsParked, Remove;
  }

  lemma WorkerLeavesWedged(s: State, a: Action, id: Id)
    requires Enabled(s, a) && !OfAReader(a) && Wedged(s, id) && id < s.nextId
    ensures Wedged(Step(s, a), id)
  {
    hide Coherent, HandlerFires, InTurn, ReadOn, CloseRows, Iterate, Resume, DispatchHead, Turned, Remove;
    match a
    case Dispatch => DispatchLeaves(s, id);
    case RunTurn(k, i) => TurnedLeaves(s, k, Iterate(s.reqs[k].script, s.reqs[k].job.st, i), id);
    case _ =>
  }

  /** ... so it is left behind for good: nothing finishes it, and its chain with it. */
  lemma {:induction false} WedgedForGood(run: seq<State>, n: nat, id: Id)
    requires IsRun(run) && n < |run| && Wedged(run[n], id)
    ensures Wedged(Last(run), id)
  {
    if n < |run| - 1 {
      var before := run[..|run| - 1];
      assert forall i :: 0 <= i < |before| - 1 ==> Transition(run[i], run[i + 1]);
      WedgedForGood(before, n, id);
      assert Transition(run[|run| - 2], run[|run| - 1]);
      var a :| Enabled(Last(before), a) && Last(run) == Step(Last(before), a);
      RunKeeps(before);
      hide ReqInv, WordInv, Step, Enabled;
      if OfAReader(a) { ReaderLeavesWedged(Last(before), a, id); } else { WorkerLeavesWedged(Last(before), a, id); }
    }
  }

  /** Every stream that parks after its abort was forgotten is wedged, then and for good. */
  lemma ForgottenForGood(run: seq<State>, n: nat, id: Id)
    requires IsRun(run) && n < |run| && id in run[n].reqs && IsParked(run[n].reqs[id]) && Forgotten(run[n].reqs[id])
    ensures Wedged(run[n], id) && Wedged(Last(run), id)
  {
    hide Transition, Inv, Forgotten;
    RunUpTo(run, n);
    ForgottenIsWedged(run[n], id);
    WedgedForGood(run, n, id);
  }

  lemma ForgottenIsWedged(s: State, id: Id)
    requires Inv(s) && id in s.reqs && IsParked(s.reqs[id]) && Forgotten(s.reqs[id])
    ensures Wedged(s, id)
  {
    hide Inv, Up, Down, UpInv, RouteInv, JobInv, GoInv, AbortInv;
    Have(s, id);
    NothingMoreToSay(s.reqs[id], id, s.toWorker);
  }
}
