/** When everything in Protocol has come to rest: who waits, and for whom. */
module ProtocolRest {
  import opened Wrappers
  import opened QueryStream
  import opened GoRows
  import opened Protocol
  import opened ProtocolInv
  import opened ProtocolSteps
  import opened ProtocolWork
  import opened ProtocolTheorems

  /** The steps that need no caller: those of the database worker and of the two channels. */
  predicate OnItsOwn(a: Action) {
    a.Dispatch? || a.Deliver? || a.Start? || a.StartFail? || a.RunTurn? || a.Macrotask? || a.FinishOther?
  }

  /** Nothing is in flight and the database worker can do nothing. */
  ghost predicate AtRest(s: State) {
    forall a :: OnItsOwn(a) ==> !Enabled(s, a)
  }

  /** An open stream that is parked, and not because its reader waits for it: the caller is
      between two calls, or has a frame to take. */
  predicate LeftByItsCaller(q: Request) {
    IsParked(q) && !q.phase.Closed? && (q.phase.Idle? || q.queue != [])
  }

  /** Queued behind a stream of its own database that its caller has left open. */
  predicate HeldUp(s: State, id: Id)
    requires id in s.reqs
  {
    && s.reqs[id].job.Queued?
    && exists k :: k in s.reqs && k < id && s.reqs[k].key == s.reqs[id].key && LeftByItsCaller(s.reqs[k])
  }

  // ---- One request at rest -------------------------------------------------------

  lemma HeadsAreKnown(s: State)
    requires ShapeInv(s)
    ensures s.toWorker != [] ==> s.toWorker[0].id in s.reqs
    ensures s.toGo != [] ==> s.toGo[0].id in s.reqs
  {}

  lemma NothingInFlight(s: State)
    requires ShapeInv(s) && AtRest(s)
    ensures s.toWorker == [] && s.toGo == []
  {
    hide InTurn, HandlerFires, Coherent;
    assert OnItsOwn(Dispatch) && OnItsOwn(Deliver);
    HeadsAreKnown(s);
    assert !Enabled(s, Dispatch) && !Enabled(s, Deliver);
  }

  lemma ExpectedNothing(id: Id, query: bool, credits: nat, abort: bool)
    requires Expected(id, query, credits, abort) == []
    ensures !query && credits == 0 && !abort
  {
    assert |Expected(id, query, credits, abort)| >= |Repeat(CREDIT(id), credits)|;
  }

  /** What its queue of commands says of a request when the channel is empty. */
  lemma NoCommands(s: State, id: Id)
    requires Inv(s) && AtRest(s) && id in s.reqs
    ensures var q := s.reqs[id]; !q.job.InTransit? && q.creditsUp == 0 && !q.abortUp
    ensures Up(s.toWorker, id) == [] && Down(s.toGo, id) == []
  {
    hide AtRest, ReqInv, WordInv, Expected;
    NothingInFlight(s);
    Have(s, id);
    RequestHas(s, id);
    var q := s.reqs[id];
    ExpectedNothing(id, q.job.InTransit?, q.creditsUp, q.abortUp);
  }

  lemma RequestHas(s: State, id: Id)
    requires id in s.reqs && ReqInv(s, id, s.reqs[id])
    ensures UpInv(s.reqs[id], id, Up(s.toWorker, id)) && JobInv(s.reqs[id])
    ensures RouteInv(s.reqs[id], Down(s.toGo, id), s.dead) && GoInv(s.reqs[id])
    ensures AbortInv(s.reqs[id], id, s.early, s.remembered)
  {}

  /** A running stream is parked, and a queued one has to wait its turn. */
  lemma WorkerStuck(s: State, id: Id)
    requires AtRest(s) && id in s.reqs && JobInv(s.reqs[id])
    ensures s.reqs[id].job.Running? ==> IsParked(s.reqs[id])
    ensures s.reqs[id].job.Queued? ==> !InTurn(s, id, s.reqs[id].key)
  {
    hide InTurn, HandlerFires, StreamInv, SentWhole;
    assert OnItsOwn(RunTurn(id, false)) && OnItsOwn(Macrotask(id, false)) && OnItsOwn(Start(id, false));
    var q := s.reqs[id];
    if q.job.Running? { StreamCoherent(q.script, q.sent, q.received, q.job.st); }
    hide Coherent;
    assert !Enabled(s, RunTurn(id, false)) && !Enabled(s, Macrotask(id, false)) && !Enabled(s, Start(id, false));
  }

  lemma OtherStuck(s: State, id: Id)
    requires AtRest(s) && id in s.others && InTurn(s, id, s.others[id].key)
    ensures s.others[id].done
  {
    hide InTurn, HandlerFires, Coherent;
    assert OnItsOwn(FinishOther(id, false));
    assert !Enabled(s, FinishOther(id, false));
  }

  /** A reader that has not seen the end of a finished stream has not seen all of it. */
  lemma FinishedIsAhead(q: Request)
    requires JobInv(q) && GoInv(q) && q.job.Finished? && !q.cursor.eof && q.taken <= q.sent
    ensures |q.taken| < |q.sent|
  {
    hide AllGood, Payloads;
    assert |q.taken| == |q.sent| ==> q.taken == q.sent;
  }

  /** A stream that has begun, and has nothing in flight, has a frame for the reader that waits. */
  lemma BegunHasFrame(q: Request, id: Id)
    requires UpInv(q, id, []) && JobInv(q) && GoInv(q) && RouteInv(q, [], false) && q.creditsUp == 0
    requires (IsParked(q) || q.job.Finished?) && Waiting(q)
    ensures q.queue != []
  {
    hide AllGood, Payloads, Expected, StreamInv, SentWhole;
    if IsParked(q) { ParkedIsAhead(q, id, []); } else { FinishedIsAhead(q); }
  }

  /** A parked stream is not closed, if its abort was not forgotten. */
  lemma ParkedIsOpen(q: Request, id: Id, early: seq<Id>, n: nat)
    requires JobInv(q) && GoInv(q) && AbortInv(q, id, early, n) && IsParked(q) && !q.abortUp
    requires LateAborts(q) < MAX_EARLY_ABORTS
    ensures !q.phase.Closed?
  {
    hide Payloads, Waits;
    ParkedNotAborted(q);
  }

  // ---- Whole chains --------------------------------------------------------------

  predicate Unfinished(s: State, id: Id, key: nat) {
    || (id in s.reqs && s.reqs[id].key == key && !s.reqs[id].job.Finished?)
    || (id in s.others && s.others[id].key == key && !s.others[id].done)
  }

  lemma EarlierOfChain(s: State, id: Id, key: nat) returns (j: Id)
    requires !InTurn(s, id, key)
    ensures j < id && Unfinished(s, j, key)
  {
    if k :| k in s.reqs && k < id && s.reqs[k].key == key && !s.reqs[k].job.Finished? {
      j := k;
    } else {
      j :| j in s.others && j < id && s.others[j].key == key && !s.others[j].done;
    }
  }

  /** Of the unfinished requests under a key one is first, and it is that one's turn. */
  lemma FirstOfChain(s: State, id: Id, key: nat) returns (k: Id)
    requires Unfinished(s, id, key)
    ensures k <= id && Unfinished(s, k, key) && InTurn(s, k, key)
    decreases id
  {
    if InTurn(s, id, key) {
      k := id;
    } else {
      var j := EarlierOfChain(s, id, key);
      k := FirstOfChain(s, j, key);
    }
  }

  /** At rest a stream that has begun was left by its caller. */
  lemma BegunIsLeft(s: State, id: Id)
    requires Inv(s) && AtRest(s) && !s.dead && id in s.reqs && s.reqs[id].job.Running?
    requires LateAborts(s.reqs[id]) < MAX_EARLY_ABORTS
    ensures LeftByItsCaller(s.reqs[id])
  {
    hide Inv, AtRest, ReqInv, UpInv, JobInv, GoInv, RouteInv, AbortInv, LateAborts;
    var q := s.reqs[id];
    Have(s, id);
    RequestHas(s, id);
    NoCommands(s, id);
    WorkerStuck(s, id);
    ParkedIsOpen(q, id, s.early, s.remembered);
    if Waiting(q) { BegunHasFrame(q, id); }
  }

  /** At rest a request that is neither finished nor left by its caller is queued, and waits for
      its turn. */
  lemma QueuedOrLeft(s: State, id: Id)
    requires Inv(s) && AtRest(s) && !s.dead && id in s.reqs && !s.reqs[id].job.Finished?
    requires LateAborts(s.reqs[id]) < MAX_EARLY_ABORTS
    ensures LeftByItsCaller(s.reqs[id]) || (s.reqs[id].job.Queued? && !InTurn(s, id, s.reqs[id].key))
  {
    hide Inv, AtRest, InTurn, LateAborts, LeftByItsCaller, ReqInv;
    Have(s, id);
    RequestHas(s, id);
    NoCommands(s, id);
    WorkerStuck(s, id);
    if s.reqs[id].job.Running? { BegunIsLeft(s, id); }
  }

  /** At rest the first unfinished request of a chain is a stream left by its caller. */
  lemma FirstIsLeft(s: State, k: Id, key: nat)
    requires Inv(s) && AtRest(s) && !s.dead && Unfinished(s, k, key) && InTurn(s, k, key)
    requires k in s.reqs && s.reqs[k].key == key ==> LateAborts(s.reqs[k]) < MAX_EARLY_ABORTS
    ensures k in s.reqs && s.reqs[k].key == key && LeftByItsCaller(s.reqs[k])
  {
    hide Inv, InTurn, AtRest, LateAborts, LeftByItsCaller;
    if k in s.others && s.others[k].key == key && !s.others[k].done { OtherStuck(s, k); }
    QueuedOrLeft(s, k);
  }

  /** Nobody on the chain, up to this request, lost an early abort. */
  predicate AbortsKept(s: State, id: Id)
    requires id in s.reqs
  {
    forall k :: k in s.reqs && k <= id && s.reqs[k].key == s.reqs[id].key ==>
      LateAborts(s.reqs[k]) < MAX_EARLY_ABORTS
  }

  lemma HeldUpOrLeft(s: State, id: Id)
    requires Inv(s) && AtRest(s) && !s.dead && id in s.reqs && !s.reqs[id].job.Finished? && AbortsKept(s, id)
    ensures LeftByItsCaller(s.reqs[id]) || HeldUp(s, id)
  {
    hide Inv, InTurn, AtRest, LateAborts, LeftByItsCaller;
    QueuedOrLeft(s, id);
    var k := FirstOfChain(s, id, s.reqs[id].key);
    FirstIsLeft(s, k, s.reqs[id].key);
  }

  /** What a request held up looks like to its reader. */
  lemma QueuedHasNone(s: State, id: Id)
    requires Inv(s) && id in s.reqs && s.reqs[id].job.Queued? && Waiting(s.reqs[id])
    ensures s.reqs[id].queue == []
  {
    hide Inv, ReqInv, JobInv, GoInv, AbortInv, WordInv, Up, Down, Expected;
    Have(s, id);
    RequestHas(s, id);
    var q := s.reqs[id];
    assert q.sent == [];
    assert |q.taken + q.queue| >= |q.queue|;
  }

  lemma FinishedHasFrame(s: State, id: Id)
    requires Inv(s) && AtRest(s) && !s.dead && id in s.reqs && s.reqs[id].job.Finished? && Waiting(s.reqs[id])
    ensures s.reqs[id].queue != []
  {
    hide Inv, AtRest, ReqInv, UpInv, JobInv, GoInv, RouteInv, AbortInv;
    Have(s, id);
    RequestHas(s, id);
    NoCommands(s, id);
    BegunHasFrame(s.reqs[id], id);
  }

  /** No deadlock of the workers' own making.  When nothing is in flight and the database worker
      can do nothing, a reader that waits has no frame if and only if its request is queued behind
      a stream of its own database that its caller has left open; and a request whose reader has
      closed is over, or is queued in the same way.  With a dead transport every such reader has
      a frame or a pull that fails. */
  lemma NoDeadlock(run: seq<State>, id: Id)
    requires IsRun(run) && AtRest(Last(run)) && id in Last(run).reqs && AbortsKept(Last(run), id)
    ensures var s := Last(run); var q := s.reqs[id];
            if s.dead then Waiting(q) ==> q.queue != [] || PullMayFail(q)
            else && (Waiting(q) ==> (q.queue == [] <==> HeldUp(s, id)))
                 && (q.phase.Closed? ==> q.job.Finished? || HeldUp(s, id))
  {
    var s := Last(run);
    RunKeeps(run);
    hide IsRun, Inv, AtRest, HeldUp, AbortsKept;
    if s.dead {
      DeadRoute(s, id);
    } else {
      if s.reqs[id].job.Finished? {
        if Waiting(s.reqs[id]) { FinishedHasFrame(s, id); }
      } else {
        HeldUpOrLeft(s, id);
      }
      assert HeldUp(s, id) ==> s.reqs[id].job.Queued? by { IsQueued(s, id); }
      if s.reqs[id].job.Queued? && Waiting(s.reqs[id]) { QueuedHasNone(s, id); }
    }
  }

  lemma IsQueued(s: State, id: Id)
    requires id in s.reqs
    ensures HeldUp(s, id) ==> s.reqs[id].job.Queued?
  {}

  lemma DeadRoute(s: State, id: Id)
    requires Inv(s) && id in s.reqs && s.dead
    ensures var q := s.reqs[id]; Waiting(q) ==> q.queue != [] || PullMayFail(q)
  {
    hide UpInv, JobInv, AbortInv, WordInv, Up, Down;
    Have(s, id);
  }

  /** The same for a request with a single reply: at rest it has been answered, or is queued behind
      a stream of its own database that its caller has left open. */
  lemma NoCallDeadlock(run: seq<State>, id: Id)
    requires IsRun(run) && AtRest(Last(run)) && !Last(run).dead && id in Last(run).others
    requires forall k :: k in Last(run).reqs && k < id && Last(run).reqs[k].key == Last(run).others[id].key ==>
               LateAborts(Last(run).reqs[k]) < MAX_EARLY_ABORTS
    ensures var s := Last(run);
            || s.others[id].done
            || exists k :: k in s.reqs && k < id && s.reqs[k].key == s.others[id].key && LeftByItsCaller(s.reqs[k])
  {
    var s := Last(run);
    hide IsRun, Inv, AtRest, LateAborts, LeftByItsCaller;
    RunKeeps(run);
    if !s.others[id].done { CallIsHeld(s, id); }
  }

  lemma CallIsHeld(s: State, id: Id)
    requires Inv(s) && AtRest(s) && !s.dead && id in s.others && !s.others[id].done
    requires forall k :: k in s.reqs && k < id && s.reqs[k].key == s.others[id].key ==>
               LateAborts(s.reqs[k]) < MAX_EARLY_ABORTS
    ensures exists k :: k in s.reqs && k < id && s.reqs[k].key == s.others[id].key && LeftByItsCaller(s.reqs[k])
  {
    hide Inv, InTurn, AtRest, LateAborts, LeftByItsCaller;
    NotAStream(s, id);
    var k := FirstOfChain(s, id, s.others[id].key);
    FirstIsLeft(s, k, s.others[id].key);
  }

  lemma NotAStream(s: State, id: Id)
    requires Inv(s) && id in s.others
    ensures id !in s.reqs
  {
    hide ReqInv, WordInv;
  }

  /** Queued behind a parked stream of its own database whose caller is between two calls. */
  predicate HeldByItsCaller(s: State, id: Id)
    requires id in s.reqs
  {
    && s.reqs[id].job.Queued?
    && exists k :: && k in s.reqs && k < id && s.reqs[k].key == s.reqs[id].key
                   && IsParked(s.reqs[k]) && s.reqs[k].phase.Idle?
  }

  lemma QueuedWaits(s: State, id: Id)
    requires Inv(s) && id in s.reqs && s.reqs[id].job.Queued? && !s.reqs[id].phase.Closed?
    ensures Waiting(s.reqs[id])
  {
    hide JobInv, AbortInv, WordInv, Up, Down, Expected, Payloads;
    Have(s, id);
  }

  /** Once the readers have taken what there is, a reader waits if and only if its request is open
      and queued behind a stream whose caller is between two calls: only that caller can go on. */
  lemma OnlyItsCallerHolds(run: seq<State>, id: Id)
    requires IsRun(run) && AtRest(Last(run)) && !Last(run).dead
    requires id in Last(run).reqs && AbortsKept(Last(run), id)
    requires forall k :: k in Last(run).reqs && Waiting(Last(run).reqs[k]) ==> Last(run).reqs[k].queue == []
    ensures Waiting(Last(run).reqs[id]) <==> !Last(run).reqs[id].phase.Closed? && HeldByItsCaller(Last(run), id)
  {
    var s := Last(run);
    hide IsRun, Inv, AtRest, AbortsKept;
    NoDeadlock(run, id);
    RunKeeps(run);
    if s.reqs[id].job.Queued? && !s.reqs[id].phase.Closed? { QueuedWaits(s, id); }
  }
}
