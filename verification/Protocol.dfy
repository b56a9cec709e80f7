/** The two workers as one state machine: two FIFO channels, any number of streaming
    requests, the memory of early aborts and the shared cancellation words.

    Worker steps are one turn of the row loop at most, which is finer than the run-to-await
    atomicity of JavaScript.  A request starts when everything that arrived before it under its
    chain key has finished (Chains.StartsInTurn); ids are given out in order of arrival, because
    begin and post are one step of Go's scheduler and the channel is in order.  Go steps are
    atomic under the route mutex (Route shows why a route may be treated as a queue). */
module Protocol {
  import opened Wrappers
  import opened QueryStream
  import opened GoRows

  const MAX_EARLY_ABORTS := 1024

  type Id = nat

  datatype Command = QUERY(id: Id) | CREDIT(id: Id) | ABORT(id: Id)
  datatype Reply = Reply(id: Id, frame: Frame)

  /** Where the worker is with a request. */
  datatype Job = InTransit | Queued | Running(st: Stream) | Finished

  /** Where its reader is: in query(), between calls, inside a pull, or closed. */
  datatype Phase = Opening | Idle | Pulling | Closed

  datatype Route = Live | Failed | Gone

  /** One streaming request; `key` is its chain's.  From `sent` on the fields are history: the
      worker and the driver do not read them. */
  datatype Request = Request(
    script: Script, key: nat, slot: nat, ctxDone: bool,
    phase: Phase, route: Route, queue: seq<Frame>, cursor: Cursor, job: Job,
    sent: seq<Frame>, taken: seq<Frame>, delivered: seq<Row>, outcome: Option<Outcome>,
    granted: nat, received: nat, failedPulls: nat, creditsUp: nat, abortUp: bool,
    remembered: bool, mark: nat, startMark: nat)

  /** A request with a single reply: EXEC, PREPARE, CLOSE and so on.  The worker answers it in
      one step, once it is its turn. */
  datatype Other = Other(key: nat, slot: nat, ctxDone: bool, done: bool, interrupted: bool)

  datatype State = State(
    reqs: map<Id, Request>, nextId: Id, others: map<Id, Other>, dead: bool,
    toWorker: seq<Command>, toGo: seq<Reply>,
    early: seq<Id>, remembered: nat, word: map<nat, int>)

  const INIT := State(map[], 1, map[], false, [], [], [], 0, map[])

  datatype Action =
    | Begin(script: Script, key: nat, slot: nat)
    | BeginOther(key: nat, slot: nat)
    | CtxEnd(id: Id)
    | OtherCtxEnd(id: Id)
    | StoreCancel(id: Id)
    | StoreOther(id: Id)
    | ZeroSlot(slot: nat)
    | Deliver
    | Die
    | Open(id: Id)
    | FailOpen(id: Id)
    | NextRow(id: Id)
    | PullNext(id: Id)
    | FailPull(id: Id)
    | Close(id: Id)
    | Dispatch
    | Start(id: Id, interrupt: bool)
    | StartFail(id: Id)
    | FinishOther(id: Id, interrupt: bool)
    | RunTurn(id: Id, interrupt: bool)
    | Macrotask(id: Id, interrupt: bool)

  // ---- Pieces of the step function ------------------------------------------

  /** A query as DB.query begins it. */
  function NewQuery(script: Script, key: nat, slot: nat): Request {
    Request(script, key, slot, false, Opening, Live, [], Cursor([], false, false, false), InTransit,
            [], [], [], None, 0, 0, 0, 0, false, false, 0, 0)
  }

  function Put(s: State, id: Id, q: Request): State { s.(reqs := s.reqs[id := q]) }

  function Say(s: State, c: Command): State { s.(toWorker := s.toWorker + [c]) }

  /** int32(requestID), as setCancel stores it. */
  function ToInt32(id: Id): int {
    var low := id % ID_LIMIT;
    if low < 0x8000_0000 then low else low - ID_LIMIT
  }

  /** The progress handler: the word is loaded signed and compared with the running id. */
  predicate HandlerFires(s: State, slot: nat, running: Id) {
    slot in s.word && s.word[slot] == running
  }

  function Remove(ids: seq<Id>, id: Id): seq<Id> {
    if ids == [] then []
    else if ids[|ids| - 1] == id then Remove(ids[..|ids| - 1], id)
    else Remove(ids[..|ids| - 1], id) + [ids[|ids| - 1]]
  }

  /** abortedBeforeStart.add, then the oldest entries dropped. */
  function AddEarly(ids: seq<Id>, id: Id): seq<Id> {
    var more := if id in ids then ids else ids + [id];
    if |more| > MAX_EARLY_ABORTS then more[|more| - MAX_EARLY_ABORTS..] else more
  }

  /** rememberAbort. */
  function Remember(s: State, id: Id): State
    requires id in s.reqs
  {
    var n := if id in s.early then s.remembered else s.remembered + 1;
    s.(early := AddEarly(s.early, id), remembered := n,
       reqs := s.reqs[id := s.reqs[id].(abortUp := false, remembered := true, mark := n)])
  }

  /** The worker's last frame for a request, and the finally that forgets its early abort. */
  function Finish(s: State, id: Id, f: Frame): State
    requires id in s.reqs
  {
    var q := s.reqs[id];
    s.(reqs := s.reqs[id := q.(job := Finished, sent := q.sent + [f])],
       toGo := s.toGo + [Reply(id, f)], early := Remove(s.early, id))
  }

  /** Rows.Close: an ABORT unless the stream has ended, and the route is gone. */
  function CloseRows(s: State, id: Id, q: Request): State {
    var shut := q.(phase := Closed, route := Gone, queue := [], cursor := q.cursor.(closed := true));
    if q.cursor.eof then Put(s, id, shut)
    else Say(Put(s, id, shut.(abortUp := true)), ABORT(id))
  }

  function Settle(q: Request, o: Outcome): Request {
    q.(outcome := if q.outcome.None? then Some(o) else q.outcome)
  }

  /** A reader inside Next, up to its next pull or its return. */
  function ReadOn(s: State, id: Id, q: Request): State {
    match Advance(q.cursor)
    case Give(row, rest) =>
      Put(s, id, q.(phase := Idle, cursor := rest, delivered := q.delivered + [row]))
    case AtEnd =>
      Put(s, id, Settle(q, Ending(q.cursor, q.ctxDone)).(phase := Idle))
    case MustPull =>
      Say(Put(s, id, q.(phase := Pulling, granted := q.granted + 1, creditsUp := q.creditsUp + 1)),
          CREDIT(id))
  }

  function TakeFrame(q: Request): Request
    requires q.queue != []
  {
    q.(queue := q.queue[1..], taken := q.taken + [q.queue[0]])
  }

  function DispatchHead(s: State): State
    requires s.toWorker != [] && s.toWorker[0].id in s.reqs
  {
    var c := s.toWorker[0];
    var s' := s.(toWorker := s.toWorker[1..]);
    var q := s.reqs[c.id];
    match c
    case QUERY(id) => Put(s', id, q.(job := Queued))
    case CREDIT(id) =>
      var q' := q.(creditsUp := if q.creditsUp > 0 then q.creditsUp - 1 else 0);
      if q.job.Running? then
        Put(s', id, q'.(received := q.received + 1, job := Running(OnCredit(q.job.st, 1))))
      else Put(s', id, q')
    case ABORT(id) =>
      if q.job.Running? then
        Put(s', id, q.(abortUp := false, job := Running(OnAbort(q.job.st))))
      else Remember(s', id)
  }

  function StartRun(s: State, id: Id, interrupt: bool): State
    requires id in s.reqs
  {
    var q := s.reqs[id];
    s.(early := Remove(s.early, id),
       reqs := s.reqs[id := q.(startMark := s.remembered,
                               job := Running(QueryStream.Begin(q.script, id in s.early, interrupt)))])
  }

  function Turned(s: State, id: Id, t: Turn): State
    requires id in s.reqs
  {
    match t
    case Over(f) => Finish(s, id, f)
    case More(st, post) =>
      var q := s.reqs[id];
      s.(reqs := s.reqs[id := q.(job := Running(st), sent := q.sent + post)],
         toGo := s.toGo + Replies(id, post))
  }

  function Replies(id: Id, fs: seq<Frame>): seq<Reply> {
    seq(|fs|, i requires 0 <= i < |fs| => Reply(id, fs[i]))
  }

  function Received(s: State): State
    requires s.toGo != [] && s.toGo[0].id in s.reqs
  {
    var r := s.toGo[0];
    var q := s.reqs[r.id];
    var s' := s.(toGo := s.toGo[1..]);
    // receive() finds no route for a closed request, or after die(): the frame is dropped.
    if q.route.Live? then Put(s', r.id, q.(queue := q.queue + [r.frame])) else s'
  }

  predicate HasStream(s: State, id: Id) {
    id in s.reqs && s.reqs[id].job.Running? && Coherent(s.reqs[id].script, s.reqs[id].job.st)
  }

  /** A pull may fail when the context has ended, or when the route has failed and every
      frame pushed before has been read. */
  predicate PullMayFail(q: Request) {
    q.ctxDone || (q.route.Failed? && q.queue == [])
  }

  /** Everything that arrived before this request under its key has finished. */
  predicate InTurn(s: State, id: Id, key: nat) {
    && (forall k :: k in s.reqs && k < id && s.reqs[k].key == key ==> s.reqs[k].job.Finished?)
    && (forall k :: k in s.others && k < id && s.others[k].key == key ==> s.others[k].done)
  }

  predicate MayStart(s: State, id: Id) {
    id in s.reqs && s.reqs[id].job.Queued? && InTurn(s, id, s.reqs[id].key)
  }

  // ---- The machine ----------------------------------------------------------

  predicate Enabled(s: State, a: Action) {
    match a
    case Begin(_, _, _) => !s.dead && s.nextId < ID_LIMIT
    case BeginOther(_, _) => !s.dead && s.nextId < ID_LIMIT
    case CtxEnd(id) => id in s.reqs
    case OtherCtxEnd(id) => id in s.others
    case StoreCancel(id) => id in s.reqs && s.reqs[id].ctxDone
    case StoreOther(id) => id in s.others && s.others[id].ctxDone
    case ZeroSlot(_) => true
    case Deliver => s.toGo != [] && s.toGo[0].id in s.reqs
    case Die => true
    case Open(id) => id in s.reqs && s.reqs[id].phase.Opening? && s.reqs[id].queue != []
    case FailOpen(id) => id in s.reqs && s.reqs[id].phase.Opening? && PullMayFail(s.reqs[id])
    case NextRow(id) => id in s.reqs && s.reqs[id].phase.Idle?
    case PullNext(id) => id in s.reqs && s.reqs[id].phase.Pulling? && s.reqs[id].queue != []
    case FailPull(id) => id in s.reqs && s.reqs[id].phase.Pulling? && PullMayFail(s.reqs[id])
    case Close(id) => id in s.reqs && s.reqs[id].phase.Idle?
    case Dispatch => s.toWorker != [] && s.toWorker[0].id in s.reqs
    case Start(id, i) => MayStart(s, id) && (i ==> HandlerFires(s, s.reqs[id].slot, id))
    case StartFail(id) => MayStart(s, id) && s.reqs[id].script.end.EndError?
    case FinishOther(id, i) =>
      && id in s.others && !s.others[id].done && InTurn(s, id, s.others[id].key)
      && (i ==> HandlerFires(s, s.others[id].slot, id))
    case RunTurn(id, i) =>
      HasStream(s, id) && s.reqs[id].job.st.wait.Ready? && (i ==> HandlerFires(s, s.reqs[id].slot, id))
    case Macrotask(id, i) =>
      HasStream(s, id) && s.reqs[id].job.st.wait.Yielding? && (i ==> HandlerFires(s, s.reqs[id].slot, id))
  }

  function Step(s: State, a: Action): State
    requires Enabled(s, a)
  {
    match a
    case Begin(script, key, slot) =>
      Say(Put(s, s.nextId, NewQuery(script, key, slot)), QUERY(s.nextId)).(nextId := s.nextId + 1)
    case BeginOther(key, slot) =>
      s.(others := s.others[s.nextId := Other(key, slot, false, false, false)], nextId := s.nextId + 1)
    case CtxEnd(id) => Put(s, id, s.reqs[id].(ctxDone := true))
    case OtherCtxEnd(id) => s.(others := s.others[id := s.others[id].(ctxDone := true)])
    case StoreCancel(id) => s.(word := s.word[s.reqs[id].slot := ToInt32(id)])
    case StoreOther(id) => s.(word := s.word[s.others[id].slot := ToInt32(id)])
    case ZeroSlot(slot) => s.(word := s.word[slot := 0])
    case Deliver => Received(s)
    case Die =>
      s.(dead := true,
         reqs := map id | id in s.reqs ::
                   s.reqs[id].(route := if s.reqs[id].route.Live? then Route.Failed else s.reqs[id].route))
    case Open(id) =>
      var q := TakeFrame(s.reqs[id]);
      var (c, got) := Accept(q.cursor, s.reqs[id].queue[0]);
      if got.GotBatch? then Put(s, id, q.(phase := Idle, cursor := c))
      else CloseRows(s, id, q.(cursor := c))
    case FailOpen(id) => CloseRows(s, id, s.reqs[id])
    case NextRow(id) =>
      if s.reqs[id].ctxDone then Put(s, id, Settle(s.reqs[id], CtxErr)) else ReadOn(s, id, s.reqs[id])
    case PullNext(id) =>
      var q := TakeFrame(s.reqs[id]);
      var (c, got) := Accept(q.cursor, s.reqs[id].queue[0]);
      var q' := q.(cursor := c);
      (match got
       case GotBatch => ReadOn(s, id, q')
       case GotEof => Put(s, id, Settle(q', Ending(c, q.ctxDone)).(phase := Idle))
       case GotError => Put(s, id, Settle(q', if q.ctxDone then CtxErr else OtherErr).(phase := Idle)))
    case FailPull(id) =>
      var q := s.reqs[id];
      Put(s, id, Settle(q, if q.ctxDone then CtxErr else OtherErr).(phase := Idle, failedPulls := q.failedPulls + 1))
    case Close(id) => CloseRows(s, id, s.reqs[id])
    case Dispatch => DispatchHead(s)
    case Start(id, i) => StartRun(s, id, i)
    case StartFail(id) => Finish(s, id, ERROR)
    case FinishOther(id, i) => s.(others := s.others[id := s.others[id].(done := true, interrupted := i)])
    case RunTurn(id, i) => Turned(s, id, Iterate(s.reqs[id].script, s.reqs[id].job.st, i))
    case Macrotask(id, i) =>
      Put(s, id, s.reqs[id].(job := Running(Resume(s.reqs[id].script, s.reqs[id].job.st, i))))
  }

  ghost predicate Transition(s: State, t: State) {
    exists a :: Enabled(s, a) && t == Step(s, a)
  }

  /** A run: any finite sequence of steps from the start. */
  ghost predicate IsRun(run: seq<State>) {
    && |run| > 0 && run[0] == INIT
    && forall i :: 0 <= i < |run| - 1 ==> Transition(run[i], run[i + 1])
  }

  function Last(run: seq<State>): State
    requires |run| > 0
  {
    run[|run| - 1]
  }
}
