/** What holds in every run of Protocol. */
module ProtocolTheorems {
  import opened Wrappers
  import opened QueryStream
  import opened GoRows
  import opened Protocol
  import opened ProtocolInv
  import opened ProtocolSteps
  import opened ProtocolWork

  /** How many aborts of other requests were remembered after this one's own, while it waited
      to start; 0 if its abort did not have to be remembered. */
  function LateAborts(q: Request): int {
    if q.remembered then q.startMark - q.mark else 0
  }

  predicate IsParked(q: Request) { q.job.Running? && q.job.st.wait.Parked? }

  /** There is something to wake the stream with: a command on its way, or a frame its
      reader has still to take. */
  predicate Wakeable(s: State, id: Id)
    requires id in s.reqs
  {
    || CREDIT(id) in s.toWorker
    || ABORT(id) in s.toWorker
    || (s.reqs[id].route.Live? && s.reqs[id].queue + Down(s.toGo, id) != [])
  }

  lemma CommandsOnTheWay(q: Request, id: Id, cs: seq<Command>)
    requires UpInv(q, id, Up(cs, id))
    ensures q.creditsUp > 0 ==> CREDIT(id) in cs
    ensures q.abortUp ==> ABORT(id) in cs
  {
    var e := Expected(id, q.job.InTransit?, q.creditsUp, q.abortUp);
    if q.creditsUp > 0 {
      assert e[if q.job.InTransit? then 1 else 0] == CREDIT(id);
      UpFinds(cs, id, CREDIT(id));
    }
    if q.abortUp {
      assert e[|e| - 1] == ABORT(id);
      UpFinds(cs, id, ABORT(id));
    }
  }

  /** A parked stream whose reader has not closed has frames that were not taken. */
  lemma ParkedIsAhead(q: Request, id: Id, up: seq<Command>)
    requires UpInv(q, id, up) && JobInv(q) && GoInv(q)
    requires IsParked(q) && !q.phase.Closed? && q.creditsUp == 0
    ensures |q.sent| > |q.taken|
  {
    hide AllGood, Payloads, Expected;
  }

  /** In query() or inside a pull. */
  predicate Waiting(q: Request) { q.phase.Opening? || q.phase.Pulling? }

  /** The worker has forgotten this request's abort: 1024 were remembered after it. */
  predicate Forgotten(q: Request) { q.phase.Closed? && LateAborts(q) >= MAX_EARLY_ABORTS }

  /** A request whose abort was remembered has no command left to send. */
  lemma NothingMoreToSay(q: Request, id: Id, cs: seq<Command>)
    requires UpInv(q, id, Up(cs, id)) && q.remembered && !q.job.InTransit?
    ensures forall c :: c in cs ==> c.id != id
  {
    forall c | c in cs ensures c.id != id {
      if c.id == id { UpHas(cs, id, c); }
    }
  }

  /** No wedge.  While the transport is alive a stream parked on credit can be woken if and only if
      its abort was not forgotten.  Once the transport is dead a reader that waits for it has a
      frame to take or a pull that fails. */
  lemma NoWedge(run: seq<State>, id: Id)
    requires IsRun(run) && id in Last(run).reqs && IsParked(Last(run).reqs[id])
    ensures var q := Last(run).reqs[id];
            if Last(run).dead then !q.route.Live? && (Waiting(q) ==> q.queue != [] || PullMayFail(q))
            else Wakeable(Last(run), id) <==> !Forgotten(q)
  {
    var s := Last(run);
    var q := s.reqs[id];
    hide IsRun, Inv, Up, Down, UpInv, RouteInv, JobInv, GoInv, AbortInv, Wakeable, Forgotten;
    RunKeeps(run);
    Have(s, id);
    if s.dead {
      NobodyLive(q, Down(s.toGo, id));
    } else {
      ParkedWakes(s, id);
    }
  }

  lemma NobodyLive(q: Request, down: seq<Frame>)
    requires RouteInv(q, down, true)
    ensures !q.route.Live? && (Waiting(q) ==> q.queue != [] || PullMayFail(q))
  {}

  lemma ParkedWakes(s: State, id: Id)
    requires id in s.reqs && ReqInv(s, id, s.reqs[id]) && IsParked(s.reqs[id]) && !s.dead
    ensures Wakeable(s, id) <==> !Forgotten(s.reqs[id])
  {
    var q := s.reqs[id];
    hide Up, Down, StreamInv, Waits, Expected, Payloads;
    if q.remembered { NothingMoreToSay(q, id, s.toWorker); }
    CommandsOnTheWay(q, id, s.toWorker);
    if q.creditsUp == 0 && !q.abortUp {
      ParkedNotAborted(q);
      if !q.phase.Closed? { ParkedIsAhead(q, id, Up(s.toWorker, id)); }
    }
  }

  lemma ParkedNotAborted(q: Request)
    requires JobInv(q) && IsParked(q)
    ensures !q.job.st.aborted
  {
    hide AllGood, Payloads;
  }

  /** The same for one request. */
  lemma DeliveredInOrder(q: Request)
    requires JobInv(q) && GoInv(q) && q.taken <= q.sent
    requires q.job.InTransit? || q.job.Queued? ==> q.sent == []
    ensures q.delivered <= q.script.rows
    ensures q.outcome == Some(Eof) ==> q.delivered == q.script.rows && q.script.end.EndDone?
  {
    SentIsPrefix(q);
    if q.outcome == Some(Eof) { EofIsLast(q); }
    hide JobInv, Payloads;
    PayloadsPrefix(q.sent, |q.taken|);
    assert q.taken == q.sent[..|q.taken|];
    assert q.delivered <= Payloads(q.taken) <= Payloads(q.sent);
  }

  lemma EofIsLast(q: Request)
    requires JobInv(q) && GoInv(q) && q.taken <= q.sent && q.outcome == Some(Eof)
    ensures q.taken == q.sent && Payloads(q.taken) == q.delivered
  {
    hide Payloads, AllGood, GoodTerminal, StreamInv;
    TakenPrefix(q.script, q.sent, q.taken);
    assert q.delivered + [] == q.delivered;
  }

  /** The rows handed out are the statement's rows in order, and if the first thing that was not
      a row was io.EOF they are all of them. */
  lemma EofIsTheWholeResult(run: seq<State>, id: Id)
    requires IsRun(run) && id in Last(run).reqs
    ensures var q := Last(run).reqs[id];
            && q.delivered <= q.script.rows
            && (q.outcome == Some(Eof) ==> q.delivered == q.script.rows && q.script.end.EndDone?)
  {
    var s := Last(run);
    hide IsRun, Inv, AbortInv, Up, Down, Expected, JobInv, GoInv;
    RunKeeps(run);
    Have(s, id);
    DeliveredInOrder(s.reqs[id]);
  }

  lemma TerminalEnds(script: Script, before: seq<Frame>, f: Frame)
    requires GoodTerminal(script, before, f)
    ensures Payloads(before + [f]) <= script.rows
    ensures f.ROWS? ==> Payloads(before + [f]) == script.rows && script.end.EndDone?
  {
    hide Payloads, RowTarget;
    PayloadsAppend(before, f);
    assert Payloads(before) + [] == Payloads(before);
  }

  lemma WholeIsPrefix(script: Script, sent: seq<Frame>)
    requires SentWhole(script, sent)
    ensures Payloads(sent) <= script.rows
    ensures sent[|sent| - 1].ROWS? ==> Payloads(sent) == script.rows && script.end.EndDone?
  {
    hide AllGood, Payloads, GoodTerminal;
    var n := |sent| - 1;
    TerminalEnds(script, sent[..n], sent[n]);
    assert sent == sent[..n] + [sent[n]];
  }

  lemma RunningIsPrefix(script: Script, sent: seq<Frame>, received: nat, st: Stream)
    requires StreamInv(script, sent, received, st)
    ensures Payloads(sent) <= script.rows
  {
    hide AllGood, BatchLength, Full, RowTarget, Payloads;
    assert Payloads(sent) <= script.rows[..st.pos] <= script.rows;
  }

  /** What has been sent is a prefix of the statement's rows, and all of them once an EOF batch
      has been. */
  lemma SentIsPrefix(q: Request)
    requires JobInv(q) && (q.job.InTransit? || q.job.Queued? ==> q.sent == [])
    ensures Payloads(q.sent) <= q.script.rows
    ensures q.job.Finished? && q.sent[|q.sent| - 1].ROWS? ==>
              Payloads(q.sent) == q.script.rows && q.script.end.EndDone?
  {
    match q.job
    case Running(st) => RunningIsPrefix(q.script, q.sent, q.received, st);
    case Finished => WholeIsPrefix(q.script, q.sent);
    case _ =>
  }

  /** Bounded flight.  Credit is the window, less the batches sent, plus the credits received,
      and never negative; so, but for pulls that failed, a reader is never more than four batches
      and one terminal frame behind. */
  lemma BoundedFlight(run: seq<State>, id: Id)
    requires IsRun(run) && id in Last(run).reqs
    ensures var q := Last(run).reqs[id];
            && q.taken <= q.sent
            && (q.job.Running? ==> 0 <= q.job.st.credit == CREDIT_WINDOW - |q.sent| + q.received)
            && (!q.job.Finished? ==> |q.sent| - |q.taken| <= CREDIT_WINDOW + q.failedPulls)
            && |q.sent| - |q.taken| <= CREDIT_WINDOW + 1 + q.failedPulls
            && (q.route.Live? ==>
                  |q.queue| + |Down(Last(run).toGo, id)| == |q.sent| - |q.taken|)
  {
    var s := Last(run);
    hide IsRun, Inv, AbortInv, Up, Down, AllGood, Payloads, SentWhole, Expected, GoodTerminal;
    RunKeeps(run);
    Have(s, id);
  }

  /** One terminal frame: what has been sent is a sequence of non-terminal batches, each cut
      exactly when it was full and the first alone with columns, followed by one terminal frame
      once the worker has finished with the request and not before. */
  lemma OneTerminalFrame(run: seq<State>, id: Id)
    requires IsRun(run) && id in Last(run).reqs
    ensures var q := Last(run).reqs[id];
            && (q.job.Finished? ==> SentWhole(q.script, q.sent))
            && (!q.job.Finished? ==> AllGood(q.script, q.sent))
            && Payloads(q.sent) <= q.script.rows
  {
    var s := Last(run);
    hide IsRun, Inv, AbortInv, Up, Down, RouteInv, GoInv, Expected, Payloads, GoodBatch;
    RunKeeps(run);
    Have(s, id);
    SentIsPrefix(s.reqs[id]);
  }

  /** Batches grow: at most 1, 8, 64, 512 and from then on 1024 rows, and a batch that does not end the
      stream has as many or 256 KiB, and had neither before its last row; the first alone has columns. */
  lemma BatchesGrow(run: seq<State>, id: Id, i: nat)
    requires IsRun(run) && id in Last(run).reqs && i < |Last(run).reqs[id].sent|
    requires Last(run).reqs[id].sent[i].ROWS?
    ensures var q := Last(run).reqs[id];
            var f := q.sent[i];
            var n := |f.rows|;
            var target := if i < 4 then [1, 8, 64, 512][i] else 1024;
            && f.hasColumns == (i == 0)
            && (f.eof ==> n < target)
            && (!f.eof ==>
                  && 1 <= n <= target
                  && (n == target || BatchLength(q.script, i == 0, f.rows) >= 262144)
                  && (n > 1 ==> BatchLength(q.script, i == 0, f.rows[..n - 1]) < 262144))
  {
    OneTerminalFrame(run, id);
    hide IsRun;
    BatchIs(Last(run).reqs[id], i);
  }

  lemma BatchIs(q: Request, i: nat)
    requires i < |q.sent| && q.sent[i].ROWS?
    requires if q.job.Finished? then SentWhole(q.script, q.sent) else AllGood(q.script, q.sent)
    ensures var f := q.sent[i];
            var n := |f.rows|;
            var target := if i < 4 then [1, 8, 64, 512][i] else 1024;
            && f.hasColumns == (i == 0)
            && (f.eof ==> n < target)
            && (!f.eof ==>
                  && 1 <= n <= target
                  && (n == target || BatchLength(q.script, i == 0, f.rows) >= 262144)
                  && (n > 1 ==> BatchLength(q.script, i == 0, f.rows[..n - 1]) < 262144))
  {
    hide Payloads, BatchLength;
    if q.job.Finished? {
      var n := |q.sent| - 1;
      if i < n { assert GoodBatch(q.script, i, q.sent[..n][i]); }
      assert q.sent[..n] == [] <==> n == 0;
    } else {
      assert GoodBatch(q.script, i, q.sent[i]);
    }
  }

  /** The steps of a reader. */
  predicate OfAReader(a: Action) {
    a.Open? || a.FailOpen? || a.NextRow? || a.PullNext? || a.FailPull? || a.Close?
  }

  lemma CloseSent(s: State, k: Id, q: Request, id: Id)
    requires id in s.reqs && k in s.reqs && q.sent == s.reqs[k].sent
    ensures id in CloseRows(s, k, q).reqs && CloseRows(s, k, q).reqs[id].sent == s.reqs[id].sent
  {}

  lemma ReadOnSent(s: State, k: Id, q: Request, id: Id)
    requires id in s.reqs && k in s.reqs && q.sent == s.reqs[k].sent
    ensures id in ReadOn(s, k, q).reqs && ReadOn(s, k, q).reqs[id].sent == s.reqs[id].sent
  {}

  lemma PullSent(s: State, k: Id, id: Id)
    requires Enabled(s, PullNext(k)) && id in s.reqs
    ensures var t := Step(s, PullNext(k)); id in t.reqs && t.reqs[id].sent == s.reqs[id].sent
  {
    hide Accept, ReadOn, CloseRows, Coherent, HandlerFires, InTurn, Ending;
    ReadOnSent(s, k, TakeFrame(s.reqs[k]).(cursor := Accept(s.reqs[k].cursor, s.reqs[k].queue[0]).0), id);
  }

  lemma OpenSent(s: State, k: Id, id: Id)
    requires Enabled(s, Action.Open(k)) && id in s.reqs
    ensures var t := Step(s, Action.Open(k)); id in t.reqs && t.reqs[id].sent == s.reqs[id].sent
  {
    hide Accept, ReadOn, CloseRows, Coherent, HandlerFires, InTurn, Ending;
    CloseSent(s, k, TakeFrame(s.reqs[k]).(cursor := Accept(s.reqs[k].cursor, s.reqs[k].queue[0]).0), id);
  }

  lemma ReaderSent(s: State, a: Action, id: Id)
    requires Enabled(s, a) && OfAReader(a) && id in s.reqs
    ensures var t := Step(s, a); id in t.reqs && s.reqs[id].sent == t.reqs[id].sent
  {
    match a
    case PullNext(k) => PullSent(s, k, id);
    case Open(k) => OpenSent(s, k, id);
    case NextRow(k) =>
      hide ReadOn;
      ReadOnSent(s, k, s.reqs[k], id);
    case FailOpen(k) => CloseSent(s, k, s.reqs[k], id);
    case Close(k) => CloseSent(s, k, s.reqs[k], id);
    case FailPull(_) =>
  }

  lemma WorkerSent(s: State, a: Action, id: Id)
    requires Enabled(s, a) && !OfAReader(a) && id in s.reqs && id < s.nextId
    ensures var t := Step(s, a); id in t.reqs && s.reqs[id].sent <= t.reqs[id].sent
  {
    hide Coherent, Iterate, Resume, HandlerFires, DispatchHead, Turned, StartRun, Received, InTurn;
    match a
    case Dispatch => DispatchSent(s, id);
    case RunTurn(k, i) => TurnedSent(s, k, Iterate(s.reqs[k].script, s.reqs[k].job.st, i), id);
    case Start(k, i) => StartSent(s, k, i, id);
    case Deliver => DeliverSent(s, id);
    case _ =>
  }

  /** No step takes back a frame. */
  lemma SentGrows(s: State, a: Action, id: Id)
    requires Enabled(s, a) && id in s.reqs && id < s.nextId
    ensures var t := Step(s, a); id in t.reqs && s.reqs[id].sent <= t.reqs[id].sent
  {
    hide Enabled, Step;
    if OfAReader(a) { ReaderSent(s, a, id); } else { WorkerSent(s, a, id); }
  }

  /** The worker's finally forgets the early abort of a request: none is left when it has finished. */
  lemma FinishForgets(s: State, id: Id, f: Frame)
    requires id in s.reqs
    ensures id !in Finish(s, id, f).early && Finish(s, id, f).reqs[id].job.Finished?
    ensures forall k :: k in Finish(s, id, f).early ==> k in s.early
  {
    RemoveShrinks(s.early, id);
    hide Remove;
  }

  lemma RememberSent(s: State, k: Id, id: Id)
    requires k in s.reqs && id in s.reqs
    ensures id in Remember(s, k).reqs && Remember(s, k).reqs[id].sent == s.reqs[id].sent
  {
    hide AddEarly;
  }

  lemma DispatchSent(s: State, id: Id)
    requires s.toWorker != [] && s.toWorker[0].id in s.reqs && id in s.reqs
    ensures id in DispatchHead(s).reqs && DispatchHead(s).reqs[id].sent == s.reqs[id].sent
  {
    hide OnCredit, OnAbort, Remember;
    RememberSent(s.(toWorker := s.toWorker[1..]), s.toWorker[0].id, id);
  }

  lemma TurnedSent(s: State, k: Id, t: Turn, id: Id)
    requires id in s.reqs && k in s.reqs
    ensures id in Turned(s, k, t).reqs && s.reqs[id].sent <= Turned(s, k, t).reqs[id].sent
  {}

  lemma StartSent(s: State, k: Id, interrupt: bool, id: Id)
    requires id in s.reqs && k in s.reqs
    ensures id in StartRun(s, k, interrupt).reqs && StartRun(s, k, interrupt).reqs[id].sent == s.reqs[id].sent
  {}

  lemma DeliverSent(s: State, id: Id)
    requires id in s.reqs && s.toGo != [] && s.toGo[0].id in s.reqs
    ensures id in Received(s).reqs && Received(s).reqs[id].sent == s.reqs[id].sent
  {}

  lemma {:induction false} SentGrowsOverRun(run: seq<State>, n: nat, id: Id)
    requires IsRun(run) && n < |run| && id in run[n].reqs
    ensures id in Last(run).reqs && run[n].reqs[id].sent <= Last(run).reqs[id].sent
  {
    if n < |run| - 1 {
      var before := run[..|run| - 1];
      assert forall i :: 0 <= i < |before| - 1 ==> Transition(run[i], run[i + 1]);
      SentGrowsOverRun(before, n, id);
      assert Transition(run[|run| - 2], run[|run| - 1]);
      var a :| Enabled(Last(before), a) && Last(run) == Step(Last(before), a);
      RunKeeps(before);
      hide ReqInv, WordInv, Step;
      SentGrows(Last(before), a, id);
    }
  }

  /** ... then nothing: once the worker has finished with a request no run sends more for it. */
  lemma NothingAfterTheTerminalFrame(run: seq<State>, n: nat, id: Id)
    requires IsRun(run) && n < |run| && id in run[n].reqs && run[n].reqs[id].job.Finished?
    ensures id in Last(run).reqs && Last(run).reqs[id].job.Finished?
    ensures Last(run).reqs[id].sent == run[n].reqs[id].sent
  {
    hide Transition, Payloads, CutExactlyWhenFull, GoodTerminal;
    SentGrowsOverRun(run, n, id);
    OneTerminalFrame(run, id);
    var upTo := run[..n + 1];
    assert forall i :: 0 <= i < n ==> Transition(run[i], run[i + 1]);
    OneTerminalFrame(upTo, id);
    TerminalIsLast(run[n].reqs[id], Last(run).reqs[id]);
  }

  lemma NoneTerminal(script: Script, fs: seq<Frame>)
    requires AllGood(script, fs)
    ensures forall k :: 0 <= k < |fs| ==> !fs[k].Terminal()
  {
    hide CutExactlyWhenFull;
  }

  lemma TerminalIsLast(q: Request, later: Request)
    requires SentWhole(q.script, q.sent) && q.sent <= later.sent
    requires later.job.Finished? ==> SentWhole(later.script, later.sent)
    requires !later.job.Finished? ==> AllGood(later.script, later.sent)
    ensures later.job.Finished? && later.sent == q.sent
  {
    hide Payloads, AllGood;
    var n := |q.sent| - 1;
    assert q.sent[n].Terminal() && later.sent[n] == q.sent[n];
    var body := if later.job.Finished? then later.sent[..|later.sent| - 1] else later.sent;
    NoneTerminal(later.script, body);
    assert forall k :: 0 <= k < |body| ==> body[k] == later.sent[k];
  }

  /** An interrupt hits only its target: the handler fires for a running request, a stream or any
      other, only if that request's own context has ended. */
  lemma InterruptIsOwn(run: seq<State>, id: Id, slot: nat)
    requires IsRun(run) && HandlerFires(Last(run), slot, id)
    ensures id in Last(run).reqs ==> Last(run).reqs[id].ctxDone
    ensures id in Last(run).others ==> Last(run).others[id].ctxDone
  {
    hide ReqInv;
    RunKeeps(run);
    HandlerHitsOnlyEnded(Last(run), slot, id);
  }

  /** ... so a request that was cut short, a stream that nobody closed or any other, had its own
      context ended. */
  lemma CutShortByItsOwn(run: seq<State>, id: Id)
    requires IsRun(run)
    ensures id in Last(run).reqs && EndsWith(Last(run).reqs[id].sent, ABORTED) ==>
              Last(run).reqs[id].phase.Closed? || Last(run).reqs[id].ctxDone
    ensures id in Last(run).others && Last(run).others[id].interrupted ==> Last(run).others[id].ctxDone
  {
    var s := Last(run);
    hide IsRun, Inv, RouteInv, GoInv, AbortInv, JobInv, EndsWith, Up, Down, Expected;
    RunKeeps(run);
    InterruptedEnded(s);
    if id in s.reqs {
      Have(s, id);
      if EndsWith(s.reqs[id].sent, ABORTED) { AbortedIsOver(s.reqs[id]); }
    }
  }

  lemma InterruptedEnded(s: State)
    requires Inv(s)
    ensures forall id :: id in s.others && s.others[id].interrupted ==> s.others[id].ctxDone
  {
    hide ReqInv, WordInv;
  }

  lemma AbortedIsOver(q: Request)
    requires JobInv(q) && EndsWith(q.sent, ABORTED) && (q.job.InTransit? || q.job.Queued? ==> q.sent == [])
    ensures q.phase.Closed? || q.ctxDone
  {
    hide AllGood, Payloads, SentWhole;
    if q.job.Running? { NoneTerminal(q.script, q.sent); }
  }

  /** A stored id matches its own request exactly when it is below 2^31: the word is signed. */
  lemma StoredIdMatches(s: State, id: Id)
    requires id < ID_LIMIT
    ensures Enabled(s, StoreCancel(id)) ==>
              (HandlerFires(Step(s, StoreCancel(id)), s.reqs[id].slot, id) <==> id < 0x8000_0000)
    ensures Enabled(s, StoreOther(id)) ==>
              (HandlerFires(Step(s, StoreOther(id)), s.others[id].slot, id) <==> id < 0x8000_0000)
  {}

  /** ... so no request with an id of 2^31 or more is ever interrupted. */
  lemma LargeIdsNeverFire(run: seq<State>, slot: nat, id: Id)
    requires IsRun(run) && 0 < id && HandlerFires(Last(run), slot, id)
    ensures id < 0x8000_0000
  {
    var s := Last(run);
    hide IsRun, ReqInv, ShapeInv, Ended;
    RunKeeps(run);
    var v :| 0 < v < ID_LIMIT && ToInt32(v) == s.word[slot] && Ended(s, v);
  }

  /** Every outcome tells the truth: ctx.Err() only of a context that has ended, another error only
      when the statement failed or the transport died, and (EofIsTheWholeResult) io.EOF only after
      the whole result; and a reader that takes an ERROR frame never says io.EOF. */
  lemma OutcomesAreTrue(run: seq<State>, id: Id)
    requires IsRun(run) && id in Last(run).reqs
    ensures var q := Last(run).reqs[id];
            && (q.outcome == Some(CtxErr) ==> q.ctxDone)
            && (q.outcome == Some(OtherErr) ==> Last(run).dead || (EndsWith(q.sent, ERROR) && q.script.end.EndError?))
            && (EndsWith(q.taken, ERROR) && !q.phase.Closed? ==>
                  q.outcome == Some(CtxErr) || q.outcome == Some(OtherErr))
  {
    var s := Last(run);
    var q := s.reqs[id];
    hide IsRun, Inv, AbortInv, Up, Down, UpInv, JobInv, RouteInv, GoInv;
    RunKeeps(run);
    Have(s, id);
    TruthOf(q, id, Up(s.toWorker, id), Down(s.toGo, id), s.dead);
  }

  lemma TruthOf(q: Request, id: Id, up: seq<Command>, down: seq<Frame>, dead: bool)
    requires UpInv(q, id, up) && JobInv(q) && GoInv(q) && RouteInv(q, down, dead)
    ensures q.outcome == Some(CtxErr) ==> q.ctxDone
    ensures q.outcome == Some(OtherErr) ==> dead || (EndsWith(q.sent, ERROR) && q.script.end.EndError?)
    ensures EndsWith(q.taken, ERROR) && !q.phase.Closed? ==> q.outcome == Some(CtxErr) || q.outcome == Some(OtherErr)
  {
    assert q.job.InTransit? || q.job.Queued? ==> q.sent == [] by { hide Expected, RouteInv, GoInv, JobInv; }
    if q.outcome == Some(OtherErr) && !dead { ErrorIsTheLast(q, down, dead); }
    if EndsWith(q.taken, ERROR) && !q.phase.Closed? { NotEofAfterError(q); }
    hide Expected, Payloads, JobInv, RouteInv;
  }

  lemma ErrorIsTheLast(q: Request, down: seq<Frame>, dead: bool)
    requires JobInv(q) && GoInv(q) && RouteInv(q, down, dead) && q.outcome == Some(OtherErr) && !dead
    requires q.job.InTransit? || q.job.Queued? ==> q.sent == []
    ensures EndsWith(q.sent, ERROR) && q.script.end.EndError?
  {
    hide Payloads, AllGood, StreamInv;
    assert q.cursor.eof;
    TakenPrefix(q.script, q.sent, q.taken);
  }

  lemma NotEofAfterError(q: Request)
    requires GoInv(q) && EndsWith(q.taken, ERROR) && !q.phase.Closed?
    ensures q.outcome == Some(CtxErr) || q.outcome == Some(OtherErr)
  {
    hide Payloads;
    OneOfThree(q.outcome.value);
  }

  /** An interrupted stream surfaces as the context's error: what its reader said first that was
      not a row is ctx.Err(). */
  lemma InterruptedIsCtxErr(run: seq<State>, id: Id)
    requires IsRun(run) && id in Last(run).reqs
    requires EndsWith(Last(run).reqs[id].taken, ABORTED) && !Last(run).reqs[id].phase.Closed?
    ensures Last(run).reqs[id].ctxDone && Last(run).reqs[id].outcome == Some(CtxErr)
  {
    var s := Last(run);
    var q := s.reqs[id];
    hide IsRun, Inv, UpInv, AbortInv, Up, Down, Payloads, AllGood, GoodTerminal;
    RunKeeps(run);
    Have(s, id);
    TakenPrefix(q.script, q.sent, q.taken) by { assert SentWhole(q.script, q.sent); }
  }
}
