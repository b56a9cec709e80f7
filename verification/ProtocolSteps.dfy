/** Every step of Protocol keeps ProtocolInv.Inv: one lemma for each kind of step. */
module ProtocolSteps {
  import opened Wrappers
  import opened QueryStream
  import opened GoRows
  import opened Protocol
  import opened ProtocolInv

  lemma Have(s: State, id: Id)
    requires Inv(s) && id in s.reqs
    ensures ReqInv(s, id, s.reqs[id])
  {}

  /** ReqInv without the reader's part. */
  predicate Carried(s: State, id: Id, q: Request) {
    && id in s.reqs
    && UpInv(q, id, Up(s.toWorker, id))
    && RouteInv(q, Down(s.toGo, id), s.dead)
    && JobInv(q)
    && AbortInv(q, id, s.early, s.remembered)
    && (s.reqs[id].ctxDone ==> q.ctxDone)
    && (s.reqs[id].remembered ==> q.remembered)
  }

  /** An interrupted stream's reader has said ctx.Err(), and any other error came from an ERROR
      frame or from a route that failed. */
  predicate ToldWhy(q: Request) {
    && (q.outcome == Some(CtxErr) ==> q.ctxDone)
    && (EndsWith(q.taken, ABORTED) ==> q.outcome == Some(CtxErr))
    && (q.outcome == Some(OtherErr) ==> EndsWith(q.taken, ERROR) || (q.route.Failed? && q.queue == []))
  }

  /** A reader about to go on: what Idle and the moment after a successful pull have in common. */
  predicate Reading(q: Request) {
    && Accepted(q)
    && !q.phase.Closed? && !q.phase.Opening?
    && (q.outcome == Some(Eof) ==> q.taken[|q.taken| - 1].ROWS? && q.cursor.eof && q.cursor.pending == [])
    && (EndsWith(q.taken, ERROR) ==> q.outcome.Some?)
    && ToldWhy(q)
  }

  /** A reader that reaches the end says io.EOF only after an EOF batch: an ABORTED frame
      means that its context has ended. */
  lemma EndIsHonest(q: Request)
    requires JobInv(q) && Accepted(q) && q.cursor.eof && !q.phase.Closed? && q.taken <= q.sent
    ensures EndsWith(q.taken, ABORTED) ==> Ending(q.cursor, q.ctxDone).CtxErr?
    ensures Ending(q.cursor, q.ctxDone).CtxErr? ==> q.ctxDone
    ensures q.taken == q.sent
  {
    TakenPrefix(q.script, q.sent, q.taken);
  }

  lemma GiveKeeps(s: State, id: Id, q: Request)
    requires Inv(s) && Carried(s, id, q) && Reading(q) && Advance(q.cursor).Give?
    ensures Inv(ReadOn(s, id, q))
  {
    hide Inv, OnlyAbout, StreamInv, SentWhole, Waits, Expected, Up, Down;
    var t := ReadOn(s, id, q);
    PutAbout(s, id, t.reqs[id]);
    assert q.cursor.pending == [q.cursor.pending[0]] + q.cursor.pending[1..];
    assert GoInv(t.reqs[id]);
    OneKept(s, t, id);
  }

  lemma AtEndKeeps(s: State, id: Id, q: Request)
    requires Inv(s) && Carried(s, id, q) && Reading(q) && Advance(q.cursor).AtEnd?
    ensures Inv(ReadOn(s, id, q))
  {
    hide Inv, OnlyAbout, StreamInv, SentWhole, Waits, Expected, Up, Down;
    var t := ReadOn(s, id, q);
    EndIsHonest(q);
    PutAbout(s, id, t.reqs[id]);
    assert GoInv(t.reqs[id]);
    OneKept(s, t, id);
  }

  lemma MustPullKeeps(s: State, id: Id, q: Request)
    requires Inv(s) && Carried(s, id, q) && Reading(q) && Advance(q.cursor).MustPull?
    ensures Inv(ReadOn(s, id, q))
  {
    hide Inv, OnlyAbout, StreamInv, SentWhole, Waits, Expected, Up, Down;
    var t := ReadOn(s, id, q);
    SayAbout(s, id, t.reqs[id], CREDIT(id));
    ExpectedCredit(id, q.job.InTransit?, q.creditsUp);
    assert q.job.InTransit? || q.job.Queued? ==> q.taken == [];
    assert UpInv(t.reqs[id], id, Up(t.toWorker, id));
    assert GoInv(t.reqs[id]);
    OneKept(s, t, id);
  }

  lemma ReadOnKeeps(s: State, id: Id, q: Request)
    requires Inv(s) && Carried(s, id, q) && Reading(q)
    ensures Inv(ReadOn(s, id, q))
  {
    match Advance(q.cursor)
    case Give(_, _) => GiveKeeps(s, id, q);
    case AtEnd => AtEndKeeps(s, id, q);
    case MustPull => MustPullKeeps(s, id, q);
  }

  lemma NextRowKeeps(s: State, id: Id)
    requires Inv(s) && Enabled(s, NextRow(id))
    ensures Inv(Step(s, NextRow(id)))
  {
    hide Inv, OnlyAbout, StreamInv, SentWhole, Waits, Expected, Up, Down;
    var q := s.reqs[id];
    Have(s, id);
    if q.ctxDone {
      var q' := Settle(q, CtxErr);
      PutAbout(s, id, q');
      assert GoInv(q');
      OneKept(s, Put(s, id, q'), id);
    } else {
      ReadOnKeeps(s, id, q);
    }
  }

  /** The request after its reader has taken a frame. */
  function Took(q: Request): Request
    requires q.queue != []
  {
    TakeFrame(q).(cursor := Accept(q.cursor, q.queue[0]).0)
  }

  lemma TookCarried(s: State, id: Id)
    requires Inv(s) && id in s.reqs
    requires s.reqs[id].queue != [] && (s.reqs[id].phase.Opening? || s.reqs[id].phase.Pulling?)
    ensures Carried(s, id, Took(s.reqs[id])) && Accepted(Took(s.reqs[id]))
    ensures var q := Took(s.reqs[id]);
            match Accept(s.reqs[id].cursor, s.reqs[id].queue[0]).1
            case GotBatch => q.taken[|q.taken| - 1].ROWS?
            case GotEof => EndsWith(q.taken, ABORTED) && q.cursor.eof && q.cursor.pending == []
            case GotError => EndsWith(q.taken, ERROR) && q.cursor.eof && q.cursor.pending == []
  {
    hide Inv, OnlyAbout, StreamInv, SentWhole, Waits, Expected, Up, Down, Payloads, AllGood;
    var q := s.reqs[id];
    Have(s, id);
    AcceptKeeps(q, Down(s.toGo, id), s.dead);
    NothingUnread(q);
  }

  /** A pull that ends the stream. */
  lemma LastPullKeeps(s: State, id: Id, q: Request, o: Outcome)
    requires Inv(s) && Carried(s, id, q) && Accepted(q)
    requires q.phase.Pulling? && q.cursor.eof && q.cursor.pending == []
    requires q.outcome.None? || (q.outcome == Some(CtxErr) && q.ctxDone)
    requires o == CtxErr ==> q.ctxDone
    requires if EndsWith(q.taken, ABORTED) then o == CtxErr else EndsWith(q.taken, ERROR) && !o.Eof?
    ensures Inv(Put(s, id, Settle(q, o).(phase := Idle)))
  {
    hide Inv, OnlyAbout, StreamInv, SentWhole, Waits, Expected, Up, Down;
    var q' := Settle(q, o).(phase := Idle);
    PutAbout(s, id, q');
    assert GoInv(q');
    OneKept(s, Put(s, id, q'), id);
  }

  lemma TookLocal(q: Request)
    requires q.queue != []
    ensures var q' := Took(q);
            q'.phase == q.phase && q'.outcome == q.outcome && q'.ctxDone == q.ctxDone && q'.job == q.job
  {}

  lemma PullBatchKeeps(s: State, id: Id)
    requires Inv(s) && id in s.reqs && s.reqs[id].phase.Pulling? && s.reqs[id].queue != []
    requires Accept(s.reqs[id].cursor, s.reqs[id].queue[0]).1.GotBatch?
    ensures Inv(ReadOn(s, id, Took(s.reqs[id])))
  {
    hide Inv, OnlyAbout, StreamInv, SentWhole, Waits, Expected, Up, Down, UpInv, JobInv, RouteInv, Carried, AbortInv,
         Payloads, ReadOn, Took;
    var q := s.reqs[id];
    Have(s, id);
    TookCarried(s, id);
    StillSilent(q);
    TookLocal(q);
    hide GoInv;
    ReadOnKeeps(s, id, Took(q));
  }

  lemma CarriedHas(s: State, id: Id, q: Request)
    requires Carried(s, id, q)
    ensures JobInv(q) && q.taken <= q.sent
  {
    hide Up, Down, UpInv, JobInv, AbortInv;
  }

  lemma PullEndKeeps(s: State, id: Id)
    requires Inv(s) && id in s.reqs && s.reqs[id].phase.Pulling? && s.reqs[id].queue != []
    requires !Accept(s.reqs[id].cursor, s.reqs[id].queue[0]).1.GotBatch?
    ensures var q := Took(s.reqs[id]);
            var o := if Accept(s.reqs[id].cursor, s.reqs[id].queue[0]).1.GotEof? then Ending(q.cursor, q.ctxDone)
                     else if q.ctxDone then CtxErr else OtherErr;
            Inv(Put(s, id, Settle(q, o).(phase := Idle)))
  {
    hide Inv, OnlyAbout, StreamInv, SentWhole, Waits, Expected, Up, Down, UpInv, JobInv, RouteInv, Carried, AbortInv,
         Payloads, Took, Settle, Put, Ending;
    var q := s.reqs[id];
    Have(s, id);
    TookCarried(s, id);
    CarriedHas(s, id, Took(q));
    StillSilent(q);
    TookLocal(q);
    hide GoInv;
    if Accept(q.cursor, q.queue[0]).1.GotEof? {
      EndIsHonest(Took(q));
      LastPullKeeps(s, id, Took(q), Ending(Took(q).cursor, q.ctxDone));
    } else {
      LastPullKeeps(s, id, Took(q), if q.ctxDone then CtxErr else OtherErr);
    }
  }

  lemma PullNextKeeps(s: State, id: Id)
    requires Inv(s) && Enabled(s, PullNext(id))
    ensures Inv(Step(s, PullNext(id)))
  {
    hide Inv, InTurn, HandlerFires, ReadOn, Settle, Ending;
    if Accept(s.reqs[id].cursor, s.reqs[id].queue[0]).1.GotBatch? {
      PullBatchKeeps(s, id);
    } else {
      PullEndKeeps(s, id);
    }
  }

  lemma FailPullLocal(q: Request)
    requires GoInv(q) && q.phase.Pulling? && PullMayFail(q)
    ensures GoInv(Settle(q, if q.ctxDone then CtxErr else OtherErr).(phase := Idle, failedPulls := q.failedPulls + 1))
  {
    hide Payloads;
  }

  lemma FailPullKeeps(s: State, id: Id)
    requires Inv(s) && Enabled(s, FailPull(id))
    ensures Inv(Step(s, FailPull(id)))
  {
    hide Inv, OnlyAbout, StreamInv, SentWhole, Waits, Expected, Up, Down, Payloads, GoInv;
    var q := s.reqs[id];
    Have(s, id);
    FailPullLocal(q);
    var q' := Settle(q, if q.ctxDone then CtxErr else OtherErr).(phase := Idle, failedPulls := q.failedPulls + 1);
    PutAbout(s, id, q');
    OneKept(s, Put(s, id, q'), id);
  }

  function Shut(q: Request): Request {
    q.(phase := Closed, route := Gone, queue := [], cursor := q.cursor.(closed := true),
       abortUp := q.abortUp || !q.cursor.eof)
  }

  /** What Close needs of a reader. */
  predicate MayClose(q: Request) {
    && (q.outcome == Some(CtxErr) ==> q.ctxDone)
    && !q.phase.Closed?
    && Payloads(q.taken) == q.delivered + q.cursor.pending
    && (q.cursor.eof <==> q.taken != [] && q.taken[|q.taken| - 1].Terminal())
    && (q.cursor.aborted <==> EndsWith(q.taken, ABORTED))
    && (q.cursor.eof ==> q.job.Finished?)
    && q.granted <= |q.taken| + q.failedPulls
    && (q.outcome == Some(Eof) ==>
          q.taken != [] && q.taken[|q.taken| - 1].ROWS? && q.cursor.eof && q.cursor.pending == [])
  }

  lemma ShutLocal(q: Request, id: Id, up: seq<Command>, down: seq<Frame>, dead: bool, early: seq<Id>, n: nat)
    requires UpInv(q, id, up) && RouteInv(q, down, dead) && JobInv(q) && AbortInv(q, id, early, n)
    requires MayClose(q)
    ensures UpInv(Shut(q), id, if q.cursor.eof then up else up + [ABORT(id)])
    ensures RouteInv(Shut(q), down, dead) && AbortInv(Shut(q), id, early, n)
    ensures JobInv(Shut(q)) && GoInv(Shut(q))
  {
    hide StreamInv, SentWhole, Waits, Payloads, Expected;
    ExpectedAbort(id, q.job.InTransit?, q.creditsUp);
  }

  lemma CloseRowsKeeps(s: State, id: Id, q: Request)
    requires Inv(s) && Carried(s, id, q) && MayClose(q)
    ensures Inv(CloseRows(s, id, q))
  {
    hide Inv, OnlyAbout, Up, Down, UpInv, RouteInv, JobInv, GoInv, AbortInv;
    ShutLocal(q, id, Up(s.toWorker, id), Down(s.toGo, id), s.dead, s.early, s.remembered);
    if q.cursor.eof {
      PutAbout(s, id, Shut(q));
    } else {
      SayAbout(s, id, Shut(q), ABORT(id));
    }
    OneKept(s, CloseRows(s, id, q), id);
  }

  lemma CloseKeeps(s: State, id: Id)
    requires Inv(s) && id in s.reqs && (s.reqs[id].phase.Idle? || s.reqs[id].phase.Opening?)
    ensures Inv(CloseRows(s, id, s.reqs[id]))
  {
    hide Inv, OnlyAbout, StreamInv, SentWhole, Waits, Expected, Up, Down;
    Have(s, id);
    CloseRowsKeeps(s, id, s.reqs[id]);
  }

  lemma OpenedLocal(q: Request)
    requires Accepted(q) && q.phase.Opening? && q.taken[|q.taken| - 1].ROWS? && q.outcome.None?
    ensures GoInv(q.(phase := Idle))
  {}

  lemma OpenKeeps(s: State, id: Id)
    requires Inv(s) && Enabled(s, Open(id))
    ensures Inv(Step(s, Open(id)))
  {
    hide Inv, OnlyAbout, StreamInv, SentWhole, Waits, Expected, Up, Down, Payloads;
    var q := s.reqs[id];
    Have(s, id);
    TookCarried(s, id);
    var q' := Took(q);
    if Accept(q.cursor, q.queue[0]).1.GotBatch? {
      OpenedLocal(q');
      PutAbout(s, id, q'.(phase := Idle));
      hide GoInv;
      OneKept(s, Put(s, id, q'.(phase := Idle)), id);
    } else {
      CloseRowsKeeps(s, id, q');
    }
  }

  // ---- Arrival at either side --------------------------------------------------

  lemma DownHead(s: State, k: Id)
    requires s.toGo != []
    ensures Down(s.toGo, k) ==
              (if s.toGo[0].id == k then [s.toGo[0].frame] else []) + Down(s.toGo[1..], k)
  {}

  lemma UpHead(s: State, k: Id)
    requires s.toWorker != []
    ensures Up(s.toWorker, k) ==
              (if s.toWorker[0].id == k then [s.toWorker[0]] else []) + Up(s.toWorker[1..], k)
  {}

  /** receive() moves a frame from the channel to its route, or drops it. */
  lemma DeliverAbout(s: State)
    requires s.toGo != [] && s.toGo[0].id in s.reqs
    ensures OnlyAbout(s, Received(s), s.toGo[0].id)
    ensures Down(s.toGo, s.toGo[0].id) == [s.toGo[0].frame] + Down(s.toGo[1..], s.toGo[0].id)
  {
    forall k | k in s.reqs && k != s.toGo[0].id ensures Down(s.toGo[1..], k) == Down(s.toGo, k) {
      DownHead(s, k);
      assert [] + Down(s.toGo[1..], k) == Down(s.toGo[1..], k);
    }
  }

  lemma DeliverLocal(q: Request, f: Frame, rest: seq<Frame>, dead: bool)
    requires RouteInv(q, [f] + rest, dead) && GoInv(q)
    ensures q.route.Live? ==> RouteInv(q.(queue := q.queue + [f]), rest, dead) && GoInv(q.(queue := q.queue + [f]))
    ensures !q.route.Live? ==> RouteInv(q, rest, dead)
  {
    assert q.taken + q.queue + ([f] + rest) == q.taken + (q.queue + [f]) + rest;
  }

  lemma DeliverKeeps(s: State)
    requires Inv(s) && Enabled(s, Deliver)
    ensures Inv(Step(s, Deliver))
  {
    hide Inv, OnlyAbout, StreamInv, SentWhole, Waits, Expected, Up, Down, RouteInv, GoInv;
    var id := s.toGo[0].id;
    Have(s, id);
    DeliverAbout(s);
    DeliverLocal(s.reqs[id], s.toGo[0].frame, Down(s.toGo[1..], id), s.dead);
    OneKept(s, Step(s, Deliver), id);
  }

  function Orphaned(q: Request): Request {
    q.(route := if q.route.Live? then Route.Failed else q.route)
  }

  lemma DieLocal(q: Request, id: Id, up: seq<Command>, down: seq<Frame>, dead: bool, early: seq<Id>, n: nat)
    requires UpInv(q, id, up) && RouteInv(q, down, dead) && JobInv(q) && GoInv(q) && AbortInv(q, id, early, n)
    ensures UpInv(Orphaned(q), id, up) && RouteInv(Orphaned(q), down, true) && JobInv(Orphaned(q))
    ensures GoInv(Orphaned(q)) && AbortInv(Orphaned(q), id, early, n)
  {
    hide StreamInv, SentWhole, Waits, Expected, Payloads;
  }

  lemma DieKeeps(s: State)
    requires Inv(s)
    ensures Inv(Step(s, Die))
  {
    hide UpInv, RouteInv, JobInv, GoInv, AbortInv, WordInv;
    var t := Step(s, Die);
    WordGrows(s, t);
    forall k | k in t.reqs ensures ReqInv(t, k, t.reqs[k]) {
      assert ReqInv(s, k, s.reqs[k]);
      DieLocal(s.reqs[k], k, Up(s.toWorker, k), Down(s.toGo, k), s.dead, s.early, s.remembered);
    }
  }

  // ---- The worker's dispatcher ----------------------------------------------------

  /** Taking the head off the channel changes only its own request's share of it. */
  lemma HeadAbout(s: State, q: Request)
    requires s.toWorker != [] && s.toWorker[0].id in s.reqs
    requires s.reqs[s.toWorker[0].id].ctxDone ==> q.ctxDone
    requires s.reqs[s.toWorker[0].id].remembered ==> q.remembered
    ensures var id := s.toWorker[0].id;
            OnlyAbout(s, Put(s.(toWorker := s.toWorker[1..]), id, q), id)
    ensures Up(s.toWorker, s.toWorker[0].id) == [s.toWorker[0]] + Up(s.toWorker[1..], s.toWorker[0].id)
  {
    forall k | k in s.reqs && k != s.toWorker[0].id ensures Up(s.toWorker[1..], k) == Up(s.toWorker, k) {
      UpHead(s, k);
      assert [] + Up(s.toWorker[1..], k) == Up(s.toWorker[1..], k);
    }
  }

  /** The head command is the first one expected for its request. */
  lemma HeadExpected(s: State)
    requires Inv(s) && Enabled(s, Dispatch)
    ensures var c := s.toWorker[0]; var q := s.reqs[c.id]; var rest := Up(s.toWorker[1..], c.id);
            match c
            case QUERY(id) => q.job.InTransit? && rest == Expected(id, false, q.creditsUp, q.abortUp)
            case CREDIT(id) => !q.job.InTransit? && q.creditsUp > 0 &&
                               rest == Expected(id, false, q.creditsUp - 1, q.abortUp)
            case ABORT(id) => !q.job.InTransit? && q.creditsUp == 0 && q.abortUp &&
                              rest == Expected(id, false, 0, false)
  {
    hide Inv, OnlyAbout, StreamInv, SentWhole, Waits, Expected, Up, Down;
    var c := s.toWorker[0];
    var q := s.reqs[c.id];
    Have(s, c.id);
    HeadAbout(s, q);
    ExpectedTail(c.id, q.job.InTransit?, q.creditsUp, q.abortUp);
    var up := Up(s.toWorker, c.id);
    assert up[0] == c && up[1..] == Up(s.toWorker[1..], c.id);
  }

  lemma DispatchQueryKeeps(s: State)
    requires Inv(s) && Enabled(s, Dispatch) && s.toWorker[0].QUERY?
    ensures Inv(Step(s, Dispatch))
  {
    hide Inv, OnlyAbout, StreamInv, SentWhole, Waits, Expected, Up, Down;
    var id := s.toWorker[0].id;
    var t := Step(s, Dispatch);
    Have(s, id);
    HeadExpected(s);
    HeadAbout(s, t.reqs[id]);
    OneKept(s, t, id);
  }

  function Credited(q: Request): Request
    requires q.creditsUp > 0
  {
    if q.job.Running? then
      q.(creditsUp := q.creditsUp - 1, received := q.received + 1, job := Running(OnCredit(q.job.st, 1)))
    else q.(creditsUp := q.creditsUp - 1)
  }

  lemma CreditLocal(q: Request, id: Id, down: seq<Frame>, dead: bool, early: seq<Id>, n: nat, up: seq<Command>)
    requires UpInv(q, id, up) && RouteInv(q, down, dead) && JobInv(q) && GoInv(q) && AbortInv(q, id, early, n)
    requires q.creditsUp > 0 && !q.job.InTransit?
    ensures UpInv(Credited(q), id, Expected(id, false, q.creditsUp - 1, q.abortUp))
    ensures RouteInv(Credited(q), down, dead) && AbortInv(Credited(q), id, early, n)
    ensures JobInv(Credited(q)) && GoInv(Credited(q))
  {
    hide StreamInv, SentWhole, Waits, Payloads, Expected;
    if q.job.Running? {
      CreditedInv(q.script, q.sent, q.received, q.job.st, 1);
    }
  }

  lemma DispatchCreditKeeps(s: State)
    requires Inv(s) && Enabled(s, Dispatch) && s.toWorker[0].CREDIT?
    ensures Inv(Step(s, Dispatch))
  {
    hide Inv, OnlyAbout, Up, Down, UpInv, RouteInv, JobInv, GoInv, AbortInv, Expected;
    var id := s.toWorker[0].id;
    Have(s, id);
    HeadExpected(s);
    CreditLocal(s.reqs[id], id, Down(s.toGo, id), s.dead, s.early, s.remembered, Up(s.toWorker, id));
    HeadAbout(s, Credited(s.reqs[id]));
    OneKept(s, Step(s, Dispatch), id);
  }

  lemma DispatchAbortKeeps(s: State)
    requires Inv(s) && Enabled(s, Dispatch) && s.toWorker[0].ABORT?
    requires s.reqs[s.toWorker[0].id].job.Running?
    ensures Inv(Step(s, Dispatch))
  {
    hide Inv, OnlyAbout, StreamInv, SentWhole, Waits, Expected, Up, Down;
    var id := s.toWorker[0].id;
    var q := s.reqs[id];
    var t := Step(s, Dispatch);
    Have(s, id);
    HeadExpected(s);
    HeadAbout(s, t.reqs[id]);
    AbortedInv(q.script, q.sent, q.received, q.job.st);
    assert JobInv(t.reqs[id]);
    assert GoInv(t.reqs[id]);
    OneKept(s, t, id);
  }

  // ---- The memory of early aborts ------------------------------------------------

  lemma {:induction false} RemoveKeeps(ids: seq<Id>, gone: Id, i: nat)
    requires i < |ids| && ids[i] != gone
    ensures exists j :: 0 <= j < |Remove(ids, gone)| && Remove(ids, gone)[j] == ids[i] &&
                        |Remove(ids, gone)| - 1 - j <= |ids| - 1 - i
  {
    var last := |ids| - 1;
    if i == last {
      assert Remove(ids, gone)[|Remove(ids, gone)| - 1] == ids[i];
    } else {
      RemoveKeeps(ids[..last], gone, i);
      var r := Remove(ids[..last], gone);
      var j :| 0 <= j < |r| && r[j] == ids[i] && |r| - 1 - j <= last - 1 - i;
      assert Remove(ids, gone)[j] == ids[i];
    }
  }

  lemma {:induction false} RemoveShrinks(ids: seq<Id>, gone: Id)
    ensures |Remove(ids, gone)| <= |ids|
    ensures forall k :: k in Remove(ids, gone) ==> k in ids && k != gone
  {
    if ids != [] { RemoveShrinks(ids[..|ids| - 1], gone); }
  }

  lemma WaitsRemove(early: seq<Id>, remembered: nat, id: Id, mark: nat, gone: Id)
    requires Waits(early, remembered, id, mark) && id != gone
    ensures Waits(Remove(early, gone), remembered, id, mark)
  {
    if remembered - mark < MAX_EARLY_ABORTS {
      var i :| 0 <= i < |early| && early[i] == id && |early| - 1 - i <= remembered - mark;
      RemoveKeeps(early, gone, i);
    }
  }

  /** An entry is pushed out only by 1024 later ones. */
  lemma WaitsAdd(early: seq<Id>, remembered: nat, id: Id, mark: nat, more: Id)
    requires Waits(early, remembered, id, mark) && id != more && |early| <= MAX_EARLY_ABORTS
    ensures Waits(AddEarly(early, more), if more in early then remembered else remembered + 1, id, mark)
  {
    if remembered + 1 - mark < MAX_EARLY_ABORTS && more !in early {
      var i :| 0 <= i < |early| && early[i] == id && |early| - 1 - i <= remembered - mark;
      var grown := early + [more];
      if |grown| > MAX_EARLY_ABORTS {
        assert grown[1..][i - 1] == id;
      } else {
        assert grown[i] == id;
      }
    }
  }

  lemma WaitsSelf(early: seq<Id>, remembered: nat, id: Id)
    requires id !in early && |early| <= MAX_EARLY_ABORTS
    ensures Waits(AddEarly(early, id), remembered + 1, id, remembered + 1)
  {
    var e := AddEarly(early, id);
    assert e[|e| - 1] == id;
  }

  lemma RememberOwn(s: State, id: Id)
    requires Inv(s) && Enabled(s, Dispatch) && s.toWorker[0] == ABORT(id)
    requires !s.reqs[id].job.Running?
    ensures var t := Step(s, Dispatch); OnlyAbout(s, t, id) && ReqInv(t, id, t.reqs[id])
    ensures id !in s.early
  {
    hide Inv, OnlyAbout, StreamInv, SentWhole, Waits, Expected, Up, Down;
    var t := Step(s, Dispatch);
    Have(s, id);
    HeadExpected(s);
    EarlyRemembered(s, id);
    HeadAbout(s, t.reqs[id]);
    AboutEarly(s, id);
    WaitsSelf(s.early, s.remembered, id);
    assert GoInv(t.reqs[id]);
  }

  lemma EarlyRemembered(s: State, id: Id)
    requires Inv(s)
    ensures |s.early| <= MAX_EARLY_ABORTS
    ensures id in s.early ==> id in s.reqs && s.reqs[id].remembered
  {}

  /** The early set is no part of what OnlyAbout compares. */
  lemma AboutEarly(s: State, id: Id)
    requires s.toWorker != [] && s.toWorker[0] == ABORT(id) && id in s.reqs && !s.reqs[id].job.Running?
    ensures var t := DispatchHead(s);
            OnlyAbout(s, Put(s.(toWorker := s.toWorker[1..]), id, t.reqs[id]), id) ==> OnlyAbout(s, t, id)
  {}

  /** Nobody else's early abort is lost before its time. */
  lemma OthersRemembered(s: State, t: State, id: Id, k: Id)
    requires k in s.reqs && k in t.reqs && k != id && ReqInv(s, k, s.reqs[k]) && OnlyAbout(s, t, id)
    requires |s.early| <= MAX_EARLY_ABORTS && t.early == AddEarly(s.early, id)
    requires t.remembered == if id in s.early then s.remembered else s.remembered + 1
    ensures ReqInv(t, k, t.reqs[k])
  {
    hide Waits, Up, Down, AddEarly, UpInv, RouteInv, JobInv, GoInv;
    if s.reqs[k].job.Queued? && s.reqs[k].remembered {
      WaitsAdd(s.early, s.remembered, k, s.reqs[k].mark, id);
    }
  }

  lemma RememberedShape(s: State, t: State, id: Id)
    requires ShapeInv(s) && OnlyAbout(s, t, id) && t.early == AddEarly(s.early, id) && t.reqs[id].remembered
    ensures ShapeInv(t)
  {
    hide Up, Down, AddEarly;
    AddEarlyHas(s.early, id);
  }

  lemma Remembers(s: State, id: Id)
    requires s.toWorker != [] && s.toWorker[0] == ABORT(id) && id in s.reqs && !s.reqs[id].job.Running?
    ensures var t := DispatchHead(s);
            && t.early == AddEarly(s.early, id) && t.reqs[id].remembered
            && t.remembered == if id in s.early then s.remembered else s.remembered + 1
  {
    hide AddEarly;
  }

  lemma RememberedKeeps(s: State, t: State, id: Id)
    requires Inv(s) && OnlyAbout(s, t, id) && t.early == AddEarly(s.early, id) && t.reqs[id].remembered
    requires t.remembered == if id in s.early then s.remembered else s.remembered + 1
    requires ReqInv(t, id, t.reqs[id])
    ensures Inv(t)
  {
    hide ReqInv, WordInv, AddEarly, Up, Down;
    EarlyRemembered(s, id);
    RememberedShape(s, t, id);
    WordKept(s, t, id);
    forall k | k in t.reqs ensures ReqInv(t, k, t.reqs[k]) {
      if k != id { OthersRemembered(s, t, id, k); }
    }
  }

  /** An abort that finds no stream is remembered. */
  lemma RememberKeeps(s: State)
    requires Inv(s) && Enabled(s, Dispatch) && s.toWorker[0].ABORT?
    requires !s.reqs[s.toWorker[0].id].job.Running?
    ensures Inv(Step(s, Dispatch))
  {
    hide Inv, ReqInv, AddEarly, DispatchHead, OnlyAbout, InTurn;
    RememberOwn(s, s.toWorker[0].id);
    Remembers(s, s.toWorker[0].id);
    RememberedKeeps(s, Step(s, Dispatch), s.toWorker[0].id);
  }

  lemma AddEarlyHas(early: seq<Id>, id: Id)
    ensures |AddEarly(early, id)| <= |early| + 1 && |AddEarly(early, id)| <= MAX_EARLY_ABORTS
    ensures forall k :: k in AddEarly(early, id) ==> k in early || k == id
  {}
}
