/** The worker's own steps keep ProtocolInv.Inv, and so does the outside world. */
module ProtocolWork {
  import opened Wrappers
  import opened QueryStream
  import opened GoRows
  import opened Protocol
  import opened ProtocolInv
  import opened ProtocolSteps

  /** OneKept for a step that also forgets the request's early abort. */
  lemma OneKeptForgetting(s: State, t: State, id: Id)
    requires Inv(s) && OnlyAbout(s, t, id)
    requires t.early == Remove(s.early, id) && t.remembered == s.remembered
    requires ReqInv(t, id, t.reqs[id])
    ensures Inv(t)
  {
    hide UpInv, RouteInv, JobInv, GoInv, WordInv, Up, Down, Waits, Remove;
    WordKept(s, t, id);
    RemoveShrinks(s.early, id);
    forall k | k in t.reqs ensures ReqInv(t, k, t.reqs[k]) {
      if k != id {
        assert ReqInv(s, k, s.reqs[k]);
        if s.reqs[k].job.Queued? && s.reqs[k].remembered {
          WaitsRemove(s.early, s.remembered, k, s.reqs[k].mark, id);
        }
      }
    }
  }

  /** A step that posts at most one frame for `id`. */
  lemma PostAbout(s: State, id: Id, q: Request, post: seq<Frame>)
    requires id in s.reqs && |post| <= 1
    requires (s.reqs[id].ctxDone ==> q.ctxDone) && (s.reqs[id].remembered ==> q.remembered)
    ensures var t := s.(reqs := s.reqs[id := q], toGo := s.toGo + Replies(id, post));
            OnlyAbout(s, t, id) && Down(t.toGo, id) == Down(s.toGo, id) + post
  {
    if post == [] {
      assert s.toGo + Replies(id, post) == s.toGo;
    } else {
      assert Replies(id, post) == [Reply(id, post[0])] && post == [post[0]];
      forall k | k in s.reqs
        ensures Down(s.toGo + Replies(id, post), k) == Down(s.toGo, k) + (if id == k then post else [])
      {
        DownAppend(s.toGo, Reply(id, post[0]), k);
      }
      forall k | k in s.reqs && k != id ensures Down(s.toGo + Replies(id, post), k) == Down(s.toGo, k) {
        assert Down(s.toGo, k) + [] == Down(s.toGo, k);
      }
    }
  }

  function WithJob(q: Request, job: Job, post: seq<Frame>): Request {
    q.(job := job, sent := q.sent + post)
  }

  /** What does not depend on how the worker gets on. */
  lemma PostLocal(q: Request, id: Id, up: seq<Command>, down: seq<Frame>, dead: bool, job: Job, post: seq<Frame>)
    requires UpInv(q, id, up) && RouteInv(q, down, dead) && GoInv(q)
    requires !q.job.InTransit? && !q.job.Finished? && (job.Running? || job.Finished?)
    ensures UpInv(WithJob(q, job, post), id, up)
    ensures RouteInv(WithJob(q, job, post), down + post, dead)
    ensures GoInv(WithJob(q, job, post))
  {
    hide Expected, Payloads;
    assert q.taken + q.queue + (down + post) == q.taken + q.queue + down + post;
  }

  /** A worker that ends a stream with `f`: from a run, or before one could begin. */
  predicate MayEnd(q: Request, f: Frame) {
    && (f == ABORTED ==> q.phase.Closed? || q.ctxDone)
    && match q.job
       case Running(st) => StreamInv(q.script, q.sent, q.received, st) && GoodTerminal(q.script, q.sent, f)
       case Queued => f == ERROR && q.script.end.EndError? && q.sent == []
       case _ => false
  }

  lemma EndLocal(q: Request, f: Frame, id: Id, early: seq<Id>, n: nat)
    requires MayEnd(q, f)
    ensures JobInv(WithJob(q, Finished, [f])) && AbortInv(WithJob(q, Finished, [f]), id, early, n)
  {
    hide Waits;
    assert (q.sent + [f])[..|q.sent|] == q.sent;
  }

  lemma AboutAnyEarly(s: State, t: State, id: Id, early: seq<Id>)
    requires OnlyAbout(s, t, id)
    ensures OnlyAbout(s, t.(early := early), id)
  {}

  /** Finish, as posting one frame and forgetting the early abort. */
  lemma FinishAbout(s: State, id: Id, f: Frame)
    requires id in s.reqs
    ensures var q := WithJob(s.reqs[id], Finished, [f]); var t := Finish(s, id, f);
            && OnlyAbout(s, t, id) && t.reqs[id] == q
            && Down(t.toGo, id) == Down(s.toGo, id) + [f] && t.toWorker == s.toWorker
            && t.early == Remove(s.early, id) && t.remembered == s.remembered && t.dead == s.dead
  {
    hide Up, Down, Remove, OnlyAbout;
    var q := WithJob(s.reqs[id], Finished, [f]);
    PostAbout(s, id, q, [f]);
    assert Replies(id, [f]) == [Reply(id, f)];
    AboutAnyEarly(s, s.(reqs := s.reqs[id := q], toGo := s.toGo + [Reply(id, f)]), id, Remove(s.early, id));
  }

  lemma FinishKeeps(s: State, id: Id, f: Frame)
    requires Inv(s) && id in s.reqs && MayEnd(s.reqs[id], f)
    ensures Inv(Finish(s, id, f))
  {
    var q := s.reqs[id];
    assert !q.job.InTransit? && !q.job.Finished?;
    hide Inv, OnlyAbout, UpInv, RouteInv, JobInv, GoInv, Up, Down, AbortInv, MayEnd, Remove, Finish, WithJob;
    Have(s, id);
    PostLocal(q, id, Up(s.toWorker, id), Down(s.toGo, id), s.dead, Finished, [f]);
    EndLocal(q, f, id, Remove(s.early, id), s.remembered);
    FinishAbout(s, id, f);
    OneKeptForgetting(s, Finish(s, id, f), id);
  }

  lemma StartFailKeeps(s: State, id: Id)
    requires Inv(s) && Enabled(s, StartFail(id))
    ensures Inv(Step(s, StartFail(id)))
  {
    Have(s, id);
    FinishKeeps(s, id, ERROR);
  }

  lemma TurnLocal(q: Request, id: Id, early: seq<Id>, n: nat, interrupt: bool)
    requires JobInv(q) && AbortInv(q, id, early, n) && q.job.Running? && q.job.st.wait.Ready?
    requires interrupt ==> q.ctxDone
    ensures match Iterate(q.script, q.job.st, interrupt)
            case Over(f) => MayEnd(q, f)
            case More(st, post) =>
              |post| <= 1 && JobInv(WithJob(q, Running(st), post)) &&
              AbortInv(WithJob(q, Running(st), post), id, early, n)
  {
    hide Waits, Payloads, StreamInv, GoodTerminal;
    assert Coherent(q.script, q.job.st) by { StreamCoherent(q.script, q.sent, q.received, q.job.st); }
    IterateInv(q.script, q.sent, q.received, q.job.st, interrupt);
  }

  lemma StreamCoherent(s: Script, sent: seq<Frame>, received: nat, st: Stream)
    requires StreamInv(s, sent, received, st)
    ensures Coherent(s, st)
  {}

  lemma MayInterrupt(s: State, id: Id, interrupt: bool)
    requires Inv(s) && id in s.reqs && (interrupt ==> HandlerFires(s, s.reqs[id].slot, id))
    ensures interrupt ==> s.reqs[id].ctxDone
  {
    hide ReqInv;
    if interrupt { HandlerHitsOnlyEnded(s, s.reqs[id].slot, id); }
  }

  /** A turn already known to be right for its request. */
  lemma TurnedKeeps(s: State, id: Id, t: Turn)
    requires Inv(s) && id in s.reqs && s.reqs[id].job.Running?
    requires match t
             case Over(f) => MayEnd(s.reqs[id], f)
             case More(st, post) =>
               var q := WithJob(s.reqs[id], Running(st), post);
               |post| <= 1 && JobInv(q) && AbortInv(q, id, s.early, s.remembered)
    ensures Inv(Turned(s, id, t))
  {
    hide Inv, OnlyAbout, UpInv, RouteInv, JobInv, GoInv, Up, Down, AbortInv, MayEnd;
    match t
    case Over(f) => FinishKeeps(s, id, f);
    case More(st, post) =>
      var q := s.reqs[id];
      Have(s, id);
      PostLocal(q, id, Up(s.toWorker, id), Down(s.toGo, id), s.dead, Running(st), post);
      PostAbout(s, id, WithJob(q, Running(st), post), post);
      OneKept(s, Turned(s, id, t), id);
  }

  lemma RunTurnKeeps(s: State, id: Id, interrupt: bool)
    requires Inv(s) && HasStream(s, id) && s.reqs[id].job.st.wait.Ready?
    requires interrupt ==> HandlerFires(s, s.reqs[id].slot, id)
    ensures Inv(Turned(s, id, Iterate(s.reqs[id].script, s.reqs[id].job.st, interrupt)))
  {
    var q := s.reqs[id];
    hide Inv, UpInv, RouteInv, JobInv, GoInv, AbortInv, MayEnd, Coherent, Iterate, Turned, HandlerFires;
    Have(s, id);
    MayInterrupt(s, id, interrupt);
    TurnLocal(q, id, s.early, s.remembered, interrupt);
    TurnedKeeps(s, id, Iterate(q.script, q.job.st, interrupt));
  }

  lemma ResumeLocal(q: Request, id: Id, early: seq<Id>, n: nat, interrupt: bool)
    requires JobInv(q) && AbortInv(q, id, early, n) && q.job.Running? && q.job.st.wait.Yielding?
    requires interrupt ==> q.ctxDone
    ensures Coherent(q.script, q.job.st)
    ensures var q' := WithJob(q, Running(Resume(q.script, q.job.st, interrupt)), []);
            JobInv(q') && AbortInv(q', id, early, n)
  {
    hide Waits, Payloads, StreamInv;
    assert Coherent(q.script, q.job.st) by { StreamCoherent(q.script, q.sent, q.received, q.job.st); }
    ResumeInv(q.script, q.sent, q.received, q.job.st, interrupt);
    assert q.sent + [] == q.sent;
  }

  lemma MacrotaskKeeps(s: State, id: Id, interrupt: bool)
    requires Inv(s) && HasStream(s, id) && s.reqs[id].job.st.wait.Yielding?
    requires interrupt ==> HandlerFires(s, s.reqs[id].slot, id)
    ensures Inv(Put(s, id, s.reqs[id].(job := Running(Resume(s.reqs[id].script, s.reqs[id].job.st, interrupt)))))
  {
    var q := s.reqs[id];
    hide Inv, UpInv, RouteInv, JobInv, GoInv, AbortInv, Coherent, Resume, HandlerFires;
    Have(s, id);
    MayInterrupt(s, id, interrupt);
    ResumeLocal(q, id, s.early, s.remembered, interrupt);
    hide Turned, Put;
    TurnedQuietly(s, id, Resume(q.script, q.job.st, interrupt));
    TurnedKeeps(s, id, More(Resume(q.script, q.job.st, interrupt), []));
  }

  lemma TurnedQuietly(s: State, id: Id, st: Stream)
    requires id in s.reqs
    ensures Turned(s, id, More(st, [])) == Put(s, id, s.reqs[id].(job := Running(st)))
  {
    assert s.reqs[id].sent + [] == s.reqs[id].sent && s.toGo + Replies(id, []) == s.toGo;
  }

  lemma StartLocal(q: Request, id: Id, up: seq<Command>, down: seq<Frame>, dead: bool,
                   early: seq<Id>, n: nat, interrupt: bool)
    requires UpInv(q, id, up) && RouteInv(q, down, dead) && GoInv(q) && AbortInv(q, id, early, n)
    requires q.job.Queued? && (interrupt ==> q.ctxDone) && (id in early ==> q.remembered)
    ensures var q' := q.(startMark := n, job := Running(QueryStream.Begin(q.script, id in early, interrupt)));
            UpInv(q', id, up) && RouteInv(q', down, dead) && JobInv(q') && GoInv(q') &&
            AbortInv(q', id, Remove(early, id), n)
  {
    hide Expected, Payloads, StreamInv, Remove;
    BeginInv(q.script, id in early, interrupt);
  }

  lemma StartKeeps(s: State, id: Id, interrupt: bool)
    requires Inv(s) && id in s.reqs && s.reqs[id].job.Queued?
    requires interrupt ==> HandlerFires(s, s.reqs[id].slot, id)
    ensures Inv(StartRun(s, id, interrupt))
  {
    var q := s.reqs[id];
    hide Inv, OnlyAbout, UpInv, RouteInv, JobInv, GoInv, Up, Down, AbortInv, Remove, HandlerFires;
    Have(s, id);
    EarlyRemembered(s, id);
    MayInterrupt(s, id, interrupt);
    StartLocal(q, id, Up(s.toWorker, id), Down(s.toGo, id), s.dead, s.early, s.remembered, interrupt);
    var t := StartRun(s, id, interrupt);
    PutAbout(s, id, t.reqs[id]);
    AboutAnyEarly(s, Put(s, id, t.reqs[id]), id, Remove(s.early, id));
    OneKeptForgetting(s, t, id);
  }

  // ---- The outside world ----------------------------------------------------------

  lemma NothingFor(s: State, id: Id)
    requires (forall c :: c in s.toWorker ==> c.id != id) && (forall r :: r in s.toGo ==> r.id != id)
    ensures Up(s.toWorker, id) == [] && Down(s.toGo, id) == []
  {
    NoUp(s.toWorker, id);
    NoDown(s.toGo, id);
  }

  lemma {:induction false} NoUp(cs: seq<Command>, id: Id)
    requires forall c :: c in cs ==> c.id != id
    ensures Up(cs, id) == []
  {
    if cs != [] { NoUp(cs[1..], id); }
  }

  lemma {:induction false} NoDown(rs: seq<Reply>, id: Id)
    requires forall r :: r in rs ==> r.id != id
    ensures Down(rs, id) == []
  {
    if rs != [] { NoDown(rs[1..], id); }
  }

  lemma NewRequest(s: State, script: Script, key: nat, slot: nat)
    requires Inv(s) && Enabled(s, Begin(script, key, slot))
    ensures var t := Step(s, Begin(script, key, slot)); ReqInv(t, s.nextId, t.reqs[s.nextId])
  {
    hide ReqInv, WordInv;
    var t := Step(s, Begin(script, key, slot));
    NothingFor(s, s.nextId);
    UpAppend(s.toWorker, QUERY(s.nextId), s.nextId);
    FreshLocal(t, s.nextId);
  }

  lemma FreshLocal(t: State, id: Id)
    requires id in t.reqs && Up(t.toWorker, id) == [QUERY(id)] && Down(t.toGo, id) == [] && !t.dead
    requires var q := t.reqs[id]; q == NewQuery(q.script, q.key, q.slot)
    ensures ReqInv(t, id, t.reqs[id])
  {
    assert Expected(id, true, 0, false) == [QUERY(id)];
  }

  lemma BeginKeeps(s: State, script: Script, key: nat, slot: nat)
    requires Inv(s) && Enabled(s, Begin(script, key, slot))
    ensures Inv(Step(s, Begin(script, key, slot)))
  {
    hide UpInv, RouteInv, JobInv, GoInv, AbortInv, WordInv, Down, Up;
    var t := Step(s, Begin(script, key, slot));
    NewRequest(s, script, key, slot);
    WordGrows(s, t);
    forall k | k in t.reqs ensures ReqInv(t, k, t.reqs[k]) {
      if k != s.nextId {
        assert ReqInv(s, k, s.reqs[k]);
        UpAppend(s.toWorker, QUERY(s.nextId), k);
        assert Up(s.toWorker, k) + [] == Up(s.toWorker, k);
      }
    }
  }

  /** A step about a request with a single reply. */
  lemma OtherKeeps(s: State, t: State, id: Id)
    requires Inv(s) && id in t.others && t == s.(others := s.others[id := t.others[id]], nextId := t.nextId)
    requires s.nextId <= t.nextId <= ID_LIMIT && 0 < id < t.nextId && id !in s.reqs
    requires id in s.others && s.others[id].ctxDone ==> t.others[id].ctxDone
    requires t.others[id].interrupted ==> t.others[id].ctxDone
    ensures Inv(t)
  {
    hide UpInv, RouteInv, JobInv, GoInv, AbortInv, WordInv;
    forall v | Ended(s, v) ensures Ended(t, v) {}
    WordGrows(s, t);
    forall k | k in t.reqs ensures ReqInv(t, k, t.reqs[k]) {
      assert ReqInv(s, k, s.reqs[k]);
    }
  }

  lemma BeginOtherKeeps(s: State, key: nat, slot: nat)
    requires Inv(s) && Enabled(s, BeginOther(key, slot))
    ensures Inv(Step(s, BeginOther(key, slot)))
  {
    hide ReqInv, WordInv;
    OtherKeeps(s, Step(s, BeginOther(key, slot)), s.nextId);
  }

  lemma OtherCtxEndKeeps(s: State, id: Id)
    requires Inv(s) && Enabled(s, OtherCtxEnd(id))
    ensures Inv(Step(s, OtherCtxEnd(id)))
  {
    hide ReqInv, WordInv;
    OtherKeeps(s, Step(s, OtherCtxEnd(id)), id);
  }

  lemma FinishOtherKeeps(s: State, id: Id, interrupt: bool)
    requires Inv(s) && Enabled(s, FinishOther(id, interrupt))
    ensures Inv(Step(s, FinishOther(id, interrupt)))
  {
    hide ReqInv, WordInv, InTurn;
    if interrupt { HandlerHitsOnlyEnded(s, s.others[id].slot, id); }
    OtherKeeps(s, Step(s, FinishOther(id, interrupt)), id);
  }

  lemma CtxLocal(q: Request, id: Id, up: seq<Command>, down: seq<Frame>, dead: bool, early: seq<Id>, n: nat)
    requires UpInv(q, id, up) && RouteInv(q, down, dead) && JobInv(q) && GoInv(q) && AbortInv(q, id, early, n)
    ensures var q' := q.(ctxDone := true);
            UpInv(q', id, up) && RouteInv(q', down, dead) && JobInv(q') && GoInv(q') && AbortInv(q', id, early, n)
  {
    hide StreamInv, SentWhole, Waits, Expected, Payloads;
  }

  lemma CtxEndKeeps(s: State, id: Id)
    requires Inv(s) && Enabled(s, CtxEnd(id))
    ensures Inv(Step(s, CtxEnd(id)))
  {
    var q := s.reqs[id];
    hide Inv, OnlyAbout, Up, Down, UpInv, RouteInv, JobInv, GoInv, AbortInv;
    Have(s, id);
    CtxLocal(q, id, Up(s.toWorker, id), Down(s.toGo, id), s.dead, s.early, s.remembered);
    PutAbout(s, id, q.(ctxDone := true));
    OneKept(s, Put(s, id, q.(ctxDone := true)), id);
  }

  lemma StoreKeeps(s: State, slot: nat, id: Id)
    requires Inv(s) && Ended(s, id)
    ensures Inv(s.(word := s.word[slot := ToInt32(id)]))
  {
    var t := s.(word := s.word[slot := ToInt32(id)]);
    hide ReqInv, ToInt32;
    assert forall k :: k in t.reqs ==> ReqInv(s, k, s.reqs[k]);
    forall k | k in t.reqs ensures ReqInv(t, k, t.reqs[k]) { SameReq(s, t, k); }
  }

  lemma ZeroKeeps(s: State, slot: nat)
    requires Inv(s)
    ensures Inv(s.(word := s.word[slot := 0]))
  {
    var t := s.(word := s.word[slot := 0]);
    hide ReqInv, ToInt32;
    forall k | k in t.reqs ensures ReqInv(t, k, t.reqs[k]) { SameReq(s, t, k); }
  }

  lemma SameReq(s: State, t: State, k: Id)
    requires k in s.reqs && ReqInv(s, k, s.reqs[k]) && t == s.(word := t.word)
    ensures ReqInv(t, k, s.reqs[k])
  {
    hide UpInv, RouteInv, JobInv, GoInv, AbortInv;
  }

  // ---- Every step, every run --------------------------------------------------------

  lemma StepKeeps(s: State, a: Action)
    requires Inv(s) && Enabled(s, a)
    ensures Inv(Step(s, a))
  {
    hide Inv, Coherent, Iterate, Turned, Resume, HandlerFires, StartRun, Finish, CloseRows, ReadOn, Received,
         InTurn;
    match a
    case Begin(script, key, slot) => BeginKeeps(s, script, key, slot);
    case BeginOther(key, slot) => BeginOtherKeeps(s, key, slot);
    case CtxEnd(id) => CtxEndKeeps(s, id);
    case StoreCancel(id) => StoreKeeps(s, s.reqs[id].slot, id);
    case OtherCtxEnd(id) => OtherCtxEndKeeps(s, id);
    case StoreOther(id) => StoreKeeps(s, s.others[id].slot, id);
    case ZeroSlot(slot) => ZeroKeeps(s, slot);
    case Deliver => DeliverKeeps(s);
    case Die => DieKeeps(s);
    case Open(id) => OpenKeeps(s, id);
    case FailOpen(id) => CloseKeeps(s, id);
    case NextRow(id) => NextRowKeeps(s, id);
    case PullNext(id) => PullNextKeeps(s, id);
    case FailPull(id) => FailPullKeeps(s, id);
    case Close(id) => CloseKeeps(s, id);
    case Dispatch =>
      match s.toWorker[0] {
        case QUERY(_) => DispatchQueryKeeps(s);
        case CREDIT(_) => DispatchCreditKeeps(s);
        case ABORT(id) => if s.reqs[id].job.Running? { DispatchAbortKeeps(s); } else { RememberKeeps(s); }
      }
    case Start(id, i) => StartKeeps(s, id, i);
    case StartFail(id) => StartFailKeeps(s, id);
    case FinishOther(id, i) => FinishOtherKeeps(s, id, i);
    case RunTurn(id, i) => RunTurnKeeps(s, id, i);
    case Macrotask(id, i) => MacrotaskKeeps(s, id, i);
  }

  lemma {:induction false} RunKeeps(run: seq<State>)
    requires IsRun(run)
    ensures Inv(Last(run))
  {
    if |run| == 1 {
      assert Inv(INIT);
    } else {
      var before := run[..|run| - 1];
      assert forall i :: 0 <= i < |before| - 1 ==> Transition(run[i], run[i + 1]);
      RunKeeps(before);
      assert Transition(run[|run| - 2], run[|run| - 1]);
      var a :| Enabled(Last(before), a) && Last(run) == Step(Last(before), a);
      StepKeeps(Last(before), a);
    }
  }

  /** A run up to one of its states is a run. */
  lemma RunUpTo(run: seq<State>, n: nat)
    requires IsRun(run) && n < |run|
    ensures IsRun(run[..n + 1]) && Last(run[..n + 1]) == run[n] && Inv(run[n])
  {
    hide Transition, Inv;
    var upTo := run[..n + 1];
    forall i | 0 <= i < |upTo| - 1 ensures Transition(upTo[i], upTo[i + 1]) {
      assert Transition(run[i], run[i + 1]);
    }
    RunKeeps(upTo);
  }
}
