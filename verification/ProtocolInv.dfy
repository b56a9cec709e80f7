/** The invariant of Protocol, and the proof that every step keeps it. */
module ProtocolInv {
  import opened Wrappers
  import opened QueryStream
  import opened GoRows
  import opened Protocol

  // ---- One request's share of a channel --------------------------------------

  function Up(cs: seq<Command>, id: Id): seq<Command> {
    if cs == [] then [] else (if cs[0].id == id then [cs[0]] else []) + Up(cs[1..], id)
  }

  function Down(rs: seq<Reply>, id: Id): seq<Frame> {
    if rs == [] then [] else (if rs[0].id == id then [rs[0].frame] else []) + Down(rs[1..], id)
  }

  lemma {:induction false} UpAppend(cs: seq<Command>, c: Command, id: Id)
    ensures Up(cs + [c], id) == Up(cs, id) + (if c.id == id then [c] else [])
  {
    if cs == [] {
      assert cs + [c] == [c] && [c][1..] == [];
    } else {
      assert (cs + [c])[1..] == cs[1..] + [c];
      UpAppend(cs[1..], c, id);
      var mine := if cs[0].id == id then [cs[0]] else [];
      var more := if c.id == id then [c] else [];
      assert mine + (Up(cs[1..], id) + more) == (mine + Up(cs[1..], id)) + more;
    }
  }

  lemma {:induction false} DownAppend(rs: seq<Reply>, r: Reply, id: Id)
    ensures Down(rs + [r], id) == Down(rs, id) + (if r.id == id then [r.frame] else [])
  {
    if rs == [] {
      assert rs + [r] == [r] && [r][1..] == [];
    } else {
      assert (rs + [r])[1..] == rs[1..] + [r];
      DownAppend(rs[1..], r, id);
      var mine := if rs[0].id == id then [rs[0].frame] else [];
      var more := if r.id == id then [r.frame] else [];
      assert mine + (Down(rs[1..], id) + more) == (mine + Down(rs[1..], id)) + more;
    }
  }

  lemma {:induction false} UpFinds(cs: seq<Command>, id: Id, c: Command)
    requires c in Up(cs, id)
    ensures c in cs
  {
    if cs != [] && !(cs[0].id == id && cs[0] == c) { UpFinds(cs[1..], id, c); }
  }

  lemma {:induction false} UpHas(cs: seq<Command>, id: Id, c: Command)
    requires c in cs && c.id == id
    ensures c in Up(cs, id)
  {
    if cs[0] != c { UpHas(cs[1..], id, c); }
  }

  function Repeat(c: Command, n: nat): seq<Command> { if n == 0 then [] else [c] + Repeat(c, n - 1) }

  lemma {:induction false} RepeatMore(c: Command, n: nat)
    ensures Repeat(c, n) + [c] == Repeat(c, n + 1)
  {
    if n > 0 {
      RepeatMore(c, n - 1);
      assert [c] + Repeat(c, n - 1) + [c] == [c] + (Repeat(c, n - 1) + [c]);
    }
  }

  /** The commands for one request always reach the worker in this order. */
  function Expected(id: Id, query: bool, credits: nat, abort: bool): seq<Command> {
    (if query then [QUERY(id)] else []) + Repeat(CREDIT(id), credits) + (if abort then [ABORT(id)] else [])
  }

  lemma ExpectedTail(id: Id, query: bool, credits: nat, abort: bool)
    requires Expected(id, query, credits, abort) != []
    ensures var e := Expected(id, query, credits, abort);
            if query then e[0] == QUERY(id) && e[1..] == Expected(id, false, credits, abort)
            else if credits > 0 then e[0] == CREDIT(id) && e[1..] == Expected(id, false, credits - 1, abort)
            else abort && e[0] == ABORT(id) && e[1..] == Expected(id, false, 0, false)
  {}

  lemma ExpectedCredit(id: Id, query: bool, credits: nat)
    ensures Expected(id, query, credits, false) + [CREDIT(id)] == Expected(id, query, credits + 1, false)
  {
    RepeatMore(CREDIT(id), credits);
    var q := if query then [QUERY(id)] else [];
    assert q + Repeat(CREDIT(id), credits) + [CREDIT(id)] == q + (Repeat(CREDIT(id), credits) + [CREDIT(id)]);
  }

  lemma ExpectedAbort(id: Id, query: bool, credits: nat)
    ensures Expected(id, query, credits, false) + [ABORT(id)] == Expected(id, query, credits, true)
  {}

  // ---- The invariant -----------------------------------------------------------

  /** Everything a finished request has sent. */
  predicate SentWhole(script: Script, sent: seq<Frame>) {
    && sent != []
    && AllGood(script, sent[..|sent| - 1])
    && GoodTerminal(script, sent[..|sent| - 1], sent[|sent| - 1])
  }

  predicate EndsWith(fs: seq<Frame>, f: Frame) { fs != [] && fs[|fs| - 1] == f }

  predicate UpInv(q: Request, id: Id, up: seq<Command>) {
    && up == Expected(id, q.job.InTransit?, q.creditsUp, q.abortUp)
    && (q.job.InTransit? || q.job.Queued? ==> q.creditsUp == 0 && q.received == 0 && q.sent == [])
    && (!q.job.Finished? ==> q.granted == q.received + q.creditsUp)
    && q.received <= q.granted
    && (q.abortUp ==> q.phase.Closed? && !q.remembered)
    && (!q.phase.Closed? ==> !q.remembered)
    && (q.remembered ==> q.creditsUp == 0)
  }

  predicate RouteInv(q: Request, down: seq<Frame>, dead: bool) {
    && (q.route.Live? ==> q.sent == q.taken + q.queue + down)
    && (q.route.Live? ==> !dead)
    && (q.route.Failed? ==> q.taken + q.queue <= q.sent && dead)
    && q.taken <= q.sent
    && (q.outcome == Some(OtherErr) ==> EndsWith(q.taken, ERROR) || dead)
    && (q.route.Gone? <==> q.phase.Closed?)
    && (q.route.Gone? ==> q.queue == [])
  }

  predicate JobInv(q: Request) {
    match q.job
    case InTransit => true
    case Queued => true
    case Running(st) =>
      && StreamInv(q.script, q.sent, q.received, st)
      && (st.aborted ==> q.phase.Closed?)
      && (st.wait.Ready? && st.rc == SQLITE_INTERRUPT ==> q.ctxDone)
    case Finished =>
      && SentWhole(q.script, q.sent)
      && |q.sent| <= CREDIT_WINDOW + q.received + 1
      && (EndsWith(q.sent, ABORTED) ==> q.phase.Closed? || q.ctxDone)
  }

  predicate GoInv(q: Request) {
    && Payloads(q.taken) == q.delivered + q.cursor.pending
    && (q.cursor.eof <==> q.taken != [] && q.taken[|q.taken| - 1].Terminal())
    && (q.cursor.aborted <==> EndsWith(q.taken, ABORTED))
    && (q.cursor.eof ==> q.job.Finished?)
    && (q.cursor.closed <==> q.phase.Closed?)
    && (match q.phase
        case Opening => q.taken == [] && q.granted == 0 && q.failedPulls == 0 && q.outcome.None?
        case Idle => q.taken != [] && q.granted + 1 == |q.taken| + q.failedPulls
        case Pulling =>
          q.taken != [] && q.granted == |q.taken| + q.failedPulls && q.cursor.pending == [] && !q.cursor.eof
        case Closed => q.granted <= |q.taken| + q.failedPulls)
    && (q.outcome == Some(Eof) ==>
          q.taken != [] && q.taken[|q.taken| - 1].ROWS? && q.cursor.eof && q.cursor.pending == [])
    && (EndsWith(q.taken, ERROR) ==> q.outcome.Some? || q.phase.Closed?)
    && (q.outcome == Some(CtxErr) ==> q.ctxDone)
    && (EndsWith(q.taken, ABORTED) ==> q.outcome == Some(CtxErr) || q.phase.Closed?)
    && (q.outcome == Some(OtherErr) ==>
          q.phase.Closed? || EndsWith(q.taken, ERROR) || (q.route.Failed? && q.queue == []))
  }

  /** An abort waits in the early set, with fewer entries after it than aborts remembered since;
      or enough were remembered to push it out. */
  predicate Waits(early: seq<Id>, remembered: nat, id: Id, mark: nat) {
    && mark <= remembered
    && (remembered - mark >= MAX_EARLY_ABORTS ||
        exists i :: 0 <= i < |early| && early[i] == id && |early| - 1 - i <= remembered - mark)
  }

  predicate AbortInv(q: Request, id: Id, early: seq<Id>, remembered: nat) {
    && (q.phase.Closed? && !q.cursor.eof ==>
          || q.abortUp
          || q.job.Finished?
          || (q.job.Queued? && q.remembered)
          || (q.job.Running? && (q.job.st.aborted ||
                                 (q.remembered && q.startMark - q.mark >= MAX_EARLY_ABORTS))))
    && (q.job.Queued? && q.remembered ==> Waits(early, remembered, id, q.mark))
  }

  predicate ReqInv(s: State, id: Id, q: Request) {
    && UpInv(q, id, Up(s.toWorker, id))
    && RouteInv(q, Down(s.toGo, id), s.dead)
    && JobInv(q)
    && GoInv(q)
    && AbortInv(q, id, s.early, s.remembered)
  }

  /** A request, streaming or not, whose context has ended. */
  predicate Ended(s: State, v: Id) {
    (v in s.others && s.others[v].ctxDone) || (v in s.reqs && s.reqs[v].ctxDone)
  }

  /** A stored word names a request whose context has ended. */
  predicate WordInv(s: State) {
    forall k :: k in s.word && s.word[k] != 0 ==>
      exists v :: 0 < v < ID_LIMIT && ToInt32(v) == s.word[k] && Ended(s, v)
  }

  predicate ShapeInv(s: State) {
    && 1 <= s.nextId <= ID_LIMIT
    && (forall id :: id in s.reqs ==> 0 < id < s.nextId && id !in s.others)
    && (forall id :: id in s.others ==> 0 < id < s.nextId && (s.others[id].interrupted ==> s.others[id].ctxDone))
    && (forall c :: c in s.toWorker ==> c.id in s.reqs)
    && (forall r :: r in s.toGo ==> r.id in s.reqs)
    && |s.early| <= MAX_EARLY_ABORTS
    && (forall id :: id in s.early ==> id in s.reqs && s.reqs[id].remembered)
  }

  predicate Inv(s: State) {
    && ShapeInv(s)
    && WordInv(s)
    && (forall id :: id in s.reqs ==> ReqInv(s, id, s.reqs[id]))
  }

  // ---- The cancellation word -----------------------------------------------------

  /** The progress handler fires for a running request only if its own context has ended. */
  lemma HandlerHitsOnlyEnded(s: State, slot: nat, id: Id)
    requires ShapeInv(s) && WordInv(s) && HandlerFires(s, slot, id)
    ensures id in s.reqs ==> s.reqs[id].ctxDone
    ensures id in s.others ==> s.others[id].ctxDone
  {
    if 0 < id < ID_LIMIT {
      var v :| 0 < v < ID_LIMIT && ToInt32(v) == s.word[slot] && Ended(s, v);
      assert v == id;
    }
  }

  /** More requests, and more ended contexts, only make stored words harmless more often. */
  lemma WordGrows(s: State, t: State)
    requires WordInv(s) && t.word == s.word
    requires forall v :: Ended(s, v) ==> Ended(t, v)
    ensures WordInv(t)
  {
    hide Ended;
    forall k | k in t.word && t.word[k] != 0
      ensures exists v :: 0 < v < ID_LIMIT && ToInt32(v) == t.word[k] && Ended(t, v)
    {
      var v :| 0 < v < ID_LIMIT && ToInt32(v) == s.word[k] && Ended(s, v);
      assert Ended(t, v);
    }
  }

  // ---- Steps that change one request --------------------------------------------

  /** What a step that is about request `id` leaves of the others. */
  predicate OnlyAbout(s: State, t: State, id: Id) {
    && s.others == t.others && s.nextId == t.nextId && s.word == t.word && s.dead == t.dead
    && t.reqs.Keys == s.reqs.Keys && id in s.reqs
    && (forall k :: k in s.reqs && k != id ==>
          && t.reqs[k] == s.reqs[k]
          && Up(t.toWorker, k) == Up(s.toWorker, k)
          && Down(t.toGo, k) == Down(s.toGo, k))
    && (s.reqs[id].ctxDone ==> t.reqs[id].ctxDone)
    && (s.reqs[id].remembered ==> t.reqs[id].remembered)
    && (forall c :: c in t.toWorker ==> c in s.toWorker || c.id == id)
    && (forall r :: r in t.toGo ==> r in s.toGo || r.id == id)
  }

  predicate SameEarly(s: State, t: State) { t.early == s.early && t.remembered == s.remembered }

  lemma WordKept(s: State, t: State, id: Id)
    requires WordInv(s) && OnlyAbout(s, t, id)
    ensures WordInv(t)
  {
    forall v | Ended(s, v) ensures Ended(t, v) {}
    WordGrows(s, t);
  }

  /** Such a step keeps the invariant if it keeps this request's part of it. */
  lemma OneKept(s: State, t: State, id: Id)
    requires Inv(s) && OnlyAbout(s, t, id) && SameEarly(s, t)
    requires ReqInv(t, id, t.reqs[id])
    ensures Inv(t)
  {
    hide UpInv, RouteInv, JobInv, GoInv, AbortInv, WordInv, Up, Down;
    WordKept(s, t, id);
    forall k | k in t.reqs
      ensures ReqInv(t, k, t.reqs[k])
    {
      if k != id { assert ReqInv(s, k, s.reqs[k]); }
    }
  }

  lemma PutAbout(s: State, id: Id, q: Request)
    requires id in s.reqs
    requires (s.reqs[id].ctxDone ==> q.ctxDone) && (s.reqs[id].remembered ==> q.remembered)
    ensures OnlyAbout(s, Put(s, id, q), id)
  {}

  lemma SayAbout(s: State, id: Id, q: Request, c: Command)
    requires id in s.reqs && c.id == id
    requires (s.reqs[id].ctxDone ==> q.ctxDone) && (s.reqs[id].remembered ==> q.remembered)
    ensures OnlyAbout(s, Say(Put(s, id, q), c), id)
    ensures Up(Say(s, c).toWorker, id) == Up(s.toWorker, id) + [c]
  {
    forall k | k in s.reqs
      ensures Up(s.toWorker + [c], k) == Up(s.toWorker, k) + (if c.id == k then [c] else [])
    {
      UpAppend(s.toWorker, c, k);
    }
  }

  // ---- Reading -------------------------------------------------------------------

  lemma TakenPrefix(script: Script, sent: seq<Frame>, taken: seq<Frame>)
    requires SentWhole(script, sent) && taken <= sent && taken != []
    ensures !taken[|taken| - 1].Terminal() ==> AllGood(script, taken)
    ensures taken[|taken| - 1].Terminal() ==> taken == sent
  {
    if |taken| < |sent| {
      assert taken[|taken| - 1] == sent[..|sent| - 1][|taken| - 1];
      assert GoodBatch(script, |taken| - 1, sent[..|sent| - 1][|taken| - 1]);
      assert taken == sent[..|sent| - 1][..|taken|];
    } else {
      assert taken == sent;
    }
  }

  /** A frame that has arrived: terminal exactly when the worker has finished with it. */
  lemma ArrivedFrame(q: Request, f: Frame)
    requires JobInv(q) && q.taken + [f] <= q.sent
    requires q.job.InTransit? || q.job.Queued? ==> q.sent == []
    ensures f.Terminal() ==> q.job.Finished? && q.taken + [f] == q.sent
    ensures !f.Terminal() ==> f.ROWS? && f.rows != []
    ensures f.ROWS? ==> f.hasColumns == (q.taken == [])
  {
    var i := |q.taken|;
    assert q.sent[i] == f;
    match q.job
    case Running(st) =>
      assert GoodBatch(q.script, i, q.sent[i]);
    case Finished =>
      TakenPrefix(q.script, q.sent, q.taken + [f]);
      if !f.Terminal() {
        assert GoodBatch(q.script, i, (q.taken + [f])[i]);
      } else {
        assert q.taken == q.sent[..|q.sent| - 1];
      }
    case _ =>
  }

  lemma OneOfThree(o: Outcome)
    ensures o == Eof || o == CtxErr || o == OtherErr
  {}

  /** A pull that will find a frame comes before any outcome but ctx.Err(). */
  lemma StillSilent(q: Request)
    requires GoInv(q) && q.phase.Pulling? && q.queue != []
    ensures q.outcome.None? || q.outcome == Some(CtxErr)
  {
    hide Payloads;
    if q.outcome.Some? { OneOfThree(q.outcome.value); }
  }

  lemma HeadOfQueue(q: Request, down: seq<Frame>, dead: bool)
    requires RouteInv(q, down, dead) && q.queue != [] && !q.route.Gone? && q.outcome != Some(OtherErr)
    ensures q.taken + [q.queue[0]] <= q.sent
    ensures RouteInv(TakeFrame(q), down, dead)
  {
    var f := q.queue[0];
    assert q.queue == [f] + q.queue[1..];
    assert q.taken + q.queue == (q.taken + [f]) + q.queue[1..];
    if q.route.Live? {
      assert q.taken + q.queue + down == (q.taken + [f]) + q.queue[1..] + down;
    }
  }

  /** The reader's part after it has accepted the frame at the head of its queue; `granted`
      has been counted for it unless this is the first. */
  predicate Accepted(q: Request) {
    && Payloads(q.taken) == q.delivered + q.cursor.pending
    && (q.cursor.eof <==> q.taken != [] && q.taken[|q.taken| - 1].Terminal())
    && (q.cursor.aborted <==> EndsWith(q.taken, ABORTED))
    && (q.cursor.eof ==> q.job.Finished?)
    && q.taken != [] && q.granted + 1 == |q.taken| + q.failedPulls
    && !q.cursor.closed
  }

  lemma NothingUnread(q: Request)
    requires GoInv(q) && (q.phase.Opening? || q.phase.Pulling?)
    ensures q.cursor.pending == [] && q.delivered == Payloads(q.taken) && !q.cursor.eof && !q.cursor.aborted
  {}

  lemma AcceptKeeps(q: Request, down: seq<Frame>, dead: bool)
    requires JobInv(q) && GoInv(q) && RouteInv(q, down, dead)
    requires q.job.InTransit? || q.job.Queued? ==> q.sent == []
    requires q.queue != [] && (q.phase.Opening? || q.phase.Pulling?)
    ensures var c := Accept(q.cursor, q.queue[0]).0;
            Accepted(TakeFrame(q).(cursor := c))
    ensures RouteInv(TakeFrame(q), down, dead)
    ensures q.queue[0].ROWS? ==> q.queue[0].hasColumns == (q.taken == [])
    ensures q.queue[0].ROWS? && !q.queue[0].eof ==> q.queue[0].rows != []
  {
    var f := q.queue[0];
    if q.phase.Pulling? { StillSilent(q); }
    HeadOfQueue(q, down, dead);
    ArrivedFrame(q, f);
    NothingUnread(q);
    PayloadsAppend(q.taken, f);
    assert (q.taken + [f])[|q.taken|] == f;
    match f
    case ROWS(_, _, rows) => assert q.delivered + rows == Payloads(q.taken + [f]);
    case _ => assert q.delivered + [] == Payloads(q.taken + [f]);
  }
}
