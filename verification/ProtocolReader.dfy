/** The reader of Protocol, which takes a frame a step, is the one of GoRows: a whole Rows.Next over the
    frames that are there. */
module ProtocolReader {
  import opened Wrappers
  import opened QueryStream
  import opened GoRows
  import opened Protocol
  import opened ProtocolInv

  function Do(s: State, actions: seq<Action>): Option<State>
    decreases |actions|
  {
    if actions == [] then Some(s)
    else if Enabled(s, actions[0]) then Do(Step(s, actions[0]), actions[1..])
    else None
  }

  function Pulls(id: Id, n: nat): seq<Action> { if n == 0 then [] else [PullNext(id)] + Pulls(id, n - 1) }

  /** What one Rows.Next leaves of its request. */
  predicate Leaves(q: Request, out: NextOut, r: Request) {
    && out.pulled <= |q.queue|
    && r.queue == q.queue[out.pulled..] && r.taken == q.taken + q.queue[..out.pulled]
    && r.cursor == out.cursor && r.granted == q.granted + out.credits
    && match out.result
       case RowRead(row) => r.phase.Idle? && r.delivered == q.delivered + [row] && r.outcome == q.outcome
       case Blocked => r.phase.Pulling? && r.delivered == q.delivered && r.outcome == q.outcome
       case StreamEnd =>
         && r.phase.Idle? && r.delivered == q.delivered
         && r.outcome == if q.outcome.Some? then q.outcome
                         else if out.cursor.aborted && q.ctxDone then Some(CtxErr) else Some(Eof)
       case StreamError =>
         && r.phase.Idle? && r.delivered == q.delivered
         && r.outcome == if q.outcome.Some? then q.outcome else if q.ctxDone then Some(CtxErr) else Some(OtherErr)
  }

  lemma PullIsStep(s: State, id: Id)
    requires id in s.reqs && s.reqs[id].phase.Pulling? && s.reqs[id].queue != []
    ensures Enabled(s, PullNext(id))
    ensures var q := TakeFrame(s.reqs[id]);
            var (c, got) := Accept(q.cursor, s.reqs[id].queue[0]);
            Step(s, PullNext(id)) ==
              match got
              case GotBatch => ReadOn(s, id, q.(cursor := c))
              case GotEof => Put(s, id, Settle(q.(cursor := c), Ending(c, q.ctxDone)).(phase := Idle))
              case GotError =>
                Put(s, id, Settle(q.(cursor := c), if q.ctxDone then CtxErr else OtherErr).(phase := Idle))
  {
    hide InTurn, HandlerFires, Coherent, ReadOn, Settle, Ending;
  }

  lemma OneMore(s: State, id: Id, n: nat)
    requires n > 0 && Enabled(s, PullNext(id))
    ensures Do(s, Pulls(id, n)) == Do(Step(s, PullNext(id)), Pulls(id, n - 1))
  {
    assert Pulls(id, n)[1..] == Pulls(id, n - 1);
    hide Enabled, Step;
  }

  lemma LeavesMore(q: Request, f: Frame, out: NextOut, rest: NextOut, r: Request)
    requires q.queue != [] && q.queue[0] == f
    requires Leaves(TakeFrame(q).(cursor := Accept(q.cursor, f).0, granted := q.granted + 1), rest, r)
    requires out == rest.(pulled := rest.pulled + 1, credits := rest.credits + 1)
    ensures Leaves(q, out, r)
  {
    assert q.queue == [f] + q.queue[1..];
    assert q.queue[..out.pulled] == [f] + q.queue[1..][..rest.pulled];
    assert q.taken + [f] + q.queue[1..][..rest.pulled] == q.taken + q.queue[..out.pulled];
    assert q.queue[1..][rest.pulled..] == q.queue[out.pulled..];
    hide Accept;
  }

  /** The state that one Rows.Next leaves, `s` being the state before it. */
  predicate ReadBy(s: State, id: Id, q: Request, out: NextOut, t: State) {
    && id in t.reqs && Leaves(q, out, t.reqs[id])
    && t == s.(reqs := s.reqs[id := t.reqs[id]], toWorker := s.toWorker + Repeat(CREDIT(id), out.credits))
  }

  /** Without a pull: a row that is there, or an end seen before. */
  lemma AtOnce(s: State, id: Id, q: Request)
    requires id in s.reqs && !q.cursor.closed && !Advance(q.cursor).MustPull?
    ensures ReadBy(s, id, q, Next(q.cursor, q.queue), ReadOn(s, id, q))
    ensures Next(q.cursor, q.queue).pulled == 0
  {
    assert q.queue[0..] == q.queue && q.taken + q.queue[..0] == q.taken;
    assert s.toWorker + Repeat(CREDIT(id), 0) == s.toWorker;
  }

  /** With one for which there is no frame yet. */
  lemma LeftWaiting(s: State, id: Id, q: Request)
    requires id in s.reqs && Advance(q.cursor).MustPull? && q.queue == []
    ensures ReadBy(s, id, q, Next(q.cursor, q.queue), ReadOn(s, id, q))
    ensures Next(q.cursor, q.queue).pulled == 0
  {
    assert q.queue[0..] == q.queue && q.taken + q.queue[..0] == q.taken;
    assert Repeat(CREDIT(id), 1) == [CREDIT(id)];
  }

  lemma PulledFirst(s: State, id: Id, q: Request)
    requires id in s.reqs && Advance(q.cursor).MustPull? && q.queue != []
    ensures var u := ReadOn(s, id, q);
            && id in u.reqs
            && u.reqs[id] == q.(phase := Pulling, granted := q.granted + 1, creditsUp := q.creditsUp + 1)
            && u == s.(reqs := s.reqs[id := u.reqs[id]], toWorker := s.toWorker + [CREDIT(id)])
  {}

  /** A pull that ends the stream, as its request sees it. */
  function Ended(q: Request): Request
    requires q.queue != []
  {
    var p := TakeFrame(q);
    var (c, got) := Accept(q.cursor, q.queue[0]);
    Settle(p.(cursor := c), if got.GotEof? then Ending(c, q.ctxDone) else if q.ctxDone then CtxErr else OtherErr).(
      phase := Idle)
  }

  lemma EndedLeaves(q: Request)
    requires Advance(q.cursor).MustPull? && q.queue != [] && !q.queue[0].ROWS?
    ensures var r := Ended(q.(phase := Pulling, granted := q.granted + 1, creditsUp := q.creditsUp + 1));
            Leaves(q, Next(q.cursor, q.queue), r)
    ensures Next(q.cursor, q.queue).pulled == Next(q.cursor, q.queue).credits == 1
  {
    assert q.queue[..1] == [q.queue[0]];
  }

  /** A frame that ends the stream. */
  lemma LastFrame(s: State, id: Id, q: Request)
    requires id in s.reqs && Advance(q.cursor).MustPull? && q.queue != [] && !q.queue[0].ROWS?
    ensures var u := ReadOn(s, id, q);
            Enabled(u, PullNext(id)) && ReadBy(s, id, q, Next(q.cursor, q.queue), Step(u, PullNext(id)))
    ensures Next(q.cursor, q.queue).pulled == 1
  {
    PulledFirst(s, id, q);
    EndedLeaves(q);
    hide ReadOn, Next, Leaves, Settle, Ending;
    var u := ReadOn(s, id, q);
    PullIsStep(u, id);
    hide Enabled, Step;
    assert Repeat(CREDIT(id), 1) == [CREDIT(id)];
    var r := Step(u, PullNext(id)).reqs[id];
    assert r == Ended(u.reqs[id]);
    assert s.reqs[id := u.reqs[id]][id := r] == s.reqs[id := r];
  }

  lemma MoreCredits(id: Id, up: seq<Command>, n: nat)
    ensures up + [CREDIT(id)] + Repeat(CREDIT(id), n) == up + Repeat(CREDIT(id), n + 1)
  {
    assert Repeat(CREDIT(id), n + 1) == [CREDIT(id)] + Repeat(CREDIT(id), n);
  }

  /** Reading on, pull by pull, comes out where Rows.Next over the same frames does. */
  lemma {:induction false} ReadsLikeNext(s: State, id: Id, q: Request)
    requires id in s.reqs && !q.cursor.closed
    ensures var out := Next(q.cursor, q.queue);
            var t := Do(ReadOn(s, id, q), Pulls(id, out.pulled));
            t.Some? && ReadBy(s, id, q, out, t.value)
    decreases |q.queue|
  {
    var out := Next(q.cursor, q.queue);
    if !Advance(q.cursor).MustPull? {
      AtOnce(s, id, q);
    } else if q.queue == [] {
      LeftWaiting(s, id, q);
    } else if !q.queue[0].ROWS? {
      LastFrame(s, id, q);
      OneMore(ReadOn(s, id, q), id, 1);
    } else {
      BatchThenOn(s, id, q);
    }
    hide ReadOn, Next, Leaves, ReadBy, Enabled, Step;
  }

  lemma BatchThenOn(s: State, id: Id, q: Request)
    requires id in s.reqs && !q.cursor.closed && Advance(q.cursor).MustPull? && q.queue != [] && q.queue[0].ROWS?
    ensures var out := Next(q.cursor, q.queue);
            var t := Do(ReadOn(s, id, q), Pulls(id, out.pulled));
            t.Some? && ReadBy(s, id, q, out, t.value)
    decreases |q.queue|, 0
  {
    var f := q.queue[0];
    var u := ReadOn(s, id, q);
    PulledFirst(s, id, q);
    PullIsStep(u, id);
    var q' := TakeFrame(u.reqs[id]).(cursor := Accept(q.cursor, f).0);
    var out, rest := Next(q.cursor, q.queue), Next(q'.cursor, q'.queue);
    assert out == rest.(pulled := rest.pulled + 1, credits := rest.credits + 1);
    assert Step(u, PullNext(id)) == ReadOn(u, id, q');
    hide ReadOn, Next, Enabled, Step, Accept, Leaves;
    ReadsLikeNext(u, id, q');
    OneMore(u, id, out.pulled);
    var t := Do(u, Pulls(id, out.pulled)).value;
    SameRest(q, f, rest, t.reqs[id], q');
    LeavesMore(q, f, out, rest, t.reqs[id]);
    MoreCredits(id, s.toWorker, rest.credits);
    assert s.reqs[id := u.reqs[id]][id := t.reqs[id]] == s.reqs[id := t.reqs[id]];
  }

  /** Leaves looks at the reader's part only. */
  lemma SameRest(q: Request, f: Frame, rest: NextOut, r: Request, q': Request)
    requires q.queue != [] && q.queue[0] == f && Leaves(q', rest, r)
    requires q' == TakeFrame(q.(phase := Pulling, granted := q.granted + 1, creditsUp := q.creditsUp + 1)).(
                     cursor := Accept(q.cursor, f).0)
    ensures Leaves(TakeFrame(q).(cursor := Accept(q.cursor, f).0, granted := q.granted + 1), rest, r)
  {
    hide Accept;
  }

  /** A call of driver.Rows.Next whose context is live: NextRow and then as many pulls as Next makes
      over the frames in the queue leave the reader as Next does, with as many credits granted. */
  lemma NextIsNext(s: State, id: Id)
    requires id in s.reqs && s.reqs[id].phase.Idle? && !s.reqs[id].ctxDone && !s.reqs[id].cursor.closed
    ensures var q := s.reqs[id];
            var out := Next(q.cursor, q.queue);
            var t := Do(s, [NextRow(id)] + Pulls(id, out.pulled));
            t.Some? && ReadBy(s, id, q, out, t.value)
  {
    var q := s.reqs[id];
    var n := Next(q.cursor, q.queue).pulled;
    assert Enabled(s, NextRow(id)) && Step(s, NextRow(id)) == ReadOn(s, id, q) by { hide ReadOn, InTurn, Coherent; }
    hide Enabled, Step, ReadOn, Next, ReadBy;
    ReadsLikeNext(s, id, q);
    assert ([NextRow(id)] + Pulls(id, n))[1..] == Pulls(id, n);
  }

  /** Once the context has ended Next hands out nothing: it says ctx.Err() and asks for no more. */
  lemma EndedGetsNothing(s: State, id: Id)
    requires id in s.reqs && s.reqs[id].phase.Idle? && s.reqs[id].ctxDone
    ensures Enabled(s, NextRow(id))
    ensures var q := s.reqs[id];
            var t := Step(s, NextRow(id));
            && t == s.(reqs := s.reqs[id := t.reqs[id]])
            && t.reqs[id] == q.(outcome := if q.outcome.Some? then q.outcome else Some(CtxErr))
  {
    hide ReadOn, InTurn, Coherent, HandlerFires;
  }
}
