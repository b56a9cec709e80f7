/** The reading side: binding.Rows, and what driver.Rows.Next makes of its end. */
module GoRows {
  import opened QueryStream

  /** The fields of binding.Rows; `pending` is the rows left in the current batch. */
  datatype Cursor = Cursor(pending: seq<Row>, eof: bool, aborted: bool, closed: bool)

  datatype Pulled = GotBatch | GotEof | GotError

  /** What Rows.pull does with a frame. */
  function Accept(c: Cursor, f: Frame): (Cursor, Pulled) {
    match f
    case ERROR => (c.(eof := true), GotError)
    case ABORTED => (c.(eof := true, aborted := true), GotEof)
    case ROWS(_, eof, rows) => (c.(pending := rows, eof := c.eof || eof), GotBatch)
  }

  /** What Rows.Next does before it has to pull. */
  datatype Move = Give(row: Row, rest: Cursor) | AtEnd | MustPull

  function Advance(c: Cursor): Move {
    if c.closed then AtEnd
    else if c.pending != [] then Give(c.pending[0], c.(pending := c.pending[1..]))
    else if c.eof then AtEnd
    else MustPull
  }

  datatype Outcome = Eof | CtxErr | OtherErr

  /** driver.Rows.Next at the end of the stream. */
  function Ending(c: Cursor, ctxDone: bool): Outcome {
    if c.aborted && ctxDone then CtxErr else Eof
  }

  /** The result of one Rows.Next, and how much it used: `Blocked` is a pull that no frame
      came for. */
  datatype NextResult = RowRead(row: Row) | StreamEnd | StreamError | Blocked
  datatype NextOut = NextOut(cursor: Cursor, result: NextResult, pulled: nat, credits: nat)

  /** Rows.Next when the route is about to yield the frames `feed`. */
  function Next(c: Cursor, feed: seq<Frame>): NextOut
    decreases |feed|
  {
    match Advance(c)
    case Give(row, rest) => NextOut(rest, RowRead(row), 0, 0)
    case AtEnd => NextOut(c, StreamEnd, 0, 0)
    case MustPull =>
      if feed == [] then NextOut(c, Blocked, 0, 1)
      else
        var (c', got) := Accept(c, feed[0]);
        match got
        case GotEof => NextOut(c', StreamEnd, 1, 1)
        case GotError => NextOut(c', StreamError, 1, 1)
        case GotBatch =>
          var out := Next(c', feed[1..]);
          out.(pulled := out.pulled + 1, credits := out.credits + 1)
  }

  /** Rows.Next grants one credit for every frame it pulls and one more only when it is left
      waiting; a row it returns is the first one still unread. */
  lemma {:induction false} NextAccounts(c: Cursor, feed: seq<Frame>)
    requires !c.closed
    ensures var out := Next(c, feed);
            && out.pulled <= |feed|
            && out.credits == out.pulled + (if out.result.Blocked? then 1 else 0)
            && (out.result.RowRead? ==>
                  c.pending + Payloads(feed[..out.pulled]) == [out.result.row] + out.cursor.pending)
            && (!out.result.RowRead? ==> c.pending + Payloads(feed[..out.pulled]) == [])
            && (out.result.Blocked? ==> out.pulled == |feed|)
    decreases |feed|
  {
    var out := Next(c, feed);
    if c.pending == [] && !c.eof && feed != [] {
      var (c', got) := Accept(c, feed[0]);
      if got.GotBatch? {
        NextAccounts(c', feed[1..]);
        PayloadsFirst(feed, out.pulled);
      } else {
        assert feed[..1] == [feed[0]];
        assert [feed[0]][..0] == [];
      }
    } else {
      assert feed[..0] == [];
    }
  }

  /** An EOF batch without rows: the only frame but ABORTED that ends a stream on the spot. */
  predicate EmptyEof(f: Frame) { f.ROWS? && f.eof && f.rows == [] }

  /** One pull of Next, when there is a frame for it. */
  lemma NextPulls(c: Cursor, feed: seq<Frame>)
    requires !c.closed && c.pending == [] && !c.eof && feed != []
    ensures var out := Next(c, feed);
            match feed[0]
            case ERROR => out.pulled == 1 && out.result.StreamError?
            case ABORTED => out.pulled == 1 && out.result.StreamEnd?
            case ROWS(_, eof, rows) =>
              var rest := Next(c.(pending := rows, eof := eof), feed[1..]);
              && out.pulled == rest.pulled + 1 && out.result == rest.result && out.cursor == rest.cursor
              && (rest.pulled == 0 && rest.result.StreamEnd? <==> EmptyEof(feed[0]))
              && (rest.pulled == 0 ==> !rest.result.StreamError?)
  {}

  /** What ends a Next: an ERROR frame, and nothing else, is an error; the end is one seen before, an
      ABORTED frame, or an EOF batch without rows. */
  lemma {:induction false} NextEnds(c: Cursor, feed: seq<Frame>)
    requires !c.closed
    ensures var out := Next(c, feed);
            && out.pulled <= |feed|
            && (out.result.StreamError? <==> 0 < out.pulled && feed[out.pulled - 1] == ERROR)
            && (out.result.StreamEnd? <==>
                  if out.pulled == 0 then c.pending == [] && c.eof
                  else feed[out.pulled - 1] == ABORTED || EmptyEof(feed[out.pulled - 1]))
    decreases |feed|
  {
    var out := Next(c, feed);
    NextAccounts(c, feed);
    if c.pending == [] && !c.eof && feed != [] {
      NextPulls(c, feed);
      hide Next, EmptyEof;
      if feed[0].ROWS? {
        var c' := c.(pending := feed[0].rows, eof := feed[0].eof);
        NextEnds(c', feed[1..]);
        assert out.pulled > 1 ==> feed[1..][out.pulled - 2] == feed[out.pulled - 1];
      }
    }
  }

  /** A closed reader is at its end, whatever it has and whatever comes. */
  lemma ClosedIsAtEnd(c: Cursor, feed: seq<Frame>)
    requires c.closed
    ensures Next(c, feed) == NextOut(c, StreamEnd, 0, 0)
  {}

  lemma {:induction false} PayloadsFirst(fs: seq<Frame>, n: nat)
    requires 0 < n <= |fs|
    ensures Payloads(fs[..n]) == fs[0].Payload() + Payloads(fs[1..][..n - 1])
  {
    if n == 1 {
      assert fs[..1] == [fs[0]] && [fs[0]][..0] == [] && fs[1..][..0] == [];
    } else {
      PayloadsFirst(fs, n - 1);
      assert fs[..n][..n - 1] == fs[..n - 1];
      assert fs[1..][..n - 1][..n - 2] == fs[1..][..n - 2];
    }
  }

  class Rows {
    var pending: seq<Row>
    var eof: bool
    var aborted: bool
    var closed: bool

    function State(): Cursor
      reads this
    {
      Cursor(pending, eof, aborted, closed)
    }

    constructor ()
      ensures State() == Cursor([], false, false, false)
    {
      pending, eof, aborted, closed := [], false, false, false;
    }

    method Pull(f: Frame) returns (got: Pulled)
      modifies this
      ensures (State(), got) == Accept(old(State()), f)
    {
      match f
      case ERROR =>
        eof := true;
        got := GotError;
      case ABORTED =>
        eof, aborted := true, true;
        got := GotEof;
      case ROWS(_, last, rows) =>
        pending := rows;
        if last { eof := true; }
        got := GotBatch;
    }

    method NextRow(feed: seq<Frame>) returns (result: NextResult, pulled: nat, credits: nat)
      modifies this
      ensures NextOut(State(), result, pulled, credits) == Next(old(State()), feed)
    {
      pulled, credits := 0, 0;
      if closed { return StreamEnd, 0, 0; }
      ghost var goal := Next(State(), feed);
      while pending == []
        invariant !closed && pulled <= |feed| && credits == pulled
        invariant var out := Next(State(), feed[pulled..]);
                  goal == out.(pulled := out.pulled + pulled, credits := out.credits + credits)
        decreases |feed| - pulled
      {
        if eof { return StreamEnd, pulled, credits; }
        credits := credits + 1;
        if pulled == |feed| { return Blocked, pulled, credits; }
        assert feed[pulled..][1..] == feed[pulled + 1..];
        var got := Pull(feed[pulled]);
        pulled := pulled + 1;
        if got.GotEof? { return StreamEnd, pulled, credits; }
        if got.GotError? { return StreamError, pulled, credits; }
      }
      result := RowRead(pending[0]);
      pending := pending[1..];
    }

    /** Rows.Close; an ABORT is posted unless the stream has already ended. */
    method Close() returns (abort: bool)
      modifies this
      ensures State() == old(State()).(closed := true)
      ensures abort == (!old(closed) && !old(eof))
    {
      abort := !closed && !eof;
      closed := true;
    }
  }
}
