/** One streaming query on the database worker: the row loop of runQuery, cut at its
    awaits.  SQLite is an abstract sequence of rows with an end; an interrupt may
    replace the result of any sqlite3_step. */
module QueryStream {
  import opened Wrappers

  const CREDIT_WINDOW := 4
  const MAX_BATCH_BYTES := 256 * 1024
  const LAST_STAGE := 4

  /** A row as encodeRow writes it: its bytes. */
  type Row = seq<int>

  datatype End = EndDone | EndError

  /** What stepping a statement to its end yields. `columns` is the size of the
      encoded column list. */
  datatype Script = Script(columns: nat, rows: seq<Row>, end: End)

  datatype Frame = ROWS(hasColumns: bool, eof: bool, rows: seq<Row>) | ABORTED | ERROR
  {
    /** The frames that carry the EOF flag. */
    predicate Terminal() { !ROWS? || eof }

    function Payload(): seq<Row> { if ROWS? then rows else [] }
  }

  datatype Code = SQLITE_ROW | SQLITE_DONE | SQLITE_INTERRUPT | SQLITE_OTHER

  /** Ready is the head of the row loop; Parked awaits a credit; Yielding awaits a macrotask. */
  datatype Wait = Ready | Parked | Yielding

  datatype Stream = Stream(
    credit: int, aborted: bool, wait: Wait,
    pos: nat, rc: Code,
    batch: seq<Row>, bytes: nat, stage: nat, firstBatch: bool)

  /** What one turn of the row loop does: go on, having posted some frames, or return,
      having posted the last one. */
  datatype Turn = More(next: Stream, post: seq<Frame>) | Over(last: Frame)

  function SqliteStep(s: Script, pos: nat, interrupt: bool): Code {
    if interrupt then SQLITE_INTERRUPT
    else if pos < |s.rows| then SQLITE_ROW
    else if s.end.EndDone? then SQLITE_DONE
    else SQLITE_OTHER
  }

  /** BATCH_ROW_TARGETS, by stage. */
  function RowTarget(stage: nat): nat {
    if stage == 0 then 1 else if stage == 1 then 8 else if stage == 2 then 64
    else if stage == 3 then 512 else 1024
  }

  function Bytes(rows: seq<Row>): nat {
    if rows == [] then 0 else Bytes(rows[..|rows| - 1]) + |rows[|rows| - 1]|
  }

  /** batch.length once `rows` have been encoded. */
  function BatchLength(s: Script, first: bool, rows: seq<Row>): nat {
    HEADER_SIZE + (if first then s.columns else 0) + 4 + Bytes(rows)
  }

  predicate Full(stage: nat, rows: nat, bytes: nat) {
    rows >= RowTarget(stage) || bytes >= MAX_BATCH_BYTES
  }

  /** What the loop relies on at its head: `rc` describes the row at `pos`. */
  predicate Coherent(s: Script, st: Stream) {
    && st.stage <= LAST_STAGE
    && st.pos <= |s.rows|
    && (st.wait.Ready? ==>
          && (st.rc == SQLITE_ROW ==> st.pos < |s.rows|)
          && (st.rc == SQLITE_DONE ==> st.pos == |s.rows| && s.end.EndDone?)
          && (st.rc == SQLITE_OTHER ==> st.pos == |s.rows| && s.end.EndError?))
  }

  /** runQuery up to the head of its loop. */
  function Begin(s: Script, earlyAbort: bool, interrupt: bool): (st: Stream) {
    Stream(CREDIT_WINDOW, earlyAbort, Ready, 0, SqliteStep(s, 0, interrupt),
           [], BatchLength(s, true, []), 0, true)
  }

  function Encode(s: Script, st: Stream): (st': Stream)
    requires Coherent(s, st) && st.wait.Ready? && st.rc == SQLITE_ROW
  {
    st.(batch := st.batch + [s.rows[st.pos]], bytes := st.bytes + |s.rows[st.pos]|, pos := st.pos + 1)
  }

  /** After a batch has been posted: a credit is spent, and the last one parks the loop. */
  function Flushed(st: Stream): Stream {
    st.(credit := st.credit - 1, firstBatch := false,
        wait := if st.credit - 1 <= 0 && !st.aborted then Parked else Yielding)
  }

  /** One turn of the row loop; `interrupt` is what the progress handler does to the
      sqlite3_step the turn ends with. */
  function Iterate(s: Script, st: Stream, interrupt: bool): (t: Turn)
    requires Coherent(s, st) && st.wait.Ready?
    ensures t.More? ==> Coherent(s, t.next)
  {
    if st.aborted then Over(ABORTED)
    else match st.rc
      case SQLITE_ROW =>
        var enc := Encode(s, st);
        if Full(enc.stage, |enc.batch|, enc.bytes) then
          More(Flushed(enc), [ROWS(enc.firstBatch, false, enc.batch)])
        else
          More(enc.(rc := SqliteStep(s, enc.pos, interrupt)), [])
      case SQLITE_DONE => Over(ROWS(st.firstBatch, true, st.batch))
      case SQLITE_INTERRUPT => Over(ABORTED)
      case SQLITE_OTHER => Over(ERROR)
  }

  /** The loop from its head to the next await or to its return. */
  function RunUntilAwait(s: Script, st: Stream, interrupt: nat -> bool): (t: Turn)
    requires Coherent(s, st) && st.wait.Ready?
    ensures t.More? ==> Coherent(s, t.next)
    decreases |s.rows| - st.pos
  {
    var t := Iterate(s, st, interrupt(st.pos + 1));
    if t.More? && t.next.wait.Ready? then RunUntilAwait(s, t.next, interrupt) else t
  }

  /** After the macrotask: a fresh batch, and the step that had to wait for it. */
  function Resume(s: Script, st: Stream, interrupt: bool): (st': Stream)
    requires Coherent(s, st) && st.wait.Yielding?
    ensures Coherent(s, st')
  {
    st.(wait := Ready, stage := if st.stage < LAST_STAGE then st.stage + 1 else st.stage,
        batch := [], bytes := BatchLength(s, false, []), rc := SqliteStep(s, st.pos, interrupt))
  }

  function OnCredit(st: Stream, batches: nat): Stream {
    st.(credit := st.credit + batches, wait := if st.wait.Parked? then Yielding else st.wait)
  }

  function OnAbort(st: Stream): Stream {
    st.(aborted := true, wait := if st.wait.Parked? then Yielding else st.wait)
  }

  /** The locals of runQuery and the Stream object it registers, updated in place. */
  class QueryRun {
    const script: Script
    var credit: int
    var aborted: bool
    var wait: Wait
    var pos: nat
    var rc: Code
    var batch: seq<Row>
    var bytes: nat
    var stage: nat
    var firstBatch: bool

    function State(): Stream
      reads this
    {
      Stream(credit, aborted, wait, pos, rc, batch, bytes, stage, firstBatch)
    }

    constructor (script: Script, earlyAbort: bool, interrupt: bool)
      ensures this.script == script
      ensures State() == Begin(script, earlyAbort, interrupt)
      ensures Coherent(script, State())
    {
      this.script := script;
      credit, aborted, wait := CREDIT_WINDOW, earlyAbort, Ready;
      pos, rc := 0, SqliteStep(script, 0, interrupt);
      batch, bytes, stage, firstBatch := [], HEADER_SIZE + script.columns + 4, 0, true;
    }

    method Credit(batches: nat)
      modifies this
      ensures State() == OnCredit(old(State()), batches)
    {
      credit := credit + batches;
      if wait.Parked? { wait := Yielding; }
    }

    method Abort()
      modifies this
      ensures State() == OnAbort(old(State()))
    {
      aborted := true;
      if wait.Parked? { wait := Yielding; }
    }

    method ResumeAfterMacrotask(interrupt: bool)
      requires Coherent(script, State()) && wait.Yielding?
      modifies this
      ensures State() == Resume(script, old(State()), interrupt)
    {
      if stage < LAST_STAGE { stage := stage + 1; }
      batch, bytes := [], HEADER_SIZE + 4;
      rc, wait := SqliteStep(script, pos, interrupt), Ready;
    }

    /** encodeRow: true when the batch is then full. */
    method EncodeRow() returns (full: bool)
      requires Coherent(script, State()) && wait.Ready? && rc == SQLITE_ROW
      modifies this
      ensures State() == Encode(script, old(State()))
      ensures full == Full(stage, |batch|, bytes)
    {
      var row := script.rows[pos];
      batch, bytes, pos := batch + [row], bytes + |row|, pos + 1;
      full := |batch| >= RowTarget(stage) || bytes >= MAX_BATCH_BYTES;
    }

    /** flush(false) up to its await. */
    method Flush() returns (frame: Frame)
      modifies this
      ensures frame == ROWS(old(firstBatch), false, old(batch))
      ensures State() == Flushed(old(State()))
    {
      frame := ROWS(firstBatch, false, batch);
      firstBatch := false;
      credit := credit - 1;
      wait := if credit <= 0 && !aborted then Parked else Yielding;
    }

    /** The row loop, to its next await or its return; on return the stream is gone. */
    method Run(interrupt: nat -> bool) returns (post: seq<Frame>, over: bool)
      requires Coherent(script, State()) && wait.Ready?
      modifies this
      ensures var t := RunUntilAwait(script, old(State()), interrupt);
              over == t.Over? &&
              (if t.Over? then post == [t.last] else post == t.post && State() == t.next)
    {
      ghost var goal := RunUntilAwait(script, State(), interrupt);
      while !aborted && rc == SQLITE_ROW
        invariant Coherent(script, State()) && wait.Ready?
        invariant RunUntilAwait(script, State(), interrupt) == goal
        decreases |script.rows| - pos
      {
        var full := EncodeRow();
        if full {
          var frame := Flush();
          return [frame], false;
        }
        rc := SqliteStep(script, pos, interrupt(pos));
      }
      over := true;
      post := [if aborted then ABORTED
               else if rc == SQLITE_DONE then ROWS(firstBatch, true, batch)
               else if rc == SQLITE_INTERRUPT then ABORTED
               else ERROR];
    }
  }

  // ---- What the stream keeps ----------------------------------------------

  function Payloads(fs: seq<Frame>): seq<Row> {
    if fs == [] then [] else Payloads(fs[..|fs| - 1]) + fs[|fs| - 1].Payload()
  }

  lemma PayloadsAppend(fs: seq<Frame>, f: Frame)
    ensures Payloads(fs + [f]) == Payloads(fs) + f.Payload()
  {
    assert (fs + [f])[..|fs|] == fs;
  }

  lemma {:induction false} PayloadsPrefix(fs: seq<Frame>, n: nat)
    requires n <= |fs|
    ensures Payloads(fs[..n]) <= Payloads(fs)
  {
    if n < |fs| {
      PayloadsPrefix(fs[..|fs| - 1], n);
      assert fs[..|fs| - 1][..n] == fs[..n];
    } else {
      assert fs[..n] == fs;
    }
  }

  function StageOf(frame: nat): nat {
    if frame < LAST_STAGE then frame else LAST_STAGE
  }

  /** A non-terminal batch: at least one row, at most its stage's target, cut as soon as
      it was full and not before. */
  predicate CutExactlyWhenFull(s: Script, i: nat, rows: seq<Row>) {
    && 1 <= |rows| <= RowTarget(StageOf(i))
    && Full(StageOf(i), |rows|, BatchLength(s, i == 0, rows))
    && (|rows| == 1 || !Full(StageOf(i), |rows| - 1, BatchLength(s, i == 0, rows[..|rows| - 1])))
  }

  /** The i-th frame of a stream when more frames follow it. */
  predicate GoodBatch(s: Script, i: nat, f: Frame) {
    f.ROWS? && !f.eof && f.hasColumns == (i == 0) && CutExactlyWhenFull(s, i, f.rows)
  }

  predicate AllGood(s: Script, fs: seq<Frame>) {
    forall i :: 0 <= i < |fs| ==> GoodBatch(s, i, fs[i])
  }

  /** The last frame, after the non-terminal frames `before`. */
  predicate GoodTerminal(s: Script, before: seq<Frame>, f: Frame) {
    match f
    case ROWS(cols, eof, rows) =>
      eof && cols == (before == []) && Payloads(before) + rows == s.rows && s.end.EndDone?
      && |rows| < RowTarget(StageOf(|before|))
    case ABORTED => Payloads(before) <= s.rows
    case ERROR => Payloads(before) <= s.rows && s.end.EndError?
  }

  /** Rows encoded and not yet posted. */
  function Unsent(st: Stream): seq<Row> { if st.wait.Ready? then st.batch else [] }

  /** The invariant of a running stream that has posted `sent` and been granted `received`
      credits. */
  predicate StreamInv(s: Script, sent: seq<Frame>, received: nat, st: Stream) {
    && Coherent(s, st)
    && AllGood(s, sent)
    && Payloads(sent) + Unsent(st) == s.rows[..st.pos]
    && st.firstBatch == (sent == [])
    && (!st.wait.Ready? ==> sent != [])
    && st.stage == StageOf(if st.wait.Ready? then |sent| else |sent| - 1)
    && (st.wait.Ready? ==>
          && st.bytes == BatchLength(s, sent == [], st.batch)
          && (st.batch == [] || !Full(st.stage, |st.batch|, st.bytes)))
    && st.credit == CREDIT_WINDOW - |sent| + received
    && (if st.wait.Parked? then st.credit == 0 && !st.aborted else st.credit > 0 || st.aborted)
    && st.credit >= 0
  }

  lemma BytesAppend(rows: seq<Row>, r: Row)
    ensures Bytes(rows + [r]) == Bytes(rows) + |r|
  {
    assert (rows + [r])[..|rows|] == rows;
  }

  lemma BeginInv(s: Script, earlyAbort: bool, interrupt: bool)
    ensures StreamInv(s, [], 0, Begin(s, earlyAbort, interrupt))
  {
    assert s.rows[..0] == [];
  }

  lemma CreditedInv(s: Script, sent: seq<Frame>, received: nat, st: Stream, n: nat)
    requires StreamInv(s, sent, received, st) && n > 0
    ensures StreamInv(s, sent, received + n, OnCredit(st, n))
  {}

  lemma AbortedInv(s: Script, sent: seq<Frame>, received: nat, st: Stream)
    requires StreamInv(s, sent, received, st)
    ensures StreamInv(s, sent, received, OnAbort(st))
  {}

  lemma ResumeInv(s: Script, sent: seq<Frame>, received: nat, st: Stream, interrupt: bool)
    requires StreamInv(s, sent, received, st) && st.wait.Yielding?
    ensures StreamInv(s, sent, received, Resume(s, st, interrupt))
  {}

  lemma TakeOneMore(rows: seq<Row>, n: nat, a: seq<Row>, b: seq<Row>)
    requires n < |rows| && a + b == rows[..n]
    ensures a + (b + [rows[n]]) == rows[..n + 1]
  {
    assert rows[..n + 1] == rows[..n] + [rows[n]];
    assert a + (b + [rows[n]]) == (a + b) + [rows[n]];
  }

  /** A row added to a batch that was not full fills it exactly when it should be cut. */
  lemma CutWhenFilled(s: Script, i: nat, batch: seq<Row>, row: Row)
    requires batch == [] || !Full(StageOf(i), |batch|, BatchLength(s, i == 0, batch))
    ensures BatchLength(s, i == 0, batch + [row]) == BatchLength(s, i == 0, batch) + |row|
    ensures Full(StageOf(i), |batch| + 1, BatchLength(s, i == 0, batch) + |row|) ==>
              CutExactlyWhenFull(s, i, batch + [row])
  {
    BytesAppend(batch, row);
    assert (batch + [row])[..|batch|] == batch;
  }

  /** What encoding a row does, before anyone asks whether the batch is full. */
  lemma EncodeInv(s: Script, sent: seq<Frame>, received: nat, st: Stream)
    requires StreamInv(s, sent, received, st) && st.wait.Ready?
    requires !st.aborted && st.rc == SQLITE_ROW
    ensures var e := Encode(s, st);
            && Payloads(sent) + e.batch == s.rows[..e.pos]
            && e.bytes == BatchLength(s, sent == [], e.batch)
            && (Full(e.stage, |e.batch|, e.bytes) ==> CutExactlyWhenFull(s, |sent|, e.batch))
  {
    hide AllGood, CutExactlyWhenFull, Payloads, Full, BatchLength, RowTarget;
    CutWhenFilled(s, |sent|, st.batch, s.rows[st.pos]);
    TakeOneMore(s.rows, st.pos, Payloads(sent), st.batch);
  }

  /** A turn whose row fills the batch posts it. */
  lemma FlushInv(s: Script, sent: seq<Frame>, received: nat, st: Stream)
    requires StreamInv(s, sent, received, st) && st.wait.Ready?
    requires !st.aborted && st.rc == SQLITE_ROW
    requires var e := Encode(s, st); Full(e.stage, |e.batch|, e.bytes)
    ensures var e := Encode(s, st);
            StreamInv(s, sent + [ROWS(e.firstBatch, false, e.batch)], received, Flushed(e))
  {
    hide CutExactlyWhenFull, BatchLength, RowTarget;
    EncodeInv(s, sent, received, st);
    var e := Encode(s, st);
    PayloadsAppend(sent, ROWS(e.firstBatch, false, e.batch));
    assert s.rows[..e.pos] + [] == s.rows[..e.pos];
  }

  /** One turn keeps the invariant, or ends the stream with a frame that tells the truth:
      an EOF batch only when every row has been posted. */
  lemma IterateInv(s: Script, sent: seq<Frame>, received: nat, st: Stream, interrupt: bool)
    requires StreamInv(s, sent, received, st) && st.wait.Ready?
    ensures var t := Iterate(s, st, interrupt);
            if t.More? then StreamInv(s, sent + t.post, received, t.next)
            else GoodTerminal(s, sent, t.last)
  {
    hide AllGood, Payloads, BatchLength, CutExactlyWhenFull;
    var t := Iterate(s, st, interrupt);
    if t.More? {
      EncodeInv(s, sent, received, st);
      if t.post == [] {
        assert sent + t.post == sent;
      } else {
        FlushInv(s, sent, received, st);
      }
    } else {
      assert s.rows[..|s.rows|] == s.rows;
      assert Payloads(sent) <= s.rows[..st.pos];
    }
  }
}
