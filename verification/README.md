# Verification of the worker protocol, the statement cache, timestamps and the codec

A Dafny project about the parts of this repository in which a mistake would be silent. A Go
driver in one Web Worker talks over two message channels to a database worker that owns SQLite.
`dafny verify dfyconfig.toml` checks everything.

- **The streaming protocol.** `Protocol` is one state machine of both workers and both channels:
  any number of streaming requests, their routes and readers, the credit window, aborts that
  overtake their own request, the memory of early aborts, contexts that end at any moment, a
  worker that dies, and the shared cancellation words. `QueryStream` is the row loop of `runQuery`
  cut at its awaits, `GoRows` the reader, `ProtocolInv`, `ProtocolSteps` and `ProtocolWork` the
  invariant and its proof, `ProtocolTheorems` what follows: no wedge, a bounded number of frames
  in flight, one terminal frame, and an `io.EOF` that means the whole result; `ProtocolExample` is
  a run that gets there. The machine takes one turn of the row loop as a step, which is finer than
  JavaScript's run to the next await, and starts a request when everything that arrived before it
  under its chain key has finished, as `Chains` proves. `ProtocolRest` says who can still wait
  when everything has come to rest, `ProtocolProgress` that it does come to rest, `ProtocolReader`
  that the machine's reader is the one of `GoRows`, and `ProtocolWedge` holds runs that reach the
  limits. `EarlyAborts`, `Route` and `Transport` are the set of early aborts, the hand-off under
  the mutex with its wake token, and the registered routes.
- **Statements, databases and slots.** `Chains` is the promise chain of each key, `Session` the
  statement cache, `Ledger` the account of handles, and `Ownership` the machine of the request
  handlers over them; `OwnershipInv`, `OwnershipBooks` and `OwnershipSteps` prove its invariant
  and `OwnershipTheorems` states the results; `OwnershipExample` is a run that loses a handle.
  `Exec` is the walk over a multi-statement script.
- **Timestamps.** `Calendar` is the proleptic Gregorian calendar, `TimeText` the printer and the
  parser with its seven layouts, as far as Go's `time` package is used, and `TimeReading`,
  `TimeForms`, `TimeTheorems` and `TimeOrder` prove what is read, the round trips and the byte
  order; `TimePlaces` says what is where in a text without the layouts. `TimeInteger` and
  `Convert` are the integer forms and the conversion of values.
- **The wire codec.** `Wire` says what fields are as bytes and how the sticky reader reads them,
  `WireReading` inverts it and catches truncation, `WireGo` is the append-only Writer and the
  Reader, `WireTs` the growable FrameWriter that refines the Writer, `WireTsReader` the reader
  that throws, `WireErrors` what the Reader refuses, `WireText` the UTF-8, `WireCrossing` the way
  from one worker to the other, `Columns` the block of columns, and `WireVectors` checks bytes
  that a third implementation fixed.
- **The connection and the DSN.** `Conn` is the bookkeeping of transactions, `Dsn` the parser.

Classes carry the source's mutable fields and are proved against functions on values; the results
are about those functions and about every run. SQLite is abstract throughout: a sequence of rows
with an end, an outcome for each text that is compiled and each statement that is run.

Where the documentation and the code differ the model follows the code: `docs/PROTOCOL.md` says
that the cancellation slot is zeroed at each dequeue, and the code zeroes it at OPEN only; the
timestamp layouts in its section 9 are older than those the driver writes. The comment over
`abortedBeforeStart` says that a dropped entry costs one wasted scan at worst; the code lets that
stream park for good (`AbortForgotten`, `ForgottenForGood`).

Seven things the repository promises, or could be read to promise, hold only on a condition, which
is proved exactly: a tail probe that throws loses a handle (`LostOnlyByTailErrors`,
`TailErrorLoses`); an id of 2^31 or more can never be cancelled (`StoredIdMatches`,
`LargeIdsNeverFire`); `TimeFormatOffset` does not round-trip years outside 0 to 9999 or zones of 25
hours (`OffsetRoundTrip`); a leaked read-only transaction leaves `query_only` on
(`QueryOnlyAfterReset`); two spellings of a DSN parameter that disagree make the result depend on
the order of a map (`OrderDoesNotMatter`); a query behind a stream of its own database that was left
open waits until that stream's caller goes on (`NoDeadlock`, `QueryHeldUp`); 1024 aborts remembered
after one that overtook its request make the worker forget it, and the stream wedges (`NoWedge`,
`AbortForgotten`, `ForgottenForGood`). A columns block that is cut off may also leave no error
behind (`CutBlock`).

## Model

| member | source | states |
|---|---|---|
| ProtocolTheorems.NoWedge | src/worker/index.ts:186-228 | In every run, while the transport is alive, a parked stream can be woken (a CREDIT or an ABORT for it is on its way, or its reader still has a frame to take) if and only if its abort was not forgotten, that is, its reader is open or fewer than 1024 later aborts were remembered while its own waited; once the transport is dead a waiting reader has a frame or a pull that fails |
| ProtocolWedge.ForgottenForGood | src/worker/index.ts:50-72 | Every stream that parks after its abort was forgotten is wedged in that state and in every later one of the run |
| ProtocolWedge.AbortForgotten | src/worker/index.ts:50-72 | The bound is exact: for any results of 585 rows or more there is a run in which 1024 later aborts push one out, and its stream parks with nothing to wake it |
| ProtocolWedge.WedgedForGood | src/worker/index.ts:186-209 | A parked stream whose reader has closed and which has no command on the way stays so in every run: nothing ever finishes it |
| ProtocolRest.NoDeadlock | src/worker/index.ts:134-228 | Once nothing is in flight and the worker can do nothing, a waiting reader has no frame if and only if its request is queued behind a stream of its own database that its caller has left open, and a closed request is over or queued in the same way, provided no early abort of that chain was forgotten; once the transport is dead a waiting reader has a frame or a pull that fails |
| ProtocolRest.OnlyItsCallerHolds | binding/db.go:170-191 | Once the readers have taken what there is as well, a reader waits if and only if its request is open and queued behind a parked stream of its own database whose caller is between two calls |
| ProtocolRest.NoCallDeadlock | src/worker/index.ts:150-168 | At rest a request with a single reply has been answered, or is queued behind a stream of its own database that its caller has left open, under the same proviso |
| ProtocolProgress.ReaderIsServed | binding/db.go:170-191 | From any state of any run, at most as many own steps of the machine can follow one another as there was work, in any order; a reader that waited then still waits, and once no own step is left it has its frame if and only if its request is not held up, under the same proviso |
| ProtocolProgress.OwnStepShrinks | src/worker/index.ts:170-229 | Every step of the worker and of the channels uses up work, a measure of the rows still to be stepped over and the messages on their way |
| ProtocolProgress.ComesToRest | src/worker/index.ts:170-229 | Every run can be continued by own steps until none is left |
| ProtocolWedge.QueryHeldUp | src/worker/index.ts:479-490 | Such a state is reached: for any result of 585 rows or more, left open after its first rows, the next query on the database waits without a frame, with nothing in flight and nothing for the worker to do |
| ProtocolWedge.RunsUntilParked | src/worker/index.ts:474-525 | A stream of 585 rows or more parks by its own steps, whatever the sizes of its rows, when nobody reads, aborts or interrupts it |
| ProtocolTheorems.EofIsTheWholeResult | driver/rows.go:76-103 | Over every run the rows handed out are an in-order prefix of the statement's rows, and if the first thing that was not a row was io.EOF they are all of them |
| ProtocolExample.EofIsReached | driver/rows.go:76-103 | There is a run in which a query is asked, run, delivered and read to io.EOF, so the results about runs are about something |
| ProtocolTheorems.InterruptedIsCtxErr | driver/rows.go:83-92 | In every run, the first thing that was not a row out of a stream that ended in ABORTED while its reader was open is ctx.Err(), and its context has ended |
| ProtocolTheorems.OutcomesAreTrue | driver/rows.go:80-93 | In every run, ctx.Err() is only said of a context that has ended, another error only when the statement failed or the transport died, and a reader that took an ERROR frame never says io.EOF |
| ProtocolTheorems.BoundedFlight | src/worker/index.ts:474-491 | Credit is always 4 minus the batches sent plus the credits received and never negative, so with no failed pull at most 4 batches and one terminal frame are sent and not yet taken; the queue and the channel hold exactly those |
| ProtocolTheorems.OneTerminalFrame | src/worker/index.ts:467-525 | What was sent for a request is non-terminal batches, each cut exactly when it was full and the first alone with columns, then one terminal frame once the request is finished and not before; their rows are a prefix of the result |
| ProtocolTheorems.BatchesGrow | src/worker/index.ts:15-22 | In every run, batch i has at most 1, 8, 64, 512 and then 1024 rows; one that does not end the stream has as many or 256 KiB, and had neither before its last row |
| WireCrossing.BatchIsFrame | src/worker/index.ts:467-478 | The length that is compared with 256 KiB is that of the frame: header, columns if it is the first, count and rows |
| ProtocolTheorems.NothingAfterTheTerminalFrame | src/worker/index.ts:526-538 | After the terminal frame no run sends anything more for the request |
| ProtocolTheorems.InterruptIsOwn | src/worker/session.ts:189-205 | In every run, with late watchers and reused slots, the progress handler fires for a running request, a stream or EXEC, only if that request's own context has ended |
| ProtocolTheorems.CutShortByItsOwn | src/worker/index.ts:519-523 | In every run, a stream that ended in ABORTED had been closed by its reader or had its own context ended, and an interrupted EXEC had its own context ended |
| ProtocolTheorems.StoredIdMatches | binding/worker.go:464-469 | A stored id matches its own running request if and only if it is below 2^31, because the word is stored and loaded signed |
| ProtocolTheorems.LargeIdsNeverFire | src/worker/session.ts:189-205 | In every run, no request with an id of 2^31 or more is ever interrupted |
| ProtocolWork.RunKeeps | src/worker/index.ts:170-229 | The invariant behind the results above holds in every reachable state of the two workers and the two channels |
| ProtocolWork.StepKeeps | binding/db.go:170-191 | Every step of either worker, from begin and query to die, keeps that invariant |
| EarlyAborts.RememberedUntil | src/worker/index.ts:57-72 | An abort that overtook its request is remembered if and only if fewer than 1024 others were remembered after it |
| EarlyAborts.AbortedBeforeStart.RememberAbort | src/worker/index.ts:60-67 | The set in insertion order gains the id and loses its oldest entries down to 1024 |
| EarlyAborts.AbortedBeforeStart.TakeEarlyAbort | src/worker/index.ts:70-72 | Reports whether the id was remembered, and forgets it |
| ProtocolTheorems.FinishForgets | src/worker/index.ts:223-227 | When a request finishes, its early abort is forgotten and nobody else's gained |
| QueryStream.QueryRun.constructor | src/worker/index.ts:444-472 | A stream starts with the whole window, the early abort if there was one, and an empty first batch |
| QueryStream.QueryRun.Run | src/worker/index.ts:500-525 | The loop up to its next await posts what the turn function says, and ends exactly where it does |
| QueryStream.QueryRun.EncodeRow | src/worker/index.ts:506-511 | Encoding a row extends the batch by it and says whether the batch is now full |
| QueryStream.QueryRun.Flush | src/worker/index.ts:474-491 | A batch is posted with HAS_COLUMNS on the first only, spends one credit, and parks the stream exactly when the last credit is gone and it is not aborted |
| QueryStream.QueryRun.ResumeAfterMacrotask | src/worker/index.ts:492-497 | After the macrotask the next stage begins with an empty batch and the step that had to wait |
| QueryStream.QueryRun.Credit | src/worker/index.ts:187-194 | A credit is added and wakes a parked stream |
| QueryStream.QueryRun.Abort | src/worker/index.ts:195-199 | An abort marks a running stream and wakes it |
| QueryStream.IterateInv | src/worker/index.ts:500-525 | One turn of the loop keeps the stream's invariant or ends it with a frame that tells the truth: an EOF batch only when every row has been posted |
| QueryStream.EncodeInv | src/worker/index.ts:506-511 | The rows posted and the rows encoded are always the rows stepped over so far, and a batch fills exactly when it should be cut |
| QueryStream.FlushInv | src/worker/index.ts:474-498 | Posting a full batch keeps the accounts of rows, credit and stage |
| GoRows.NextAccounts | binding/db.go:279-301 | One Rows.Next grants one credit for each frame it pulls and one more only when it is left waiting; the row it returns is the first one unread, and it skips nothing |
| GoRows.NextEnds | binding/db.go:279-301 | Next ends in an error if and only if the last frame it pulled is ERROR, and in io.EOF if and only if the reader was at its end or the last frame is ABORTED or an EOF batch without rows |
| ProtocolReader.NextIsNext | binding/db.go:279-301 | The reader of the machine is this one: with a live context its steps over the frames in the queue leave the request as Next does, row, end or error, with as many credits granted and no frame skipped |
| ProtocolReader.EndedGetsNothing | driver/rows.go:76-79 | Once the context has ended Next hands out no row, says ctx.Err() first and grants no credit |
| GoRows.Rows.Pull | binding/db.go:236-273 | What a frame does to the reader: rows to hand out, an end, an interruption or an error |
| GoRows.Rows.NextRow | binding/db.go:279-301 | The loop of Next over the frames it is given comes out where the specification does |
| GoRows.Rows.Close | binding/db.go:316-332 | Close posts an ABORT exactly when the reader was open and had not seen the end |
| Route.NoLostWakeUp | binding/worker.go:77-140 | In every interleaving of push, fail, signal and next, a waiter never blocks with a frame or a failure present unless a token is there or a signal is pending; frames come out in order with none lost; every error returned is the first failure's, after every frame pushed before it; and next never answers with an end of the route |
| Route.LookSays | binding/worker.go:114-140 | In every reachable state a look returns the oldest frame not yet returned; if there is none, the error of the first failure; if there was none, next waits |
| Route.WaiterIsServed | binding/worker.go:114-140 | A waiter with a frame or a failure present gets the oldest frame, or the first failure's error, by the pending signal, its token and one more look, without anyone else's help |
| Route.StepKeeps | binding/worker.go:89-112 | Each section under the mutex and each channel operation keeps the hand-off's invariant |
| Route.Route.LookLocked | binding/worker.go:115-133 | A look returns the oldest frame, else the failure, else the end, else nothing |
| Route.Route.FailLocked | binding/worker.go:103-109 | The first error is kept and the route is closed |
| Transport.Worker.Begin | binding/worker.go:403-418 | A live worker registers a new empty route under an id that is never 0, and ids count on from it, past 2^32-1 to 1; a dead one refuses |
| Transport.IdsAreDistinct | binding/worker.go:403-418 | Of 2^32-1 requests in a row no two share an id, and none has the id 0 |
| Transport.Worker.Receive | binding/worker.go:342-351 | A frame reaches the route of its request and no other, and a late one none |
| Transport.Worker.Die | binding/worker.go:353-369 | Every outstanding route fails with the error unless it had failed before and is woken, none stays registered, and the worker keeps its first error |
| Transport.Worker.End | binding/worker.go:420-424 | The request's route, and only it, is no longer registered |
| Chains.StartsInTurn | src/worker/index.ts:218-228 | A waiting request may start if and only if everything that arrived before it on its chain has settled, across deletions and re-creations of the chain's entry |
| Chains.NeverOverlap | src/worker/index.ts:134-148 | While a request of a chain runs, no other of the chain runs or may start |
| Chains.EntryWhileOutstanding | src/worker/index.ts:223-227 | The map holds an entry for a key if and only if something of that chain is outstanding |
| Chains.StartsInOrder | src/worker/index.ts:218-228 | A request starts only when all earlier ones of its chain have settled |
| Chains.DispatchKeeps | src/worker/index.ts:211-228 | Chaining a request after the promise its key names keeps arrival order |
| Chains.SettleKeeps | src/worker/index.ts:223-227 | Deleting the entry only when it names the settled promise loses no predecessor |
| Chains.Dispatcher.Enqueue | src/worker/index.ts:218-228 | The map names the new request and the request waits for what the map named before |
| Chains.Dispatcher.Finally | src/worker/index.ts:223-227 | The request settles, and the entry goes if and only if it still names it |
| Session.ReleaseRefines | src/worker/session.ts:454-480 | A released statement goes to the end of a bounded sequence of distinct texts, or is finalised if it may not be cached or its text is there already; past 64 entries exactly the oldest insertion is dropped and finalised |
| Session.PrepareKeeps | src/worker/session.ts:256-283 | After prepareOne the cache is still sound and no longer holds the text it gave out |
| Session.PrepareThenRelease | src/worker/session.ts:256-283 | A text prepared and released is cached again if it was before, and otherwise if and only if it is one whole statement; a statement with anything after it is finalised |
| Session.ClosedCachesNothing | src/worker/session.ts:454-460 | What is released to a closed session is finalised |
| Session.Session.Prepare | src/worker/session.ts:256-283 | A hit is taken out of the cache; a miss compiles, and a second statement in the text finalises both handles |
| Session.Session.EvictOldest | src/worker/session.ts:473-479 | The loop drops and finalises the oldest entries, in order, until 64 are left |
| Session.Session.ReleaseStmt | src/worker/session.ts:454-480 | The method does what the bounded sequence does and keeps the cache sound |
| Session.Session.DiscardStmt | src/worker/session.ts:483-493 | The handle is finalised, and its text's entry is dropped only if it is this very statement |
| Session.Session.Close | src/worker/session.ts:210-216 | The first close finalises every cached statement once, oldest first, and empties the cache; a second does nothing |
| OwnershipTheorems.StatementsConserved | src/worker/session.ts:256-283 | In every reachable state each handle ever compiled is at exactly one place (a cache, the statements map, a running request), or was finalised exactly once, or is lost |
| OwnershipTheorems.LostOnlyByTailErrors | src/worker/session.ts:267-271 | Nothing is lost in a run if and only if no probe of an uncached text's tail threw |
| OwnershipExample.TailErrorLoses | src/worker/session.ts:267-271 | For every text there is a run in which a query of it loses a handle to a tail probe that throws |
| OwnershipTheorems.NoUseAfterFinalise | src/worker/index.ts:435-539 | Once finalised, a handle is never stepped, reset, bound or described again in any run, by queries that prepare or borrow it, by EXEC, PREPARE or FINALIZE |
| OwnershipTheorems.NothingAliveAfterClose | src/worker/index.ts:310-325 | After its CLOSE a database is never open again and every handle ever compiled for it is finalised, or lost to a tail probe |
| OwnershipTheorems.QueryReturns | src/worker/index.ts:526-538 | The statement of an interrupted or aborted query is finalised and never cached; any other goes back to the cache if it may, a borrowed one stays where it is |
| OwnershipTheorems.FinalizeReturns | src/worker/index.ts:355-363 | FINALIZE takes the statement out of the map and gives it back to the cache, or finalises it |
| OwnershipTheorems.OneAtATime | src/worker/index.ts:134-148 | While a request of a database has not finished, parked streams included, none of that database that arrived later has started or may start |
| OwnershipTheorems.WaitsForItsOwnDatabase | src/worker/index.ts:218-228 | A request may start if and only if the earlier requests of its own chain have finished, whatever streams of other databases are doing |
| OwnershipTheorems.SlotsNeverShared | src/worker/index.ts:284-322 | Two databases that are open or being opened never share a cancellation slot, and no slot is ever lost |
| OwnershipTheorems.GuardsFollow | src/worker/index.ts:526-538 | A query that ends, a FINALIZE and a CLOSE always find the database and the statements they take for granted |
| OwnershipTheorems.RunKeeps | src/worker/index.ts:279-363 | Admission, handle and slot accounts hold in every reachable state |
| OwnershipInv.StepCore | src/worker/index.ts:150-168 | Every step keeps each request on the chain of the database it works on, although FINALIZE, QUERY_STMT and EXEC_STMT choose the chain when they arrive |
| OwnershipSteps.StepKeeps | src/worker/index.ts:279-363 | Every request handler keeps the accounts of handles and slots |
| OwnershipSteps.DoneBooks | src/worker/index.ts:526-538 | A finished query gives its statement back exactly once, and a borrowed one not at all |
| OwnershipBooks.CloseListIs | src/worker/index.ts:314-320 | closeDatabase goes over every place of the database exactly once, when no query runs on it |
| OwnershipBooks.ReleaseBalanced | src/worker/session.ts:454-480 | Releasing a statement that is in hand keeps the account: it is then cached, or finalised, or cached with the oldest finalised |
| OwnershipBooks.DiscardBalanced | src/worker/session.ts:483-493 | Discarding a statement that is in hand finalises it and touches no other |
| OwnershipBooks.PrepareBalanced | src/worker/session.ts:256-283 | Compiling keeps the account in each of prepareOne's outcomes, the lost handle of a failed probe included |
| Exec.ExecTakesEveryArgument | src/worker/index.ts:585-619 | An EXEC succeeds if and only if every statement compiles and runs and, unless there is none, the statements take every argument; each statement then had exactly the block after its predecessors' |
| Exec.ArgumentsInOrder | src/worker/index.ts:594-608 | However the walk ends, the k-th statement that ran was the k-th of the script with the arguments after those of the statements before it |
| Exec.WalkEnds | src/worker/session.ts:308-328 | The walk over the text ends without an error if and only if every statement compiles and runs and the arguments suffice |
| Exec.NothingIsDropped | src/worker/session.ts:292-334 | For a text without a NUL in which SQLite always gets on, a walk that ends without an error has gone from compile to compile to the end of the text and has run every statement on its way, in order |
| Exec.StopsAt | src/worker/session.ts:309-318 | Only the end of the text, a NUL, or a compile that does not get on ends the walk without an error |
| Exec.EachIsFinalised | src/worker/session.ts:320-327 | Statements come at ever later offsets and each is finalised, run or not, before the next is compiled |
| Exec.RunExec | src/worker/index.ts:585-619 | The loop by the shrinking tail does exactly what the walk does, and answers when it succeeds |
| TimeOrder.ByteOrderIsTimeOrder | driver/timefmt.go:79-89 | For all instants whose UTC year is 0 to 9999, TimeFormatUTC writes 30 characters and the texts compare byte by byte exactly as the instants (RFC 3339, section 5.1) |
| TimeOrder.OffsetInUtc | driver/timefmt.go:159-171 | Wherever the clock is UTC's, TimeFormatOffset writes the same text as TimeFormatUTC |
| TimePlaces.WrittenUtc | driver/timefmt.go:79-89 | TimeFormatUTC writes yyyy-mm-ddThh:mm:ss.nnnnnnnnnZ, character by character, with the digits of the instant in UTC |
| TimePlaces.WrittenOffset | driver/timefmt.go:79-81 | TimeFormatOffset writes the same of the clock in the location, and then Z where the offset is 0, elsewhere its sign, hours, a colon and minutes |
| TimePlaces.WrittenDatetime | driver/timefmt.go:88-89 | TimeFormatDatetime writes yyyy-mm-ddThh:mm:ss of the clock in the location |
| TimeTheorems.UtcRoundTrip | driver/timefmt.go:96-118 | Text of TimeFormatUTC is read back as the same instant by a reader in any location if its UTC year is 0 to 9999, and by none of the layouts otherwise |
| TimeTheorems.OffsetRoundTrip | driver/timefmt.go:159-171 | Text of TimeFormatOffset is read back as the same instant if and only if the local year is 0 to 9999 and the offset is whole minutes and under 25 hours |
| TimeTheorems.OffsetReadsAs | driver/timefmt.go:96-118 | What every other instant is read as: off by the seconds of its offset, or not at all |
| TimeTheorems.DatetimeRoundTrip | driver/timefmt.go:159-171 | Text of TimeFormatDatetime is read back in its own location if and only if there is no fraction to lose and the location resolves the wall clock to the offset it came from |
| TimeReading.FirstMatchIs | driver/timefmt.go:109-116 | Of the seven layouts in their order, the first that matches a T-separated timestamp is the one for its ending: with a zone, or naive |
| TimeReading.ReadsPieces | driver/timefmt.go:20-28 | A layout without a fraction reads back the fields it writes and leaves what follows |
| TimeForms.BothSeparators | driver/timefmt.go:14-28 | Whatever follows a date and a T, the text with a space in its place is read as the same instant, or like it by no layout |
| TimeForms.ReadsAnyFraction | driver/timefmt.go:17-21 | A fraction of any number of digits is the number it writes, and digits past the ninth are dropped |
| TimeForms.MinutesForm | driver/timefmt.go:25-26 | A date and a clock without seconds, with either separator, is that minute in the reader's location |
| TimeForms.DateForm | driver/timefmt.go:27 | A date alone is its midnight in the reader's location |
| TimePlaces.DateIsRead | driver/timefmt.go:27-28 | Any text of ten characters with those digits and hyphens is that day's midnight in the reader's location |
| TimePlaces.MinutesAreRead | driver/timefmt.go:25-26 | Any yyyy-mm-dd hh:mm, with a T or a space, is that minute in the reader's location |
| TimePlaces.TextIsRead | driver/timefmt.go:96-118 | Any yyyy-mm-dd hh:mm:ss with a T or a space, a fraction of any length or none, and an offset, a Z or nothing is read as its instant; an offset of more than 24 hours or 60 minutes is not read |
| TimePlaces.NoSuchDate | driver/timefmt.go:96-118 | A text whose date is not in the calendar is read by no layout, whatever follows the date |
| TimeForms.OneDigit | driver/timefmt.go:20-28 | An hour may have one digit; months, days, minutes and seconds have two |
| TimeForms.Origin | driver/timefmt.go:159-171 | Days count from 1 January 1970, over leap days and the years that are leap years only every 400 years |
| TimeForms.MonthLengths | driver/timefmt.go:96-118 | Every month runs to the first of the next and has the days of the Gregorian calendar, leap years included |
| TimeForms.WallCounts | driver/timefmt.go:159-171 | A wall clock counts days of 24 hours of 60 minutes of 60 seconds of 10^9 nanoseconds |
| TimeTheorems.NoLayoutReads | driver/timefmt.go:20-28 | No layout reads a text that does not begin with a four-digit year |
| TimeTheorems.ZoneReads | driver/timefmt.go:79-81 | A zone other than UTC is written so that it reads back to the minute, under 25 hours |
| Calendar.YearOfContains | driver/timefmt.go:159-171 | The year taken out of a day number by cycles of 400, 100, 4 and 1 years is the year that contains the day |
| Calendar.DateOfDay | driver/timefmt.go:159-171 | The civil date of a day number is the inverse of the day number of a date, over all years |
| Calendar.CivilOfWall | driver/timefmt.go:159-171 | The civil time shown at a count of nanoseconds is the inverse of the count of a civil time |
| Calendar.EarlierIsLess | driver/timefmt.go:79-89 | Wall clocks compared field by field are ordered as the nanoseconds they show |
| TimeInteger.IntegerRoundTrip | driver/timefmt.go:126-149 | With an explicit integer format an instant comes back if and only if it is a whole number of units that an int64 holds |
| TimeInteger.HeuristicIsRight | driver/timefmt.go:141-146 | Without a format a count of milliseconds is read as one if and only if its magnitude is over 10^12 or it is 0 |
| TimeInteger.UnitsNest | driver/timefmt.go:131-151 | The units are seconds, and thousandths of the unit before |
| TimeInteger.WrittenBelow | driver/timefmt.go:174-185 | An instant is written as the last whole unit not after it |
| Convert.TimeSurvives | driver/convert.go:92-97 | A time bound as an argument and read from a time-class column is the same instant if and only if the configured form can hold it |
| Convert.ValueSurvives | driver/convert.go:19-60 | For every value, class and configuration: the value read is the value bound if and only if the column's class keeps it, NULL for a nil []byte and unparsed text included |
| Convert.ReadsStored | driver/convert.go:19-62 | What every stored value reads as, by class of column: an integer in a boolean column is false if and only if it is 0; in a time column without a format it is seconds up to a magnitude of 10^12 and milliseconds above; a REAL is never a time; text that no layout reads stays text |
| Convert.WritesStored | driver/convert.go:69-101 | The storage class each value is written in: a bool as 1 or 0, a nil []byte as NULL, a time as text or as an integer |
| WireReading.ReadsBack | binding/wire/codec.go:156-249 | Reading a payload with its field script returns the fields that were written and stops at their last byte |
| WireReading.TruncationCaught | binding/wire/codec.go:156-249 | Over any proper prefix the script ends in the sticky error without reading past the end; the whole fields are as written, and everything after the one that is cut is a zero value |
| WireReading.FailedStays | binding/wire/codec.go:150-167 | After the first failure every read returns a zero value, stays where it is and keeps that error |
| WireReading.CutField | binding/wire/codec.go:156-226 | A field cut off anywhere fails as truncated |
| WireGo.FrameReadsBack | binding/wire/codec.go:124-138 | A whole frame is read back: its header, and its fields to the last byte |
| WireGo.SkipIsRead | binding/wire/codec.go:252-264 | Skipping a value that can be read leaves the reader where reading it does |
| WireErrors.TagsEnd | binding/wire/codec.go:243-250 | A byte is a tag if and only if it is at most 4 |
| WireErrors.SkipsNoOther | binding/wire/codec.go:252-266 | A value of any other tag cannot be skipped |
| WireErrors.NonZeroIsTrue | binding/wire/codec.go:177-177 | Every byte but 0 reads as true |
| WireErrors.AbsentOnlyWhereAllowed | binding/wire/codec.go:214-241 | The absent marker is no string where there may be none, and an error where there must be one |
| WireErrors.HeaderOrNot | binding/wire/codec.go:124-138 | A frame has a header if and only if it has 8 bytes and is of version 1 |
| WireGo.Writer.Put | binding/wire/codec.go:54-98 | Each method appends its field's bytes and nothing else |
| WireGo.Writer.SetFlags | binding/wire/codec.go:44-46 | Only the flags of the frame change |
| WireGo.Writer.PutValue | binding/wire/codec.go:89-98 | A tag and its payload are one value's bytes |
| WireGo.Reader.TakeN | binding/wire/codec.go:156-167 | take: nothing after an error, nothing past the end, else the next bytes |
| WireGo.Reader.ReadBytes | binding/wire/codec.go:214-224 | A counted byte string, an error for the absent marker |
| WireGo.Reader.ReadNullString | binding/wire/codec.go:231-240 | Absent, or a string; a body that is cut off counts as present and empty |
| WireGo.Reader.ReadTag | binding/wire/codec.go:243-249 | A tag over BLOB is an error |
| WireGo.Reader.SkipValue | binding/wire/codec.go:252-264 | Skip by tag: eight bytes, or a counted string, or an error for an unknown tag |
| WireGo.Reader.ReadValue | driver/convert.go:19-60 | The reads of decodeValue, in order |
| WireTs.WriteBoth | src/wire.ts:92-260 | Any field script gives the same frame from the growable FrameWriter and from the append-only Writer, but for the bits of a NaN |
| WireTs.RowsFrame | src/worker/index.ts:467-498 | A batch whose row count is reserved and patched and whose flags come last is the frame that appending in order would have made |
| WireTs.PatchIsWrite | src/wire.ts:144-152 | A number reserved and patched later is the number written in its place |
| WireTs.FrameWriter.Grow | src/wire.ts:129-137 | The buffer doubles until there is room, and the bytes in use stay |
| WireTs.FrameWriter.Append | src/wire.ts:154-196 | Storing at the end after growing appends to the frame |
| WireTs.FrameWriter.PatchU32 | src/wire.ts:150-152 | The reserved number, and no other field, becomes the new one |
| WireTs.FrameWriter.SetFlags | src/wire.ts:115-117 | Only the flags of the frame change |
| WireTs.FrameWriter.PutBytes | src/wire.ts:199-204 | The count and the bytes, whatever growing came between them |
| WireTs.FrameWriter.PutText | src/wire.ts:207-216 | The UTF-8 form is written straight into the buffer, with its length before it |
| WireTs.FrameWriter.PutValue | src/wire.ts:227-259 | A tag and its payload are one value's bytes |
| WireTs.Utf8Fits | src/wire.ts:207-211 | Three bytes for each UTF-16 unit are always room enough |
| WireText.TextReadsBack | src/wire.ts:200-221 | The bytes written for a string are UTF-8, in its shortest form, of its characters, with U+FFFD for each lone surrogate (RFC 3629, section 3) |
| WireTs.JsFieldIsSame | src/wire.ts:192-196 | What JavaScript writes for a field is the same field, a NaN being a NaN |
| WireCrossing.FrameCrosses | binding/wire/codec.go:124-240 | Go reads what JavaScript writes for any fields as that header and those fields, a NaN being a NaN, with nothing left over |
| WireCrossing.SendItems | src/wire.ts:92-260 | A field script goes from the FrameWriter to Go unchanged |
| WireCrossing.SendRows | src/worker/index.ts:467-478 | So does a batch of rows, whose count was patched and whose flags were set last |
| WireTsReader.ReadersAgree | src/wire.ts:262-358 | On every frame, well formed or not, the worker's reader throws exactly when Go's records an error, and otherwise both return the same field at the same place |
| WireTsReader.FrameReader.NeedN | src/wire.ts:296-301 | need: the next bytes, or an exception and no move |
| WireTsReader.FrameReader.ReadBytes | src/wire.ts:332-339 | A counted byte string, or an exception for the absent marker or a body that is cut off |
| WireTsReader.FrameReader.ReadNullable | src/wire.ts:345-350 | null, or a string, or an exception for a body that is cut off |
| WireTsReader.FrameReader.ReadValue | src/worker/index.ts:408-425 | The reads of bindArgs for one value |
| WireVectors.Headers | testdata/wire/vectors.json:6-43 | The headers that an independent implementation fixed |
| WireVectors.Numbers | testdata/wire/vectors.json:81-215 | Its bytes of integers at the edges of their types |
| WireVectors.Scalars | testdata/wire/vectors.json:60-420 | Its bytes of booleans, bytes and reals |
| WireVectors.Values | testdata/wire/vectors.json:332-500 | Its bytes that tell NULL, empty text, an empty blob and an absent string apart |
| WireVectors.Texts | testdata/wire/vectors.json:293-318 | Its UTF-8 of characters inside and outside the basic plane |
| Columns.BlockReadsBack | binding/db.go:338-361 | A columns block is read back whole: the guard on its count never refuses one |
| Columns.CutBlock | binding/db.go:346-348 | A columns block that is cut off gives no columns, and leaves no error exactly when the guard stopped the read first |
| Columns.ReadColumns | binding/db.go:338-361 | The loop over a Reader returns what the specification does, and leaves the Reader where it does |
| Conn.CleanAfterReset | driver/conn.go:70-85 | Over every run, a connection that ResetSession passes is in autocommit, after a failed COMMIT and an automatic rollback too, and has query_only off if every read-only transaction was finished |
| Conn.QueryOnlyAfterReset | driver/tx.go:38-42 | With one transaction at a time, query_only is off after a ResetSession that passes if and only if no read-only transaction was left unfinished |
| Conn.ResetPasses | driver/conn.go:70-85 | In every run, ResetSession passes if and only if no context was abandoned on the connection, its worker is alive, and a transaction known to be open can be rolled back |
| Conn.InTxSays | driver/tx.go:26-36 | In every run, a transaction is known to be open if and only if a BEGIN succeeded and since then neither a COMMIT nor a ROLLBACK nor a reset |
| Conn.LeakedReadOnly | driver/conn.go:76-83 | A run in which a read-only transaction is left open, ResetSession passes, and query_only is still on |
| Conn.StepKeeps | driver/conn.go:155-179 | Each operation keeps: an open transaction is known to be open, and query_only is on only for an unfinished read-only one |
| Conn.Conn.BeginTx | driver/conn.go:155-179 | BEGIN succeeds only in autocommit, and query_only is taken back when it fails |
| Conn.Conn.Finish | driver/tx.go:21-44 | Only a COMMIT or ROLLBACK that succeeded ends the transaction; a read-only one always turns query_only off |
| Conn.Conn.ResetSession | driver/conn.go:70-85 | What is condemned is not reused; what is open is rolled back; what passes is in autocommit |
| Dsn.OrderDoesNotMatter | driver/dsn.go:138-147 | Every order of visiting the map gives the same success or failure and the same Config if and only if some parameter is invalid or no two spellings of one parameter disagree |
| Dsn.AnyOrder | driver/dsn.go:138-147 | Without such a conflict any two orders agree |
| Dsn.NothingLeaks | driver/dsn.go:172-177 | In a parsed filename no driver parameter is left, and every other parameter is, as it was given |
| Dsn.ApplySets | driver/dsn.go:181-251 | A parameter sets one setting, to a value that does not depend on the others |
| Dsn.ConfigSays | driver/dsn.go:181-251 | Every setting of a parsed Config is the one that a parameter of the query names, or the default if no parameter is for it |
| Dsn.ParsedSays | driver/dsn.go:149-179 | A shared cache is refused; a database is in memory if and only if the VFS, the name or the mode says so, and then in memdb; it persists if and only if it is a named file |
| Dsn.PlainPath | driver/dsn.go:107-123 | A plain path is a file name as it stands, question mark and all |
| Dsn.TakesParameters | driver/dsn.go:107-128 | A file: URI, :memory: and the empty name take parameters |
| Dsn.Parser.TakeParams | driver/dsn.go:138-147 | The loop with its deletions gives the Config of its order and leaves the other parameters |
| Dsn.Parser.ApplyDriverParam | driver/dsn.go:181-251 | The Config changes as the parameter says, or not at all when it is an error |

## Left out

- SHUTDOWN: the Go side never sends it, and it does not keep the accounts that CLOSE keeps.
- SQLite itself, the VFS and OPFS layers, wasm memory and pstack: prepare, bind and step are abstract.
- `syscall/js`, worker start-up, the handshake and its timeout, capability probes and message buffering before start-up.
- Code that runs while `runningRequestId` is 0, such as compiling before `runQuery` sets it, is outside the cancellation result.
- Request ids that have wrapped past 2^32-1: `Protocol` runs end before; `Transport.Worker.Begin` includes the wrap.
- `Protocol` keeps a row as its encoded bytes; that the bytes are read back as the row is `WireReading.ReadsBack`.
- The worker's request maps in `Ownership` and the channels in `Protocol` are values of a state machine, not objects, so aliasing between a Session held by an entry and one held by the map is not captured; both always name the same one.
- Requests with a single reply (EXEC, and `call` in `binding/worker.go`) are in `Ownership`; in `Protocol` they take ids, hold their place in a chain, store cancellations and may be interrupted, but their frames are not on the channels.
- A route has one waiter in `Route`, as each request has.
- In `Exec` SQLite's answers are a function of the offset, each offset being compiled at most once in a walk; `sqlite3_bind` and `sqlite3_step` are one outcome.
- SQLite's column affinity: `Convert` reads a value back in the storage class it was written in, and a column declared DATETIME, DATE or TIMESTAMP, whose affinity is NUMERIC, stores a float or text that looks like an integer as an INTEGER.
- IANA zone data: a location is any function from seconds to offsets.
- Go's `time.Parse` beyond the seven layouts, and `time.Time` beyond unbounded nanoseconds (its own limits are some 292 billion years away).
- `encoding/binary`'s and `DataView`'s floats are their 64 bits; JavaScript's NaN is one NaN.
- TextDecoder on the worker's side: strings are read as bytes there, and invalid UTF-8 is not replaced.
- The error texts, `Error.Is`, retry with backoff, `classify`, declared-type tables, scan types and `CheckNamedValue`: each is settled by reading one function.
- `url.ParseQuery` and `Encode`: a query is a map from keys to values.
- DSN locations are known by name, and two zone names are two locations; which names are zones, beyond the empty name, UTC and Local, is a parameter.
