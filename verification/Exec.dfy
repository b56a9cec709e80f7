/** A multi-statement EXEC: runExec in src/worker/index.ts over forEachStatement in
    src/worker/session.ts.  Each statement is compiled where the one before it ended, takes its
    arguments from the front of what is left, is run, and is finalised. */
module Exec {
  import opened Wrappers

  type Arg(==)

  /** What compiling the text from a byte offset gives: an error; white space or a comment; or a
      statement with so many parameters, which, given its arguments, is bound and run to its end
      or throws.  `next` is where SQLite says the rest of the text begins. */
  datatype Compiled =
    | CompileError
    | Nothing(next: nat)
    | Statement(next: nat, params: nat, runs: bool)

  /** The UTF-8 text, and SQLite.  The walk compiles at each offset at most once, so what SQLite
      answers there is a function of the offset, whatever the statements before it did. */
  datatype Script = Script(text: seq<nat>, at: nat -> Compiled)

  /** What the walk does to the statement compiled at an offset. */
  datatype Event = Compile(pos: nat) | Run(pos: nat, block: seq<Arg>) | Finalise(pos: nat)

  datatype Walked = Ended(used: nat, count: nat) | Threw

  /** The loop's condition: the terminating NUL also ends the walk. */
  predicate More(s: Script, pos: nat) { pos < |s.text| && s.text[pos] != 0 }

  /** The walk from `pos`, with `used` arguments taken by the `count` statements before. */
  function Walk(s: Script, args: seq<Arg>, pos: nat, used: nat, count: nat): (r: (seq<Event>, Walked))
    decreases |s.text| - pos
  {
    if !More(s, pos) then ([], Ended(used, count))
    else match s.at(pos)
      case CompileError => ([], Threw)
      case Nothing(next) =>
        if next <= pos then ([], Ended(used, count)) else Walk(s, args, next, used, count)
      case Statement(next, n, runs) =>
        if next <= pos then ([], Ended(used, count))
        else if used + n > |args| then ([Compile(pos), Finalise(pos)], Threw)
        else if !runs then (Turn(pos, args[used..used + n]), Threw)
        else
          var (events, end) := Walk(s, args, next, used + n, count + 1);
          (Turn(pos, args[used..used + n]) + events, end)
  }

  function Turn(pos: nat, block: seq<Arg>): seq<Event> { [Compile(pos), Run(pos, block), Finalise(pos)] }

  /** Whether the request is answered with EXEC_RESULT: a script without a statement succeeds
      whatever its arguments, any other only if none is left over. */
  predicate Succeeds(args: seq<Arg>, end: Walked) {
    end.Ended? && (end.count == 0 || end.used >= |args|)
  }

  // ---- The statements of a script, whatever the arguments ------------------------------

  datatype Item = Item(pos: nat, params: nat, runs: bool)

  /** The statements in order, and whether the walk over them comes to an end. */
  datatype Listing = Listing(items: seq<Item>, ends: bool)

  function Items(s: Script, pos: nat): Listing
    decreases |s.text| - pos
  {
    if !More(s, pos) then Listing([], true)
    else match s.at(pos)
      case CompileError => Listing([], false)
      case Nothing(next) => if next <= pos then Listing([], true) else Items(s, next)
      case Statement(next, n, runs) =>
        if next <= pos then Listing([], true)
        else var rest := Items(s, next); Listing([Item(pos, n, runs)] + rest.items, rest.ends)
  }

  /** How many arguments the statements take together. */
  function Demand(items: seq<Item>): nat {
    if items == [] then 0 else items[0].params + Demand(items[1..])
  }

  /** The statements that were run, with their arguments. */
  function Runs(events: seq<Event>): seq<Event> {
    if events == [] then [] else (if events[0].Run? then [events[0]] else []) + Runs(events[1..])
  }

  lemma RunsOfTurn(pos: nat, block: seq<Arg>, events: seq<Event>)
    ensures Runs(Turn(pos, block) + events) == [Run(pos, block)] + Runs(events)
  {
    var all := Turn(pos, block) + events;
    var tail := [Run(pos, block), Finalise(pos)] + events;
    assert all[1..] == tail;
    assert tail[1..] == [Finalise(pos)] + events;
    assert ([Finalise(pos)] + events)[1..] == events;
    assert Runs([Finalise(pos)] + events) == Runs(events);
    assert Runs(tail) == [Run(pos, block)] + Runs(events);
  }

  lemma RunsAtEnd(pos: nat, block: seq<Arg>)
    ensures Runs(Turn(pos, block)) == [Run(pos, block)] && Runs([Compile(pos), Finalise(pos)]) == []
  {
    RunsOfTurn(pos, block, []);
    assert Turn(pos, block) + [] == Turn(pos, block);
    assert [Compile(pos), Finalise(pos)][1..] == [Finalise(pos)];
    assert [Finalise(pos)][1..] == [];
  }

  // ---- Arguments -----------------------------------------------------------------------

  /** The k-th statement run is the k-th of the script, and its arguments are those after the ones
      of the statements before it. */
  ghost predicate DealtAt(items: seq<Item>, args: seq<Arg>, runs: seq<Event>, k: nat)
    requires k < |runs| <= |items|
  {
    var from := Demand(items[..k]);
    && Demand(items[..k + 1]) == from + items[k].params <= |args|
    && runs[k] == Run(items[k].pos, args[from..from + items[k].params])
  }

  /** `runs` deals `args` out over `items`. */
  ghost predicate Dealt(items: seq<Item>, args: seq<Arg>, runs: seq<Event>) {
    |runs| <= |items| && forall k :: 0 <= k < |runs| ==> DealtAt(items, args, runs, k)
  }

  lemma {:induction false} DemandFrom(item: Item, items: seq<Item>, k: nat)
    requires k <= |items|
    ensures Demand(([item] + items)[..k + 1]) == item.params + Demand(items[..k])
  {
    assert ([item] + items)[..k + 1][1..] == items[..k];
  }

  lemma DealtOne(item: Item, items: seq<Item>, args: seq<Arg>)
    requires item.params <= |args|
    ensures Dealt([item] + items, args, [Run(item.pos, args[..item.params])])
  {
    DemandFrom(item, items, 0);
  }

  lemma DealtNext(item: Item, items: seq<Item>, args: seq<Arg>, runs: seq<Event>, k: nat)
    requires item.params <= |args| && k < |runs| <= |items| && DealtAt(items, args[item.params..], runs, k)
    ensures DealtAt([item] + items, args, [Run(item.pos, args[..item.params])] + runs, k + 1)
  {
    DemandFrom(item, items, k);
    DemandFrom(item, items, k + 1);
    hide Demand;
    var d := Demand(items[..k]);
    var n := items[k].params;
    assert args[item.params..][d..d + n] == args[item.params + d..item.params + d + n];
  }

  lemma DealtMore(item: Item, items: seq<Item>, args: seq<Arg>, runs: seq<Event>)
    requires item.params <= |args| && Dealt(items, args[item.params..], runs)
    ensures Dealt([item] + items, args, [Run(item.pos, args[..item.params])] + runs)
  {
    var all := [item] + items;
    var done := [Run(item.pos, args[..item.params])] + runs;
    forall k | 0 <= k < |done| ensures DealtAt(all, args, done, k) {
      if k == 0 { DemandFrom(item, items, 0); }
      else { hide DealtAt; DealtNext(item, items, args, runs, k - 1); }
    }
  }

  /** The k-th statement of a script is bound to exactly the block of arguments after those of the
      statements before it, however the walk ends. */
  lemma {:induction false} ArgumentsInOrder(s: Script, args: seq<Arg>, pos: nat, used: nat, count: nat)
    requires used <= |args|
    ensures Dealt(Items(s, pos).items, args[used..], Runs(Walk(s, args, pos, used, count).0))
    decreases |s.text| - pos
  {
    if More(s, pos) {
      match s.at(pos)
      case CompileError =>
      case Nothing(next) => if next > pos { ArgumentsInOrder(s, args, next, used, count); }
      case Statement(next, n, runs) =>
        if next > pos {
          var item := Item(pos, n, runs);
          if used + n > |args| {
            RunsAtEnd(pos, []);
          } else {
            var block := args[used..used + n];
            assert block == args[used..][..n] && args[used..][n..] == args[used + n..];
            if !runs {
              RunsAtEnd(pos, block);
              DealtOne(item, Items(s, next).items, args[used..]);
            } else {
              RunsOfTurn(pos, block, Walk(s, args, next, used + n, count + 1).0);
              ArgumentsInOrder(s, args, next, used + n, count + 1);
              DealtMore(item, Items(s, next).items, args[used..], Runs(Walk(s, args, next, used + n, count + 1).0));
            }
          }
        }
    }
  }

  /** The walk ends exactly when every statement compiles and runs and the arguments suffice. */
  lemma {:induction false} WalkEnds(s: Script, args: seq<Arg>, pos: nat, used: nat, count: nat)
    requires used <= |args|
    ensures var (events, end) := Walk(s, args, pos, used, count);
            var l := Items(s, pos);
            && (end.Ended? <==> l.ends && (forall k :: 0 <= k < |l.items| ==> l.items[k].runs) &&
                                used + Demand(l.items) <= |args|)
            && (end.Ended? ==> end == Ended(used + Demand(l.items), count + |l.items|) && |Runs(events)| == |l.items|)
    decreases |s.text| - pos
  {
    if More(s, pos) {
      match s.at(pos)
      case CompileError =>
      case Nothing(next) => if next > pos { WalkEnds(s, args, next, used, count); }
      case Statement(next, n, runs) =>
        if next > pos {
          var rest := Items(s, next).items;
          var all := Items(s, pos).items;
          assert all == [Item(pos, n, runs)] + rest && all[1..] == rest;
          if used + n <= |args| && runs {
            RunsOfTurn(pos, args[used..used + n], Walk(s, args, next, used + n, count + 1).0);
            WalkEnds(s, args, next, used + n, count + 1);
            assert forall k :: 0 <= k < |rest| ==> rest[k] == all[k + 1];
          }
        }
    }
  }

  /** An EXEC succeeds exactly when every statement compiles and runs and, if there is one at all,
      the statements take every argument; and then each argument went to one statement, in order. */
  lemma ExecTakesEveryArgument(s: Script, args: seq<Arg>)
    ensures var (events, end) := Walk(s, args, 0, 0, 0);
            var l := Items(s, 0);
            && (Succeeds(args, end) <==>
                  && l.ends && (forall k :: 0 <= k < |l.items| ==> l.items[k].runs)
                  && (l.items == [] || Demand(l.items) == |args|))
            && Dealt(l.items, args, Runs(events))
            && (Succeeds(args, end) ==> |Runs(events)| == |l.items|)
  {
    WalkEnds(s, args, 0, 0, 0);
    ArgumentsInOrder(s, args, 0, 0, 0);
    assert args[0..] == args;
  }

  // ---- Nothing is dropped ----------------------------------------------------------------

  /** The offset after the one compiled at `p`, where SQLite gives one. */
  function After(c: Compiled, p: nat): nat {
    match c { case CompileError => p case Nothing(next) => next case Statement(next, _, _) => next }
  }

  /** From `p`, compile after compile, to the end of the text. */
  ghost predicate Covers(s: Script, ps: seq<nat>, p: nat) {
    if ps == [] then p >= |s.text|
    else
      && ps[0] == p < |s.text| && !s.at(p).CompileError? && p < After(s.at(p), p)
      && Covers(s, ps[1..], After(s.at(p), p))
  }

  /** The statements among what is compiled at these offsets. */
  function StatementsAt(s: Script, ps: seq<nat>): seq<nat> {
    if ps == [] then [] else (if s.at(ps[0]).Statement? then [ps[0]] else []) + StatementsAt(s, ps[1..])
  }

  function Offsets(runs: seq<Event>): seq<nat>
    requires forall i :: 0 <= i < |runs| ==> runs[i].Run?
  {
    seq(|runs|, i requires 0 <= i < |runs| => runs[i].pos)
  }

  lemma {:induction false} RunsAreRuns(events: seq<Event>)
    ensures forall i :: 0 <= i < |Runs(events)| ==> Runs(events)[i].Run?
  {
    if events != [] { RunsAreRuns(events[1..]); }
  }

  lemma OffsetsMore(run: Event, runs: seq<Event>)
    requires run.Run? && forall i :: 0 <= i < |runs| ==> runs[i].Run?
    ensures Offsets([run] + runs) == [run.pos] + Offsets(runs)
  {}

  /** A text that SQLite always gets on in, and that holds no NUL. */
  ghost predicate GetsOn(s: Script) {
    && 0 !in s.text
    && forall p :: 0 <= p < |s.text| ==> s.at(p).CompileError? || p < After(s.at(p), p) <= |s.text|
  }

  /** A walk that ends without an error has gone from compile to compile to the end of the text, and
      has run every statement on its way. */
  lemma {:induction false} NothingIsDropped(s: Script, args: seq<Arg>, pos: nat, used: nat, count: nat)
      returns (ps: seq<nat>)
    requires GetsOn(s) && pos <= |s.text| && used <= |args| && Walk(s, args, pos, used, count).1.Ended?
    ensures var runs := Runs(Walk(s, args, pos, used, count).0);
            && Covers(s, ps, pos) && (forall i :: 0 <= i < |runs| ==> runs[i].Run?)
            && Offsets(runs) == StatementsAt(s, ps)
    decreases |s.text| - pos
  {
    RunsAreRuns(Walk(s, args, pos, used, count).0);
    if pos == |s.text| {
      ps := [];
    } else {
      assert s.text[pos] != 0;
      match s.at(pos)
      case Nothing(next) =>
        var rest := NothingIsDropped(s, args, next, used, count);
        ps := [pos] + rest;
        assert ps[1..] == rest;
      case Statement(next, n, _) =>
        var rest := NothingIsDropped(s, args, next, used + n, count + 1);
        ps := [pos] + rest;
        assert ps[1..] == rest;
        RunsOfTurn(pos, args[used..used + n], Walk(s, args, next, used + n, count + 1).0);
        OffsetsMore(Run(pos, args[used..used + n]), Runs(Walk(s, args, next, used + n, count + 1).0));
    }
  }

  /** The terminating NUL ends the walk, and so does a compile that does not get on. */
  lemma StopsAt(s: Script, args: seq<Arg>, pos: nat, used: nat, count: nat)
    requires pos >= |s.text| || s.text[pos] == 0 || (!s.at(pos).CompileError? && After(s.at(pos), pos) <= pos)
    ensures Walk(s, args, pos, used, count) == ([], Ended(used, count))
  {}

  // ---- Statements ----------------------------------------------------------------------

  /** Statements come at ever later offsets, and each is finalised before the next is compiled. */
  ghost predicate Turns(events: seq<Event>, from: nat) {
    events == [] ||
    (exists p, n :: 2 <= n <= |events| && from <= p && events[0] == Compile(p) && events[n - 1] == Finalise(p) &&
       (n == 2 || (n == 3 && events[1].Run? && events[1].pos == p)) && Turns(events[n..], p + 1))
  }

  lemma OneTurn(pos: nat, events: seq<Event>, from: nat, head: seq<Event>)
    requires from <= pos && Turns(events, pos + 1)
    requires head == [Compile(pos), Finalise(pos)] || exists block :: head == Turn(pos, block)
    ensures Turns(head + events, from)
  {
    assert (head + events)[|head|..] == events;
    assert (head + events)[|head| - 1] == Finalise(pos);
  }

  lemma {:induction false} EachIsFinalised(s: Script, args: seq<Arg>, pos: nat, used: nat, count: nat, from: nat)
    requires used <= |args| && from <= pos
    ensures Turns(Walk(s, args, pos, used, count).0, from)
    decreases |s.text| - pos
  {
    if More(s, pos) {
      match s.at(pos)
      case CompileError =>
      case Nothing(next) => if next > pos { EachIsFinalised(s, args, next, used, count, from); }
      case Statement(next, n, runs) =>
        if next > pos {
          if used + n > |args| {
            OneTurn(pos, [], from, [Compile(pos), Finalise(pos)]);
            assert [Compile(pos), Finalise(pos)] + [] == [Compile(pos), Finalise(pos)];
          } else if !runs {
            OneTurn(pos, [], from, Turn(pos, args[used..used + n]));
            assert Turn(pos, args[used..used + n]) + [] == Turn(pos, args[used..used + n]);
          } else {
            EachIsFinalised(s, args, next, used + n, count + 1, pos + 1);
            OneTurn(pos, Walk(s, args, next, used + n, count + 1).0, from, Turn(pos, args[used..used + n]));
          }
        }
    }
  }

  function Ahead(done: seq<Event>, w: (seq<Event>, Walked)): (seq<Event>, Walked) { (done + w.0, w.1) }

  /** One turn of the loop, after `done`. */
  lemma WalkOn(done: seq<Event>, s: Script, args: seq<Arg>, pos: nat, used: nat, count: nat)
    requires More(s, pos) && used <= |args|
    ensures var ahead := Ahead(done, Walk(s, args, pos, used, count));
            match s.at(pos)
            case CompileError => ahead == (done, Threw)
            case Nothing(next) =>
              ahead == if next <= pos then (done, Ended(used, count)) else Ahead(done, Walk(s, args, next, used, count))
            case Statement(next, n, runs) =>
              var compiled := done + [Compile(pos)];
              ahead == if next <= pos then (done, Ended(used, count))
                       else if used + n > |args| then (compiled + [Finalise(pos)], Threw)
                       else
                         var ran := compiled + [Run(pos, args[used..used + n])] + [Finalise(pos)];
                         if !runs then (ran, Threw) else Ahead(ran, Walk(s, args, next, used + n, count + 1))
  {
    assert done + [] == done;
    match s.at(pos)
    case Statement(next, n, runs) =>
      if next > pos {
        if used + n > |args| {
          assert done + [Compile(pos), Finalise(pos)] == done + [Compile(pos)] + [Finalise(pos)];
        } else {
          var block := args[used..used + n];
          var ran := done + [Compile(pos)] + [Run(pos, block)] + [Finalise(pos)];
          assert done + Turn(pos, block) == ran;
          if runs {
            var rest := Walk(s, args, next, used + n, count + 1).0;
            assert done + (Turn(pos, block) + rest) == ran + rest;
          }
        }
      }
    case _ =>
  }

  lemma WalkEdges(done: seq<Event>, s: Script, args: seq<Arg>, pos: nat, used: nat, count: nat)
    ensures Ahead([], Walk(s, args, pos, used, count)) == Walk(s, args, pos, used, count)
    ensures !More(s, pos) ==> Ahead(done, Walk(s, args, pos, used, count)) == (done, Ended(used, count))
  {
    assert done + [] == done;
    assert [] + Walk(s, args, pos, used, count).0 == Walk(s, args, pos, used, count).0;
  }

  /** runExec: the callback given to forEachStatement is inlined in the loop. */
  method RunExec(s: Script, args: seq<Arg>) returns (ok: bool, events: seq<Event>)
    ensures var w := Walk(s, args, 0, 0, 0); (events, ok) == (w.0, Succeeds(args, w.1))
  {
    ghost var goal := Walk(s, args, 0, 0, 0);
    var pos: nat, at: nat, n: nat := 0, 0, 0;
    events := [];
    WalkEdges([], s, args, 0, 0, 0);
    hide Walk, Ahead;
    while pos < |s.text| && s.text[pos] != 0
      invariant at <= |args|
      invariant goal == Ahead(events, Walk(s, args, pos, at, n))
      decreases |s.text| - pos
    {
      WalkOn(events, s, args, pos, at, n);
      var compiled := s.at(pos);
      if compiled.CompileError? { return false, events; }
      var start := pos;
      if compiled.next <= pos { return n == 0 || at >= |args|, events; }
      pos := compiled.next;
      if compiled.Nothing? { continue; }
      var take := compiled.params;
      events := events + [Compile(start)];
      if at + take > |args| {
        events := events + [Finalise(start)];
        return false, events;
      }
      events := events + [Run(start, args[at..at + take])];
      at := at + take;
      events := events + [Finalise(start)];
      if !compiled.runs { return false, events; }
      n := n + 1;
    }
    WalkEdges(events, s, args, pos, at, n);
    ok := n == 0 || at >= |args|;
  }
}
