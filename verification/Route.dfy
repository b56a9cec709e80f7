/** The hand-off in binding/worker.go: frames under a mutex, a wake channel of capacity one,
    and a `signal` that runs after the mutex has been released. */
module Route {
  import opened Wrappers

  type FrameBytes = seq<int>
  type Error = string

  /** The fields of route; `token` is the one element its wake channel can hold. */
  datatype State = State(frames: seq<FrameBytes>, err: Option<Error>, closed: bool, token: bool)

  /** What one look under the mutex tells `next`. */
  datatype Look = Frame(f: FrameBytes) | Failed(e: Error) | EndOfRoute | Nothing

  function Empty(): State { State([], None, false, false) }

  function Pushed(s: State, f: FrameBytes): State { s.(frames := s.frames + [f]) }

  function FailedWith(s: State, e: Error): State {
    s.(err := if s.err.None? then Some(e) else s.err, closed := true)
  }

  function Looked(s: State): (State, Look) {
    if s.frames != [] then (s.(frames := s.frames[1..]), Frame(s.frames[0]))
    else if s.err.Some? then (s, Failed(s.err.value))
    else if s.closed then (s, EndOfRoute)
    else (s, Nothing)
  }

  /** The route itself: each method is one section under the mutex, or one channel operation. */
  class Route {
    var frames: seq<FrameBytes>
    var err: Option<Error>
    var closed: bool
    var token: bool

    function Value(): State
      reads this
    {
      State(frames, err, closed, token)
    }

    constructor ()
      ensures Value() == Empty()
    {
      frames, err, closed, token := [], None, false, false;
    }

    method PushLocked(f: FrameBytes)
      modifies this
      ensures Value() == Pushed(old(Value()), f)
    {
      frames := frames + [f];
    }

    method FailLocked(e: Error)
      modifies this
      ensures Value() == FailedWith(old(Value()), e)
    {
      if err.None? { err := Some(e); }
      closed := true;
    }

    /** A send that never blocks: it is dropped when the channel is full. */
    method Signal()
      modifies this
      ensures Value() == old(Value()).(token := true)
    {
      token := true;
    }

    method LookLocked() returns (look: Look)
      modifies this
      ensures (Value(), look) == Looked(old(Value()))
    {
      if |frames| > 0 {
        look := Frame(frames[0]);
        frames := frames[1..];
        return;
      }
      match err
      case Some(e) => look := Failed(e);
      case None => look := if closed then EndOfRoute else Nothing;
    }
  }

  // ---- Every interleaving of push, fail, signal and next -----------------------------

  /** The reader is outside next, about to look, or at the select that waits for the token. */
  datatype Waiter = Outside | Looking | AtSelect

  /** `signals` counts pushes and failures whose signal has still to be sent; the rest is history:
      all frames pushed, the error of the first failure and how many frames were pushed before it,
      and everything next has returned, but for the ends of contexts. */
  datatype System = System(
    route: State, waiter: Waiter, signals: nat,
    pushed: seq<FrameBytes>, first: Option<Error>, before: nat, said: seq<Look>)

  /** The frames among what next has returned. */
  function Returned(said: seq<Look>): seq<FrameBytes> {
    if said == [] then []
    else Returned(said[..|said| - 1]) + if said[|said| - 1].Frame? then [said[|said| - 1].f] else []
  }

  datatype Action =
    | Push(f: FrameBytes) | Fail(e: Error) | SendSignal
    | CallNext | LookAgain | TakeToken | CtxDone

  predicate Enabled(y: System, a: Action) {
    match a
    case Push(_) => true
    case Fail(_) => true
    case SendSignal => y.signals > 0
    case CallNext => y.waiter.Outside?
    case LookAgain => y.waiter.Looking?
    case TakeToken => y.waiter.AtSelect? && y.route.token
    case CtxDone => y.waiter.AtSelect?
  }

  function Step(y: System, a: Action): System
    requires Enabled(y, a)
  {
    match a
    case Push(f) => y.(route := Pushed(y.route, f), signals := y.signals + 1, pushed := y.pushed + [f])
    case Fail(e) =>
      y.(route := FailedWith(y.route, e), signals := y.signals + 1,
         first := if y.first.None? then Some(e) else y.first, before := if y.first.None? then |y.pushed| else y.before)
    case SendSignal => y.(route := y.route.(token := true), signals := y.signals - 1)
    case CallNext => y.(waiter := Looking)
    case LookAgain =>
      var (r, look) := Looked(y.route);
      if look.Nothing? then y.(route := r, waiter := AtSelect)
      else y.(route := r, waiter := Outside, said := y.said + [look])
    case TakeToken => y.(route := y.route.(token := false), waiter := Looking)
    case CtxDone => y.(waiter := Outside)
  }

  predicate SomethingToReturn(y: System) {
    y.route.frames != [] || y.route.err.Some? || y.route.closed
  }

  /** An honest answer: a frame, or the first failure's error once all frames pushed before it have
      been returned; never an end of the route. */
  predicate Honest(y: System, k: nat)
    requires k < |y.said|
  {
    match y.said[k]
    case Frame(_) => true
    case Failed(e) => y.first == Some(e) && y.before <= |Returned(y.said[..k])|
    case EndOfRoute => false
    case Nothing => false
  }

  /** The invariant. */
  predicate Inv(y: System) {
    // A waiter is never left with something to return and nothing to wake it.
    && (y.waiter.AtSelect? && SomethingToReturn(y) ==> y.route.token || y.signals > 0)
    // First in, first out, and nothing lost.
    && Returned(y.said) + y.route.frames == y.pushed
    && y.route.err == y.first
    && (y.route.closed <==> y.first.Some?)
    && (y.first.Some? ==> y.before <= |y.pushed|)
    && forall k :: 0 <= k < |y.said| ==> Honest(y, k)
  }

  ghost predicate IsRun(run: seq<System>) {
    && |run| > 0
    && run[0] == System(Empty(), Outside, 0, [], None, 0, [])
    && forall i :: 0 <= i < |run| - 1 ==> Transition(run[i], run[i + 1])
  }

  ghost predicate Transition(y: System, z: System) {
    exists a :: Enabled(y, a) && z == Step(y, a)
  }

  lemma ReturnedMore(said: seq<Look>, look: Look)
    ensures Returned(said + [look]) == Returned(said) + if look.Frame? then [look.f] else []
  {
    assert (said + [look])[..|said|] == said;
  }

  /** What has been said stays honest. */
  lemma StaysHonest(y: System, z: System, more: seq<Look>)
    requires Inv(y) && z.said == y.said + more && |more| <= 1
    requires y.first.Some? ==> z.first == y.first && z.before == y.before
    requires more != [] ==> Honest(z, |y.said|)
    ensures forall k :: 0 <= k < |z.said| ==> Honest(z, k)
  {
    forall k | 0 <= k < |z.said| ensures Honest(z, k) {
      if k < |y.said| {
        assert Honest(y, k) && z.said[..k] == y.said[..k] && z.said[k] == y.said[k];
      }
    }
  }

  lemma LookKeeps(y: System)
    requires Inv(y) && Enabled(y, LookAgain)
    ensures Inv(Step(y, LookAgain))
  {
    var z := Step(y, LookAgain);
    var look := Looked(y.route).1;
    if look.Nothing? {
      assert y.said + [] == y.said;
      StaysHonest(y, z, []);
    } else {
      ReturnedMore(y.said, look);
      assert (y.said + [look])[..|y.said|] == y.said;
      if look.Frame? {
        assert y.route.frames == [y.route.frames[0]] + y.route.frames[1..];
        assert (Returned(y.said) + [y.route.frames[0]]) + y.route.frames[1..] == y.pushed;
      } else {
        assert Returned(y.said) + [] == Returned(y.said);
      }
      StaysHonest(y, z, [look]);
    }
  }

  lemma StepKeeps(y: System, a: Action)
    requires Inv(y) && Enabled(y, a)
    ensures Inv(Step(y, a))
  {
    if a.LookAgain? {
      LookKeeps(y);
    } else {
      assert y.said + [] == y.said;
      StaysHonest(y, Step(y, a), []);
      if a.Push? { assert Returned(y.said) + (y.route.frames + [a.f]) == y.pushed + [a.f]; }
      hide Honest;
    }
  }

  /** No lost wake-up, first in first out, and no error before the frames that preceded it: in
      every interleaving. */
  lemma {:induction false} NoLostWakeUp(run: seq<System>)
    requires IsRun(run)
    ensures Inv(run[|run| - 1])
  {
    hide Enabled, Step;
    if |run| > 1 {
      var n := |run| - 1;
      assert Transition(run[n - 1], run[n]);
      NoLostWakeUp(run[..n]);
      var a :| Enabled(run[n - 1], a) && run[n] == Step(run[n - 1], a);
      hide Inv;
      StepKeeps(run[n - 1], a);
    }
  }

  /** What next does with a look, in every reachable state: the oldest frame not yet returned; if
      there is none, the error of the first failure; if there was none, it waits. */
  lemma LookSays(run: seq<System>)
    requires IsRun(run) && run[|run| - 1].waiter.Looking?
    ensures var y := run[|run| - 1];
            var z := Step(y, LookAgain);
            var n := |Returned(y.said)|;
            && n <= |y.pushed|
            && (if n < |y.pushed| then z.waiter.Outside? && z.said == y.said + [Frame(y.pushed[n])]
                else match y.first
                  case Some(e) => z.waiter.Outside? && z.said == y.said + [Failed(e)]
                  case None => z.waiter.AtSelect? && z.said == y.said)
  {
    NoLostWakeUp(run);
  }

  function Do(y: System, actions: seq<Action>): Option<System>
    decreases |actions|
  {
    if actions == [] then Some(y)
    else if Enabled(y, actions[0]) then Do(Step(y, actions[0]), actions[1..])
    else None
  }

  /** So a waiter is served without anyone's help: the signal that is still pending, if the token
      is not there yet, then the token and one more look return the oldest frame, or the first
      failure's error when there is no frame. */
  lemma WaiterIsServed(y: System)
    requires Inv(y) && y.waiter.AtSelect? && (y.route.frames != [] || y.first.Some?)
    ensures var z := Do(y, (if y.route.token then [] else [SendSignal]) + [TakeToken, LookAgain]);
            && z.Some? && z.value.waiter.Outside?
            && z.value.said ==
                 y.said + [if y.route.frames != [] then Frame(y.route.frames[0]) else Failed(y.first.value)]
            && z.value.route.frames == if y.route.frames != [] then y.route.frames[1..] else []
  {
    var w := if y.route.token then y else Step(y, SendSignal);
    assert Do(w, [TakeToken, LookAgain]) == Do(Step(w, TakeToken), [LookAgain]);
    assert Do(Step(w, TakeToken), [LookAgain]) == Do(Step(Step(w, TakeToken), LookAgain), []);
    if !y.route.token {
      assert ([SendSignal] + [TakeToken, LookAgain])[1..] == [TakeToken, LookAgain];
    } else {
      assert [] + [TakeToken, LookAgain] == [TakeToken, LookAgain];
    }
  }
}
