/** Where every sqlite3_stmt handle is: at one place, finalised, or lost. */
module Ledger {
  import opened Wrappers
  import opened Session

  datatype Place = Cached(db: nat, sql: Sql) | Listed(stmt: nat) | Held(request: nat)

  datatype Book = Book(at: map<Place, Handle>, finalised: seq<Handle>, lost: seq<Handle>, next: Handle)

  /** The handle is at a place. */
  ghost predicate IsAt(l: Book, h: Handle) {
    exists p :: p in l.at && l.at[p] == h
  }

  /** Every handle ever compiled is at exactly one place, or finalised exactly once, or lost. */
  ghost predicate Balanced(l: Book) {
    && (forall p, q :: p in l.at && q in l.at && l.at[p] == l.at[q] ==> p == q)
    && (forall p :: p in l.at ==> l.at[p] < l.next && l.at[p] !in l.finalised && l.at[p] !in l.lost)
    && (forall h :: h in l.finalised ==> h < l.next && h !in l.lost)
    && (forall h :: h in l.lost ==> h < l.next)
    && NoDup(l.finalised) && NoDup(l.lost)
    && (forall h :: 0 <= h < l.next ==> h in l.finalised || h in l.lost || IsAt(l, h))
  }

  function Take(l: Book, p: Place): Book { l.(at := l.at - {p}) }

  function New(l: Book, p: Place): Book { l.(at := l.at[p := l.next], next := l.next + 1) }

  function NewDead(l: Book): Book { l.(finalised := l.finalised + [l.next], next := l.next + 1) }

  /** Two handles compiled and both finalised, the second one first. */
  function NewDeadPair(l: Book): Book {
    l.(finalised := l.finalised + [l.next + 1, l.next], next := l.next + 2)
  }

  function NewLost(l: Book): Book { l.(lost := l.lost + [l.next], next := l.next + 1) }

  function Move(l: Book, p: Place, q: Place): Book
    requires p in l.at
  {
    l.(at := (l.at - {p})[q := l.at[p]])
  }

  function Kill(l: Book, p: Place): Book
    requires p in l.at
  {
    l.(at := l.at - {p}, finalised := l.finalised + [l.at[p]])
  }

  function HandlesAt(at: map<Place, Handle>, ps: seq<Place>): seq<Handle>
    requires forall p :: p in ps ==> p in at
  {
    seq(|ps|, i requires 0 <= i < |ps| => at[ps[i]])
  }

  function KillAll(l: Book, ps: seq<Place>): Book
    requires forall p :: p in ps ==> p in l.at
  {
    l.(at := map p | p in l.at && p !in ps :: l.at[p], finalised := l.finalised + HandlesAt(l.at, ps))
  }

  lemma AppendDistinct(s: seq<Handle>, h: Handle)
    requires NoDup(s) && h !in s
    ensures NoDup(s + [h])
    ensures forall k :: k in s + [h] <==> k in s || k == h
  {
    forall k ensures k in s + [h] <==> k in s || k == h {
      if k == h { assert (s + [h])[|s|] == h; }
      if k in s { var i :| 0 <= i < |s| && s[i] == k; assert (s + [h])[i] == k; }
    }
  }

  /** Whatever is at a place in `l` is still at one, if `m` keeps it there. */
  lemma StillAt(l: Book, m: Book, h: Handle)
    requires IsAt(l, h)
    requires forall p :: p in l.at && l.at[p] == h ==> p in m.at && m.at[p] == h
    ensures IsAt(m, h)
  {}

  lemma NewBalanced(l: Book, p: Place)
    requires Balanced(l) && p !in l.at
    ensures Balanced(New(l, p))
  {
    var m := New(l, p);
    forall h | 0 <= h < m.next ensures h in m.finalised || h in m.lost || IsAt(m, h) {
      if h == l.next { assert m.at[p] == h; }
      else if IsAt(l, h) { var q :| q in l.at && l.at[q] == h; assert m.at[q] == h; }
    }
  }

  lemma NewDeadBalanced(l: Book)
    requires Balanced(l)
    ensures Balanced(NewDead(l))
  {
    var m := NewDead(l);
    AppendDistinct(l.finalised, l.next);
    forall h | 0 <= h < m.next ensures h in m.finalised || h in m.lost || IsAt(m, h) {
      if h != l.next && IsAt(l, h) { StillAt(l, m, h); }
    }
  }

  lemma NewDeadPairBalanced(l: Book)
    requires Balanced(l)
    ensures Balanced(NewDeadPair(l))
  {
    var m := NewDeadPair(l);
    AppendDistinct(l.finalised, l.next + 1);
    AppendDistinct(l.finalised + [l.next + 1], l.next);
    assert l.finalised + [l.next + 1] + [l.next] == m.finalised;
    forall h | 0 <= h < m.next ensures h in m.finalised || h in m.lost || IsAt(m, h) {
      if h < l.next && IsAt(l, h) { StillAt(l, m, h); }
    }
  }

  lemma NewLostBalanced(l: Book)
    requires Balanced(l)
    ensures Balanced(NewLost(l))
  {
    var m := NewLost(l);
    AppendDistinct(l.lost, l.next);
    forall h | 0 <= h < m.next ensures h in m.finalised || h in m.lost || IsAt(m, h) {
      if h != l.next && IsAt(l, h) { StillAt(l, m, h); }
    }
  }

  lemma MoveBalanced(l: Book, p: Place, q: Place)
    requires Balanced(l) && p in l.at && (q == p || q !in l.at)
    ensures Balanced(Move(l, p, q))
  {
    var m := Move(l, p, q);
    forall h | 0 <= h < m.next ensures h in m.finalised || h in m.lost || IsAt(m, h) {
      if IsAt(l, h) {
        var r :| r in l.at && l.at[r] == h;
        assert m.at[if r == p then q else r] == h;
      }
    }
  }

  lemma KillBalanced(l: Book, p: Place)
    requires Balanced(l) && p in l.at
    ensures Balanced(Kill(l, p))
  {
    var m := Kill(l, p);
    AppendDistinct(l.finalised, l.at[p]);
    forall h | 0 <= h < m.next ensures h in m.finalised || h in m.lost || IsAt(m, h) {
      if h != l.at[p] && IsAt(l, h) { StillAt(l, m, h); }
    }
  }

  lemma {:induction false} KillAllBalanced(l: Book, ps: seq<Place>)
    requires Balanced(l) && forall p :: p in ps ==> p in l.at
    requires NoDup(ps)
    ensures Balanced(KillAll(l, ps))
  {
    if ps == [] {
      assert KillAll(l, ps) == l;
    } else {
      var n := |ps| - 1;
      var before := KillAll(l, ps[..n]);
      KillAllBalanced(l, ps[..n]);
      KillOneMore(l, ps);
      hide Balanced, KillAll, Kill;
      KillBalanced(before, ps[n]);
    }
  }

  lemma KillOneMore(l: Book, ps: seq<Place>)
    requires ps != [] && forall p :: p in ps ==> p in l.at
    requires NoDup(ps)
    ensures var before := KillAll(l, ps[..|ps| - 1]); var last := ps[|ps| - 1];
            last in before.at && KillAll(l, ps) == Kill(before, last)
  {
    var n := |ps| - 1;
    var before := KillAll(l, ps[..n]);
    assert ps == ps[..n] + [ps[n]];
    assert forall p :: p in ps <==> p in ps[..n] || p == ps[n];
    assert before.at - {ps[n]} == KillAll(l, ps).at;
    assert HandlesAt(l.at, ps) == HandlesAt(l.at, ps[..n]) + [l.at[ps[n]]];
  }

  function HandlesFrom(from: Handle, n: nat): seq<Handle> { seq(n, i requires 0 <= i < n => from + i) }

  /** Handles compiled and finalised one after the other. */
  function NewDeadMany(l: Book, n: nat): Book {
    l.(finalised := l.finalised + HandlesFrom(l.next, n), next := l.next + n)
  }

  lemma {:induction false} NewDeadManyBalanced(l: Book, n: nat)
    requires Balanced(l)
    ensures Balanced(NewDeadMany(l, n))
  {
    if n == 0 {
      assert NewDeadMany(l, n) == l;
    } else {
      NewDeadManyBalanced(l, n - 1);
      NewDeadOneMore(l, n);
      hide Balanced, NewDead, NewDeadMany;
      NewDeadBalanced(NewDeadMany(l, n - 1));
    }
  }

  lemma NewDeadOneMore(l: Book, n: nat)
    requires n > 0
    ensures NewDeadMany(l, n) == NewDead(NewDeadMany(l, n - 1))
  {
    assert HandlesFrom(l.next, n) == HandlesFrom(l.next, n - 1) + [l.next + n - 1];
  }
}
