/**
 A record of the calls made in a run: what each was asked to do, which thread is still at it,
 and in which order the others took effect.
 */
module Ledgers {

  /** Call number i has the argument args[i]; open[t] is the number of the call that thread t has
      made and that has not taken effect; order[k] is the number of the k-th call to take effect. */
  datatype Ledger<A> = Ledger(args: seq<A>, open: map<nat, nat>, order: seq<nat>)

  function Empty<A>(): Ledger<A> {
    Ledger([], map[], [])
  }

  /** Thread t calls. */
  function Called<A>(l: Ledger<A>, t: nat, a: A): Ledger<A> {
    Ledger(l.args + [a], l.open[t := |l.args|], l.order)
  }

  /** The call of thread t takes effect. */
  function Settled<A>(l: Ledger<A>, t: nat): Ledger<A> {
    if t in l.open then Ledger(l.args, l.open - {t}, l.order + [l.open[t]]) else l
  }

  predicate InRange<A>(l: Ledger<A>) {
    && (forall t :: t in l.open ==> l.open[t] < |l.args|)
    && (forall k :: 0 <= k < |l.order| ==> l.order[k] < |l.args|)
  }

  predicate Distinct(order: seq<nat>) {
    forall j, k :: 0 <= j < k < |order| ==> order[j] != order[k]
  }

  /** No call took effect twice, and none that is open has. */
  predicate Once<A>(l: Ledger<A>) {
    && (forall t, u :: t in l.open && u in l.open && t != u ==> l.open[t] != l.open[u])
    && Distinct(l.order)
    && (forall t, k :: t in l.open && 0 <= k < |l.order| ==> l.open[t] != l.order[k])
  }

  /** Every call has taken effect or is open. */
  predicate Complete<A>(l: Ledger<A>) {
    forall i: nat :: i < |l.args| ==> i in l.order || i in l.open.Values
  }

  predicate Kept<A>(l: Ledger<A>) {
    InRange(l) && Once(l) && Complete(l)
  }

  lemma CalledKept<A>(l: Ledger<A>, t: nat, a: A)
    requires Kept(l) && t !in l.open
    ensures Kept(Called(l, t, a))
  {
    var r := Called(l, t, a);
    forall i: nat | i < |r.args| ensures i in r.order || i in r.open.Values {
      if i == |l.args| {
        assert r.open[t] == i;
      } else if u :| u in l.open && l.open[u] == i {
        assert r.open[u] == i;
      }
    }
  }

  lemma SettledKept<A>(l: Ledger<A>, t: nat)
    requires Kept(l) && t in l.open
    ensures Kept(Settled(l, t))
  {
    var r := Settled(l, t);
    forall i: nat | i < |r.args| ensures i in r.order || i in r.open.Values {
      if i in l.order {
        var k :| 0 <= k < |l.order| && l.order[k] == i;
        assert r.order[k] == i;
      } else if i == l.open[t] {
        assert r.order[|l.order|] == i;
      } else {
        var u :| u in l.open && l.open[u] == i;
        assert r.open[u] == i;
      }
    }
  }

  predicate Below(order: seq<nat>, n: nat) {
    forall k :: 0 <= k < |order| ==> order[k] < n
  }

  /** The arguments of the calls numbered in `order`. */
  function Picked<A>(args: seq<A>, order: seq<nat>): (r: seq<A>)
    requires Below(order, |args|)
    ensures |r| == |order| && forall k :: 0 <= k < |order| ==> r[k] == args[order[k]]
  {
    if order == [] then [] else Picked(args, order[..|order| - 1]) + [args[order[|order| - 1]]]
  }

  /** The arguments of the calls that have taken effect, in the order in which they did. */
  function Effects<A>(l: Ledger<A>): (r: seq<A>)
    requires InRange(l)
    ensures |r| == |l.order| && forall k :: 0 <= k < |r| ==> r[k] == l.args[l.order[k]]
  {
    Picked(l.args, l.order)
  }

  lemma CalledEffects<A>(l: Ledger<A>, t: nat, a: A)
    requires Kept(l)
    ensures InRange(Called(l, t, a)) && Effects(Called(l, t, a)) == Effects(l)
  {
  }

  lemma SettledEffects<A>(l: Ledger<A>, t: nat)
    requires Kept(l) && t in l.open
    ensures InRange(Settled(l, t)) && Effects(Settled(l, t)) == Effects(l) + [l.args[l.open[t]]]
  {
  }

  function Is(b: bool): nat {
    if b then 1 else 0
  }

  ghost function Times<A>(s: seq<A>, a: A): nat {
    if s == [] then 0 else Times(s[..|s| - 1], a) + Is(s[|s| - 1] == a)
  }

  lemma {:induction false} TimesIs<A>(s: seq<A>, a: A)
    ensures Times(s, a) == multiset(s)[a]
  {
    if s != [] {
      TimesIs(s[..|s| - 1], a);
      assert s == s[..|s| - 1] + [s[|s| - 1]];
    }
  }

  /** How often a is the argument of one of the first n calls whose numbers are not in `done`. */
  ghost function Left<A>(args: seq<A>, done: set<nat>, n: nat, a: A): nat
    requires n <= |args|
  {
    if n == 0 then 0 else Left(args, done, n - 1, a) + Is(n - 1 !in done && args[n - 1] == a)
  }

  lemma {:induction false} AllLeft<A>(args: seq<A>, n: nat, a: A)
    requires n <= |args|
    ensures Left(args, {}, n, a) == Times(args[..n], a)
  {
    if n > 0 {
      AllLeft(args, n - 1, a);
      assert args[..n][..n - 1] == args[..n - 1];
    }
  }

  lemma {:induction false} OneLess<A>(args: seq<A>, done: set<nat>, x: nat, n: nat, a: A)
    requires n <= |args| && x < |args| && x !in done
    ensures Left(args, done, n, a) == Left(args, done + {x}, n, a) + Is(x < n && args[x] == a)
  {
    if n > 0 {
      OneLess(args, done, x, n - 1, a);
    }
  }

  function Numbers(order: seq<nat>): set<nat> {
    set x | x in order
  }

  /** What was picked and what is left is everything. */
  lemma {:induction false} PickedAndLeft<A>(args: seq<A>, order: seq<nat>, a: A)
    requires Distinct(order) && Below(order, |args|)
    ensures Times(Picked(args, order), a) + Left(args, Numbers(order), |args|, a) == Times(args, a)
  {
    var n := |args|;
    if order == [] {
      assert Numbers(order) == {};
      AllLeft(args, n, a);
      assert args[..n] == args;
    } else {
      var before, last := order[..|order| - 1], order[|order| - 1];
      assert order == before + [last] && last !in before;
      PickedAndLeft(args, before, a);
      OneLess(args, Numbers(before), last, n, a);
      assert Numbers(order) == Numbers(before) + {last};
      assert Picked(args, order)[..|before|] == Picked(args, before);
    }
  }

  /** What took effect is among what was asked for, each call counting once. */
  lemma AtMostOnce<A>(l: Ledger<A>)
    requires Kept(l)
    ensures multiset(Effects(l)) <= multiset(l.args)
  {
    forall a | a in multiset(Effects(l)) ensures multiset(Effects(l))[a] <= multiset(l.args)[a] {
      PickedAndLeft(l.args, l.order, a);
      TimesIs(Effects(l), a);
      TimesIs(l.args, a);
    }
  }
}
