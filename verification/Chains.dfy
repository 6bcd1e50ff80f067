/** Chains of steps of any machine. */
module Chains {

  function Repeat<T>(f: T -> T, t: T, k: nat): T
    decreases k
  {
    if k == 0 then t else Repeat(f, f(t), k - 1)
  }

  /** The state after `k` steps of a machine whose step depends on its number. */
  function Fold<S>(f: (S, nat) -> S, s: S, k: nat): S
    decreases k
  {
    if k == 0 then s else f(Fold(f, s, k - 1), k - 1)
  }

  lemma {:induction false} FoldKeeps<S(!new)>(f: (S, nat) -> S, p: (S, nat) -> bool, s: S, k: nat)
    requires p(s, 0)
    requires forall t: S, i: nat | i < k && p(t, i) :: p(f(t, i), i + 1)
    ensures p(Fold(f, s, k), k)
    decreases k
  {
    if k > 0 {
      FoldKeeps(f, p, s, k - 1);
      assert p(f(Fold(f, s, k - 1), k - 1), k - 1 + 1);
    }
  }

  predicate Throughout<T>(ok: T -> bool, f: T -> T, t: T, k: nat)
    decreases k
  {
    k == 0 || (ok(t) && Throughout(ok, f, f(t), k - 1))
  }

  lemma {:induction false} RepeatSplits<T>(ok: T -> bool, f: T -> T, t: T, j: nat, k: nat)
    requires Throughout(ok, f, t, j) && Throughout(ok, f, Repeat(f, t, j), k)
    ensures Throughout(ok, f, t, j + k) && Repeat(f, t, j + k) == Repeat(f, Repeat(f, t, j), k)
    decreases j
  {
    if j > 0 {
      RepeatSplits(ok, f, f(t), j - 1, k);
    }
  }

  /** Induction along a sequence of states. */
  lemma {:induction false} Stepwise<S>(ss: seq<S>, p: S -> bool, i: nat, j: nat)
    requires i <= j < |ss| && p(ss[i])
    requires forall k | i <= k < j && p(ss[k]) :: p(ss[k + 1])
    ensures p(ss[j])
  {
    if i < j {
      Stepwise(ss, p, i, j - 1);
      assert p(ss[j - 1 + 1]);
    }
  }

  /** Induction on a number. */
  lemma {:induction false} UpTo(p: nat -> bool, k: nat)
    requires p(0)
    requires forall i: nat | i < k && p(i) :: p(i + 1)
    ensures p(k)
  {
    if k > 0 {
      UpTo(p, k - 1);
      assert p(k - 1 + 1);
    }
  }

  ghost predicate Chain<S, A>(step: (S, A, S) -> bool, ss: seq<S>, acts: seq<A>, s: S, t: S) {
    && |ss| == |acts| + 1 && ss[0] == s && ss[|acts|] == t
    && forall i | 0 <= i < |acts| :: step(ss[i], acts[i], ss[i + 1])
  }

  ghost predicate Linked<S(!new), A(!new)>(step: (S, A, S) -> bool, s: S, t: S) {
    exists ss: seq<S>, acts: seq<A> :: Chain(step, ss, acts, s, t)
  }

  lemma LinkedToItself<S(!new), A(!new)>(step: (S, A, S) -> bool, s: S)
    ensures Linked(step, s, s)
  {
    var acts: seq<A> := [];
    assert Chain(step, [s], acts, s, s);
  }

  lemma LinkedOn<S(!new), A(!new)>(step: (S, A, S) -> bool, s: S, t: S, a: A, u: S)
    requires Linked(step, s, t) && step(t, a, u)
    ensures Linked(step, s, u)
  {
    var ss, acts :| Chain(step, ss, acts, s, t);
    var us, all := ss + [u], acts + [a];
    forall i | 0 <= i < |all| ensures step(us[i], all[i], us[i + 1]) {
      if i < |acts| {
        assert step(ss[i], acts[i], ss[i + 1]);
      }
    }
    assert Chain(step, us, all, s, u);
  }

  lemma {:induction false} LinkedByRepeating<S(!new), A(!new)>(step: (S, A, S) -> bool, ok: S -> bool, f: S -> S, a: A,
                                                              s0: S, s: S, k: nat)
    requires Linked(step, s0, s) && Throughout(ok, f, s, k)
    requires forall t: S | Linked(step, s0, t) && ok(t) :: step(t, a, f(t))
    ensures Linked(step, s0, Repeat(f, s, k))
    decreases k
  {
    if k > 0 {
      LinkedOn(step, s0, s, a, f(s));
      LinkedByRepeating(step, ok, f, a, s0, f(s), k - 1);
    }
  }

  /** What every step keeps, a chain keeps. */
  lemma LinkedKeeps<S(!new), A(!new)>(step: (S, A, S) -> bool, p: S -> bool, s: S, t: S)
    requires Linked(step, s, t) && p(s)
    requires forall x: S, a: A, y: S | p(x) && step(x, a, y) :: p(y)
    ensures p(t)
  {
    var ss, acts :| Chain(step, ss, acts, s, t);
    forall k | 0 <= k < |ss| - 1 && p(ss[k]) ensures p(ss[k + 1]) {
      assert step(ss[k], acts[k], ss[k + 1]);
    }
    Stepwise(ss, p, 0, |acts|);
  }

  /** Some step leads from `s` to `t`. */
  ghost predicate OneStep<S(!new), A(!new)>(step: (S, A, S) -> bool, s: S, t: S) {
    exists a: A :: step(s, a, t)
  }

  /** A chain of one machine is, seen through `f`, a chain of another. */
  lemma {:induction false} LinkedThrough<S(!new), A(!new), T(!new), B(!new)>(
      step: (S, A, S) -> bool, other: (T, B, T) -> bool, f: S -> T, s: S, t: S, u: T)
    requires Linked(step, s, t) && Linked(other, u, f(s))
    requires forall x: S, a: A, y: S | step(x, a, y) :: OneStep(other, f(x), f(y))
    ensures Linked(other, u, f(t))
  {
    var ss, acts :| Chain(step, ss, acts, s, t);
    forall k | 0 <= k < |ss| - 1 && Linked(other, u, f(ss[k])) ensures Linked(other, u, f(ss[k + 1])) {
      assert step(ss[k], acts[k], ss[k + 1]) && OneStep(other, f(ss[k]), f(ss[k + 1]));
      var b: B :| other(f(ss[k]), b, f(ss[k + 1]));
      LinkedOn(other, u, f(ss[k]), b, f(ss[k + 1]));
    }
    ghost var reached: S -> bool := (x: S) => Linked(other, u, f(x));
    Stepwise(ss, reached, 0, |acts|);
  }

  lemma LinkedJoins<S(!new), A(!new)>(step: (S, A, S) -> bool, s: S, t: S, u: S)
    requires Linked(step, s, t) && Linked(step, t, u)
    ensures Linked(step, s, u)
  {
    var f := (x: S) => x;
    forall x: S, a: A, y: S | step(x, a, y) ensures OneStep(step, f(x), f(y)) {
      assert step(f(x), a, f(y));
    }
    LinkedThrough(step, step, f, t, u, s);
  }

  // ----- the last of the values that events give -----

  datatype Option<T> = None | Some(value: T)

  /** The last value given before event `k`, or `first` if there is none. */
  function Latest<A, V>(gives: A -> Option<V>, acts: seq<A>, k: nat, first: V): V
    requires k <= |acts|
    decreases k
  {
    if k == 0 then first
    else if gives(acts[k - 1]).Some? then gives(acts[k - 1]).value
    else Latest(gives, acts, k - 1, first)
  }

  /** Event `j` is the last one before `k` that gives a value. */
  predicate LastGiver<A, V>(gives: A -> Option<V>, acts: seq<A>, j: nat, k: nat)
    requires k <= |acts|
  {
    j < k && gives(acts[j]).Some? && forall l | j < l < k :: gives(acts[l]).None?
  }

  predicate NoneGives<A, V>(gives: A -> Option<V>, acts: seq<A>, k: nat)
    requires k <= |acts|
  {
    forall l | 0 <= l < k :: gives(acts[l]).None?
  }

  lemma {:induction false} LatestIsLast<A, V>(gives: A -> Option<V>, acts: seq<A>, k: nat, first: V)
    requires k <= |acts|
    ensures NoneGives(gives, acts, k) ==> Latest(gives, acts, k, first) == first
    ensures forall j: nat | LastGiver(gives, acts, j, k) :: Latest(gives, acts, k, first) == gives(acts[j]).value
    decreases k
  {
    if k > 0 && gives(acts[k - 1]).None? {
      LatestIsLast(gives, acts, k - 1, first);
      forall j: nat | LastGiver(gives, acts, j, k) ensures LastGiver(gives, acts, j, k - 1) {
      }
    }
  }

  /** What each event that gives a value sets, and no other changes, is the last value given. */
  lemma {:induction false} LatestStands<S, A, V>(gives: A -> Option<V>, value: S -> V, ss: seq<S>, acts: seq<A>, k: nat)
    requires |ss| == |acts| + 1 && k <= |acts|
    requires forall i | 0 <= i < k ::
               value(ss[i + 1]) == if gives(acts[i]).Some? then gives(acts[i]).value else value(ss[i])
    ensures value(ss[k]) == Latest(gives, acts, k, value(ss[0]))
    decreases k
  {
    if k > 0 {
      LatestStands(gives, value, ss, acts, k - 1);
      assert value(ss[k - 1 + 1]) == value(ss[k]);
    }
  }

  lemma {:induction false} LatestOfPrefix<A, V>(gives: A -> Option<V>, a: seq<A>, b: seq<A>, k: nat, first: V)
    requires k <= |a|
    ensures Latest(gives, a + b, k, first) == Latest(gives, a, k, first)
    decreases k
  {
    if k > 0 {
      LatestOfPrefix(gives, a, b, k - 1, first);
    }
  }

  lemma {:induction false} LatestJoins<A, V>(gives: A -> Option<V>, a: seq<A>, b: seq<A>, k: nat, first: V)
    requires k <= |b|
    ensures Latest(gives, a + b, |a| + k, first) == Latest(gives, b, k, Latest(gives, a, |a|, first))
    decreases k
  {
    if k == 0 {
      LatestOfPrefix(gives, a, b, |a|, first);
    } else {
      assert (a + b)[|a| + k - 1] == b[k - 1];
      LatestJoins(gives, a, b, k - 1, first);
    }
  }
}
