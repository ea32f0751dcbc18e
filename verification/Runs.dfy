/**
 * Runs of a state machine: `apply` takes one operation, `legal` says which operations may be taken
 * (fresh identifiers, timing hypotheses), and a run is any legal sequence of operations.
 */
module Runs {
  ghost function After<S, O>(init: S, apply: (S, O) -> S, ops: seq<O>): S
    decreases |ops|
  {
    if ops == [] then init else apply(After(init, apply, ops[..|ops| - 1]), ops[|ops| - 1])
  }

  ghost predicate LegalRun<S, O>(init: S, apply: (S, O) -> S, legal: (S, O) -> bool, ops: seq<O>)
    decreases |ops|
  {
    ops != [] ==>
      && LegalRun(init, apply, legal, ops[..|ops| - 1])
      && legal(After(init, apply, ops[..|ops| - 1]), ops[|ops| - 1])
  }

  ghost predicate Kept<S(!new), O(!new)>(apply: (S, O) -> S, legal: (S, O) -> bool, inv: S -> bool) {
    forall s, o :: inv(s) && legal(s, o) ==> inv(apply(s, o))
  }

  ghost predicate Related<S(!new), O(!new)>(apply: (S, O) -> S, legal: (S, O) -> bool, inv: S -> bool,
                                            rel: (S, S) -> bool) {
    forall s, o :: inv(s) && legal(s, o) ==> rel(s, apply(s, o))
  }

  ghost predicate Preorder<S(!new)>(rel: (S, S) -> bool) {
    && (forall s :: rel(s, s))
    && (forall a, b, c :: rel(a, b) && rel(b, c) ==> rel(a, c))
  }

  lemma {:induction false} InvariantHolds<S(!new), O(!new)>(init: S, apply: (S, O) -> S, legal: (S, O) -> bool,
                                                            inv: S -> bool, ops: seq<O>)
    requires inv(init) && Kept(apply, legal, inv) && LegalRun(init, apply, legal, ops)
    ensures inv(After(init, apply, ops))
    decreases |ops|
  {
    if ops != [] {
      InvariantHolds(init, apply, legal, inv, ops[..|ops| - 1]);
    }
  }

  lemma {:induction false} PrefixLegal<S(!new), O(!new)>(init: S, apply: (S, O) -> S, legal: (S, O) -> bool,
                                                         ops: seq<O>, n: nat)
    requires LegalRun(init, apply, legal, ops) && n <= |ops|
    ensures LegalRun(init, apply, legal, ops[..n])
    decreases |ops|
  {
    if n < |ops| {
      var front := ops[..|ops| - 1];
      PrefixLegal(init, apply, legal, front, n);
      assert front[..n] == ops[..n];
    } else {
      assert ops[..n] == ops;
    }
  }

  /** A preorder kept by every step relates any two states of a run. */
  lemma {:induction false} StatesRelated<S(!new), O(!new)>(init: S, apply: (S, O) -> S, legal: (S, O) -> bool,
                                                           inv: S -> bool, rel: (S, S) -> bool, ops: seq<O>,
                                                           n: nat)
    requires inv(init) && Kept(apply, legal, inv) && Related(apply, legal, inv, rel) && Preorder(rel)
    requires LegalRun(init, apply, legal, ops) && n <= |ops|
    ensures rel(After(init, apply, ops[..n]), After(init, apply, ops))
    decreases |ops|
  {
    if n == |ops| {
      assert ops[..n] == ops;
    } else {
      var front := ops[..|ops| - 1];
      assert front[..n] == ops[..n];
      StatesRelated(init, apply, legal, inv, rel, front, n);
      InvariantHolds(init, apply, legal, inv, front);
    }
  }

  /** How many steps of a run are an `event`. */
  ghost function Count<S, O>(init: S, apply: (S, O) -> S, event: (S, O) -> bool, ops: seq<O>): nat
    decreases |ops|
  {
    if ops == [] then 0
    else Count(init, apply, event, ops[..|ops| - 1])
         + (if event(After(init, apply, ops[..|ops| - 1]), ops[|ops| - 1]) then 1 else 0)
  }

  /** If the event happens exactly when a flag goes up, and the flag never goes down, it happens at most once. */
  lemma {:induction false} CountsOnce<S(!new), O(!new)>(init: S, apply: (S, O) -> S, legal: (S, O) -> bool,
                                                        inv: S -> bool, event: (S, O) -> bool, flag: S -> bool,
                                                        ops: seq<O>)
    requires inv(init) && Kept(apply, legal, inv) && LegalRun(init, apply, legal, ops) && !flag(init)
    requires forall s, o :: inv(s) && legal(s, o) ==>
               if event(s, o) then !flag(s) && flag(apply(s, o)) else flag(apply(s, o)) == flag(s)
    ensures Count(init, apply, event, ops) == if flag(After(init, apply, ops)) then 1 else 0
    decreases |ops|
  {
    if ops != [] {
      var front := ops[..|ops| - 1];
      CountsOnce(init, apply, legal, inv, event, flag, front);
      InvariantHolds(init, apply, legal, inv, front);
    }
  }

  /** If the event needs a flag to be down and raises it, and the flag never goes down, it happens at most once. */
  lemma {:induction false} CountsAtMostOnce<S(!new), O(!new)>(init: S, apply: (S, O) -> S,
                                                              legal: (S, O) -> bool, inv: S -> bool,
                                                              event: (S, O) -> bool, flag: S -> bool,
                                                              ops: seq<O>)
    requires inv(init) && Kept(apply, legal, inv) && LegalRun(init, apply, legal, ops)
    requires forall s, o :: inv(s) && legal(s, o) ==>
               if event(s, o) then !flag(s) && flag(apply(s, o)) else flag(s) ==> flag(apply(s, o))
    ensures Count(init, apply, event, ops) <= 1
    ensures Count(init, apply, event, ops) == 1 ==> flag(After(init, apply, ops))
    decreases |ops|
  {
    if ops != [] {
      var front := ops[..|ops| - 1];
      CountsAtMostOnce(init, apply, legal, inv, event, flag, front);
      InvariantHolds(init, apply, legal, inv, front);
    }
  }

  /** A run with one more operation. */
  lemma Extend<S, O>(init: S, apply: (S, O) -> S, legal: (S, O) -> bool, ops: seq<O>, op: O)
    ensures After(init, apply, ops + [op]) == apply(After(init, apply, ops), op)
    ensures LegalRun(init, apply, legal, ops + [op]) <==>
            LegalRun(init, apply, legal, ops) && legal(After(init, apply, ops), op)
  {
    assert (ops + [op])[..|ops|] == ops;
  }
}
