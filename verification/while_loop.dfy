/**
  `tf.while_loop(cond, body, loop_vars)` over an arbitrary loop-state type,
  with an explicit fuel bound, and the facts about iterating a body that do
  not depend on what the body computes.

  `body` is partial: it may only run on states satisfying the invariant
  `inv`, and it must keep that invariant (`Preserves`).
 */
module WhileLoops {

  /** `body` may run on every state satisfying `inv` and yields one that does too. */
  ghost predicate Preserves<T(!new)>(body: T --> T, inv: T -> bool)
  {
    && (forall s {:trigger body.requires(s)} :: inv(s) ==> body.requires(s))
    && (forall s {:trigger body(s)} :: inv(s) ==> inv(body(s)))
  }

  /** Every run of `body` from a state satisfying `inv` and `p` yields a state satisfying `p`. */
  ghost predicate Keeps<T(!new)>(body: T --> T, inv: T -> bool, p: T -> bool)
    requires Preserves(body, inv)
  {
    forall s {:trigger body(s)} :: inv(s) && p(s) ==> p(body(s))
  }

  /** Every body advances `clock` by one. */
  ghost predicate Ticks<T(!new)>(body: T --> T, inv: T -> bool, clock: T -> nat)
    requires Preserves(body, inv)
  {
    forall s {:trigger body(s)} :: inv(s) ==> clock(body(s)) == clock(s) + 1
  }

  /** `k` applications of `body`, regardless of any loop condition. */
  function Repeat<T(!new)>(body: T --> T, ghost inv: T -> bool, st: T, k: nat): (r: T)
    requires Preserves(body, inv) && inv(st)
    ensures inv(r)
    decreases k
  {
    if k == 0 then st else Repeat(body, inv, body(st), k - 1)
  }

  /** How a bounded loop ended: its last state, how many bodies ran, and whether the condition failed. */
  datatype Run<T> = Run(final: T, steps: nat, stopped: bool)

  /**
    The loop: while `cond` holds and fuel remains, apply `body`. It ran
    `steps <= fuel` bodies and ended in the state after that many; the
    condition held in every state before; it reports `stopped` exactly when
    the condition fails in the last state, and otherwise it used all the fuel.
   */
  function While<T(!new)>(cond: T -> bool, body: T --> T, ghost inv: T -> bool, st: T, fuel: nat): (r: Run<T>)
    requires Preserves(body, inv) && inv(st)
    ensures inv(r.final)
    ensures r.steps <= fuel
    ensures r.final == Repeat(body, inv, st, r.steps)
    ensures r.stopped <==> !cond(r.final)
    ensures !r.stopped ==> r.steps == fuel
    ensures forall j :: 0 <= j < r.steps ==> cond(Repeat(body, inv, st, j))
    decreases fuel
  {
    if !cond(st) then Run(st, 0, true)
    else if fuel == 0 then Run(st, 0, false)
    else
      var r := While(cond, body, inv, body(st), fuel - 1);
      Run(r.final, r.steps + 1, r.stopped)
  }

  /** Running `j + k` bodies is running `j` and then `k`. */
  lemma {:induction false} RepeatSplit<T(!new)>(body: T --> T, inv: T -> bool, st: T, j: nat, k: nat)
    requires Preserves(body, inv) && inv(st)
    ensures Repeat(body, inv, st, j + k) == Repeat(body, inv, Repeat(body, inv, st, j), k)
    decreases j
  {
    if j > 0 {
      RepeatSplit(body, inv, body(st), j - 1, k);
    }
  }

  /** The state after `k + 1` bodies is one body after the state after `k`. */
  lemma RepeatLast<T(!new)>(body: T --> T, inv: T -> bool, st: T, k: nat)
    requires Preserves(body, inv) && inv(st)
    ensures Repeat(body, inv, st, k + 1) == body(Repeat(body, inv, st, k))
  {
    RepeatSplit(body, inv, st, k, 1);
  }

  /** A clock that every body advances by one has advanced by `k` after `k` bodies. */
  lemma {:induction false} RepeatClock<T(!new)>(body: T --> T, inv: T -> bool, clock: T -> nat, st: T, k: nat)
    requires Preserves(body, inv) && inv(st)
    requires Ticks(body, inv, clock)
    ensures clock(Repeat(body, inv, st, k)) == clock(st) + k
    decreases k
  {
    if k > 0 {
      RepeatClock(body, inv, clock, body(st), k - 1);
    }
  }

  /** A second property that every body keeps holds after any number of bodies. */
  lemma {:induction false} RepeatKeeps<T(!new)>(body: T --> T, inv: T -> bool, p: T -> bool, st: T, k: nat)
    requires Preserves(body, inv) && inv(st) && p(st)
    requires Keeps(body, inv, p)
    ensures p(Repeat(body, inv, st, k))
    decreases k
  {
    if k > 0 {
      RepeatKeeps(body, inv, p, body(st), k - 1);
    }
  }

  /** A property that holds after `j` bodies and that every body keeps holds after any `k >= j`. */
  lemma RepeatKeepsFrom<T(!new)>(body: T --> T, inv: T -> bool, p: T -> bool, st: T, j: nat, k: nat)
    requires Preserves(body, inv) && inv(st) && j <= k
    requires p(Repeat(body, inv, st, j))
    requires Keeps(body, inv, p)
    ensures p(Repeat(body, inv, st, k))
  {
    RepeatSplit(body, inv, st, j, k - j);
    RepeatKeeps(body, inv, p, Repeat(body, inv, st, j), k - j);
  }

  /**
    Conversely to `While`: if the condition first fails after `k <= fuel`
    bodies, the loop stops there.
   */
  lemma WhileStopsAtFirstFailure<T(!new)>(cond: T -> bool, body: T --> T, inv: T -> bool, st: T, fuel: nat, k: nat)
    requires Preserves(body, inv) && inv(st) && k <= fuel
    requires !cond(Repeat(body, inv, st, k))
    requires forall j :: 0 <= j < k ==> cond(Repeat(body, inv, st, j))
    ensures While(cond, body, inv, st, fuel) == Run(Repeat(body, inv, st, k), k, true)
  {
    var r := While(cond, body, inv, st, fuel);
  }
}
