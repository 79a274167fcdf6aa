/**
 Repeated application of a step function, and the facts about it that do not
 depend on what the step does.
 */
module Iteration {

  /** `n` applications of `f`, starting from `x`. */
  function Repeat<T>(f: T -> T, x: T, n: nat): T
    decreases n
  {
    if n == 0 then x else Repeat(f, f(x), n - 1)
  }

  /** Repeating n times and then k more times is repeating n + k times. */
  lemma {:induction false} RepeatAdditive<T>(f: T -> T, x: T, n: nat, k: nat)
    ensures Repeat(f, Repeat(f, x, n), k) == Repeat(f, x, n + k)
    decreases n
  {
    if n > 0 {
      RepeatAdditive(f, f(x), n - 1, k);
    }
  }

  /** The last of n + 1 applications is applied to the result of the first n. */
  lemma {:induction false} RepeatLast<T>(f: T -> T, x: T, n: nat)
    ensures Repeat(f, x, n + 1) == f(Repeat(f, x, n))
    decreases n
  {
    if n > 0 {
      RepeatLast(f, f(x), n - 1);
    }
  }

  /** A property that every application of `f` preserves holds after any
      number of applications. */
  lemma {:induction false} RepeatInvariant<T>(f: T -> T, inv: T -> bool, x: T, n: nat)
    requires forall y :: inv(y) ==> inv(f(y))
    requires inv(x)
    ensures inv(Repeat(f, x, n))
    decreases n
  {
    if n > 0 {
      RepeatInvariant(f, inv, f(x), n - 1);
    }
  }

  /** A measure that every application of `f` raises by one is raised by n
      after n applications. */
  lemma {:induction false} RepeatCounts<T>(f: T -> T, g: T -> int, x: T, n: nat)
    requires forall y :: g(f(y)) == g(y) + 1
    ensures g(Repeat(f, x, n)) == g(x) + n
    decreases n
  {
    if n > 0 {
      RepeatCounts(f, g, f(x), n - 1);
    }
  }

  /** A property that every application of `f` establishes holds after any
      positive number of applications. */
  lemma RepeatEstablishes<T>(f: T -> T, p: T -> bool, x: T, n: nat)
    requires forall y :: p(f(y))
    requires n > 0
    ensures p(Repeat(f, x, n))
  {
    RepeatLast(f, x, n - 1);
  }
}
