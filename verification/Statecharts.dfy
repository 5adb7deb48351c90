/** Runs of an event-driven machine: a word of events folded over its step function. */
module Statecharts {
  import opened Options

  function Run<S, E>(step: (S, E) -> S, s: S, es: seq<E>): S
    decreases |es|
  {
    if es == [] then s else Run(step, step(s, es[0]), es[1..])
  }

  /** Every event of the word satisfies ok in the state where it is taken. */
  ghost predicate Along<S, E>(step: (S, E) -> S, ok: (S, E) -> bool, s: S, es: seq<E>)
    decreases |es|
  {
    es == [] || (ok(s, es[0]) && Along(step, ok, step(s, es[0]), es[1..]))
  }

  /** p holds in s and in every state the word leads through. */
  ghost predicate Always<S, E>(step: (S, E) -> S, p: S -> bool, s: S, es: seq<E>)
    decreases |es|
  {
    p(s) && (es == [] || Always(step, p, step(s, es[0]), es[1..]))
  }

  lemma {:induction false} RunAppend<S, E>(step: (S, E) -> S, s: S, a: seq<E>, b: seq<E>)
    ensures Run(step, s, a + b) == Run(step, Run(step, s, a), b)
    decreases |a|
  {
    if a == [] {
      assert a + b == b;
    } else {
      assert (a + b)[1..] == a[1..] + b;
      RunAppend(step, step(s, a[0]), a[1..], b);
    }
  }

  /** A property holds along a + b exactly when it holds along a and, from where a leads, along b. */
  lemma {:induction false} AlwaysAppend<S, E>(step: (S, E) -> S, p: S -> bool, s: S, a: seq<E>, b: seq<E>)
    ensures Always(step, p, s, a + b) <==> Always(step, p, s, a) && Always(step, p, Run(step, s, a), b)
    decreases |a|
  {
    if a == [] {
      assert a + b == b;
    } else {
      assert (a + b)[1..] == a[1..] + b;
      AlwaysAppend(step, p, step(s, a[0]), a[1..], b);
    }
  }

  lemma {:induction false} AlwaysAtEnd<S, E>(step: (S, E) -> S, p: S -> bool, s: S, es: seq<E>)
    requires Always(step, p, s, es)
    ensures p(Run(step, s, es))
    decreases |es|
  {
    if es != [] {
      AlwaysAtEnd(step, p, step(s, es[0]), es[1..]);
    }
  }

  lemma RunSnoc<S, E>(step: (S, E) -> S, s: S, es: seq<E>, e: E)
    ensures Run(step, s, es + [e]) == step(Run(step, s, es), e)
  {
    RunAppend(step, s, es, [e]);
    assert Run(step, step(Run(step, s, es), e), []) == step(Run(step, s, es), e);
  }

  lemma RunTwo<S, E>(step: (S, E) -> S, s: S, e: E, f: E)
    ensures Run(step, s, [e, f]) == step(step(s, e), f)
  {
    RunSnoc(step, s, [e], f);
    RunSnoc(step, s, [], e);
    assert [e] + [f] == [e, f] && [] + [e] == [e];
  }

  lemma RunFour<S, E>(step: (S, E) -> S, s: S, e: E, f: E, g: E, h: E)
    ensures Run(step, s, [e, f, g, h]) == step(step(step(step(s, e), f), g), h)
  {
    RunTwo(step, s, e, f);
    RunTwo(step, step(step(s, e), f), g, h);
    RunAppend(step, s, [e, f], [g, h]);
    assert [e, f] + [g, h] == [e, f, g, h];
  }

  /** Where none of the word's events has an effect, the word has none. */
  lemma {:induction false} RunStays<S, E>(step: (S, E) -> S, s: S, es: seq<E>)
    requires forall e :: e in es ==> step(s, e) == s
    ensures Run(step, s, es) == s
    decreases |es|
  {
    if es != [] {
      assert es[0] in es && forall e :: e in es[1..] ==> e in es;
      RunStays(step, s, es[1..]);
    }
  }

  /** An invariant kept by every acceptable step holds at the end of every acceptable run. */
  lemma {:induction false} AcceptableRunKeeps<S(!new), E(!new)>(
      step: (S, E) -> S, ok: (S, E) -> bool, inv: S -> bool, s: S, es: seq<E>)
    requires inv(s) && Along(step, ok, s, es)
    requires forall s: S, e: E :: inv(s) && ok(s, e) ==> inv(step(s, e))
    ensures inv(Run(step, s, es))
    decreases |es|
  {
    if es != [] {
      AcceptableRunKeeps(step, ok, inv, step(s, es[0]), es[1..]);
    }
  }

  /** An invariant kept by every step holds at the end of every run. */
  lemma {:induction false} RunKeeps<S(!new), E(!new)>(step: (S, E) -> S, inv: S -> bool, s: S, es: seq<E>)
    requires inv(s)
    requires forall s: S, e: E :: inv(s) ==> inv(step(s, e))
    ensures inv(Run(step, s, es))
    decreases |es|
  {
    if es != [] {
      RunKeeps(step, inv, step(s, es[0]), es[1..]);
    }
  }

  /**
   * If, under an invariant, safe is kept by exactly the acceptable steps, then a run stays safe throughout
   * if and only if each of its steps is acceptable.
   */
  lemma {:induction false} SafeExactlyWhenAcceptable<S(!new), E(!new)>(
      step: (S, E) -> S, inv: S -> bool, safe: S -> bool, ok: (S, E) -> bool, s: S, es: seq<E>)
    requires inv(s) && safe(s)
    requires forall s: S, e: E :: inv(s) && safe(s) && ok(s, e) ==> inv(step(s, e))
    requires forall s: S, e: E :: inv(s) && safe(s) ==> (safe(step(s, e)) <==> ok(s, e))
    ensures Always(step, safe, s, es) <==> Along(step, ok, s, es)
    decreases |es|
  {
    if es != [] {
      if ok(s, es[0]) {
        SafeExactlyWhenAcceptable(step, inv, safe, ok, step(s, es[0]), es[1..]);
      } else {
        assert !safe(step(s, es[0]));
      }
    }
  }

  /** What the last event of the word to write a field wrote there, or v if none of them writes it. */
  function LastWritten<S, E, V>(step: (S, E) -> S, writes: (S, E) -> Option<V>, s: S, es: seq<E>, v: V): V
    decreases |es|
  {
    if es == [] then v else LastWritten(step, writes, step(s, es[0]), es[1..], writes(s, es[0]).GetOr(v))
  }

  /** The number of steps of the word that satisfy p where they are taken. */
  ghost function Count<S, E>(step: (S, E) -> S, p: (S, E) -> bool, s: S, es: seq<E>): nat
    decreases |es|
  {
    if es == [] then 0 else (if p(s, es[0]) then 1 else 0) + Count(step, p, step(s, es[0]), es[1..])
  }
}
