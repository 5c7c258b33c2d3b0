/** External steps (changing directory, writing files, running a subprocess)
    are modelled as effects in a trace. A routine with a fixed plan of steps
    that propagates the first error with `?` performs a prefix of its plan: every
    step up to and including the first one that fails. This module states that
    once, for any kind of effect. */
module Effects {
  import opened Wrappers

  /** The steps attempted, in order, and the step that failed, if one did. */
  datatype Execution<E> = Execution(performed: seq<E>, failed: Option<E>)

  /** No step before position `n` of `steps` fails. */
  ghost predicate NoneFailBefore<E>(steps: seq<E>, n: int, fails: E -> bool) {
    forall i | 0 <= i < n && i < |steps| :: !fails(steps[i])
  }

  /** Runs `plan` one step after another and stops right after the first step
      that fails. */
  function Perform<E>(plan: seq<E>, fails: E -> bool): Execution<E> {
    if plan == [] then Execution([], None)
    else if fails(plan[0]) then Execution([plan[0]], Some(plan[0]))
    else
      var rest := Perform(plan[1..], fails);
      Execution([plan[0]] + rest.performed, rest.failed)
  }

  /** What `Perform` leaves behind: a prefix of the plan; the whole plan exactly
      when no step of it fails; otherwise every step up to the first failing
      one, which is the last performed and the one reported. */
  lemma {:induction false} PerformStopsAtFirstFailure<E>(plan: seq<E>, fails: E -> bool)
    ensures var x := Perform(plan, fails);
            && x.performed <= plan
            && (x.failed.None? <==> NoneFailBefore(plan, |plan|, fails))
            && (x.failed.None? ==> x.performed == plan)
            && (x.failed.Some? ==>
                  && |x.performed| > 0
                  && x.failed.value == x.performed[|x.performed| - 1]
                  && fails(x.failed.value)
                  && NoneFailBefore(x.performed, |x.performed| - 1, fails))
  {
    if plan != [] && !fails(plan[0]) {
      PerformStopsAtFirstFailure(plan[1..], fails);
      var rest := Perform(plan[1..], fails);
      assert Perform(plan, fails).performed == [plan[0]] + rest.performed;
      assert plan == [plan[0]] + plan[1..];
    }
  }

  /** `x` continued after the steps `done` that already succeeded. */
  function Continue<E>(done: seq<E>, x: Execution<E>): Execution<E> {
    Execution(done + x.performed, x.failed)
  }

  /** A plan made of two parts runs the second part only if the first part
      completed. */
  lemma {:induction false} PerformAppend<E>(a: seq<E>, b: seq<E>, fails: E -> bool)
    ensures Perform(a + b, fails)
            == if Perform(a, fails).failed.Some? then Perform(a, fails)
               else Continue(a, Perform(b, fails))
  {
    if a == [] {
      assert a + b == b;
    } else {
      assert (a + b)[0] == a[0];
      assert (a + b)[1..] == a[1..] + b;
      if !fails(a[0]) {
        PerformAppend(a[1..], b, fails);
      }
    }
  }

  /** Once the first `k` steps of `plan` succeeded, what `Perform` reports is
      decided by the steps from `k` on. */
  lemma {:induction false} PerformAfterPrefix<E>(plan: seq<E>, k: nat, fails: E -> bool)
    requires k <= |plan| && NoneFailBefore(plan, k, fails)
    ensures Perform(plan, fails) == Continue(plan[..k], Perform(plan[k..], fails))
  {
    if k > 0 {
      assert plan[1..][..k - 1] == plan[1..k];
      PerformAfterPrefix(plan[1..], k - 1, fails);
      assert plan[1..][k - 1..] == plan[k..];
      assert plan[..k] == [plan[0]] + plan[1..k];
    }
  }

  /** One step of a routine that performs `plan`: the first `k` steps are done
      and succeeded, and `e` is the next one. The outcome of `e` comes from the
      environment, given here as `fails`. */
  method Attempt<E>(trace: seq<E>, e: E, fails: E -> bool, ghost plan: seq<E>, ghost k: nat)
    returns (trace': seq<E>, ok: bool)
    requires k < |plan| && plan[k] == e
    requires trace == plan[..k] && NoneFailBefore(plan, k, fails)
    ensures trace' == plan[..k + 1] && ok == !fails(e)
    ensures ok ==> NoneFailBefore(plan, k + 1, fails)
    ensures !ok ==> Perform(plan, fails) == Execution(trace', Some(e))
  {
    trace' := trace + [e];
    ok := !fails(e);
    assert plan[..k + 1] == plan[..k] + [e];
    if !ok {
      PerformAfterPrefix(plan, k, fails);
      assert plan[k..][0] == e;
    }
  }

  /** When every step succeeded, the routine performed the whole plan. */
  lemma PerformCompleted<E>(plan: seq<E>, fails: E -> bool)
    requires NoneFailBefore(plan, |plan|, fails)
    ensures Perform(plan, fails) == Execution(plan, None)
  {
    PerformAfterPrefix(plan, |plan|, fails);
    assert plan[..|plan|] == plan;
  }
}
