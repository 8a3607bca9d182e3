/** Calls to an external tool, issued one after another, where a failing
    call raises and so ends the sequence. `Executed(plan, fails)` is what a
    tool's call log holds after the code tries to issue `plan`. */
module Trace {

  /** No call of `plan` fails. */
  predicate AllSucceed<C>(plan: seq<C>, fails: C -> bool) {
    forall i :: 0 <= i < |plan| ==> !fails(plan[i])
  }

  /** The calls of `plan` actually issued: every call up to and including
      the first one that fails. */
  function Executed<C>(plan: seq<C>, fails: C -> bool): seq<C> {
    if |plan| == 0 then []
    else if fails(plan[0]) then [plan[0]]
    else [plan[0]] + Executed(plan[1..], fails)
  }

  /** When nothing fails, the whole plan is issued; otherwise the log ends
      at a failing call and everything before it succeeded. */
  lemma {:induction false} ExecutedShape<C>(plan: seq<C>, fails: C -> bool)
    ensures AllSucceed(plan, fails) ==> Executed(plan, fails) == plan
    ensures !AllSucceed(plan, fails) ==>
      var e := Executed(plan, fails);
      0 < |e| <= |plan| && e == plan[..|e|] && fails(e[|e| - 1])
      && AllSucceed(e[..|e| - 1], fails)
  {
    if AllSucceed(plan, fails) {
      ExecutedAll(plan, fails);
    } else {
      ExecutedFailure(plan, fails);
    }
  }

  /** When nothing fails, the whole plan is issued. */
  lemma {:induction false} ExecutedAll<C>(plan: seq<C>, fails: C -> bool)
    requires AllSucceed(plan, fails)
    ensures Executed(plan, fails) == plan
  {
    if |plan| > 0 {
      assert !fails(plan[0]);
      assert AllSucceed(plan[1..], fails) by {
        forall i | 0 <= i < |plan[1..]| ensures !fails(plan[1..][i]) {
          assert plan[1..][i] == plan[i + 1];
        }
      }
      ExecutedAll(plan[1..], fails);
      assert [plan[0]] + plan[1..] == plan;
    }
  }

  /** When a call fails, the log is a prefix of the plan that ends at a
      failing call, every earlier one successful. */
  lemma {:induction false} ExecutedFailure<C>(plan: seq<C>, fails: C -> bool)
    requires !AllSucceed(plan, fails)
    ensures var e := Executed(plan, fails);
      0 < |e| <= |plan| && e == plan[..|e|] && fails(e[|e| - 1])
      && AllSucceed(e[..|e| - 1], fails)
  {
    var k := FirstFailure(plan, fails);
    ExecutedStopsAt(plan, fails, k);
    var e := Executed(plan, fails);
    assert e[..|e| - 1] == plan[..k];
  }

  /** A plan in which some call fails has a first failing call. */
  lemma {:induction false} FirstFailure<C>(plan: seq<C>, fails: C -> bool) returns (k: nat)
    requires !AllSucceed(plan, fails)
    ensures k < |plan| && fails(plan[k]) && AllSucceed(plan[..k], fails)
  {
    if fails(plan[0]) {
      k := 0;
    } else {
      var rest := plan[1..];
      var i :| 0 <= i < |plan| && fails(plan[i]);
      assert rest[i - 1] == plan[i];
      var k' := FirstFailure(rest, fails);
      k := k' + 1;
      assert plan[..k] == [plan[0]] + rest[..k'];
    }
  }

  /** The log after the call at index `k`, every earlier one having
      succeeded: if it failed the log is complete, otherwise the successful
      prefix grows by one. */
  lemma Stepped<C>(plan: seq<C>, fails: C -> bool, k: nat, log0: seq<C>, log: seq<C>)
    requires k < |plan| && AllSucceed(plan[..k], fails) && log == log0 + plan[..k] + [plan[k]]
    ensures fails(plan[k]) ==> log == log0 + Executed(plan, fails) && !AllSucceed(plan, fails)
    ensures !fails(plan[k]) ==> AllSucceed(plan[..k + 1], fails) && log == log0 + plan[..k + 1]
    ensures !fails(plan[k]) && k + 1 == |plan| ==> log == log0 + Executed(plan, fails) && AllSucceed(plan, fails)
  {
    LogGrows(plan, k, log0, log);
    if fails(plan[k]) {
      ExecutedStopsAt(plan, fails, k);
      FailureSeen(plan, fails, k);
    } else {
      SucceedOneMore(plan, fails, k);
      if k + 1 == |plan| {
        WholePrefix(plan, k);
        ExecutedAll(plan, fails);
      }
    }
  }

  lemma LogGrows<C>(plan: seq<C>, k: nat, log0: seq<C>, log: seq<C>)
    requires k < |plan| && log == log0 + plan[..k] + [plan[k]]
    ensures log == log0 + plan[..k + 1]
  {
    assert plan[..k + 1] == plan[..k] + [plan[k]];
  }

  lemma FailureSeen<C>(plan: seq<C>, fails: C -> bool, k: nat)
    requires k < |plan| && fails(plan[k])
    ensures !AllSucceed(plan, fails)
  {
  }

  lemma WholePrefix<C>(plan: seq<C>, k: nat)
    requires k + 1 == |plan|
    ensures plan[..k + 1] == plan
  {
  }

  /** The successful prefix grows by a successful call. */
  lemma SucceedOneMore<C>(plan: seq<C>, fails: C -> bool, k: nat)
    requires k < |plan| && AllSucceed(plan[..k], fails) && !fails(plan[k])
    ensures AllSucceed(plan[..k + 1], fails)
  {
    var done := plan[..k + 1];
    forall i | 0 <= i < |done| ensures !fails(done[i]) {
      if i < k { assert done[i] == plan[..k][i]; }
    }
  }

  /** The log when the plan begins with `pre + round` and the call at index
      `k` of `round` is the first to fail. */
  lemma StopsInRound<C>(plan: seq<C>, fails: C -> bool, pre: seq<C>, round: seq<C>, k: nat)
    requires |pre + round| <= |plan| && plan[..|pre + round|] == pre + round
    requires k < |round| && AllSucceed(pre + round[..k], fails) && fails(round[k])
    ensures Executed(plan, fails) == pre + round[..k + 1]
    ensures !AllSucceed(plan, fails)
  {
    var n := |pre| + k;
    PrefixOfPrefix(plan, pre, round, k);
    PrefixOfPrefix(plan, pre, round, k + 1);
    assert plan[n] == plan[..n + 1][n];
    ExecutedStopsAt(plan, fails, n);
    FailureSeen(plan, fails, n);
  }

  lemma PrefixOfPrefix<C>(plan: seq<C>, pre: seq<C>, round: seq<C>, k: nat)
    requires |pre + round| <= |plan| && plan[..|pre + round|] == pre + round && k <= |round|
    ensures plan[..|pre| + k] == pre + round[..k]
  {
    assert plan[..|pre| + k] == (pre + round)[..|pre| + k];
  }

  /** Two plans that succeed succeed one after the other. */
  lemma SucceedAppend<C>(p: seq<C>, q: seq<C>, fails: C -> bool)
    requires AllSucceed(p, fails) && AllSucceed(q, fails)
    ensures AllSucceed(p + q, fails)
  {
    forall i | 0 <= i < |p + q| ensures !fails((p + q)[i]) {
      if i >= |p| { assert (p + q)[i] == q[i - |p|]; }
    }
  }

  /** A prefix that succeeds is issued in full before the rest is tried. */
  lemma {:induction false} ExecutedAppend<C>(p: seq<C>, q: seq<C>, fails: C -> bool)
    requires AllSucceed(p, fails)
    ensures Executed(p + q, fails) == p + Executed(q, fails)
  {
    if |p| > 0 {
      assert (p + q)[1..] == p[1..] + q;
      ExecutedAppend(p[1..], q, fails);
    } else {
      assert p + q == q;
    }
  }

  /** A call appears in the log only if every call planned before it succeeded. */
  lemma {:induction false} ExecutedOnlyAfterSuccess<C>(plan: seq<C>, fails: C -> bool, k: nat)
    requires k < |Executed(plan, fails)|
    ensures k < |plan| && Executed(plan, fails)[k] == plan[k]
    ensures AllSucceed(plan[..k], fails)
  {
    if k > 0 {
      ExecutedOnlyAfterSuccess(plan[1..], fails, k - 1);
      assert plan[..k] == [plan[0]] + plan[1..][..k - 1];
    }
  }

  /** The log when the call at index `k` is the first to fail. */
  lemma {:induction false} ExecutedStopsAt<C>(plan: seq<C>, fails: C -> bool, k: nat)
    requires k < |plan| && AllSucceed(plan[..k], fails) && fails(plan[k])
    ensures Executed(plan, fails) == plan[..k + 1]
  {
    if k > 0 {
      assert plan[1..][..k - 1] == plan[..k][1..];
      ExecutedStopsAt(plan[1..], fails, k - 1);
      assert plan[..k + 1] == [plan[0]] + plan[1..][..k];
    }
  }

}
