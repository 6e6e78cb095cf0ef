/** What setupSensors does: a first pass that sets up each variable's parent sensor under one retry
    budget shared by the whole array, then a second pass that sets up every variable once.
    The k-th external call of the operation (counting from 0) returns oracle(k). */
module SetupSpec {
  import opened Handles

  /** The number of failed sensor setups the whole first pass may make. */
  const MaxSetupTries: nat := 5

  /** The effect of one `while (setupTries < 5)` loop: the new try counter, the new value of
      sensorSuccess, and the number of setup calls made. */
  datatype Retry = Retry(tries: nat, sensorSuccess: bool, made: nat)

  /** The retry loop for one variable, from a state where the try counter is `tries`, sensorSuccess
      is `ok`, c external calls have been made by the operation and `made` of them by this loop. */
  function RetryLoop(tries: nat, ok: bool, c: nat, made: nat, oracle: nat -> bool): (r: Retry)
    decreases MaxSetupTries - tries
    ensures tries >= MaxSetupTries ==> r == Retry(tries, ok, made)
    ensures tries < MaxSetupTries ==> tries <= r.tries <= MaxSetupTries
    ensures tries < MaxSetupTries ==> (r.sensorSuccess <==> r.tries < MaxSetupTries)
    ensures tries < MaxSetupTries ==> r.made == made + r.tries - tries + (if r.sensorSuccess then 1 else 0)
  {
    if tries >= MaxSetupTries then Retry(tries, ok, made)
    else if oracle(c) then Retry(tries, true, made + 1)
    else RetryLoop(tries + 1, false, c + 1, made + 1, oracle)
  }

  /** A retry loop stops at its first successful call: every call before the last one failed, and the
      last one succeeded exactly when the loop ends with sensorSuccess set (budget permitting). */
  lemma {:induction false} RetryStopsAtFirstSuccess(tries: nat, ok: bool, c: nat, made: nat, oracle: nat -> bool)
    ensures var r := RetryLoop(tries, ok, c, made, oracle);
            && made <= r.made
            && (forall d :: c <= d < c + (r.made - made) - 1 ==> !oracle(d))
            && (r.made > made ==> (oracle(c + (r.made - made) - 1) <==> r.sensorSuccess))
    decreases MaxSetupTries - tries
  {
    if tries < MaxSetupTries && !oracle(c) {
      RetryStopsAtFirstSuccess(tries + 1, false, c + 1, made + 1, oracle);
    }
  }

  /** n copies of one call. */
  function Repeat(call: Call, n: nat): seq<Call> {
    seq(n, _ => call)
  }

  /** The locals of setupSensors during its first loop. */
  datatype Progress = Progress(tries: nat, sensorSuccess: bool, success: bool, calls: seq<Call>)

  /** The state after the first loop has handled variables 0..k-1. */
  function SensorPass(k: nat, oracle: nat -> bool): (p: Progress)
    ensures p.tries <= MaxSetupTries
    ensures p.tries == MaxSetupTries ==> !p.sensorSuccess
  {
    if k == 0 then Progress(0, false, true, [])
    else
      var p := SensorPass(k - 1, oracle);
      var r := RetryLoop(p.tries, p.sensorSuccess, |p.calls|, 0, oracle);
      Progress(r.tries, r.sensorSuccess, p.success && r.sensorSuccess,
               p.calls + Repeat(Call(SensorSetup, k - 1), r.made))
  }

  /** The sensorSuccess recorded for variable i (the value `success` is and-ed with). */
  function Recorded(i: nat, oracle: nat -> bool): bool {
    SensorPass(i + 1, oracle).sensorSuccess
  }

  /** The second loop's calls for variables 0..n-1: each variable's own setup, once, in order. */
  function AttachCalls(n: nat): seq<Call> {
    seq(n, i requires 0 <= i < n => Call(VariableSetup, i))
  }

  /** setupSensors on an array of n variables: the value it returns and the calls it makes. */
  function SetupRun(n: nat, oracle: nat -> bool): Outcome {
    var p := SensorPass(n, oracle);
    var m := |p.calls|;
    Outcome(p.success && (forall c :: m <= c < m + n ==> oracle(c)), p.calls + AttachCalls(n))
  }

  /** The number of failed calls among the first m. */
  function Failures(oracle: nat -> bool, m: nat): nat {
    if m == 0 then 0 else Failures(oracle, m - 1) + (if oracle(m - 1) then 0 else 1)
  }

  /** A retry loop adds to the failure count exactly the tries it spends. */
  lemma {:induction false} RetryFailures(tries: nat, ok: bool, c: nat, made: nat, oracle: nat -> bool)
    ensures made <= RetryLoop(tries, ok, c, made, oracle).made
    ensures Failures(oracle, c + (RetryLoop(tries, ok, c, made, oracle).made - made))
         == Failures(oracle, c) + RetryLoop(tries, ok, c, made, oracle).tries - tries
    decreases MaxSetupTries - tries
  {
    if tries < MaxSetupTries && !oracle(c) {
      RetryFailures(tries + 1, false, c + 1, made + 1, oracle);
      assert Failures(oracle, c + 1) == Failures(oracle, c) + 1;
    } else if tries < MaxSetupTries {
      assert Failures(oracle, c + 1) == Failures(oracle, c);
    }
  }

  /** Handling variable i runs one retry loop from the state left by variables 0..i-1. */
  lemma SensorPassStep(i: nat, oracle: nat -> bool)
    ensures var before := SensorPass(i, oracle);
            var r := RetryLoop(before.tries, before.sensorSuccess, |before.calls|, 0, oracle);
            var after := SensorPass(i + 1, oracle);
            && after.tries == r.tries && after.sensorSuccess == r.sensorSuccess
            && after.calls == before.calls + Repeat(Call(SensorSetup, i), r.made)
            && |after.calls| == |before.calls| + r.made
  {
  }

  /** The first pass's failure count grows with setupTries as each variable is handled. */
  lemma PassFailures(k: nat, oracle: nat -> bool)
    requires k > 0
    ensures Failures(oracle, |SensorPass(k, oracle).calls|) - SensorPass(k, oracle).tries
         == Failures(oracle, |SensorPass(k - 1, oracle).calls|) - SensorPass(k - 1, oracle).tries
  {
    var p := SensorPass(k - 1, oracle);
    RetryFailures(p.tries, p.sensorSuccess, |p.calls|, 0, oracle);
  }

  /** The retry budget is shared by the whole array: setupTries counts every failed sensor setup of
      the first pass, and there are never more than five of them. */
  lemma {:induction false} SharedRetryBudget(k: nat, oracle: nat -> bool)
    ensures Failures(oracle, |SensorPass(k, oracle).calls|) == SensorPass(k, oracle).tries <= MaxSetupTries
  {
    if k > 0 {
      SharedRetryBudget(k - 1, oracle);
      PassFailures(k, oracle);
    }
  }

  /** The setup calls of variable i: all are to its parent, at most what is left of the budget,
      all but the last fail, and the last succeeds exactly when i is recorded as set up.
      While the budget lasts every variable makes at least one call, duplicates of a sensor included. */
  lemma CallsOfOneVariable(i: nat, oracle: nat -> bool)
    ensures var before, after := SensorPass(i, oracle), SensorPass(i + 1, oracle);
            var a, b := |before.calls|, |after.calls|;
            && a <= b <= a + MaxSetupTries - before.tries
            && after.calls == before.calls + Repeat(Call(SensorSetup, i), b - a)
            && (forall c :: a <= c < b - 1 ==> !oracle(c))
            && (before.tries < MaxSetupTries ==> a < b && (oracle(b - 1) <==> Recorded(i, oracle)))
  {
    var before := SensorPass(i, oracle);
    var r := RetryLoop(before.tries, before.sensorSuccess, |before.calls|, 0, oracle);
    RetryStopsAtFirstSuccess(before.tries, before.sensorSuccess, |before.calls|, 0, oracle);
    SensorPassStep(i, oracle);
    assert |SensorPass(i + 1, oracle).calls| - |before.calls| == r.made - 0;
  }

  /** Once five failures have accumulated, no later variable makes a setup call and every later
      variable is recorded as failed, because sensorSuccess is left false. */
  lemma {:induction false} ExhaustedBudgetSkipsRest(k: nat, n: nat, oracle: nat -> bool)
    requires k <= n
    requires SensorPass(k, oracle).tries == MaxSetupTries
    ensures SensorPass(n, oracle).calls == SensorPass(k, oracle).calls
    ensures SensorPass(n, oracle).tries == MaxSetupTries
    ensures forall i :: k <= i < n ==> !Recorded(i, oracle)
  {
    if n > k {
      ExhaustedBudgetSkipsRest(k, n - 1, oracle);
      assert Repeat(Call(SensorSetup, n - 1), 0) == [];
    }
  }

  /** The first loop leaves `success` true exactly when every variable was recorded as set up. */
  lemma {:induction false} SensorPassSuccess(k: nat, oracle: nat -> bool)
    ensures SensorPass(k, oracle).success <==> forall i :: 0 <= i < k ==> Recorded(i, oracle)
  {
    if k > 0 {
      SensorPassSuccess(k - 1, oracle);
      assert SensorPass(k, oracle).success == (SensorPass(k - 1, oracle).success && Recorded(k - 1, oracle));
    }
  }

  /** setupSensors returns true exactly when every recorded sensorSuccess and every variable setup is true;
      its calls are the first pass followed by one variable setup per variable, in order. */
  lemma SetupResult(n: nat, oracle: nat -> bool)
    ensures var p := SensorPass(n, oracle);
            var run := SetupRun(n, oracle);
            && |run.calls| == |p.calls| + n
            && (forall i :: 0 <= i < n ==> run.calls[|p.calls| + i] == Call(VariableSetup, i))
            && (run.success <==>
                  (forall i :: 0 <= i < n ==> Recorded(i, oracle)) &&
                  (forall c :: |p.calls| <= c < |run.calls| ==> oracle(c)))
  {
    SensorPassSuccess(n, oracle);
  }

  /** When no sensor setup fails, the first pass calls the parent of every variable exactly once, in
      order: sensors shared by several variables are set up once per variable, not once per sensor. */
  lemma {:induction false} NoDeduplication(k: nat, oracle: nat -> bool)
    requires forall c :: oracle(c)
    ensures SensorPass(k, oracle).calls == seq(k, i requires 0 <= i < k => Call(SensorSetup, i))
    ensures SensorPass(k, oracle).tries == 0
  {
    if k > 0 {
      NoDeduplication(k - 1, oracle);
      var p := SensorPass(k - 1, oracle);
      assert oracle(|p.calls|);
    }
  }
}
