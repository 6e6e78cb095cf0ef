/** Concrete runs of the variable array: three variables on two sensors, a retry that succeeds on the
    fifth try, a budget exhausted by the first sensor, a masked update failure, and the stored count. */
module Scenarios {
  import opened Handles
  import opened Dedup
  import opened Csv
  import opened SetupSpec
  import opened Arrays

  /** Three variables, the first two from one sensor and the third from another. */
  method ThreeVariables() returns (a: VariableArray)
    ensures fresh(a) && a.Valid() && a.variableCount == 3
    ensures a.Active() == [Variable(Sensor("A", "pin1"), "v1"), Variable(Sensor("A", "pin1"), "v2"),
                           Variable(Sensor("B", "pin2"), "v3")]
  {
    a := new VariableArray();
    a.Init(3, [Variable(Sensor("A", "pin1"), "v1"), Variable(Sensor("A", "pin1"), "v2"),
               Variable(Sensor("B", "pin2"), "v3")]);
  }

  /** With every call succeeding, setting up three variables on two sensors makes three sensor setups
      (one per variable, the shared sensor twice) and three variable setups, and succeeds. */
  method SharedSensorSetup() returns (success: bool, calls: seq<Call>)
    ensures success
    ensures calls == [Call(SensorSetup, 0), Call(SensorSetup, 1), Call(SensorSetup, 2),
                      Call(VariableSetup, 0), Call(VariableSetup, 1), Call(VariableSetup, 2)]
  {
    var a := ThreeVariables();
    var always := (c: nat) => true;
    NoDeduplication(3, always);
    SetupResult(3, always);
    success, calls := a.SetupSensors(always);
  }

  /** In the three-variable array only the second and third variables are canonical. */
  lemma SharedSensorCanonical(vs: seq<Variable>)
    requires vs == [Variable(Sensor("A", "pin1"), "v1"), Variable(Sensor("A", "pin1"), "v2"),
                    Variable(Sensor("B", "pin2"), "v3")]
    ensures Canonical(vs) == [1, 2]
  {
    assert !IsCanonical(vs, 0) by { assert SameSensor(vs[0].parent, vs[1].parent); }
    assert IsCanonical(vs, 1);
    assert CanonicalBelow(vs, 1) == [];
    assert CanonicalBelow(vs, 2) == [1];
  }

  /** The three-variable array counts 1 + 2 sensors, and sleep reaches the shared sensor once,
      through its last variable. */
  method SharedSensorSleep() returns (count: int, success: bool, calls: seq<Call>)
    ensures count == 3
    ensures calls == [Call(SensorSleep, 1), Call(SensorSleep, 2)]
  {
    var a := ThreeVariables();
    SharedSensorCanonical(a.Active());
    count := a.GetSensorCount();
    success, calls := a.SensorsSleep((c: nat) => true);
  }

  /** The row of the three-variable array holds every value, the shared sensor's two included, in order. */
  method SharedSensorRow() returns (row: string)
    ensures row == "v1, v2, v3"
  {
    var a := ThreeVariables();
    row := a.GenerateSensorDataCSV();
    assert ValueStrings(a.Active()) == ["v1", "v2", "v3"];
    assert Join(["v3"]) == "v3";
    assert Join(["v2", "v3"]) == "v2, v3";
  }

  /** Answers for a run whose first four calls fail and every later call succeeds. */
  function FirstFourFail(c: nat): bool {
    c >= 4
  }

  /** Answers for a run whose first five calls fail and every later call succeeds. */
  function FirstFiveFail(c: nat): bool {
    c >= 5
  }

  /** Four failures, then a success on the fifth try. */
  lemma RetryFifthTry()
    ensures RetryLoop(0, false, 0, 0, FirstFourFail) == Retry(4, true, 5)
  {
  }

  /** Five failures exhaust the budget. */
  lemma RetryExhausted()
    ensures RetryLoop(0, false, 0, 0, FirstFiveFail) == Retry(5, false, 5)
  {
  }

  /** setupSensors on one variable whose sensor fails four times and then succeeds. */
  lemma FifthTryRun()
    ensures SetupRun(1, FirstFourFail) == Outcome(true, Repeat(Call(SensorSetup, 0), 5) + [Call(VariableSetup, 0)])
  {
    RetryFifthTry();
  }

  /** setupSensors on two variables whose first sensor fails five times. */
  lemma BudgetSpentRun()
    ensures SetupRun(2, FirstFiveFail)
         == Outcome(false, Repeat(Call(SensorSetup, 0), 5) + [Call(VariableSetup, 0), Call(VariableSetup, 1)])
  {
    RetryExhausted();
    ExhaustedBudgetSkipsRest(1, 2, FirstFiveFail);
    SensorPassSuccess(2, FirstFiveFail);
  }

  /** A sensor whose setup fails four times and then succeeds is set up: five calls, and the
      operation succeeds. */
  method FifthTrySucceeds() returns (success: bool, calls: seq<Call>)
    ensures success
    ensures calls == Repeat(Call(SensorSetup, 0), 5) + [Call(VariableSetup, 0)]
  {
    var a := new VariableArray();
    a.Init(1, [Variable(Sensor("A", "pin1"), "v1")]);
    FifthTryRun();
    success, calls := a.SetupSensors(FirstFourFail);
  }

  /** When the first sensor fails five times the shared budget is spent: the second variable makes no
      sensor setup call at all, both variables are still attached, and the operation fails. */
  method BudgetSpentByFirstSensor() returns (success: bool, calls: seq<Call>)
    ensures !success
    ensures calls == Repeat(Call(SensorSetup, 0), 5) + [Call(VariableSetup, 0), Call(VariableSetup, 1)]
  {
    var a := new VariableArray();
    a.Init(2, [Variable(Sensor("A", "pin1"), "v1"), Variable(Sensor("B", "pin2"), "v2")]);
    BudgetSpentRun();
    success, calls := a.SetupSensors(FirstFiveFail);
  }

  /** Two distinct sensors whose first update fails and second succeeds: updateAllSensors reports
      success, because only the last update's result is kept. */
  method UpdateFailureMasked() returns (firstUpdate: bool, success: bool)
    ensures !firstUpdate && success
  {
    var a := new VariableArray();
    a.Init(2, [Variable(Sensor("A", "pin1"), "v1"), Variable(Sensor("B", "pin2"), "v2")]);
    var oracle := (c: nat) => c == 1;
    var calls;
    success, calls := a.UpdateAllSensors(oracle);
    assert Canonical(a.Active()) == [0, 1];
    firstUpdate := oracle(0);
  }

  /** The count is stored in eight bits: initialising with 257 variables' worth of count stores 1. */
  method CountTruncated() returns (n: int)
    ensures n == 1
  {
    var a := new VariableArray();
    a.Init(257, [Variable(Sensor("A", "pin1"), "v1")]);
    n := a.GetVariableCount();
  }

  /** Generating the row changes nothing, so two calls in a row give the same text. */
  method RowIsRepeatable(a: VariableArray) returns (first: string, second: string)
    requires a.Valid()
    ensures first == second
  {
    first := a.GenerateSensorDataCSV();
    second := a.GenerateSensorDataCSV();
  }
}
