/** The variable array: a stored count and list of variable handles, and the loops that run the
    sensors behind them. Each operation that reaches a sensor or a variable takes an oracle (the
    k-th external call of the operation, counting from 0, returns oracle(k)) and returns, besides
    the source's result, the calls it made in order. */
module Arrays {
  import opened Handles
  import opened Dedup
  import opened Csv
  import opened SetupSpec

  class VariableArray {
    /** `_variableCount`, a uint8_t. */
    var variableCount: uint8
    /** `_variableList`, the caller's list of variable handles. */
    var variableList: seq<Variable>

    /** The list holds at least the stored number of variables. */
    ghost predicate Valid()
      reads this
    {
      variableCount as int <= |variableList|
    }

    /** The variables the array works on: the first variableCount entries of the list. */
    ghost function Active(): seq<Variable>
      reads this
      requires Valid()
    {
      Prefix(variableList, variableCount as nat)
    }

    /** The implicit default constructor: no variables until Init is called. */
    constructor ()
      ensures variableCount == 0 && variableList == []
    {
      variableCount := 0;
      variableList := [];
    }

    /** Stores the count, truncated to eight bits as the uint8_t field does, and the list. */
    method Init(count: int, list: seq<Variable>)
      modifies this
      ensures variableCount as int == count % 256
      ensures variableList == list
    {
      variableCount := (count % 256) as uint8;
      variableList := list;
    }

    /** The stored count; it always fits in eight bits. */
    function GetVariableCount(): (n: int)
      reads this
      ensures 0 <= n < 256
    {
      variableCount as int
    }

    /** Scans the variables after arrayIndex for one whose parent has the same name and location,
        stopping at the first. */
    method IsLastVarFromSensor(arrayIndex: nat) returns (unique: bool)
      requires Valid() && arrayIndex < variableCount as int
      ensures unique <==> IsCanonical(Active(), arrayIndex)
    {
      var sensName := variableList[arrayIndex].parent.name;
      var sensLoc := variableList[arrayIndex].parent.location;
      unique := true;
      var j := arrayIndex + 1;
      while j < variableCount as int
        invariant arrayIndex < j <= variableCount as int
        invariant forall k :: arrayIndex < k < j ==> !SameSensor(variableList[arrayIndex].parent, variableList[k].parent)
      {
        if sensName == variableList[j].parent.name && sensLoc == variableList[j].parent.location {
          unique := false;
          break;
        }
        j := j + 1;
      }
    }

    /** One plus the number of canonical variables, that is one plus the number of distinct
        (name, location) pairs; an empty array gives 1. */
    method GetSensorCount() returns (numSensors: int)
      requires Valid()
      ensures numSensors == 1 + |Canonical(Active())|
      ensures numSensors == 1 + |DistinctSensors(Active())|
    {
      numSensors := 1;
      for i := 0 to variableCount as int
        invariant numSensors == 1 + |CanonicalBelow(Active(), i)|
      {
        var last := IsLastVarFromSensor(i);
        if last {
          numSensors := numSensors + 1;
        }
      }
      CanonicalCountIsDistinctSensors(Active());
    }

    /** The first loop of setupSensors for variable i: the retry loop on its parent's setup, under
        the try counter shared by the whole pass. */
    method SetupOneSensor(i: nat, oracle: nat -> bool, tries: nat, ok: bool, callsIn: seq<Call>)
      returns (setupTries: nat, sensorSuccess: bool, calls: seq<Call>)
      requires tries <= MaxSetupTries
      ensures var r := RetryLoop(tries, ok, |callsIn|, 0, oracle);
              setupTries == r.tries && sensorSuccess == r.sensorSuccess &&
              calls == callsIn + Repeat(Call(SensorSetup, i), r.made)
    {
      setupTries, sensorSuccess, calls := tries, ok, callsIn;
      ghost var made: nat := 0;
      while setupTries < MaxSetupTries
        invariant tries <= setupTries <= MaxSetupTries
        invariant calls == callsIn + Repeat(Call(SensorSetup, i), made)
        invariant RetryLoop(tries, ok, |callsIn|, 0, oracle) == RetryLoop(setupTries, sensorSuccess, |calls|, made, oracle)
      {
        sensorSuccess := oracle(|calls|);
        calls := calls + [Call(SensorSetup, i)];
        made := made + 1;
        if sensorSuccess {
          break;
        }
        setupTries := setupTries + 1;
      }
    }

    /** Sets up every variable's parent sensor (retrying under the shared budget), then every
        variable; the result and the calls are those of SetupRun. */
    method SetupSensors(oracle: nat -> bool) returns (success: bool, calls: seq<Call>)
      requires Valid()
      ensures Outcome(success, calls) == SetupRun(variableCount as nat, oracle)
    {
      success := true;
      var sensorSuccess := false;
      var setupTries: nat := 0;
      calls := [];
      for i := 0 to variableCount as int
        invariant Progress(setupTries, sensorSuccess, success, calls) == SensorPass(i, oracle)
      {
        setupTries, sensorSuccess, calls := SetupOneSensor(i, oracle, setupTries, sensorSuccess, calls);
        success := success && sensorSuccess;
      }
      ghost var first := SensorPass(variableCount as nat, oracle);
      ghost var m := |calls|;
      for i := 0 to variableCount as int
        invariant calls == first.calls + AttachCalls(i)
        invariant success == (first.success && forall c :: m <= c < m + i ==> oracle(c))
      {
        var attached := oracle(|calls|);
        calls := calls + [Call(VariableSetup, i)];
        assert calls == first.calls + AttachCalls(i + 1);
        success := success && attached;
      }
    }

    /** Calls `op` once per canonical variable, in increasing index order, and-ing every result
        into `success` without short-circuiting. */
    method CallEachSensor(op: Op, oracle: nat -> bool) returns (success: bool, calls: seq<Call>)
      requires Valid()
      ensures OncePerIndex(calls, op, Canonical(Active()))
      ensures success <==> forall c :: 0 <= c < |calls| ==> oracle(c)
    {
      success := true;
      calls := [];
      ghost var vs := Active();
      for i := 0 to variableCount as int
        invariant OncePerIndex(calls, op, CanonicalBelow(vs, i))
        invariant success <==> forall c :: 0 <= c < |calls| ==> oracle(c)
      {
        var last := IsLastVarFromSensor(i);
        OncePerIndexStep(calls, op, vs, i);
        if last {
          var result := oracle(|calls|);
          calls := calls + [Call(op, i)];
          success := success && result;
        }
      }
    }

    /** Puts every physical sensor to sleep once, through its last variable; true when every sleep
        succeeded (and when there is none). */
    method SensorsSleep(oracle: nat -> bool) returns (success: bool, calls: seq<Call>)
      requires Valid()
      ensures OncePerIndex(calls, SensorSleep, Canonical(Active()))
      ensures |calls| == |DistinctSensors(Active())|
      ensures success <==> forall c :: 0 <= c < |calls| ==> oracle(c)
    {
      success, calls := CallEachSensor(SensorSleep, oracle);
      CanonicalCountIsDistinctSensors(Active());
    }

    /** Wakes every physical sensor once, through its last variable; true when every wake succeeded
        (and when there is none). */
    method SensorsWake(oracle: nat -> bool) returns (success: bool, calls: seq<Call>)
      requires Valid()
      ensures OncePerIndex(calls, SensorWake, Canonical(Active()))
      ensures |calls| == |DistinctSensors(Active())|
      ensures success <==> forall c :: 0 <= c < |calls| ==> oracle(c)
    {
      success, calls := CallEachSensor(SensorWake, oracle);
      CanonicalCountIsDistinctSensors(Active());
    }

    /** Updates every physical sensor once, through its last variable. Only the last update's result
        is kept: the result is that of the update through the last variable, or true for an empty array. */
    method UpdateAllSensors(oracle: nat -> bool) returns (success: bool, calls: seq<Call>)
      requires Valid()
      ensures OncePerIndex(calls, SensorUpdate, Canonical(Active()))
      ensures |calls| == |DistinctSensors(Active())|
      ensures variableCount == 0 ==> calls == [] && success
      ensures variableCount > 0 ==>
                |calls| > 0 && calls[|calls| - 1] == Call(SensorUpdate, variableCount as nat - 1) &&
                success == oracle(|calls| - 1)
    {
      success := true;
      var updateSuccess := true;
      calls := [];
      ghost var vs := Active();
      for i := 0 to variableCount as int
        invariant OncePerIndex(calls, SensorUpdate, CanonicalBelow(vs, i))
        invariant updateSuccess == (|calls| == 0 || oracle(|calls| - 1))
      {
        var last := IsLastVarFromSensor(i);
        OncePerIndexStep(calls, SensorUpdate, vs, i);
        if last {
          updateSuccess := oracle(|calls|);
          calls := calls + [Call(SensorUpdate, i)];
        }
      }
      success := success && updateSuccess;
      CanonicalCountIsDistinctSensors(Active());
      if variableCount > 0 {
        LastCallAtLastVariable(calls, SensorUpdate, Active());
      }
    }

    /** Every variable's value text, in array order, separated by ", ". */
    method GenerateSensorDataCSV() returns (csvString: string)
      requires Valid()
      ensures csvString == Join(ValueStrings(Active()))
    {
      csvString := "";
      var n := variableCount as int;
      for i := 0 to n
        invariant csvString == if i == 0 then "" else Join(ValueStrings(Active())[..i]) + (if i < n then Separator else "")
      {
        ghost var fields := ValueStrings(Active());
        csvString := csvString + variableList[i].valueString;
        if i > 0 {
          JoinSnoc(fields[..i], fields[i]);
        }
        assert fields[..i + 1] == fields[..i] + [fields[i]];
        if i + 1 != n {
          csvString := csvString + Separator;
        }
      }
      assert ValueStrings(Active())[..n] == ValueStrings(Active());
    }
  }
}
