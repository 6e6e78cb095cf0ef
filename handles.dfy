/** The handles a variable array works with, and the trace of the external calls it makes. */
module Handles {

  /** `uint8_t`, the width in which the array stores its variable count. */
  newtype uint8 = x: int | 0 <= x < 256

  /** What the array reads from a parent sensor: its name and its location (pin or address). */
  datatype Sensor = Sensor(name: string, location: string)

  /** A variable handle: its parent sensor and its current value rendered as text. */
  datatype Variable = Variable(parent: Sensor, valueString: string)

  /** The external operations the array invokes. All but VariableSetup go to a parent sensor. */
  datatype Op = SensorSetup | VariableSetup | SensorSleep | SensorWake | SensorUpdate

  /** One external call: `op` applied through the variable at position `index` of the list
      (to its parent sensor, or to the variable itself for VariableSetup). */
  datatype Call = Call(op: Op, index: nat)

  /** The value an operation returns together with the calls it made, in order. */
  datatype Outcome = Outcome(success: bool, calls: seq<Call>)

  /** The (name, location) pair that identifies a physical sensor. */
  function Identity(s: Sensor): (string, string) {
    (s.name, s.location)
  }

  /** Two sensor handles denote the same physical sensor when name and location both agree. */
  predicate SameSensor(a: Sensor, b: Sensor) {
    Identity(a) == Identity(b)
  }

  /** The first n variables of a list: the part of the list a stored count of n makes visible. */
  function Prefix(list: seq<Variable>, n: nat): seq<Variable>
    requires n <= |list|
  {
    list[..n]
  }
}
