/**
 * The autonomous-method framework (autonomous/AutonomousMethod.java): a
 * named method with parameter definitions (an inclusive integer range per
 * name) and `execute`, which checks the connection, then the parameters,
 * then runs the algorithm and hovers. The algorithm itself and the drone
 * are outside this model: the connection state is a parameter and the
 * algorithm appears only as the action `execute` performs.
 */
module AutonomousMethods {
  import opened Common

  /** `ParameterDefinition`: inclusive bounds and a description. */
  datatype ParameterDefinition = ParameterDefinition(minValue: int, maxValue: int, description: string)

  /** Every defined parameter is given, and every given value is defined and within its bounds. */
  predicate ParametersValid(defs: map<string, ParameterDefinition>, params: map<string, int>)
  {
    && (forall n :: n in defs ==> n in params)
    && (forall n :: n in params ==> n in defs && defs[n].minValue <= params[n] <= defs[n].maxValue)
  }

  function MissingMessage(name: string): string
  {
    "Missing required parameter: " + name
  }

  function UnknownMessage(name: string): string
  {
    "Unknown parameter: " + name
  }

  function RangeMessage(name: string, def: ParameterDefinition, value: int): string
  {
    "Parameter " + name + " must be between " + IntString(def.minValue) + " and " + IntString(def.maxValue)
      + ", got: " + IntString(value)
  }

  const NOT_CONNECTED: string := "Drone must be connected before executing autonomous methods"

  /** What `execute` does to the drone, in order. */
  datatype Action = RunAlgorithm(params: map<string, int>) | Hover(seconds: real)

  /** Where, if anywhere, the algorithm or the hover after it throws. */
  datatype Failure = NoFailure | AlgorithmThrows | HoverThrows

  class AutonomousMethod {
    const methodName: string
    const description: string
    var parameters: map<string, ParameterDefinition>

    /** The base constructor; a subclass's `defineParameters` then adds its definitions. */
    constructor (methodName: string, description: string)
      ensures this.methodName == methodName && this.description == description
      ensures parameters == map[]
    {
      this.methodName := methodName;
      this.description := description;
      parameters := map[];
    }

    /** `addParameter(name, min, max, description)`: put, replacing an earlier definition of the name. */
    method AddParameter(name: string, minValue: int, maxValue: int, description: string)
      modifies this
      ensures parameters == old(parameters)[name := ParameterDefinition(minValue, maxValue, description)]
    {
      parameters := parameters[name := ParameterDefinition(minValue, maxValue, description)];
    }

    /** `getParameterDefinitions()`: a copy of the definitions. */
    method GetParameterDefinitions() returns (defs: map<string, ParameterDefinition>)
      ensures defs == parameters
    {
      defs := parameters;
    }

    /**
     * `validateParameters(params)`. Every definition is first checked to
     * be given, then every given value to be defined and in range. Which
     * name an error reports depends on hash-map iteration order, so the
     * loops below pick the next name arbitrarily.
     */
    method ValidateParameters(params: map<string, int>) returns (error: Option<Exception>)
      ensures error.None? <==> ParametersValid(parameters, params)
      ensures (exists n :: n in parameters && n !in params) ==>
        exists n :: n in parameters && n !in params && error == Some(IllegalArgument(MissingMessage(n)))
      ensures (forall n :: n in parameters ==> n in params) && error.Some? ==>
        exists n :: n in params &&
          ((n !in parameters && error == Some(IllegalArgument(UnknownMessage(n)))) ||
           (n in parameters && !(parameters[n].minValue <= params[n] <= parameters[n].maxValue) &&
            error == Some(IllegalArgument(RangeMessage(n, parameters[n], params[n])))))
    {
      var required := parameters.Keys;
      while required != {}
        invariant required <= parameters.Keys
        invariant forall n :: n in parameters && n !in required ==> n in params
        decreases |required|
      {
        var n :| n in required;
        if n !in params {
          return Some(IllegalArgument(MissingMessage(n)));
        }
        required := required - {n};
      }
      var given := params.Keys;
      while given != {}
        invariant given <= params.Keys
        invariant forall n :: n in params && n !in given ==>
          n in parameters && parameters[n].minValue <= params[n] <= parameters[n].maxValue
        decreases |given|
      {
        var n :| n in given;
        if n !in parameters {
          return Some(IllegalArgument(UnknownMessage(n)));
        }
        var def := parameters[n];
        if params[n] < def.minValue || params[n] > def.maxValue {
          return Some(IllegalArgument(RangeMessage(n, def, params[n])));
        }
        given := given - {n};
      }
      error := None;
    }

    /**
     * `execute(drone, params)`: a disconnected drone is refused before the
     * parameters are looked at; invalid parameters are refused before
     * anything runs. Then the algorithm runs and the drone hovers for half
     * a second; if either throws, the drone hovers for a second and the
     * failure is rethrown wrapped in a `RuntimeException`.
     */
    method Execute(connected: bool, params: map<string, int>, failure: Failure)
      returns (actions: seq<Action>, error: Option<Exception>)
      ensures !connected ==> actions == [] && error == Some(IllegalState(NOT_CONNECTED))
      ensures connected && !ParametersValid(parameters, params) ==> actions == [] && error.Some? && error.value.IllegalArgument?
      ensures actions != [] <==> connected && ParametersValid(parameters, params)
      ensures actions != [] ==> actions[0] == RunAlgorithm(params)
      ensures actions != [] && failure == NoFailure ==> actions == [RunAlgorithm(params), Hover(0.5)] && error.None?
      ensures actions != [] && failure == AlgorithmThrows ==>
        actions == [RunAlgorithm(params), Hover(1.0)] && error == Some(Runtime("Autonomous method failed: " + methodName))
      ensures actions != [] && failure == HoverThrows ==>
        actions == [RunAlgorithm(params), Hover(0.5), Hover(1.0)] && error == Some(Runtime("Autonomous method failed: " + methodName))
    {
      actions := [];
      if !connected {
        return [], Some(IllegalState(NOT_CONNECTED));
      }
      error := ValidateParameters(params);
      if error.Some? {
        return;
      }
      actions := [RunAlgorithm(params)];
      if failure != AlgorithmThrows {
        actions := actions + [Hover(0.5)];
      }
      if failure == NoFailure {
        return;
      }
      actions := actions + [Hover(1.0)];
      error := Some(Runtime("Autonomous method failed: " + methodName));
    }
  }

  /** `AvoidWallAutonomousMethod`: timeout 1..30 s and distance 10..100 cm. */
  method NewAvoidWall() returns (m: AutonomousMethod)
    ensures fresh(m) && m.methodName == "avoidWall"
    ensures m.parameters.Keys == {"timeout", "distance"}
    ensures m.parameters["timeout"].minValue == 1 && m.parameters["timeout"].maxValue == 30
    ensures m.parameters["distance"].minValue == 10 && m.parameters["distance"].maxValue == 100
  {
    m := new AutonomousMethod("avoidWall",
      "Autonomously avoids walls by maintaining a minimum distance using the front range sensor.");
    m.AddParameter("timeout", 1, 30, "Duration in seconds to run the avoidance loop.");
    m.AddParameter("distance", 10, 100, "Target distance from wall in cm.");
  }

  /** `KeepDistanceAutonomousMethod`: timeout 1..30 s and distance 10..100 cm. */
  method NewKeepDistance() returns (m: AutonomousMethod)
    ensures fresh(m) && m.methodName == "keepDistance"
    ensures m.parameters.Keys == {"timeout", "distance"}
    ensures m.parameters["timeout"].minValue == 1 && m.parameters["timeout"].maxValue == 30
    ensures m.parameters["distance"].minValue == 10 && m.parameters["distance"].maxValue == 100
  {
    m := new AutonomousMethod("keepDistance",
      "Keeps the drone at a specified distance from an object using the front range sensor.");
    m.AddParameter("timeout", 1, 30, "Duration in seconds to run the loop.");
    m.AddParameter("distance", 10, 100, "Target distance from object in cm.");
  }

  /** The built-in examples accept exactly a timeout of 1..30 together with a distance of 10..100. */
  lemma BuiltInParametersValid(defs: map<string, ParameterDefinition>, params: map<string, int>)
    requires defs.Keys == {"timeout", "distance"}
    requires defs["timeout"].minValue == 1 && defs["timeout"].maxValue == 30
    requires defs["distance"].minValue == 10 && defs["distance"].maxValue == 100
    ensures ParametersValid(defs, params) <==>
      params.Keys == {"timeout", "distance"} && 1 <= params["timeout"] <= 30 && 10 <= params["distance"] <= 100
  {
  }
}
