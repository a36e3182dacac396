/**
 * The fluent parameter map builder (autonomous/ParameterBuilder.java):
 * a name → value map updated in place, with named setters for the usual
 * parameters and `build`/`copy` producing independent copies.
 */
module ParameterBuilders {
  import opened Common

  class ParameterBuilder {
    var parameters: map<string, int>

    /** `create()`: an empty builder. */
    constructor ()
      ensures parameters == map[]
    {
      parameters := map[];
    }

    /** `set(name, value)`: put, overwriting an earlier value for the name. */
    method Set(name: string, value: int)
      modifies this
      ensures parameters == old(parameters)[name := value]
      ensures name in parameters && parameters[name] == value
      ensures forall n :: n != name ==> (n in parameters <==> n in old(parameters))
      ensures forall n :: n != name && n in parameters ==> parameters[n] == old(parameters)[n]
    {
      parameters := parameters[name := value];
    }

    /** `speed(v)`: sets "speed". */
    method Speed(speed: int)
      modifies this
      ensures parameters == old(parameters)["speed" := speed]
    {
      Set("speed", speed);
    }

    /** `radius(v)`: sets "radius". */
    method Radius(radius: int)
      modifies this
      ensures parameters == old(parameters)["radius" := radius]
    {
      Set("radius", radius);
    }

    /** `direction(v)`: sets "direction". */
    method Direction(direction: int)
      modifies this
      ensures parameters == old(parameters)["direction" := direction]
    {
      Set("direction", direction);
    }

    /** `segments(v)`: sets "segments". */
    method Segments(segments: int)
      modifies this
      ensures parameters == old(parameters)["segments" := segments]
    {
      Set("segments", segments);
    }

    /** `duration(seconds)`: sets "seconds", not "duration". */
    method Duration(seconds: int)
      modifies this
      ensures parameters == old(parameters)["seconds" := seconds]
      ensures "duration" in parameters <==> "duration" in old(parameters)
    {
      Set("seconds", seconds);
    }

    /** `size(v)`: sets "size". */
    method SizeParameter(size: int)
      modifies this
      ensures parameters == old(parameters)["size" := size]
    {
      Set("size", size);
    }

    /** `build()`: a copy of the map; the map is a value, so later `set`s do not reach it. */
    method Build() returns (m: map<string, int>)
      ensures m == parameters
    {
      m := parameters;
    }

    /** `size()`. */
    method Size() returns (n: int)
      ensures n == |parameters|
    {
      n := |parameters|;
    }

    /** `hasParameter(name)`. */
    method HasParameter(name: string) returns (r: bool)
      ensures r <==> name in parameters
    {
      r := name in parameters;
    }

    /** `getParameter(name)`: the value, or null (`None`). */
    method GetParameter(name: string) returns (r: Option<int>)
      ensures r.Some? <==> name in parameters
      ensures r.Some? ==> r.value == parameters[name]
    {
      r := if name in parameters then Some(parameters[name]) else None;
    }

    /** `clear()`. */
    method Clear()
      modifies this
      ensures parameters == map[] && |parameters| == 0
    {
      parameters := map[];
    }

    /** `copy()`: a new builder with the same entries. */
    method Copy() returns (c: ParameterBuilder)
      ensures fresh(c)
      ensures c.parameters == parameters
    {
      c := new ParameterBuilder();
      c.parameters := parameters;
    }
  }

  /** A map built before a `set` keeps the old entries, and the builder gets the new value. */
  method BuildThenSet(b: ParameterBuilder, name: string, value: int) returns (built: map<string, int>)
    modifies b
    ensures built == old(b.parameters)
    ensures b.parameters == old(b.parameters)[name := value]
  {
    built := b.Build();
    b.Set(name, value);
  }

  /** A copy is a different object: setting a value on the original leaves the copy as it was. */
  method CopyThenSet(b: ParameterBuilder, name: string, value: int) returns (c: ParameterBuilder)
    modifies b
    ensures c != b
    ensures c.parameters == old(b.parameters)
    ensures b.parameters == old(b.parameters)[name := value]
  {
    c := b.Copy();
    b.Set(name, value);
  }
}
