/**
 * The registry of autonomous methods (autonomous/AutonomousMethodRegistry.java):
 * a name → method map that refuses duplicates, starts out holding the two
 * built-ins and can drop every method except them.
 */
module AutonomousMethodRegistries {
  import opened Common
  import opened AutonomousMethods

  /** `isBuiltInMethod(name)`. */
  predicate IsBuiltIn(name: string)
  {
    name in {"avoidWall", "keepDistance"}
  }

  class AutonomousMethodRegistry {
    var methods: map<string, AutonomousMethod>

    /** Each method is registered under its own name. */
    ghost predicate Valid()
      reads this
    {
      forall k :: k in methods ==> methods[k].methodName == k
    }

    /** The private constructor: the two built-ins are registered. */
    constructor ()
      ensures Valid()
      ensures methods.Keys == {"avoidWall", "keepDistance"}
    {
      methods := map[];
      new;
      var avoidWall := NewAvoidWall();
      var e1 := Register(avoidWall);
      var keepDistance := NewKeepDistance();
      var e2 := Register(keepDistance);
    }

    /** `register(method)`: a name already present is refused and the map is left as it was. */
    method Register(m: AutonomousMethod) returns (error: Option<Exception>)
      requires Valid()
      modifies this
      ensures Valid()
      ensures error.Some? <==> m.methodName in old(methods)
      ensures error.Some? ==> methods == old(methods)
      ensures error.Some? ==> error.value == IllegalArgument("Method '" + m.methodName + "' is already registered")
      ensures error.None? ==> methods == old(methods)[m.methodName := m]
    {
      var name := m.methodName;
      if name in methods {
        return Some(IllegalArgument("Method '" + name + "' is already registered"));
      }
      methods := methods[name := m];
      error := None;
    }

    /** `getMethod(name)`: an unknown name throws. */
    method GetMethod(methodName: string) returns (r: Result<AutonomousMethod>)
      requires Valid()
      ensures r.Ok? <==> methodName in methods
      ensures r.Ok? ==> r.value == methods[methodName] && r.value.methodName == methodName
      ensures r.Throws? ==> r.error.IllegalArgument?
    {
      if methodName !in methods {
        return Throws(IllegalArgument("Unknown autonomous method: " + methodName));
      }
      r := Ok(methods[methodName]);
    }

    /** `hasMethod(name)`. */
    method HasMethod(methodName: string) returns (r: bool)
      ensures r <==> methodName in methods
    {
      r := methodName in methods;
    }

    /** `listMethods()`: the names, sorted. */
    method ListMethods() returns (names: seq<string>)
      ensures SortedStrict(names)
      ensures forall k :: k in names <==> k in methods
      ensures |names| == |methods|
    {
      names := SortedKeys(methods.Keys);
    }

    /** `unregister(name)`: whether something was removed. */
    method Unregister(methodName: string) returns (removed: bool)
      requires Valid()
      modifies this
      ensures Valid()
      ensures removed <==> methodName in old(methods)
      ensures methods == old(methods) - {methodName}
    {
      removed := methodName in methods;
      methods := methods - {methodName};
    }

    /** `clearCustomMethods()`: unregister, one by one, every name that is not a built-in. */
    method ClearCustomMethods()
      requires Valid()
      modifies this
      ensures Valid()
      ensures forall k :: k in methods <==> k in old(methods) && IsBuiltIn(k)
      ensures forall k :: k in methods ==> methods[k] == old(methods)[k]
    {
      var custom := set k | k in methods && !IsBuiltIn(k);
      while custom != {}
        invariant Valid()
        invariant custom <= methods.Keys
        invariant forall k :: k in custom ==> !IsBuiltIn(k)
        invariant forall k :: k in methods <==> k in old(methods) && (IsBuiltIn(k) || k in custom)
        invariant forall k :: k in methods ==> methods[k] == old(methods)[k]
        decreases |custom|
      {
        var name :| name in custom;
        var removed := Unregister(name);
        custom := custom - {name};
      }
    }

    /** `getMethodCount()`. */
    method GetMethodCount() returns (n: int)
      ensures n == |methods|
    {
      n := |methods|;
    }
  }

  /** A fresh registry lists exactly the two built-ins, in order. */
  method BuiltInsListed() returns (names: seq<string>)
    ensures names == ["avoidWall", "keepDistance"]
  {
    var r := new AutonomousMethodRegistry();
    names := r.ListMethods();
    assert "avoidWall" in names && "keepDistance" in names;
    assert LexLt("avoidWall", "keepDistance");
    var i :| 0 <= i < 2 && names[i] == "avoidWall";
    var j :| 0 <= j < 2 && names[j] == "keepDistance";
    SortedIndexOrder(names, i, j);
  }
}
