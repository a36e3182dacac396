/**
 * The name → sequence registry (buzzer/BuzzerSequenceRegistry.java). The
 * map is updated in place by `register`, `unregister`, `clear` and
 * `restoreBuiltIns`; the three built-ins are registered on construction.
 */
module BuzzerSequenceRegistries {
  import opened Common
  import opened BuzzerSequences

  /** The built-in entries: "success", "warning" and "error". */
  function BuiltIns(): (m: map<string, BuzzerSequence>)
    ensures m.Keys == {"success", "warning", "error"}
    ensures forall k :: k in m ==> m[k].name == k && AllValid(m[k].notes)
  {
    map["success" := SuccessSequence(), "warning" := WarningSequence(), "error" := ErrorSequence()]
  }

  /** Registering the built-ins a second time changes nothing. */
  lemma RestoreIdempotent(m: map<string, BuzzerSequence>)
    ensures (m + BuiltIns()) + BuiltIns() == m + BuiltIns()
  {
  }

  /** Adding the built-ins is registering them one by one, in the order the source does. */
  lemma BuiltInsInOrder(m: map<string, BuzzerSequence>)
    ensures m + BuiltIns()
      == m["success" := SuccessSequence()]["warning" := WarningSequence()]["error" := ErrorSequence()]
  {
  }

  /** None of the built-in names is blank. */
  lemma BuiltInNamesNotBlank()
    ensures !IsBlank("success") && !IsBlank("warning") && !IsBlank("error")
  {
    assert "success"[0] == 's' && "warning"[0] == 'w' && "error"[0] == 'e';
  }

  class BuzzerSequenceRegistry {
    var sequences: map<string, BuzzerSequence>

    /** The private constructor: an empty map, then the built-ins. */
    constructor ()
      ensures sequences == BuiltIns()
    {
      sequences := map[];
      new;
      RegisterBuiltInSequences();
    }

    method RegisterBuiltInSequences()
      modifies this
      ensures sequences == old(sequences) + BuiltIns()
    {
      BuiltInNamesNotBlank();
      BuiltInsInOrder(old(sequences));
      var success := CreateSuccessSequence();
      var e1 := Register(Some("success"), Some(success));
      var warning := CreateWarningSequence();
      var e2 := Register(Some("warning"), Some(warning));
      var error := CreateErrorSequence();
      var e3 := Register(Some("error"), Some(error));
    }

    /**
     * `register(name, sequence)`: a null or blank name and then a null
     * sequence are rejected; otherwise the entry is put, replacing any
     * sequence already registered under that name.
     */
    method Register(name: Option<string>, sequence: Option<BuzzerSequence>) returns (error: Option<Exception>)
      modifies this
      ensures error.None? <==> name.Some? && !IsBlank(name.value) && sequence.Some?
      ensures error.None? ==> sequences == old(sequences)[name.value := sequence.value]
      ensures error.Some? ==> sequences == old(sequences) && error.value.IllegalArgument?
      ensures error.None? && name.value in old(sequences) ==> |sequences| == |old(sequences)|
      ensures error.None? && name.value !in old(sequences) ==> |sequences| == |old(sequences)| + 1
    {
      if name.None? {
        return Some(IllegalArgument("Sequence name cannot be null or empty"));
      }
      TrimEmptyIffBlank(name.value);
      if Trim(name.value) == [] {
        return Some(IllegalArgument("Sequence name cannot be null or empty"));
      }
      if sequence.None? {
        return Some(IllegalArgument("Sequence cannot be null"));
      }
      sequences := sequences[name.value := sequence.value];
      error := None;
    }

    /** `get(name)`: the registered sequence, or null (`None`). */
    method Get(name: string) returns (r: Option<BuzzerSequence>)
      ensures r.Some? <==> name in sequences
      ensures r.Some? ==> r.value == sequences[name]
    {
      r := if name in sequences then Some(sequences[name]) else None;
    }

    /** `has(name)`. */
    method Has(name: string) returns (r: bool)
      ensures r <==> name in sequences
    {
      r := name in sequences;
    }

    /** `unregister(name)`: whether an entry was removed; afterwards the name is absent. */
    method Unregister(name: string) returns (removed: bool)
      modifies this
      ensures removed <==> name in old(sequences)
      ensures sequences == old(sequences) - {name}
      ensures name !in sequences
    {
      removed := name in sequences;
      sequences := sequences - {name};
    }

    /** `list()`: every registered name once, in increasing `compareTo` order. */
    method List() returns (names: seq<string>)
      ensures SortedStrict(names)
      ensures forall k :: k in names <==> k in sequences
      ensures |names| == |sequences|
    {
      names := SortedKeys(sequences.Keys);
    }

    /** `count()`. */
    method Count() returns (n: int)
      ensures n == |sequences|
    {
      n := |sequences|;
    }

    /** `clear()`: built-ins included. */
    method Clear()
      modifies this
      ensures sequences == map[]
    {
      sequences := map[];
    }

    /** `restoreBuiltIns()`: puts the three built-ins back, keeping the other entries. */
    method RestoreBuiltIns()
      modifies this
      ensures sequences == old(sequences) + BuiltIns()
      ensures forall k :: k in old(sequences) && k !in BuiltIns() ==> k in sequences && sequences[k] == old(sequences)[k]
    {
      RegisterBuiltInSequences();
    }
  }

  /** After `clear()` then `restoreBuiltIns()` twice, exactly the three built-ins are registered. */
  method ClearThenRestoreTwice(r: BuzzerSequenceRegistry) returns (names: seq<string>)
    modifies r
    ensures r.sequences == BuiltIns()
    ensures names == ["error", "success", "warning"]
  {
    r.Clear();
    r.RestoreBuiltIns();
    r.RestoreBuiltIns();
    RestoreIdempotent(map[]);
    assert map[] + BuiltIns() == BuiltIns();
    assert r.sequences.Keys == {"success", "warning", "error"};
    names := r.List();
    SortedBuiltInNames(names);
  }

  /** The only sorted listing of the built-in names. */
  lemma SortedBuiltInNames(names: seq<string>)
    requires SortedStrict(names) && |names| == 3
    requires forall k :: k in names <==> k in {"success", "warning", "error"}
    ensures names == ["error", "success", "warning"]
  {
    assert LexLt("error", "success") && LexLt("success", "warning") && LexLt("error", "warning");
    assert "error" in names && "success" in names && "warning" in names;
    var i :| 0 <= i < 3 && names[i] == "error";
    var j :| 0 <= j < 3 && names[j] == "success";
    var k :| 0 <= k < 3 && names[k] == "warning";
    SortedIndexOrder(names, i, j);
    SortedIndexOrder(names, j, k);
  }
}
