/**
 * Scheduling of swarm commands (reference/codrone_edu/swarm.py): a
 * `Sequence` collects the commands one drone is to run, and a `Sync` merges
 * sequences into one table from drone index to the commands it runs, in
 * order. Running the table on drones and printing it are not modelled.
 */
module Swarm {
  /** A Python value passed to a drone command. */
  datatype Value = IntValue(i: int) | RealValue(r: real) | StrValue(s: string) | BoolValue(b: bool)

  /** One scheduled call `[method_name, args, kwargs]`; keyword arguments in their given order. */
  datatype Command = Command(methodName: string, args: seq<Value>, kwargs: seq<(string, Value)>)

  /**
   * What `Sync.add` does with one sequence: its commands are appended to
   * the drone's list, which is created by the first of them. A sequence
   * with no commands adds nothing, not even the drone's index.
   */
  function Merge(table: map<int, seq<Command>>, index: int, commands: seq<Command>): (r: map<int, seq<Command>>)
    ensures r.Keys == if |commands| == 0 then table.Keys else table.Keys + {index}
    ensures forall k :: k in table && k != index ==> r[k] == table[k]
    ensures |commands| > 0 ==> r[index] == (if index in table then table[index] else []) + commands
  {
    if |commands| == 0 then table
    else table[index := (if index in table then table[index] else []) + commands]
  }

  /** Sequences merged one after the other, as `Sync(*args)` does. */
  function MergeAll(table: map<int, seq<Command>>, entries: seq<(int, seq<Command>)>): map<int, seq<Command>>
    decreases |entries|
  {
    if |entries| == 0 then table
    else MergeAll(Merge(table, entries[0].0, entries[0].1), entries[1..])
  }

  /** The largest list length in the table, 0 for an empty table. */
  predicate IsMaxSteps(table: map<int, seq<Command>>, m: nat)
  {
    && (forall k :: k in table ==> |table[k]| <= m)
    && (|table| == 0 ==> m == 0)
    && (|table| > 0 ==> exists k :: k in table && |table[k]| == m)
  }

  /** The maximum is unique. */
  lemma MaxStepsUnique(table: map<int, seq<Command>>, m1: nat, m2: nat)
    requires IsMaxSteps(table, m1) && IsMaxSteps(table, m2)
    ensures m1 == m2
  {
    if |table| > 0 {
      var k1 :| k1 in table && |table[k1]| == m1;
      var k2 :| k2 in table && |table[k2]| == m2;
      assert m1 <= m2 && m2 <= m1;
    }
  }

  /**
   * Merging sequences for the same drone runs their commands back to back,
   * in the order they were merged; other drones are untouched.
   */
  lemma {:induction false} MergeConcatenates(table: map<int, seq<Command>>, index: int, a: seq<Command>, b: seq<Command>)
    ensures Merge(Merge(table, index, a), index, b) == Merge(table, index, a + b)
  {
    if |a| == 0 {
      assert a + b == b;
    } else if |b| == 0 {
      assert a + b == a;
    } else {
      var base := if index in table then table[index] else [];
      assert (base + a) + b == base + (a + b);
    }
  }

  /** Merging never shrinks a list, and each drone's list only grows by the commands given for it. */
  lemma {:induction false} MergeAllGrows(table: map<int, seq<Command>>, entries: seq<(int, seq<Command>)>, k: int)
    requires k in table
    ensures k in MergeAll(table, entries)
    ensures table[k] <= MergeAll(table, entries)[k]
    decreases |entries|
  {
    if |entries| > 0 {
      var next := Merge(table, entries[0].0, entries[0].1);
      assert table[k] <= next[k];
      MergeAllGrows(next, entries[1..], k);
    }
  }

  lemma NonEmptyHasElement(s: set<int>)
    requires s != {}
    ensures exists x :: x in s
  {
    if forall x :: x !in s {
      assert false;
    }
  }

  class Sequence {
    /** The drone this sequence is for. */
    const index: int
    /** The list `_sequence[index]`. */
    var commands: seq<Command>

    /** `Sequence(index)`: an empty list for the drone. */
    constructor (index: int)
      ensures this.index == index && commands == []
    {
      this.index := index;
      commands := [];
    }

    /** `add(method_name, *args, **kwargs)`: one more call at the end of this drone's list. */
    method Add(methodName: string, args: seq<Value>, kwargs: seq<(string, Value)>)
      modifies this
      ensures commands == old(commands) + [Command(methodName, args, kwargs)]
    {
      commands := commands + [Command(methodName, args, kwargs)];
    }

    /** `get_sequence()`: the one-entry table. */
    function GetSequence(): (table: map<int, seq<Command>>)
      reads this
      ensures table.Keys == {index} && table[index] == commands
    {
      map[index := commands]
    }
  }

  /** The sequences' drones and lists, as they stand. */
  ghost function Entries(sequences: seq<Sequence>): (entries: seq<(int, seq<Command>)>)
    reads sequences
    ensures |entries| == |sequences|
  {
    seq(|sequences|, i requires 0 <= i < |sequences| reads sequences => (sequences[i].index, sequences[i].commands))
  }

  class Sync {
    /** The table `_sync`: drone index to the calls it runs, in order. */
    var sync: map<int, seq<Command>>

    /** `Sync(*sequences)`: the sequences merged in the order given. */
    constructor (sequences: seq<Sequence>)
      ensures sync == MergeAll(map[], Entries(sequences))
    {
      sync := map[];
      new;
      var i := 0;
      while i < |sequences|
        invariant 0 <= i <= |sequences|
        invariant MergeAll(sync, Entries(sequences)[i..]) == MergeAll(map[], Entries(sequences))
      {
        assert Entries(sequences)[i..][0] == (sequences[i].index, sequences[i].commands);
        assert Entries(sequences)[i..][1..] == Entries(sequences)[i + 1..];
        Add(sequences[i]);
        i := i + 1;
      }
    }

    /** `add(sequence)`: the sequence's calls, one by one, onto the end of its drone's list. */
    method Add(s: Sequence)
      modifies this
      ensures sync == Merge(old(sync), s.index, s.commands)
    {
      var index := s.index;
      var methodList := s.commands;
      ghost var start := sync;
      for i := 0 to |methodList|
        invariant sync == Merge(start, index, methodList[..i])
      {
        var method_ := methodList[i];
        ghost var before := sync;
        if index !in sync {
          assert [] + [method_] == [method_];
          sync := sync[index := [method_]];
        } else {
          sync := sync[index := sync[index] + [method_]];
        }
        assert sync == Merge(before, index, [method_]);
        MergeConcatenates(start, index, methodList[..i], [method_]);
        assert methodList[..i + 1] == methodList[..i] + [method_];
      }
      assert methodList[..|methodList|] == methodList;
    }

    /** `get_size()`: how many drones have commands. */
    function GetSize(): (n: nat)
      reads this
      ensures n == |sync.Keys|
    {
      |sync|
    }

    /** `get_max_num_steps()`: the length of the longest list, 0 when there is none. */
    method GetMaxNumSteps() returns (maxSteps: nat)
      ensures IsMaxSteps(sync, maxSteps)
    {
      maxSteps := 0;
      var remaining := sync.Keys;
      ghost var seen: set<int> := {};
      ghost var longest: int := 0;
      while remaining != {}
        invariant remaining + seen == sync.Keys && remaining !! seen
        invariant forall k :: k in seen ==> |sync[k]| <= maxSteps
        invariant seen == {} ==> maxSteps == 0
        invariant seen != {} ==> longest in seen && |sync[longest]| == maxSteps
        decreases |remaining|
      {
        NonEmptyHasElement(remaining);
        var drone :| drone in remaining;
        var currSteps := |sync[drone]|;
        if currSteps > maxSteps {
          maxSteps := currSteps;
          longest := drone;
        } else if seen == {} {
          longest := drone;
        }
        remaining := remaining - {drone};
        seen := seen + {drone};
      }
      if |sync| > 0 {
        assert longest in sync;
      }
    }
  }

  /** Two sequences for one drone, synced, run back to back; a drone given no commands is absent. */
  method SyncTwo(first: Sequence, second: Sequence) returns (s: Sync)
    requires first.index == second.index && first != second
    ensures s.sync.Keys == if |first.commands + second.commands| == 0 then {} else {first.index}
    ensures |first.commands + second.commands| > 0 ==> s.sync[first.index] == first.commands + second.commands
  {
    s := new Sync([first, second]);
    assert Entries([first, second])[0] == (first.index, first.commands);
    assert Entries([first, second])[1] == (second.index, second.commands);
    var entries := Entries([first, second]);
    assert entries[1..][1..] == [];
    var once := Merge(map[], first.index, first.commands);
    assert MergeAll(map[], entries) == MergeAll(once, entries[1..]);
    assert MergeAll(once, entries[1..]) == MergeAll(Merge(once, second.index, second.commands), []);
    MergeConcatenates(map[], first.index, first.commands, second.commands);
  }
}
