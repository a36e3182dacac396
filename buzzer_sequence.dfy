/**
 * Named buzzer melodies (buzzer/BuzzerSequence.java): an immutable list of
 * notes, built by a `Builder` that validates each note as it is appended,
 * and the three built-in sequences.
 */
module BuzzerSequences {
  import opened Common

  const MAX_FREQUENCY_HZ: int := 10000
  const MAX_DURATION_MS: int := 10000
  const MAX_DELAY_MS: int := 10000

  /** One note: frequency in Hz (0 is a pause), play time and silence after, in milliseconds. */
  datatype BuzzerNote = BuzzerNote(frequency: int, durationMs: int, delayAfterMs: int)

  /** A built sequence: a name and the notes captured when it was built. */
  datatype BuzzerSequence = BuzzerSequence(name: string, notes: seq<BuzzerNote>)

  /** The ranges `addNote` accepts. */
  predicate ValidNote(n: BuzzerNote)
  {
    && 0 <= n.frequency <= MAX_FREQUENCY_HZ
    && 1 <= n.durationMs <= MAX_DURATION_MS
    && 0 <= n.delayAfterMs <= MAX_DELAY_MS
  }

  predicate AllValid(notes: seq<BuzzerNote>)
  {
    forall i :: 0 <= i < |notes| ==> ValidNote(notes[i])
  }

  /**
   * The exception `addNote(f, d, delay)` throws, if any: the frequency is
   * checked first, then the duration, then the delay.
   */
  function NoteError(f: int, d: int, delay: int): (r: Option<Exception>)
    ensures r.None? <==> ValidNote(BuzzerNote(f, d, delay))
    ensures r.Some? ==> r.value.IllegalArgument?
  {
    if f < 0 || f > MAX_FREQUENCY_HZ then Some(IllegalArgument("Frequency must be 0-10000 Hz"))
    else if d < 1 || d > MAX_DURATION_MS then Some(IllegalArgument("Duration must be 1-10000 ms"))
    else if delay < 0 || delay > MAX_DELAY_MS then Some(IllegalArgument("Delay must be 0-10000 ms"))
    else None
  }

  /** The exact sum of play time plus silence over the notes. */
  function SumDurations(notes: seq<BuzzerNote>): int
  {
    if notes == [] then 0 else SumDurations(notes[..|notes| - 1]) + notes[|notes| - 1].durationMs + notes[|notes| - 1].delayAfterMs
  }

  /** `getTotalDurationMs()`: the sum taken in Java `int` arithmetic. */
  function TotalDurationMs(s: BuzzerSequence): int
  {
    ToInt(SumDurations(s.notes))
  }

  /** Appending a note adds its play time and its silence to the sum. */
  lemma SumDurationsAppend(notes: seq<BuzzerNote>, n: BuzzerNote)
    ensures SumDurations(notes + [n]) == SumDurations(notes) + n.durationMs + n.delayAfterMs
  {
    assert (notes + [n])[..|notes|] == notes;
  }

  /** Each valid note adds between 1 and 20000 ms. */
  lemma {:induction false} SumDurationsBounds(notes: seq<BuzzerNote>)
    requires AllValid(notes)
    ensures |notes| <= SumDurations(notes) <= |notes| * (MAX_DURATION_MS + MAX_DELAY_MS)
  {
    if notes != [] {
      SumDurationsBounds(notes[..|notes| - 1]);
    }
  }

  /**
   * The `int` sum does not wrap for any sequence of valid notes shorter
   * than 107375 notes: the total is then the exact sum, and at least one
   * millisecond per note.
   */
  lemma TotalDurationExact(s: BuzzerSequence)
    requires AllValid(s.notes) && |s.notes| <= 107374
    ensures TotalDurationMs(s) == SumDurations(s.notes)
    ensures TotalDurationMs(s) >= |s.notes|
  {
    SumDurationsBounds(s.notes);
  }

  /** `BuzzerSequence.Builder`: a list of notes that `addNote`/`addPause` append to. */
  class Builder {
    var notes: seq<BuzzerNote>

    /** Every note in the builder passed validation. */
    ghost predicate Valid()
      reads this
    {
      AllValid(notes)
    }

    constructor ()
      ensures notes == [] && Valid()
    {
      notes := [];
    }

    /** `addNote(frequency, durationMs, delayAfterMs)`: validate, then append. */
    method AddNoteWithDelay(frequency: int, durationMs: int, delayAfterMs: int) returns (error: Option<Exception>)
      requires Valid()
      modifies this
      ensures error == NoteError(frequency, durationMs, delayAfterMs)
      ensures error.None? ==> notes == old(notes) + [BuzzerNote(frequency, durationMs, delayAfterMs)]
      ensures error.Some? ==> notes == old(notes)
      ensures Valid()
    {
      if frequency < 0 || frequency > MAX_FREQUENCY_HZ {
        return Some(IllegalArgument("Frequency must be 0-10000 Hz"));
      }
      if durationMs < 1 || durationMs > MAX_DURATION_MS {
        return Some(IllegalArgument("Duration must be 1-10000 ms"));
      }
      if delayAfterMs < 0 || delayAfterMs > MAX_DELAY_MS {
        return Some(IllegalArgument("Delay must be 0-10000 ms"));
      }
      notes := notes + [BuzzerNote(frequency, durationMs, delayAfterMs)];
      error := None;
    }

    /** `addNote(frequency, durationMs)`: the same as with a delay of 0. */
    method AddNote(frequency: int, durationMs: int) returns (error: Option<Exception>)
      requires Valid()
      modifies this
      ensures error == NoteError(frequency, durationMs, 0)
      ensures error.None? ==> notes == old(notes) + [BuzzerNote(frequency, durationMs, 0)]
      ensures error.Some? ==> notes == old(notes)
      ensures Valid()
    {
      error := AddNoteWithDelay(frequency, durationMs, 0);
    }

    /** `addPause(pauseMs)`: a silent note of 1..10000 ms with no delay after. */
    method AddPause(pauseMs: int) returns (error: Option<Exception>)
      requires Valid()
      modifies this
      ensures error.None? <==> 1 <= pauseMs <= MAX_DURATION_MS
      ensures error.None? ==> notes == old(notes) + [BuzzerNote(0, pauseMs, 0)]
      ensures error.Some? ==> notes == old(notes) && error.value.IllegalArgument?
      ensures Valid()
    {
      if pauseMs < 1 || pauseMs > MAX_DURATION_MS {
        return Some(IllegalArgument("Pause must be 1-10000 ms"));
      }
      notes := notes + [BuzzerNote(0, pauseMs, 0)];
      error := None;
    }

    /**
     * `build(name)`: a sequence holding the notes added so far. A null or
     * blank name is rejected first, then an empty note list. The builder
     * keeps its notes, so later additions accumulate into later builds,
     * while the sequence returned keeps the notes it was built with.
     */
    method Build(name: Option<string>) returns (r: Result<BuzzerSequence>)
      ensures r.Ok? <==> name.Some? && !IsBlank(name.value) && |notes| > 0
      ensures r.Ok? ==> r.value == BuzzerSequence(name.value, notes)
      ensures (name.None? || IsBlank(name.value)) ==> r == Throws(IllegalArgument("Sequence name cannot be null or empty"))
    {
      if name.None? {
        return Throws(IllegalArgument("Sequence name cannot be null or empty"));
      }
      TrimEmptyIffBlank(name.value);
      if Trim(name.value) == [] {
        return Throws(IllegalArgument("Sequence name cannot be null or empty"));
      }
      if |notes| == 0 {
        return Throws(IllegalArgument("Cannot build sequence with no notes"));
      }
      r := Ok(BuzzerSequence(name.value, notes));
    }
  }

  /** Two ascending tones. */
  function SuccessSequence(): BuzzerSequence
  {
    BuzzerSequence("success", [BuzzerNote(1600, 120, 50), BuzzerNote(2200, 120, 0)])
  }

  /** Three 800 Hz beeps with pauses. */
  function WarningSequence(): BuzzerSequence
  {
    BuzzerSequence("warning", [BuzzerNote(800, 120, 60), BuzzerNote(800, 120, 180), BuzzerNote(800, 220, 0)])
  }

  /** Three short 150 Hz beeps. */
  function ErrorSequence(): BuzzerSequence
  {
    BuzzerSequence("error", [BuzzerNote(150, 180, 50), BuzzerNote(150, 180, 50), BuzzerNote(150, 180, 0)])
  }

  /** `createSuccessSequence()`, built through a fresh builder. */
  method CreateSuccessSequence() returns (s: BuzzerSequence)
    ensures s == SuccessSequence()
    ensures AllValid(s.notes)
  {
    var b := new Builder();
    var e1 := b.AddNoteWithDelay(1600, 120, 50);
    var e2 := b.AddNote(2200, 120);
    assert "success"[0] == 's';
    var r := b.Build(Some("success"));
    s := r.value;
  }

  /** `createWarningSequence()`. */
  method CreateWarningSequence() returns (s: BuzzerSequence)
    ensures s == WarningSequence()
    ensures AllValid(s.notes)
  {
    var b := new Builder();
    var e1 := b.AddNoteWithDelay(800, 120, 60);
    var e2 := b.AddNoteWithDelay(800, 120, 180);
    var e3 := b.AddNote(800, 220);
    assert "warning"[0] == 'w';
    var r := b.Build(Some("warning"));
    s := r.value;
  }

  /** `createErrorSequence()`. */
  method CreateErrorSequence() returns (s: BuzzerSequence)
    ensures s == ErrorSequence()
    ensures AllValid(s.notes)
  {
    var b := new Builder();
    var e1 := b.AddNoteWithDelay(150, 180, 50);
    var e2 := b.AddNoteWithDelay(150, 180, 50);
    var e3 := b.AddNote(150, 180);
    assert "error"[0] == 'e';
    var r := b.Build(Some("error"));
    s := r.value;
  }

  /** The built-in sequences last 290, 700 and 640 ms. */
  lemma BuiltInDurations()
    ensures TotalDurationMs(SuccessSequence()) == 290
    ensures TotalDurationMs(WarningSequence()) == 700
    ensures TotalDurationMs(ErrorSequence()) == 640
  {
    var a, b := BuzzerNote(1600, 120, 50), BuzzerNote(2200, 120, 0);
    SumDurationsAppend([], a);
    SumDurationsAppend([a], b);
    assert [a] + [b] == SuccessSequence().notes;
    var w1, w2, w3 := BuzzerNote(800, 120, 60), BuzzerNote(800, 120, 180), BuzzerNote(800, 220, 0);
    SumDurationsAppend([], w1);
    SumDurationsAppend([w1], w2);
    SumDurationsAppend([w1, w2], w3);
    assert [w1] + [w2] == [w1, w2] && [w1, w2] + [w3] == WarningSequence().notes;
    var e1, e3 := BuzzerNote(150, 180, 50), BuzzerNote(150, 180, 0);
    SumDurationsAppend([], e1);
    SumDurationsAppend([e1], e1);
    SumDurationsAppend([e1, e1], e3);
    assert [e1] + [e1] == [e1, e1] && [e1, e1] + [e3] == ErrorSequence().notes;
  }

  /**
   * Building twice from one builder: the first sequence keeps the note it
   * was built with, and the second also holds the note added in between.
   */
  method BuildsAccumulate() returns (first: BuzzerSequence, second: BuzzerSequence)
    ensures first.notes == [BuzzerNote(440, 200, 0)]
    ensures second.notes == [BuzzerNote(440, 200, 0), BuzzerNote(880, 300, 0)]
  {
    var b := new Builder();
    var e1 := b.AddNote(440, 200);
    assert "sequence-1"[0] == 's';
    var r1 := b.Build(Some("sequence-1"));
    first := r1.value;
    var e2 := b.AddNote(880, 300);
    assert "sequence-2"[0] == 's';
    var r2 := b.Build(Some("sequence-2"));
    second := r2.value;
  }
}
