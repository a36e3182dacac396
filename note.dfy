/**
 * Musical notes of the buzzer (protocol/buzzer/Note.java). The enum lists
 * C1, CS1, ..., B8 with codes 0x00..0x5F in steps of one semitone, then the
 * control values END_OF_TYPE (0x60), MUTE (0xEE) and FIN (0xFF). A pitched
 * constant such as CS4 is `Pitch(CSharp, 4)` here.
 */
module Notes {
  import opened Common

  datatype PitchClass = C | CSharp | D | DSharp | E | F | FSharp | G | GSharp | A | ASharp | B

  type Octave = o: int | 1 <= o <= 8 witness 1

  datatype Note = Pitch(pitch: PitchClass, octave: Octave) | EndOfType | Mute | Fin

  /** Position of a pitch class within an octave, C = 0 .. B = 11. */
  function Semitone(p: PitchClass): (k: int)
    ensures 0 <= k < 12
  {
    match p
    case C => 0
    case CSharp => 1
    case D => 2
    case DSharp => 3
    case E => 4
    case F => 5
    case FSharp => 6
    case G => 7
    case GSharp => 8
    case A => 9
    case ASharp => 10
    case B => 11
  }

  function PitchClassAt(k: int): PitchClass
    requires 0 <= k < 12
  {
    match k
    case 0 => C
    case 1 => CSharp
    case 2 => D
    case 3 => DSharp
    case 4 => E
    case 5 => F
    case 6 => FSharp
    case 7 => G
    case 8 => GSharp
    case 9 => A
    case 10 => ASharp
    case _ => B
  }

  /** `getValue()`. */
  function Value(n: Note): int
  {
    match n
    case Pitch(p, o) => 12 * (o - 1) + Semitone(p)
    case EndOfType => 0x60
    case Mute => 0xEE
    case Fin => 0xFF
  }

  /** `fromValue`: the note with code `v`; an unknown code throws. */
  function FromValue(v: int): Result<Note>
  {
    if 0 <= v <= 0x5F then Ok(Pitch(PitchClassAt(v % 12), v / 12 + 1))
    else if v == 0x60 then Ok(EndOfType)
    else if v == 0xEE then Ok(Mute)
    else if v == 0xFF then Ok(Fin)
    else Throws(IllegalArgument("Unknown Note value"))
  }

  /** `isMusicalNote()`: the code lies between those of C1 and B8. */
  predicate IsMusicalNote(n: Note)
  {
    Value(Pitch(C, 1)) <= Value(n) <= Value(Pitch(B, 8))
  }

  /** The pitched notes run from C1 = 0x00 to B8 = 0x5F, one code per semitone. */
  lemma PitchCodesConsecutive(p: PitchClass, o: Octave)
    ensures 0 <= Value(Pitch(p, o)) <= 0x5F
    ensures Semitone(p) < 11 ==> Value(Pitch(PitchClassAt(Semitone(p) + 1), o)) == Value(Pitch(p, o)) + 1
    ensures p == B && o < 8 ==> Value(Pitch(C, o + 1)) == Value(Pitch(p, o)) + 1
  {
  }

  lemma SemitoneRoundTrip(p: PitchClass)
    ensures PitchClassAt(Semitone(p)) == p
  {
  }

  lemma FromValueValue(n: Note)
    ensures FromValue(Value(n)) == Ok(n)
  {
    match n
    case Pitch(p, o) =>
      var v := Value(n);
      assert v % 12 == Semitone(p) && v / 12 + 1 == o;
      SemitoneRoundTrip(p);
    case _ =>
  }

  /** `fromValue` succeeds exactly on the codes some note carries. */
  lemma FromValueSound(v: int)
    ensures FromValue(v).Ok? ==> Value(FromValue(v).value) == v
    ensures FromValue(v).Throws? <==> forall n :: Value(n) != v
  {
    if 0 <= v <= 0x5F {
      assert Semitone(PitchClassAt(v % 12)) == v % 12;
    }
    forall n | Value(n) == v ensures FromValue(v).Ok? { FromValueValue(n); }
  }

  /** Exactly the pitched notes are musical; END_OF_TYPE, MUTE and FIN are not. */
  lemma MusicalIffPitch(n: Note)
    ensures IsMusicalNote(n) <==> n.Pitch?
  {
    if n.Pitch? { PitchCodesConsecutive(n.pitch, n.octave); }
  }
}
