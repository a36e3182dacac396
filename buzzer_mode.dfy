/**
 * Buzzer operation modes (protocol/buzzer/BuzzerMode.java): each mode has a
 * small integer code, and `fromValue` maps a code back to its mode or throws.
 */
module BuzzerModes {
  import opened Common

  datatype BuzzerMode = Stop | Mute | MuteReserve | Scale | ScaleReserve | Hz | HzReserve | EndOfType

  /** `getValue()`: the codes are 0..7 in declaration order. */
  function Value(m: BuzzerMode): int
  {
    match m
    case Stop => 0
    case Mute => 1
    case MuteReserve => 2
    case Scale => 3
    case ScaleReserve => 4
    case Hz => 5
    case HzReserve => 6
    case EndOfType => 7
  }

  /** `fromValue`: the mode with code `v`; an unknown code throws. */
  function FromValue(v: int): Result<BuzzerMode>
  {
    match v
    case 0 => Ok(Stop)
    case 1 => Ok(Mute)
    case 2 => Ok(MuteReserve)
    case 3 => Ok(Scale)
    case 4 => Ok(ScaleReserve)
    case 5 => Ok(Hz)
    case 6 => Ok(HzReserve)
    case 7 => Ok(EndOfType)
    case _ => Throws(IllegalArgument("Unknown BuzzerMode value"))
  }

  lemma ValueRange(m: BuzzerMode)
    ensures 0 <= Value(m) <= 7
  {
  }

  /** No two modes share a code. */
  lemma ValueInjective(m: BuzzerMode, n: BuzzerMode)
    requires Value(m) == Value(n)
    ensures m == n
  {
  }

  lemma FromValueValue(m: BuzzerMode)
    ensures FromValue(Value(m)) == Ok(m)
  {
  }

  /** `fromValue` succeeds exactly on 0..7, and then on the mode carrying that code. */
  lemma FromValueDomain(v: int)
    ensures FromValue(v).Ok? <==> 0 <= v <= 7
    ensures FromValue(v).Ok? ==> Value(FromValue(v).value) == v
  {
  }
}
