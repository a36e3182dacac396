/**
 * Shared vocabulary for the JCoDroneEdu model: wire bytes, the Java integer
 * casts the library relies on, ByteBuffer byte order, Java string helpers
 * (`trim().isEmpty()`, ASCII case mapping, `compareTo` order) and the
 * sorted key listing that both registries return.
 */
module Common {

  datatype Option<T> = None | Some(value: T)

  /** The Java exceptions the modelled code throws. */
  datatype Exception =
    | IllegalArgument(reason: string)
    | IllegalState(reason: string)
    | BufferUnderflow
    | BufferOverflow
    | InvalidDataSize(expected: int, remaining: int)
    | NullPointer
    | Runtime(reason: string)

  /** A value, or the exception thrown instead of returning it. */
  datatype Result<T> = Ok(value: T) | Throws(error: Exception)

  /** A byte on the wire, read as an unsigned value. */
  type Byte = b: int | 0 <= b < 256

  /** Java's `byte` view of a wire byte (two's complement). */
  function Signed8(b: Byte): (r: int)
    ensures -128 <= r < 128
    ensures (r - b) % 256 == 0
    ensures r < 0 <==> b >= 128
  {
    if b < 128 then b else b - 256
  }

  /** Java's `(byte) x` cast, giving the wire byte that carries `x`. */
  function ToByte(x: int): (r: Byte)
    ensures (x - r) % 256 == 0
    ensures 0 <= x < 256 ==> r == x
    ensures -128 <= x < 128 ==> Signed8(r) == x
  {
    x % 256
  }

  const SHORT_MIN: int := -32768
  const SHORT_MAX: int := 32767

  predicate IsShort(v: int) { SHORT_MIN <= v <= SHORT_MAX }

  /** Java's `(short) x` cast: wrap-around modulo 2^16 into the signed range. */
  function ToShort(x: int): (r: int)
    ensures IsShort(r)
    ensures (x - r) % 65536 == 0
    ensures IsShort(x) ==> r == x
  {
    (x + 32768) % 65536 - 32768
  }

  const INT_MIN: int := -0x8000_0000
  const INT_MAX: int := 0x7FFF_FFFF

  predicate IsInt(v: int) { INT_MIN <= v <= INT_MAX }

  /** Java `int` arithmetic: the result wraps around modulo 2^32 into the signed range. */
  function ToInt(x: int): (r: int)
    ensures IsInt(r)
    ensures (x - r) % 0x1_0000_0000 == 0
    ensures IsInt(x) ==> r == x
  {
    (x + 0x8000_0000) % 0x1_0000_0000 - 0x8000_0000
  }

  /** `Math.max(lo, Math.min(x, hi))`. */
  function Clamp(x: int, lo: int, hi: int): (r: int)
    requires lo <= hi
    ensures lo <= r <= hi
    ensures lo <= x <= hi ==> r == x
    ensures x < lo ==> r == lo
    ensures x > hi ==> r == hi
  {
    if x < lo then lo else if x > hi then hi else x
  }

  /**
   * `Math.max(lo, Math.min(x, hi))` on floating-point values, taken as reals.
   * The same clamp as `Clamp`, kept separate because a Dafny type parameter
   * cannot require an ordering.
   */
  function ClampReal(x: real, lo: real, hi: real): (r: real)
    requires lo <= hi
    ensures lo <= r <= hi
    ensures lo <= x <= hi ==> r == x
    ensures x < lo ==> r == lo
    ensures x > hi ==> r == hi
  {
    if x < lo then lo else if x > hi then hi else x
  }

  /** Java's `(long) x` / `(int) x` on a finite double in range: truncation toward zero. */
  function Truncate(x: real): (r: int)
    ensures x >= 0.0 ==> r as real <= x < r as real + 1.0
    ensures x < 0.0 ==> r as real - 1.0 < x <= r as real
  {
    if x >= 0.0 then x.Floor else -((-x).Floor)
  }

  /** The 32 bits of a Java `int`. */
  function IntBits(x: int): bv32
    requires IsInt(x)
  {
    ((x + 0x1_0000_0000) % 0x1_0000_0000) as bv32
  }

  /** Only the `int` 0 has no bit set. */
  lemma IntBitsZero(x: int)
    requires IsInt(x)
    ensures IntBits(x) == 0 <==> x == 0
  {
    var n := (x + 0x1_0000_0000) % 0x1_0000_0000;
    assert n == 0 <==> x == 0;
  }

  /** `ByteBuffer` byte order; a freshly allocated buffer is big-endian. */
  datatype Order = BigEndian | LittleEndian

  /** The two bytes `putShort` writes for a short value. */
  function ShortBytes(v: int, order: Order): (r: seq<Byte>)
    requires IsShort(v)
    ensures |r| == 2
  {
    var u := v % 65536;
    var hi := u / 256;
    var lo := u % 256;
    if order == BigEndian then [hi, lo] else [lo, hi]
  }

  /** The signed short `getShort` reads from two bytes. */
  function ReadShort(b0: Byte, b1: Byte, order: Order): (r: int)
    ensures IsShort(r)
  {
    var u := if order == BigEndian then b0 * 256 + b1 else b1 * 256 + b0;
    if u < 32768 then u else u - 65536
  }

  lemma ShortRoundTrip(v: int, order: Order)
    requires IsShort(v)
    ensures var b := ShortBytes(v, order); ReadShort(b[0], b[1], order) == v
  {
    var u := v % 65536;
    assert u == if v >= 0 then v else v + 65536;
    assert (u / 256) * 256 + u % 256 == u;
  }

  /** The two byte orders put the same bytes on the wire, swapped. */
  lemma ShortOrdersSwap(v: int)
    requires IsShort(v)
    ensures ShortBytes(v, LittleEndian) == [ShortBytes(v, BigEndian)[1], ShortBytes(v, BigEndian)[0]]
  {
  }

  /**
   * The default `Serializable.toArray` shape: allocate a buffer of the
   * declared `getSize()` and pack into it. A negative size makes `allocate`
   * throw; packing more bytes than allocated overflows; fewer leave zeros.
   */
  function AllocateAndPack(size: int, packed: seq<Byte>): (r: Result<seq<Byte>>)
    ensures r.Ok? <==> 0 <= size && |packed| <= size
    ensures r.Ok? ==> |r.value| == size && r.value[..|packed|] == packed
    ensures size == |packed| ==> r == Ok(packed)
  {
    if size < 0 then Throws(IllegalArgument("capacity < 0"))
    else if |packed| > size then Throws(BufferOverflow)
    else if |packed| == size then Ok(packed)
    else Ok(packed + seq(size - |packed|, _ => 0))
  }

  // ---------------------------------------------------------------- strings

  predicate IsDigits(s: string)
  {
    forall i :: 0 <= i < |s| ==> '0' <= s[i] <= '9'
  }

  function DigitChar(d: int): (c: char)
    requires 0 <= d < 10
    ensures '0' <= c <= '9' && c as int - '0' as int == d
  {
    ('0' as int + d) as char
  }

  /** `String.format("%d", n)` for a non-negative `n`. */
  function Decimal(n: nat): (s: string)
    ensures |s| > 0 && IsDigits(s)
    ensures |s| > 1 ==> s[0] != '0'
    decreases n
  {
    if n < 10 then [DigitChar(n)] else Decimal(n / 10) + [DigitChar(n % 10)]
  }

  /** `String.format("%d", i)` for any integer: a minus sign before a negative number's digits. */
  function IntString(i: int): (s: string)
    ensures |s| > 0
    ensures i >= 0 ==> s == Decimal(i)
    ensures i < 0 ==> s == "-" + Decimal(-i)
  {
    if i < 0 then "-" + Decimal(-i) else Decimal(i)
  }

  /** The number a string of decimal digits denotes. */
  function DigitsValue(s: string): nat
    requires IsDigits(s)
    decreases |s|
  {
    if s == [] then 0 else DigitsValue(s[..|s| - 1]) * 10 + (s[|s| - 1] as int - '0' as int)
  }

  /** Formatting a number in decimal and reading the digits back gives the number. */
  lemma {:induction false} DecimalRoundTrip(n: nat)
    ensures DigitsValue(Decimal(n)) == n
    decreases n
  {
    if n >= 10 {
      DecimalRoundTrip(n / 10);
      var s := Decimal(n);
      assert s[..|s| - 1] == Decimal(n / 10);
    }
  }

  /** Java's `s.trim().isEmpty()`: every character is at most U+0020. */
  predicate IsBlank(s: string)
  {
    forall i :: 0 <= i < |s| ==> s[i] <= ' '
  }

  /** Java's `s.trim()` for the characters it strips (at most U+0020). */
  function Trim(s: string): (r: string)
    ensures |r| <= |s|
    decreases |s|
  {
    if |s| > 0 && s[0] <= ' ' then Trim(s[1..])
    else if |s| > 0 && s[|s| - 1] <= ' ' then Trim(s[..|s| - 1])
    else s
  }

  lemma {:induction false} TrimEmptyIffBlank(s: string)
    ensures Trim(s) == [] <==> IsBlank(s)
    decreases |s|
  {
    if |s| > 0 && s[0] <= ' ' {
      TrimEmptyIffBlank(s[1..]);
      assert IsBlank(s) <==> IsBlank(s[1..]) by {
        if IsBlank(s[1..]) {
          forall i | 0 <= i < |s| ensures s[i] <= ' ' {
            if i > 0 { assert s[i] == s[1..][i - 1]; }
          }
        }
        if IsBlank(s) {
          forall i | 0 <= i < |s[1..]| ensures s[1..][i] <= ' ' { assert s[1..][i] == s[i + 1]; }
        }
      }
    } else if |s| > 0 && s[|s| - 1] <= ' ' {
      var t := s[..|s| - 1];
      TrimEmptyIffBlank(t);
      assert t[0] == s[0];
    } else if |s| > 0 {
      assert !(s[0] <= ' ');
    }
  }

  /** ASCII part of `Character.toLowerCase`. */
  function LowerChar(c: char): char
  {
    if 'A' <= c <= 'Z' then (c as int + 32) as char else c
  }

  /** ASCII part of `Character.toUpperCase`. */
  function UpperChar(c: char): char
  {
    if 'a' <= c <= 'z' then (c as int - 32) as char else c
  }

  /** `String.toLowerCase()` restricted to ASCII letters. */
  function Lower(s: string): (r: string)
    ensures |r| == |s|
    ensures forall i :: 0 <= i < |s| ==> r[i] == LowerChar(s[i])
  {
    seq(|s|, i requires 0 <= i < |s| => LowerChar(s[i]))
  }

  /** `String.toUpperCase()` restricted to ASCII letters. */
  function Upper(s: string): (r: string)
    ensures |r| == |s|
    ensures forall i :: 0 <= i < |s| ==> r[i] == UpperChar(s[i])
  {
    seq(|s|, i requires 0 <= i < |s| => UpperChar(s[i]))
  }

  /** `a.compareTo(b) <= 0` for Java strings: lexicographic on characters, a prefix first. */
  predicate LexLe(a: string, b: string)
    decreases |a|
  {
    if a == [] then true
    else if b == [] then false
    else if a[0] != b[0] then a[0] < b[0]
    else LexLe(a[1..], b[1..])
  }

  /** `a.compareTo(b) < 0`. */
  predicate LexLt(a: string, b: string)
  {
    LexLe(a, b) && a != b
  }

  lemma {:induction false} LexLeReflexive(a: string)
    ensures LexLe(a, a)
    decreases |a|
  {
    if a != [] { LexLeReflexive(a[1..]); }
  }

  lemma {:induction false} LexLeTotal(a: string, b: string)
    ensures LexLe(a, b) || LexLe(b, a)
    decreases |a|
  {
    if a != [] && b != [] && a[0] == b[0] {
      LexLeTotal(a[1..], b[1..]);
    }
  }

  lemma {:induction false} LexLeAntisymmetric(a: string, b: string)
    requires LexLe(a, b) && LexLe(b, a)
    ensures a == b
    decreases |a|
  {
    if a != [] && b != [] {
      LexLeAntisymmetric(a[1..], b[1..]);
      assert a == [a[0]] + a[1..] && b == [b[0]] + b[1..];
    }
  }

  lemma {:induction false} LexLeTransitive(a: string, b: string, c: string)
    requires LexLe(a, b) && LexLe(b, c)
    ensures LexLe(a, c)
    decreases |a|
  {
    if a != [] && b != [] && c != [] && a[0] == b[0] && b[0] == c[0] {
      LexLeTransitive(a[1..], b[1..], c[1..]);
    }
  }

  /** Strictly increasing in `compareTo` order, hence also free of duplicates. */
  predicate SortedStrict(s: seq<string>)
  {
    forall i, j :: 0 <= i < j < |s| ==> LexLt(s[i], s[j])
  }

  /** In a strictly sorted listing, a name ordered below another comes first. */
  lemma SortedIndexOrder(names: seq<string>, i: int, j: int)
    requires SortedStrict(names) && 0 <= i < |names| && 0 <= j < |names|
    requires LexLt(names[i], names[j])
    ensures i < j
  {
    if j < i {
      LexLeAntisymmetric(names[i], names[j]);
    }
  }

  /** The least key of a non-empty key set, found by scanning it. */
  method LeastKey(keys: set<string>) returns (m: string)
    requires keys != {}
    ensures m in keys
    ensures forall k :: k in keys ==> LexLe(m, k)
  {
    m :| m in keys;
    LexLeReflexive(m);
    var rest := keys - {m};
    while rest != {}
      invariant m in keys
      invariant rest <= keys
      invariant forall k :: k in keys && k !in rest ==> LexLe(m, k)
      decreases |rest|
    {
      var k :| k in rest;
      LexLeTotal(m, k);
      LexLeReflexive(k);
      if !LexLe(m, k) {
        forall j | j in keys && j !in rest
          ensures LexLe(k, j)
        {
          LexLeTransitive(k, m, j);
        }
        m := k;
      }
      rest := rest - {k};
    }
  }

  /**
   * `new ArrayList<>(map.keySet())` followed by a natural-order sort: every
   * key exactly once, in increasing `compareTo` order.
   */
  method SortedKeys(keys: set<string>) returns (r: seq<string>)
    ensures SortedStrict(r)
    ensures forall k :: k in keys <==> k in r
    ensures |r| == |keys|
  {
    r := [];
    var rest := keys;
    while rest != {}
      invariant rest <= keys
      invariant forall k :: k in keys <==> k in r || k in rest
      invariant forall k :: k in r ==> k !in rest
      invariant |r| + |rest| == |keys|
      invariant SortedStrict(r)
      invariant forall i, k :: 0 <= i < |r| && k in rest ==> LexLt(r[i], k)
      decreases |rest|
    {
      var m := LeastKey(rest);
      forall i, k | 0 <= i < |r| && k in rest - {m}
        ensures LexLt(r[i], k)
      {
        LexLeTransitive(r[i], m, k);
        if r[i] == k { LexLeAntisymmetric(m, k); }
      }
      forall k | k in rest - {m}
        ensures LexLt(m, k)
      {
      }
      r := r + [m];
      rest := rest - {m};
    }
  }
}
