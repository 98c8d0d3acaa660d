/** Small building blocks shared by every module: an Option type, the
    fixed-width integer ranges of C++, a byte-copy helper standing for
    memcpy, sums of sequences and the decimal rendering used by
    base::NumberToString and WTF::String::Number. */
module Base {

  datatype Option<+T> = None | Some(value: T)

  const TwoTo32: int := 0x1_0000_0000

  /** uint32_t */
  type U32 = x: int | 0 <= x < 0x1_0000_0000

  /** uint8_t */
  type Byte = x: int | 0 <= x < 0x100

  /** int32_t */
  type Int32 = x: int | -0x8000_0000 <= x < 0x8000_0000

  /** Addition and multiplication of uint32_t, wrapping modulo 2^32. */
  function AddU32(a: U32, b: U32): (r: U32)
    ensures a + b < TwoTo32 ==> r == a + b
    ensures a + b >= TwoTo32 ==> r == a + b - TwoTo32
  {
    (a + b) % TwoTo32
  }

  function MulU32(a: U32, b: U32): U32 {
    (a * b) % TwoTo32
  }

  function Min(a: int, b: int): int { if a <= b then a else b }

  function Sum(s: seq<nat>): nat {
    if s == [] then 0 else Sum(s[..|s| - 1]) + s[|s| - 1]
  }

  lemma {:induction false} SumAppend(s: seq<nat>, t: seq<nat>)
    ensures Sum(s + t) == Sum(s) + Sum(t)
    decreases |t|
  {
    if t == [] {
      assert s + t == s;
    } else {
      assert (s + t)[..|s + t| - 1] == s + t[..|t| - 1];
      SumAppend(s, t[..|t| - 1]);
    }
  }

  lemma {:induction false} SumPrefixMonotone(s: seq<nat>, i: nat, j: nat)
    requires i <= j <= |s|
    ensures Sum(s[..i]) <= Sum(s[..j])
  {
    assert s[..j] == s[..i] + s[i..j];
    SumAppend(s[..i], s[i..j]);
  }

  /** Bytes of a sequence of byte strings laid end to end. */
  function Concat(parts: seq<seq<Byte>>): seq<Byte> {
    if parts == [] then [] else Concat(parts[..|parts| - 1]) + parts[|parts| - 1]
  }

  function Lengths(parts: seq<seq<Byte>>): (r: seq<nat>)
    ensures |r| == |parts|
    ensures forall k :: 0 <= k < |parts| ==> r[k] == |parts[k]|
  {
    if parts == [] then [] else Lengths(parts[..|parts| - 1]) + [|parts[|parts| - 1]|]
  }

  lemma {:induction false} ConcatLength(parts: seq<seq<Byte>>)
    ensures |Concat(parts)| == Sum(Lengths(parts))
  {
    if parts != [] {
      ConcatLength(parts[..|parts| - 1]);
      assert Lengths(parts)[..|parts| - 1] == Lengths(parts[..|parts| - 1]);
    }
  }

  lemma {:induction false} ConcatAppend(a: seq<seq<Byte>>, b: seq<seq<Byte>>)
    ensures Concat(a + b) == Concat(a) + Concat(b)
    decreases |b|
  {
    if b == [] {
      assert a + b == a;
    } else {
      assert (a + b)[..|a + b| - 1] == a + b[..|b| - 1];
      ConcatAppend(a, b[..|b| - 1]);
    }
  }

  lemma ConcatSingleton(part: seq<Byte>)
    ensures Concat([part]) == part
  {
    var parts: seq<seq<Byte>> := [part];
    assert parts[..0] == [];
  }

  lemma ConcatPrefixStep(parts: seq<seq<Byte>>, i: nat)
    requires i < |parts|
    ensures Concat(parts[..i + 1]) == Concat(parts[..i]) + parts[i]
  {
    assert parts[..i + 1][..i] == parts[..i];
  }

  lemma SplicePrefix(a: seq<Byte>, b: seq<Byte>, c: seq<Byte>)
    ensures (a + b + c)[..|a| + |b|] == a + b
  {
  }

  lemma AppendAssoc<T>(a: seq<T>, b: seq<T>, c: seq<T>)
    ensures a + b + c == a + (b + c)
  {
  }

  /** memcpy(dst + offset, src, |src|) on a fixed-size buffer. */
  method Memcpy(dst: array<Byte>, offset: nat, src: seq<Byte>)
    requires offset + |src| <= dst.Length
    modifies dst
    ensures dst[..] == old(dst[..])[..offset] + src + old(dst[..])[offset + |src|..]
  {
    var i := 0;
    while i < |src|
      invariant 0 <= i <= |src|
      invariant forall k :: offset <= k < offset + i ==> dst[k] == src[k - offset]
      invariant forall k :: 0 <= k < dst.Length && !(offset <= k < offset + i) ==> dst[k] == old(dst[k])
    {
      dst[offset + i] := src[i];
      i := i + 1;
    }
    assert dst[..] == old(dst[..])[..offset] + src + old(dst[..])[offset + |src|..];
  }

  function DigitChar(d: nat): (c: char)
    requires d < 10
    ensures '0' <= c <= '9' && c as int - '0' as int == d
  {
    ('0' as int + d) as char
  }

  predicate IsDigits(s: string) {
    forall k :: 0 <= k < |s| ==> '0' <= s[k] <= '9'
  }

  /** The number a run of decimal digits denotes, most significant first. */
  function DecimalValue(s: string): nat
    requires IsDigits(s)
  {
    if s == [] then 0 else DecimalValue(s[..|s| - 1]) * 10 + (s[|s| - 1] as int - '0' as int)
  }

  /** Decimal digits of a natural number, most significant first, no leading
      zero, denoting the number. */
  function NatToDecimal(n: nat): (r: string)
    ensures |r| >= 1 && IsDigits(r)
    ensures n > 0 ==> r[0] != '0'
    ensures DecimalValue(r) == n
    decreases n
  {
    if n < 10 then [DigitChar(n)] else NatToDecimal(n / 10) + [DigitChar(n % 10)]
  }

  /** Decimal rendering of an integer: a leading '-' for negatives, then the
      digits of its magnitude. */
  function IntToDecimal(i: int): (r: string)
    ensures |r| >= 1
    ensures (r[0] == '-') <==> i < 0
    ensures i >= 0 ==> IsDigits(r)
  {
    if i < 0 then "-" + NatToDecimal(-i) else NatToDecimal(i)
  }

  /** The rendering denotes the integer: its digits when it is not negative,
      otherwise '-' and the digits of its magnitude, with no leading zero. */
  lemma IntToDecimalValue(i: int)
    ensures var r := IntToDecimal(i);
              (i >= 0 ==> DecimalValue(r) == i)
              && (i < 0 ==> |r| >= 2 && IsDigits(r[1..]) && r[1] != '0' && DecimalValue(r[1..]) == -i)
  {
    if i < 0 {
      assert IntToDecimal(i)[1..] == NatToDecimal(-i);
    }
  }
}
