/** Bytes, big-endian 32-bit lengths and the few sequence facts both codecs need. */
module Bytes {

  newtype byte = x: int | 0 <= x < 256

  const U32_LIMIT: nat := 0x1_0000_0000

  datatype Option<+T> = None | Some(value: T)

  /** `u32::to_be_bytes`. */
  function ToU32(n: nat): (b: seq<byte>)
    requires n < U32_LIMIT
    ensures |b| == 4
  {
    [(n / 0x100_0000) as byte, (n / 0x1_0000 % 0x100) as byte, (n / 0x100 % 0x100) as byte, (n % 0x100) as byte]
  }

  /** `u32::from_be_bytes`. */
  function FromU32(b: seq<byte>): (n: nat)
    requires |b| == 4
    ensures n < U32_LIMIT
  {
    b[0] as nat * 0x100_0000 + b[1] as nat * 0x1_0000 + b[2] as nat * 0x100 + b[3] as nat
  }

  lemma U32RoundTrip(n: nat)
    requires n < U32_LIMIT
    ensures FromU32(ToU32(n)) == n
  {
    var high := n / 0x1_0000;
    assert high / 0x100 == n / 0x100_0000;
    assert n / 0x100 / 0x100 == high;
    assert n == n / 0x100 * 0x100 + n % 0x100;
    assert n / 0x100 == high * 0x100 + n / 0x100 % 0x100;
    assert high == high / 0x100 * 0x100 + high % 0x100;
  }

  /** The first position at which the two differ decides. */
  predicate Before(b: seq<byte>, c: seq<byte>)
    requires |b| == |c|
  {
    exists i :: 0 <= i < |b| && b[i] < c[i] && b[..i] == c[..i]
  }

  lemma Before4(b: seq<byte>, c: seq<byte>)
    requires |b| == |c| == 4
    ensures Before(b, c) <==>
      || b[0] < c[0]
      || (b[0] == c[0] && (b[1] < c[1] || (b[1] == c[1] && (b[2] < c[2] || (b[2] == c[2] && b[3] < c[3])))))
  {
    assert forall i, j :: 0 <= j < i < 4 && b[..i] == c[..i] ==> b[..i][j] == c[..i][j];
    if b[0] < c[0] {
      assert b[..0] == c[..0];
    } else if b[0] == c[0] && b[1] < c[1] {
      assert b[..1] == c[..1];
    } else if b[0] == c[0] && b[1] == c[1] && b[2] < c[2] {
      assert b[..2] == c[..2];
    } else if b[0] == c[0] && b[1] == c[1] && b[2] == c[2] && b[3] < c[3] {
      assert b[..3] == c[..3];
    }
  }

  /** The most significant byte comes first: lengths are ordered as their bytes are, read from the front. */
  lemma BigEndian(b: seq<byte>, c: seq<byte>)
    requires |b| == |c| == 4
    ensures FromU32(b) < FromU32(c) <==> Before(b, c)
    ensures ToU32(FromU32(b)) == b
  {
    Before4(b, c);
    var a := ToU32(FromU32(b));
    U32RoundTrip(FromU32(b));
    assert FromU32(a) == FromU32(b);
    assert a[0] == b[0] && a[1] == b[1] && a[2] == b[2] && a[3] == b[3];
  }

  /** The concatenation of a sequence of byte strings. */
  function Concat(parts: seq<seq<byte>>): seq<byte> {
    if parts == [] then [] else parts[0] + Concat(parts[1..])
  }

  lemma Associated(a: seq<byte>, b: seq<byte>, c: seq<byte>)
    ensures a + (b + c) == a + b + c
  {
  }

  lemma {:induction false} ConcatAppend(a: seq<seq<byte>>, b: seq<seq<byte>>)
    ensures Concat(a + b) == Concat(a) + Concat(b)
  {
    if a == [] {
      assert a + b == b;
    } else {
      assert (a + b)[0] == a[0] && (a + b)[1..] == a[1..] + b;
      assert Concat(a + b) == a[0] + Concat(a[1..] + b) && Concat(a) == a[0] + Concat(a[1..]);
      hide Concat;
      ConcatAppend(a[1..], b);
      Associated(a[0], Concat(a[1..]), Concat(b));
    }
  }

  lemma ConcatSnoc(a: seq<seq<byte>>, x: seq<byte>)
    ensures Concat(a + [x]) == Concat(a) + x
  {
    ConcatAppend(a, [x]);
    assert Concat([x]) == x + Concat([]);
  }

  lemma PrefixSplit(a: seq<byte>, b: seq<byte>)
    requires a <= b
    ensures b == a + b[|a|..]
  {
  }
}
