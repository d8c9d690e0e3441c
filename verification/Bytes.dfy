/** Bytes, fixed-width unsigned integers and their big-endian (network order) images. */
module Bytes {

  type byte = x: int | 0 <= x < 256
  type u16 = x: int | 0 <= x < 0x1_0000
  type u32 = x: int | 0 <= x < 0x1_0000_0000

  datatype Option<T> = None | Some(value: T)

  /** The two bytes `htons` leaves in memory. */
  function PutU16(x: u16): (s: seq<byte>)
    ensures |s| == 2
  {
    [x / 0x100, x % 0x100]
  }

  function GetU16(s: seq<byte>): u16
    requires |s| == 2
  {
    (s[0] as int) * 0x100 + s[1]
  }

  /** The four bytes `htonl` leaves in memory. */
  function PutU32(x: u32): (s: seq<byte>)
    ensures |s| == 4
  {
    [x / 0x100_0000, x / 0x1_0000 % 0x100, x / 0x100 % 0x100, x % 0x100]
  }

  function GetU32(s: seq<byte>): u32
    requires |s| == 4
  {
    (s[0] as int) * 0x100_0000 + (s[1] as int) * 0x1_0000 + (s[2] as int) * 0x100 + s[3]
  }

  lemma GetPutU16(x: u16)
    ensures GetU16(PutU16(x)) == x
  {
  }

  lemma PutGetU16(s: seq<byte>)
    requires |s| == 2
    ensures PutU16(GetU16(s)) == s
  {
  }

  lemma GetPutU32(x: u32)
    ensures GetU32(PutU32(x)) == x
  {
    assert x / 0x1_0000 == x / 0x100 / 0x100;
    assert x / 0x100_0000 == x / 0x1_0000 / 0x100;
  }

  lemma PutGetU32(s: seq<byte>)
    requires |s| == 4
    ensures PutU32(GetU32(s)) == s
  {
    var x := GetU32(s);
    assert x / 0x100 == (s[0] as int) * 0x1_0000 + (s[1] as int) * 0x100 + s[2];
    assert x / 0x1_0000 == (s[0] as int) * 0x100 + s[1];
  }

  /** The number a byte string denotes with its most significant byte first. */
  function BigEndian(s: seq<byte>): nat {
    if s == [] then 0 else 256 * BigEndian(s[..|s| - 1]) + s[|s| - 1]
  }

  /** The images are in network order. */
  lemma NetworkOrder16(x: u16)
    ensures BigEndian(PutU16(x)) == x
  {
    var s := PutU16(x);
    assert s[..1][..0] == [];
    assert BigEndian(s[..1]) == s[0];
  }

  lemma NetworkOrder32(x: u32)
    ensures BigEndian(PutU32(x)) == x
  {
    var s := PutU32(x);
    GetPutU32(x);
    assert s[..1][..0] == [];
    assert BigEndian(s[..1]) == s[0];
    assert s[..2][..1] == s[..1];
    assert BigEndian(s[..2]) == 256 * (s[0] as int) + s[1];
    assert s[..3][..2] == s[..2];
    assert BigEndian(s[..3]) == 65536 * (s[0] as int) + 256 * (s[1] as int) + s[2];
  }

  /** Taking one element out of a list. */
  lemma RemoveAt<T>(s: seq<T>, j: nat)
    requires j < |s|
    ensures |s[..j] + s[j + 1..]| == |s| - 1
    ensures multiset(s) == multiset(s[..j] + s[j + 1..]) + multiset{s[j]}
  {
    assert s == s[..j] + [s[j]] + s[j + 1..];
  }

  /** The last element of a list, found in a permutation of it. */
  lemma MatchLast<T>(a: seq<T>, b: seq<T>) returns (j: nat)
    requires a != [] && multiset(a) == multiset(b)
    ensures j < |b| && b[j] == a[|a| - 1]
    ensures multiset(a[..|a| - 1]) == multiset(b[..j] + b[j + 1..])
  {
    var x := a[|a| - 1];
    assert a == a[..|a| - 1] + [x];
    assert x in multiset(b);
    j :| 0 <= j < |b| && b[j] == x;
    RemoveAt(b, j);
    assert multiset(a[..|a| - 1]) == multiset(a) - multiset{x};
    assert multiset(b[..j] + b[j + 1..]) == multiset(b) - multiset{x};
  }

  lemma Assoc<T>(a: seq<T>, b: seq<T>, c: seq<T>)
    ensures (a + b) + c == a + (b + c)
  {
  }

  /** Copies `src` into the buffer at `off`. */
  method Memcpy(buf: array<byte>, off: nat, src: seq<byte>) returns (end: nat)
    requires off + |src| <= buf.Length
    modifies buf
    ensures end == off + |src|
    ensures buf[..end] == old(buf[..off]) + src
    ensures buf[end..] == old(buf[end..])
  {
    for i := 0 to |src|
      invariant buf[..off + i] == old(buf[..off]) + src[..i]
      invariant buf[off + i..] == old(buf[off + i..])
    {
      ghost var before := buf[..];
      buf[off + i] := src[i];
      assert buf[..off + i + 1] == before[..off + i] + [src[i]];
      assert buf[off + i + 1..] == before[off + i..][1..];
      assert src[..i + 1] == src[..i] + [src[i]];
      assert old(buf[off + i..])[1..] == old(buf[off + i + 1..]);
    }
    assert src[..|src|] == src;
    end := off + |src|;
  }

  /** Moves `n` bytes from offset `from` to the front; the areas may overlap. */
  method MoveToFront(buf: array<byte>, from: nat, n: nat)
    requires from + n <= buf.Length
    modifies buf
    ensures buf[..n] == old(buf[from..from + n])
  {
    for i := 0 to n
      invariant forall k :: 0 <= k < i ==> buf[k] == old(buf[from + k])
      invariant forall k :: i <= k < buf.Length ==> buf[k] == old(buf[k])
    {
      buf[i] := buf[from + i];
    }
  }
}
