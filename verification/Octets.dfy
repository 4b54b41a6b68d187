/** Octets, fixed-width integers in network byte order, and the opcode's final bit. */
module Octets {

  type byte = x: int | 0 <= x < 0x100
  type u16 = x: int | 0 <= x < 0x1_0000
  type u32 = x: int | 0 <= x < 0x1_0000_0000

  datatype Option<+T> = None | Some(value: T)

  /** A 16-bit value as two octets, most significant first. */
  function Big16(n: u16): seq<byte> {
    [n / 0x100, n % 0x100]
  }

  /** The 16-bit value stored most significant octet first at position `at`. */
  function Read16(s: seq<byte>, at: nat): u16
    requires at + 2 <= |s|
  {
    (s[at] as int) * 0x100 + s[at + 1]
  }

  /** A 32-bit value as four octets, most significant first. */
  function Big32(n: u32): seq<byte> {
    Big16(n / 0x1_0000) + Big16(n % 0x1_0000)
  }

  function Read32(s: seq<byte>, at: nat): u32
    requires at + 4 <= |s|
  {
    (Read16(s, at) as int) * 0x1_0000 + Read16(s, at + 2)
  }

  /** Their weights. */
  lemma Big32Octets(n: u32)
    ensures var c := Big32(n);
            |c| == 4 && n == (c[0] as int) * 0x100_0000 + (c[1] as int) * 0x1_0000 + (c[2] as int) * 0x100 + c[3]
  {
    assert n == (n / 0x1_0000) * 0x1_0000 + n % 0x1_0000;
  }

  lemma Read32Octets(s: seq<byte>, at: nat)
    requires at + 4 <= |s|
    ensures Read32(s, at) == (s[at] as int) * 0x100_0000 + (s[at + 1] as int) * 0x1_0000
                             + (s[at + 2] as int) * 0x100 + s[at + 3]
  {
  }

  lemma Big32Read(s: seq<byte>)
    requires |s| == 4
    ensures Big32(Read32(s, 0)) == s
  {
    assert Read32(s, 0) / 0x1_0000 == Read16(s, 0) && Read32(s, 0) % 0x1_0000 == Read16(s, 2);
  }

  // The final bit is the top bit of the opcode octet.

  predicate Final(op: byte) {
    op >= 0x80
  }

  function SetFinal(op: byte): byte {
    if op < 0x80 then op + 0x80 else op
  }

  function ClearFinal(op: byte): byte {
    op % 0x80
  }

  function Min(a: int, b: int): int {
    if a < b then a else b
  }

  function Max(a: int, b: int): int {
    if a < b then b else a
  }

  /** Subtraction that stops at zero. */
  function Monus(a: nat, b: nat): nat {
    if a < b then 0 else a - b
  }

  // Sequences.

  lemma Associate<T>(a: seq<T>, b: seq<T>, c: seq<T>)
    ensures (a + b) + c == a + (b + c)
  {
  }

  lemma SplitAt<T>(a: seq<T>, k: nat, rest: seq<T>)
    requires k <= |a|
    ensures a[..k] + (a[k..] + rest) == a + rest
  {
  }

  /** When two ways of cutting the same octets agree in length at the end, the first part
      of the one is the first part of the other and some of its second. */
  lemma Regroup<T>(a: seq<T>, b: seq<T>, c: seq<T>, d: seq<T>)
    requires a + b == c + d && |d| <= |b|
    ensures c == a + b[..|b| - |d|] && d == b[|b| - |d|..]
  {
    assert c == (c + d)[..|c|] && d == (c + d)[|c|..];
  }

  /** A sequence that differs from another only in one stretch. */
  lemma Spliced<T>(a: seq<T>, k: nat, b: seq<T>, c: seq<T>)
    requires k + |b| <= |a| == |c|
    requires forall i :: 0 <= i < |a| ==> c[i] == if k <= i < k + |b| then b[i - k] else a[i]
    ensures c == a[..k] + b + a[k + |b|..]
  {
    assert |a[..k] + b + a[k + |b|..]| == |a|;
  }
}
