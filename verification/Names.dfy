/** Conversion of names between NUL-terminated octets and big-endian 16-bit characters. */
module Names {
  import opened Octets

  /** The octets of a string, each behind a zero octet, and a wide terminator. */
  function Widen(s: seq<byte>): (wide: seq<byte>)
    ensures |wide| == 2 * |s| + 2
  {
    if s == [] then [0, 0] else [0, s[0]] + Widen(s[1..])
  }

  /** Position by position: characters are big-endian. */
  lemma {:induction false} WidenOctets(s: seq<byte>, i: nat)
    requires i <= |s|
    ensures Widen(s)[2 * i] == 0 && Widen(s)[2 * i + 1] == if i < |s| then s[i] else 0
  {
    if s == [] || i == 0 {
    } else {
      WidenOctets(s[1..], i - 1);
    }
  }

  /** The low octets of the characters before the first whose low octet is zero. */
  function Narrow(u: seq<byte>): (s: seq<byte>)
    ensures 2 * |s| <= |u|
  {
    if |u| < 2 || u[1] == 0 then [] else [u[1]] + Narrow(u[2..])
  }

  /** The part of a buffer before the first zero octet. */
  function StringIn(s: seq<byte>): (t: seq<byte>)
    ensures |t| <= |s| && t == s[..|t|]
  {
    if s == [] || s[0] == 0 then [] else [s[0]] + StringIn(s[1..])
  }

  lemma {:induction false} StringLength(s: seq<byte>, n: nat)
    requires n < |s| && s[n] == 0 && forall i :: 0 <= i < n ==> s[i] != 0
    ensures StringIn(s) == s[..n]
  {
    if n > 0 { StringLength(s[1..], n - 1); }
  }

  lemma {:induction false} StringHasNoZero(s: seq<byte>)
    ensures 0 !in StringIn(s)
  {
    if s != [] && s[0] != 0 { StringHasNoZero(s[1..]); }
  }

  lemma NarrowOne(c: byte, u: seq<byte>)
    requires c != 0
    ensures Narrow([0, c] + u) == [c] + Narrow(u)
  {
    assert ([0, c] + u)[2..] == u;
  }

  /** Widening and narrowing a string gives it back, whatever follows in the buffer. */
  lemma {:induction false} RoundTrip(s: seq<byte>, rest: seq<byte>)
    requires 0 !in s
    ensures Narrow(Widen(s) + rest) == s
  {
    if s == [] {
    } else {
      Associate([0, s[0]], Widen(s[1..]), rest);
      RoundTrip(s[1..], rest);
      NarrowOne(s[0], Widen(s[1..]) + rest);
    }
  }

  /** The two octets of the i-th wide character. */
  function WideAt(u: seq<byte>, i: nat): (byte, byte)
    requires 2 * i + 1 < |u|
  {
    (u[2 * i], u[2 * i + 1])
  }

  lemma {:induction false} NarrowLength(u: seq<byte>, n: nat)
    requires 2 * n + 1 < |u| && WideAt(u, n).1 == 0 && forall i :: 0 <= i < n ==> WideAt(u, i).1 != 0
    ensures |Narrow(u)| == n && forall i :: 0 <= i < n ==> Narrow(u)[i] == WideAt(u, i).1
  {
    if n == 0 {
    } else {
      var t := u[2..];
      assert WideAt(u, 0).1 != 0;
      assert forall i :: 0 <= i < n ==> WideAt(t, i) == WideAt(u, i + 1);
      NarrowLength(t, n - 1);
      assert Narrow(u) == [u[1]] + Narrow(t);
      forall i | 0 <= i < n ensures Narrow(u)[i] == WideAt(u, i).1 {
        if i > 0 { assert WideAt(t, i - 1) == WideAt(u, i); }
      }
    }
  }

  method Length(c: array<byte>) returns (n: nat)
    requires 0 in c[..]
    ensures n < c.Length && c[n] == 0 && StringIn(c[..]) == c[..n]
  {
    n := 0;
    while c[n] != 0
      invariant n < c.Length && forall i :: 0 <= i < n ==> c[i] != 0
      decreases c.Length - n
    {
      if n + 1 == c.Length {
        assert false;
      }
      n := n + 1;
    }
    StringLength(c[..], n);
    assert c[..][..n] == c[..n];
  }

  /** A buffer whose characters from the n-th on have been widened. */
  function PartlyWide(u: seq<byte>, s: seq<byte>, n: nat): seq<byte>
    requires n <= |s| && 2 * |s| + 2 <= |u|
  {
    u[..2 * n] + Widen(s[n..]) + u[2 * |s| + 2..]
  }

  lemma PartlyWideStep(u: seq<byte>, s: seq<byte>, n: nat)
    requires n < |s| && 2 * |s| + 2 <= |u|
    ensures PartlyWide(u, s, n + 1)[2 * n + 1 := s[n]][2 * n := 0] == PartlyWide(u, s, n)
  {
    assert s[n..][1..] == s[n + 1..];
    assert u[..2 * n + 2][..2 * n] == u[..2 * n];
  }

  /** Expands from the back, so that it works even when both buffers are the same. */
  method Expand(uc: array<byte>, c: array<byte>, len: nat)
    requires len <= c.Length && 2 * len + 2 <= uc.Length
    modifies uc
    ensures uc[..] == PartlyWide(old(uc[..]), old(c[..len]), 0)
  {
    ghost var u, s := uc[..], c[..len];
    var n := len;
    uc[n * 2 + 1] := 0;
    uc[n * 2] := 0;
    assert uc[..] == PartlyWide(u, s, n);
    while n > 0
      invariant n <= len && uc[..] == PartlyWide(u, s, n)
    {
      n := n - 1;
      assert c[n] == s[n] by {
        if c == uc { assert uc[..][n] == u[n]; }
      }
      PartlyWideStep(u, s, n);
      uc[n * 2 + 1] := c[n];
      uc[n * 2] := 0;
    }
  }

  method CharToUnicode(uc: array<byte>, c: array<byte>, size: nat) returns (r: int)
    requires 0 in c[..] && size <= uc.Length
    modifies uc
    ensures var s := old(StringIn(c[..]));
            if 2 * |s| + 2 <= size then
              && r == 2 * |s| + 2 && uc[..r] == Widen(s) && uc[r..] == old(uc[r..])
            else r == -1 && uc[..] == old(uc[..])
  {
    var len := Length(c);
    assert |StringIn(c[..])| == len;
    if len * 2 + 2 > size {
      return -1;
    }
    ghost var u, s := uc[..], c[..len];
    Expand(uc, c, len);
    r := len * 2 + 2;
    assert s[0..] == s;
    assert uc[..][..r] == Widen(s) && uc[..][r..] == u[r..];
  }

  /** The number of wide characters before the first whose low octet is zero. */
  method WideLength(uc: array<byte>) returns (n: nat)
    requires exists k: nat :: 2 * k + 1 < uc.Length && WideAt(uc[..], k).1 == 0
    ensures 2 * n + 1 < uc.Length && n == |Narrow(uc[..])|
    ensures WideAt(uc[..], n).1 == 0 && forall i :: 0 <= i < n ==> WideAt(uc[..], i).1 == Narrow(uc[..])[i] != 0
  {
    ghost var k: nat :| 2 * k + 1 < uc.Length && WideAt(uc[..], k).1 == 0;
    n := 0;
    while uc[n * 2 + 1] != 0
      invariant n <= k && forall i :: 0 <= i < n ==> WideAt(uc[..], i).1 != 0
      decreases k - n
    {
      assert WideAt(uc[..], n).1 != 0;
      n := n + 1;
    }
    NarrowLength(uc[..], n);
  }

  /** Keeps the low octets up to the first that is zero; both buffers may be the same. */
  method UnicodeToChar(c: array<byte>, uc: array<byte>, size: nat) returns (r: int)
    requires exists k: nat :: 2 * k + 1 < uc.Length && WideAt(uc[..], k).1 == 0
    requires size <= c.Length
    modifies c
    ensures var s := old(Narrow(uc[..]));
            if |s| < size then r == 0 && c[..|s| + 1] == s + [0] && c[|s| + 1..] == old(c[|s| + 1..])
            else r == -1 && c[..] == old(c[..])
  {
    ghost var s := Narrow(uc[..]);
    var n := WideLength(uc);
    if n >= size {
      return -1;
    }
    ghost var len := n;
    n := 0;
    while uc[n * 2 + 1] != 0
      invariant 0 <= n <= len
      invariant forall i :: n <= i <= len ==> WideAt(uc[..], i).1 == if i < len then s[i] else 0
      invariant c[..n] == s[..n]
      invariant c[len + 1..] == old(c[len + 1..])
      decreases len - n
    {
      assert WideAt(uc[..], n).1 != 0;
      c[n] := uc[n * 2 + 1];
      n := n + 1;
    }
    assert WideAt(uc[..], n).1 == 0;
    c[n] := 0;
    r := 0;
    assert c[..len + 1] == c[..len] + [0];
  }
}
