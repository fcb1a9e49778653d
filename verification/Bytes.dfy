/** Bytes, and numbers laid out in them, the most significant byte first. */
module Bytes {
  import opened Common

  type Byte = n: nat | n < 256

  type U64 = n: nat | n < 0x1_0000_0000_0000_0000

  type U128 = n: nat | n < 0x1_0000_0000_0000_0000_0000_0000_0000_0000

  /** How many numbers `width` bytes can tell apart. */
  function Range(width: nat): (r: nat)
    ensures r > 0
  {
    if width == 0 then 1 else 256 * Range(width - 1)
  }

  lemma Ranges()
    ensures Range(1) == 0x100 && Range(2) == 0x1_0000 && Range(4) == 0x1_0000_0000
    ensures Range(8) == 0x1_0000_0000_0000_0000
    ensures Range(16) == 0x1_0000_0000_0000_0000_0000_0000_0000_0000
  {
    assert Range(0) == 1 && Range(1) == 256 && Range(2) == 0x1_0000 && Range(3) == 0x100_0000;
    assert Range(4) == 0x1_0000_0000 && Range(5) == 0x100_0000_0000 && Range(6) == 0x1_0000_0000_0000;
    assert Range(7) == 0x100_0000_0000_0000 && Range(8) == 0x1_0000_0000_0000_0000;
    assert Range(9) == 256 * Range(8) && Range(10) == 256 * Range(9) && Range(11) == 256 * Range(10);
    assert Range(12) == 256 * Range(11) && Range(13) == 256 * Range(12) && Range(14) == 256 * Range(13);
    assert Range(15) == 256 * Range(14) && Range(16) == 256 * Range(15);
  }

  /** The lowest `width` bytes of `v`. */
  function Put(width: nat, v: nat): (b: seq<Byte>)
    ensures |b| == width
  {
    if width == 0 then [] else Put(width - 1, v / 256) + [v % 256]
  }

  function Get(b: seq<Byte>): (v: nat)
    ensures v < Range(|b|)
  {
    if b == [] then 0 else Get(b[..|b| - 1]) * 256 + b[|b| - 1]
  }

  lemma {:induction false} GetPut(width: nat, v: nat)
    requires v < Range(width)
    ensures Get(Put(width, v)) == v
  {
    if width > 0 {
      GetPut(width - 1, v / 256);
      var b := Put(width, v);
      assert b[..|b| - 1] == Put(width - 1, v / 256);
    }
  }

  lemma {:induction false} PutGet(b: seq<Byte>)
    ensures Put(|b|, Get(b)) == b
  {
    if b != [] {
      PutGet(b[..|b| - 1]);
      assert b == b[..|b| - 1] + [b[|b| - 1]];
    }
  }

  /** Putting a number in too few bytes keeps only what fits. */
  lemma {:induction false} PutTruncates(width: nat, v: nat)
    ensures Get(Put(width, v)) == v % Range(width)
  {
    if width > 0 {
      PutTruncates(width - 1, v / 256);
      var b := Put(width, v);
      assert b[..|b| - 1] == Put(width - 1, v / 256);
      SplitModulus(v, Range(width - 1));
    }
  }

  lemma SplitModulus(v: nat, r: nat)
    requires r > 0
    ensures (v / 256) % r * 256 + v % 256 == v % (256 * r)
  {
    var q, m := v / 256 / r, v / 256 % r;
    assert v / 256 == q * r + m;
    assert v == q * (256 * r) + (m * 256 + v % 256);
    assert m * 256 + v % 256 < 256 * r by { assert m <= r - 1; }
    ModulusIs(v, 256 * r, q, m * 256 + v % 256);
  }

  lemma ModulusIs(v: nat, d: nat, q: nat, m: nat)
    requires d > 0 && v == q * d + m && m < d
    ensures v % d == m
  {
    var k := v / d - q;
    assert k * d == m - v % d;
    if k != 0 { MultipleIsFar(k, d); }
  }

  lemma MultipleIsFar(k: int, d: nat)
    requires k != 0
    ensures k * d + d <= 0 || d <= k * d
  {
    if k > 0 { assert (k - 1) * d >= 0; } else { assert (-k - 1) * d >= 0; }
  }

  /** Taking a number off the front of `b`: it and what is left, unless `b` is too short. */
  function Take(b: seq<Byte>, width: nat): Option<(nat, seq<Byte>)> {
    if |b| < width then None else Some((Get(b[..width]), b[width..]))
  }

  lemma TakePut(width: nat, v: nat, rest: seq<Byte>)
    requires v < Range(width)
    ensures Take(Put(width, v) + rest, width) == Some((v, rest))
  {
    GetPut(width, v);
    assert (Put(width, v) + rest)[..width] == Put(width, v) && (Put(width, v) + rest)[width..] == rest;
  }

  lemma PutTaken(b: seq<Byte>, width: nat)
    requires Take(b, width).Some?
    ensures Put(width, Take(b, width).value.0) + Take(b, width).value.1 == b
    ensures Take(b, width).value.0 < Range(width)
  {
    hide Put, Get, Range;
    PutGet(b[..width]);
    assert b == b[..width] + b[width..];
  }
}
