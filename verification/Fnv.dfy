/**
 64-bit FNV-1a (crates/loadsmith-core/src/state.rs, `Fnv1a64`), and the tokens
 written into it: each as its length in 8 little-endian bytes, then its bytes.
 */
module Fnv {
  /** A byte, written as the character with its code. */
  type byte = c: char | c as int < 256 witness 'a'
  type Bytes = seq<byte>

  const U64: nat := 0x1_0000_0000_0000_0000
  const OFFSET: nat := 0xcbf2_9ce4_8422_2325
  const PRIME: nat := 0x0000_0100_0000_01b3
  /** PRIME times this is 1 modulo 2^64. */
  const INVERSE: nat := 14886173955864302971

  /** Exclusive or of the low `bits` bits. */
  function Xor(a: nat, b: nat, bits: nat): (x: nat) {
    if bits == 0 then 0
    else (if a % 2 == b % 2 then 0 else 1) + 2 * Xor(a / 2, b / 2, bits - 1)
  }

  function Pow2(bits: nat): nat { if bits == 0 then 1 else 2 * Pow2(bits - 1) }

  /** Applying a byte twice takes it away again. */
  lemma {:induction false} XorTwice(a: nat, b: nat, bits: nat)
    requires a < Pow2(bits)
    ensures Xor(a, b, bits) < Pow2(bits) && Xor(Xor(a, b, bits), b, bits) == a
  {
    if bits > 0 {
      XorTwice(a / 2, b / 2, bits - 1);
      var x := Xor(a, b, bits);
      assert x / 2 == Xor(a / 2, b / 2, bits - 1) && x % 2 == if a % 2 == b % 2 then 0 else 1;
      assert Xor(x, b, bits) == a % 2 + 2 * Xor(x / 2, b / 2, bits - 1);
    }
  }

  lemma {:induction false} XorIsSymmetric(a: nat, b: nat, bits: nat)
    ensures Xor(a, b, bits) == Xor(b, a, bits)
  {
    if bits > 0 { XorIsSymmetric(a / 2, b / 2, bits - 1); }
  }

  /** A byte changes only the low byte of the state. */
  function Mix(state: nat, b: byte): nat { state / 256 * 256 + Xor(state % 256, b as int, 8) }

  function Step(state: nat, b: byte): (r: nat)
    ensures r < U64
  {
    Mix(state, b) * PRIME % U64
  }

  function Fold(state: nat, bytes: Bytes): nat {
    if bytes == [] then state else Step(Fold(state, bytes[..|bytes| - 1]), bytes[|bytes| - 1])
  }

  lemma {:induction false} FoldConcat(state: nat, a: Bytes, b: Bytes)
    ensures Fold(state, a + b) == Fold(Fold(state, a), b)
  {
    if b == [] {
      assert a + b == a;
    } else {
      assert (a + b)[..|a + b| - 1] == a + b[..|b| - 1];
      FoldConcat(state, a, b[..|b| - 1]);
    }
  }

  lemma {:induction false} XorWithNothing(a: nat, bits: nat)
    requires a < Pow2(bits)
    ensures Xor(a, 0, bits) == a && Xor(a, a, bits) == 0
  {
    if bits > 0 { XorWithNothing(a / 2, bits - 1); }
  }

  lemma FoldOneMore(state: nat, bytes: Bytes, b: byte)
    ensures Fold(state, bytes + [b]) == Step(Fold(state, bytes), b)
  {
    assert (bytes + [b])[..|bytes|] == bytes;
  }

  lemma StepIs(state: nat, b: byte, low: nat, mixed: nat, next: nat)
    requires state % 256 == low && Xor(low, b as int, 8) == mixed && (state - low + mixed) * PRIME % U64 == next
    ensures Step(state, b) == next
  {
  }

  lemma LetterA()
    ensures Step(OFFSET, 'a') == 0xaf63_dc4c_8601_ec8c
  {
    assert Xor(0, 0, 1) == 0 && Xor(0, 1, 2) == 1 && Xor(1, 3, 3) == 2 && Xor(2, 6, 4) == 4;
    assert Xor(4, 12, 5) == 8 && Xor(9, 24, 6) == 17 && Xor(18, 48, 7) == 34 && Xor(0x25, 0x61, 8) == 0x44;
    hide Xor, Step;
    StepIs(OFFSET, 'a', 0x25, 0x44, 0xaf63_dc4c_8601_ec8c);
  }

  /** The published hashes of the empty text and of `a`. */
  lemma PublishedHashes()
    ensures Fold(OFFSET, "") == 0xcbf2_9ce4_8422_2325
    ensures Fold(OFFSET, "a") == 0xaf63_dc4c_8601_ec8c
  {
    assert Fold(OFFSET, "") == OFFSET;
    LetterA();
    hide Step, Fold;
    FoldOneMore(OFFSET, "", 'a');
    assert "" + ['a'] == "a";
  }

  // ----- each step can be undone ---------------------------------------------------

  lemma MulMod(a: nat, b: nat)
    ensures (a % U64) * b % U64 == a * b % U64
  {
    var q := a / U64;
    assert a == q * U64 + a % U64;
    assert a * b == (a % U64) * b + (q * b) * U64 by {
      assert (q * U64) * b == (q * b) * U64;
    }
    ModPlus((a % U64) * b, q * b);
  }

  lemma ModPlus(n: nat, k: nat)
    ensures (n + k * U64) % U64 == n % U64
  {
    var q := n / U64;
    assert n + k * U64 == (q + k) * U64 + n % U64;
    ModUnique(n + k * U64, q + k, n % U64);
  }

  lemma ModUnique(n: nat, q: nat, r: nat)
    requires n == q * U64 + r && r < U64
    ensures n % U64 == r
  {
    assert n / U64 == q;
  }

  /** Multiplying by the prime is undone by multiplying by its inverse. */
  lemma TimesInverse(a: nat)
    requires a < U64
    ensures (a * PRIME % U64) * INVERSE % U64 == a && (a * INVERSE % U64) * PRIME % U64 == a
  {
    MulMod(a * PRIME, INVERSE);
    MulMod(a * INVERSE, PRIME);
    var k := PRIME * INVERSE / U64;
    assert PRIME * INVERSE == k * U64 + 1;
    assert a * PRIME * INVERSE == a * (PRIME * INVERSE) == a * (k * U64 + 1) == a + (a * k) * U64;
    assert a * INVERSE * PRIME == a * PRIME * INVERSE;
    ModPlus(a, a * k);
  }

  lemma MixTwice(state: nat, b: byte)
    requires state < U64
    ensures Mix(state, b) < U64 && Mix(Mix(state, b), b) == state
  {
    EightBits();
    hide Xor, Pow2;
    XorTwice(state % 256, b as int, 8);
    LowByte(state / 256, Xor(state % 256, b as int, 8));
  }

  lemma EightBits()
    ensures Pow2(8) == 256
  {
    assert Pow2(4) == 16;
  }

  lemma LowByte(high: nat, low: nat)
    requires low < 256
    ensures (high * 256 + low) / 256 == high && (high * 256 + low) % 256 == low
  {
  }

  /** The state before a step, from the state after it. */
  function StepBack(state: nat, b: byte): nat { Mix(state * INVERSE % U64, b) }

  /** A step is a bijection of the 64-bit states. */
  lemma StepIsABijection(state: nat, b: byte)
    requires state < U64
    ensures StepBack(Step(state, b), b) == state
    ensures StepBack(state, b) < U64 && Step(StepBack(state, b), b) == state
  {
    MixTwice(state, b);
    TimesInverse(Mix(state, b));
    TimesInverse(state);
    MixTwice(state * INVERSE % U64, b);
  }

  /** Different bytes lead from one state to different states. */
  lemma StepTellsBytesApart(state: nat, a: byte, b: byte)
    requires state < U64 && Step(state, a) == Step(state, b)
    ensures a == b
  {
    MixTwice(state, a);
    MixTwice(state, b);
    TimesInverse(Mix(state, a));
    TimesInverse(Mix(state, b));
    var low := state % 256;
    EightBits();
    XorTwice(low, a as int, 8);
    XorTwice(low, b as int, 8);
    assert Xor(low, a as int, 8) == Xor(low, b as int, 8);
    XorIsSymmetric(low, a as int, 8);
    XorIsSymmetric(low, b as int, 8);
    XorTwice(a as int, low, 8);
    XorTwice(b as int, low, 8);
  }

  lemma {:induction false} FoldTellsStatesApart(s: nat, t: nat, bytes: Bytes)
    requires s < U64 && t < U64 && Fold(s, bytes) == Fold(t, bytes)
    ensures s == t
  {
    if bytes != [] {
      var last, before := bytes[|bytes| - 1], bytes[..|bytes| - 1];
      FoldIs64Bit(s, before);
      FoldIs64Bit(t, before);
      StepIsABijection(Fold(s, before), last);
      StepIsABijection(Fold(t, before), last);
      FoldTellsStatesApart(s, t, before);
    }
  }

  lemma {:induction false} FoldIs64Bit(state: nat, bytes: Bytes)
    requires state < U64
    ensures Fold(state, bytes) < U64
  {
  }

  /** Near streams never collide: equal length, one byte different. */
  lemma OneByteDifferentNeverCollides(state: nat, before: Bytes, a: byte, b: byte, after: Bytes)
    requires state < U64 && a != b
    ensures Fold(state, before + [a] + after) != Fold(state, before + [b] + after)
  {
    FoldConcat(state, before + [a], after);
    FoldConcat(state, before + [b], after);
    FoldConcat(state, before, [a]);
    FoldConcat(state, before, [b]);
    var s := Fold(state, before);
    FoldIs64Bit(state, before);
    assert Fold(s, [a]) == Step(Fold(s, [a][..0]), a) && Fold(s, [b]) == Step(Fold(s, [b][..0]), b);
    if Fold(state, before + [a] + after) == Fold(state, before + [b] + after) {
      FoldTellsStatesApart(Step(s, a), Step(s, b), after);
      StepTellsBytesApart(s, a, b);
    }
  }

  // ----- length-prefixed tokens -------------------------------------------------

  /** The `k` low bytes of `n`, least significant first. */
  function LittleEndian(n: nat, k: nat): (r: Bytes)
    ensures |r| == k
  {
    if k == 0 then [] else [(n % 256) as char] + LittleEndian(n / 256, k - 1)
  }

  function Pow256(k: nat): nat { if k == 0 then 1 else 256 * Pow256(k - 1) }

  lemma {:induction false} LittleEndianIsInjective(m: nat, n: nat, k: nat)
    requires m < Pow256(k) && n < Pow256(k) && LittleEndian(m, k) == LittleEndian(n, k)
    ensures m == n
  {
    if k > 0 {
      assert LittleEndian(m, k)[0] == LittleEndian(n, k)[0];
      assert LittleEndian(m, k)[1..] == LittleEndian(m / 256, k - 1);
      assert LittleEndian(n, k)[1..] == LittleEndian(n / 256, k - 1);
      LittleEndianIsInjective(m / 256, n / 256, k - 1);
    }
  }

  function Prefixed(token: Bytes): Bytes { LittleEndian(|token|, 8) + token }

  function Stream(tokens: seq<Bytes>): (r: Bytes)
    ensures tokens != [] ==> |r| >= 8
  {
    if tokens == [] then [] else Prefixed(tokens[0]) + Stream(tokens[1..])
  }

  /** Lengths that fit 64 bits, as every length in memory does. */
  predicate Sized(tokens: seq<Bytes>) { forall i :: 0 <= i < |tokens| ==> |tokens[i]| < U64 }

  lemma {:induction false} StreamConcat(a: seq<Bytes>, b: seq<Bytes>)
    ensures Stream(a + b) == Stream(a) + Stream(b)
    decreases |a|
  {
    if a == [] {
      assert a + b == b;
    } else {
      assert (a + b)[0] == a[0] && (a + b)[1..] == a[1..] + b;
      StreamConcat(a[1..], b);
    }
  }

  /** A stream falls apart into its tokens in one way only. */
  lemma {:induction false} StreamIsInjective(a: seq<Bytes>, b: seq<Bytes>)
    requires Sized(a) && Sized(b) && Stream(a) == Stream(b)
    ensures a == b
    decreases |a|
  {
    if a != [] && b != [] {
      var s := Stream(a);
      assert s[..8] == LittleEndian(|a[0]|, 8) && s[..8] == LittleEndian(|b[0]|, 8);
      assert Pow256(8) == U64 by { assert Pow256(4) == 0x1_0000_0000; }
      LittleEndianIsInjective(|a[0]|, |b[0]|, 8);
      var n := 8 + |a[0]|;
      assert s[8..n] == a[0] && s[8..n] == b[0];
      assert s[n..] == Stream(a[1..]) && s[n..] == Stream(b[1..]);
      StreamIsInjective(a[1..], b[1..]);
      assert a == [a[0]] + a[1..] && b == [b[0]] + b[1..];
    }
  }

  // ----- the hasher -----------------------------------------------------------------

  class Fnv1a64 {
    var state: nat

    constructor ()
      ensures state == OFFSET
    {
      state := OFFSET;
    }

    method Write(bytes: Bytes)
      modifies this
      ensures state == Fold(old(state), bytes)
    {
      for i := 0 to |bytes|
        invariant state == Fold(old(state), bytes[..i])
      {
        assert bytes[..i + 1][..i] == bytes[..i];
        state := Mix(state, bytes[i]);
        state := state * PRIME % U64;
      }
      assert bytes[..|bytes|] == bytes;
    }

    method WritePrefixed(token: Bytes)
      modifies this
      ensures state == Fold(old(state), Prefixed(token))
    {
      FoldConcat(state, LittleEndian(|token|, 8), token);
      Write(LittleEndian(|token|, 8));
      Write(token);
    }
  }
}
