/**
 * The linear congruential generator that both random strategies
 * (chompie/src/strategies/random_lines.rs and random_ranges.rs) define as
 * an inline closure: a 64-bit state advanced by wrapping arithmetic, of
 * which bits 16 to 30 are handed out.
 */
module Lcg {
  const TwoTo64: int := 0x1_0000_0000_0000_0000

  newtype u64 = x: int | 0 <= x < 0x1_0000_0000_0000_0000

  const Multiplier: u64 := 1103515245
  const Increment: u64 := 12345

  /** u64::wrapping_mul */
  function WrappingMul(a: u64, b: u64): u64
  {
    ((a as int * b as int) % TwoTo64) as u64
  }

  /** u64::wrapping_add */
  function WrappingAdd(a: u64, b: u64): u64
  {
    ((a as int + b as int) % TwoTo64) as u64
  }

  /** Reducing before an addition does not change the residue modulo 2^64. */
  lemma ModAddLeft(x: nat, c: nat)
    ensures (x % TwoTo64 + c) % TwoTo64 == (x + c) % TwoTo64
  {
    var q := x / TwoTo64;
    assert x == q * TwoTo64 + x % TwoTo64;
  }

  /**
   * One step of the generator: the wrapping multiply followed by the
   * wrapping add is the affine map modulo 2^64.
   */
  function Step(state: u64): (next: u64)
    ensures next as int == (state as int * 1103515245 + 12345) % TwoTo64
  {
    ModAddLeft(state as int * 1103515245, 12345);
    WrappingAdd(WrappingMul(state, Multiplier), Increment)
  }

  /**
   * One call of the generator: the advanced state, and that state divided
   * by 65536 modulo 32768, which is the 15-bit field of bits 16 to 30.
   */
  function Next(state: u64): (r: (u64, nat))
    ensures r.0 == Step(state)
    ensures r.1 < 32768
    ensures r.1 == (r.0 as int % 0x8000_0000) / 0x1_0000
  {
    var s := Step(state);
    BitField(s as int);
    (s, (s as int / 65536) % 32768)
  }

  lemma BitField(s: nat)
    ensures (s / 65536) % 32768 == (s % 0x8000_0000) / 65536
  {
    var q := s / 0x8000_0000;
    var r := s % 0x8000_0000;
    assert s == q * 0x8000_0000 + r;
    assert q * 0x8000_0000 + r == (q * 32768 + r / 65536) * 65536 + r % 65536;
    assert s / 65536 == q * 32768 + r / 65536;
  }

  /** The first draws from the default seeds of the two random strategies. */
  lemma FirstDraws()
    ensures Next(12345) == (13622895711870, 21468)
    ensures Next(13622895711870) == (17423423094097455071, 9988)
    ensures Next(54321) == (59944051635990, 20455)
  {
  }
}
