/**
  One noise generator of the SAA1099 sound chip (class `CSAANoise`).

  The generator is a 32-bit pseudo-random register whose update ("ChangeLevel")
  is clocked either by an internal phase accumulator advanced once per host
  sample (`Tick`) or by trigger pulses from a frequency generator (`Trigger`).
  The C++ class is mutable; here every operation is a pure function from the
  old generator record to the new one.

  The two compile-time update routines of the source (the arithmetic
  recurrence, and the `NEW_RAND` shift register) are a `Variant` tag fixed when
  the record is created.
 */
module SAANoise {
  import opened Bits

  /** Which update routine the generator was built with. */
  datatype Variant =
    | OldRand   // level from the top of the register, then a multiplicative recurrence
    | NewRand   // shift register with feedback from bits 30 and 2

  /** A noise output level, 0 or 1. */
  type Bit = b: nat | b <= 1

  /** Sample-rate mode: the host rate is 44100 >> mode. */
  type RateMode = m: nat | m <= 2

  /** Noise source: 0..2 select the internal clock divided by 1, 2 or 4,
      3 selects clocking by the frequency generator. */
  type SourceMode = m: nat | m <= 3

  /** The accumulator threshold is never zero. */
  type Threshold = t: nat | 0 < t < 0x1_0000_0000 witness 1

  /** Phase increment for source 0: `31250 << 8`. */
  const AddBase: U32 := 31250 * 256

  /** Accumulator threshold for rate mode 0: `44100 << 8`. */
  const RateBase: U32 := 44100 * 256

  /** Register contents of a generator created without a seed. */
  const DefaultRand: bv32 := 0x1111_1111

  /** The pseudo-random part of the generator: the 32-bit register
      `m_nRand` and the cached output bit `m_nLevel` of the `OldRand`
      routine (the `NewRand` routine neither reads nor writes `level`). */
  datatype Register = Register(rand: bv32, level: Bit)

  /** The state of one noise generator. */
  datatype Noise = Noise(
    variant: Variant,
    reg: Register,
    sync: bool,
    counter: U32,
    useFreqGen: bool,
    add: U32,
    rateMode: RateMode,
    threshold: Threshold,
    sourceMode: SourceMode)

  /** Threshold of the phase accumulator for a sample-rate mode. */
  function RateThreshold(m: RateMode): (t: Threshold)
    ensures t * Pow2(m) == RateBase
  {
    Shr(RateBase, m)
  }

  /** The phase increments that sources 0, 1 and 2 select. */
  predicate IsSourceAdd(add: nat)
  {
    add == Shr(AddBase, 0) || add == Shr(AddBase, 1) || add == Shr(AddBase, 2)
  }

  /** What every operation of the class maintains. */
  predicate Valid(s: Noise)
  {
    && s.counter < s.threshold
    && (s.sync ==> s.counter == 0)
    && (s.useFreqGen <==> s.sourceMode == 3)
    && (s.sourceMode < 3 ==> s.add == Shr(AddBase, s.sourceMode))
    && IsSourceAdd(s.add)
    && s.threshold == RateThreshold(s.rateMode)
  }

  /** The low bit of the register, as a level. */
  function LowBit(x: bv32): Bit
  {
    if x & 1 == 1 then 1 else 0
  }

  /** A freshly constructed generator whose register holds `seed`. */
  function CreateSeeded(variant: Variant, seed: bv32): (r: Noise)
    ensures Valid(r)
    ensures r.variant == variant && r.reg.rand == seed && r.reg.level == 0
    ensures r.counter == 0 && !r.sync && !r.useFreqGen
    ensures r.add == 31250 * 256 && r.sourceMode == 0
    ensures r.rateMode == 2 && r.threshold == 11025 * 256
  {
    Noise(variant, Register(seed, 0), false, 0, false, AddBase, 2, 11025 * 256, 0)
  }

  /** The generator built by the default constructor. */
  function Create(variant: Variant): (r: Noise)
    ensures Valid(r)
    ensures r.reg.rand == 0x1111_1111
    ensures r == CreateSeeded(variant, r.reg.rand)
  {
    CreateSeeded(variant, DefaultRand)
  }

  /** The output bit a register shows under a variant. */
  function RegisterLevel(variant: Variant, g: Register): Bit
  {
    match variant
    case OldRand => g.level
    case NewRand => LowBit(g.rand)
  }

  /** The output level as the class reports it. */
  function Level(s: Noise): Bit
  {
    RegisterLevel(s.variant, s.reg)
  }

  /** Overwrite the register contents and nothing else. */
  function Seed(s: Noise, seed: bv32): (r: Noise)
    ensures r.reg.rand == seed
    ensures r.(reg := r.reg.(rand := s.reg.rand)) == s
    ensures s.variant == OldRand ==> Level(r) == Level(s)
    ensures s.variant == NewRand ==> Level(r) == LowBit(seed)
    ensures Valid(s) ==> Valid(r)
  {
    s.(reg := s.reg.(rand := seed))
  }

  /** Select the noise clock from the low two bits of `source`. */
  function SetSource(s: Noise, source: Byte): (r: Noise)
    ensures r.sourceMode == source % 4
    ensures r.useFreqGen <==> source % 4 == 3
    ensures r.useFreqGen ==> r.add == s.add
    ensures !r.useFreqGen ==> r.add * Pow2(r.sourceMode) == AddBase
    ensures r.(sourceMode := s.sourceMode, useFreqGen := s.useFreqGen, add := s.add) == s
    ensures Valid(s) ==> Valid(r)
  {
    var mode: SourceMode := source % 4;  // `nSource & 0x03`
    if mode == 3 then
      s.(sourceMode := mode, useFreqGen := true)
    else
      s.(sourceMode := mode, useFreqGen := false, add := Shr(AddBase, mode))
  }

  /** The `OldRand` output level of a register: strictly above 0x80000000. */
  function OldLevel(x: bv32): Bit
  {
    if x > 0x8000_0000 then 1 else 0
  }

  /** The `OldRand` recurrence; bv32 arithmetic wraps modulo 2^32. */
  function OldNext(x: bv32): bv32
  {
    x * 110351245 + 12345
  }

  /** The `NewRand` shift register, written as the source's four-way branch
      on bits 30 and 2.  The shift loses bit 31; the increment only ever sets
      bit 0, which the shift has just cleared. */
  function ShiftNext(x: bv32): bv32
  {
    if x & (1 << 30) != 0 then
      if x & (1 << 2) != 0 then x << 1 else (x << 1) + 1
    else
      if x & (1 << 2) != 0 then (x << 1) + 1 else x << 1
  }

  /** Bit 30 XOR bit 2 of the register, in bit 0. */
  function Feedback(x: bv32): bv32
  {
    ((x >> 30) ^ (x >> 2)) & 1
  }

  /** The four-way branch of the shift register inserts bit 30 XOR bit 2:
      the two cases where the taps agree both insert 0, the two where they
      differ both insert 1. */
  lemma ShiftIsXorFeedback(x: bv32)
    ensures ShiftNext(x) == (x << 1) | Feedback(x)
  {
    assert (x & (1 << 30) != 0) <==> (x >> 30) & 1 == 1;
    assert (x & (1 << 2) != 0) <==> (x >> 2) & 1 == 1;
    assert (x << 1) + 1 == (x << 1) | 1;
  }

  /** The bit the shift register shows after an update is the feedback bit
      of the register before it. */
  lemma ShiftLowBit(x: bv32)
    ensures LowBit(ShiftNext(x)) == LowBit(Feedback(x))
  {
    ShiftIsXorFeedback(x);
    assert ((x << 1) | Feedback(x)) & 1 == Feedback(x) & 1;
  }

  /** One update of the `NewRand` register: shift left and insert the
      feedback bit; the cached level is not used. */
  function ShiftStep(g: Register): (r: Register)
    ensures r.level == g.level
    ensures r.rand == (g.rand << 1) | Feedback(g.rand)
  {
    ShiftIsXorFeedback(g.rand);
    Register(ShiftNext(g.rand), g.level)
  }

  /** One update of the register under a variant. */
  function Step(variant: Variant, g: Register): (r: Register)
    ensures variant == OldRand ==> r.level == OldLevel(g.rand)
    ensures variant == NewRand ==> r.level == g.level
    ensures variant == NewRand ==> r.rand == (g.rand << 1) | Feedback(g.rand)
  {
    match variant
    case OldRand => Register(OldNext(g.rand), OldLevel(g.rand))
    case NewRand => ShiftStep(g)
  }

  /** `n` consecutive updates of the register: the reference for what the
      clocking operations do. */
  function Steps(variant: Variant, g: Register, n: nat): Register
    decreases n
  {
    if n == 0 then g else Steps(variant, Step(variant, g), n - 1)
  }

  /** One update of the generator (`ChangeLevel`): only the register moves. */
  function ChangeLevel(s: Noise): (r: Noise)
    ensures r.(reg := s.reg) == s
    ensures r.reg == Steps(s.variant, s.reg, 1)
    ensures s.variant == OldRand ==> Level(r) == OldLevel(s.reg.rand)
    ensures s.variant == NewRand ==> Level(r) == LowBit(Feedback(s.reg.rand))
  {
    ShiftLowBit(s.reg.rand);
    s.(reg := Step(s.variant, s.reg))
  }

  /** A trigger pulse from the frequency generator: one update exactly when
      the generator is clocked externally, whatever the sync hold. */
  function Trigger(s: Noise): (r: Noise)
    ensures r.(reg := s.reg) == s
    ensures r.reg == Steps(s.variant, s.reg, if s.useFreqGen then 1 else 0)
    ensures !s.useFreqGen ==> r == s
    ensures Valid(s) ==> Valid(r)
  {
    if s.useFreqGen then ChangeLevel(s) else s
  }

  /** The catch-up loop of `Tick`: while the accumulator has reached the
      threshold, take one threshold off it and update once.  The result is
      as many updates as there are whole thresholds, and the remainder. */
  function CatchUp(s: Noise): (r: Noise)
    ensures r == s.(counter := s.counter % s.threshold,
                    reg := Steps(s.variant, s.reg, s.counter / s.threshold))
    decreases s.counter
  {
    if s.counter >= s.threshold then
      var s1 := ChangeLevel(s.(counter := s.counter - s.threshold));
      var r1 := CatchUp(s1);
      CatchUpStep(s, s1, r1);
      r1
    else
      s
  }

  /** One pass of the catch-up loop: if the rest of the loop makes the
      whole-threshold updates of what is left after the pass, the whole loop
      makes those of the accumulator before it. */
  lemma CatchUpStep(s: Noise, s1: Noise, r1: Noise)
    requires s.counter >= s.threshold
    requires s1 == ChangeLevel(s.(counter := s.counter - s.threshold))
    requires r1 == s1.(counter := s1.counter % s1.threshold,
                       reg := Steps(s1.variant, s1.reg, s1.counter / s1.threshold))
    ensures r1 == s.(counter := s.counter % s.threshold,
                     reg := Steps(s.variant, s.reg, s.counter / s.threshold))
  {
    QuotientStep(s.counter, s.threshold);
  }

  /** The generator after a tick, and the level `Tick` returns. */
  datatype TickResult = TickResult(next: Noise, out: Bit)

  /** The accumulator after `add` is added to it in 32 bits. */
  function Advanced(s: Noise): U32
  {
    (s.counter + s.add) % Two32
  }

  /** The number of updates one tick makes. */
  function Firings(s: Noise): nat
  {
    if s.sync || s.useFreqGen then 0 else Advanced(s) / s.threshold
  }

  /** One host sample: held or externally clocked generators do not move;
      otherwise the accumulator advances and the catch-up loop runs. */
  function Tick(s: Noise): (r: TickResult)
    ensures r.out == Level(r.next)
    ensures r.next.reg == Steps(s.variant, s.reg, Firings(s))
    ensures s.sync || s.useFreqGen ==> r.next == s
    ensures !s.sync && !s.useFreqGen ==> r.next.counter == Advanced(s) % s.threshold
    ensures r.next.(reg := s.reg, counter := s.counter) == s
    ensures Valid(s) ==> Valid(r.next)
  {
    var next := if !s.sync && !s.useFreqGen then CatchUp(s.(counter := Advanced(s))) else s;
    TickResult(next, Level(next))
  }

  /** `Tick` with the source's `while` loop, also counting the updates it makes. */
  method TickCounted(s: Noise) returns (r: TickResult, fired: nat)
    ensures r == Tick(s)
    ensures fired == Firings(s)
  {
    var t := s;
    fired := 0;
    if !t.sync && !t.useFreqGen {
      t := t.(counter := Advanced(t));
      ghost var start := t;
      while t.counter >= t.threshold
        invariant t.threshold == s.threshold
        invariant CatchUp(t) == CatchUp(start)
        invariant fired * t.threshold + t.counter == start.counter
        decreases t.counter
      {
        t := ChangeLevel(t.(counter := t.counter - t.threshold));
        fired := fired + 1;
      }
      DivModUnique(start.counter, t.threshold, fired, t.counter);
    }
    r := TickResult(t, Level(t));
  }

  /** Hold or release the internal clock; holding clears the accumulator. */
  function Sync(s: Noise, hold: bool): (r: Noise)
    ensures r.sync == hold
    ensures hold ==> r.counter == 0
    ensures !hold ==> r.counter == s.counter
    ensures r.(sync := s.sync, counter := s.counter) == s
    ensures Valid(s) ==> Valid(r)
  {
    if hold then s.(counter := 0, sync := true) else s.(sync := false)
  }

  /** Change the host sample rate, rescaling the accumulator so that the
      elapsed fraction of a noise period carries over. */
  function SetSampleRateMode(s: Noise, m: RateMode): (r: Noise)
    ensures r.rateMode == m && r.threshold * Pow2(m) == RateBase
    ensures r.(counter := s.counter, rateMode := s.rateMode, threshold := s.threshold) == s
    ensures Valid(s) && m < s.rateMode ==> r.counter == s.counter * Pow2(s.rateMode - m)
    ensures s.rateMode <= m ==>
              r.counter * Pow2(m - s.rateMode) <= s.counter < (r.counter + 1) * Pow2(m - s.rateMode)
    ensures Valid(s) ==> Valid(r)
  {
    var counter: U32 :=
      if m < s.rateMode then Shl32(s.counter, s.rateMode - m)
      else Shr(s.counter, m - s.rateMode);
    RescaleKeepsValid(s, m);
    s.(counter := counter, rateMode := m, threshold := RateThreshold(m))
  }

  /** The rescaled accumulator stays below the new threshold: a rise by `k`
      modes multiplies the threshold by exactly 2^k, a fall divides it. */
  lemma RescaleKeepsValid(s: Noise, m: RateMode)
    ensures Valid(s) && m < s.rateMode ==> s.counter * Pow2(s.rateMode - m) < RateThreshold(m)
    ensures Valid(s) && m < s.rateMode ==> Shl32(s.counter, s.rateMode - m) == s.counter * Pow2(s.rateMode - m)
    ensures Valid(s) && s.rateMode <= m ==> Shr(s.counter, m - s.rateMode) < RateThreshold(m)
    ensures s.rateMode <= m ==>
              Shr(s.counter, m - s.rateMode) * Pow2(m - s.rateMode) <= s.counter
                < (Shr(s.counter, m - s.rateMode) + 1) * Pow2(m - s.rateMode)
  {
    var c, o := s.counter, s.rateMode;
    if m < o {
      if Valid(s) {
        RiseFits(c, o, m);
      }
    } else {
      ShrBounds(c, m - o);
      if Valid(s) {
        FallFits(c, o, m);
      }
    }
  }

  /** The three accumulator thresholds: 44100, 22050 and 11025 Hz in 24.8
      fixed point. */
  lemma RateThresholdValues()
    ensures RateThreshold(0) == 11289600
    ensures RateThreshold(1) == 5644800
    ensures RateThreshold(2) == 2822400
  {
    assert Pow2(1) == 2 && Pow2(2) == 4;
  }

  /** Scaling a counter below the old threshold up by the rate ratio keeps it
      below the new threshold, and within 32 bits. */
  lemma RiseFits(c: nat, o: RateMode, m: RateMode)
    requires m < o && c < RateThreshold(o)
    ensures c * Pow2(o - m) < RateThreshold(m)
    ensures Shl32(c, o - m) == c * Pow2(o - m)
  {
    RateThresholdValues();
    assert Pow2(1) == 2 && Pow2(2) == 4;
    if o - m == 1 {
      assert c * Pow2(o - m) == c * 2;
    } else {
      assert c * Pow2(o - m) == c * 4;
    }
  }

  /** Scaling a counter below the old threshold down by the rate ratio keeps
      it below the new threshold. */
  lemma FallFits(c: nat, o: RateMode, m: RateMode)
    requires o <= m && c < RateThreshold(o)
    ensures Shr(c, m - o) < RateThreshold(m)
  {
    RateThresholdValues();
    var k := m - o;
    var q := Shr(c, k);
    ShrBounds(c, k);
    assert Pow2(1) == 2 && Pow2(2) == 4;
    if k == 0 {
      assert q * Pow2(k) == q;
    } else if k == 1 {
      assert q * Pow2(k) == q * 2;
    } else {
      assert q * Pow2(k) == q * 4;
    }
  }

}
