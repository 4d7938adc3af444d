/**
  Properties of the noise generator that relate several operations or several
  calls: bounds that hold in every valid state, how ticks compose, the
  sample-rate round trip, and the bit-level meaning of the two update routines.
 */
module NoiseProperties {
  import opened Bits
  import opened SAANoise

  // ---------------------------------------------------------------------
  // Construction and seeding

  /** Both constructors build the same generator apart from the register. */
  lemma ConstructorsAgree(variant: Variant, seed: bv32)
    ensures CreateSeeded(variant, seed) == Create(variant).(reg := Register(seed, 0))
    ensures Seed(Create(variant), seed) == CreateSeeded(variant, seed)
  {
  }

  // ---------------------------------------------------------------------
  // Clock source

  /** Only the low two bits of the source byte matter. */
  lemma SetSourceMasksTwoBits(s: Noise, source: Byte)
    ensures SetSource(s, source) == SetSource(s, source % 4)
    ensures SetSource(s, 5) == SetSource(s, 1)
  {
  }

  // ---------------------------------------------------------------------
  // Trigger

  /** Whether a trigger pulse updates the register does not depend on the
      sync hold. */
  lemma TriggerIgnoresSync(s: Noise, hold: bool)
    ensures Trigger(s.(sync := hold)) == Trigger(s).(sync := hold)
  {
  }

  // ---------------------------------------------------------------------
  // Tick

  /** In a valid state the 32-bit accumulator never wraps when `add` is added. */
  lemma TickNoWrap(s: Noise)
    requires Valid(s)
    ensures s.counter + s.add < Two32
    ensures Advanced(s) == s.counter + s.add
  {
  }

  /** A value below `k` thresholds holds fewer than `k` of them. */
  lemma BelowMultiple(y: nat, t: nat, k: nat)
    requires 0 < t && y < k * t
    ensures y / t < k
  {
    var q := y / t;
    assert q * t <= y;
    MulAwayFromZero(q - k, t);
    assert (q - k) * t == q * t - k * t;
  }

  /** The catch-up loop of one tick fires at most three times: at most once
      at 44100 Hz, twice at 22050 Hz and three times at 11025 Hz. */
  lemma TickFiresAtMostThree(s: Noise)
    requires Valid(s)
    ensures Firings(s) <= 3
    ensures s.rateMode == 0 ==> Firings(s) <= 1
    ensures s.rateMode == 1 ==> Firings(s) <= 2
  {
    var y, t := Advanced(s), s.threshold;
    TickNoWrap(s);
    assert Pow2(1) == 2 && Pow2(2) == 4;
    assert t * Pow2(s.rateMode) == RateBase;
    if s.rateMode == 0 {
      BelowMultiple(y, t, 2);
    } else if s.rateMode == 1 {
      BelowMultiple(y, t, 3);
    } else {
      BelowMultiple(y, t, 4);
    }
  }

  /** A valid generator in internal-clock mode, not held by sync. */
  predicate Running(s: Noise)
  {
    Valid(s) && !s.sync && !s.useFreqGen
  }

  /** `n` ticks in a row. */
  function TickN(s: Noise, n: nat): Noise
    decreases n
  {
    if n == 0 then s else TickN(Tick(s).next, n - 1)
  }

  /** Updates compose: `a` updates then `b` more are `a + b` updates. */
  lemma {:induction false} StepsAdd(v: Variant, g: Register, a: nat, b: nat)
    ensures Steps(v, Steps(v, g, a), b) == Steps(v, g, a + b)
    decreases a
  {
    if a > 0 {
      StepsAdd(v, Step(v, g), a - 1, b);
    }
  }

  /** The accumulator after `add` has been added to `c` `n` times, before
      any threshold is taken off. */
  function Accumulate(c: nat, add: nat, n: nat): nat
    decreases n
  {
    if n == 0 then c else Accumulate(c, add, n - 1) + add
  }

  /** The starting value is carried through unchanged. */
  lemma {:induction false} AccumulateOffset(c: nat, add: nat, n: nat)
    ensures Accumulate(c, add, n) == c + Accumulate(0, add, n)
    decreases n
  {
    if n > 0 {
      AccumulateOffset(c, add, n - 1);
    }
  }

  /** Adding `add` `n` times adds `n * add`. */
  lemma {:induction false} AccumulateIsLinear(c: nat, add: nat, n: nat)
    ensures Accumulate(c, add, n) == c + n * add
    decreases n
  {
    if n > 0 {
      AccumulateIsLinear(c, add, n - 1);
      assert (n - 1) * add + add == n * add;
    }
  }

  /** The generator after `quo` updates with `rem` left in the accumulator. */
  function Settled(s: Noise, rem: U32, quo: nat): Noise
  {
    s.(counter := rem, reg := Steps(s.variant, s.reg, quo))
  }

  /** One tick of a running generator settles `counter + add`, and the
      generator keeps running. */
  lemma FirstTick(s: Noise)
    requires Running(s)
    ensures Tick(s).next
            == Settled(s, Rem(s.counter + s.add, s.threshold), Quot(s.counter + s.add, s.threshold))
    ensures Running(Tick(s).next)
  {
    TickNoWrap(s);
    QuotRemIsDivMod(s.counter + s.add, s.threshold);
  }

  /** Phase-accumulator correctness at one increment: `n` ticks make as many
      updates as there are whole thresholds in `add` accumulated `n` times
      onto `counter`, though each tick reduces the accumulator on its own,
      and leave the remainder in the accumulator.  `SourceRunBatching` covers
      an increment that changes between ticks. */
  lemma {:induction false} TickBatching(s: Noise, n: nat)
    requires Running(s)
    ensures var y := Accumulate(s.counter, s.add, n);
            TickN(s, n) == Settled(s, Rem(y, s.threshold), Quot(y, s.threshold))
    decreases n
  {
    var c: nat, a: nat, t: nat := s.counter, s.add, s.threshold;
    if n == 0 {
      QuotRemIsDivMod(c, t);
      DivModUnique(c, t, 0, c);
      assert s.(counter := c) == s;
    } else {
      var s1 := Tick(s).next;
      FirstTick(s);
      TickBatching(s1, n - 1);
      BatchStep(s, s1, n);
    }
  }

  /** The arithmetic of the induction step of `TickBatching`: the first tick
      settles `c + add`, the other `n - 1` ticks start from its remainder. */
  lemma BatchArith(c: nat, add: nat, t: nat, n: nat)
    requires 0 < t && 0 < n
    ensures var y1 := Accumulate(Rem(c + add, t), add, n - 1);
            && Quot(Accumulate(c, add, n), t) == Quot(c + add, t) + Quot(y1, t)
            && Rem(Accumulate(c, add, n), t) == Rem(y1, t)
  {
    var z := Accumulate(0, add, n - 1);
    var r := Rem(c + add, t);
    assert Accumulate(c, add, n) == c + add + z by {
      AccumulateOffset(c, add, n);
      AccumulateOffset(0, add, n);
    }
    assert Accumulate(r, add, n - 1) == r + z by {
      AccumulateOffset(r, add, n - 1);
    }
    QuotRemShift(c + add, z, t);
  }

  /** The induction step of `TickBatching`: the first tick settles
      `counter + add`, the other `n - 1` ticks start from its remainder, and
      the two ways of counting updates agree. */
  lemma BatchStep(s: Noise, s1: Noise, n: nat)
    requires 0 < n
    requires s1 == Settled(s, Rem(s.counter + s.add, s.threshold), Quot(s.counter + s.add, s.threshold))
    ensures var y1 := Accumulate(s1.counter, s.add, n - 1);
            var y := Accumulate(s.counter, s.add, n);
            Settled(s1, Rem(y1, s.threshold), Quot(y1, s.threshold))
            == Settled(s, Rem(y, s.threshold), Quot(y, s.threshold))
  {
    var c: nat, a: nat, t: nat := s.counter, s.add, s.threshold;
    BatchArith(c, a, t, n);
    var y1 := Accumulate(Rem(c + a, t), a, n - 1);
    assert s1.counter == Rem(c + a, t) && s1.variant == s.variant;
    assert s1.reg == Steps(s.variant, s.reg, Quot(c + a, t));
    StepsAdd(s.variant, s.reg, Quot(c + a, t), Quot(y1, t));
  }

  /** `TickBatching` in closed form: when `counter + n * add` is `q` whole
      thresholds plus `r` below one, `n` ticks leave `r` in the accumulator
      and update the register `q` times; nothing else changes. */
  lemma TickBatchingClosedForm(s: Noise, n: nat, q: nat, r: nat)
    requires Running(s)
    requires s.counter + n * s.add == q * s.threshold + r && r < s.threshold
    ensures TickN(s, n).counter == r
    ensures TickN(s, n).reg == Steps(s.variant, s.reg, q)
    ensures TickN(s, n).(counter := s.counter, reg := s.reg) == s
  {
    var y := s.counter + n * s.add;
    TickBatching(s, n);
    AccumulateIsLinear(s.counter, s.add, n);
    QuotRemIsDivMod(y, s.threshold);
    DivModUnique(y, s.threshold, q, r);
  }

  /** The phase increment an internal source byte selects. */
  function SourceAdd(b: Byte): U32
  {
    ShrAtMost(AddBase, b % 4);
    Shr(AddBase, b % 4)
  }

  /** Every byte selects one of the internal sources 0..2. */
  predicate InternalSources(bs: seq<Byte>)
  {
    forall i :: 0 <= i < |bs| ==> bs[i] % 4 < 3
  }

  /** A run of ticks, the `i`-th after `SetSource(bs[i])`: the increment may
      change from one tick to the next. */
  function TickAfterSources(s: Noise, bs: seq<Byte>): Noise
    decreases |bs|
  {
    if |bs| == 0 then s else TickAfterSources(Tick(SetSource(s, bs[0])).next, bs[1..])
  }

  /** The accumulator `c` plus the increment of every byte of `bs`, before
      any threshold is taken off. */
  function AddTotal(c: nat, bs: seq<Byte>): nat
    decreases |bs|
  {
    if |bs| == 0 then c else AddTotal(c + SourceAdd(bs[0]), bs[1..])
  }

  /** The starting value is carried through unchanged. */
  lemma {:induction false} AddTotalOffset(c: nat, bs: seq<Byte>)
    ensures AddTotal(c, bs) == c + AddTotal(0, bs)
    decreases |bs|
  {
    if |bs| > 0 {
      AddTotalOffset(c + SourceAdd(bs[0]), bs[1..]);
      AddTotalOffset(SourceAdd(bs[0]), bs[1..]);
    }
  }

  /** Selecting an internal source on a running generator sets the source
      mode and the increment and keeps it running. */
  lemma InternalSourceStep(s: Noise, b: Byte)
    requires Running(s) && b % 4 < 3
    ensures SetSource(s, b) == s.(sourceMode := b % 4, add := SourceAdd(b))
    ensures Running(SetSource(s, b))
  {
  }

  /** Phase-accumulator correctness with a changing increment: a run of
      ticks, each after selecting an internal source, makes as many updates
      as there are whole thresholds in the accumulator plus the sum of the
      selected increments, and leaves the remainder in the accumulator.
      Apart from the source mode and increment last selected, nothing else
      changes, and the generator keeps running. */
  lemma {:induction false} SourceRunBatching(s: Noise, bs: seq<Byte>)
    requires Running(s) && InternalSources(bs)
    ensures Running(TickAfterSources(s, bs))
    ensures var y := AddTotal(s.counter, bs);
            TickAfterSources(s, bs).(sourceMode := s.sourceMode, add := s.add)
            == Settled(s, Rem(y, s.threshold), Quot(y, s.threshold))
    decreases |bs|
  {
    var c: nat, t: nat := s.counter, s.threshold;
    if |bs| == 0 {
      QuotRemIsDivMod(c, t);
      DivModUnique(c, t, 0, c);
      assert s.(sourceMode := s.sourceMode, add := s.add) == s;
    } else {
      var s1 := Tick(SetSource(s, bs[0])).next;
      SourceTick(s, bs[0]);
      InternalSourcesTail(bs);
      SourceRunBatching(s1, bs[1..]);
      SourceRunStep(s, bs, s1, TickAfterSources(s1, bs[1..]));
    }
  }

  /** Selecting an internal source and ticking once settles the accumulator
      plus the new increment, and keeps the generator running. */
  lemma SourceTick(s: Noise, b: Byte)
    requires Running(s) && b % 4 < 3
    ensures Tick(SetSource(s, b)).next
            == Settled(s.(sourceMode := b % 4, add := SourceAdd(b)),
                       Rem(s.counter + SourceAdd(b), s.threshold),
                       Quot(s.counter + SourceAdd(b), s.threshold))
    ensures Running(Tick(SetSource(s, b)).next)
  {
    InternalSourceStep(s, b);
    FirstTick(SetSource(s, b));
  }

  /** The rest of a run of internal sources is one too. */
  lemma InternalSourcesTail(bs: seq<Byte>)
    requires 0 < |bs| && InternalSources(bs)
    ensures InternalSources(bs[1..])
  {
    forall i | 0 <= i < |bs| - 1
      ensures bs[1..][i] % 4 < 3
    {
      assert bs[1..][i] == bs[i + 1];
    }
  }

  /** The sum of the increments, split after the first. */
  lemma AddTotalFirst(c: nat, bs: seq<Byte>)
    requires 0 < |bs|
    ensures AddTotal(c, bs) == c + SourceAdd(bs[0]) + AddTotal(0, bs[1..])
  {
    AddTotalOffset(c + SourceAdd(bs[0]), bs[1..]);
  }

  /** The induction step of `SourceRunBatching`: the first tick settles
      the accumulator plus the first increment, the rest of the run adds the
      other increments to its remainder, and the two ways of counting
      updates agree. */
  lemma SourceRunStep(s: Noise, bs: seq<Byte>, s1: Noise, r: Noise)
    requires 0 < |bs|
    requires s1 == Settled(s.(sourceMode := bs[0] % 4, add := SourceAdd(bs[0])),
                           Rem(s.counter + SourceAdd(bs[0]), s.threshold),
                           Quot(s.counter + SourceAdd(bs[0]), s.threshold))
    requires var y1 := AddTotal(s1.counter, bs[1..]);
             r.(sourceMode := s1.sourceMode, add := s1.add)
             == Settled(s1, Rem(y1, s.threshold), Quot(y1, s.threshold))
    ensures var y := AddTotal(s.counter, bs);
            r.(sourceMode := s.sourceMode, add := s.add)
            == Settled(s, Rem(y, s.threshold), Quot(y, s.threshold))
  {
    var a0, t := SourceAdd(bs[0]), s.threshold;
    var y, y1 := AddTotal(s.counter, bs), AddTotal(s1.counter, bs[1..]);
    RunArith(s.counter, bs, s1.counter, t);
    RunRecordStep(s, bs[0] % 4, a0, s1, r, Rem(s.counter + a0, t), Quot(s.counter + a0, t),
                  Quot(y1, t), Quot(y, t), Rem(y, t));
  }

  /** The arithmetic of `SourceRunStep`: the sum of the increments splits
      into the first tick's whole thresholds and those of the rest of the run
      started from the first tick's remainder. */
  lemma RunArith(c: nat, bs: seq<Byte>, c1: nat, t: nat)
    requires 0 < |bs| && 0 < t
    requires c1 == Rem(c + SourceAdd(bs[0]), t)
    ensures Quot(AddTotal(c, bs), t)
            == Quot(c + SourceAdd(bs[0]), t) + Quot(AddTotal(c1, bs[1..]), t)
    ensures Rem(AddTotal(c, bs), t) == Rem(AddTotal(c1, bs[1..]), t)
  {
    var a0 := SourceAdd(bs[0]);
    var z := AddTotal(0, bs[1..]);
    AddTotalFirst(c, bs);
    AddTotalOffset(c1, bs[1..]);
    QuotRemShift(c + a0, z, t);
  }

  /** The record side of `SourceRunStep`: `q1` updates on the first tick and
      `k1` after it are the `q` updates of the whole run, and only the source
      fields differ. */
  lemma RunRecordStep(s: Noise, m: SourceMode, a0: U32, s1: Noise, r: Noise,
                      rem1: U32, q1: nat, k1: nat, q: nat, rem: U32)
    requires s1 == Settled(s.(sourceMode := m, add := a0), rem1, q1)
    requires r.(sourceMode := s1.sourceMode, add := s1.add) == Settled(s1, rem, k1)
    requires q1 + k1 == q
    ensures r.(sourceMode := s.sourceMode, add := s.add) == Settled(s, rem, q)
  {
    StepsAdd(s.variant, s.reg, q1, k1);
  }

  /** The level moves only with the register: selecting a source, holding or
      releasing sync and changing the sample rate leave `Level` as it was,
      and so does a tick that makes no update. */
  lemma LevelMovesOnlyWithRegister(s: Noise, b: Byte, hold: bool, m: RateMode)
    ensures Level(SetSource(s, b)) == Level(s)
    ensures Level(Sync(s, hold)) == Level(s)
    ensures Level(SetSampleRateMode(s, m)) == Level(s)
    ensures Firings(s) == 0 ==> Tick(s).out == Level(s)
  {
  }

  /** While held by sync the generator is frozen: ticks change nothing and
      the accumulator stays at zero. */
  lemma {:induction false} SyncFreezes(s: Noise, n: nat)
    requires Valid(s) && s.sync
    ensures TickN(s, n) == s
    ensures TickN(s, n).counter == 0
    decreases n
  {
    if n > 0 {
      SyncFreezes(Tick(s).next, n - 1);
    }
  }

  /** In external-clock mode ticks never touch the register or the level. */
  lemma {:induction false} ExternalClockTicksInert(s: Noise, n: nat)
    requires s.useFreqGen
    ensures TickN(s, n) == s
    ensures Level(TickN(s, n)) == Level(s)
    decreases n
  {
    if n > 0 {
      ExternalClockTicksInert(Tick(s).next, n - 1);
    }
  }

  // ---------------------------------------------------------------------
  // Sample-rate changes

  /** Raising the sample rate and then returning to the old one restores
      the generator exactly. */
  lemma RateRiseReturn(s: Noise, m: RateMode)
    requires Valid(s) && m < s.rateMode
    ensures SetSampleRateMode(SetSampleRateMode(s, m), s.rateMode) == s
  {
    var k := s.rateMode - m;
    var up := SetSampleRateMode(s, m);
    assert up.counter == s.counter * Pow2(k);
    ShlShrRoundTrip(s.counter, k);
  }

  /** Lowering the sample rate and returning keeps the accumulator only up
      to the low bits the right shift dropped. */
  lemma RateFallReturn(s: Noise, m: RateMode)
    requires Valid(s) && s.rateMode < m
    ensures var back := SetSampleRateMode(SetSampleRateMode(s, m), s.rateMode);
            && back.(counter := s.counter) == s
            && back.counter == s.counter - s.counter % Pow2(m - s.rateMode)
  {
    var k := m - s.rateMode;
    var down := SetSampleRateMode(s, m);
    assert down.counter == s.counter / Pow2(k);
    var back := SetSampleRateMode(down, s.rateMode);
    assert back.counter == down.counter * Pow2(k);
    assert s.counter == (s.counter / Pow2(k)) * Pow2(k) + s.counter % Pow2(k);
  }

  // ---------------------------------------------------------------------
  // The two update routines

  /** Seed 0 under `OldRand`: one update gives register 12345 and level 0. */
  lemma OldRandFromZero()
    ensures ChangeLevel(CreateSeeded(OldRand, 0)).reg.rand == 12345
    ensures Level(ChangeLevel(CreateSeeded(OldRand, 0))) == 0
  {
  }

  /** The `OldRand` level test is strict: 0x80000000 gives 0, one more gives 1. */
  lemma OldRandLevelStrict(s: Noise)
    requires s.variant == OldRand
    ensures s.reg.rand == 0x8000_0000 ==> Level(ChangeLevel(s)) == 0
    ensures s.reg.rand == 0x8000_0001 ==> Level(ChangeLevel(s)) == 1
  {
  }

  /** `NewRand` with both taps set: 0x40000004 becomes 0x80000008, level 0. */
  lemma NewRandAgreement()
    ensures ChangeLevel(CreateSeeded(NewRand, 0x4000_0004)).reg.rand == 0x8000_0008
    ensures Level(ChangeLevel(CreateSeeded(NewRand, 0x4000_0004))) == 0
  {
  }
}
