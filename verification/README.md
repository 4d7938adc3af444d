# SAA1099 noise generator

A Dafny model of `CSAANoise`, one noise generator of the SAASound emulator of
the Philips SAA1099 sound chip. The generator is a 32-bit pseudo-random
register, `m_nRand`. Each update ("ChangeLevel") moves the register and gives
a new output bit. Updates are clocked in one of two ways:

- by an internal 24.8 fixed-point phase accumulator that `Tick` advances once
  per host sample. When the accumulator reaches the sample-rate threshold, a
  catch-up loop fires one update per whole threshold;
- by trigger pulses from a frequency generator (`Trigger`), when the noise
  source register selects source 3.

`Sync` holds the internal clock at zero phase. `SetSampleRateMode` rescales
the accumulator when the host rate changes between 44100, 22050 and 11025 Hz.

The C++ class has two update routines, chosen by the `NEW_RAND` compile
switch:

- the old arithmetic recurrence `rand * 110351245 + 12345`, modulo 2^32, which
  caches its output bit in `m_nLevel`;
- the shift register, which inserts bit 30 XOR bit 2 and outputs the low bit.

In the model both are kept, as a `Variant` tag fixed when a generator is
created.

Files:

- `bits.dfy` (module `Bits`): 32-bit unsigned values and bytes as bounded
  naturals, the shifts `<<` and `>>` on them, and division facts.
- `saa_noise.dfy` (module `SAANoise`): the generator record and every
  operation of the class as a pure function from the old record to the new
  one. It also defines the class invariant `Valid`, which every operation
  preserves.
- `noise_properties.dfy` (module `NoiseProperties`): properties that relate
  several calls:
  - how `n` ticks batch, also when the source changes between ticks;
  - sync freezing the generator;
  - the sample-rate round trips;
  - the bit-level meaning of the two update routines.

Modelling decisions:

- `unsigned long` is 32 bits, as on Win32, the platform the source is
  written for.
  - The register is a `bv32`, so the recurrence wraps exactly as the C++
    does.
  - The accumulator, increment and threshold are naturals below 2^32. The
    two places where the C++ could lose high bits are written out as a
    reduction modulo 2^32: `m_nCounter += m_nAdd` (`Advanced`) and
    `m_nCounter <<= k` (`Shl32`).
  - `TickNoWrap` shows that the first of these never wraps in a valid state.
  - `RescaleKeepsValid` shows the same for the second.
- `BYTE nSource & 0x03` is `source % 4` on a byte.
- The sample-rate mode is restricted to 0, 1 and 2, the three rates the chip
  interface offers. The C++ does not check its argument. Modes 24 to 31 give
  a threshold `(44100 << 8) >> mode` of 0, because `44100 << 8` is below
  2^24; on that threshold the catch-up loop of `Tick` never ends. A mode of 32
  or more would shift past the width of the word.
- `Level()` is `Level`. Under the old routine it returns the cached bit; under
  `NEW_RAND` it returns the low bit of the register.
- `Tick`'s `while` loop is modelled twice:
  - `CatchUp`, a recursive function on the accumulator whose contract (a
    quotient and remainder) is built from its recursive call's contract;
  - `TickCounted`, a method with the literal loop and its invariants.

Two behaviours of the C++ are easy to misread:

- Under the old routine `Seed` keeps the cached level until the next update.
  Under `NEW_RAND` the level is the low bit of the register, so the new seed's
  low bit shows in `Level` at once (`SAANoise.cpp:78-87`; `Seed`'s contract
  states both cases).
- The four-way branch of the shift register (`SAANoise.cpp:194-217`) is kept
  literally (`ShiftNext`). It is exactly "shift left, insert bit 30 XOR
  bit 2": agreeing taps insert 0 and differing taps insert 1, as
  `ShiftIsXorFeedback` proves.

## Model

| member | source | states |
|---|---|---|
| SAANoise.RateThreshold | SAANoise.cpp:181 | the accumulator threshold of a rate mode, times 2^mode, is `44100 << 8`; it is positive and below 2^32 |
| SAANoise.CreateSeeded | SAANoise.cpp:50-66 | the seeded constructor gives counter 0, not synced, internal clock, increment `31250 << 8`, source 0, mode 2 with threshold `11025 * 256`, level 0 and the register holding the seed; the result satisfies the class invariant |
| SAANoise.Create | SAANoise.cpp:32-48 | the default constructor is the seeded one with register `0x11111111` |
| NoiseProperties.ConstructorsAgree | SAANoise.cpp:32-76 | the two constructors differ only in the register, and seeding a default-constructed generator gives the seeded constructor's result |
| NoiseProperties.LevelMovesOnlyWithRegister | SAANoise.cpp:78-87 | `Level` reads only the register: selecting a source, sync and a sample-rate change leave it as it was, and so does a tick that makes no update; how it moves is stated by `SAANoise.Seed`, `SAANoise.ChangeLevel` and `SAANoise.Tick` (the returned bit is `Level` of the state after) |
| SAANoise.Seed | SAANoise.cpp:73-87 | `Seed` writes the register and nothing else; under the old routine the level is unchanged, under `NEW_RAND` it becomes the seed's low bit; the class invariant is kept |
| SAANoise.SetSource | SAANoise.cpp:90-103 | the source mode is the argument's low two bits; mode 3 selects the external clock and keeps the increment; modes 0..2 select the internal clock with increment `(31250 << 8) >> mode`; no other field changes; the class invariant is kept |
| NoiseProperties.SetSourceMasksTwoBits | SAANoise.cpp:92 | only the low two bits of the source byte matter, so `SetSource(5)` is `SetSource(1)` |
| SAANoise.Step | SAANoise.cpp:185-219 | `NEW_RAND`: the register shifts left by one (bit 31 lost) with bit 30 XOR bit 2 of the old register inserted at bit 0, and the cached level is left alone; old routine: the new cached level is the test `rand > 0x80000000` on the register before the update |
| SAANoise.ShiftStep | SAANoise.cpp:192-217 | one `NEW_RAND` update, written with the literal four-way branch, shifts the register left by one (bit 31 lost) and inserts bit 30 XOR bit 2 at bit 0; the cached level is untouched |
| SAANoise.ChangeLevel | SAANoise.cpp:185-219 | one update moves only the register, exactly one step; old routine: the level after is `rand > 0x80000000` on the register before; `NEW_RAND`: the level after is bit 30 XOR bit 2 of the register before |
| SAANoise.ShiftIsXorFeedback | SAANoise.cpp:194-217 | the four-way branch equals shift left by one (bit 31 lost) with bit 30 XOR bit 2 inserted at bit 0 |
| SAANoise.ShiftLowBit | SAANoise.cpp:192-217 | the low bit of the shift register after an update is bit 30 XOR bit 2 of the register before it |
| NoiseProperties.OldRandFromZero | SAANoise.cpp:188-190 | old routine from register 0: one update gives register 12345 and level 0 |
| NoiseProperties.OldRandLevelStrict | SAANoise.cpp:189 | the old level test is strict: register `0x80000000` gives level 0, `0x80000001` gives 1 |
| NoiseProperties.NewRandAgreement | SAANoise.cpp:194-199 | `NEW_RAND` with both taps set: `0x40000004` becomes `0x80000008` with level 0 |
| SAANoise.Trigger | SAANoise.cpp:106-123 | a trigger pulse makes exactly one update if the generator is externally clocked and none otherwise; nothing but the register changes; the class invariant is kept |
| NoiseProperties.TriggerIgnoresSync | SAANoise.cpp:115-122 | whether a trigger updates does not depend on the sync hold |
| SAANoise.CatchUp | SAANoise.cpp:137-144 | the catch-up loop makes as many updates as there are whole thresholds in the accumulator and leaves the remainder |
| SAANoise.CatchUpStep | SAANoise.cpp:139-143 | one pass of the catch-up loop (subtract the threshold, update once) keeps the quotient-and-remainder account of the whole loop |
| SAANoise.Tick | SAANoise.cpp:125-154 | held or externally clocked: nothing changes; otherwise the register makes `(counter + add) / threshold` updates (with 32-bit wrap) and the accumulator keeps the remainder; the returned bit is the level after; only the register and accumulator change; the class invariant, including counter below threshold and sync implies counter 0, is kept |
| SAANoise.TickCounted | SAANoise.cpp:134-144 | the literal `while` loop computes the same tick, and it runs exactly `(counter + add) / threshold` times |
| NoiseProperties.TickNoWrap | SAANoise.cpp:136 | in a valid state `counter + add` stays below 2^32, so the 32-bit add never wraps |
| NoiseProperties.TickFiresAtMostThree | SAANoise.cpp:137-144 | one tick fires at most three updates: at most one at 44100 Hz, two at 22050 Hz, three at 11025 Hz |
| NoiseProperties.FirstTick | SAANoise.cpp:134-144 | one tick of a running generator settles `counter + add` into updates and a remainder, and the generator keeps running |
| NoiseProperties.TickBatching | SAANoise.cpp:134-144 | `n` ticks at one increment make as many updates as there are whole thresholds in `counter + add + ... + add` (`n` adds) and leave the remainder, though each tick reduces the accumulator on its own |
| NoiseProperties.SourceTick | SAANoise.cpp:90-103 | selecting an internal source and ticking once settles the accumulator plus the new increment into updates and a remainder, and the generator keeps running |
| NoiseProperties.SourceRunBatching | SAANoise.cpp:90-144 | a run of ticks, each after selecting an internal source (so the increment may change between ticks while the accumulator is kept), makes as many updates as there are whole thresholds in the accumulator plus the sum of the selected increments and leaves the remainder; only the source fields last selected differ otherwise, and the generator keeps running |
| NoiseProperties.TickBatchingClosedForm | SAANoise.cpp:134-144 | when `counter + n * add = q * threshold + r` with `r` below the threshold, `n` ticks leave `r` in the accumulator and update the register `q` times, and change nothing else |
| NoiseProperties.ExternalClockTicksInert | SAANoise.cpp:125-154 | in external-clock mode any number of ticks leaves the generator, and so the level, untouched |
| SAANoise.Sync | SAANoise.cpp:156-163 | `Sync(hold)` sets the hold flag; holding zeroes the accumulator, releasing leaves it; nothing else changes; the class invariant is kept |
| NoiseProperties.SyncFreezes | SAANoise.cpp:156-163 | while held, any number of ticks leaves the generator unchanged with the accumulator at 0 |
| SAANoise.SetSampleRateMode | SAANoise.cpp:166-182 | the threshold becomes `(44100 << 8) >> mode`; on a rise by `k` modes the accumulator is multiplied by 2^k exactly, otherwise it is divided by 2^k rounding down; no other field changes; the class invariant is kept |
| SAANoise.RescaleKeepsValid | SAANoise.cpp:169-181 | in a valid state the rescaled accumulator is below the new threshold, and a left shift loses no bits |
| SAANoise.RateThresholdValues | SAANoise.cpp:181 | the thresholds of modes 0, 1 and 2 are 11289600, 5644800 and 2822400 |
| SAANoise.RiseFits | SAANoise.cpp:169-172 | an accumulator below the old threshold, scaled up for a rate rise, is below the new threshold and within 32 bits |
| SAANoise.FallFits | SAANoise.cpp:174-178 | an accumulator below the old threshold, scaled down for a rate fall, is below the new threshold |
| NoiseProperties.RateRiseReturn | SAANoise.cpp:166-182 | raising the sample rate and returning to the old one restores the generator exactly |
| NoiseProperties.RateFallReturn | SAANoise.cpp:166-182 | lowering the sample rate and returning keeps everything but the low `k` bits of the accumulator, which are cleared |

## Left out

- `SAASndC.h` is not part of this model. It holds only the C interface declarations of the DLL wrapper, and has no bodies.
- The frequency generators, envelope generators, mixer and the sample-buffer loop that call the noise generator are not modelled. A trigger pulse is an arbitrary call of `Trigger`.
- The destructor does nothing and is not modelled.
- Sample-rate modes outside 0, 1 and 2 are not modelled. The source does not validate the argument. Modes 3 to 23 give smaller but positive thresholds. Modes 24 to 31 give a threshold of 0, since `44100 << 8` = 11289600 is below 2^24. With a zero threshold the unsigned test `m_nCounter >= m_nSampleRateTimes256` (`SAANoise.cpp:139`) always holds, so the catch-up loop in `Tick` never ends. A shift by 32 or more is undefined in C++.
- SAANoise.Step: under the old routine the new register value rests on the `bv32` body `OldNext`. Its `*` and `+` wrap modulo 2^32 as a 32-bit `unsigned long` does. No integer form of the recurrence is proved.
- The width of `unsigned long` is fixed at 32 bits, as on Win32. A 64-bit `unsigned long` would change the wrap of the old recurrence and is not modelled.
- SAANoise.SetSampleRateMode: for a rate rise from a state outside the class invariant, the contract does not state the wrapped value of the accumulator. The model computes it with the 32-bit shift `Shl32`.
- The header comment of the source asks callers to set the sample rate before use. The model does not require it, because construction already sets mode 2 with a matching threshold.
