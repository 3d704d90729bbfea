/**
 * The integer core of the PC-FX SoundBox ADPCM unit (pcfx/soundbox.cpp):
 * the 4-bit ADPCM nibble decoder with its 49-entry step table, the
 * predictor, the nibble and halfword sequencing, the register writes with
 * their channel-reset handling, the debugger's register access and the
 * clamps applied after a saved state is loaded.
 *
 * Registers and bit fields are unsigned integers (`nat`); a C bit mask
 * `& (2^k - 1)` is `% 2^k` and a test of bit k is `x / 2^k % 2 == 1`.
 *
 * The sample synthesis, the floating-point volume filter, the resampler
 * and the PSG are not part of this model; neither is the bigdiv/smalldiv
 * timing loop of SoundBox_ADPCMUpdate, which is represented by one decode
 * step, one predictor step and one anti-click decay per channel.
 */
module PcfxSoundBox {
  import opened Common

  /** StepSizes, written in four rows. */
  const STEP_SIZES: seq<int> :=
      [16, 17, 19, 21, 23, 25, 28, 31, 34, 37, 41, 45, 50]
    + [55, 60, 66, 73, 80, 88, 97, 107, 118, 130, 143, 157]
    + [173, 190, 209, 230, 253, 279, 307, 337, 371, 408, 449, 494]
    + [544, 598, 658, 724, 796, 876, 963, 1060, 1166, 1282, 1411, 1552]

  /** StepIndexDeltas. */
  const STEP_INDEX_DELTAS: seq<int> := [-1, -1, -1, -1, 2, 4, 6, 8, -1, -1, -1, -1, 2, 4, 6, 8]

  const PREDICTOR_MIN := -0x4000
  const PREDICTOR_MAX := 0x3FFF
  /** The anti-click accumulator's bounds, the predictor's bounds << 32. */
  const ANTICLICK_MIN := -0x4000 * TWO32
  const ANTICLICK_MAX := 0x3FFF * TWO32

  /** The `clamp` template: x limited to [lo, hi]. */
  function Clamp(x: int, lo: int, hi: int): (r: int)
    requires lo <= hi
    ensures lo <= r <= hi
    ensures lo <= x <= hi ==> r == x
    ensures x < lo ==> r == lo
    ensures x > hi ==> r == hi
  {
    if x < lo then lo else if x > hi then hi else x
  }

  /** One ADPCM channel's integer state: its two volumes (ADPCMVolume[ch]),
   *  its anti-click accumulator, pending delta, predictor, step index and
   *  nibble position in the current halfword. */
  datatype Channel = Channel(volL: nat, volR: nat, antiClick: int, delta: int, haveDelta: int, predictor: int,
                             stepIndex: int, whichNibble: nat, halfWord: nat, haveHalfWord: bool)

  /** The SoundBox state: ADPCMControl, the two channels, the CD-DA volumes
   *  and the two timing dividers. */
  datatype Box = Box(control: nat, ch0: Channel, ch1: Channel, cddaL: nat, cddaR: nat, bigdiv: int, smalldiv: int)

  /** Channel ch of the box. */
  function Chan(b: Box, ch: nat): Channel
  {
    if ch == 0 then b.ch0 else b.ch1
  }

  /** The channel's reset bit in ADPCMControl (0x10 << ch). */
  predicate ResetOn(control: nat, ch: nat)
  {
    if ch == 0 then control / 0x10 % 2 == 1 else control / 0x20 % 2 == 1
  }

  /** The channel's linear-interpolation bit in ADPCMControl (0x4 << ch). */
  predicate InterpOn(control: nat, ch: nat)
  {
    if ch == 0 then control / 0x4 % 2 == 1 else control / 0x8 % 2 == 1
  }

  /** The channel's play bit in KINGADPCMControl (1 << ch). */
  predicate PlayOn(king: nat, ch: nat)
  {
    if ch == 0 then king % 2 == 1 else king / 2 % 2 == 1
  }

  /** `(KINGADPCMControl >> 2) & 3`, the interpolation shift. */
  function KingShift(king: nat): (s: nat)
    ensures s < 4
  {
    king / 4 % 4
  }

  /** `(HalfWord >> which) & 0xF`; the promotion to int makes every shift
   *  of 16 or more of the 16-bit halfword yield 0. */
  function Nibble(halfWord: nat, which: nat): (n: nat)
    ensures n < 16
  {
    if which >= 16 then 0 else halfWord / Pow2(which) % 16
  }

  /** The delta's magnitude: the step size times (n & 7) + 1, doubled in
   *  the buggy-codec mode, where the largest step 1552 is read as 1522. */
  function Magnitude(stepIndex: int, n: nat, buggy: bool): int
    requires 0 <= stepIndex < |STEP_SIZES| && n < 16
  {
    var base := STEP_SIZES[stepIndex];
    if buggy then (if base == 1552 then 1522 else base) * (n % 8 + 1) * 2
    else base * (n % 8 + 1)
  }

  /** The decode of the current nibble when the channel is not held in
   *  reset: the delta (shifted down when interpolating, negated for bit 3)
   *  and the next step index, which stays inside the table. */
  function NibbleDecoded(c: Channel, interp: bool, shift: nat, buggy: bool): (r: Channel)
    requires 0 <= c.stepIndex < |STEP_SIZES|
    ensures 0 <= r.stepIndex < |STEP_SIZES|
  {
    var n := Nibble(c.halfWord, c.whichNibble);
    var m := Magnitude(c.stepIndex, n, buggy);
    var d := if interp then m / Pow2(shift) else m;
    c.(delta := if n >= 8 then -d else d, stepIndex := Clamp(c.stepIndex + STEP_INDEX_DELTAS[n], 0, 48))
  }

  /** At the first nibble of a halfword the next halfword is fetched. */
  function Fetched(c: Channel, fetched: nat): Channel
  {
    if c.whichNibble == 0 then c.(halfWord := fetched, haveHalfWord := true) else c
  }

  /** The delta of a step: 0 while the channel's reset bit is set. */
  function DeltaStep(c: Channel, ch: nat, control: nat, king: nat, buggy: bool): (r: Channel)
    requires 0 <= c.stepIndex < |STEP_SIZES|
    ensures 0 <= r.stepIndex < |STEP_SIZES|
    ensures r.whichNibble == c.whichNibble && r.halfWord == c.halfWord && r.haveHalfWord == c.haveHalfWord
  {
    if ResetOn(control, ch) then c.(delta := 0)
    else NibbleDecoded(c, InterpOn(control, ch), KingShift(king), buggy)
  }

  /** The end of a step: the number of predictor steps the delta is applied
   *  for, and the move to the next nibble, releasing the halfword after
   *  its fourth. */
  function Advanced(c: Channel, interp: bool, shift: nat): Channel
  {
    var w := (c.whichNibble + 4) % 16;
    c.(haveDelta := if interp then Pow2(shift) else 1, whichNibble := w,
       haveHalfWord := if w == 0 then false else c.haveHalfWord)
  }

  /** One decode step of channel ch (the body of the channel loop in
   *  SoundBox_ADPCMUpdate); `fetched` is what KING_GetADPCMHalfWord gives.
   *  The step index stays inside the table. */
  function Decoded(c: Channel, ch: nat, control: nat, king: nat, buggy: bool, fetched: nat): (r: Channel)
    requires 0 <= c.stepIndex < |STEP_SIZES|
    ensures 0 <= r.stepIndex < |STEP_SIZES|
  {
    if !c.haveHalfWord && !PlayOn(king, ch) then c
    else Advanced(DeltaStep(Fetched(c, fetched), ch, control, king, buggy), InterpOn(control, ch), KingShift(king))
  }

  /** Applying a pending delta (the predictor loop of SoundBox_ADPCMUpdate). */
  function Applied(c: Channel): Channel
  {
    if c.haveDelta != 0 then
      c.(predictor := Clamp(c.predictor + c.delta, PREDICTOR_MIN, PREDICTOR_MAX), haveDelta := c.haveDelta - 1)
    else c
  }

  /** `ResetAntiClick -= ResetAntiClick >> 8`, the shift an arithmetic one. */
  function Decayed(c: Channel): Channel
  {
    c.(antiClick := c.antiClick - c.antiClick / 256)
  }

  /** The integer state a channel is kept in. */
  predicate ChannelValid(c: Channel)
  {
    0 <= c.stepIndex <= 48 && PREDICTOR_MIN <= c.predictor <= PREDICTOR_MAX
    && ANTICLICK_MIN <= c.antiClick <= ANTICLICK_MAX && c.volL < 0x40 && c.volR < 0x40
  }

  /** The state's invariant: valid channels, a uint16 control register
   *  and uint8 CD-DA volumes.  Register writes store a CD-DA volume
   *  masked to 6 bits, but a loaded state keeps whatever byte it holds. */
  predicate Healthy(b: Box)
  {
    ChannelValid(b.ch0) && ChannelValid(b.ch1) && b.control < 0x10000 && b.cddaL < 0x100 && b.cddaR < 0x100
  }

  // ---------------------------------------------------------------------
  // Properties of the decoder

  /** While the channel's reset bit is set a step decodes nothing: the
   *  delta is 0 and the step index and predictor are kept. */
  lemma ResetHolds(c: Channel, ch: nat, control: nat, king: nat, buggy: bool, fetched: nat)
    requires 0 <= c.stepIndex < |STEP_SIZES| && ResetOn(control, ch)
    requires c.haveHalfWord || PlayOn(king, ch)
    ensures var r := Decoded(c, ch, control, king, buggy, fetched);
      r.delta == 0 && r.stepIndex == c.stepIndex && r.predictor == c.predictor
  {
  }

  /** A channel that has no halfword and is not told to play by KING does
   *  not change. */
  lemma SilentHolds(c: Channel, ch: nat, control: nat, king: nat, buggy: bool, fetched: nat)
    requires 0 <= c.stepIndex < |STEP_SIZES| && !c.haveHalfWord && !PlayOn(king, ch)
    ensures Decoded(c, ch, control, king, buggy, fetched) == c
  {
  }

  /** A decoded delta is never zero, is negative exactly when bit 3 of the
   *  nibble is set, and its magnitude is the step size times (n & 7) + 1
   *  (times 2 in buggy mode), shifted when interpolating. */
  lemma DecodedDelta(c: Channel, interp: bool, shift: nat, buggy: bool)
    requires 0 <= c.stepIndex < |STEP_SIZES| && shift < 4
    ensures var n := Nibble(c.halfWord, c.whichNibble);
      var r := NibbleDecoded(c, interp, shift, buggy);
      (r.delta < 0 <==> n >= 8) && r.delta != 0
      && (if r.delta < 0 then -r.delta else r.delta)
         == (if interp then Magnitude(c.stepIndex, n, buggy) / Pow2(shift) else Magnitude(c.stepIndex, n, buggy))
      && -24352 <= r.delta <= 24352
  {
    var n := Nibble(c.halfWord, c.whichNibble);
    var m := Magnitude(c.stepIndex, n, buggy);
    MagnitudeRange(c.stepIndex, n, buggy);
    if interp {
      assert Pow2(shift) <= 8 by {
        Pow2Monotone(shift, 3);
      }
      DivAtLeast(m, Pow2(shift));
    }
  }

  /** The step sizes lie between 16 and 1552, and only the last is above
   *  1411. */
  lemma StepSizeRange(i: int)
    requires 0 <= i < |STEP_SIZES|
    ensures 16 <= STEP_SIZES[i] <= 1411 || STEP_SIZES[i] == 1552
  {
  }

  lemma MagnitudeRange(stepIndex: int, n: nat, buggy: bool)
    requires 0 <= stepIndex < |STEP_SIZES| && n < 16
    ensures 16 <= Magnitude(stepIndex, n, buggy) <= 24352
  {
    StepSizeRange(stepIndex);
    var base := STEP_SIZES[stepIndex];
    var b := if buggy && base == 1552 then 1522 else base;
    MulBounds(b, n % 8 + 1);
  }

  lemma MulBounds(a: int, k: int)
    requires 16 <= a <= 1552 && 1 <= k <= 8
    ensures 16 <= a * k <= 12416 && (a <= 1522 ==> a * k <= 12176)
  {
  }

  lemma DivAtLeast(m: int, p: int)
    requires 16 <= m && 1 <= p <= 8
    ensures 2 <= m / p <= m
  {
  }

  /** Applying a delta keeps the predictor within [-0x4000, 0x3FFF]. */
  lemma AppliedInRange(c: Channel)
    requires ChannelValid(c)
    ensures ChannelValid(Applied(c))
    ensures c.haveDelta == 0 ==> Applied(c) == c
  {
  }

  /** The anti-click decay moves the accumulator towards 0, so its bounds
   *  are kept. */
  lemma DecayedInRange(c: Channel)
    requires ChannelValid(c)
    ensures ChannelValid(Decayed(c))
    ensures c.antiClick >= 0 ==> 0 <= Decayed(c).antiClick <= c.antiClick
    ensures c.antiClick < 0 ==> c.antiClick <= Decayed(c).antiClick <= 0
  {
    var a := c.antiClick;
    var q := a / 256;
    assert a == q * 256 + a % 256;
    if a < 0 {
      assert q < 0;
      assert q >= a;
    } else {
      assert 0 <= q <= a;
    }
  }

  /** Where a playing step leaves the nibble position and the halfword. */
  lemma DecodedPosition(c: Channel, ch: nat, control: nat, king: nat, buggy: bool, fetched: nat)
    requires 0 <= c.stepIndex < |STEP_SIZES| && c.whichNibble < 16
    requires c.haveHalfWord || PlayOn(king, ch)
    requires c.whichNibble != 0 ==> c.haveHalfWord
    ensures var r := Decoded(c, ch, control, king, buggy, fetched);
      r.whichNibble == (c.whichNibble + 4) % 16
      && r.halfWord == (if c.whichNibble == 0 then fetched else c.halfWord)
      && r.haveHalfWord == (r.whichNibble != 0)
  {
    var c1 := Fetched(c, fetched);
    var c2 := DeltaStep(c1, ch, control, king, buggy);
    assert Decoded(c, ch, control, king, buggy, fetched) == Advanced(c2, InterpOn(control, ch), KingShift(king));
  }

  /** Four steps from the start of a halfword: the halfword is fetched on
   *  the first step only (and the channel then goes on playing it even if
   *  KING stops), the four nibbles are taken from bit 0, 4, 8 and 12, and
   *  afterwards the channel is back at the first nibble without a
   *  halfword. */
  lemma NibbleCycle(c: Channel, ch: nat, control: nat, kings: seq<nat>, buggy: bool, fetched: seq<nat>,
                    c1: Channel, c2: Channel, c3: Channel, c4: Channel)
    requires 0 <= c.stepIndex < |STEP_SIZES| && c.whichNibble == 0
    requires |kings| == 4 && |fetched| == 4 && (c.haveHalfWord || PlayOn(kings[0], ch))
    requires c1 == Decoded(c, ch, control, kings[0], buggy, fetched[0])
    requires c2 == Decoded(c1, ch, control, kings[1], buggy, fetched[1])
    requires c3 == Decoded(c2, ch, control, kings[2], buggy, fetched[2])
    requires c4 == Decoded(c3, ch, control, kings[3], buggy, fetched[3])
    ensures c1.halfWord == fetched[0] && c1.whichNibble == 4 && c1.haveHalfWord
    ensures c2.halfWord == fetched[0] && c2.whichNibble == 8 && c2.haveHalfWord
    ensures c3.halfWord == fetched[0] && c3.whichNibble == 12 && c3.haveHalfWord
    ensures c4.halfWord == fetched[0] && c4.whichNibble == 0 && !c4.haveHalfWord
  {
    DecodedPosition(c, ch, control, kings[0], buggy, fetched[0]);
    DecodedPosition(c1, ch, control, kings[1], buggy, fetched[1]);
    DecodedPosition(c2, ch, control, kings[2], buggy, fetched[2]);
    DecodedPosition(c3, ch, control, kings[3], buggy, fetched[3]);
  }

  /** The positions 0, 4, 8 and 12 give the halfword's four nibbles, lowest
   *  first, and together they are the whole halfword. */
  lemma NibblesOfHalfword(h: nat)
    requires h < 0x10000
    ensures Nibble(h, 0) + 16 * Nibble(h, 4) + 256 * Nibble(h, 8) + 4096 * Nibble(h, 12) == h
  {
    assert Pow2(4) == 16 && Pow2(8) == 256 && Pow2(12) == 4096;
    var h1, h2 := h / 16, h / 16 / 16;
    var a0, a1, a2, a3 := h % 16, h1 % 16, h2 % 16, h2 / 16;
    assert h == 16 * h1 + a0 && h1 == 16 * h2 + a1 && h2 == 16 * a3 + a2;
    ModUnique(h, h2, 16 * a1 + a0, 256);
    ModUnique(h, a3, 256 * a2 + 16 * a1 + a0, 4096);
    assert a3 < 16;
  }

  // ---------------------------------------------------------------------
  // Register writes

  /** A channel whose reset bit goes from 0 to 1: the predictor is folded
   *  into the anti-click accumulator (if enabled), clamped, and the
   *  predictor and step index restart at 0. */
  function ChannelReset(c: Channel, antiClickEnabled: bool): Channel
  {
    c.(antiClick := if antiClickEnabled then Clamp(c.antiClick + c.predictor * TWO32, ANTICLICK_MIN, ANTICLICK_MAX) else c.antiClick,
       predictor := 0, stepIndex := 0)
  }

  /** A channel after a write of v to register 0x20. */
  function ControlChannel(c: Channel, ch: nat, control: nat, v: nat, antiClickEnabled: bool): Channel
  {
    if !ResetOn(control, ch) && ResetOn(v, ch) then ChannelReset(c, antiClickEnabled) else c
  }

  /** SoundBox_Write of the 16-bit value v: the address is reduced to 6
   *  bits, the first 32 go to the PSG (not part of this model), 0x20
   *  writes the control register, 0x22-0x28 the ADPCM volumes and
   *  0x2A/0x2C the CD-DA volumes, each V & 0x3F. */
  function Written(b: Box, a: nat, v: nat, antiClickEnabled: bool): Box
  {
    var r := a % 0x40;
    if r == 0x20 then
      b.(ch0 := ControlChannel(b.ch0, 0, b.control, v, antiClickEnabled),
         ch1 := ControlChannel(b.ch1, 1, b.control, v, antiClickEnabled), control := v)
    else if r == 0x22 then b.(ch0 := b.ch0.(volL := v % 0x40))
    else if r == 0x24 then b.(ch0 := b.ch0.(volR := v % 0x40))
    else if r == 0x26 then b.(ch1 := b.ch1.(volL := v % 0x40))
    else if r == 0x28 then b.(ch1 := b.ch1.(volR := v % 0x40))
    else if r == 0x2A then b.(cddaL := v % 0x40)
    else if r == 0x2C then b.(cddaR := v % 0x40)
    else b
  }

  /** A reset channel's accumulator stays within its bounds. */
  lemma ChannelResetValid(c: Channel, antiClickEnabled: bool)
    requires ChannelValid(c)
    ensures ChannelValid(ChannelReset(c, antiClickEnabled))
    ensures ChannelReset(c, antiClickEnabled).predictor == 0 && ChannelReset(c, antiClickEnabled).stepIndex == 0
  {
  }

  /** Register 0x20: exactly the channels whose reset bit rises restart, and
   *  then V is the new control value. */
  lemma ControlWrite(b: Box, a: nat, v: nat, antiClickEnabled: bool, ch: nat)
    requires Healthy(b) && a % 0x40 == 0x20 && v < 0x10000 && ch < 2
    ensures var r := Written(b, a, v, antiClickEnabled);
      Healthy(r) && r.control == v && r.cddaL == b.cddaL && r.cddaR == b.cddaR
      && (!ResetOn(b.control, ch) && ResetOn(v, ch) ==> Chan(r, ch).predictor == 0 && Chan(r, ch).stepIndex == 0)
      && (!(!ResetOn(b.control, ch) && ResetOn(v, ch)) ==> Chan(r, ch) == Chan(b, ch))
  {
    ChannelResetValid(b.ch0, antiClickEnabled);
    ChannelResetValid(b.ch1, antiClickEnabled);
  }

  /** Every write keeps the state valid; addresses below 0x20 (after the
   *  6-bit reduction) change nothing here, and a volume register stores
   *  V & 0x3F and changes nothing else. */
  lemma WriteKeepsValid(b: Box, a: nat, v: nat, antiClickEnabled: bool)
    requires Healthy(b) && v < 0x10000
    ensures Healthy(Written(b, a, v, antiClickEnabled))
    ensures a % 0x40 < 0x20 ==> Written(b, a, v, antiClickEnabled) == b
    ensures a % 0x40 == 0x22 ==> Written(b, a, v, antiClickEnabled) == b.(ch0 := b.ch0.(volL := v % 0x40))
    ensures a % 0x40 == 0x2C ==> Written(b, a, v, antiClickEnabled) == b.(cddaR := v % 0x40)
  {
    ChannelResetValid(b.ch0, antiClickEnabled);
    ChannelResetValid(b.ch1, antiClickEnabled);
  }

  // ---------------------------------------------------------------------
  // Debugger registers

  datatype Reg = AdpcmCtrl | Adpcm0LVol | Adpcm0RVol | Adpcm1LVol | Adpcm1RVol | Adpcm0Cur | Adpcm1Cur | CddaLVol | CddaRVol

  /** SBoxDBG_GetRegister for the SoundBox's own registers, as uint32; the
   *  predictor is shown offset by 0x4000. */
  function RegisterValue(b: Box, id: Reg): nat
  {
    match id
    case AdpcmCtrl => b.control
    case Adpcm0LVol => b.ch0.volL
    case Adpcm0RVol => b.ch0.volR
    case Adpcm1LVol => b.ch1.volL
    case Adpcm1RVol => b.ch1.volR
    case Adpcm0Cur => (b.ch0.predictor + 0x4000) % TWO32
    case Adpcm1Cur => (b.ch1.predictor + 0x4000) % TWO32
    case CddaLVol => b.cddaL
    case CddaRVol => b.cddaR
  }

  /** The predictor a debugger value sets: its low 15 bits less 0x4000. */
  function PredictorOf(value: nat): int
  {
    value % 0x8000 - 0x4000
  }

  /** SBoxDBG_SetRegister: the control register keeps 16 bits, the volumes
   *  6, and a predictor is set from 15 bits less 0x4000. */
  function RegisterSet(b: Box, id: Reg, value: nat): Box
  {
    match id
    case AdpcmCtrl => b.(control := value % 0x10000)
    case Adpcm0LVol => b.(ch0 := b.ch0.(volL := value % 0x40))
    case Adpcm0RVol => b.(ch0 := b.ch0.(volR := value % 0x40))
    case Adpcm1LVol => b.(ch1 := b.ch1.(volL := value % 0x40))
    case Adpcm1RVol => b.(ch1 := b.ch1.(volR := value % 0x40))
    case Adpcm0Cur => b.(ch0 := b.ch0.(predictor := PredictorOf(value)))
    case Adpcm1Cur => b.(ch1 := b.ch1.(predictor := PredictorOf(value)))
    case CddaLVol => b.(cddaL := value % 0x40)
    case CddaRVol => b.(cddaR := value % 0x40)
  }

  /** How many values a register keeps. */
  function Width(id: Reg): nat
  {
    match id
    case AdpcmCtrl => 0x10000
    case Adpcm0Cur => 0x8000
    case Adpcm1Cur => 0x8000
    case _ => 0x40
  }

  /** Reading a register back after setting it gives the bits it keeps. */
  lemma RegisterRoundTrip(b: Box, id: Reg, value: nat)
    ensures RegisterValue(RegisterSet(b, id, value), id) == value % Width(id)
  {
  }

  /** Setting one register leaves every other register's value alone. */
  lemma RegisterSetOthers(b: Box, id: Reg, other: Reg, value: nat)
    requires id != other
    ensures RegisterValue(RegisterSet(b, id, value), other) == RegisterValue(b, other)
  {
  }

  /** A debugger write keeps the state valid. */
  lemma RegisterSetValid(b: Box, id: Reg, value: nat)
    requires Healthy(b)
    ensures Healthy(RegisterSet(b, id, value))
  {
  }

  // ---------------------------------------------------------------------
  // Reset and state load

  /** SoundBox_Reset (after its catch-up update): control, volumes,
   *  predictors, step indices and the halfword state cleared; bigdiv 2,
   *  smalldiv 0.  Pending deltas and the anti-click accumulators stay. */
  function ResetChannel(c: Channel): Channel
  {
    c.(volL := 0, volR := 0, predictor := 0, stepIndex := 0, whichNibble := 0, halfWord := 0, haveHalfWord := false)
  }

  function ResetBox(b: Box): Box
  {
    Box(0, ResetChannel(b.ch0), ResetChannel(b.ch1), 0, 0, 2, 0)
  }

  /** A reset keeps the state valid and leaves both channels at the start
   *  of a halfword with no halfword held. */
  lemma ResetValid(b: Box)
    requires Healthy(b)
    ensures Healthy(ResetBox(b))
    ensures ResetBox(b).ch0.whichNibble == 0 && !ResetBox(b).ch0.haveHalfWord
    ensures ResetBox(b).ch1.whichNibble == 0 && !ResetBox(b).ch1.haveHalfWord
  {
  }

  /** The clamps SoundBox_StateAction applies to a loaded channel. */
  function LoadedChannel(c: Channel, antiClickEnabled: bool): Channel
  {
    c.(predictor := Clamp(c.predictor, PREDICTOR_MIN, PREDICTOR_MAX),
       antiClick := if antiClickEnabled then Clamp(c.antiClick, ANTICLICK_MIN, ANTICLICK_MAX) else 0,
       stepIndex := Clamp(c.stepIndex, 0, 48), volL := c.volL % 0x40, volR := c.volR % 0x40)
  }

  /** The clamps SoundBox_StateAction applies after a load: bigdiv to
   *  [1, 1365], smalldiv to [1, 8], and each channel's values.  The
   *  control register and the CD-DA volumes are loaded as they are. */
  function Loaded(b: Box, antiClickEnabled: bool): Box
  {
    b.(bigdiv := Clamp(b.bigdiv, 1, 1365), smalldiv := Clamp(b.smalldiv, 1, 8),
       ch0 := LoadedChannel(b.ch0, antiClickEnabled), ch1 := LoadedChannel(b.ch1, antiClickEnabled))
  }

  /** Whatever a loaded channel holds, the clamps make it valid, clamping
   *  it again changes nothing, and a valid channel (without anti-click
   *  when that is disabled) loads unchanged. */
  lemma LoadedChannelValid(c: Channel, antiClickEnabled: bool)
    ensures ChannelValid(LoadedChannel(c, antiClickEnabled))
    ensures LoadedChannel(LoadedChannel(c, antiClickEnabled), antiClickEnabled) == LoadedChannel(c, antiClickEnabled)
    ensures ChannelValid(c) && (antiClickEnabled || c.antiClick == 0) ==> LoadedChannel(c, antiClickEnabled) == c
  {
  }

  /** The same for the whole state, given the uint16 control register and
   *  uint8 CD-DA volumes a saved state holds; neither is touched. */
  lemma LoadedValid(b: Box, antiClickEnabled: bool)
    requires b.control < 0x10000 && b.cddaL < 0x100 && b.cddaR < 0x100
    ensures Healthy(Loaded(b, antiClickEnabled))
    ensures Loaded(b, antiClickEnabled).control == b.control
    ensures Loaded(b, antiClickEnabled).cddaL == b.cddaL && Loaded(b, antiClickEnabled).cddaR == b.cddaR
    ensures Loaded(Loaded(b, antiClickEnabled), antiClickEnabled) == Loaded(b, antiClickEnabled)
    ensures Healthy(b) && 1 <= b.bigdiv <= 1365 && 1 <= b.smalldiv <= 8
            && (antiClickEnabled || (b.ch0.antiClick == 0 && b.ch1.antiClick == 0))
            ==> Loaded(b, antiClickEnabled) == b
  {
    LoadedChannelValid(b.ch0, antiClickEnabled);
    LoadedChannelValid(b.ch1, antiClickEnabled);
  }

  // ---------------------------------------------------------------------
  // The SoundBox

  class SoundBox {
    var control: nat
    /** ADPCMVolume, ADPCMPredictor, ResetAntiClick and the other per-channel
     *  arrays, one record per channel. */
    var channels: seq<Channel>
    var cdda: seq<nat>
    var bigdiv: int
    var smalldiv: int
    /** The EmulateBuggyCodec setting. */
    const buggy: bool
    /** The ResetAntiClickEnabled setting. */
    const antiClickEnabled: bool

    predicate Shaped()
      reads this
    {
      |channels| == 2 && |cdda| == 2
    }

    function State(): Box
      reads this
      requires Shaped()
    {
      Box(control, channels[0], channels[1], cdda[0], cdda[1], bigdiv, smalldiv)
    }

    predicate Valid()
      reads this
    {
      Shaped() && Healthy(State())
    }

    /** SoundBox_Init's settings; the state starts zeroed. */
    constructor (buggy: bool, antiClickEnabled: bool)
      ensures Valid() && this.buggy == buggy && this.antiClickEnabled == antiClickEnabled
      ensures State() == Box(0, Channel(0, 0, 0, 0, 0, 0, 0, 0, 0, false), Channel(0, 0, 0, 0, 0, 0, 0, 0, 0, false), 0, 0, 0, 0)
    {
      this.buggy, this.antiClickEnabled := buggy, antiClickEnabled;
      control := 0;
      channels := [Channel(0, 0, 0, 0, 0, 0, 0, 0, 0, false), Channel(0, 0, 0, 0, 0, 0, 0, 0, 0, false)];
      cdda := [0, 0];
      bigdiv, smalldiv := 0, 0;
    }

    /** SoundBox_Write of a 16-bit value, without its catch-up update. */
    method Write(a: nat, v: nat)
      requires Valid() && v < 0x10000
      modifies this
      ensures Valid() && State() == Written(old(State()), a, v, antiClickEnabled)
    {
      WriteKeepsValid(State(), a, v, antiClickEnabled);
      var r := a % 0x40;
      if r < 0x20 {
        // the PSG's registers
      } else if r == 0x20 {
        WriteControl(v);
      } else if r == 0x22 {
        channels := channels[0 := channels[0].(volL := v % 0x40)];
      } else if r == 0x24 {
        channels := channels[0 := channels[0].(volR := v % 0x40)];
      } else if r == 0x26 {
        channels := channels[1 := channels[1].(volL := v % 0x40)];
      } else if r == 0x28 {
        channels := channels[1 := channels[1].(volR := v % 0x40)];
      } else if r == 0x2A {
        cdda := cdda[0 := v % 0x40];
      } else if r == 0x2C {
        cdda := cdda[1 := v % 0x40];
      }
    }

    /** Register 0x20: the reset-bit edges, then the new value. */
    method WriteControl(v: nat)
      requires Valid()
      modifies this`channels, this`control
      ensures |channels| == 2 && control == v
      ensures channels[0] == ControlChannel(old(channels[0]), 0, old(control), v, antiClickEnabled)
      ensures channels[1] == ControlChannel(old(channels[1]), 1, old(control), v, antiClickEnabled)
    {
      for ch := 0 to 2
        invariant |channels| == 2 && control == old(control)
        invariant channels[0] == if 0 < ch then ControlChannel(old(channels[0]), 0, control, v, antiClickEnabled) else old(channels[0])
        invariant channels[1] == if 1 < ch then ControlChannel(old(channels[1]), 1, control, v, antiClickEnabled) else old(channels[1])
      {
        if !ResetOn(control, ch) && ResetOn(v, ch) {
          var c := channels[ch];
          var antiClick := c.antiClick;
          if antiClickEnabled {
            antiClick := antiClick + c.predictor * TWO32;
            if antiClick > ANTICLICK_MAX {
              antiClick := ANTICLICK_MAX;
            }
            if antiClick < ANTICLICK_MIN {
              antiClick := ANTICLICK_MIN;
            }
          }
          channels := channels[ch := c.(antiClick := antiClick, predictor := 0, stepIndex := 0)];
        }
      }
      control := v;
    }

    /** One decode step of both channels; `fetched[ch]` is the halfword
     *  KING would deliver to channel ch. */
    method DecodeStep(king: nat, fetched: seq<nat>)
      requires Valid() && |fetched| == 2
      modifies this`channels
      ensures Valid()
      ensures channels[0] == Decoded(old(channels[0]), 0, control, king, buggy, fetched[0])
      ensures channels[1] == Decoded(old(channels[1]), 1, control, king, buggy, fetched[1])
    {
      for ch := 0 to 2
        invariant |channels| == 2 && ChannelValid(channels[0]) && ChannelValid(channels[1])
        invariant channels[0] == if 0 < ch then Decoded(old(channels[0]), 0, control, king, buggy, fetched[0]) else old(channels[0])
        invariant channels[1] == if 1 < ch then Decoded(old(channels[1]), 1, control, king, buggy, fetched[1]) else old(channels[1])
      {
        var c := DecodeChannel(channels[ch], ch, king, fetched[ch]);
        channels := channels[ch := c];
      }
    }

    /** The body of the channel loop: one nibble of channel ch. */
    method DecodeChannel(c: Channel, ch: nat, king: nat, fetched: nat) returns (r: Channel)
      requires ChannelValid(c)
      ensures r == Decoded(c, ch, control, king, buggy, fetched) && ChannelValid(r)
    {
      if c.haveHalfWord || PlayOn(king, ch) {
        var c1 := c;
        if c1.whichNibble == 0 {
          c1 := c1.(halfWord := fetched, haveHalfWord := true);
        }
        var c2;
        if ResetOn(control, ch) {
          c2 := c1.(delta := 0);
        } else {
          c2 := DecodeNibble(c1, InterpOn(control, ch), KingShift(king));
        }
        r := Advance(c2, InterpOn(control, ch), KingShift(king));
      } else {
        r := c;
      }
    }

    /** The nibble decode of a channel not held in reset. */
    method DecodeNibble(c: Channel, interp: bool, shift: nat) returns (r: Channel)
      requires 0 <= c.stepIndex < |STEP_SIZES|
      ensures r == NibbleDecoded(c, interp, shift, buggy)
    {
      var nibble := Nibble(c.halfWord, c.whichNibble);
      var baseStepSize := STEP_SIZES[c.stepIndex];
      var delta;
      if buggy {
        if baseStepSize == 1552 {
          baseStepSize := 1522;
        }
        delta := baseStepSize * (nibble % 8 + 1) * 2;
      } else {
        delta := baseStepSize * (nibble % 8 + 1);
      }
      if interp {
        delta := delta / Pow2(shift);
      }
      if nibble >= 8 {
        delta := -delta;
      }
      var stepIndex := c.stepIndex + STEP_INDEX_DELTAS[nibble];
      if stepIndex < 0 {
        stepIndex := 0;
      }
      if stepIndex > 48 {
        stepIndex := 48;
      }
      r := c.(delta := delta, stepIndex := stepIndex);
    }

    /** The end of a decode step. */
    static method Advance(c: Channel, interp: bool, shift: nat) returns (r: Channel)
      ensures r == Advanced(c, interp, shift)
    {
      r := c.(haveDelta := 1);
      if interp {
        r := r.(haveDelta := Pow2(shift));
      }
      r := r.(whichNibble := (r.whichNibble + 4) % 16);
      if r.whichNibble == 0 {
        r := r.(haveHalfWord := false);
      }
    }

    /** The predictor step of both channels. */
    method ApplyDeltas()
      requires Valid()
      modifies this`channels
      ensures Valid()
      ensures channels[0] == Applied(old(channels[0])) && channels[1] == Applied(old(channels[1]))
    {
      for ch := 0 to 2
        invariant |channels| == 2 && ChannelValid(channels[0]) && ChannelValid(channels[1])
        invariant channels[0] == if 0 < ch then Applied(old(channels[0])) else old(channels[0])
        invariant channels[1] == if 1 < ch then Applied(old(channels[1])) else old(channels[1])
      {
        var c := channels[ch];
        if c.haveDelta != 0 {
          var p := c.predictor + c.delta;
          if p > PREDICTOR_MAX {
            p := PREDICTOR_MAX;
          }
          if p < PREDICTOR_MIN {
            p := PREDICTOR_MIN;
          }
          channels := channels[ch := c.(predictor := p, haveDelta := c.haveDelta - 1)];
        }
      }
    }

    /** The anti-click decay of both channels. */
    method DecayAntiClick()
      requires Valid()
      modifies this`channels
      ensures Valid()
      ensures channels[0] == Decayed(old(channels[0])) && channels[1] == Decayed(old(channels[1]))
    {
      for ch := 0 to 2
        invariant |channels| == 2 && ChannelValid(channels[0]) && ChannelValid(channels[1])
        invariant channels[0] == if 0 < ch then Decayed(old(channels[0])) else old(channels[0])
        invariant channels[1] == if 1 < ch then Decayed(old(channels[1])) else old(channels[1])
      {
        DecayedInRange(channels[ch]);
        var c := channels[ch];
        channels := channels[ch := c.(antiClick := c.antiClick - c.antiClick / 256)];
      }
    }

    /** SBoxDBG_GetRegister. */
    method GetRegister(id: Reg) returns (value: nat)
      requires Valid()
      ensures value == RegisterValue(State(), id)
    {
      match id
      case AdpcmCtrl => value := control;
      case Adpcm0LVol => value := channels[0].volL;
      case Adpcm0RVol => value := channels[0].volR;
      case Adpcm1LVol => value := channels[1].volL;
      case Adpcm1RVol => value := channels[1].volR;
      case Adpcm0Cur => value := (channels[0].predictor + 0x4000) % TWO32;
      case Adpcm1Cur => value := (channels[1].predictor + 0x4000) % TWO32;
      case CddaLVol => value := cdda[0];
      case CddaRVol => value := cdda[1];
    }

    /** SBoxDBG_SetRegister of a uint32 value. */
    method SetRegister(id: Reg, value: nat)
      requires Valid() && value < TWO32
      modifies this
      ensures Valid() && State() == RegisterSet(old(State()), id, value)
    {
      RegisterSetValid(State(), id, value);
      match id
      case AdpcmCtrl => control := value % 0x10000;
      case Adpcm0LVol => channels := channels[0 := channels[0].(volL := value % 0x40)];
      case Adpcm0RVol => channels := channels[0 := channels[0].(volR := value % 0x40)];
      case Adpcm1LVol => channels := channels[1 := channels[1].(volL := value % 0x40)];
      case Adpcm1RVol => channels := channels[1 := channels[1].(volR := value % 0x40)];
      case Adpcm0Cur => channels := channels[0 := channels[0].(predictor := value % 0x8000 - 0x4000)];
      case Adpcm1Cur => channels := channels[1 := channels[1].(predictor := value % 0x8000 - 0x4000)];
      case CddaLVol => cdda := cdda[0 := value % 0x40];
      case CddaRVol => cdda := cdda[1 := value % 0x40];
    }

    /** SoundBox_Reset, without its catch-up update and the PSG. */
    method Reset()
      requires Valid()
      modifies this
      ensures Valid() && State() == ResetBox(old(State()))
    {
      ResetValid(State());
      control := 0;
      cdda := [0, 0];
      for ch := 0 to 2
        invariant |channels| == 2 && cdda == [0, 0] && control == 0
        invariant channels[0] == if 0 < ch then ResetChannel(old(channels[0])) else old(channels[0])
        invariant channels[1] == if 1 < ch then ResetChannel(old(channels[1])) else old(channels[1])
      {
        var c := channels[ch];
        channels := channels[ch := c.(volL := 0, volR := 0, predictor := 0, stepIndex := 0, whichNibble := 0, halfWord := 0, haveHalfWord := false)];
      }
      bigdiv := 2;
      smalldiv := 0;
    }

    /** The clamps applied after a saved state is loaded into the fields. */
    method ClampLoaded()
      requires Shaped() && control < 0x10000 && cdda[0] < 0x100 && cdda[1] < 0x100
      modifies this
      ensures Valid() && State() == Loaded(old(State()), antiClickEnabled)
    {
      LoadedValid(State(), antiClickEnabled);
      bigdiv := Clamp(bigdiv, 1, 1365);
      smalldiv := Clamp(smalldiv, 1, 8);
      for ch := 0 to 2
        invariant |channels| == 2 && cdda == old(cdda) && control == old(control)
        invariant bigdiv == Clamp(old(bigdiv), 1, 1365) && smalldiv == Clamp(old(smalldiv), 1, 8)
        invariant channels[0] == if 0 < ch then LoadedChannel(old(channels[0]), antiClickEnabled) else old(channels[0])
        invariant channels[1] == if 1 < ch then LoadedChannel(old(channels[1]), antiClickEnabled) else old(channels[1])
      {
        var c := channels[ch];
        var antiClick := Clamp(c.antiClick, ANTICLICK_MIN, ANTICLICK_MAX);
        if !antiClickEnabled {
          antiClick := 0;
        }
        channels := channels[ch := c.(predictor := Clamp(c.predictor, PREDICTOR_MIN, PREDICTOR_MAX), antiClick := antiClick,
                                      stepIndex := Clamp(c.stepIndex, 0, 48), volL := c.volL % 0x40, volR := c.volR % 0x40)];
      }
    }
  }
}
