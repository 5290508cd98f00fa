// The PCA9685 16-channel PWM controller driver
// (src/Adafruit_PWMServoDriver.cpp). The device is its 256 register bytes
// `regs`, read and written one byte at a time by read8/write8; every write
// is also appended to the ghost log `writes`. Register addresses and bit
// meanings follow section 7.3 of the NXP PCA9685 product data sheet; the
// driver's header, which names them, is not part of this model.

module Pca9685 {
  import opened I2c

  // Register addresses (PCA9685 data sheet, section 7.3, table 4)
  const MODE1: RegAddr := 0x00
  const MODE2: RegAddr := 0x01
  const LED0_ON_L: RegAddr := 0x06
  const PRESCALE: RegAddr := 0xFE

  // MODE1 bits (section 7.3.1) and MODE2 bits (section 7.3.2)
  const RESTART: bv8 := 0x80
  const SLEEP: bv8 := 0x10
  const ALLCALL: bv8 := 0x01
  const OUTDRV: bv8 := 0x04

  /** The full-on / full-off flag of a 13-bit on or off count: bit 4 of the
      LEDn_ON_H / LEDn_OFF_H byte (section 7.3.3). */
  const FULL: bv16 := 0x1000

  /** One write8 call. */
  datatype Write = Write(reg: RegAddr, value: bv8)

  /** The on and off tick counts of one channel, as setPWM takes them. */
  datatype Pulse = Pulse(on: bv16, off: bv16)

  /** A byte has the one-bit `flag` set. */
  predicate HasFlag(x: bv8, flag: bv8)
  {
    x & flag != 0
  }

  /** A one-bit mask. */
  predicate IsFlag(f: bv8)
  {
    f != 0 && f & (f - 1) == 0
  }

  /** The register file after a sequence of writes, applied in order. */
  function ApplyWrites(regs: seq<bv8>, ws: seq<Write>): (r: seq<bv8>)
    requires |regs| == 256
    ensures |r| == 256
    decreases |ws|
  {
    if ws == [] then regs
    else ApplyWrites(regs[ws[0].reg := ws[0].value], ws[1..])
  }

  /** Applying two batches of writes one after the other is applying their
      concatenation. */
  lemma {:induction false} ApplyAppend(regs: seq<bv8>, a: seq<Write>, b: seq<Write>)
    requires |regs| == 256
    ensures ApplyWrites(ApplyWrites(regs, a), b) == ApplyWrites(regs, a + b)
    decreases |a|
  {
    if a == [] {
      assert a + b == b;
    } else {
      ApplyAppend(regs[a[0].reg := a[0].value], a[1..], b);
      assert (a + b)[1..] == a[1..] + b;
    }
  }

  /** A register that no write of `ws` names keeps its value. */
  lemma {:induction false} ApplyUntouched(regs: seq<bv8>, ws: seq<Write>, a: RegAddr)
    requires |regs| == 256
    requires forall i :: 0 <= i < |ws| ==> ws[i].reg != a
    ensures ApplyWrites(regs, ws)[a] == regs[a]
    decreases |ws|
  {
    if ws != [] {
      assert forall i :: 0 <= i < |ws[1..]| ==> ws[1..][i] == ws[i + 1];
      ApplyUntouched(regs[ws[0].reg := ws[0].value], ws[1..], a);
    }
  }

  /** Four writes, one register update each. */
  lemma ApplyFour(r0: seq<bv8>, ws: seq<Write>)
    requires |r0| == 256 && |ws| == 4
    ensures ApplyWrites(r0, ws) ==
      r0[ws[0].reg := ws[0].value][ws[1].reg := ws[1].value][ws[2].reg := ws[2].value][ws[3].reg := ws[3].value]
  {
    var r1 := r0[ws[0].reg := ws[0].value];
    var r2 := r1[ws[1].reg := ws[1].value];
    var r3 := r2[ws[2].reg := ws[2].value];
    var r4 := r3[ws[3].reg := ws[3].value];
    assert ws[1..][1..][1..][1..] == [];
    assert ApplyWrites(r3, ws[1..][1..][1..]) == ApplyWrites(r4, []);
    assert ApplyWrites(r2, ws[1..][1..]) == ApplyWrites(r3, ws[1..][1..][1..]);
    assert ApplyWrites(r1, ws[1..]) == ApplyWrites(r2, ws[1..][1..]);
  }

  /** One more write updates one register. */
  lemma ApplySnoc(regs: seq<bv8>, ws: seq<Write>, w: Write)
    requires |regs| == 256
    ensures ApplyWrites(regs, ws + [w]) == ApplyWrites(regs, ws)[w.reg := w.value]
  {
    ApplyAppend(regs, ws, [w]);
    assert [w][1..] == [];
  }

  // ---- setPin ----

  /** setPin's choice of on/off ticks: the value is first clamped to 4095;
      4096 in a count is the full-on or full-off flag. */
  function PinPulse(val: bv16, invert: bool): (p: Pulse)
    ensures p.on <= 4096 && p.off <= 4096
    ensures p.on == 0 || p.off == 0
  {
    var v := if val < 4095 then val else 4095;
    if invert then
      if v == 0 then Pulse(4096, 0)
      else if v == 4095 then Pulse(0, 4096)
      else Pulse(0, 4095 - v)
    else
      if v == 4095 then Pulse(4096, 0)
      else if v == 0 then Pulse(0, 4096)
      else Pulse(0, v)
  }

  /** Ticks out of the 4096-tick period during which the output is high, as
      the device derives it from the on and off counts (section 7.3.3): the
      full-off flag wins over the full-on flag; otherwise the output rises at
      count `on` and falls at count `off`. */
  function HighTicks(p: Pulse): bv16
  {
    if p.off & FULL != 0 then 0
    else if p.on & FULL != 0 then 4096
    else (p.off - p.on) & 0x0FFF
  }

  /** Without inversion the output is high for `val` ticks, and always on
      from 4095 up. */
  lemma PinDuty(val: bv16)
    ensures HighTicks(PinPulse(val, false)) == if val >= 4095 then 4096 else val
  {
  }

  /** With inversion the output is high for 4095 - val ticks, always on at 0
      and always off from 4095 up. */
  lemma InvertedPinDuty(val: bv16)
    ensures HighTicks(PinPulse(val, true)) == if val == 0 then 4096 else if val >= 4095 then 0 else 4095 - val
  {
  }

  /** A larger value never shortens the high time, and with inversion never
      lengthens it. */
  lemma PinDutyMonotone(v: bv16, w: bv16)
    requires v <= w
    ensures HighTicks(PinPulse(v, false)) <= HighTicks(PinPulse(w, false))
    ensures HighTicks(PinPulse(w, true)) <= HighTicks(PinPulse(v, true))
  {
    PinDuty(v);
    PinDuty(w);
    InvertedPinDuty(v);
    InvertedPinDuty(w);
  }

  // ---- setPWM ----

  /** The low and high byte setPWM writes for a count. */
  function Lo(w: bv16): bv8
  {
    (w & 0xFF) as bv8
  }

  function Hi(w: bv16): bv8
  {
    (w >> 8) as bv8
  }

  /** Register k (0 = ON_L, 1 = ON_H, 2 = OFF_L, 3 = OFF_H) of channel num:
      LED0_ON_L + k + 4 * num, cut to the uint8_t write8 takes. */
  function LedReg(num: RegAddr, k: int): RegAddr
    requires 0 <= k < 4
  {
    (LED0_ON_L + k + 4 * num) % 256
  }

  /** The four writes of setPWM(num, on, off), in the order of the code. */
  function PwmWrites(num: RegAddr, p: Pulse): seq<Write>
  {
    [Write(LedReg(num, 0), Lo(p.on)), Write(LedReg(num, 1), Hi(p.on)),
     Write(LedReg(num, 2), Lo(p.off)), Write(LedReg(num, 3), Hi(p.off))]
  }

  /** The 16-bit count held in a low/high register pair. */
  function Count(regs: seq<bv8>, lo: RegAddr, hi: RegAddr): bv16
    requires |regs| == 256
  {
    ((regs[hi] as bv16) << 8) | (regs[lo] as bv16)
  }

  /** After setPWM the channel's two register pairs hold exactly `on` and
      `off`, and every other register is unchanged, for every channel whose
      four registers do not wrap around the 8-bit address (num <= 61). */
  lemma PwmReadBack(regs: seq<bv8>, num: RegAddr, p: Pulse)
    requires |regs| == 256 && num <= 61
    ensures var r := ApplyWrites(regs, PwmWrites(num, p));
      Count(r, LedReg(num, 0), LedReg(num, 1)) == p.on &&
      Count(r, LedReg(num, 2), LedReg(num, 3)) == p.off &&
      forall a: RegAddr :: LED0_ON_L + 4 * num <= a < LED0_ON_L + 4 * num + 4 || r[a] == regs[a]
  {
    ApplyFour(regs, PwmWrites(num, p));
    Recombine(p.on);
    Recombine(p.off);
  }

  /** The high and low byte recombine to the count. */
  lemma Recombine(w: bv16)
    ensures ((Hi(w) as bv16) << 8) | (Lo(w) as bv16) == w
  {
  }

  // ---- setPWMFreq ----

  /** The mode-byte writes of setPWMFreq, given the MODE1 value it read. */
  function FreqWrites(oldmode: bv8, prescale: bv8): seq<Write>
  {
    [Write(MODE1, (oldmode & 0x7F) | SLEEP), Write(PRESCALE, prescale),
     Write(MODE1, oldmode), Write(MODE1, oldmode | RESTART)]
  }

  /** The prescaler is written while the oscillator sleeps (section 7.3.5
      allows it only then): the write before it sets SLEEP, clears RESTART
      and keeps MODE1's other bits; MODE1 then gets its old value back and
      finally the same value with RESTART set. */
  lemma FreqSequence(oldmode: bv8, prescale: bv8, g: bv8)
    requires IsFlag(g)
    ensures var ws := FreqWrites(oldmode, prescale);
      |ws| == 4 && ws[0].reg == MODE1 && ws[1] == Write(PRESCALE, prescale) &&
      HasFlag(ws[0].value, SLEEP) && !HasFlag(ws[0].value, RESTART) &&
      (g != SLEEP && g != RESTART ==> (HasFlag(ws[0].value, g) <==> HasFlag(oldmode, g))) &&
      ws[2] == Write(MODE1, oldmode) && ws[3].reg == MODE1 &&
      HasFlag(ws[3].value, RESTART) &&
      (g != RESTART ==> (HasFlag(ws[3].value, g) <==> HasFlag(oldmode, g)))
  {
  }

  /** setPWMFreq leaves the prescaler at `prescale`, MODE1 at its old value
      with RESTART set, and every other register as it was. */
  lemma FreqEffect(regs: seq<bv8>, prescale: bv8)
    requires |regs| == 256
    ensures var r := ApplyWrites(regs, FreqWrites(regs[MODE1], prescale));
      r[PRESCALE] == prescale && r[MODE1] == regs[MODE1] | RESTART &&
      forall a: RegAddr :: a == MODE1 || a == PRESCALE || r[a] == regs[a]
  {
    ApplyFour(regs, FreqWrites(regs[MODE1], prescale));
  }

  /** The driver of one PCA9685 on the bus. */
  class PwmDriver {
    /** The 256 register bytes of the device. */
    var regs: seq<bv8>
    /** Every write8, in order. */
    ghost var writes: seq<Write>
    /** The register file before the first write: the device's registers are
        always these with the logged writes applied. */
    ghost var base: seq<bv8>

    ghost predicate Valid()
      reads this
    {
      |base| == 256 && |regs| == 256 && regs == ApplyWrites(base, writes)
    }

    /** The constructor: MODE2 = OUTDRV, MODE1 = ALLCALL, then MODE1 is read
        and written back. `powerOn` is the register file before it runs; the
        I2C setup is left out. */
    constructor (powerOn: seq<bv8>)
      requires |powerOn| == 256
      ensures Valid()
      ensures writes == [Write(MODE2, OUTDRV), Write(MODE1, ALLCALL), Write(MODE1, ALLCALL)]
      ensures regs == powerOn[MODE2 := OUTDRV][MODE1 := ALLCALL]
      ensures base == powerOn
    {
      regs := powerOn;
      writes := [];
      base := powerOn;
      new;
      Write8(MODE2, OUTDRV);
      Write8(MODE1, ALLCALL);
      var mode1 := Read8(MODE1);
      Write8(MODE1, mode1);
    }

    /** read8: one register byte. */
    method Read8(addr: RegAddr) returns (d: bv8)
      requires Valid()
      ensures d == regs[addr]
    {
      d := regs[addr];
    }

    /** write8: one register byte. */
    method Write8(addr: RegAddr, d: bv8)
      requires Valid()
      modifies this
      ensures Valid()
      ensures regs == old(regs)[addr := d]
      ensures writes == old(writes) + [Write(addr, d)]
      ensures base == old(base)
    {
      ApplySnoc(base, writes, Write(addr, d));
      regs := regs[addr := d];
      writes := writes + [Write(addr, d)];
    }

    /** reset: MODE1 = 0. */
    method Reset()
      requires Valid()
      modifies this
      ensures Valid()
      ensures regs == old(regs)[MODE1 := 0]
      ensures writes == old(writes) + [Write(MODE1, 0)]
      ensures base == old(base)
    {
      Write8(MODE1, 0x0);
    }

    /** setPWMFreq, from the prescale value on: the float computation of the
        prescale from the frequency is left out. */
    method SetPwmFreq(prescale: bv8)
      requires Valid()
      modifies this
      ensures Valid()
      ensures writes == old(writes) + FreqWrites(old(regs)[MODE1], prescale)
      ensures regs == ApplyWrites(old(regs), FreqWrites(old(regs)[MODE1], prescale))
      ensures base == old(base)
    {
      ghost var w0 := writes;
      var oldmode := Read8(MODE1);
      var newmode := (oldmode & 0x7F) | SLEEP;
      Write8(MODE1, newmode);
      Write8(PRESCALE, prescale);
      Write8(MODE1, oldmode);
      Write8(MODE1, oldmode | RESTART);
      ApplyAppend(base, w0, FreqWrites(oldmode, prescale));
    }

    /** setPWM: the four count bytes of channel num. */
    method SetPwm(num: RegAddr, on: bv16, off: bv16)
      requires Valid()
      modifies this
      ensures Valid()
      ensures writes == old(writes) + PwmWrites(num, Pulse(on, off))
      ensures regs == ApplyWrites(old(regs), PwmWrites(num, Pulse(on, off)))
      ensures base == old(base)
    {
      ghost var w0 := writes;
      Write8(LedReg(num, 0), Lo(on));
      Write8(LedReg(num, 1), Hi(on));
      Write8(LedReg(num, 2), Lo(off));
      Write8(LedReg(num, 3), Hi(off));
      ApplyAppend(base, w0, PwmWrites(num, Pulse(on, off)));
    }

    /** setPin: exactly one setPWM on the same channel, with the pulse of
        the case table. */
    method SetPin(num: RegAddr, val: bv16, invert: bool)
      requires Valid()
      modifies this
      ensures Valid()
      ensures writes == old(writes) + PwmWrites(num, PinPulse(val, invert))
      ensures regs == ApplyWrites(old(regs), PwmWrites(num, PinPulse(val, invert)))
      ensures base == old(base)
    {
      var p := PinPulse(val, invert);
      SetPwm(num, p.on, p.off);
    }
  }
}
