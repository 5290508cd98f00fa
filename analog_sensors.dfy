// The GP2Y0A02 infrared distance sensor on one input of a shared ADS1115
// (src/GP2Y0A02.cpp), over the two versions of its base class: the newer
// driver (src/AnalogDistanceSensor.cpp), which maps the channel number to a
// multiplexer code once in the constructor and checks on every query that
// the converter still addresses that code, and the older driver
// (src/analog_distance_sensor.cpp), which maps the channel while arming and
// never checks. Several sensors share one converter, so "does the
// multiplexer still address my channel?" is what keeps a round-robin of
// sensors from reading each other's conversions.
//
// getMilliVolts scales the conversion count by a floating-point factor per
// gain; the scaling is not modelled. Its one register read is, and since
// voltageToRange is the constant 0 the distance does not depend on it.

module AnalogSensors {
  import opened RegisterBits
  import opened Ads1115

  /** The multiplexer code the newer driver keeps for a channel number:
      inputs 0 .. 3 measured against ground, any other number as it is. */
  function MuxCode(channel: bv8): (code: bv8)
    ensures channel < 4 ==> code == MUX_P0_NG + channel
    ensures channel >= 4 ==> code == channel
  {
    match channel
    case 0 => MUX_P0_NG
    case 1 => MUX_P1_NG
    case 2 => MUX_P2_NG
    case 3 => MUX_P3_NG
    case _ => channel
  }

  /** Two channel numbers share a code exactly when they are equal or one is
      an input 0 .. 3 and the other is that input's own code 4 .. 7. */
  lemma MuxCodeShared(c1: bv8, c2: bv8)
    ensures MuxCode(c1) == MuxCode(c2) <==>
      c1 == c2 || (c1 < 4 && c2 == c1 + 4) || (c2 < 4 && c1 == c2 + 4)
  {
  }

  /** A code of 8 or more never matches the 3-bit field getMultiplexer
      returns, so such a sensor is never complete and always reads 0. */
  lemma WideCodeNeverOwns(config: bv16, code: bv8)
    requires code >= 8
    ensures MuxOf(config) != code
  {
    MuxBelow8(config);
  }

  /** GP2Y0A02::voltageToRange: the distance conversion is not written yet
      and returns 0 for every reading. */
  function VoltageToRange(millivolts: int): int
  {
    0
  }

  /** GP2Y0A02::setupRanging: the gain for the sensor's output range. */
  method SetupRanging(adc: Adc)
    requires adc.Valid()
    modifies adc`regs, adc`pgaMode, adc`devMode, adc`bus
    ensures adc.Valid()
    ensures adc.pgaMode == PGA_4P096 && adc.devMode == old(adc.devMode)
    ensures adc.regs == old(adc.regs)[RA_CONFIG :=
      AfterFieldSet(old(adc.regs)[RA_CONFIG], old(adc.devMode), CFG_PGA_BIT, CFG_PGA_LENGTH, PGA_4P096)]
    ensures adc.bus == old(adc.bus) +
      FieldSetTransfers(old(adc.regs)[RA_CONFIG], old(adc.devMode), CFG_PGA_BIT, CFG_PGA_LENGTH, PGA_4P096)
  {
    adc.SetGain(PGA_4P096);
  }

  /** The config word after the part of initiateRanging that follows the
      multiplexer write: single-shot mode, the sensor's gain (written in
      single-shot mode, so without a restart) and the start of a conversion. */
  function ArmRest(c1: bv16): bv16
  {
    var c2 := WriteBit(c1, CFG_MODE_BIT, MODE_SINGLESHOT as bv16);
    var c3 := AfterFieldSet(c2, MODE_SINGLESHOT, CFG_PGA_BIT, CFG_PGA_LENGTH, PGA_4P096);
    WriteBit(c3, CFG_OS_BIT, OS_ACTIVE as bv16)
  }

  /** The config word after the newer driver's initiateRanging, from config
      word `config` with the converter in mode `mode`. */
  function Armed(config: bv16, mode: bv8, code: bv8): bv16
  {
    ArmRest(AfterFieldSet(config, mode, CFG_MUX_BIT, CFG_MUX_LENGTH, code))
  }

  /** The config word after the older driver's initiateRanging: the
      multiplexer is written only for channels 0 .. 3. */
  function LegacyArmed(config: bv16, mode: bv8, channel: bv8): bv16
  {
    if channel < 4 then Armed(config, mode, MuxCode(channel)) else ArmRest(config)
  }

  /** A bit write leaves every field clear of that bit. */
  lemma BitWriteKeepsField(w: bv16, k: bv8, data: bv16, s: bv8, l: bv8)
    requires k < 16 && ValidField(s, l)
    requires k < s - l + 1 || s < k
    ensures ReadField(WriteBit(w, k, data), s, l) == ReadField(w, s, l)
  {
    WriteBitIsWriteField(w, k, data);
    DisjointFields(w, k, 1, s, l, if data != 0 then 1 else 0);
  }

  /** After the rest of arming: the multiplexer field is as the first step
      left it, the mode is single-shot, the gain field holds 4.096 V and a
      conversion has been started. */
  lemma ArmRestFields(c1: bv16)
    ensures MuxOf(ArmRest(c1)) == MuxOf(c1)
    ensures Bit16(ArmRest(c1), CFG_MODE_BIT)
    ensures ReadField(ArmRest(c1), CFG_PGA_BIT, CFG_PGA_LENGTH) == PGA_4P096 as bv16
    ensures Bit16(ArmRest(c1), CFG_OS_BIT)
  {
    var c2 := WriteBit(c1, CFG_MODE_BIT, MODE_SINGLESHOT as bv16);
    var c3 := WriteField(c2, CFG_PGA_BIT, CFG_PGA_LENGTH, PGA_4P096 as bv16);
    var c4 := WriteBit(c3, CFG_OS_BIT, OS_ACTIVE as bv16);
    assert ArmRest(c1) == c4;
    BitWriteKeepsField(c1, CFG_MODE_BIT, MODE_SINGLESHOT as bv16, CFG_MUX_BIT, CFG_MUX_LENGTH);
    DisjointFields(c2, CFG_PGA_BIT, CFG_PGA_LENGTH, CFG_MUX_BIT, CFG_MUX_LENGTH, PGA_4P096 as bv16);
    BitWriteKeepsField(c3, CFG_OS_BIT, OS_ACTIVE as bv16, CFG_MUX_BIT, CFG_MUX_LENGTH);
    WriteBitBits(c1, CFG_MODE_BIT, MODE_SINGLESHOT as bv16, CFG_MODE_BIT);
    WriteFieldOnlyTouchesField(c2, CFG_PGA_BIT, CFG_PGA_LENGTH, PGA_4P096 as bv16, CFG_MODE_BIT);
    WriteBitBits(c3, CFG_OS_BIT, OS_ACTIVE as bv16, CFG_MODE_BIT);
    ReadAfterWrite(c2, CFG_PGA_BIT, CFG_PGA_LENGTH, PGA_4P096 as bv16);
    BitWriteKeepsField(c3, CFG_OS_BIT, OS_ACTIVE as bv16, CFG_PGA_BIT, CFG_PGA_LENGTH);
    WriteBitBits(c3, CFG_OS_BIT, OS_ACTIVE as bv16, CFG_OS_BIT);
  }

  /** After the newer driver armed a sensor, the multiplexer addresses that
      sensor's code (cut to the field's 3 bits), in single-shot mode, with
      the sensor's gain, converting. */
  lemma ArmedFields(config: bv16, mode: bv8, code: bv8)
    ensures MuxOf(Armed(config, mode, code)) == code & 7
    ensures Bit16(Armed(config, mode, code), CFG_MODE_BIT)
    ensures ReadField(Armed(config, mode, code), CFG_PGA_BIT, CFG_PGA_LENGTH) == PGA_4P096 as bv16
    ensures Bit16(Armed(config, mode, code), CFG_OS_BIT)
  {
    MuxAfterSet(config, mode, code);
    ArmRestFields(AfterFieldSet(config, mode, CFG_MUX_BIT, CFG_MUX_LENGTH, code));
  }

  /** After the older driver armed a sensor: channels 0 .. 3 have the
      multiplexer at their ground-referenced code, any other channel leaves
      the field as it was; mode, gain and start as in the newer driver. */
  lemma LegacyArmedFields(config: bv16, mode: bv8, channel: bv8)
    ensures channel < 4 ==> MuxOf(LegacyArmed(config, mode, channel)) == MUX_P0_NG + channel
    ensures channel >= 4 ==> MuxOf(LegacyArmed(config, mode, channel)) == MuxOf(config)
    ensures Bit16(LegacyArmed(config, mode, channel), CFG_MODE_BIT)
    ensures ReadField(LegacyArmed(config, mode, channel), CFG_PGA_BIT, CFG_PGA_LENGTH) == PGA_4P096 as bv16
    ensures Bit16(LegacyArmed(config, mode, channel), CFG_OS_BIT)
  {
    if channel < 4 {
      ArmedFields(config, mode, MuxCode(channel));
      assert MuxCode(channel) & 7 == MUX_P0_NG + channel;
    } else {
      ArmRestFields(config);
    }
  }

  /** setupRanging runs after setMode(SINGLESHOT), so it rewrites the gain
      field and no other bit of the config word. */
  lemma SetupOnlyTouchesGain(c2: bv16, j: bv8)
    requires j < 16 && !(CFG_PGA_BIT - CFG_PGA_LENGTH + 1 <= j <= CFG_PGA_BIT)
    ensures Bit16(AfterFieldSet(c2, MODE_SINGLESHOT, CFG_PGA_BIT, CFG_PGA_LENGTH, PGA_4P096), j) == Bit16(c2, j)
  {
    WriteFieldOnlyTouchesField(c2, CFG_PGA_BIT, CFG_PGA_LENGTH, PGA_4P096 as bv16, j);
  }

  /** Arming a sensor with a different code of 0 .. 7 on the same converter
      takes the multiplexer away from this one. */
  lemma OtherArmingDisowns(config: bv16, mode: bv8, mine: bv8, other: bv8)
    requires other < 8 && mine != other
    ensures MuxOf(Armed(config, mode, other)) != mine
  {
    ArmedFields(config, mode, other);
  }

  /** The GP2Y0A02 over the newer base class. */
  class Gp2y0a02 {
    const adc: Adc
    /** m_Channel: the multiplexer code the constructor chose. */
    const channel: bv8

    /** The constructor: inputs 0 .. 3 become their ground-referenced
        multiplexer codes, other numbers are kept as they are. */
    constructor (adc: Adc, channel: bv8)
      ensures this.adc == adc && this.channel == MuxCode(channel)
    {
      this.adc := adc;
      this.channel := MuxCode(channel);
    }

    /** initiateRanging: multiplexer, single-shot mode, gain, start; always true. */
    method InitiateRanging() returns (ok: bool)
      requires adc.Valid()
      modifies adc`regs, adc`muxMode, adc`pgaMode, adc`devMode, adc`bus
      ensures adc.Valid() && ok
      ensures adc.muxMode == channel && adc.pgaMode == PGA_4P096 && adc.devMode == MODE_SINGLESHOT
      ensures adc.regs == old(adc.regs)[RA_CONFIG := Armed(old(adc.regs)[RA_CONFIG], old(adc.devMode), channel)]
    {
      adc.SetMultiplexer(channel);
      adc.SetMode(MODE_SINGLESHOT);
      SetupRanging(adc);
      adc.SetOpStatus(OS_ACTIVE);
      ok := true;
    }

    /** rangingComplete: false while the converter addresses another code;
        otherwise whether the conversion has finished. */
    method RangingComplete() returns (done: bool)
      requires adc.Valid()
      modifies adc`muxMode, adc`bus
      ensures adc.muxMode == MuxOf(adc.regs[RA_CONFIG])
      ensures done <==> MuxOf(adc.regs[RA_CONFIG]) == channel && Bit16(adc.regs[RA_CONFIG], CFG_OS_BIT)
      ensures adc.bus == old(adc.bus) +
        (if MuxOf(adc.regs[RA_CONFIG]) == channel then [Read(RA_CONFIG), Read(RA_CONFIG)] else [Read(RA_CONFIG)])
    {
      var mux := adc.GetMultiplexer();
      if mux != channel {
        return false;
      }
      var status := adc.GetOpStatus();
      done := status == OS_INACTIVE;
    }

    /** getRange: 0 while the converter addresses another code; otherwise
        the conversion is read and converted to a distance. */
    method GetRange() returns (range: int)
      requires adc.Valid()
      modifies adc`muxMode, adc`bus
      ensures adc.muxMode == MuxOf(adc.regs[RA_CONFIG])
      ensures range == 0
      ensures adc.bus == old(adc.bus) +
        (if MuxOf(adc.regs[RA_CONFIG]) == channel then [Read(RA_CONFIG), Read(RA_CONVERSION)] else [Read(RA_CONFIG)])
    {
      var mux := adc.GetMultiplexer();
      if mux != channel {
        return 0;
      }
      var counts := adc.GetConversion();
      range := VoltageToRange(counts);
    }
  }

  /** The GP2Y0A02 over the older base class. */
  class LegacyGp2y0a02 {
    const adc: Adc
    /** m_Channel: the channel number as given. */
    const channel: bv8

    constructor (adc: Adc, channel: bv8)
      ensures this.adc == adc && this.channel == channel
    {
      this.adc := adc;
      this.channel := channel;
    }

    /** initiateRanging: the multiplexer only for channels 0 .. 3, then
        single-shot mode, gain and start; always true. */
    method InitiateRanging() returns (ok: bool)
      requires adc.Valid()
      modifies adc`regs, adc`muxMode, adc`pgaMode, adc`devMode, adc`bus
      ensures adc.Valid() && ok
      ensures adc.muxMode == if channel < 4 then MuxCode(channel) else old(adc.muxMode)
      ensures adc.pgaMode == PGA_4P096 && adc.devMode == MODE_SINGLESHOT
      ensures adc.regs == old(adc.regs)[RA_CONFIG := LegacyArmed(old(adc.regs)[RA_CONFIG], old(adc.devMode), channel)]
    {
      // the switch on channels 0 .. 3 writes the code MuxCode gives them
      if channel < 4 {
        adc.SetMultiplexer(MuxCode(channel));
      }
      adc.SetMode(MODE_SINGLESHOT);
      SetupRanging(adc);
      adc.SetOpStatus(OS_ACTIVE);
      ok := true;
    }

    /** rangingComplete: whether the converter is idle, whatever it addresses. */
    method RangingComplete() returns (done: bool)
      requires adc.Valid()
      modifies adc`bus
      ensures done <==> Bit16(adc.regs[RA_CONFIG], CFG_OS_BIT)
      ensures adc.bus == old(adc.bus) + [Read(RA_CONFIG)]
    {
      var status := adc.GetOpStatus();
      done := status == OS_INACTIVE;
    }

    /** getRange: the conversion is read and converted, whichever input it
        belongs to. */
    method GetRange() returns (range: int)
      requires adc.Valid()
      modifies adc`bus
      ensures range == 0
      ensures adc.bus == old(adc.bus) + [Read(RA_CONVERSION)]
    {
      var counts := adc.GetConversion();
      range := VoltageToRange(counts);
    }
  }
}
