// The ADS1115 analog-to-digital converter driver (src/ADS1115.cpp), one
// device on an I2C bus. The device's four 16-bit registers are the map
// `regs`; the driver's cached copies of the multiplexer, gain and mode
// settings are the fields `muxMode`, `pgaMode` and `devMode`. Every I2C
// block transfer is appended to the ghost log `bus`.
//
// Register addresses and the config-register layout follow the register
// map of the TI ADS1113/4/5 datasheet (SBAS444B, section 9.6); the driver's
// header, which names them, is not part of this model.

module Ads1115 {
  import opened RegisterBits
  import opened I2c

  // Address pointer register values (SBAS444B, section 9.6.1)
  const RA_CONVERSION: RegAddr := 0x00
  const RA_CONFIG: RegAddr := 0x01
  const RA_LO_THRESH: RegAddr := 0x02
  const RA_HI_THRESH: RegAddr := 0x03

  // Config register fields, highest bit and width (SBAS444B, section 9.6.3)
  const CFG_OS_BIT: bv8 := 15
  const CFG_MUX_BIT: bv8 := 14
  const CFG_MUX_LENGTH: bv8 := 3
  const CFG_PGA_BIT: bv8 := 11
  const CFG_PGA_LENGTH: bv8 := 3
  const CFG_MODE_BIT: bv8 := 8
  const CFG_DR_BIT: bv8 := 7
  const CFG_DR_LENGTH: bv8 := 3
  const CFG_COMP_MODE_BIT: bv8 := 4
  const CFG_COMP_POL_BIT: bv8 := 3
  const CFG_COMP_LAT_BIT: bv8 := 2
  const CFG_COMP_QUE_BIT: bv8 := 1
  const CFG_COMP_QUE_LENGTH: bv8 := 2

  // Field values
  const OS_INACTIVE: bv8 := 0x00
  const OS_ACTIVE: bv8 := 0x01
  const MODE_CONTINUOUS: bv8 := 0x00
  const MODE_SINGLESHOT: bv8 := 0x01
  const MUX_P0_N1: bv8 := 0x00
  const MUX_P0_N3: bv8 := 0x01
  const MUX_P1_N3: bv8 := 0x02
  const MUX_P2_N3: bv8 := 0x03
  const MUX_P0_NG: bv8 := 0x04
  const MUX_P1_NG: bv8 := 0x05
  const MUX_P2_NG: bv8 := 0x06
  const MUX_P3_NG: bv8 := 0x07
  const PGA_6P144: bv8 := 0x00
  const PGA_4P096: bv8 := 0x01
  const PGA_2P048: bv8 := 0x02
  const RATE_128: bv8 := 0x04
  const COMP_MODE_HYSTERESIS: bv8 := 0x00
  const COMP_POL_ACTIVE_LOW: bv8 := 0x00
  const COMP_LAT_NON_LATCHING: bv8 := 0x00
  const COMP_QUE_DISABLE: bv8 := 0x03

  /** The config register's power-on value (SBAS444B, section 9.6.3). */
  const CONFIG_RESET: bv16 := 0x8583

  /** One I2C block transfer: the register pointer and the two data bytes. */
  datatype Transfer = Read(reg: RegAddr) | Write(reg: RegAddr, bytes: seq<bv8>)

  /** The two bytes writeRegister puts in its buffer: high byte first. */
  function Encode16(x: bv16): (b: seq<bv8>)
    ensures |b| == 2
  {
    [((x >> 8) & 0xFF) as bv8, (x & 0xFF) as bv8]
  }

  /** The word readRegister assembles from the two bytes it receives. */
  function Decode16(b: seq<bv8>): bv16
    requires |b| == 2
  {
    ((b[0] as bv16) << 8) | (b[1] as bv16)
  }

  /** Reading back the bytes of a written word gives that word. */
  lemma DecodeEncode(x: bv16)
    ensures Decode16(Encode16(x)) == x
  {
  }

  /** Every two-byte buffer is the encoding of exactly one word. */
  lemma EncodeDecode(b: seq<bv8>)
    requires |b| == 2
    ensures Encode16(Decode16(b)) == b
  {
  }

  /** int16_t reading of a 16-bit register word (two's complement). */
  function Signed16(x: bv16): (r: int)
    ensures -0x8000 <= r < 0x8000
    ensures r >= 0 <==> x < 0x8000
  {
    if x < 0x8000 then x as int else x as int - 0x1_0000
  }

  /** Signed16 loses nothing: adding 2^16 to a negative reading gives back
      the unsigned word. */
  lemma Signed16Inverse(x: bv16)
    ensures (if Signed16(x) < 0 then Signed16(x) + 0x1_0000 else Signed16(x)) == x as int
  {
  }

  /** The stop/start setMultiplexer and setGain run in continuous mode:
      setMode(SINGLESHOT), getConversion, setMode(CONTINUOUS), as it acts on
      the config word. */
  function Restarted(config: bv16): bv16
  {
    WriteBit(WriteBit(config, CFG_MODE_BIT, MODE_SINGLESHOT as bv16), CFG_MODE_BIT, MODE_CONTINUOUS as bv16)
  }

  /** The transfers of that stop/start, starting from config word `w`. */
  function RestartTransfers(w: bv16): seq<Transfer>
  {
    var w1 := WriteBit(w, CFG_MODE_BIT, MODE_SINGLESHOT as bv16);
    [Read(RA_CONFIG), Write(RA_CONFIG, Encode16(w1)), Read(RA_CONVERSION),
     Read(RA_CONFIG), Write(RA_CONFIG, Encode16(Restarted(w)))]
  }

  /** The stop/start leaves the device in continuous mode and touches no
      other bit of the config word. */
  lemma RestartedBits(config: bv16, j: bv8)
    requires j < 16
    ensures j == CFG_MODE_BIT ==> !Bit16(Restarted(config), j)
    ensures j != CFG_MODE_BIT ==> Bit16(Restarted(config), j) == Bit16(config, j)
  {
    var w1 := WriteBit(config, CFG_MODE_BIT, MODE_SINGLESHOT as bv16);
    WriteBitBits(config, CFG_MODE_BIT, MODE_SINGLESHOT as bv16, j);
    WriteBitBits(w1, CFG_MODE_BIT, MODE_CONTINUOUS as bv16, j);
  }

  /** The whole config word after setMultiplexer or setGain wrote field
      (bitStart, length) with `value`, given the cached mode it started in. */
  function AfterFieldSet(config: bv16, mode: bv8, bitStart: bv8, length: bv8, value: bv8): bv16
    requires ValidField(bitStart, length)
  {
    var w := WriteField(config, bitStart, length, value as bv16);
    if mode == MODE_CONTINUOUS then Restarted(w) else w
  }

  /** The transfers of setMultiplexer or setGain. */
  function FieldSetTransfers(config: bv16, mode: bv8, bitStart: bv8, length: bv8, value: bv8): seq<Transfer>
    requires ValidField(bitStart, length)
  {
    var w := WriteField(config, bitStart, length, value as bv16);
    [Read(RA_CONFIG), Write(RA_CONFIG, Encode16(w))]
      + (if mode == MODE_CONTINUOUS then RestartTransfers(w) else [])
  }

  /** The multiplexer field of a config word, as getMultiplexer reads it. */
  function MuxOf(config: bv16): bv8
  {
    (ReadField(config, CFG_MUX_BIT, CFG_MUX_LENGTH) & 0xFF) as bv8
  }

  /** setMultiplexer leaves the written mux code (cut to its 3 bits) in the
      MUX field, whatever mode it started in. */
  lemma MuxAfterSet(config: bv16, mode: bv8, mux: bv8)
    ensures MuxOf(AfterFieldSet(config, mode, CFG_MUX_BIT, CFG_MUX_LENGTH, mux)) == mux & 7
  {
    var w := WriteField(config, CFG_MUX_BIT, CFG_MUX_LENGTH, mux as bv16);
    ReadAfterWrite(config, CFG_MUX_BIT, CFG_MUX_LENGTH, mux as bv16);
    RestartKeepsField(w, CFG_MUX_BIT, CFG_MUX_LENGTH);
  }

  /** setGain leaves the MUX field as it was. */
  lemma MuxAfterGainSet(config: bv16, mode: bv8, gain: bv8)
    ensures MuxOf(AfterFieldSet(config, mode, CFG_PGA_BIT, CFG_PGA_LENGTH, gain)) == MuxOf(config)
  {
    var w := WriteField(config, CFG_PGA_BIT, CFG_PGA_LENGTH, gain as bv16);
    DisjointFields(config, CFG_PGA_BIT, CFG_PGA_LENGTH, CFG_MUX_BIT, CFG_MUX_LENGTH, gain as bv16);
    RestartKeepsField(w, CFG_MUX_BIT, CFG_MUX_LENGTH);
  }

  /** The stop/start does not change a field that lies clear of the MODE bit. */
  lemma RestartKeepsField(w: bv16, bitStart: bv8, length: bv8)
    requires ValidField(bitStart, length)
    requires bitStart < CFG_MODE_BIT || bitStart - length + 1 > CFG_MODE_BIT
    ensures ReadField(Restarted(w), bitStart, length) == ReadField(w, bitStart, length)
  {
    var w1 := WriteBit(w, CFG_MODE_BIT, MODE_SINGLESHOT as bv16);
    WriteBitIsWriteField(w, CFG_MODE_BIT, MODE_SINGLESHOT as bv16);
    WriteBitIsWriteField(w1, CFG_MODE_BIT, MODE_CONTINUOUS as bv16);
    DisjointFields(w, CFG_MODE_BIT, 1, bitStart, length, 1);
    DisjointFields(w1, CFG_MODE_BIT, 1, bitStart, length, 0);
  }

  class Adc {
    /** The device's registers, by address. */
    var regs: map<RegAddr, bv16>
    /** The driver's cached settings. */
    var muxMode: bv8
    var pgaMode: bv8
    var devMode: bv8
    /** Every block transfer on the bus, in order. */
    ghost var bus: seq<Transfer>

    ghost predicate Valid()
      reads this
    {
      regs.Keys == {RA_CONVERSION, RA_CONFIG, RA_LO_THRESH, RA_HI_THRESH}
    }

    /** A device whose registers hold the given words, and a driver whose
        cached settings hold the given codes; nothing is transferred. */
    constructor (conversion: bv16, config: bv16, loThresh: bv16, hiThresh: bv16,
                 mux: bv8, pga: bv8, mode: bv8)
      ensures Valid()
      ensures regs == map[RA_CONVERSION := conversion, RA_CONFIG := config,
                          RA_LO_THRESH := loThresh, RA_HI_THRESH := hiThresh]
      ensures muxMode == mux && pgaMode == pga && devMode == mode
      ensures bus == []
    {
      regs := map[RA_CONVERSION := conversion, RA_CONFIG := config,
                  RA_LO_THRESH := loThresh, RA_HI_THRESH := hiThresh];
      muxMode := mux;
      pgaMode := pga;
      devMode := mode;
      bus := [];
    }

    /** readRegister: the device sends the register high byte first and the
        driver reassembles the word. */
    method ReadRegister(regAddr: RegAddr) returns (data: bv16)
      requires Valid() && regAddr in regs
      modifies this`bus
      ensures data == regs[regAddr]
      ensures bus == old(bus) + [Read(regAddr)]
    {
      var buf := Encode16(regs[regAddr]);
      data := Decode16(buf);
      DecodeEncode(regs[regAddr]);
      bus := bus + [Read(regAddr)];
    }

    /** writeRegister: the word goes out high byte first and the device
        stores it. The bus acknowledgement is not modelled: `ack` is any value. */
    method WriteRegister(regAddr: RegAddr, data: bv16) returns (ack: bool)
      requires Valid() && regAddr in regs
      modifies this`regs, this`bus
      ensures Valid()
      ensures regs == old(regs)[regAddr := data]
      ensures bus == old(bus) + [Write(regAddr, Encode16(data))]
    {
      var buf := Encode16(data);
      DecodeEncode(data);
      regs := regs[regAddr := Decode16(buf)];
      bus := bus + [Write(regAddr, buf)];
      ack :| true;
    }

    /** writeBitW: read the register, set or clear one bit, write it back.
        The result compares a bool with 0 and so is always true. */
    method WriteBitW(regAddr: RegAddr, bitNum: bv8, data: bv16) returns (ok: bool)
      requires Valid() && regAddr in regs && bitNum < 16
      modifies this`regs, this`bus
      ensures Valid()
      ensures ok
      ensures regs == old(regs)[regAddr := WriteBit(old(regs)[regAddr], bitNum, data)]
      ensures bus == old(bus) + [Read(regAddr), Write(regAddr, Encode16(WriteBit(old(regs)[regAddr], bitNum, data)))]
    {
      var val := ReadRegister(regAddr);
      val := WriteBit(val, bitNum, data);
      var ack := WriteRegister(regAddr, val);
      ok := (if ack then 1 else 0) >= 0;
    }

    /** writeBitsW: read the register, replace the `length` bits ending at
        bitStart with the low bits of `data`, write it back. The `ret < 0`
        guard tests a value read from a uint16_t and cannot fire. */
    method WriteBitsW(regAddr: RegAddr, bitStart: bv8, length: bv8, data: bv16) returns (ok: bool)
      requires Valid() && regAddr in regs && ValidField(bitStart, length)
      modifies this`regs, this`bus
      ensures Valid()
      ensures ok
      ensures regs == old(regs)[regAddr := WriteField(old(regs)[regAddr], bitStart, length, data)]
      ensures bus == old(bus) + [Read(regAddr), Write(regAddr, Encode16(WriteField(old(regs)[regAddr], bitStart, length, data)))]
    {
      var word := ReadRegister(regAddr);
      var ret: int := word as int;
      if ret < 0 {
        assert false;
      }
      // `ret & 0xffff` keeps all of a value read as a uint16_t
      var val: bv16 := ret as bv16;
      val := WriteField(val, bitStart, length, data);
      var ack := WriteRegister(regAddr, val);
      ok := (if ack then 1 else 0) >= 0;
    }

    /** readBitsW: the field of the config register. Whatever `regAddr` the
        caller passes, it is the CONFIG register that is read. */
    method ReadBitsW(regAddr: RegAddr, bitStart: bv8, length: bv8) returns (r: bv16)
      requires Valid() && ValidField(bitStart, length)
      modifies this`bus
      ensures r == ReadField(regs[RA_CONFIG], bitStart, length)
      ensures bus == old(bus) + [Read(RA_CONFIG)]
    {
      var val := ReadRegister(RA_CONFIG);
      r := ReadField(val, bitStart, length);
    }

    /** getConversion: the conversion register as a signed 16-bit value. */
    method GetConversion() returns (r: int)
      requires Valid()
      modifies this`bus
      ensures r == Signed16(regs[RA_CONVERSION])
      ensures bus == old(bus) + [Read(RA_CONVERSION)]
    {
      var word := ReadRegister(RA_CONVERSION);
      r := Signed16(word);
    }

    /** getOpStatus: INACTIVE exactly when the OS bit reads 1. */
    method GetOpStatus() returns (status: bv8)
      requires Valid()
      modifies this`bus
      ensures status == (if Bit16(regs[RA_CONFIG], CFG_OS_BIT) then OS_INACTIVE else OS_ACTIVE)
      ensures bus == old(bus) + [Read(RA_CONFIG)]
    {
      var word := ReadRegister(RA_CONFIG);
      status := if word & (1 << CFG_OS_BIT) != 0 then OS_INACTIVE else OS_ACTIVE;
    }

    /** setOpStatus: writes the OS bit; writing ACTIVE starts a conversion. */
    method SetOpStatus(status: bv8)
      requires Valid()
      modifies this`regs, this`bus
      ensures Valid()
      ensures regs == old(regs)[RA_CONFIG := WriteBit(old(regs)[RA_CONFIG], CFG_OS_BIT, status as bv16)]
      ensures bus == old(bus) + [Read(RA_CONFIG), Write(RA_CONFIG, Encode16(regs[RA_CONFIG]))]
    {
      var _ := WriteBitW(RA_CONFIG, CFG_OS_BIT, status as bv16);
    }

    /** getMultiplexer: reads the MUX field and refreshes the cached muxMode. */
    method GetMultiplexer() returns (mux: bv8)
      requires Valid()
      modifies this`muxMode, this`bus
      ensures mux == muxMode == MuxOf(regs[RA_CONFIG])
      ensures mux < 8
      ensures bus == old(bus) + [Read(RA_CONFIG)]
    {
      var field := ReadBitsW(RA_CONFIG, CFG_MUX_BIT, CFG_MUX_LENGTH);
      muxMode := (field & 0xFF) as bv8;
      mux := muxMode;
      MuxBelow8(regs[RA_CONFIG]);
    }

    /** setMode: writes the MODE bit and, as the write always reports success,
        caches the new mode. */
    method SetMode(mode: bv8)
      requires Valid()
      modifies this`regs, this`devMode, this`bus
      ensures Valid()
      ensures devMode == mode
      ensures regs == old(regs)[RA_CONFIG := WriteBit(old(regs)[RA_CONFIG], CFG_MODE_BIT, mode as bv16)]
      ensures bus == old(bus) + [Read(RA_CONFIG), Write(RA_CONFIG, Encode16(regs[RA_CONFIG]))]
    {
      var ok := WriteBitW(RA_CONFIG, CFG_MODE_BIT, mode as bv16);
      if ok {
        devMode := mode;
      }
    }

    /** getMode: SINGLESHOT exactly when the MODE bit reads 1. */
    method GetMode() returns (mode: bv8)
      requires Valid()
      modifies this`bus
      ensures mode == (if Bit16(regs[RA_CONFIG], CFG_MODE_BIT) then MODE_SINGLESHOT else MODE_CONTINUOUS)
      ensures bus == old(bus) + [Read(RA_CONFIG)]
    {
      var word := ReadRegister(RA_CONFIG);
      mode := if word & (1 << CFG_MODE_BIT) != 0 then MODE_SINGLESHOT else MODE_CONTINUOUS;
    }

    /** The stop/start of setMultiplexer and setGain in continuous mode. */
    method Restart()
      requires Valid() && devMode == MODE_CONTINUOUS
      modifies this`regs, this`devMode, this`bus
      ensures Valid()
      ensures devMode == MODE_CONTINUOUS
      ensures regs == old(regs)[RA_CONFIG := Restarted(old(regs)[RA_CONFIG])]
      ensures bus == old(bus) + RestartTransfers(old(regs)[RA_CONFIG])
    {
      SetMode(MODE_SINGLESHOT);
      var _ := GetConversion();
      SetMode(MODE_CONTINUOUS);
    }

    /** setMultiplexer: writes the MUX field and caches the code; in
        continuous mode it then stops and restarts the conversions. */
    method SetMultiplexer(mux: bv8)
      requires Valid()
      modifies this`regs, this`muxMode, this`devMode, this`bus
      ensures Valid()
      ensures muxMode == mux && devMode == old(devMode)
      ensures regs == old(regs)[RA_CONFIG :=
        AfterFieldSet(old(regs)[RA_CONFIG], old(devMode), CFG_MUX_BIT, CFG_MUX_LENGTH, mux)]
      ensures bus == old(bus) + FieldSetTransfers(old(regs)[RA_CONFIG], old(devMode), CFG_MUX_BIT, CFG_MUX_LENGTH, mux)
    {
      var ok := WriteBitsW(RA_CONFIG, CFG_MUX_BIT, CFG_MUX_LENGTH, mux as bv16);
      if ok {
        muxMode := mux;
        if devMode == MODE_CONTINUOUS {
          Restart();
        }
      }
    }

    /** getGain: reads the PGA field and refreshes the cached pgaMode. */
    method GetGain() returns (gain: bv8)
      requires Valid()
      modifies this`pgaMode, this`bus
      ensures gain == pgaMode == (ReadField(regs[RA_CONFIG], CFG_PGA_BIT, CFG_PGA_LENGTH) & 0xFF) as bv8
      ensures bus == old(bus) + [Read(RA_CONFIG)]
    {
      var field := ReadBitsW(RA_CONFIG, CFG_PGA_BIT, CFG_PGA_LENGTH);
      pgaMode := (field & 0xFF) as bv8;
      gain := pgaMode;
    }

    /** setGain: writes the PGA field and caches the code; in continuous
        mode it then stops and restarts the conversions. */
    method SetGain(gain: bv8)
      requires Valid()
      modifies this`regs, this`pgaMode, this`devMode, this`bus
      ensures Valid()
      ensures pgaMode == gain && devMode == old(devMode)
      ensures regs == old(regs)[RA_CONFIG :=
        AfterFieldSet(old(regs)[RA_CONFIG], old(devMode), CFG_PGA_BIT, CFG_PGA_LENGTH, gain)]
      ensures bus == old(bus) + FieldSetTransfers(old(regs)[RA_CONFIG], old(devMode), CFG_PGA_BIT, CFG_PGA_LENGTH, gain)
    {
      var ok := WriteBitsW(RA_CONFIG, CFG_PGA_BIT, CFG_PGA_LENGTH, gain as bv16);
      if ok {
        pgaMode := gain;
        if devMode == MODE_CONTINUOUS {
          Restart();
        }
      }
    }

    /** setRate, setComparatorQueueMode: plain field writes. */
    method SetRate(rate: bv8)
      requires Valid()
      modifies this`regs, this`bus
      ensures Valid()
      ensures regs == old(regs)[RA_CONFIG := WriteField(old(regs)[RA_CONFIG], CFG_DR_BIT, CFG_DR_LENGTH, rate as bv16)]
      ensures bus == old(bus) + [Read(RA_CONFIG), Write(RA_CONFIG, Encode16(regs[RA_CONFIG]))]
    {
      var _ := WriteBitsW(RA_CONFIG, CFG_DR_BIT, CFG_DR_LENGTH, rate as bv16);
    }

    method SetComparatorQueueMode(mode: bv8)
      requires Valid()
      modifies this`regs, this`bus
      ensures Valid()
      ensures regs == old(regs)[RA_CONFIG := WriteField(old(regs)[RA_CONFIG], CFG_COMP_QUE_BIT, CFG_COMP_QUE_LENGTH, mode as bv16)]
      ensures bus == old(bus) + [Read(RA_CONFIG), Write(RA_CONFIG, Encode16(regs[RA_CONFIG]))]
    {
      var _ := WriteBitsW(RA_CONFIG, CFG_COMP_QUE_BIT, CFG_COMP_QUE_LENGTH, mode as bv16);
    }

    /** setComparatorMode, setComparatorPolarity, setComparatorLatchEnabled:
        plain bit writes. */
    method SetComparatorMode(mode: bv8)
      requires Valid()
      modifies this`regs, this`bus
      ensures Valid()
      ensures regs == old(regs)[RA_CONFIG := WriteBit(old(regs)[RA_CONFIG], CFG_COMP_MODE_BIT, mode as bv16)]
      ensures bus == old(bus) + [Read(RA_CONFIG), Write(RA_CONFIG, Encode16(regs[RA_CONFIG]))]
    {
      var _ := WriteBitW(RA_CONFIG, CFG_COMP_MODE_BIT, mode as bv16);
    }

    method SetComparatorPolarity(polarity: bv8)
      requires Valid()
      modifies this`regs, this`bus
      ensures Valid()
      ensures regs == old(regs)[RA_CONFIG := WriteBit(old(regs)[RA_CONFIG], CFG_COMP_POL_BIT, polarity as bv16)]
      ensures bus == old(bus) + [Read(RA_CONFIG), Write(RA_CONFIG, Encode16(regs[RA_CONFIG]))]
    {
      var _ := WriteBitW(RA_CONFIG, CFG_COMP_POL_BIT, polarity as bv16);
    }

    method SetComparatorLatchEnabled(enabled: bool)
      requires Valid()
      modifies this`regs, this`bus
      ensures Valid()
      ensures regs == old(regs)[RA_CONFIG := WriteBit(old(regs)[RA_CONFIG], CFG_COMP_LAT_BIT, if enabled then 1 else 0)]
      ensures bus == old(bus) + [Read(RA_CONFIG), Write(RA_CONFIG, Encode16(regs[RA_CONFIG]))]
    {
      var _ := WriteBitW(RA_CONFIG, CFG_COMP_LAT_BIT, if enabled then 1 else 0);
    }

    /** initialize: programs every config field except OS to the value the
        datasheet gives as the power-on default, and caches MUX P0/N1, gain
        2.048 V and single-shot mode. */
    method Initialize()
      requires Valid()
      modifies this`regs, this`muxMode, this`pgaMode, this`devMode, this`bus
      ensures Valid()
      ensures muxMode == MUX_P0_N1 && pgaMode == PGA_2P048 && devMode == MODE_SINGLESHOT
      ensures regs[RA_CONFIG] & 0x7FFF == CONFIG_RESET & 0x7FFF
      ensures Bit16(regs[RA_CONFIG], CFG_OS_BIT) == Bit16(old(regs)[RA_CONFIG], CFG_OS_BIT)
      ensures forall r :: r in regs && r != RA_CONFIG ==> regs[r] == old(regs)[r]
    {
      ghost var c0 := regs[RA_CONFIG];
      SetMultiplexer(MUX_P0_N1);
      ghost var c1 := regs[RA_CONFIG];
      SetGain(PGA_2P048);
      ghost var c2 := regs[RA_CONFIG];
      SetMode(MODE_SINGLESHOT);
      ghost var c3 := regs[RA_CONFIG];
      SetRate(RATE_128);
      ghost var c4 := regs[RA_CONFIG];
      SetComparatorMode(COMP_MODE_HYSTERESIS);
      ghost var c5 := regs[RA_CONFIG];
      SetComparatorPolarity(COMP_POL_ACTIVE_LOW);
      ghost var c6 := regs[RA_CONFIG];
      SetComparatorLatchEnabled(COMP_LAT_NON_LATCHING != 0);
      ghost var c7 := regs[RA_CONFIG];
      SetComparatorQueueMode(COMP_QUE_DISABLE);
      InitializeWord(c0, c1, c2, c3, c4, c5, c6, c7, regs[RA_CONFIG], old(devMode));
    }

    /** getConversionP0N1 .. getConversionP3GND, with the mux code as a
        parameter: the MUX is rewritten only when the cached code differs. */
    method GetConversionVia(mux: bv8) returns (r: int)
      requires Valid()
      modifies this`regs, this`muxMode, this`devMode, this`bus
      ensures Valid()
      ensures muxMode == mux && devMode == old(devMode)
      ensures old(muxMode) == mux ==> regs == old(regs) && bus == old(bus) + [Read(RA_CONVERSION)]
      ensures old(muxMode) != mux ==>
        regs == old(regs)[RA_CONFIG := AfterFieldSet(old(regs)[RA_CONFIG], old(devMode), CFG_MUX_BIT, CFG_MUX_LENGTH, mux)]
        && bus == old(bus) + FieldSetTransfers(old(regs)[RA_CONFIG], old(devMode), CFG_MUX_BIT, CFG_MUX_LENGTH, mux)
                 + [Read(RA_CONVERSION)]
      ensures r == Signed16(regs[RA_CONVERSION])
    {
      if muxMode != mux {
        SetMultiplexer(mux);
      }
      r := GetConversion();
    }
  }

  /** A field read of three bits fits in the uint8_t getMultiplexer returns. */
  lemma MuxBelow8(config: bv16)
    ensures MuxOf(config) < 8
  {
  }

  /** The config word after initialize's eight writes, one requires per write. */
  lemma InitializeWord(c0: bv16, c1: bv16, c2: bv16, c3: bv16, c4: bv16, c5: bv16, c6: bv16,
                       c7: bv16, c8: bv16, mode: bv8)
    requires c1 == AfterFieldSet(c0, mode, CFG_MUX_BIT, CFG_MUX_LENGTH, MUX_P0_N1)
    requires c2 == AfterFieldSet(c1, mode, CFG_PGA_BIT, CFG_PGA_LENGTH, PGA_2P048)
    requires c3 == WriteBit(c2, CFG_MODE_BIT, MODE_SINGLESHOT as bv16)
    requires c4 == WriteField(c3, CFG_DR_BIT, CFG_DR_LENGTH, RATE_128 as bv16)
    requires c5 == WriteBit(c4, CFG_COMP_MODE_BIT, COMP_MODE_HYSTERESIS as bv16)
    requires c6 == WriteBit(c5, CFG_COMP_POL_BIT, COMP_POL_ACTIVE_LOW as bv16)
    requires c7 == WriteBit(c6, CFG_COMP_LAT_BIT, 0)
    requires c8 == WriteField(c7, CFG_COMP_QUE_BIT, CFG_COMP_QUE_LENGTH, COMP_QUE_DISABLE as bv16)
    ensures c8 & 0x7FFF == CONFIG_RESET & 0x7FFF
    ensures Bit16(c8, CFG_OS_BIT) == Bit16(c0, CFG_OS_BIT)
  {
  }

}
