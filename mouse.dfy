// The optical-mouse speed sensor (src/MouseSpeedSensor.cpp): getSpeed reads
// one 3-byte movement packet from the mouse device and decodes the x and y
// movement. The read is a parameter: the packet when the read returned all
// three bytes, None otherwise. Opening and closing the device are left out.
//
// The packet layout is that of the PS/2 mouse protocol: byte 0 carries the
// flags (bit 4 x sign, bit 5 y sign, bit 6 x overflow, bit 7 y overflow),
// bytes 1 and 2 the x and y movement. getSpeed reads the sign bit as a
// sign-magnitude sign; the protocol's movement is a 9-bit two's complement
// number whose ninth bit is the sign bit. Ps2Axis below is that reading.

module Mouse {
  import opened Wrappers

  /** One movement packet: the flag byte and the two movement bytes. */
  datatype Packet = Packet(flags: bv8, dx: Byte, dy: Byte)

  /** MouseSpeedSensor::MouseSpeed. */
  datatype Speed = Speed(x: int, y: int)

  /** Bit k of the flag byte. */
  predicate Flag(flags: bv8, k: bv8)
    requires k < 8
  {
    flags & (1 << k) != 0
  }

  /** One axis as getSpeed decodes it: the magnitude byte, or 1000 when the
      overflow flag is set, negated when the sign flag is set. */
  function Axis(magnitude: Byte, overflow: bool, negative: bool): int
  {
    var m := if overflow then 1000 else magnitude;
    if negative then -m else m
  }

  /** The speed getSpeed returns for a read. */
  function Decode(read: Option<Packet>): Speed
  {
    match read
    case None => Speed(0, 0)
    case Some(p) => Speed(Axis(p.dx, Flag(p.flags, 6), Flag(p.flags, 4)),
                          Axis(p.dy, Flag(p.flags, 7), Flag(p.flags, 5)))
  }

  /** getSpeed: starts from (0, 0) and, when three bytes were read, fills
      the fields in by successive reassignments. */
  method GetSpeed(read: Option<Packet>) returns (speed: Speed)
    ensures speed == Decode(read)
  {
    speed := Speed(0, 0);
    if read.Some? {
      var data := read.value;
      speed := speed.(x := data.dx);
      if Flag(data.flags, 6) {
        speed := speed.(x := 1000);
      }
      if Flag(data.flags, 4) {
        speed := speed.(x := -speed.x);
      }
      speed := speed.(y := data.dy);
      if Flag(data.flags, 7) {
        speed := speed.(y := 1000);
      }
      if Flag(data.flags, 5) {
        speed := speed.(y := -speed.y);
      }
    }
  }

  /** The magnitude of an axis is the movement byte, or 1000 on overflow;
      the value is negative exactly when the sign flag is set and the
      magnitude is not 0. */
  lemma AxisMeaning(magnitude: Byte, overflow: bool, negative: bool)
    ensures var v := Axis(magnitude, overflow, negative);
      (if v < 0 then -v else v) == (if overflow then 1000 else magnitude) &&
      (v < 0 <==> negative && (overflow || magnitude != 0))
  {
  }

  /** A failed read reports no movement; each axis lies in [-1000, 1000]. */
  lemma DecodeBounds(read: Option<Packet>)
    ensures read.None? ==> Decode(read) == Speed(0, 0)
    ensures -1000 <= Decode(read).x <= 1000 && -1000 <= Decode(read).y <= 1000
  {
  }

  /** x depends only on the x byte and the x flags (bits 4 and 6), y only on
      the y byte and the y flags (bits 5 and 7). */
  lemma DecodeAxesIndependent(p: Packet, q: Packet)
    ensures p.dx == q.dx && (Flag(p.flags, 4) <==> Flag(q.flags, 4)) && (Flag(p.flags, 6) <==> Flag(q.flags, 6))
      ==> Decode(Some(p)).x == Decode(Some(q)).x
    ensures p.dy == q.dy && (Flag(p.flags, 5) <==> Flag(q.flags, 5)) && (Flag(p.flags, 7) <==> Flag(q.flags, 7))
      ==> Decode(Some(p)).y == Decode(Some(q)).y
  {
  }

  /** The protocol's reading of one axis: the byte and the sign bit form a
      9-bit two's complement number; overflow still reports 1000. */
  function Ps2Axis(magnitude: Byte, overflow: bool, negative: bool): int
  {
    if overflow then (if negative then -1000 else 1000)
    else if negative then magnitude - 256 else magnitude
  }

  /** The packet bits of a movement in [-256, 255]: the low byte and the
      sign bit of its 9-bit two's complement form. */
  function Encode9(v: int): (Byte, bool)
    requires -256 <= v < 256
  {
    if v < 0 then (v + 256, true) else (v, false)
  }

  /** Every movement the protocol can carry is read back as itself, and
      every byte and sign bit without overflow is the encoding of the value
      read from them. */
  lemma Ps2RoundTrip(v: int, magnitude: Byte, negative: bool)
    requires -256 <= v < 256
    ensures Ps2Axis(Encode9(v).0, false, Encode9(v).1) == v
    ensures var r := Ps2Axis(magnitude, false, negative);
      -256 <= r < 256 && Encode9(r) == (magnitude, negative)
  {
  }

  /** A movement of -1, sent as the byte 0xFF with the sign bit set, reads
      as -255 in getSpeed's decoding. */
  lemma SignMagnitudeMisreads()
    ensures Encode9(-1) == (0xFF, true)
    ensures Decode(Some(Packet(0x18, 0xFF, 0x00))).x == -255
    ensures Ps2Axis(0xFF, false, true) == -1
  {
  }
}
