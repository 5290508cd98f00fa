// The SRF08 ultrasonic range finder (src/srf08.cpp), driven through the
// wiringPi I2C calls and the POSIX close of the descriptor. The bus is
// abstract: `Bus` answers each of these calls, close included, with the
// next of a scripted list of results (-1, the error value of both, once the
// script is used up) and logs the call. A driver object holds the file
// descriptor its setup call returned.

module Srf08 {
  import opened Wrappers

  /** The wiringPi calls the driver makes. */
  datatype BusOp =
    | Setup(addr: int)
    | WriteReg8(fd: int, reg: int, value: int)
    | ReadReg8(fd: int, reg: int)
    | Close(fd: int)

  /** The result of the next call on a script. */
  function Next(script: seq<int>): int
  {
    if script == [] then -1 else script[0]
  }

  /** The script after one call. */
  function Rest(script: seq<int>): (r: seq<int>)
    ensures |r| == if script == [] then 0 else |script| - 1
  {
    if script == [] then [] else script[1..]
  }

  /** The script after n calls. */
  function Drop(script: seq<int>, n: nat): (r: seq<int>)
    ensures |r| == if |script| <= n then 0 else |script| - n
    decreases n
  {
    if n == 0 then script else Drop(Rest(script), n - 1)
  }

  class Bus {
    /** The results of the coming calls (setup, register reads and writes,
        close), in order. */
    var script: seq<int>
    /** Every call, in order. */
    ghost var log: seq<BusOp>

    constructor (script: seq<int>)
      ensures this.script == script && log == []
    {
      this.script := script;
      log := [];
    }

    /** One call: answered by the script, logged. */
    method Call(op: BusOp) returns (r: int)
      modifies this
      ensures r == Next(old(script)) && script == Rest(old(script))
      ensures log == old(log) + [op]
    {
      r := Next(script);
      script := Rest(script);
      log := log + [op];
    }
  }

  /** The light level getLightLevel returns for a read result: 0 for the
      error value, otherwise the result cut to its uint8_t. */
  function LightLevel(val: int): (level: Byte)
    ensures val == -1 ==> level == 0
    ensures 0 <= val < 256 ==> level == val
  {
    if val == -1 then 0 else val % 256
  }

  /** A read result stored in a uint8_t. */
  function Trunc8(val: int): Byte
  {
    val % 256
  }

  /** getRange's range from the high and the low byte: (msb << 8) | lsb. */
  function Combine(msb: Byte, lsb: Byte): (range: int)
    ensures 0 <= range < 0x1_0000
  {
    msb * 256 + lsb
  }

  /** The two bytes of a 16-bit range, high first. */
  function Split(range: int): (Byte, Byte)
    requires 0 <= range < 0x1_0000
  {
    (range / 256, range % 256)
  }

  /** Combine and Split are inverse: every 16-bit range comes back from its
      two bytes and every pair of bytes from its range. */
  lemma CombineSplit(range: int, msb: Byte, lsb: Byte)
    requires 0 <= range < 0x1_0000
    ensures Combine(Split(range).0, Split(range).1) == range
    ensures Split(Combine(msb, lsb)) == (msb, lsb)
  {
  }

  /** The four bytes changeAddress writes to the command register. */
  function AddressBytes(addr: Byte): seq<int>
  {
    [0xA0, 0xAA, 0xA5, addr]
  }

  /** The position of the first error value among the first n results of a
      script, or n when there is none. */
  function FirstFailure(script: seq<int>, n: nat): (k: nat)
    ensures k <= n
    decreases n
  {
    if n == 0 || Next(script) == -1 then 0 else 1 + FirstFailure(Rest(script), n - 1)
  }

  /** The n-th result of a script. */
  function Result(script: seq<int>, n: nat): int
    decreases n
  {
    if n == 0 then Next(script) else Result(Rest(script), n - 1)
  }

  /** FirstFailure is at most n; every result before it is not the error
      value, and the result at it is, unless it is n. */
  lemma {:induction false} FirstFailureMeaning(script: seq<int>, n: nat)
    ensures forall i :: 0 <= i < FirstFailure(script, n) ==> Result(script, i) != -1
    ensures FirstFailure(script, n) < n ==> Result(script, FirstFailure(script, n)) == -1
    decreases n
  {
    if n != 0 && Next(script) != -1 {
      FirstFailureMeaning(Rest(script), n - 1);
      forall i | 0 <= i < FirstFailure(script, n)
        ensures Result(script, i) != -1
      {
        if i > 0 {
          assert Result(script, i) == Result(Rest(script), i - 1);
        }
      }
    }
  }

  /** The writes changeAddress issues on descriptor fd: the address bytes
      up to and including the first one whose write failed. */
  function AddressWrites(fd: int, bytes: seq<int>, script: seq<int>): seq<BusOp>
    decreases |bytes|
  {
    if bytes == [] then []
    else [WriteReg8(fd, 0, bytes[0])]
         + (if Next(script) == -1 then [] else AddressWrites(fd, bytes[1..], Rest(script)))
  }

  /** Exactly the first FirstFailure + 1 bytes are written, in order, or all
      of them when none fails. */
  lemma {:induction false} AddressWritesPrefix(fd: int, bytes: seq<int>, script: seq<int>)
    ensures var k := FirstFailure(script, |bytes|);
      var n := if k < |bytes| then k + 1 else k;
      |AddressWrites(fd, bytes, script)| == n &&
      forall i :: 0 <= i < n ==> AddressWrites(fd, bytes, script)[i] == WriteReg8(fd, 0, bytes[i])
    decreases |bytes|
  {
    if bytes != [] && Next(script) != -1 {
      AddressWritesPrefix(fd, bytes[1..], Rest(script));
    }
  }

  /** changeAddress's four writes, unrolled: whether all succeed, which of
      them are issued after a log prefix `log`, and the result of the setup
      call after them. */
  lemma AddressSteps(fd: int, addr: Byte, s: seq<int>, log: seq<BusOp>)
    ensures FirstFailure(s, 4) == 4 <==>
      Next(s) != -1 && Next(Rest(s)) != -1 && Next(Rest(Rest(s))) != -1 && Next(Rest(Rest(Rest(s)))) != -1
    ensures var w := log + AddressWrites(fd, AddressBytes(addr), s);
      var l1 := log + [WriteReg8(fd, 0, 0xA0)];
      var l2 := l1 + [WriteReg8(fd, 0, 0xAA)];
      var l3 := l2 + [WriteReg8(fd, 0, 0xA5)];
      var l4 := l3 + [WriteReg8(fd, 0, addr)];
      if Next(s) == -1 then w == l1
      else if Next(Rest(s)) == -1 then w == l2
      else if Next(Rest(Rest(s))) == -1 then w == l3
      else if Next(Rest(Rest(Rest(s)))) == -1 then w == l4
      else w + [Close(fd), Setup(addr / 2)] == l4 + [Close(fd)] + [Setup(addr / 2)]
    ensures Result(s, 5) == Next(Rest(Rest(Rest(Rest(Rest(s))))))
  {
    var s1 := Rest(s);
    var s2 := Rest(s1);
    var s3 := Rest(s2);
    assert FirstFailure(s, 4) == 4 <==> Next(s) != -1 && FirstFailure(s1, 3) == 3;
    assert FirstFailure(s1, 3) == 3 <==> Next(s1) != -1 && FirstFailure(s2, 2) == 2;
    assert FirstFailure(s2, 2) == 2 <==> Next(s2) != -1 && FirstFailure(s3, 1) == 1;
    assert FirstFailure(s3, 1) == 1 <==> Next(s3) != -1;
    var b := AddressBytes(addr);
    var b1, b2, b3 := b[1..], b[1..][1..], b[1..][1..][1..];
    assert b1 == [0xAA, 0xA5, addr] && b2 == [0xA5, addr] && b3 == [addr] && b3[1..] == [];
    var a3 := AddressWrites(fd, b3, s3);
    assert AddressWrites(fd, b3[1..], Rest(s3)) == [];
    assert [WriteReg8(fd, 0, addr)] + [] == [WriteReg8(fd, 0, addr)];
    assert a3 == [WriteReg8(fd, 0, addr)];
    var a2 := AddressWrites(fd, b2, s2);
    assert a2 == [WriteReg8(fd, 0, 0xA5)] + (if Next(s2) == -1 then [] else a3);
    var a1 := AddressWrites(fd, b1, s1);
    assert a1 == [WriteReg8(fd, 0, 0xAA)] + (if Next(s1) == -1 then [] else a2);
    assert AddressWrites(fd, b, s) == [WriteReg8(fd, 0, 0xA0)] + (if Next(s) == -1 then [] else a1);
    var w := log + AddressWrites(fd, b, s);
    if Next(s) != -1 && Next(s1) != -1 && Next(s2) != -1 {
      assert w == log + [WriteReg8(fd, 0, 0xA0)] + [WriteReg8(fd, 0, 0xAA)] + [WriteReg8(fd, 0, 0xA5)] + [WriteReg8(fd, 0, addr)];
    }
    assert Result(s, 5) == Result(s1, 4) == Result(s2, 3) == Result(s3, 2) == Result(Rest(s3), 1);
  }

  class Srf08 {
    const bus: Bus
    /** m_Fd: the descriptor of the device on the bus. */
    var fd: int

    /** The constructor opens the device at the given address. */
    constructor (bus: Bus, addr: Byte)
      modifies bus
      ensures this.bus == bus
      ensures fd == Next(old(bus.script)) && bus.script == Rest(old(bus.script))
      ensures bus.log == old(bus.log) + [Setup(addr)]
    {
      this.bus := bus;
      new;
      fd := bus.Call(Setup(addr));
    }

    /** initiateRanging: command 0x51 (range in centimetres); true exactly
        when the write returned 0. */
    method InitiateRanging() returns (ok: bool)
      modifies bus
      ensures ok <==> Next(old(bus.script)) == 0
      ensures bus.script == Rest(old(bus.script))
      ensures bus.log == old(bus.log) + [WriteReg8(fd, 0, 0x51)]
    {
      var r := bus.Call(WriteReg8(fd, 0, 0x51));
      if r != 0 {
        return false;
      }
      return true;
    }

    /** rangingComplete: the device answers a read of register 0 only once
        the ranging is over. */
    method RangingComplete() returns (done: bool)
      modifies bus
      ensures done <==> Next(old(bus.script)) != -1
      ensures bus.script == Rest(old(bus.script))
      ensures bus.log == old(bus.log) + [ReadReg8(fd, 0)]
    {
      var r := bus.Call(ReadReg8(fd, 0));
      done := r != -1;
    }

    /** getLightLevel: register 1, 0 on a failed read. */
    method GetLightLevel() returns (level: Byte)
      modifies bus
      ensures level == LightLevel(Next(old(bus.script)))
      ensures bus.script == Rest(old(bus.script))
      ensures bus.log == old(bus.log) + [ReadReg8(fd, 1)]
    {
      var val := bus.Call(ReadReg8(fd, 1));
      level := LightLevel(val);
    }

    /** getRange: the high byte from register 2, the low byte from register
        3, each read stored in a uint8_t. */
    method GetRange() returns (range: int)
      modifies bus
      ensures range == Combine(Trunc8(Result(old(bus.script), 0)), Trunc8(Result(old(bus.script), 1)))
      ensures bus.script == Rest(Rest(old(bus.script)))
      ensures bus.log == old(bus.log) + [ReadReg8(fd, 2), ReadReg8(fd, 3)]
    {
      var r2 := bus.Call(ReadReg8(fd, 2));
      var msb: Byte := r2 % 256;
      var r3 := bus.Call(ReadReg8(fd, 3));
      var lsb: Byte := r3 % 256;
      range := Combine(msb, lsb);
    }

    /** changeAddress: the four command-register writes, stopping with false
        at the first that returns -1; when all succeed, the descriptor is
        closed and the device reopened at addr / 2, and the result is true. */
    method ChangeAddress(addr: Byte) returns (ok: bool)
      modifies this`fd, bus
      ensures ok <==> FirstFailure(old(bus.script), 4) == 4
      ensures bus.log == old(bus.log) + AddressWrites(old(fd), AddressBytes(addr), old(bus.script))
        + (if ok then [Close(old(fd)), Setup(addr / 2)] else [])
      ensures fd == if ok then Result(old(bus.script), 5) else old(fd)
      ensures bus.script == Drop(old(bus.script), if ok then 6 else FirstFailure(old(bus.script), 4) + 1)
    {
      AddressSteps(fd, addr, bus.script, bus.log);
      var r := bus.Call(WriteReg8(fd, 0, 0xA0));
      if r == -1 {
        return false;
      }
      r := bus.Call(WriteReg8(fd, 0, 0xAA));
      if r == -1 {
        return false;
      }
      r := bus.Call(WriteReg8(fd, 0, 0xA5));
      if r == -1 {
        return false;
      }
      r := bus.Call(WriteReg8(fd, 0, addr));
      if r == -1 {
        return false;
      }
      var _ := bus.Call(Close(fd));
      fd := bus.Call(Setup(addr / 2));
      return true;
    }
  }
}
