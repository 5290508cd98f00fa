// A hobby servo (or speed controller) on one PCA9685 channel
// (src/servo.cpp). The constructor orders the two end positions so that
// lo <= hi and remembers whether the direction must be inverted;
// setDirection maps a direction in [-100, 100] linearly onto [lo, hi] and
// sends the clamped value with one setPin call. The ghost log `directions`
// records every setDirection argument.
//
// The scaling is done in the source in double precision; here it is exact
// rational arithmetic, (lo + hi) * (e + 100) / 200, truncated toward zero
// as the conversion to uint16_t does.

module Servos {
  import opened I2c
  import opened Wrappers
  import opened Pca9685

  type Word = w: int | 0 <= w < 0x1_0000

  /** The prescale setPWMFreq(60) writes: floor(25e6 / 4096 / (60 * 0.9)
      - 1 + 0.5), evaluated in single precision by the driver. */
  const PRESCALE_60HZ: bv8 := 112

  /** C's conversion of a quotient to an integer: toward zero. The result
      is the multiple of d nearest n on the side of 0. */
  function TruncDiv(n: int, d: int): (q: int)
    requires d > 0
    ensures n >= 0 ==> 0 <= q && q * d <= n < q * d + d
    ensures n < 0 ==> q <= 0 && q * d - d < n <= q * d
  {
    DivBounds(if n >= 0 then n else -n, d);
    if n >= 0 then n / d else -((-n) / d)
  }

  /** Euclidean division of a natural number brackets it by multiples of d. */
  lemma DivBounds(m: nat, d: int)
    requires d > 0
    ensures 0 <= m / d && (m / d) * d <= m < (m / d) * d + d
  {
    var q, r := m / d, m % d;
    assert m == d * q + r && 0 <= r < d;
    assert d * q == q * d;
  }

  /** The direction after the inversion setDirection applies. */
  function Effective(direction: int, inverted: bool): int
  {
    if inverted then -direction else direction
  }

  /** Numerator of the unclamped servo value (lo + hi) / 200 * (e + 100). */
  function Scaled(lo: Word, hi: Word, e: int): int
  {
    (lo + hi) * (e + 100)
  }

  /** std::max(lo, std::min(hi, x)). */
  function Clamp(lo: int, hi: int, x: int): int
  {
    var m := if x < hi then x else hi;
    if lo < m then m else lo
  }

  /** The value setDirection sends for effective direction e, with the
      scaled value saturating at the ends of [lo, hi] wherever it falls
      outside. */
  function Value(lo: Word, hi: Word, e: int): (v: Word)
    requires lo <= hi
    ensures lo <= v <= hi
  {
    Clamp(lo, hi, TruncDiv(Scaled(lo, hi, e), 200))
  }

  /** The value as the source computes it: the double is converted to
      uint16_t before min and max see it, which is undefined behaviour
      unless -1 < x < 65536; None marks that case. */
  function ValueAsWritten(lo: Word, hi: Word, e: int): Option<int>
  {
    var n := Scaled(lo, hi, e);
    if -200 < n < 65536 * 200 then Some(Clamp(lo, hi, TruncDiv(n, 200))) else None
  }

  /** Wherever the source's conversion is defined it agrees with Value. */
  lemma AsWrittenAgrees(lo: Word, hi: Word, e: int)
    requires lo <= hi
    ensures ValueAsWritten(lo, hi, e).Some? ==> ValueAsWritten(lo, hi, e).value == Value(lo, hi, e)
  {
  }

  /** The conversion is undefined for every effective direction below -100
      once lo + hi >= 200 (any servo whose pulse range reaches 100 ticks):
      the motor's brake command -1000 and the robot's steering command 120
      on the inverted steering servo configured with 460 and 280
      (src/Robot.cpp:23-24) both reach it. */
  lemma AsWrittenUndefined(lo: Word, hi: Word, e: int)
    requires 200 <= lo + hi && e < -100
    ensures ValueAsWritten(lo, hi, e) == None
  {
    assert Scaled(lo, hi, e) <= -(lo + hi) by {
      MulMonotone(lo + hi, e + 100, -1);
    }
  }

  /** The two cases: brake on a non-inverted motor, steering on the
      inverted steering servo. */
  lemma AsWrittenExamples()
    ensures ValueAsWritten(280, 460, Effective(-1000, false)) == None
    ensures ValueAsWritten(280, 460, Effective(120, true)) == None
    ensures Value(280, 460, Effective(-1000, false)) == 280
    ensures Value(280, 460, Effective(120, true)) == 280
  {
  }

  lemma MulMonotone(k: int, a: int, b: int)
    requires k >= 0 && a <= b
    ensures k * a <= k * b
  {
  }

  lemma MulMonotoneIf(k: int, a: int, b: int)
    ensures k >= 0 && a <= b ==> k * a <= k * b
  {
  }

  lemma TruncDivMonotone(n: int, m: int, d: int)
    requires d > 0 && n <= m
    ensures TruncDiv(n, d) <= TruncDiv(m, d)
  {
    if n < 0 && m >= 0 {
      assert TruncDiv(n, d) <= 0;
    } else if n < 0 {
      DivMonotone(-m, -n, d);
    } else {
      DivMonotone(n, m, d);
    }
  }

  lemma DivMonotone(n: int, m: int, d: int)
    requires d > 0 && 0 <= n <= m
    ensures n / d <= m / d
  {
    var qn, qm := n / d, m / d;
    assert d * qn <= n by {
      assert n == d * qn + n % d && 0 <= n % d;
    }
    assert m < d * (qm + 1) by {
      assert m == d * qm + m % d && m % d < d;
    }
    MulMonotoneIf(d, qm + 1, qn);
  }

  /** Before and after clamping the value is non-decreasing in the
      effective direction. */
  lemma ValueMonotone(lo: Word, hi: Word, e1: int, e2: int)
    requires lo <= hi && e1 <= e2
    ensures TruncDiv(Scaled(lo, hi, e1), 200) <= TruncDiv(Scaled(lo, hi, e2), 200)
    ensures Value(lo, hi, e1) <= Value(lo, hi, e2)
  {
    MulMonotone(lo + hi, e1 + 100, e2 + 100);
    TruncDivMonotone(Scaled(lo, hi, e1), Scaled(lo, hi, e2), 200);
  }

  /** Direction 0 is the midpoint of the range; -100 and below reach lo, 100
      and above reach hi. */
  lemma ValueLandmarks(lo: Word, hi: Word, e: int)
    requires lo <= hi
    ensures Value(lo, hi, 0) == (lo + hi) / 2
    ensures e <= -100 ==> Value(lo, hi, e) == lo
    ensures e >= 100 ==> Value(lo, hi, e) == hi
  {
    if e <= -100 {
      MulMonotone(lo + hi, e + 100, 0);
    }
    if e >= 100 {
      MulMonotone(lo + hi, 200, e + 100);
      DivMonotone(200 * (lo + hi), Scaled(lo, hi, e), 200);
    }
  }

  /** On an inverted servo a larger direction never raises the value. */
  lemma InvertedMonotone(lo: Word, hi: Word, d1: int, d2: int)
    requires lo <= hi && d1 <= d2
    ensures Value(lo, hi, Effective(d2, true)) <= Value(lo, hi, Effective(d1, true))
  {
    ValueMonotone(lo, hi, -d2, -d1);
  }

  /** The setPin pulse for one setDirection. */
  function DirectionPulse(lo: Word, hi: Word, inverted: bool, direction: int): Pulse
    requires lo <= hi
  {
    PinPulse(Value(lo, hi, Effective(direction, inverted)) as bv16, false)
  }

  /** The register writes of a sequence of setDirection calls. */
  function DirectionWrites(channel: RegAddr, lo: Word, hi: Word, inverted: bool, ds: seq<int>): seq<Write>
    requires lo <= hi
    decreases |ds|
  {
    if ds == [] then []
    else PwmWrites(channel, DirectionPulse(lo, hi, inverted, ds[0]))
         + DirectionWrites(channel, lo, hi, inverted, ds[1..])
  }

  lemma {:induction false} DirectionWritesAppend(channel: RegAddr, lo: Word, hi: Word, inverted: bool, a: seq<int>, b: seq<int>)
    requires lo <= hi
    ensures DirectionWrites(channel, lo, hi, inverted, a + b) ==
      DirectionWrites(channel, lo, hi, inverted, a) + DirectionWrites(channel, lo, hi, inverted, b)
    decreases |a|
  {
    if a == [] {
      assert a + b == b;
    } else {
      assert (a + b)[1..] == a[1..] + b;
      DirectionWritesAppend(channel, lo, hi, inverted, a[1..], b);
    }
  }

  lemma DirectionWritesOne(channel: RegAddr, lo: Word, hi: Word, inverted: bool, d: int)
    requires lo <= hi
    ensures DirectionWrites(channel, lo, hi, inverted, [d]) == PwmWrites(channel, DirectionPulse(lo, hi, inverted, d))
  {
    assert [d][1..] == [];
  }

  class Servo {
    const pwm: PwmDriver
    const channel: RegAddr
    const lo: Word
    const hi: Word
    const inverted: bool
    /** Every setDirection argument, in order. */
    ghost var directions: seq<int>

    ghost predicate Valid()
      reads this, pwm
    {
      pwm.Valid() && lo <= hi
    }

    /** The writes this servo's setDirection calls issue for `ds`. */
    ghost function WritesFor(ds: seq<int>): seq<Write>
    {
      if lo <= hi then DirectionWrites(channel, lo, hi, inverted, ds) else []
    }

    /** Servo::Servo: sets the PWM frequency to 60 Hz, then orders the end
        positions, inverting when maxLeft is not below maxRight. */
    constructor (pwm: PwmDriver, channel: RegAddr, maxLeft: Word, maxRight: Word)
      requires pwm.Valid()
      modifies pwm
      ensures Valid()
      ensures this.pwm == pwm && this.channel == channel
      ensures (lo == maxLeft && hi == maxRight) || (lo == maxRight && hi == maxLeft)
      ensures inverted <==> maxLeft >= maxRight
      ensures directions == []
      ensures pwm.writes == old(pwm.writes) + FreqWrites(old(pwm.regs)[MODE1], PRESCALE_60HZ)
      ensures pwm.base == old(pwm.base)
    {
      this.pwm := pwm;
      this.channel := channel;
      if maxLeft < maxRight {
        lo := maxLeft;
        hi := maxRight;
        inverted := false;
      } else {
        lo := maxRight;
        hi := maxLeft;
        inverted := true;
      }
      directions := [];
      new;
      pwm.SetPwmFreq(PRESCALE_60HZ);
    }

    /** setDirection: exactly one setPin(channel, value, false). */
    method SetDirection(direction: int)
      requires Valid()
      modifies this`directions, pwm
      ensures Valid()
      ensures directions == old(directions) + [direction]
      ensures pwm.writes == old(pwm.writes) + WritesFor([direction])
      ensures pwm.base == old(pwm.base)
    {
      var d := Effective(direction, inverted);
      var value := Value(lo, hi, d) as bv16;
      pwm.SetPin(channel, value, false);
      directions := directions + [direction];
      DirectionWritesOne(channel, lo, hi, inverted, direction);
    }
  }
}
