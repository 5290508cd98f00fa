// One pass of the control loop of src/Robot.cpp (Robot::run): sense,
// decide, actuate. The loop's local variables are the record `State`; a
// pass reads the sensors' answers from `Inputs` and returns the commands it
// sends in `Outputs`. The sensor set is the configuration `Config`: the
// angles of the ultrasonic sensors and of the analog sensors in ascending
// order (the order std::map iterates in), whether a mouse speed sensor is
// present, and the configured minimum speed.
//
// Readings are kept per angle in ring buffers of capacity 10
// (boost::circular_buffer); an angle without a buffer reads as an empty one,
// where the source dereferences the end iterator (see FrontAsWritten).

module Robot {
  import opened Wrappers

  const CAPACITY: nat := 10

  /** The angles the decision reads. */
  const FRONT: int := 0
  const RIGHT: int := 45
  const RIGHT_SOUND: int := 90
  const LEFT: int := 135
  const LEFT_SOUND: int := 270

  const HALF_SECOND: int := 500000000
  const SECOND: int := 1000000000

  /** The stall counter's value after the mouse saw movement. */
  const MOVING: int := 10

  // ---- ring buffers ----

  /** push_back on a circular buffer of capacity 10: append, dropping the
      oldest reading when it is full. */
  function Push(b: seq<int>, x: int): seq<int>
  {
    if |b| < CAPACITY then b + [x] else b[1..] + [x]
  }

  /** The last n elements of s (all of them when there are fewer). */
  function LastN(s: seq<int>, n: nat): (r: seq<int>)
    ensures |r| == if |s| <= n then |s| else n
  {
    if |s| <= n then s else s[|s| - n..]
  }

  /** Several pushes in a row. */
  function PushAll(b: seq<int>, xs: seq<int>): seq<int>
    decreases |xs|
  {
    if xs == [] then b else PushAll(Push(b, xs[0]), xs[1..])
  }

  /** One push keeps a buffer within capacity and its newest reading last:
      the buffer is the last 10 readings of what it held and x. */
  lemma PushIsLastN(b: seq<int>, x: int)
    requires |b| <= CAPACITY
    ensures Push(b, x) == LastN(b + [x], CAPACITY)
    ensures |Push(b, x)| <= CAPACITY && Push(b, x)[|Push(b, x)| - 1] == x
  {
    if |b| == CAPACITY {
      assert (b + [x])[1..] == b[1..] + [x];
    }
  }

  lemma LastNAppend(s: seq<int>, t: seq<int>, n: nat)
    ensures LastN(LastN(s, n) + t, n) == LastN(s + t, n)
  {
    if |s| > n {
      var p := s[..|s| - n];
      var q := s[|s| - n..];
      assert s + t == p + (q + t);
      assert (p + (q + t))[|p| + (|q + t| - n)..] == (q + t)[|q + t| - n..];
    }
  }

  /** Whatever is pushed, a buffer holds the last 10 readings of its
      history, newest last. */
  lemma {:induction false} PushAllIsLastN(b: seq<int>, xs: seq<int>)
    requires |b| <= CAPACITY
    ensures PushAll(b, xs) == LastN(b + xs, CAPACITY)
    decreases |xs|
  {
    if xs == [] {
      assert b + xs == b;
    } else {
      PushIsLastN(b, xs[0]);
      PushAllIsLastN(Push(b, xs[0]), xs[1..]);
      LastNAppend(b + [xs[0]], xs[1..], CAPACITY);
      assert b + [xs[0]] + xs[1..] == b + xs;
    }
  }

  /** The buffer of an angle; an angle nobody has recorded reads as empty. */
  function Buffer(d: map<int, seq<int>>, k: int): seq<int>
  {
    if k in d then d[k] else []
  }

  /** Find or create the buffer of angle k and push x. */
  function Record(d: map<int, seq<int>>, k: int, x: int): map<int, seq<int>>
  {
    d[k := Push(Buffer(d, k), x)]
  }

  /** Every buffer is within capacity. */
  ghost predicate Bounded(d: map<int, seq<int>>)
  {
    forall k :: k in d ==> |d[k]| <= CAPACITY
  }

  lemma RecordBounded(d: map<int, seq<int>>, k: int, x: int)
    requires Bounded(d)
    ensures Bounded(Record(d, k, x))
    ensures Buffer(Record(d, k, x), k) == Push(Buffer(d, k), x)
    ensures forall j :: j != k ==> Buffer(Record(d, k, x), j) == Buffer(d, j)
  {
    PushIsLastN(Buffer(d, k), x);
  }

  // ---- sensing ----

  /** Sensor angles as std::map iterates them: strictly ascending. */
  ghost predicate Ascending(keys: seq<int>)
  {
    forall i, j :: 0 <= i < j < |keys| ==> keys[i] < keys[j]
  }

  /** One ultrasonic sensor: None while its ranging is not complete,
      otherwise the range it reports. */
  function SonarOne(d: map<int, seq<int>>, k: int, r: Option<int>): map<int, seq<int>>
  {
    if r.Some? then Record(d, k, r.value) else d
  }

  /** The ultrasonic loop's effect on the buffers. */
  function SonarSense(d: map<int, seq<int>>, keys: seq<int>, results: seq<Option<int>>): map<int, seq<int>>
    requires |keys| == |results|
    decreases |keys|
  {
    if keys == [] then d else SonarSense(SonarOne(d, keys[0], results[0]), keys[1..], results[1..])
  }

  /** The ultrasonic sensors the loop re-arms, in the loop's order. */
  function SonarArmed(keys: seq<int>, results: seq<Option<int>>): seq<int>
    requires |keys| == |results|
    decreases |keys|
  {
    if keys == [] then []
    else (if results[0].Some? then [keys[0]] else []) + SonarArmed(keys[1..], results[1..])
  }

  /** An angle outside the loop's keys keeps its buffer. */
  lemma {:induction false} SonarUntouched(d: map<int, seq<int>>, keys: seq<int>, results: seq<Option<int>>, k: int)
    requires |keys| == |results| && k !in keys
    ensures Buffer(SonarSense(d, keys, results), k) == Buffer(d, k)
    ensures k in SonarSense(d, keys, results) <==> k in d
    decreases |keys|
  {
    if keys != [] {
      assert k != keys[0] && k !in keys[1..];
      SonarUntouched(SonarOne(d, keys[0], results[0]), keys[1..], results[1..], k);
    }
  }

  /** After the ultrasonic loop an angle has a buffer exactly when it had
      one before or some sensor at that angle completed a ranging. */
  lemma {:induction false} SonarDomain(d: map<int, seq<int>>, keys: seq<int>, results: seq<Option<int>>, k: int)
    requires |keys| == |results|
    ensures k in SonarSense(d, keys, results) <==>
      k in d || exists i :: 0 <= i < |keys| && keys[i] == k && results[i].Some?
    decreases |keys|
  {
    if keys != [] {
      var d1 := SonarOne(d, keys[0], results[0]);
      SonarDomain(d1, keys[1..], results[1..], k);
      if exists i :: 0 <= i < |keys| - 1 && keys[1..][i] == k && results[1..][i].Some? {
        var i :| 0 <= i < |keys| - 1 && keys[1..][i] == k && results[1..][i].Some?;
        assert keys[i + 1] == k && results[i + 1].Some?;
      }
      if exists i :: 0 <= i < |keys| && keys[i] == k && results[i].Some? {
        var i :| 0 <= i < |keys| && keys[i] == k && results[i].Some?;
        if i > 0 {
          assert keys[1..][i - 1] == k && results[1..][i - 1].Some?;
        }
      }
    }
  }

  /** Each ultrasonic sensor whose ranging is complete contributes exactly
      one reading to its own buffer; the others leave theirs as they were. */
  lemma {:induction false} SonarSample(d: map<int, seq<int>>, keys: seq<int>, results: seq<Option<int>>, j: int)
    requires |keys| == |results| && Ascending(keys) && 0 <= j < |keys|
    ensures Buffer(SonarSense(d, keys, results), keys[j]) ==
      if results[j].Some? then Push(Buffer(d, keys[j]), results[j].value) else Buffer(d, keys[j])
    decreases |keys|
  {
    var d1 := SonarOne(d, keys[0], results[0]);
    if j == 0 {
      assert keys[0] !in keys[1..];
      SonarUntouched(d1, keys[1..], results[1..], keys[0]);
    } else {
      assert Buffer(d1, keys[j]) == Buffer(d, keys[j]);
      assert keys[1..][j - 1] == keys[j] && results[1..][j - 1] == results[j];
      SonarSample(d1, keys[1..], results[1..], j - 1);
    }
  }

  /** A sensor is re-armed exactly when its ranging was complete. */
  lemma {:induction false} SonarArmedMeaning(keys: seq<int>, results: seq<Option<int>>, k: int)
    requires |keys| == |results|
    ensures k in SonarArmed(keys, results) <==> exists j :: 0 <= j < |keys| && keys[j] == k && results[j].Some?
    decreases |keys|
  {
    if keys != [] {
      SonarArmedMeaning(keys[1..], results[1..], k);
      if k in SonarArmed(keys, results) && !(results[0].Some? && keys[0] == k) {
        var j :| 0 <= j < |keys| - 1 && keys[1..][j] == k && results[1..][j].Some?;
        assert keys[j + 1] == k && results[j + 1].Some?;
      }
      if exists j :: 0 <= j < |keys| && keys[j] == k && results[j].Some? {
        var j :| 0 <= j < |keys| && keys[j] == k && results[j].Some?;
        if j > 0 {
          assert keys[1..][j - 1] == k && results[1..][j - 1].Some?;
        }
      }
    }
  }

  lemma {:induction false} SonarBounded(d: map<int, seq<int>>, keys: seq<int>, results: seq<Option<int>>)
    requires |keys| == |results| && Bounded(d)
    ensures Bounded(SonarSense(d, keys, results))
    decreases |keys|
  {
    if keys != [] {
      if results[0].Some? {
        RecordBounded(d, keys[0], results[0].value);
      }
      SonarBounded(SonarOne(d, keys[0], results[0]), keys[1..], results[1..]);
    }
  }

  /** The analog round-robin cursor: End before the first pass, then the
      index of the sensor being read. */
  datatype Cursor = End | At(index: nat)

  /** The result of the analog branch. */
  datatype AnalogStep = AnalogStep(distances: map<int, seq<int>>, cursor: Cursor, armed: Option<int>)

  /** The analog branch. The first pass only arms the lowest angle; later
      passes read the cursor's sensor, and only when its ranging is complete
      (r is Some) record it, move the cursor to the next angle, wrapping to
      the lowest, and arm that sensor. */
  function AnalogSense(d: map<int, seq<int>>, c: Cursor, keys: seq<int>, r: Option<int>): (a: AnalogStep)
    requires |keys| > 0 && (c.At? ==> c.index < |keys|)
    ensures a.cursor.At? && a.cursor.index < |keys|
  {
    match c
    case End => AnalogStep(d, At(0), Some(keys[0]))
    case At(i) =>
      if r.None? then AnalogStep(d, c, None)
      else
        var next := if i + 1 == |keys| then 0 else i + 1;
        AnalogStep(Record(d, keys[i], r.value), At(next), Some(keys[next]))
  }

  /** The round-robin visits the sensors in ascending order: the first pass
      arms the lowest angle, a completed reading arms the next higher angle
      or, after the highest, the lowest again, and an incomplete one changes
      nothing. */
  lemma AnalogOrder(d: map<int, seq<int>>, c: Cursor, keys: seq<int>, r: Option<int>)
    requires |keys| > 0 && (c.At? ==> c.index < |keys|) && Ascending(keys)
    ensures var a := AnalogSense(d, c, keys, r);
      (c.End? ==> a.distances == d && a.armed == Some(keys[0]) && forall k :: k in keys ==> keys[0] <= k) &&
      (c.At? && r.None? ==> a == AnalogStep(d, c, None)) &&
      (c.At? && r.Some? ==>
        a.armed == Some(keys[a.cursor.index]) &&
        Buffer(a.distances, keys[c.index]) == Push(Buffer(d, keys[c.index]), r.value) &&
        (forall k :: k != keys[c.index] ==> Buffer(a.distances, k) == Buffer(d, k)) &&
        (if c.index + 1 < |keys| then keys[c.index] < keys[a.cursor.index] &&
           forall k :: k in keys && keys[c.index] < k ==> keys[a.cursor.index] <= k
         else a.cursor.index == 0))
  {
    if c.End? {
      forall k | k in keys
        ensures keys[0] <= k
      {
        var j :| 0 <= j < |keys| && keys[j] == k;
      }
    } else if r.Some? {
      var i := c.index;
      assert Record(d, keys[i], r.value) == AnalogSense(d, c, keys, r).distances;
      forall k | k in keys && keys[i] < k && i + 1 < |keys|
        ensures keys[i + 1] <= k
      {
        var j :| 0 <= j < |keys| && keys[j] == k;
        assert i < j;
      }
    }
  }

  // ---- deciding ----

  /** The latest reading of a non-empty buffer. */
  function Latest(b: seq<int>): int
    requires |b| > 0
  {
    b[|b| - 1]
  }

  datatype Front = Front(forward: bool, multiplier: int)

  /** The front rule, by successive reassignment as in the source. */
  function FrontRule(front: seq<int>): Front
  {
    if front == [] then Front(true, 1)
    else
      var v := Latest(front);
      var m1 := if v < 80 then 2 else 1;
      var m2 := if v < 50 then 4 else m1;
      if v < 30 then Front(false, -2) else Front(true, m2)
  }

  /** The front rule's table: no reading means forward with multiplier 1;
      otherwise the latest front reading picks the row. */
  lemma FrontTable(front: seq<int>)
    ensures front == [] ==> FrontRule(front) == Front(true, 1)
    ensures front != [] ==>
      var v := Latest(front);
      FrontRule(front) ==
        if v < 30 then Front(false, -2)
        else if v < 50 then Front(true, 4)
        else if v < 80 then Front(true, 2)
        else Front(true, 1)
    ensures FrontRule(front).forward <==> FrontRule(front).multiplier > 0
    ensures FrontRule(front).multiplier in {1, 2, 4, -2}
  {
  }

  /** The source's front lookup: distances.find(0) dereferenced without a
      check, undefined (None) when angle 0 has no buffer yet. */
  function FrontAsWritten(d: map<int, seq<int>>): Option<Front>
  {
    if FRONT in d then Some(FrontRule(d[FRONT])) else None
  }


  /** The distance used for one side: the sound (side-looking) sensor's
      reading replaces the diagonal one when it is below `limit`. */
  function Side(diagonal: seq<int>, sound: seq<int>, limit: int): int
    requires |diagonal| > 0 && |sound| > 0
  {
    if Latest(sound) < limit then Latest(sound) else Latest(diagonal)
  }

  /** The steering base before the multiplier, given left, right and the
      multiplier. */
  function SteerBase(left: int, right: int, m: int): int
  {
    var diff := if left - right < 0 then right - left else left - right;
    if diff > 20 || m != 1 then
      if left > right + 20 then (if right < 50 || m != 1 then -60 else 0)
      else (if left < 70 || m != 1 then 60 else 0)
    else 0
  }

  /** All four side buffers hold a reading. */
  predicate SidesPresent(d: map<int, seq<int>>)
  {
    |Buffer(d, LEFT)| > 0 && |Buffer(d, RIGHT)| > 0 && |Buffer(d, LEFT_SOUND)| > 0 && |Buffer(d, RIGHT_SOUND)| > 0
  }

  /** The steering command: the base times the front multiplier. */
  function Steer(d: map<int, seq<int>>, m: int): int
  {
    if SidesPresent(d) then
      var right := Side(Buffer(d, RIGHT), Buffer(d, RIGHT_SOUND), 25);
      var left := Side(Buffer(d, LEFT), Buffer(d, LEFT_SOUND), 20);
      SteerBase(left, right, m) * m
    else 0
  }

  /** The source's side test: the four finds dereferenced in the order of
      the && chain (135, 45, 270, 90), each undefined (None) when its angle
      has no buffer yet and the chain has not stopped at an empty buffer. */
  function SidesAsWritten(d: map<int, seq<int>>): Option<bool>
  {
    if LEFT !in d then None else if d[LEFT] == [] then Some(false)
    else if RIGHT !in d then None else if d[RIGHT] == [] then Some(false)
    else if LEFT_SOUND !in d then None else if d[LEFT_SOUND] == [] then Some(false)
    else if RIGHT_SOUND !in d then None else Some(d[RIGHT_SOUND] != [])
  }

  /** The lookups are undefined on any pass where angle 0, or a side angle
      the && chain reaches, has no buffer after sensing: with no buffer at
      all, and with only the 135 degree buffer. Reading an absent angle as an
      empty buffer gives the no-reading row and no steering. Where the
      source's lookups are defined they agree with that reading. */
  lemma LookupsAsWritten(d: map<int, seq<int>>)
    ensures FrontAsWritten(map[]) == None && SidesAsWritten(map[]) == None
    ensures SidesAsWritten(map[LEFT := [40]]) == None
    ensures FrontRule(Buffer(map[], FRONT)) == Front(true, 1) && !SidesPresent(map[])
    ensures FrontAsWritten(d).Some? ==> FrontAsWritten(d).value == FrontRule(Buffer(d, FRONT))
    ensures SidesAsWritten(d).Some? ==> (SidesAsWritten(d).value <==> SidesPresent(d))
  {
  }

  /** On the first pass the analog branch only arms, so the front lookup is
      undefined exactly when no ultrasonic sensor at angle 0 completed its
      ranging. */
  lemma FirstPassFront(cfg: Config, inp: Inputs)
    requires |cfg.analog| > 0 && |inp.ultrasonic| == |cfg.ultrasonic|
    ensures var d := AnalogSense(SonarSense(Initial(cfg).distances, cfg.ultrasonic, inp.ultrasonic),
                                 Initial(cfg).cursor, cfg.analog, inp.analog).distances;
      FrontAsWritten(d).None? <==>
        forall i :: 0 <= i < |cfg.ultrasonic| && cfg.ultrasonic[i] == FRONT ==> inp.ultrasonic[i].None?
  {
    SonarDomain(map[], cfg.ultrasonic, inp.ultrasonic, FRONT);
  }

  /** The steering commands the loop can produce. */
  predicate IsDirection(x: int)
  {
    x in {0, 60, -60, 120, -120, 240, -240}
  }

  /** -60 (left) only when left is more than 20 beyond right, 60 only when
      it is not; with multiplier 1, a difference of at most 20 gives 0, and
      a larger difference steers only toward a near side: -60 exactly when
      right is below 50, 60 exactly when left is below 70. */
  lemma SteerBaseMeaning(left: int, right: int, m: int)
    ensures SteerBase(left, right, m) in {0, 60, -60}
    ensures SteerBase(left, right, m) == -60 ==> left > right + 20
    ensures SteerBase(left, right, m) == 60 ==> left <= right + 20
    ensures m == 1 && -20 <= left - right <= 20 ==> SteerBase(left, right, m) == 0
    ensures m != 1 ==> SteerBase(left, right, m) == (if left > right + 20 then -60 else 60)
    ensures m == 1 && left > right + 20 ==> (SteerBase(left, right, m) == -60 <==> right < 50)
    ensures m == 1 && left < right - 20 ==> (SteerBase(left, right, m) == 60 <==> left < 70)
  {
  }

  /** Steering is 0 unless all four side buffers hold a reading; with a
      front multiplier it is one of 0, +-60, +-120, +-240; the replacement
      readings take effect below 25 on the right and below 20 on the left. */
  lemma SteerValues(d: map<int, seq<int>>, front: seq<int>)
    ensures var m := FrontRule(front).multiplier;
      (!SidesPresent(d) ==> Steer(d, m) == 0) && IsDirection(Steer(d, m))
    ensures SidesPresent(d) ==>
      (Side(Buffer(d, RIGHT), Buffer(d, RIGHT_SOUND), 25) ==
         if Latest(Buffer(d, RIGHT_SOUND)) < 25 then Latest(Buffer(d, RIGHT_SOUND)) else Latest(Buffer(d, RIGHT))) &&
      (Side(Buffer(d, LEFT), Buffer(d, LEFT_SOUND), 20) ==
         if Latest(Buffer(d, LEFT_SOUND)) < 20 then Latest(Buffer(d, LEFT_SOUND)) else Latest(Buffer(d, LEFT)))
  {
    var m := FrontRule(front).multiplier;
    FrontTable(front);
    if SidesPresent(d) {
      var right := Side(Buffer(d, RIGHT), Buffer(d, RIGHT_SOUND), 25);
      var left := Side(Buffer(d, LEFT), Buffer(d, LEFT_SOUND), 20);
      SteerBaseMeaning(left, right, m);
    }
  }

  // ---- mouse and speed ramp ----

  /** The stall counter update of a pass: counter and the new `moving`. */
  datatype Poll = Poll(counter: int, moving: int)

  /** `readSpeedCounter++ == 5`: the mouse is polled when the counter is 5,
      and the counter then restarts at 0. */
  function PollMouse(counter: int, moving: int, hasMouse: bool, mouseY: int, forward: bool): Poll
  {
    if counter == 5 then
      var m :=
        if !hasMouse then MOVING
        else if (forward && mouseY < -50) || (!forward && mouseY > 50) then MOVING
        else if moving != 0 then moving - 1
        else moving;
      Poll(0, m)
    else Poll(counter + 1, moving)
  }

  /** The stall counter stays in [0, 10]; it changes only on a polling pass;
      without a mouse it is then set to 10; with one it is 10 after movement
      in the driving direction, otherwise counts down to 0. */
  lemma PollMeaning(counter: int, moving: int, hasMouse: bool, mouseY: int, forward: bool)
    requires 0 <= moving <= MOVING
    ensures var p := PollMouse(counter, moving, hasMouse, mouseY, forward);
      0 <= p.moving <= MOVING &&
      (counter != 5 ==> p.moving == moving && p.counter == counter + 1) &&
      (counter == 5 ==> p.counter == 0) &&
      (counter == 5 && !hasMouse ==> p.moving == MOVING) &&
      (counter == 5 && hasMouse ==>
        p.moving == if (forward && mouseY < -50) || (!forward && mouseY > 50) then MOVING
                    else if moving > 0 then moving - 1 else 0)
  {
  }

  /** The counter after n passes from 0. */
  function CounterAfter(n: nat): int
  {
    if n == 0 then 0 else PollMouse(CounterAfter(n - 1), 0, false, 0, true).counter
  }

  /** The counter runs 0, 1, .., 5, 0, ..: pass n (from 0) polls exactly
      when n % 6 == 5, that is, every 6th pass. */
  lemma {:induction false} PollsEverySixth(n: nat)
    ensures CounterAfter(n) == n % 6
    ensures CounterAfter(n) == 5 <==> n % 6 == 5
  {
    if n > 0 {
      PollsEverySixth(n - 1);
    }
  }

  /** A clock_gettime(CLOCK_MONOTONIC) reading. */
  datatype Clock = Clock(sec: int, nsec: int)

  /** The 500 ms gate as the source computes it. */
  predicate Gate(now: Clock, last: Clock)
  {
    if now.sec == last.sec then now.nsec - last.nsec > HALF_SECOND
    else if now.sec == last.sec + 1 then SECOND - last.nsec + now.nsec > HALF_SECOND
    else true
  }

  /** Nanoseconds from last to now. */
  function Elapsed(now: Clock, last: Clock): int
  {
    (now.sec - last.sec) * SECOND + now.nsec - last.nsec
  }

  predicate ValidClock(c: Clock)
  {
    0 <= c.nsec < SECOND
  }

  /** For proper readings with now not before last, the gate passes exactly
      when more than 500 ms have elapsed. */
  lemma GateIsElapsed(now: Clock, last: Clock)
    requires ValidClock(now) && ValidClock(last) && Elapsed(now, last) >= 0
    ensures Gate(now, last) <==> Elapsed(now, last) > HALF_SECOND
  {
    WholeSeconds(now.sec - last.sec);
  }

  lemma WholeSeconds(n: int)
    ensures n <= -1 ==> n * SECOND <= -SECOND
    ensures n >= 2 ==> n * SECOND >= 2 * SECOND
  {
  }

  // ---- the pass ----

  datatype Config = Config(ultrasonic: seq<int>, analog: seq<int>, hasMouse: bool, minSpeed: int)

  /** A configuration the loop can run: the analog set is not empty (the
      first pass dereferences its begin()) and the angles are map keys. */
  ghost predicate ValidConfig(cfg: Config)
  {
    Ascending(cfg.ultrasonic) && Ascending(cfg.analog) && |cfg.analog| > 0
  }

  datatype State = State(
    distances: map<int, seq<int>>,
    cursor: Cursor,
    lastForward: bool,
    lastDirection: int,
    forwardSpeed: int,
    reverseSpeed: int,
    moving: int,
    readSpeedCounter: int,
    lastSpeedChange: Clock)

  /** What the sensors answer during one pass: for each ultrasonic sensor
      (in angle order) None while ranging or its range; the same for the
      analog sensor at the cursor; the mouse's y speed; the clock readings of
      the speed gate and of the speed-change stamp. */
  datatype Inputs = Inputs(
    ultrasonic: seq<Option<int>>,
    analog: Option<int>,
    mouseY: int,
    gateClock: Clock,
    stampClock: Clock)

  /** What one pass sends: the sensors re-armed, the motor's setSpeed and
      the steering servo's setDirection, when they are sent. */
  datatype Outputs = Outputs(
    armedUltrasonic: seq<int>,
    armedAnalog: Option<int>,
    motor: Option<int>,
    steer: Option<int>)

  /** The state before the first pass. */
  function Initial(cfg: Config): State
  {
    State(map[], End, false, 0, cfg.minSpeed, -cfg.minSpeed, 0, 0, Clock(0, 0))
  }

  /** Whether a pass raises the speed setpoint. */
  predicate Ramp(s: State, f: Front, p: Poll, gateClock: Clock)
  {
    p.moving == 0 && f.forward == s.lastForward && Gate(gateClock, s.lastSpeedChange)
  }

  /** One pass, as a function of the state and the inputs. */
  function StepSpec(cfg: Config, s: State, inp: Inputs): (State, Outputs)
    requires |cfg.analog| > 0 && (s.cursor.At? ==> s.cursor.index < |cfg.analog|)
    requires |inp.ultrasonic| == |cfg.ultrasonic|
  {
    var d1 := SonarSense(s.distances, cfg.ultrasonic, inp.ultrasonic);
    var a := AnalogSense(d1, s.cursor, cfg.analog, inp.analog);
    var f := FrontRule(Buffer(a.distances, FRONT));
    var direction := Steer(a.distances, f.multiplier);
    var p := PollMouse(s.readSpeedCounter, s.moving, cfg.hasMouse, inp.mouseY, f.forward);
    var up := Ramp(s, f, p, inp.gateClock);
    var fs := if up && f.forward then s.forwardSpeed + 2 else s.forwardSpeed;
    var rs := if up && !f.forward then s.reverseSpeed - 2 else s.reverseSpeed;
    var drive := s.lastForward != f.forward || up;
    var t := State(a.distances, a.cursor,
                   f.forward, direction, fs, rs, p.moving, p.counter,
                   if drive then inp.stampClock else s.lastSpeedChange);
    var out := Outputs(SonarArmed(cfg.ultrasonic, inp.ultrasonic), a.armed,
                       if drive then Some(if f.forward then fs else rs) else None,
                       if s.lastDirection != direction then Some(direction) else None);
    (t, out)
  }

  /** One turn of the ultrasonic loop unfolds one step of the fold. */
  lemma SonarUnfold(d: map<int, seq<int>>, keys: seq<int>, results: seq<Option<int>>, i: nat, armed: seq<int>)
    requires |keys| == |results| && i < |keys|
    ensures SonarSense(d, keys[i..], results[i..]) == SonarSense(SonarOne(d, keys[i], results[i]), keys[i + 1..], results[i + 1..])
    ensures armed + SonarArmed(keys[i..], results[i..]) ==
      (armed + (if results[i].Some? then [keys[i]] else [])) + SonarArmed(keys[i + 1..], results[i + 1..])
  {
    assert keys[i..][1..] == keys[i + 1..] && results[i..][1..] == results[i + 1..];
  }

  /** The ultrasonic loop: every sensor whose ranging is complete has its
      range recorded and is re-armed. */
  method SonarLoop(d: map<int, seq<int>>, keys: seq<int>, results: seq<Option<int>>)
    returns (distances: map<int, seq<int>>, armed: seq<int>)
    requires |keys| == |results|
    ensures distances == SonarSense(d, keys, results)
    ensures armed == SonarArmed(keys, results)
  {
    distances := d;
    armed := [];
    var i := 0;
    while i < |keys|
      invariant 0 <= i <= |keys|
      invariant SonarSense(distances, keys[i..], results[i..]) == SonarSense(d, keys, results)
      invariant armed + SonarArmed(keys[i..], results[i..]) == SonarArmed(keys, results)
    {
      SonarUnfold(distances, keys, results, i, armed);
      if results[i].Some? {
        distances := Record(distances, keys[i], results[i].value);
        armed := armed + [keys[i]];
      }
      i := i + 1;
    }
    assert keys[i..] == [] && results[i..] == [];
    assert armed + [] == armed;
  }

  /** The sense block: the ultrasonic loop, then the analog branch. */
  method Sense(cfg: Config, d: map<int, seq<int>>, cursor: Cursor, inp: Inputs)
    returns (distances: map<int, seq<int>>, next: Cursor, armedUltrasonic: seq<int>, armedAnalog: Option<int>)
    requires |cfg.analog| > 0 && (cursor.At? ==> cursor.index < |cfg.analog|)
    requires |inp.ultrasonic| == |cfg.ultrasonic|
    ensures var a := AnalogSense(SonarSense(d, cfg.ultrasonic, inp.ultrasonic), cursor, cfg.analog, inp.analog);
      distances == a.distances && next == a.cursor && armedAnalog == a.armed
    ensures armedUltrasonic == SonarArmed(cfg.ultrasonic, inp.ultrasonic)
  {
    distances, armedUltrasonic := SonarLoop(d, cfg.ultrasonic, inp.ultrasonic);
    armedAnalog := None;
    next := cursor;
    if cursor.End? {
      next := At(0);
      armedAnalog := Some(cfg.analog[0]);
    } else if inp.analog.Some? {
      var k := cfg.analog[cursor.index];
      distances := Record(distances, k, inp.analog.value);
      var n := cursor.index + 1;
      if n == |cfg.analog| {
        n := 0;
      }
      next := At(n);
      armedAnalog := Some(cfg.analog[n]);
    }
  }

  /** One pass of the while(running) body. The button wait, the LED and the
      10 ms sleep are left out. */
  method Step(cfg: Config, s: State, inp: Inputs) returns (t: State, out: Outputs)
    requires |cfg.analog| > 0 && (s.cursor.At? ==> s.cursor.index < |cfg.analog|)
    requires |inp.ultrasonic| == |cfg.ultrasonic|
    ensures (t, out) == StepSpec(cfg, s, inp)
  {
    /* Sense */
    var distances, cursor, armedUltrasonic, armedAnalog := Sense(cfg, s.distances, s.cursor, inp);

    /* Decide */
    var front := FrontRule(Buffer(distances, FRONT));
    var forward := front.forward;
    var direction := Steer(distances, front.multiplier);

    var readSpeedCounter := s.readSpeedCounter;
    var moving := s.moving;
    if readSpeedCounter == 5 {
      if cfg.hasMouse {
        if (forward && inp.mouseY < -50) || (!forward && inp.mouseY > 50) {
          moving := MOVING;
        } else if moving != 0 {
          moving := moving - 1;
        }
      } else {
        moving := MOVING;
      }
      readSpeedCounter := 0;
    } else {
      readSpeedCounter := readSpeedCounter + 1;
    }

    var updateSpeed := false;
    if moving == 0 && forward == s.lastForward {
      var spec := inp.gateClock;
      var last := s.lastSpeedChange;
      if spec.sec == last.sec {
        if spec.nsec - last.nsec > HALF_SECOND {
          updateSpeed := true;
        }
      } else if spec.sec == last.sec + 1 {
        if SECOND - last.nsec + spec.nsec > HALF_SECOND {
          updateSpeed := true;
        }
      } else {
        updateSpeed := true;
      }
    }

    var forwardSpeed, reverseSpeed := s.forwardSpeed, s.reverseSpeed;
    if updateSpeed {
      if forward {
        forwardSpeed := forwardSpeed + 2;
      } else {
        reverseSpeed := reverseSpeed - 2;
      }
    }

    /* Actuate */
    var motor: Option<int> := None;
    var lastSpeedChange := s.lastSpeedChange;
    var lastForward := s.lastForward;
    if lastForward != forward || updateSpeed {
      motor := Some(if forward then forwardSpeed else reverseSpeed);
      lastSpeedChange := inp.stampClock;
      lastForward := forward;
    }
    var steer: Option<int> := None;
    var lastDirection := s.lastDirection;
    if lastDirection != direction {
      steer := Some(direction);
      lastDirection := direction;
    }

    t := State(distances, cursor, lastForward, lastDirection, forwardSpeed, reverseSpeed,
               moving, readSpeedCounter, lastSpeedChange);
    out := Outputs(armedUltrasonic, armedAnalog, motor, steer);
  }

  // ---- properties of a pass ----

  /** What holds of the loop's state before every pass. */
  ghost predicate Inv(cfg: Config, s: State)
  {
    Bounded(s.distances) &&
    (s.cursor.At? ==> s.cursor.index < |cfg.analog|) &&
    0 <= s.moving <= MOVING &&
    0 <= s.readSpeedCounter <= 5 &&
    IsDirection(s.lastDirection) &&
    s.forwardSpeed >= cfg.minSpeed && s.reverseSpeed <= -cfg.minSpeed &&
    (forall k :: k in s.distances ==> k in cfg.ultrasonic || k in cfg.analog)
  }

  lemma InitialInv(cfg: Config)
    requires ValidConfig(cfg)
    ensures Inv(cfg, Initial(cfg))
  {
  }

  /** Every pass keeps the invariant: buffers within capacity and only for
      configured angles, the cursor on a sensor, the stall counter in
      [0, 10], the polling counter in [0, 5], the last steering command one
      of the loop's values, the setpoints never below their start. */
  lemma StepKeepsInv(cfg: Config, s: State, inp: Inputs)
    requires ValidConfig(cfg) && Inv(cfg, s) && |inp.ultrasonic| == |cfg.ultrasonic|
    ensures Inv(cfg, StepSpec(cfg, s, inp).0)
  {
    var d1 := SonarSense(s.distances, cfg.ultrasonic, inp.ultrasonic);
    SonarBounded(s.distances, cfg.ultrasonic, inp.ultrasonic);
    forall k | k in d1
      ensures k in cfg.ultrasonic || k in cfg.analog
    {
      if k !in cfg.ultrasonic {
        SonarUntouched(s.distances, cfg.ultrasonic, inp.ultrasonic, k);
      }
    }
    var a := AnalogSense(d1, s.cursor, cfg.analog, inp.analog);
    if s.cursor.At? && inp.analog.Some? {
      RecordBounded(d1, cfg.analog[s.cursor.index], inp.analog.value);
    }
    var f := FrontRule(Buffer(a.distances, FRONT));
    SteerValues(a.distances, Buffer(a.distances, FRONT));
    PollMeaning(s.readSpeedCounter, s.moving, cfg.hasMouse, inp.mouseY, f.forward);
  }

  /** The speed ramp fires only when the stall counter is 0, the direction
      did not flip and the gate passes; it then raises the forward setpoint
      or lowers the reverse setpoint by exactly 2, never both. */
  lemma RampMeaning(cfg: Config, s: State, inp: Inputs)
    requires |cfg.analog| > 0 && (s.cursor.At? ==> s.cursor.index < |cfg.analog|)
    requires |inp.ultrasonic| == |cfg.ultrasonic|
    ensures var t := StepSpec(cfg, s, inp).0;
      var up := t.moving == 0 && t.lastForward == s.lastForward && Gate(inp.gateClock, s.lastSpeedChange);
      (t.forwardSpeed == s.forwardSpeed + (if up && t.lastForward then 2 else 0)) &&
      (t.reverseSpeed == s.reverseSpeed - (if up && !t.lastForward then 2 else 0)) &&
      (t.forwardSpeed == s.forwardSpeed || t.reverseSpeed == s.reverseSpeed)
  {
  }

  /** The motor is commanded, with the setpoint of the new direction, and
      the stamp and lastForward updated, exactly when the direction flipped
      or the ramp fired; steering is commanded exactly when the direction
      changed. After every pass lastForward and lastDirection are the
      pass's own decision. */
  lemma ActuationMeaning(cfg: Config, s: State, inp: Inputs)
    requires |cfg.analog| > 0 && (s.cursor.At? ==> s.cursor.index < |cfg.analog|)
    requires |inp.ultrasonic| == |cfg.ultrasonic|
    ensures var (t, out) := StepSpec(cfg, s, inp);
      var a := AnalogSense(SonarSense(s.distances, cfg.ultrasonic, inp.ultrasonic), s.cursor, cfg.analog, inp.analog);
      var f := FrontRule(Buffer(a.distances, FRONT));
      var up := t.moving == 0 && f.forward == s.lastForward && Gate(inp.gateClock, s.lastSpeedChange);
      t.lastForward == f.forward &&
      t.lastDirection == Steer(a.distances, f.multiplier) &&
      (out.motor.Some? <==> s.lastForward != f.forward || up) &&
      (out.motor.Some? ==> out.motor.value == (if f.forward then t.forwardSpeed else t.reverseSpeed)
                           && t.lastSpeedChange == inp.stampClock) &&
      (out.motor.None? ==> t.lastSpeedChange == s.lastSpeedChange) &&
      (out.steer.Some? <==> s.lastDirection != t.lastDirection) &&
      (out.steer.Some? ==> out.steer.value == t.lastDirection)
  {
  }
}
