# racecar core in Dafny

A model of the control and driver logic of the racecar robot, together with
proofs about that model. The robot is a small car run by a Raspberry Pi. The
model covers:

- **Robot control loop** (`robot.dfy`). One pass of the `while(running)` body
  of `Robot::run` is a method on a state record. A pass has three parts:
  - sense: every ultrasonic sensor whose ranging is complete is sampled and
    re-armed; one analog sensor is read round-robin;
  - decide: the front multiplier, steering, the stall counter and the 500 ms
    speed-ramp gate;
  - actuate: the motor and steering commands, which are sent only on a change.

  Readings go into per-angle ring buffers of capacity 10.
- **Motor** (`motors.dfy`). The speed controller of `Motor.cpp` and its older
  variant `motor.cpp`. Reversing takes a brake, neutral, reverse sequence. A
  ghost trace records the servo commands.
- **Servo** (`servos.dfy`). The end-position normalisation and the linear,
  clamped direction-to-pulse mapping of `servo.cpp`.
- **PCA9685 PWM driver** (`pca9685.dfy`). The device is 256 register bytes plus
  a log of byte writes. The model covers:
  - the constructor's mode writes;
  - `reset`;
  - the `setPWMFreq` mode-byte sequence;
  - the four count bytes of `setPWM`;
  - the `setPin` case table.
- **ADS1115 converter** (`register_bits.dfy`, `ads1115.dfy`). The device is a
  map of 16-bit registers. The driver caches the `muxMode`, `pgaMode` and
  `devMode` fields, and a ghost log records the block transfers. The model
  covers:
  - the bit-field read-modify-write helpers;
  - `createMask` and `getValueFromBits`;
  - the multiplexer and gain setters, with their stop/start in continuous mode;
  - `initialize`;
  - `getConversionPxGND`.

  The bit positions are those of the config-register table of the TI
  ADS1113/4/5 data sheet (SBAS444B).
- **Analog distance sensors** (`analog_sensors.dfy`). The newer
  `AnalogDistanceSensor` (it checks whether it still owns the multiplexer), the
  older `analog_distance_sensor` (no such check), and the GP2Y0A02 gain and
  range conversion.
- **Mouse speed sensor** (`mouse.dfy`). `getSpeed`'s decoding of a 3-byte
  PS/2 movement packet.
- **SRF08 ultrasonic sensor** (`srf08.dfy`). A bus with scripted results
  stands in for the real I2C bus. The model covers:
  - the ranging command;
  - the light-level and range reads;
  - the four-write address change, with its early abort and reopen.

Clocks, the mouse device read and the I2C bus results are parameters:
- the clock readings are `Inputs.gateClock` and `Inputs.stampClock`;
- the mouse read is `Option<Packet>`;
- the results of the SRF08's wiringPi calls and of its `close` are the `Bus.script` sequence.

The ADS1115 and PCA9685 buses are register maps that always answer. The
`usleep` pauses are left out; only the order of the commands is modelled.

Where a proof showed that the source misbehaves, the model keeps two
definitions. One is the code as written, with a lemma exhibiting the problem.
The other is the corrected behaviour, which the rest of the model uses; see
"## Findings".

## Model

| member | source | states |
|---|---|---|
| Robot.PushIsLastN | src/Robot.cpp:176-198 | a push on a buffer of at most 10 readings gives the last 10 readings of the old contents followed by the new reading; the result holds at most 10 readings and ends with the new one |
| Robot.PushAllIsLastN | src/Robot.cpp:192-214 | after any sequence of pushes, a buffer holds the last 10 readings of its history, newest last |
| Robot.Push | src/Robot.cpp:198 | `push_back` on a circular buffer of capacity 10: the reading is appended and, when the buffer is full, the oldest one dropped (its properties are in PushIsLastN) |
| Robot.Record | src/Robot.cpp:192-198 | find the angle's buffer, inserting an empty one of capacity 10 when there is none, and push the reading (its properties are in RecordBounded) |
| Robot.RecordBounded | src/Robot.cpp:192-198 | recording a reading creates the angle's buffer if needed; all buffers stay within capacity; only that angle's buffer changes, by one push |
| Robot.SonarSample | src/Robot.cpp:190-201 | each ultrasonic sensor whose ranging is complete adds exactly one reading, its own range, to its own buffer; a sensor not yet complete leaves its buffer unchanged |
| Robot.SonarUntouched | src/Robot.cpp:190-201 | the ultrasonic loop neither changes nor creates the buffer of any angle that is not an ultrasonic sensor |
| Robot.SonarDomain | src/Robot.cpp:190-201 | after the ultrasonic loop an angle has a buffer exactly when it had one before or a sensor at that angle completed its ranging |
| Robot.SonarArmedMeaning | src/Robot.cpp:190-201 | a sensor is re-armed in the pass if and only if its ranging was complete |
| Robot.SonarBounded | src/Robot.cpp:190-201 | the ultrasonic loop keeps every buffer within capacity |
| Robot.SonarLoop | src/Robot.cpp:190-201 | the loop over the ultrasonic sensors computes the buffer fold and the list of re-armed sensors (the loop invariants carry both) |
| Robot.AnalogSense | src/Robot.cpp:203-221 | the analog branch always leaves the cursor on a sensor of the set |
| Robot.AnalogOrder | src/Robot.cpp:203-221 | the first pass only arms the lowest angle; later passes record only the cursor sensor's reading, and only when its ranging is complete; the cursor then moves to the next higher angle, or wraps to the lowest after the highest, and only that sensor is armed; an incomplete ranging changes nothing |
| Robot.Sense | src/Robot.cpp:189-221 | the sense block computes the buffers, the cursor and the re-armed sensors of the specification |
| Robot.FrontRule | src/Robot.cpp:224-238 | the front rule by successive reassignment, as the source writes it (its table is FrontTable) |
| Robot.FrontTable | src/Robot.cpp:224-238 | no front reading gives forward with multiplier 1; otherwise the latest front value gives <30 reverse with -2, 30..49 multiplier 4, 50..79 multiplier 2 and 80 or more multiplier 1; the direction is forward exactly when the multiplier is positive |
| Robot.LookupsAsWritten | src/Robot.cpp:226-247 | the source's unchecked `find` dereferences are undefined whenever angle 0, or a side angle the `&&` chain reaches, has no buffer after sensing: for the empty map and for a map holding only the 135° buffer; where they are defined they agree with reading an absent angle as an empty buffer |
| Robot.FirstPassFront | src/Robot.cpp:189-228 | on the first pass the front lookup is undefined exactly when no ultrasonic sensor at angle 0 completed its ranging, since the analog branch only arms |
| Robot.SteerBase | src/Robot.cpp:257-268 | the nested steering conditions as written, before the multiplier (their meaning is SteerBaseMeaning) |
| Robot.Steer | src/Robot.cpp:240-270 | the side test, the two replacement readings and the base times the front multiplier (their meaning is SteerValues) |
| Robot.SteerBaseMeaning | src/Robot.cpp:257-268 | the base steering is 0, -60 or 60; -60 only when left > right + 20 and 60 only otherwise; with multiplier 1: \|left - right\| <= 20 gives 0, for left > right + 20 it is -60 exactly when right < 50, and for left < right - 20 it is 60 exactly when left < 70; with any other multiplier it is never 0 |
| Robot.SteerValues | src/Robot.cpp:240-270 | steering is 0 unless all four side buffers (45, 135, 90, 270) hold a reading; right takes the 90° value when that value is below 25 and left takes the 270° value when that value is below 20; the command is always one of 0, ±60, ±120, ±240 |
| Robot.PollMouse | src/Robot.cpp:272-284 | one polling pass of the stall counter: 10 with no mouse, the threshold reset on movement, otherwise a countdown floored at 0 (its meaning is PollMeaning) |
| Robot.PollMeaning | src/Robot.cpp:272-284 | the stall counter changes only on a polling pass; with no mouse it is then 10; with a mouse it is 10 after y < -50 going forward or y > 50 in reverse, and otherwise counts down with a floor of 0; it stays in [0, 10] |
| Robot.PollsEverySixth | src/Robot.cpp:272-284 | starting from 0, `readSpeedCounter` after n passes is n mod 6, so the mouse is polled on every 6th pass |
| Robot.Gate | src/Robot.cpp:289-300 | the two-case seconds/nanoseconds test of the 500 ms gate as written (GateIsElapsed states what it decides) |
| Robot.GateIsElapsed | src/Robot.cpp:286-301 | for clock readings with nanoseconds in [0, 1e9) and now not before the last change, the two-case gate passes exactly when more than 500 ms have elapsed |
| Robot.RampMeaning | src/Robot.cpp:286-309 | the ramp fires only with the stall counter at 0, the direction unchanged and the gate passing; it then raises the forward setpoint or lowers the reverse setpoint by exactly 2, never both |
| Robot.ActuationMeaning | src/Robot.cpp:311-324 | the motor is commanded with the setpoint of the new direction, and the timestamp is taken, exactly when the direction flipped or the ramp fired; steering is commanded exactly when the direction changed; afterwards `lastForward` and `lastDirection` hold this pass's decision |
| Robot.Step | src/Robot.cpp:187-324 | one pass of the loop body computes exactly the specified next state and commands |
| Robot.StepSpec | src/Robot.cpp:187-324 | the next state and the commands of one pass: sense, decide, actuate (its properties are in RampMeaning, ActuationMeaning and StepKeepsInv) |
| Robot.InitialInv | src/Robot.cpp:173-185 | the loop's initial state satisfies the loop invariant |
| Robot.StepKeepsInv | src/Robot.cpp:187-324 | every pass preserves the loop invariant: buffers stay within capacity and exist only for configured angles; the cursor stays on a sensor; the stall counter stays in [0, 10] and the polling counter in [0, 5]; the last steering command is a value the loop can produce; the setpoints never pass their starting values |
| Motors.SpeedCommands | src/Motor.cpp:12-27 | the last command of a `setSpeed` is always the requested speed |
| Motors.BrakeBelowThreshold | src/Motor.cpp:34-36 | at or below the threshold, `breakMotor` issues the single command 0 and leaves the speed at 0 |
| Motors.CallSafe | src/Motor.cpp:12-37 | any call ends with the command for the new current speed and keeps the command trace safe: it never goes from a non-negative command straight to a reverse speed except through the brake command or right after brake and neutral |
| Motors.TraceSafe | src/Motor.cpp:12-37 | any sequence of calls keeps a safe trace safe |
| Motors.ConstructedSafe | src/motor.cpp:5-37 | for both variants, a freshly constructed motor's trace stays safe whatever calls follow |
| Motors.Motor.constructor | src/Motor.cpp:5-10 | the current speed is 0 and the servo got exactly one command, 0, after the 60 Hz setup; brake -1000 with threshold 50 |
| Motors.Motor.Legacy | src/motor.cpp:5-10 | the same construction for the older variant, with brake -100 and threshold 5 |
| Motors.Motor.SetSpeed | src/Motor.cpp:12-27 | afterwards the current speed is s; the single command s when s >= 0 or the old speed was negative; otherwise exactly brake, 0, s in that order; the writes are those of exactly these servo commands |
| Motors.Motor.BreakMotor | src/Motor.cpp:29-37 | above the threshold, the single brake command, and the current speed becomes the brake value; otherwise the same as `setSpeed(0)` |
| Motors.ThreeCommands | src/Motor.cpp:16-25 | three successive servo commands produce the commands and register writes of the three-element sequence |
| Servos.TruncDiv | src/servo.cpp:26 | truncation toward zero: for n >= 0 the quotient is the largest multiple of d not above n, for n < 0 the smallest multiple not below n, with the quotient's sign following n |
| Servos.Value | src/servo.cpp:26 | the value sent always lies in [m_Min, m_Max] |
| Servos.ValueMonotone | src/servo.cpp:26 | before and after clamping, the value never decreases as the effective direction grows |
| Servos.ValueLandmarks | src/servo.cpp:26 | direction 0 gives (m_Min + m_Max) / 2; -100 and below give m_Min; 100 and above give m_Max |
| Servos.InvertedMonotone | src/servo.cpp:23-26 | on an inverted servo a larger direction never raises the value |
| Servos.AsWrittenAgrees | src/servo.cpp:26 | wherever the source's double-to-uint16_t conversion is defined, it agrees with the saturating value |
| Servos.ValueAsWritten | src/servo.cpp:26 | the value as the source computes it, undefined (None) unless the double lies in (-1, 65536) before `std::min`/`std::max` (AsWrittenAgrees and AsWrittenUndefined state where) |
| Servos.AsWrittenUndefined | src/servo.cpp:26 | once m_Min + m_Max >= 200, every effective direction below -100 puts the conversion outside the uint16_t range |
| Servos.AsWrittenExamples | src/servo.cpp:23-26 | the motor's brake -1000 and steering 120 on the inverted 460/280 servo leave the conversion undefined; the saturating value gives m_Min for both |
| Servos.DirectionWritesAppend | src/servo.cpp:27 | the register writes of successive `setDirection` calls are the concatenation of each call's writes |
| Servos.Servo.constructor | src/servo.cpp:5-19 | `m_Min <= m_Max` and {m_Min, m_Max} = {maxLeft, maxRight}; inversion holds exactly when maxLeft >= maxRight; the PWM frequency is set to 60 Hz first |
| Servos.Servo.SetDirection | src/servo.cpp:21-28 | exactly one `setPin(channel, value, false)`, whose value is the clamped, possibly inverted mapping |
| Pca9685.PinPulse | src/Adafruit_PWMServoDriver.cpp:84-114 | both counts are at most 4096 and at least one of them is 0 |
| Pca9685.PinDuty | src/Adafruit_PWMServoDriver.cpp:101-113 | without inversion the output is high for val ticks, and fully on from 4095 up (val is clamped to 4095) |
| Pca9685.InvertedPinDuty | src/Adafruit_PWMServoDriver.cpp:87-100 | with inversion the output is fully on at 0, fully off from 4095 up, and otherwise high for 4095 - val ticks |
| Pca9685.PinDutyMonotone | src/Adafruit_PWMServoDriver.cpp:84-114 | a larger val never shortens the high time, and with inversion never lengthens it |
| Pca9685.PwmReadBack | src/Adafruit_PWMServoDriver.cpp:71-79 | after `setPWM`, the channel's ON and OFF register pairs read back exactly `on` and `off`, and all other registers are unchanged |
| Pca9685.Recombine | src/Adafruit_PWMServoDriver.cpp:75-78 | the high and low byte of a count recombine to the count |
| Pca9685.FreqSequence | src/Adafruit_PWMServoDriver.cpp:60-66 | the prescaler is written only after a MODE1 value that sets SLEEP, clears RESTART and keeps the other bits; MODE1 then gets its old value back, then that value with RESTART set |
| Pca9685.FreqEffect | src/Adafruit_PWMServoDriver.cpp:60-66 | `setPWMFreq` leaves PRESCALE at the prescale, MODE1 at its old value with RESTART set, and every other register unchanged |
| Pca9685.ApplyAppend | src/Adafruit_PWMServoDriver.cpp:121-124 | applying two batches of byte writes in turn is applying their concatenation |
| Pca9685.ApplyUntouched | src/Adafruit_PWMServoDriver.cpp:121-124 | a register that no write names keeps its value |
| Pca9685.PwmDriver.constructor | src/Adafruit_PWMServoDriver.cpp:27-38 | writes MODE2 = OUTDRV, then MODE1 = ALLCALL, then MODE1 = the value it reads back |
| Pca9685.PwmDriver.Read8 | src/Adafruit_PWMServoDriver.cpp:116-119 | returns the register byte |
| Pca9685.PwmDriver.Write8 | src/Adafruit_PWMServoDriver.cpp:121-124 | sets exactly one register byte and logs the write |
| Pca9685.PwmDriver.Reset | src/Adafruit_PWMServoDriver.cpp:40-43 | writes MODE1 = 0 and nothing else |
| Pca9685.PwmDriver.SetPwmFreq | src/Adafruit_PWMServoDriver.cpp:60-66 | exactly the four mode and prescale writes, in order, and no other register |
| Pca9685.PwmDriver.SetPwm | src/Adafruit_PWMServoDriver.cpp:71-79 | writes ON_L, ON_H, OFF_L, OFF_H of LED0 + 4·num, in that order |
| Pca9685.PwmDriver.SetPin | src/Adafruit_PWMServoDriver.cpp:84-114 | exactly one `setPWM` on the same channel, with the case table's counts |
| RegisterBits.CreateMask | src/ADS1115.cpp:565-571 | the mask has exactly bits a..b set, and is 0 when b < a (the loop invariant states the bits set so far) |
| RegisterBits.SpanMaskBits | src/ADS1115.cpp:565-571 | bit j of the reference span is set exactly when a <= j < i |
| RegisterBits.GetValueFromBits | src/ADS1115.cpp:573-584 | the result is `readBitsW`'s field value and equals (v >> (high - length + 1)) & (2^length - 1) |
| RegisterBits.ReadAfterWrite | src/ADS1115.cpp:638-660 | reading a field right after writing it returns the data mod 2^length |
| RegisterBits.WriteFieldFrame | src/ADS1115.cpp:645-649 | writing a field leaves every bit outside its mask unchanged |
| RegisterBits.WriteFieldOnlyTouchesField | src/ADS1115.cpp:638-651 | bit by bit: `writeBitsW` changes no bit outside bitStart - length + 1 .. bitStart |
| RegisterBits.FieldMaskBits | src/ADS1115.cpp:645 | the field mask covers exactly bits bitStart - length + 1 .. bitStart |
| RegisterBits.DisjointFields | src/ADS1115.cpp:638-660 | writing a field leaves the value of any non-overlapping field unchanged |
| RegisterBits.WriteBitBits | src/ADS1115.cpp:627-636 | `writeBitW` sets bitNum exactly when data is non-zero and leaves every other bit as it was |
| RegisterBits.WriteField | src/ADS1115.cpp:645-649 | `writeBitsW`'s word update: the shifted, masked data replaces the field (WriteFieldFrame, ReadAfterWrite and DisjointFields state its effect) |
| RegisterBits.ReadField | src/ADS1115.cpp:653-660 | `readBitsW`'s field value (GetValueFromBits and ReadAfterWrite state it) |
| RegisterBits.WriteBit | src/ADS1115.cpp:627-636 | `writeBitW`'s word update (WriteBitBits and WriteBitIsWriteField state its effect) |
| RegisterBits.WriteBitIsWriteField | src/ADS1115.cpp:627-651 | a bit write is a one-bit field write of 1 or 0 |
| Ads1115.DecodeEncode | src/ADS1115.cpp:662-676 | reading back the high-byte-first encoding of a word gives the word |
| Ads1115.EncodeDecode | src/ADS1115.cpp:662-676 | every two-byte buffer is the encoding of exactly one word |
| Ads1115.Signed16 | src/ADS1115.cpp:131-142 | the int16_t reading lies in [-32768, 32767] and is non-negative exactly when the top bit is clear |
| Ads1115.Signed16Inverse | src/ADS1115.cpp:131-142 | the signed reading loses nothing: adding 2^16 to a negative reading gives the unsigned word |
| Ads1115.RestartedBits | src/ADS1115.cpp:353-358 | the stop/start ends in continuous mode and changes no other bit of the config word |
| Ads1115.RestartKeepsField | src/ADS1115.cpp:353-358 | the stop/start leaves every field clear of the MODE bit unchanged |
| Ads1115.MuxAfterSet | src/ADS1115.cpp:350-361 | after `setMultiplexer`, the MUX field holds the code cut to 3 bits, whatever mode the device started in |
| Ads1115.MuxAfterGainSet | src/ADS1115.cpp:387-397 | `setGain` leaves the MUX field unchanged |
| Ads1115.MuxBelow8 | src/ADS1115.cpp:330-333 | the multiplexer value read is always below 8 |
| Ads1115.InitializeWord | src/ADS1115.cpp:65-74 | after initialize's eight writes, every config bit except OS has its power-on default, and OS is unchanged |
| Ads1115.Adc.constructor | src/ADS1115.cpp:55-57 | the device holds the given registers and the cache holds the given codes |
| Ads1115.Adc.ReadRegister | src/ADS1115.cpp:670-676 | returns the register word and logs one read |
| Ads1115.Adc.WriteRegister | src/ADS1115.cpp:662-668 | stores the word and logs the high-byte-first buffer |
| Ads1115.Adc.WriteBitW | src/ADS1115.cpp:627-636 | one read and one write of the bit-updated word; always returns true |
| Ads1115.Adc.WriteBitsW | src/ADS1115.cpp:638-651 | one read and one write of the field-updated word; always returns true, because its `ret < 0` guard cannot fire |
| Ads1115.Adc.ReadBitsW | src/ADS1115.cpp:653-660 | returns the field of the CONFIG register, whatever register address is passed |
| Ads1115.Adc.GetConversion | src/ADS1115.cpp:131-142 | returns the conversion register as a signed 16-bit value |
| Ads1115.Adc.GetOpStatus | src/ADS1115.cpp:312-314 | returns INACTIVE exactly when the OS bit is set |
| Ads1115.Adc.SetOpStatus | src/ADS1115.cpp:321-323 | writes the OS bit only |
| Ads1115.Adc.GetMultiplexer | src/ADS1115.cpp:330-333 | returns the MUX field and copies it into `muxMode` |
| Ads1115.Adc.SetMode | src/ADS1115.cpp:415-419 | writes the MODE bit and always updates `devMode` |
| Ads1115.Adc.GetMode | src/ADS1115.cpp:405-407 | returns SINGLESHOT exactly when the MODE bit is set |
| Ads1115.Adc.Restart | src/ADS1115.cpp:353-358 | single-shot, read, continuous: ends with `devMode` continuous |
| Ads1115.Adc.SetMultiplexer | src/ADS1115.cpp:350-361 | always updates `muxMode`; in continuous mode it stops and restarts conversions, ending in continuous mode |
| Ads1115.Adc.GetGain | src/ADS1115.cpp:368-371 | returns the PGA field and copies it into `pgaMode` |
| Ads1115.Adc.SetGain | src/ADS1115.cpp:387-397 | always updates `pgaMode`; in continuous mode it stops and restarts conversions, ending in continuous mode |
| Ads1115.Adc.SetRate | src/ADS1115.cpp:443-445 | writes the data-rate field only |
| Ads1115.Adc.SetComparatorMode | src/ADS1115.cpp:463-465 | writes the comparator-mode bit only |
| Ads1115.Adc.SetComparatorPolarity | src/ADS1115.cpp:483-485 | writes the polarity bit only |
| Ads1115.Adc.SetComparatorLatchEnabled | src/ADS1115.cpp:503-505 | writes the latch bit only |
| Ads1115.Adc.SetComparatorQueueMode | src/ADS1115.cpp:529-531 | writes the queue field only |
| Ads1115.Adc.Initialize | src/ADS1115.cpp:65-74 | caches MUX P0/N1, gain 2.048 V and single-shot; sets every config bit except OS to its power-on default; leaves the other registers unchanged |
| Ads1115.Adc.GetConversionVia | src/ADS1115.cpp:198-234 | writes the MUX only when the cached code differs; afterwards the cache holds the requested code; returns the conversion register |
| AnalogSensors.MuxCode | src/AnalogDistanceSensor.cpp:4-20 | channels 0..3 become codes P0_NG..P3_NG; any other number is kept unchanged |
| AnalogSensors.MuxCodeShared | src/AnalogDistanceSensor.cpp:4-20 | two channel numbers share a code exactly when they are equal, or one is an input 0..3 and the other is that input's code |
| AnalogSensors.WideCodeNeverOwns | src/AnalogDistanceSensor.cpp:37-43 | a code of 8 or more never matches the 3-bit MUX field, so that sensor is never complete |
| AnalogSensors.ArmedFields | src/AnalogDistanceSensor.cpp:27-34 | after arming: the MUX field holds the sensor's code, single-shot mode, gain 4.096 V and a conversion started |
| AnalogSensors.ArmRestFields | src/AnalogDistanceSensor.cpp:30-33 | the steps after the MUX write keep the MUX field, then set single-shot, gain 4.096 V and OS |
| AnalogSensors.OtherArmingDisowns | src/AnalogDistanceSensor.cpp:29-49 | arming a sensor with a different code 0..7 on the same converter leaves the MUX field no longer matching this sensor |
| AnalogSensors.LegacyArmedFields | src/analog_distance_sensor.cpp:13-33 | the older driver sets the MUX field only for channels 0..3; any other channel leaves it unchanged; mode, gain and start are as in the newer driver |
| AnalogSensors.SetupOnlyTouchesGain | src/GP2Y0A02.cpp:7-10 | `setupRanging` in single-shot mode changes only the PGA bits of the config word |
| AnalogSensors.BitWriteKeepsField | src/ADS1115.cpp:627-636 | a bit write leaves every field clear of that bit unchanged |
| AnalogSensors.SetupRanging | src/GP2Y0A02.cpp:7-10 | sets the gain to PGA_4P096 |
| AnalogSensors.VoltageToRange | src/GP2Y0A02.cpp:12-16 | the unfinished conversion: 0 for every input |
| AnalogSensors.Gp2y0a02.constructor | src/GP2Y0A02.cpp:3-5 | the converter and the mapped channel code are kept |
| AnalogSensors.Gp2y0a02.InitiateRanging | src/AnalogDistanceSensor.cpp:27-34 | MUX to the sensor's code, single-shot, `setupRanging`, OS; the cache ends with that code, gain 4.096 V and single-shot; returns true |
| AnalogSensors.Gp2y0a02.RangingComplete | src/AnalogDistanceSensor.cpp:37-43 | true exactly when the MUX field matches the sensor's code and the conversion has finished |
| AnalogSensors.Gp2y0a02.GetRange | src/AnalogDistanceSensor.cpp:45-51 | 0 on a multiplexer mismatch, without reading the conversion; otherwise it reads the conversion and converts it, which also gives 0 |
| AnalogSensors.LegacyGp2y0a02.constructor | src/analog_distance_sensor.cpp:4-6 | the raw channel number is kept |
| AnalogSensors.LegacyGp2y0a02.InitiateRanging | src/analog_distance_sensor.cpp:13-33 | MUX only for channels 0..3, then single-shot, `setupRanging` and OS; returns true |
| AnalogSensors.LegacyGp2y0a02.RangingComplete | src/analog_distance_sensor.cpp:36-39 | depends only on the OS bit, not on the multiplexer |
| AnalogSensors.LegacyGp2y0a02.GetRange | src/analog_distance_sensor.cpp:41-44 | always reads the conversion, with no mismatch guard |
| Mouse.GetSpeed | src/MouseSpeedSensor.cpp:23-44 | the successive reassignments compute exactly the packet decoding |
| Mouse.Decode | src/MouseSpeedSensor.cpp:25-41 | the packet decoding, one axis at a time (AxisMeaning, DecodeBounds and DecodeAxesIndependent state what it gives) |
| Mouse.AxisMeaning | src/MouseSpeedSensor.cpp:28-41 | \|x\| is the movement byte, or 1000 when the overflow flag is set; the axis is negative exactly when the sign flag is set and the magnitude is non-zero |
| Mouse.DecodeBounds | src/MouseSpeedSensor.cpp:25-41 | a short read gives (0, 0); both axes lie in [-1000, 1000] |
| Mouse.DecodeAxesIndependent | src/MouseSpeedSensor.cpp:28-41 | x depends only on byte 1 and flag bits 4 and 6; y depends only on byte 2 and bits 5 and 7 |
| Mouse.Ps2RoundTrip | src/MouseSpeedSensor.cpp:28-41 | under the 9-bit two's complement reading, every movement in [-256, 255] reads back as itself from its byte and sign bit, and every byte and sign bit is the encoding of what they read as |
| Mouse.SignMagnitudeMisreads | src/MouseSpeedSensor.cpp:32-34 | a movement of -1, sent as byte 0xFF with the sign bit set, decodes to -255 in `getSpeed` but to -1 under the two's complement reading |
| Srf08.Bus.Call | src/srf08.cpp:10-48 | each bus call returns the script's next result and is logged |
| Srf08.Srf08.constructor | src/srf08.cpp:8-11 | opens the device at the address and keeps the descriptor the setup returns |
| Srf08.Srf08.InitiateRanging | src/srf08.cpp:13-19 | writes 0x51 to register 0; true exactly when that write returned 0 |
| Srf08.Srf08.RangingComplete | src/srf08.cpp:22-25 | true exactly when the read of register 0 did not return -1 |
| Srf08.LightLevel | src/srf08.cpp:27-31 | -1 gives 0; a byte value is returned unchanged |
| Srf08.Srf08.GetLightLevel | src/srf08.cpp:27-31 | reads register 1 and returns its light level |
| Srf08.Combine | src/srf08.cpp:33-38 | msb·256 + lsb always fits in 16 bits |
| Srf08.CombineSplit | src/srf08.cpp:33-38 | combining bytes and splitting a 16-bit range are inverses, in both directions |
| Srf08.Srf08.GetRange | src/srf08.cpp:33-38 | reads registers 2 then 3, truncates each to 8 bits and combines them high byte first |
| Srf08.FirstFailureMeaning | src/srf08.cpp:42-45 | all results before the first failure are not -1, and the result at it is -1 |
| Srf08.AddressWritesPrefix | src/srf08.cpp:42-45 | exactly the address bytes up to and including the first failing write are written, in order |
| Srf08.AddressWrites | src/srf08.cpp:42-45 | the command-register writes `changeAddress` issues for a script of results (AddressWritesPrefix states which) |
| Srf08.AddressSteps | src/srf08.cpp:42-48 | unrolls the four writes: all succeed exactly when none of the four results is -1, and gives the log after each possible early abort |
| Srf08.Srf08.ChangeAddress | src/srf08.cpp:40-50 | writes 0xA0, 0xAA, 0xA5, addr to register 0 in order, stopping at the first -1 with false and no reopen; when all succeed, closes, reopens at addr/2 and returns true; the bus has then used exactly the results of the calls made (six, or the failing write's position plus one) |

## Left out

- The button wait, the LED, the `usleep` calls and the `running` flag of `Robot::run`: timing and GPIO. A pass of the loop is modelled, not the unbounded loop.
- `Robot::initialize` (JSON configuration, device construction, GPIO set-up) and `Robot::runManual` (text UI): configuration and I/O. The sensor angles, the mouse's presence and the minimum speed are the `Config` record.
- Robot.Step: the `int` setpoints `forwardSpeed` and `reverseSpeed` are unbounded integers; the 32-bit overflow after about 10^9 ramp steps is not modelled.
- `src/Robot.cpp` reads `m_MinSpeed`, which `src/Robot.h`, as shown, does not declare (it declares `m_InitialForwardSpeed`/`m_InitialReverseSpeed`); the model follows the `.cpp`.
- AnalogDistanceSensor.h, ADS1115.h, Adafruit_PWMServoDriver.h and Motor.h are not part of this model. The register addresses, bit positions and codes are named constants taken from the data sheets (ADS1115 SBAS444B config-register table; NXP PCA9685 register map).
- The ADS1115 getters not used by the core are not modelled: `getRate`, `getComparatorMode`, `getComparatorPolarity`, `getComparatorLatchEnabled`, `getComparatorQueueMode`, and the threshold getters and setters. The same goes for `testConnection`, `waitBusy` (a bus polling loop) and `showConfigRegister` (debug printing).
- `getMilliVolts` and `getMvPerCount` (floating point) are not modelled. `getRange` of the analog sensors passes the reading through `voltageToRange`, which returns 0 for every input, so the value read does not matter. For gain codes of 8 or more these functions reach the end without a return, which is undefined behaviour; the model does not cover this.
- `voltageToRange` is declared with an `int` parameter in GP2Y0A02.cpp but is called with the `float` from `getMilliVolts`; the model takes an `int`, and the result is 0 either way.
- The float prescale computation of `setPWMFreq`: the prescale is an input. The Servo constructor passes 112, the value the formula gives for 60 Hz.
- Servos.Value: the double-precision scaling is exact integer arithmetic, truncated toward zero as the conversion does. Below-range values saturate at m_Min rather than being undefined (see Findings).
- The I2C bus of the ADS1115 always answers: its `writeRegister` acknowledgement is any value, and reads return the register. The SRF08 bus, `close` included, answers from a script of results.
- The ADS1115 and PCA9685 bus set-up (`wiringPiI2CSetup` in the constructors) is not modelled: a driver starts from a given register file.
- The mouse device's `open`, `read` and `close`, and `MouseSpeedSensor::initialize`: I/O. The read is an optional packet.
- The test programs under `src/*_test.cpp` and the old `src/robot.cpp`: hardware exercisers and an empty loop.

## Findings

| source | as written | input that shows it | evidently intended | confidence | as-written member | corrected member |
|---|---|---|---|---|---|---|
| src/Robot.cpp:226-247 | `distances.find(0)` and the four side lookups are dereferenced without comparing them with `end()` | the first pass of the loop when no ultrasonic sensor at 0° has completed its ranging: the analog branch only arms on that pass, so angle 0 has no buffer (`distances` is empty when no ultrasonic sensor at all has completed) | an angle with no buffer reads as an empty buffer: forward with multiplier 1, and no steering | not executed | Robot.LookupsAsWritten | Robot.FrontTable |
| src/servo.cpp:26 | the double is converted to `uint16_t` before `std::min`/`std::max` see it, which is undefined below -1 | `setDirection(-1000)` on the motor (brake), or `setDirection(120)` on the inverted steering servo with end positions 460 and 280 | the value saturates at m_Min | not executed | Servos.AsWrittenExamples | Servos.ValueLandmarks |
| src/MouseSpeedSensor.cpp:32-41 | the sign bit negates the movement byte (sign-magnitude) | packet 0x18 0xFF 0x00: a movement of -1 in the PS/2 9-bit two's complement encoding decodes as x = -255 | the byte and the sign bit form a 9-bit two's complement number | not executed | Mouse.SignMagnitudeMisreads | Mouse.Ps2RoundTrip |
