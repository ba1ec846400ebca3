/** The stepper-motor driver: pin validation, the motion plan (speed clamp,
    acceleration steps, phase split), the half-step excitation written to the four
    GPIO pins, and the engine process's one-message tick. */
module Stepmotor {
  import opened Values
  import opened Messages

  const MinSpeed := 10     // steps per second
  const MaxSpeed := 500    // steps per second
  const DefaultSpeed := 200

  /** The half-step table: row i holds the levels of the four coils for phase i. */
  const Half: seq<seq<int>> :=
    [[1, 0, 0, 1],
     [1, 0, 0, 0],
     [1, 1, 0, 0],
     [0, 1, 0, 0],
     [0, 1, 1, 0],
     [0, 0, 1, 0],
     [0, 0, 1, 1],
     [0, 0, 0, 1]]

  /** One wiringpi.digitalWrite(pin, level) call. */
  datatype PinWrite = PinWrite(pin: int, level: int)

  // ---------------------------------------------------------------------------
  // check_pins

  /** wiringpi knows the GPIO numbers 0..16. */
  predicate ValidPin(p: int) { 0 <= p <= 16 }

  predicate Distinct(s: seq<int>) { forall i, j :: 0 <= i < j < |s| ==> s[i] != s[j] }

  function SetOf(s: seq<int>): set<int> { set x | x in s }

  const PinNames: seq<string> := ["first", "second", "third", "fourth"]

  const RepeatedPinsMessage := "There are two different pins with the same number. Pins must have unique numbers"

  function NoSuchPinMessage(k: nat): string
  {
    "The pin number " + NatToDigits(k + 1) + " does not exist. Valid pin numbers are from 0 to 16."
  }

  /** What check_pins raises when int() refuses the k-th pin argument: a string (a
      ValueError) is reported as a ConfigurationError naming the pin; any other refusal
      (a TypeError, for None, a list or a dict) is not caught and escapes as it is. */
  function PinConversionFault(v: Value, k: nat): Fault
    requires k < 4
  {
    if v.StrV? then ConfigurationError("The " + PinNames[k] + " pin ID is not an integer: " + v.s)
    else TypeError
  }

  /** int() of the pin arguments k.. in order; the first refused argument decides the
      exception. */
  function ConvertPins(args: seq<Value>, k: nat): (r: Result<seq<int>>)
    requires |args| == 4 && k <= 4
    ensures r.Ok? <==> forall j :: k <= j < 4 ==> ToInt(args[j]).Ok?
    ensures r.Ok? ==> |r.value| == 4 - k && forall j :: k <= j < 4 ==> ToInt(args[j]) == Ok(r.value[j - k])
    ensures forall j :: k <= j < 4 && ToInt(args[j]).Raised? && (forall i :: k <= i < j ==> ToInt(args[i]).Ok?) ==>
              r == Raised(PinConversionFault(args[j], j))
    ensures r.Raised? ==> r.fault == TypeError || r.fault.ConfigurationError?
    decreases 4 - k
  {
    if k == 4 then Ok([])
    else
      var converted := ToInt(args[k]);
      if converted.Raised? then Raised(PinConversionFault(args[k], k))
      else
        var rest := ConvertPins(args, k + 1);
        if rest.Raised? then rest else Ok([converted.value] + rest.value)
  }

  /** Index of the first pin from k on that wiringpi does not know. */
  function FirstUnknownPin(pins: seq<int>, k: nat): (r: Option<nat>)
    requires k <= |pins|
    ensures r.None? <==> forall j :: k <= j < |pins| ==> ValidPin(pins[j])
    ensures r.Some? ==> k <= r.value < |pins| && !ValidPin(pins[r.value])
    ensures r.Some? ==> forall j :: k <= j < r.value ==> ValidPin(pins[j])
    decreases |pins| - k
  {
    if k == |pins| then None
    else if !ValidPin(pins[k]) then Some(k)
    else FirstUnknownPin(pins, k + 1)
  }

  /** check_pins(i1, i2, i3, i4): the four pins as integers, or the exception it raises. */
  function ValidatePins(args: seq<Value>): (r: Result<seq<int>>)
    requires |args| == 4
    ensures r.Ok? ==> |r.value| == 4 && Distinct(r.value)
    ensures r.Ok? ==> forall k :: 0 <= k < 4 ==> ToInt(args[k]) == Ok(r.value[k]) && ValidPin(r.value[k])
    ensures r.Ok? <==>
      && (forall k :: 0 <= k < 4 ==> ToInt(args[k]).Ok? && ValidPin(ToInt(args[k]).value))
      && (forall i, j :: 0 <= i < j < 4 ==> ToInt(args[i]).value != ToInt(args[j]).value)
    ensures r.Raised? ==> r.fault == TypeError || r.fault.ConfigurationError?
    ensures forall j :: 0 <= j < 4 && ToInt(args[j]).Raised? && (forall i :: 0 <= i < j ==> ToInt(args[i]).Ok?) ==>
              r == Raised(PinConversionFault(args[j], j))
    ensures (forall k :: 0 <= k < 4 ==> ToInt(args[k]).Ok?) ==>
              forall j :: 0 <= j < 4 && !ValidPin(ToInt(args[j]).value) && (forall i :: 0 <= i < j ==> ValidPin(ToInt(args[i]).value)) ==>
                r == Raised(ConfigurationError(NoSuchPinMessage(j)))
    ensures (forall k :: 0 <= k < 4 ==> ToInt(args[k]).Ok? && ValidPin(ToInt(args[k]).value)) && r.Raised? ==>
              r == Raised(ConfigurationError(RepeatedPinsMessage))
  {
    var converted := ConvertPins(args, 0);
    if converted.Raised? then converted
    else
      var pins := converted.value;
      var unknown := FirstUnknownPin(pins, 0);
      DistinctIffFullSet(pins);
      if unknown.Some? then Raised(ConfigurationError(NoSuchPinMessage(unknown.value)))
      else if |SetOf(pins)| != 4 then Raised(ConfigurationError(RepeatedPinsMessage))
      else Ok(pins)
  }

  lemma {:induction false} SetOfBound(s: seq<int>)
    ensures |SetOf(s)| <= |s|
  {
    if s != [] {
      SetOfBound(s[1..]);
      assert SetOf(s) == {s[0]} + SetOf(s[1..]);
    }
  }

  /** len(set(pins)) == len(pins) is the same as "no pin repeats". */
  lemma {:induction false} DistinctIffFullSet(s: seq<int>)
    ensures |SetOf(s)| == |s| <==> Distinct(s)
  {
    if s != [] {
      var t := s[1..];
      DistinctIffFullSet(t);
      SetOfBound(t);
      assert SetOf(s) == {s[0]} + SetOf(t);
      if s[0] in SetOf(t) {
        var j :| 0 <= j < |t| && t[j] == s[0];
        assert s[j + 1] == s[0];
        assert SetOf(s) == SetOf(t);
      } else {
        assert |SetOf(s)| == 1 + |SetOf(t)|;
        if Distinct(t) {
          forall i, j | 0 <= i < j < |s| ensures s[i] != s[j] {
            if i > 0 { assert s[i] == t[i - 1] && s[j] == t[j - 1]; }
            else { assert s[j] == t[j - 1]; }
          }
        }
        if Distinct(s) {
          forall i, j | 0 <= i < j < |t| ensures t[i] != t[j] {
            assert t[i] == s[i + 1] && t[j] == s[j + 1];
          }
        }
      }
    }
  }

  // ---------------------------------------------------------------------------
  // _corrected_speed, _acceleration_steps and the phase split of move

  function Abs(x: int): nat { if x < 0 then -x else x }

  /** The direction _corrected_speed derives from the sign of the speed. */
  function SpeedDirection(speed: int): (d: int)
    ensures d == 1 || d == -1
    ensures d == -1 <==> speed < 0
  {
    if speed < 0 then -1 else 1
  }

  /** The speed _corrected_speed returns: |speed| clamped to the hardware limits. */
  function ClampedSpeed(speed: int): (r: int)
    ensures MinSpeed <= r <= MaxSpeed
    ensures r == Abs(speed) <==> MinSpeed <= Abs(speed) <= MaxSpeed
    ensures Abs(speed) > MaxSpeed ==> r == MaxSpeed
    ensures Abs(speed) < MinSpeed ==> r == MinSpeed
  {
    var magnitude := Abs(speed);
    if magnitude > MaxSpeed then MaxSpeed
    else if magnitude < MinSpeed then MinSpeed
    else magnitude
  }

  /** _acceleration_steps: int(speed ** 2 / 2 / acc_factor), cut down to int(step_num / 2)
      when that is exceeded. */
  function AccelerationSteps(stepNum: nat, speed: nat, accFactor: int): (r: nat)
    requires accFactor >= 1
    ensures 2 * r <= stepNum
    ensures r * (2 * accFactor) <= speed * speed
    ensures 2 * (r + 1) > stepNum || (r + 1) * (2 * accFactor) > speed * speed
  {
    var ideal: nat := IdealSteps(speed, accFactor);
    if 2 * ideal > stepNum then
      var capped := stepNum / 2;
      MultiplyMonotone(capped, ideal, 2 * accFactor);
      capped
    else ideal
  }

  /** int(speed ** 2 / 2 / acc_factor): the largest count whose doubled product with the
      factor stays within the squared speed. */
  function IdealSteps(speed: nat, accFactor: int): (q: nat)
    requires accFactor >= 1
    ensures q * (2 * accFactor) <= speed * speed < (q + 1) * (2 * accFactor)
  {
    DivisionBounds(speed * speed, 2 * accFactor);
    speed * speed / (2 * accFactor)
  }

  /** The quotient brackets the dividend. */
  lemma DivisionBounds(n: nat, d: int)
    requires d > 0
    ensures 0 <= n / d
    ensures (n / d) * d <= n < (n / d + 1) * d
  {
    assert n == (n / d) * d + n % d;
    assert (n / d + 1) * d == (n / d) * d + d;
  }

  lemma MultiplyMonotone(a: nat, b: nat, c: nat)
    requires a <= b
    ensures a * c <= b * c
  {
  }

  /** No acceleration step is planned exactly when the move is shorter than two steps or
      the speed is too low for the acceleration factor. */
  lemma {:induction false} AccelerationStepsZero(stepNum: nat, speed: nat, accFactor: int)
    requires accFactor >= 1
    ensures AccelerationSteps(stepNum, speed, accFactor) == 0 <==> stepNum < 2 || speed * speed < 2 * accFactor
  {
    var r := AccelerationSteps(stepNum, speed, accFactor);
    if r >= 1 {
      MultiplyMonotone(1, r, 2 * accFactor);
    }
  }

  /** The motion plan move derives from its validated inputs. */
  datatype MotionProfile = MotionProfile(direction: int, speed: int, accelerationSteps: nat, constantSteps: nat)

  function Plan(stepNum: nat, speed: int, accFactor: int): (p: MotionProfile)
    requires accFactor >= 1
    ensures 2 * p.accelerationSteps + p.constantSteps == stepNum
    ensures MinSpeed <= p.speed <= MaxSpeed
    ensures p.direction == -1 <==> speed < 0
    ensures p.speed == ClampedSpeed(speed) && p.direction == SpeedDirection(speed)
    ensures p.accelerationSteps == AccelerationSteps(stepNum, ClampedSpeed(speed), accFactor)
  {
    var v := ClampedSpeed(speed);
    var a := AccelerationSteps(stepNum, v, accFactor);
    MotionProfile(SpeedDirection(speed), v, a, stepNum - 2 * a)
  }

  /** With the code's formula a 1000-step move at speed 250 and factor 2 spends all of
      its steps accelerating and decelerating. */
  lemma PlanWithoutConstantPhase()
    ensures Plan(1000, 250, 2) == MotionProfile(1, 250, 500, 0)
  {
  }

  // ---------------------------------------------------------------------------
  // Validation of move's arguments

  const NoStepNumMessage := "Invalid input. You should choose a value for *step_num*"
  const NoSpeedMessage := "Invalid input. You should choose a value for *speed*. A possible value could be 250 step/s"
  const StepNumNotIntegerMessage := "Invalid input. step_num has to be an integer"
  const StepNumNegativeMessage := "Invalid input. step_num has to be positive"
  const SpeedNotIntegerMessage := "Invalid input. speed has to be an integer"

  datatype MoveInput = Rejected(message: string) | Accepted(stepNum: nat, speed: int)

  /** The checks move makes before it drives the pins, in the order it makes them. */
  function ValidateMove(stepArg: Value, speedArg: Value): (r: MoveInput)
    ensures r.Accepted? <==>
      !stepArg.NoneV? && !speedArg.NoneV? && ToInt(stepArg).Ok? && ToInt(stepArg).value >= 0 && ToInt(speedArg).Ok?
    ensures r.Accepted? ==> r.stepNum == ToInt(stepArg).value && r.speed == ToInt(speedArg).value
    ensures stepArg.NoneV? ==> r == Rejected(NoStepNumMessage)
    ensures !stepArg.NoneV? && speedArg.NoneV? ==> r == Rejected(NoSpeedMessage)
    ensures !stepArg.NoneV? && !speedArg.NoneV? && ToInt(stepArg).Raised? ==> r == Rejected(StepNumNotIntegerMessage)
    ensures !stepArg.NoneV? && !speedArg.NoneV? && ToInt(stepArg).Ok? && ToInt(stepArg).value < 0 ==>
              r == Rejected(StepNumNegativeMessage)
    ensures !stepArg.NoneV? && !speedArg.NoneV? && ToInt(stepArg).Ok? && ToInt(stepArg).value >= 0 && ToInt(speedArg).Raised? ==>
              r == Rejected(SpeedNotIntegerMessage)
  {
    if stepArg.NoneV? then Rejected(NoStepNumMessage)
    else if speedArg.NoneV? then Rejected(NoSpeedMessage)
    else
      var stepNum := ToInt(stepArg);
      if stepNum.Raised? then Rejected(StepNumNotIntegerMessage)
      else if stepNum.value < 0 then Rejected(StepNumNegativeMessage)
      else
        var speed := ToInt(speedArg);
        if speed.Raised? then Rejected(SpeedNotIntegerMessage)
        else Accepted(stepNum.value, speed.value)
  }

  // ---------------------------------------------------------------------------
  // The excitation pattern of each step

  /** The row of Half that run_one_step writes for step counter n: Python indexes the
      table with (n % 8) * direction, and a negative index counts from the end, so a
      backward step uses the row 8 - n % 8 places down the table. */
  function PhaseIndex(n: int, direction: int): (i: int)
    requires direction == 1 || direction == -1
    ensures 0 <= i < 8
    ensures direction == 1 ==> i == n % 8
    ensures direction == -1 ==> (i + n % 8) % 8 == 0
  {
    if direction == 1 || n % 8 == 0 then n % 8 else 8 - n % 8
  }

  /** Forward steps walk the table up, backward steps walk it down, one row per step. */
  lemma {:induction false} PhaseAdvances(n: int, direction: int)
    requires direction == 1 || direction == -1
    ensures PhaseIndex(n + 1, direction) == (PhaseIndex(n, direction) + (if direction == 1 then 1 else 7)) % 8
  {
    if n % 8 == 7 {
      assert (n + 1) % 8 == 0;
    } else {
      assert (n + 1) % 8 == n % 8 + 1;
    }
  }

  /** The writes of "for k in range(0, k): digitalWrite(pins[k], row[k])". */
  function RowWrites(pins: seq<int>, row: seq<int>, k: nat): (w: seq<PinWrite>)
    requires k <= |pins| && k <= |row|
    ensures |w| == k
  {
    if k == 0 then [] else RowWrites(pins, row, k - 1) + [PinWrite(pins[k - 1], row[k - 1])]
  }

  /** A half-step table: eight rows of four coil levels. */
  predicate IsTable(table: seq<seq<int>>)
  {
    |table| == 8 && forall i :: 0 <= i < 8 ==> |table[i]| == 4
  }

  /** The writes of the steps whose counter runs from + 1 .. from + count. */
  function StepWrites(pins: seq<int>, table: seq<seq<int>>, direction: int, from: nat, count: nat): (w: seq<PinWrite>)
    requires |pins| == 4 && IsTable(table) && (direction == 1 || direction == -1)
    ensures |w| == 4 * count
    decreases count
  {
    if count == 0 then []
    else StepWrites(pins, table, direction, from, count - 1) + RowWrites(pins, table[PhaseIndex(from + count, direction)], 4)
  }

  /** The writes of stop, in its order: inp[0], inp[2], inp[3], inp[1]. */
  function StopWrites(pins: seq<int>): seq<PinWrite>
    requires |pins| == 4
  {
    [PinWrite(pins[0], 0), PinWrite(pins[2], 0), PinWrite(pins[3], 0), PinWrite(pins[1], 0)]
  }

  /** The level a trace of writes leaves on a pin: its last write, if any. */
  function Level(trace: seq<PinWrite>, pin: int): Option<int>
  {
    if trace == [] then None
    else if trace[|trace| - 1].pin == pin then Some(trace[|trace| - 1].level)
    else Level(trace[..|trace| - 1], pin)
  }

  lemma {:induction false} LevelAppend(a: seq<PinWrite>, b: seq<PinWrite>, pin: int)
    ensures Level(a + b, pin) == if Level(b, pin).Some? then Level(b, pin) else Level(a, pin)
    decreases |b|
  {
    if b == [] {
      assert a + b == a;
    } else {
      var last := b[|b| - 1];
      assert (a + b)[..|a + b| - 1] == a + b[..|b| - 1];
      if last.pin != pin {
        LevelAppend(a, b[..|b| - 1], pin);
      }
    }
  }

  lemma {:induction false} LevelOfRow(pins: seq<int>, row: seq<int>, m: nat, k: nat)
    requires |pins| == 4 && |row| == 4 && Distinct(pins) && k < m <= 4
    ensures Level(RowWrites(pins, row, m), pins[k]) == Some(row[k])
    decreases m
  {
    var w := RowWrites(pins, row, m);
    assert w[..m - 1] == RowWrites(pins, row, m - 1);
    if k < m - 1 {
      LevelOfRow(pins, row, m - 1, k);
    }
  }

  /** stop leaves every configured pin at level 0, whatever was written before. */
  lemma {:induction false} StopDeenergizes(trace: seq<PinWrite>, pins: seq<int>, k: nat)
    requires |pins| == 4 && k < 4
    ensures Level(trace + StopWrites(pins), pins[k]) == Some(0)
  {
    var w := StopWrites(pins);
    var i := if k == 0 then 0 else if k == 2 then 1 else if k == 3 then 2 else 3;
    assert w[i].pin == pins[k];
    LevelOfLowTrace(w, pins[k], i);
    LevelAppend(trace, w, pins[k]);
  }

  lemma {:induction false} LevelOfLowTrace(w: seq<PinWrite>, pin: int, i: nat)
    requires i < |w| && w[i].pin == pin
    requires forall j :: 0 <= j < |w| ==> w[j].level == 0
    ensures Level(w, pin) == Some(0)
    decreases |w|
  {
    if w[|w| - 1].pin != pin {
      LevelOfLowTrace(w[..|w| - 1], pin, i);
    }
  }

  lemma Associative(a: seq<PinWrite>, b: seq<PinWrite>, c: seq<PinWrite>)
    ensures (a + b) + c == a + (b + c)
  {
  }

  /** The writes of consecutive runs of steps concatenate: a steps from `from`, then b
      steps from mid = from + a, are the writes of the n = a + b steps from `from`. */
  lemma {:induction false} StepWritesSplit(pins: seq<int>, table: seq<seq<int>>, direction: int,
                                           from: nat, a: nat, mid: nat, b: nat, n: nat)
    requires |pins| == 4 && IsTable(table) && (direction == 1 || direction == -1)
    requires mid == from + a && n == a + b
    ensures StepWrites(pins, table, direction, from, a) + StepWrites(pins, table, direction, mid, b)
         == StepWrites(pins, table, direction, from, n)
    decreases b
  {
    if b > 0 {
      StepWritesSplit(pins, table, direction, from, a, mid, b - 1, n - 1);
      var row := RowWrites(pins, table[PhaseIndex(mid + b, direction)], 4);
      assert StepWrites(pins, table, direction, mid, b) == StepWrites(pins, table, direction, mid, b - 1) + row;
      assert StepWrites(pins, table, direction, from, n) == StepWrites(pins, table, direction, from, n - 1) + row;
      Associative(StepWrites(pins, table, direction, from, a), StepWrites(pins, table, direction, mid, b - 1), row);
    }
  }

  /** The trace invariant of the stepping loops: one more step, the n-th, extends the
      writes of the steps before it. */
  lemma StepExtendsTrace(start: seq<PinWrite>, before: seq<PinWrite>, after: seq<PinWrite>,
                         pins: seq<int>, table: seq<seq<int>>, direction: int, from: nat, done: nat, n: int)
    requires |pins| == 4 && IsTable(table) && (direction == 1 || direction == -1) && n == from + done + 1
    requires before == start + StepWrites(pins, table, direction, from, done)
    requires after == before + RowWrites(pins, table[PhaseIndex(n, direction)], 4)
    ensures after == start + StepWrites(pins, table, direction, from, done + 1)
  {
    var row := RowWrites(pins, table[PhaseIndex(n, direction)], 4);
    assert StepWrites(pins, table, direction, from, done + 1) == StepWrites(pins, table, direction, from, done) + row;
    Associative(start, StepWrites(pins, table, direction, from, done), row);
  }

  /** The writes of acceleration, constant speed and deceleration add up to the writes
      of the whole move. */
  lemma ThreePhases(start: seq<PinWrite>, accelerated: seq<PinWrite>, cruised: seq<PinWrite>, decelerated: seq<PinWrite>,
                    pins: seq<int>, table: seq<seq<int>>, direction: int,
                    from: nat, mid: nat, late: nat, a: nat, c: nat, n: nat)
    requires |pins| == 4 && IsTable(table) && (direction == 1 || direction == -1)
    requires mid == from + a && late == mid + c && n == 2 * a + c
    requires accelerated == start + StepWrites(pins, table, direction, from, a)
    requires cruised == accelerated + StepWrites(pins, table, direction, mid, c)
    requires decelerated == cruised + StepWrites(pins, table, direction, late, a)
    ensures decelerated == start + StepWrites(pins, table, direction, from, n)
  {
    var acc := StepWrites(pins, table, direction, from, a);
    var cruise := StepWrites(pins, table, direction, mid, c);
    var dec := StepWrites(pins, table, direction, late, a);
    var ac := a + c;
    StepWritesSplit(pins, table, direction, from, a, mid, c, ac);
    StepWritesSplit(pins, table, direction, from, ac, late, a, n);
    Associative(start, acc, cruise);
    Associative(start, acc + cruise, dec);
  }

  /** After count >= 1 steps every coil holds the row of the last step. */
  lemma {:induction false} FinalExcitation(trace: seq<PinWrite>, pins: seq<int>, table: seq<seq<int>>, direction: int, from: nat, count: nat, k: nat)
    requires |pins| == 4 && Distinct(pins) && IsTable(table) && (direction == 1 || direction == -1) && count >= 1 && k < 4
    ensures Level(trace + StepWrites(pins, table, direction, from, count), pins[k])
         == Some(table[PhaseIndex(from + count, direction)][k])
  {
    var row := table[PhaseIndex(from + count, direction)];
    var earlier := StepWrites(pins, table, direction, from, count - 1);
    LevelOfRow(pins, row, 4, k);
    assert trace + StepWrites(pins, table, direction, from, count) == (trace + earlier) + RowWrites(pins, row, 4);
    LevelAppend(trace + earlier, RowWrites(pins, row, 4), pins[k]);
  }

  // ---------------------------------------------------------------------------
  // move, as a function of the stepper's state

  /** The fields of a Stepper that move changes. atRest stands for actual_speed == 0. */
  datatype StepperState = StepperState(
    actualNumStep: int,
    direction: Option<int>,
    accOrDec: Option<int>,
    atRest: bool,
    trace: seq<PinWrite>)

  /** The attributes of a Stepper that move reads and never changes. */
  datatype Setup = Setup(pins: seq<int>, half: seq<seq<int>>, accelerationFactor: int)

  predicate SetupOk(c: Setup)
  {
    |c.pins| == 4 && IsTable(c.half) && c.accelerationFactor >= 1
  }

  datatype Moved = Moved(state: StepperState, result: Result<Option<string>>)

  /** What move(step_num, speed) does: Ok(Some(message)) for rejected arguments, Ok(None)
      after a complete move, ZeroDivisionError when the constant-speed phase starts at
      speed 0 (no acceleration step was taken from rest). */
  function MoveSpec(s: StepperState, c: Setup, stepArg: Value, speedArg: Value): Moved
    requires SetupOk(c)
  {
    var reset := s.(actualNumStep := 0);
    match ValidateMove(stepArg, speedArg)
    case Rejected(message) => Moved(reset, Ok(Some(message)))
    case Accepted(stepNum, speed) => DriveSpec(reset, c, stepNum, speed)
  }

  /** The motion part of move for validated arguments, from a step counter s.actualNumStep:
      ZeroDivisionError when no acceleration step leaves rest, otherwise stepNum steps in
      the planned direction, ending decelerated to rest. */
  function DriveSpec(s: StepperState, c: Setup, stepNum: nat, speed: int): Moved
    requires SetupOk(c) && s.actualNumStep >= 0
  {
    var p := Plan(stepNum, speed, c.accelerationFactor);
    if s.atRest && p.accelerationSteps == 0 then
      Moved(s.(direction := Some(p.direction), accOrDec := Some(0)), Raised(ZeroDivisionError))
    else
      Moved(StepperState(s.actualNumStep + stepNum, Some(p.direction), Some(-1), true,
                         s.trace + StepWrites(c.pins, c.half, p.direction, s.actualNumStep, stepNum)),
            Ok(None))
  }

  /** The facts Drive establishes, read as DriveSpec. */
  lemma DriveOutcome(s: StepperState, c: Setup, stepNum: nat, requested: int, t: StepperState, r: Result<Option<string>>)
    requires SetupOk(c) && s.actualNumStep >= 0
    requires t.direction == Some(SpeedDirection(requested))
    requires r.Raised? <==> s.atRest && AccelerationSteps(stepNum, ClampedSpeed(requested), c.accelerationFactor) == 0
    requires r.Raised? ==> r == Raised(ZeroDivisionError)
    requires r.Raised? ==> t.actualNumStep == s.actualNumStep && t.trace == s.trace
    requires r.Raised? ==> t.accOrDec == Some(0) && t.atRest == s.atRest
    requires r.Ok? ==> r == Ok(None) && t.accOrDec == Some(-1) && t.atRest
    requires r.Ok? ==> t.actualNumStep == s.actualNumStep + stepNum
    requires r.Ok? ==> t.trace == s.trace + StepWrites(c.pins, c.half, SpeedDirection(requested), s.actualNumStep, stepNum)
    ensures Moved(t, r) == DriveSpec(s, c, stepNum, requested)
  {
  }

  /** Rejected arguments change nothing but the step counter and write no pin. */
  lemma MoveRejectionWritesNothing(s: StepperState, c: Setup, stepArg: Value, speedArg: Value)
    requires SetupOk(c)
    requires ValidateMove(stepArg, speedArg).Rejected?
    ensures MoveSpec(s, c, stepArg, speedArg)
         == Moved(s.(actualNumStep := 0), Ok(Some(ValidateMove(stepArg, speedArg).message)))
  {
  }

  /** From rest, move raises ZeroDivisionError exactly when no acceleration step is
      planned: fewer than two steps, or a speed too low for the acceleration factor. */
  lemma MoveDividesByZero(s: StepperState, c: Setup, stepArg: Value, speedArg: Value)
    requires SetupOk(c) && s.atRest
    requires ValidateMove(stepArg, speedArg).Accepted?
    ensures var input := ValidateMove(stepArg, speedArg);
            var v := ClampedSpeed(input.speed);
            MoveSpec(s, c, stepArg, speedArg).result == Raised(ZeroDivisionError)
            <==> input.stepNum < 2 || v * v < 2 * c.accelerationFactor
  {
    var input := ValidateMove(stepArg, speedArg);
    AccelerationStepsZero(input.stepNum, ClampedSpeed(input.speed), c.accelerationFactor);
  }

  /** A completed move has done exactly step_num steps, in the direction of the speed's
      sign, and the coils hold the row of the last step. */
  lemma MoveCompletes(s: StepperState, c: Setup, stepArg: Value, speedArg: Value, k: nat)
    requires SetupOk(c) && Distinct(c.pins) && k < 4
    requires ValidateMove(stepArg, speedArg).Accepted?
    requires MoveSpec(s, c, stepArg, speedArg).result == Ok(None)
    ensures var input := ValidateMove(stepArg, speedArg);
            var after := MoveSpec(s, c, stepArg, speedArg).state;
            && after.actualNumStep == input.stepNum
            && |after.trace| == |s.trace| + 4 * input.stepNum
            && after.direction == Some(SpeedDirection(input.speed))
            && after.atRest
            && (input.stepNum >= 1 ==>
                  Level(after.trace, c.pins[k]) == Some(c.half[PhaseIndex(input.stepNum, SpeedDirection(input.speed))][k]))
  {
    var input := ValidateMove(stepArg, speedArg);
    if input.stepNum >= 1 {
      FinalExcitation(s.trace, c.pins, c.half, SpeedDirection(input.speed), 0, input.stepNum, k);
    }
  }

  // ---------------------------------------------------------------------------
  // The Stepper object

  class Stepper {
    var inp: seq<int>
    var actualNumStep: int
    var direction: Option<int>        // None until the first move
    var half: seq<seq<int>>
    var accOrDec: Option<int>         // 1 accelerating, 0 constant speed, -1 decelerating
    var atRest: bool                  // actual_speed == 0
    var accelerationFactor: int
    var movementControlPassed: Option<bool>  // None: the attribute does not exist
    var trace: seq<PinWrite>          // every digitalWrite, in order

    /** Four distinct known pins, a half-step table and a positive acceleration factor. */
    ghost predicate Configured()
      reads this`inp, this`half, this`accelerationFactor
    {
      && SetupOk(Settings())
      && (forall k :: 0 <= k < 4 ==> ValidPin(inp[k]))
      && Distinct(inp)
    }

    ghost predicate Valid()
      reads this
    {
      && Configured()
      && actualNumStep >= 0
      && (direction.Some? ==> direction.value == 1 || direction.value == -1)
    }

    /** What stepping needs: four pins, a table, a direction and a counter. */
    ghost predicate Ready()
      reads this`inp, this`half, this`direction, this`actualNumStep
    {
      && |inp| == 4 && IsTable(half) && actualNumStep >= 0
      && direction.Some? && (direction.value == 1 || direction.value == -1)
    }

    function State(): StepperState
      reads this
    {
      StepperState(actualNumStep, direction, accOrDec, atRest, trace)
    }

    function Settings(): Setup
      reads this`inp, this`half, this`accelerationFactor
    {
      Setup(inp, half, accelerationFactor)
    }

    /** Stepper(i1, i2, i3, i4): checks the pins, then drives each of them low. */
    constructor (i1: Value, i2: Value, i3: Value, i4: Value)
      requires ValidatePins([i1, i2, i3, i4]).Ok?
      ensures Valid()
      ensures inp == ValidatePins([i1, i2, i3, i4]).value
      ensures trace == [PinWrite(inp[0], 0), PinWrite(inp[1], 0), PinWrite(inp[2], 0), PinWrite(inp[3], 0)]
      ensures half == Half
      ensures actualNumStep == 0 && direction == None && accOrDec == None && atRest
      ensures accelerationFactor == 1 && movementControlPassed == None
    {
      var pins := ValidatePins([i1, i2, i3, i4]).value;
      inp := pins;
      trace := [PinWrite(pins[0], 0), PinWrite(pins[1], 0), PinWrite(pins[2], 0), PinWrite(pins[3], 0)];
      actualNumStep := 0;
      half := Half;
      direction := None;
      accOrDec := None;
      atRest := true;
      accelerationFactor := 1;
      movementControlPassed := None;    // created only in debug mode
    }

    /** check_pins: on success inp becomes the four pins; on failure nothing changes. */
    method CheckPins(i1: Value, i2: Value, i3: Value, i4: Value) returns (r: Result<seq<int>>)
      requires Valid()
      modifies this`inp
      ensures Valid()
      ensures r == ValidatePins([i1, i2, i3, i4])
      ensures inp == if r.Ok? then r.value else old(inp)
    {
      r := ValidatePins([i1, i2, i3, i4]);
      if r.Ok? {
        inp := r.value;
      }
    }

    /** _movement_did_well: reports the control flag and re-arms it; without the flag
        (a Stepper built outside debug mode) reading it raises AttributeError. */
    method MovementDidWell() returns (r: Result<bool>)
      modifies this`movementControlPassed
      ensures old(movementControlPassed).None? ==>
                r == Raised(AttributeError("movement_control_passed")) && movementControlPassed == None
      ensures old(movementControlPassed).Some? ==>
                r == Ok(old(movementControlPassed).value) && movementControlPassed == Some(true)
    {
      if movementControlPassed.None? {
        return Raised(AttributeError("movement_control_passed"));
      }
      r := Ok(movementControlPassed.value);
      movementControlPassed := Some(true);
    }

    /** _corrected_speed: sets the direction from the sign, returns the clamped magnitude. */
    method CorrectedSpeed(speed: int) returns (r: int)
      modifies this`direction
      ensures direction == Some(SpeedDirection(speed))
      ensures r == ClampedSpeed(speed)
    {
      var magnitude := speed;
      if speed >= 0 {
        direction := Some(1);
      }
      if speed < 0 {
        direction := Some(-1);
        magnitude := -speed;
      }
      if magnitude > MaxSpeed {
        magnitude := MaxSpeed;
      }
      if magnitude < MinSpeed {
        magnitude := MinSpeed;
      }
      r := magnitude;
    }

    /** stop: drives the four pins low and changes nothing else. */
    method Stop()
      requires Valid()
      modifies this`trace
      ensures trace == old(trace) + StopWrites(inp)
    {
      trace := trace + [PinWrite(inp[0], 0)];
      trace := trace + [PinWrite(inp[2], 0)];
      trace := trace + [PinWrite(inp[3], 0)];
      trace := trace + [PinWrite(inp[1], 0)];
    }

    /** run_one_step: advances the counter and writes the counter's row to the pins. */
    method RunOneStep()
      requires Ready()
      modifies this`actualNumStep, this`trace
      ensures Ready()
      ensures actualNumStep == old(actualNumStep) + 1
      ensures trace == old(trace) + RowWrites(inp, half[PhaseIndex(actualNumStep, direction.value)], 4)
    {
      actualNumStep := actualNumStep + 1;
      var phase := (actualNumStep % 8) * direction.value;
      var row := half[if phase < 0 then phase + 8 else phase];
      for k := 0 to 4
        invariant trace == old(trace) + RowWrites(inp, row, k)
        invariant actualNumStep == old(actualNumStep) + 1
      {
        trace := trace + [PinWrite(inp[k], row[k])];
      }
    }

    /** _linear_acceleration: one step per iteration, steps times; the timing is not
        modelled, only that the engine is no longer at rest once a step was taken and is
        at rest again after a deceleration. */
    method LinearAcceleration(steps: nat, accIsPositive: bool)
      requires Ready()
      modifies this`actualNumStep, this`trace, this`accOrDec, this`atRest
      ensures Ready()
      ensures accOrDec == Some(if accIsPositive then 1 else -1)
      ensures actualNumStep == old(actualNumStep) + steps
      ensures trace == old(trace) + StepWrites(inp, half, direction.value, old(actualNumStep), steps)
      ensures atRest == if accIsPositive then steps == 0 && old(atRest) else true
    {
      accOrDec := Some(if accIsPositive then 1 else -1);
      var count := 1;
      ghost var from: nat, start, taken: nat := actualNumStep, trace, 0;
      while count <= steps
        invariant taken == count - 1 && taken <= steps
        invariant actualNumStep == from + taken
        invariant trace == start + StepWrites(inp, half, direction.value, from, taken)
        invariant if taken == 0 then atRest == old(atRest) else !atRest
        invariant Ready()
        modifies this`actualNumStep, this`trace, this`atRest
      {
        ghost var before := trace;
        atRest := false;    // actual_speed = 1 / t
        RunOneStep();
        StepExtendsTrace(start, before, trace, inp, half, direction.value, from, taken, actualNumStep);
        count := count + 1;
        taken := taken + 1;
      }
      assert taken == steps;
      if !accIsPositive {
        atRest := true;
      }
    }

    /** _move_with_constant_speed: computing 1 / speed raises ZeroDivisionError at speed 0;
        otherwise one step per iteration, steps times. */
    method MoveWithConstantSpeed(steps: nat, speedIsZero: bool) returns (fault: Option<Fault>)
      requires Ready()
      modifies this`actualNumStep, this`trace, this`accOrDec, this`atRest
      ensures Ready()
      ensures accOrDec == Some(0) && atRest == speedIsZero
      ensures speedIsZero ==>
        fault == Some(ZeroDivisionError) && actualNumStep == old(actualNumStep) && trace == old(trace)
      ensures !speedIsZero ==>
        && fault == None
        && actualNumStep == old(actualNumStep) + steps
        && trace == old(trace) + StepWrites(inp, half, direction.value, old(actualNumStep), steps)
    {
      accOrDec := Some(0);
      atRest := speedIsZero;
      if speedIsZero {
        return Some(ZeroDivisionError);
      }
      var s := 0;
      ghost var from: nat := actualNumStep;
      ghost var start := trace;
      while s < steps
        invariant 0 <= s <= steps
        invariant actualNumStep == from + s
        invariant trace == start + StepWrites(inp, half, direction.value, from, s)
        invariant Ready()
        modifies this`actualNumStep, this`trace
      {
        ghost var before := trace;
        RunOneStep();
        StepExtendsTrace(start, before, trace, inp, half, direction.value, from, s, actualNumStep);
        s := s + 1;
      }
      fault := None;
    }

    /** move(step_num, speed): reset the counter, validate, then drive. */
    method Move(stepArg: Value, speedArg: Value) returns (r: Result<Option<string>>)
      requires Valid()
      modifies this`actualNumStep, this`trace, this`accOrDec, this`atRest, this`direction
      ensures Valid() && inp == old(inp)
      ensures Moved(State(), r) == MoveSpec(old(State()), Settings(), stepArg, speedArg)
    {
      actualNumStep := 0;
      var input := ValidateMove(stepArg, speedArg);
      if input.Rejected? {
        return Ok(Some(input.message));
      }
      r := Drive(input.stepNum, input.speed);
    }

    /** The body of move after its argument checks: plan, accelerate, cruise, decelerate. */
    method Drive(stepNum: nat, requested: int) returns (r: Result<Option<string>>)
      requires SetupOk(Settings()) && actualNumStep >= 0
      modifies this`actualNumStep, this`trace, this`accOrDec, this`atRest, this`direction
      ensures Ready()
      ensures Moved(State(), r) == DriveSpec(old(State()), old(Settings()), stepNum, requested)
    {
      ghost var s0, c0 := State(), Settings();
      assert s0 == old(State()) && c0 == old(Settings());
      var speed := CorrectedSpeed(requested);
      var accelerationSteps := AccelerationSteps(stepNum, speed, accelerationFactor);
      var constantSpeedSteps := stepNum - 2 * accelerationSteps;
      var d := direction.value;
      ghost var start, from: nat, pins, table := trace, actualNumStep, inp, half;
      LinearAcceleration(accelerationSteps, true);
      ghost var accelerated, mid: nat := trace, actualNumStep;
      // speed = min(speed, actual_speed); the requested speed is at least MinSpeed, so the
      // constant phase starts at speed 0 exactly when the engine is still at rest
      var speedIsZero := atRest;
      var fault := MoveWithConstantSpeed(constantSpeedSteps, speedIsZero);
      if fault.Some? {
        r := Raised(fault.value);
      } else {
        ghost var cruised, late: nat := trace, actualNumStep;
        LinearAcceleration(accelerationSteps, false);
        ThreePhases(start, accelerated, cruised, trace, pins, table, d, from, mid, late, accelerationSteps, constantSpeedSteps, stepNum);
        r := Ok(None);
      }
      DriveOutcome(s0, c0, stepNum, requested, State(), r);
    }
  }

  // ---------------------------------------------------------------------------
  // engine_main: the engine process's tick

  /** The status the engine reports after a move command. */
  const ReachedDest: Msg := map["id" := StrV("1"), "dest" := StrV("controller"), "status" := StrV("reached_dest")]

  datatype EngineTicked = EngineTicked(stepper: StepperState, queue: seq<Msg>, result: Result<()>)

  /** One pass of engine_main's loop over the queue q. A message whose "dest" is not
      "engine" goes back to the end of the queue; a "move" with id "1" runs move with the
      parameter as step_num and the default speed, then reports reached_dest. A missing
      key raises KeyError; the rejection message move may return is not looked at. */
  function EngineTickSpec(s: StepperState, c: Setup, q: seq<Msg>): EngineTicked
    requires SetupOk(c)
  {
    if q == [] then EngineTicked(s, q, Ok(()))
    else
      var m := q[0];
      var rest := q[1..];
      match Field(m, "dest")
      case Raised(f) => EngineTicked(s, rest, Raised(f))
      case Ok(dest) =>
        if dest != StrV("engine") then EngineTicked(s, rest + [m], Ok(()))
        else
          // the message has a "dest" key, so it is truthy
          match Field(m, "id")
          case Raised(f) => EngineTicked(s, rest, Raised(f))
          case Ok(id) =>
            if id != StrV("1") then EngineTicked(s, rest, Ok(()))
            else
              match Field(m, "command")
              case Raised(f) => EngineTicked(s, rest, Raised(f))
              case Ok(command) =>
                match Field(m, "parameter")
                case Raised(f) => EngineTicked(s, rest, Raised(f))
                case Ok(parameter) =>
                  if command != StrV("move") then EngineTicked(s, rest, Ok(()))
                  else
                    var moved := MoveSpec(s, c, parameter, IntV(DefaultSpeed));
                    if moved.result.Raised? then EngineTicked(moved.state, rest, Raised(moved.result.fault))
                    else EngineTicked(moved.state, rest + [ReachedDest], Ok(()))
  }

  /** A message for another process is put back unchanged: the queue keeps the same
      messages and the stepper is untouched. */
  lemma {:induction false} ForeignMessageRequeued(s: StepperState, c: Setup, q: seq<Msg>)
    requires SetupOk(c)
    requires q != [] && "dest" in q[0] && q[0]["dest"] != StrV("engine")
    ensures var t := EngineTickSpec(s, c, q);
            t.stepper == s && t.result == Ok(()) && t.queue == q[1..] + [q[0]]
            && multiset(t.queue) == multiset(q)
  {
    assert q == [q[0]] + q[1..];
  }

  /** A move command with id "1" that move completes is answered by exactly one
      reached_dest status at the end of the queue, whether move accepted its arguments
      or returned a rejection message. */
  lemma MoveCommandAnswered(s: StepperState, c: Setup, q: seq<Msg>)
    requires SetupOk(c) && q != []
    requires q[0].Keys == {"dest", "id", "command", "parameter"}
    requires q[0]["dest"] == StrV("engine") && q[0]["id"] == StrV("1") && q[0]["command"] == StrV("move")
    requires MoveSpec(s, c, q[0]["parameter"], IntV(DefaultSpeed)).result.Ok?
    ensures var t := EngineTickSpec(s, c, q);
            && t.result == Ok(())
            && t.queue == q[1..] + [ReachedDest]
            && t.stepper == MoveSpec(s, c, q[0]["parameter"], IntV(DefaultSpeed)).state
  {
  }

  /** engine_main hands the angle to move as step_num, truncated toward zero: from rest,
      an angle of -1 or less is rejected as a negative step count, an angle strictly
      between -1 and 2 makes the engine raise ZeroDivisionError, and a larger one is
      moved as its whole number of steps. */
  lemma AngleUsedAsStepCount(s: StepperState, c: Setup, angle: real)
    requires SetupOk(c) && c.accelerationFactor == 1 && s.atRest
    ensures var moved := MoveSpec(s, c, FloatV(angle), IntV(DefaultSpeed));
            && (angle <= -1.0 <==> moved.result == Ok(Some(StepNumNegativeMessage)))
            && (-1.0 < angle < 2.0 <==> moved.result == Raised(ZeroDivisionError))
            && (angle >= 2.0 ==> moved.result == Ok(None) && moved.state.actualNumStep == Truncate(angle))
  {
    var steps := Truncate(angle);
    if angle <= -1.0 {
      assert steps < 0;
      assert ValidateMove(FloatV(angle), IntV(DefaultSpeed)) == Rejected(StepNumNegativeMessage);
    } else {
      assert steps >= 0;
      assert steps < 2 <==> angle < 2.0;
      var input := ValidateMove(FloatV(angle), IntV(DefaultSpeed));
      assert input == Accepted(steps, DefaultSpeed);
      AccelerationStepsZero(steps, ClampedSpeed(DefaultSpeed), 1);
    }
  }

  /** The pins engine_main configures, 7, 0, 2 and 3, pass the pin checks unchanged. */
  lemma EnginePinsAccepted()
    ensures ValidatePins([IntV(7), IntV(0), IntV(2), IntV(3)]) == Ok([7, 0, 2, 3])
  {
    var args := [IntV(7), IntV(0), IntV(2), IntV(3)];
    assert forall k :: 0 <= k < 4 ==> ToInt(args[k]) == Ok([7, 0, 2, 3][k]);
    var r := ValidatePins(args);
    assert r.Ok?;
    assert r.value == [7, 0, 2, 3];
  }

  /** engine_main: builds Stepper(7, 0, 2, 3) and runs the tick `ticks` times, or until an
      exception ends the process. */
  method EngineMain(queue: MessageQueue, ticks: nat) returns (engine: Stepper, r: Result<()>)
    modifies queue
    ensures fresh(engine) && engine.Valid() && engine.inp == [7, 0, 2, 3]
  {
    EnginePinsAccepted();
    engine := new Stepper(IntV(7), IntV(0), IntV(2), IntV(3));
    r := Ok(());
    var i := 0;
    while i < ticks && r.Ok?
      invariant engine.Valid() && engine.inp == [7, 0, 2, 3]
      invariant 0 <= i <= ticks
    {
      r := EngineTick(engine, queue);
      i := i + 1;
    }
  }

  method EngineTick(engine: Stepper, queue: MessageQueue) returns (r: Result<()>)
    requires engine.Valid()
    modifies engine, queue
    ensures engine.Valid() && engine.Settings() == old(engine.Settings())
    ensures EngineTicked(engine.State(), queue.items, r)
         == EngineTickSpec(old(engine.State()), engine.Settings(), old(queue.items))
  {
    var got := queue.Get();
    var msg: Option<Msg> := None;
    if got.Some? {
      var dest := Field(got.value, "dest");
      if dest.Raised? {
        return Raised(dest.fault);
      }
      if dest.value != StrV("engine") {
        queue.Put(got.value);
      } else {
        msg := got;
      }
    }
    // time.sleep(0.1)
    if msg.Some? && Truthy(msg.value) {
      var id := Field(msg.value, "id");
      if id.Raised? {
        return Raised(id.fault);
      }
      if id.value == StrV("1") {
        var command := Field(msg.value, "command");
        if command.Raised? {
          return Raised(command.fault);
        }
        var parameter := Field(msg.value, "parameter");
        if parameter.Raised? {
          return Raised(parameter.fault);
        }
        if command.value == StrV("move") {
          var moved := engine.Move(parameter.value, IntV(DefaultSpeed));
          if moved.Raised? {
            return Raised(moved.fault);
          }
          queue.Put(ReachedDest);
        }
      }
    }
    r := Ok(());
  }
}
