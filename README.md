# Turning-antenna controller, modelled in Dafny

The system turns an antenna with a stepper motor. It is made of three cooperating
Python processes that talk through queues of dictionaries:

- **The engine process** (`stepmotor.py`) owns a `Stepper`. The `Stepper` validates
  its four GPIO pins. It plans a move as an acceleration phase, a constant-speed phase
  and a deceleration phase. It drives the coils through an eight-row half-step table.
  The engine's loop takes one message per pass: a `move` addressed to the engine runs
  the move and answers `reached_dest`, and a message for another process is put back.
- **The controller** (`controller.py`) is a state machine over INIT, STILL, MOVING and
  ERROR. It is written against the `transitions` library. Its callbacks read a
  potentiometer, send move commands to the engine, check the reached position, report
  errors to the API and recover from them.
- **The main loop** (`turnantenna.py`) fires `api_config` once. Then, on every pass, it
  takes at most one message from the API queue and one from the engine queue. It
  handles the engine's status first, then the API's command.

The project has five modules:

- `Values` holds the dynamic Python values the processes exchange, and Python's
  `int()`, `float()`, `+` and `==` on them.
- `Messages` holds the dictionaries and a queue class with `put` and a non-blocking
  `get`.
- `Stepmotor` holds the pin checks, the motion plan and the half-step excitation. It
  also holds the `Stepper` class, whose methods are proved against specification
  functions, and the engine's tick.
- `Controller` holds the transition table and the executor of the `transitions`
  library's semantics:
  - rows are tried in order, with the guard evaluated for each row;
  - then before-callbacks, the state change, and after-callbacks;
  - triggers fired from callbacks run at once;
  - a trigger with no row out of the current state raises `MachineError`.

  It also holds a flat reference definition, `Outcome`, that writes out every trigger
  from every state. A `Controller` class has one method per callback, and each is
  proved to do what the matching function says.
- `Turnantenna` holds the tick of the main loop and the loop itself, as functions and
  as methods over the controller object.

Pin writes are recorded as a trace of `(pin, level)` pairs. The potentiometer reading
and the engine status are an `Env` value that a trigger reads. The queues are `seq`s
inside the controller's state and `MessageQueue` objects in the methods.

The model follows the code, with the one deliberate exception of `handle_error` (see
"## Findings"). Some of the code's choices are worth naming:

- The number of acceleration steps is `int(speed ** 2 / 2 / acc_factor)`, capped at
  half the move.
- A speed below 10 steps per second, including 0, is raised to 10.
- A negative step count is rejected with a message. It does not turn the motor the
  other way.
- A move requested while the machine is MOVING raises `MachineError`. No separate
  "busy" answer is given.

Three points of wiring are taken as the code evidently intends:

- controller.py never builds a `Machine`. The trigger methods are modelled as the
  `transitions` library would add them, starting in INIT.
- The controller's constructor takes the two queues, as turnantenna.py:16 calls it.
  The `__init__` at controller.py:6 takes none.
- `engine_status` and `pot.get_position()` are globals the controller reads. They
  become the `Env` parameter.

Two behaviours of the code are modelled as written and shown by lemmas:

- The controller's move command has no `"dest"` key. The engine process raises
  `KeyError` on it (`Turnantenna.ControllerMoveRejectedByEngine`). When the main loop
  takes the command off the engine queue first, the loop raises `KeyError` on
  `"status"` (`Turnantenna.ControllerMoveTakenByLoop`).
- `prev_position` is set only by `setup_environment`. A completed move does not move
  it on, so the next move's position check compares against the position at setup
  (`Controller.PrevPositionOnlyAtSetup`).

## Model

| member | source | states |
|---|---|---|
| Values.Truncate | stepmotor.py:255-256 | `int()` of a float truncates toward zero: the result is within one of the input, on the side of zero |
| Values.Plus | controller.py:101 | `prev_position + angle` succeeds exactly for two numbers or two strings; numbers add by value and strings concatenate; anything else raises TypeError |
| Values.ParseIntRoundTrip | stepmotor.py:124-141 | `int()` reads back every integer written in decimal, with its sign |
| Values.ToInt | stepmotor.py:255-258 | `int()` accepts exactly ints, floats (truncated toward zero) and strings of an optionally signed run of digits; other strings raise ValueError and other values TypeError |
| Values.ToFloat | controller.py:30-32 | `float()` accepts exactly ints and floats, with their value, and decimal strings; other strings raise ValueError and other values TypeError |
| Values.EqualIsEquivalence | controller.py:101 | `==` is reflexive, symmetric and transitive; an int equals the float of the same value; a non-number equals only itself |
| Values.DecimalExtendsInt | controller.py:30-31 | `float()` accepts every string `int()` accepts, with the same value |
| Messages.Field | turnantenna.py:37-44 | `msg[key]` gives the value exactly when the key is present, and raises KeyError for that key otherwise |
| Messages.MessageQueue.Put | controller.py:56-62 | `put` appends the message at the end of the queue |
| Messages.MessageQueue.Get | turnantenna.py:28-35 | a non-blocking `get` takes the oldest message, or reports Empty and leaves the empty queue as it is |
| Stepmotor.ConvertPins | stepmotor.py:124-141 | the pins convert exactly when each one converts, and keep their order; the first pin that does not convert decides the exception: a ConfigurationError naming that pin for a string, TypeError otherwise |
| Stepmotor.FirstUnknownPin | stepmotor.py:144-147 | finds the first pin outside 0..16, and finds none exactly when all are inside |
| Stepmotor.ValidatePins | stepmotor.py:122-153 | four pins are accepted exactly when each converts to an integer in 0..16 and no two are equal, and the result holds them in order; otherwise the first pin that does not convert decides the exception, else the first pin outside 0..16 gives its "does not exist" ConfigurationError, else the repeated pins give the "unique numbers" ConfigurationError |
| Stepmotor.DistinctIffFullSet | stepmotor.py:150-151 | the set of the pins has four elements exactly when no pin repeats |
| Stepmotor.SpeedDirection | stepmotor.py:156-160 | the direction is -1 exactly when the speed is negative, and 1 otherwise |
| Stepmotor.ClampedSpeed | stepmotor.py:160-167 | the corrected speed lies in [10, 500]; it is the magnitude when that is inside, otherwise the bound it crossed |
| Stepmotor.AccelerationSteps | stepmotor.py:170-177 | the acceleration phase takes at most half the move and at most speed²/(2·factor) steps, and one step more would break one of the two bounds |
| Stepmotor.IdealSteps | stepmotor.py:172 | `int(speed ** 2 / 2 / acc_factor)` is the largest count whose product with 2·factor stays within speed² |
| Stepmotor.AccelerationStepsZero | stepmotor.py:170-177 | no acceleration step is planned exactly when the move is shorter than two steps or speed² is below 2·factor |
| Stepmotor.Plan | stepmotor.py:267-269 | the speed is the clamped requested speed and the direction its sign; the acceleration steps are those of the clamped speed, and the acceleration, constant and deceleration phases add up to the step count |
| Stepmotor.PlanWithoutConstantPhase | stepmotor.py:267-269 | a 1000-step move at speed 250 with factor 2 has no constant-speed phase |
| Stepmotor.ValidateMove | stepmotor.py:250-265 | the arguments are accepted exactly when neither is None, step_num converts to a non-negative integer and speed converts; each rejection carries its own message, checked in order: None step_num, None speed, step_num not an integer, step_num negative, speed not an integer |
| Stepmotor.PhaseIndex | stepmotor.py:190 | the row index Python uses is in 0..7: `n % 8` forward, and the negative index wrapped from the end backward |
| Stepmotor.PhaseAdvances | stepmotor.py:189-194 | each forward step moves one row down the half-step table and each backward step one row up, wrapping at the ends |
| Stepmotor.StepWrites | stepmotor.py:193-194 | each step writes exactly four pins |
| Stepmotor.StepWritesSplit | stepmotor.py:276-305 | the writes of two consecutive runs of steps are the writes of the combined run |
| Stepmotor.ThreePhases | stepmotor.py:276-305 | acceleration, constant speed and deceleration together write exactly the steps of the whole move, in order |
| Stepmotor.LevelAppend | stepmotor.py:193-194 | a pin's level after two traces is its level after the second trace, if that trace writes it, and otherwise its level after the first |
| Stepmotor.FinalExcitation | stepmotor.py:193-194 | after at least one step, each of four distinct pins holds its level in the row of the last step |
| Stepmotor.StopDeenergizes | stepmotor.py:180-184 | after stop, every configured pin is at level 0, whatever was written before |
| Stepmotor.MoveRejectionWritesNothing | stepmotor.py:245-265 | rejected arguments return their message, reset the step counter and change nothing else; no pin is written |
| Stepmotor.MoveDividesByZero | stepmotor.py:276-338 | from rest, move raises ZeroDivisionError exactly when no acceleration step is planned (fewer than two steps, or a speed too low for the factor) |
| Stepmotor.MoveCompletes | stepmotor.py:276-305 | a completed move has taken exactly step_num steps in the speed's direction; it ends at rest, with each coil at the last step's row |
| Stepmotor.Stepper.constructor | stepmotor.py:23-46 | a new Stepper holds the validated pins, has written 0 to each of them, and starts at step 0 with no direction, at rest, with factor 1 and without the movement-control flag |
| Stepmotor.Stepper.CheckPins | stepmotor.py:122-153 | check_pins returns the result of ValidatePins; `inp` becomes the pins on success and is unchanged on failure |
| Stepmotor.Stepper.MovementDidWell | stepmotor.py:112-120 | returns the control flag as it was and re-arms it; when the flag was never created it raises AttributeError and changes nothing |
| Stepmotor.Stepper.CorrectedSpeed | stepmotor.py:155-167 | sets the direction from the sign and returns the clamped magnitude |
| Stepmotor.Stepper.Stop | stepmotor.py:180-184 | appends exactly the four zero writes, in the order inp[0], inp[2], inp[3], inp[1], and changes nothing else |
| Stepmotor.Stepper.RunOneStep | stepmotor.py:187-194 | advances the counter by one and writes the counter's row of the table to the four pins, in order |
| Stepmotor.Stepper.LinearAcceleration | stepmotor.py:349-386 | takes exactly `steps` steps, with the writes of StepWrites; the engine is at rest after a deceleration, and leaves rest once an acceleration step is taken |
| Stepmotor.Stepper.MoveWithConstantSpeed | stepmotor.py:333-347 | at speed 0 it raises ZeroDivisionError before any step; otherwise it takes exactly `steps` steps |
| Stepmotor.Stepper.Move | stepmotor.py:238-305 | the new state and the result are MoveSpec of the old state; the pins and settings are kept |
| Stepmotor.Stepper.Drive | stepmotor.py:267-305 | the three phases do what DriveSpec says: ZeroDivisionError from rest with no acceleration step, otherwise all the steps |
| Stepmotor.ForeignMessageRequeued | stepmotor.py:405-410 | a message for another process goes back to the end of the queue; the queue keeps the same messages and the stepper is untouched |
| Stepmotor.MoveCommandAnswered | stepmotor.py:415-431 | a move command with id "1" that move completes is answered by exactly one reached_dest status at the end of the queue |
| Stepmotor.AngleUsedAsStepCount | stepmotor.py:420-423 | the angle is used as the step count, truncated toward zero: from rest, an angle of -1 or less is rejected as negative, an angle strictly between -1 and 2 raises ZeroDivisionError, and a larger one completes its whole number of steps |
| Stepmotor.EnginePinsAccepted | stepmotor.py:403 | the engine's pins 7, 0, 2, 3 pass the pin checks unchanged |
| Stepmotor.EngineMain | stepmotor.py:389-432 | the engine starts on pins 7, 0, 2, 3 and keeps a valid stepper through every pass |
| Stepmotor.EngineTick | stepmotor.py:405-431 | one pass of the loop does what EngineTickSpec says to the stepper and the queue |
| Controller.RowsFor | controller.py:8-21 | the rows tried for a trigger all belong to that trigger and start in the current state |
| Controller.RowsForFiltersTable | controller.py:8-21 | the rows tried are exactly the table's rows for that trigger and state, in table order |
| Controller.OnlyFromSource | controller.py:8-21 | a trigger has rows out of a state exactly when that state is the trigger's single source |
| Controller.ApiMoveGuardsComplementary | controller.py:11-14 | of the two api_move rows out of STILL exactly one applies: to MOVING with correct inputs, to ERROR otherwise |
| Controller.ErrorExits | controller.py:19-20 | only error_solved (to STILL) and error_unsolved (to INIT) leave ERROR |
| Controller.InputsChecked | controller.py:28-39 | the guard holds exactly when the parameter converts to a float; the parameter then holds that float, and otherwise error is "Incorrect inputs" |
| Controller.InputsCheckedTwice | controller.py:28-39 | checking the inputs twice is checking them once |
| Controller.FireApiConfig | controller.py:9 | api_config out of INIT runs setup_environment and ends in STILL |
| Controller.FireApiInit | controller.py:10 | api_init out of STILL passes through INIT and fires api_config back to STILL |
| Controller.FireApiMoveAccepted | controller.py:11-12 | api_move with correct inputs goes to MOVING and runs engine_move |
| Controller.FireApiMoveRejected | controller.py:13-14 | api_move with incorrect inputs evaluates the guard for both rows, goes to ERROR and runs handle_error (corrected) |
| Controller.FireApiMove | controller.py:11-14 | api_move out of STILL does what Outcome writes out |
| Controller.FireApiError | controller.py:15 | api_error out of STILL goes to ERROR and runs handle_error (corrected) |
| Controller.FireEngineReachedDestination | controller.py:16-17 | engine_reached_destination runs check_position before the move to STILL |
| Controller.FireEngineFail | controller.py:18 | engine_fail out of MOVING goes to ERROR and runs handle_error (corrected) |
| Controller.FireErrorSolved | controller.py:19 | error_solved out of ERROR goes to STILL and tells the position |
| Controller.FireErrorUnsolved | controller.py:20 | error_unsolved out of ERROR goes to INIT, then runs reconfig and tell_position |
| Controller.HandleErrorRecovers | controller.py:120-126 | the corrected handle_error in ERROR reports the error, then goes back to STILL for code "0" and to INIT otherwise |
| Controller.FireMatchesOutcome | controller.py:8-136 | for every state and trigger, the rows, guards, callbacks and nested triggers, with handle_error corrected, do what the flat Outcome says |
| Controller.NeverRestsInError | controller.py:13-20 | with handle_error corrected, a trigger that returns never leaves the machine in ERROR (as written, every path into ERROR raises there) |
| Controller.PrevPositionOnlyAtSetup | controller.py:43-48 | prev_position changes only through setup_environment, that is by api_config or api_init, and then takes the reading |
| Controller.EngineQueueOnlyOnMove | controller.py:50-72 | the engine gets a message only from an accepted api_move with the engine still, and then exactly one move message carrying the float angle |
| Controller.FireOnlyAppends | controller.py:8-136 | a trigger only appends to the API queue and the engine queue |
| Controller.RecoveredOnlyAppends | controller.py:109-136 | error recovery only appends to the API queue and sends nothing to the engine |
| Controller.ConfigRecordsPosition | controller.py:43-48 | api_config records the reading as prev_position, clears parameters and error, sends exactly one update_pos, and ends in STILL |
| Controller.MoveAccepted | controller.py:50-62 | an accepted move with the engine still stores the float angle, sends exactly one move message with it, and ends in MOVING |
| Controller.MoveRejectedReported | controller.py:28-39 | with handle_error corrected, an angle that does not convert is reported as "Incorrect inputs"; the machine goes back to STILL and tells the position |
| Controller.MoveRejectedAsWritten | controller.py:13-14 | as written, an angle that does not convert takes the machine to ERROR with the "Incorrect inputs" record; handle_error reports it, clears it and raises TypeError, leaving the machine in ERROR |
| Controller.MoveWhileBusyReported | controller.py:63-72 | with handle_error corrected, a move while the engine is busy reports the busy engine, sends nothing to it, and ends in STILL |
| Controller.PositionMatched | controller.py:96-107 | a reading equal to prev_position + angle (in exact arithmetic) returns to STILL and changes nothing else |
| Controller.MismatchReported | controller.py:96-107 | with handle_error corrected, a reading that differs (in exact arithmetic) reports the mismatch and ends in STILL, with prev_position unchanged |
| Controller.ErrorUnsolvedOutbox | controller.py:128-136 | error_unsolved sends init, update_pos and update_pos, in this order, and ends in INIT |
| Controller.HandleErrorClassifies | controller.py:120-126 | handle_error sends one print_error with the error and clears it; it ends in STILL for code "0" and in INIT after reconfig otherwise |
| Controller.HandleErrorAsWrittenRaises | controller.py:118-123 | handle_error as written reports the error and clears it, then raises TypeError whatever the error was; neither error_solved nor error_unsolved is reached |
| Controller.Controller.constructor | controller.py:22-24 | a new controller is in INIT with no parameters, prev_position or error, over the two given queues |
| Controller.Controller.Fire | controller.py:8-21 | firing a trigger changes the controller and its queues as AfterFire says |
| Controller.Controller.TryRows | controller.py:8-21 | trying the rows in order does what AfterRows says |
| Controller.Controller.CheckGuard | controller.py:11-14 | evaluating a row's guard runs correct_inputs, with its effects, whenever the row has a condition |
| Controller.Controller.Execute | controller.py:8-21 | a row that applies runs the before-callbacks, the state change and the after-callbacks, as AfterExecute says |
| Controller.Controller.RunCallbacks | controller.py:8-21 | the callbacks run in order until one raises |
| Controller.Controller.RunCallback | controller.py:8-21 | one callback does what AfterCallback says |
| Controller.Controller.CorrectInputs | controller.py:28-39 | correct_inputs does what InputsChecked says |
| Controller.Controller.SetupEnvironment | controller.py:43-48 | setup_environment does what AfterSetup says |
| Controller.Controller.EngineMove | controller.py:50-72 | engine_move does what AfterEngineMove says |
| Controller.Controller.TellPosition | controller.py:84-94 | tell_position appends one update_pos message with the reading |
| Controller.Controller.CheckPosition | controller.py:96-107 | check_position does what AfterCheckPosition says |
| Controller.Controller.ApiPrintError | controller.py:109-118 | api_print_error appends one print_error message and clears the error |
| Controller.Controller.HandleErrorAsWritten | controller.py:120-126 | handle_error as written does what AfterHandleErrorAsWritten says |
| Controller.Controller.HandleError | controller.py:120-126 | the corrected handle_error does what AfterHandleError says |
| Controller.Controller.Reconfig | controller.py:128-136 | reconfig appends an init message and then an update_pos message |
| Turnantenna.EngineMessageOnlyAppends | turnantenna.py:37-39 | handling the engine's message only appends to the queues |
| Turnantenna.ApiMessageOnlyAppends | turnantenna.py:42-50 | handling the API's message only appends to the queues |
| Turnantenna.TickTakesOneEach | turnantenna.py:28-35 | a tick takes at most the first message of each queue; everything the triggers send goes after the messages still waiting |
| Turnantenna.EngineStatusFirst | turnantenna.py:37-50 | when reached_dest and a move request arrive in the same tick, the status is handled first, so api_move fires from STILL |
| Turnantenna.MoveWhileMovingRaises | turnantenna.py:46-48 | a move request while MOVING stores the parameter and then raises MachineError |
| Turnantenna.ForeignIdIgnored | turnantenna.py:42 | an API message whose id is not "1" is taken and dropped |
| Turnantenna.EngineMessageIgnored | turnantenna.py:37-39 | an engine message whose id is not "1", or whose status is not reached_dest, is taken and dropped |
| Turnantenna.UpdatePosReadBack | turnantenna.py:42-50 | the controller's own update_pos messages are read back from the API queue and dropped |
| Turnantenna.ReconfigInitReadBack | turnantenna.py:49-50 | the init message reconfig sends is read back and fires api_init |
| Turnantenna.ReachedDestHandled | turnantenna.py:37-39 | the engine's reached_dest status fires engine_reached_destination |
| Turnantenna.ControllerMoveTakenByLoop | turnantenna.py:32-38 | a move command the loop takes off the engine queue has no "status" and raises KeyError |
| Turnantenna.ControllerMoveRejectedByEngine | stepmotor.py:405-408 | the controller's move command has no "dest", so the engine's tick raises KeyError and leaves the stepper as it was |
| Turnantenna.Tick | turnantenna.py:22-50 | one pass of the loop does what TickSpec says to the controller and both queues, over the machine with handle_error corrected |
| Turnantenna.Run | turnantenna.py:16-50 | main fires api_config on a new controller and then runs one tick per input until a tick raises, as MainSpec says, over the machine with handle_error corrected |

## Left out

- Timing and physics are left out: `time.sleep`, the square-root delays, and the `1 / t` speeds. `actual_speed` is kept only as "at rest or not", which is all the step counts and the division by zero depend on.
- The debug branches of `Stepper` are left out: file writes, the measured-acceleration checks and logging. `_movement_did_well` is modelled, but the flag it reports is set only by the debug code.
- `_convert_angle_to_steps` is left out. It reads attributes that are never set.
- The logging and argument parsing at the start of `engine_main` are left out.
- The `wiringpi` calls are recorded as a trace of pin writes. `pinMode` and the board setup are left out.
- The potentiometer, `engine_status`, and the other processes (the API reader and the engine, seen from the controller) are left out. They become the `Env` reading of one trigger or tick and the messages `TickInput` delivers between ticks. Within one trigger the code may read the potentiometer more than once: `setup_environment` reads it and then `tell_position` reads it again (controller.py:43-47, controller.py:87). The model assumes that every read within one trigger returns the same value, the `Env` reading. Controller.ConfigRecordsPosition depends on that assumption. The other processes' `get` calls are not modelled. The engine process also reads the engine queue (stepmotor.py:405-407) and competes with the main loop for the controller's move command. So `Ticks`, `MainSpec` and `Run` describe only runs in which the main loop is the only reader of both queues. The race is shown one tick at a time, by `Turnantenna.ControllerMoveTakenByLoop` and `Turnantenna.ControllerMoveRejectedByEngine`.
- The `while True` loops are bounded. `EngineMain` runs a given number of passes, and `Run` runs one pass per input. Each input delivers at most one message from each producer.
- Values.ToFloat: `float()` of a string is modelled for plain decimals only. Exponents, `inf`, `nan`, underscores and surrounding whitespace are not modelled.
- Values.ToInt: `int()` of a string is modelled for an optional sign and decimal digits only. Python also accepts surrounding whitespace and underscores between digits (`int(" 7 ")`, `int("1_6")`), which the model refuses. So a pin or step count spelled that way is accepted by the code and rejected by the model.
- Values.FloatV: Python floats are IEEE doubles, but the model's floats are exact reals with no rounding. So `float("0.1")` is exactly one tenth here, and `0.1 + 0.2 == 0.3` holds here but not in Python. Controller.PositionMatched and Controller.MismatchReported hold only under exact arithmetic. A reading that differs from prev_position + angle only by rounding is confirmed by the model, where the code fires engine_fail.
- Controller.AfterCallback and Controller.Controller.RunCallback run the corrected handle_error (`AfterHandleError`, proved by `Controller.HandleErrorClassifies`), not the code as written. So `Fire`, `Turnantenna.Tick` and `Turnantenna.Run`, and every lemma about them, describe the machine with that defect repaired. As written, every path into ERROR raises TypeError there and the main loop ends. That is shown by `Controller.HandleErrorAsWrittenRaises` and, for a rejected move, `Controller.MoveRejectedAsWritten`.
- Values.Plus: list and tuple concatenation is not modelled.
- Values.Value: there is no bool variant. Python accepts `int(True)`, `float(True)` and `True + 1`, but a bool here can only be `OtherV`, which `ToInt`, `ToFloat` and `Plus` refuse with TypeError.
- Stepmotor.EngineMain: its contract states only the engine's configuration. What each pass does is stated by `EngineTick`.
- Stepmotor.Stepper.constructor: the constructor requires pins that pass the checks. The ConfigurationError that `__init__` raises for other pins is stated by `ValidatePins` and `CheckPins`. Its trace records the converted pin numbers, while `__init__` passes the raw arguments to `pinMode` and `digitalWrite`; the two differ only for a pin given as a string or a float. The `debug=True` path, which creates the movement-control flag, is not modelled.
- Stepmotor.Stepper.Drive is split out of `move` only to keep the proof small. `Move` is the operation.
- The `transitions` library's own behaviour beyond what controller.py uses is left out. That includes queued transitions and `prepare` or `finalize` callbacks.
- main.py, api.py, app.py and ppm_event.py are not part of this model.
- The process wiring in turnantenna.py is not part of this model: the `Process` objects, `start`, and the `api_reader` import.

## Findings

| source | as written | input that shows it | evidently intended | confidence | as-written member | corrected member |
|---|---|---|---|---|---|---|
| controller.py:118-123 | `api_print_error` sets `self.error = None` before `handle_error` reads `self.error["error_code"]`, so the read always raises TypeError | api_move out of STILL with parameter "abc": correct_inputs records "Incorrect inputs", handle_error prints it and then raises TypeError | classify the error just reported: error_solved for code "0", error_unsolved otherwise | not executed | Controller.HandleErrorAsWrittenRaises | Controller.HandleErrorClassifies |

The rest of the model runs the corrected handle_error; `Controller.MoveRejectedAsWritten`
shows where the code as written leaves a rejected move: in ERROR, with TypeError raised.
