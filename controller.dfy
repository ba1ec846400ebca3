/** The controller's state machine: its transition table, the semantics of firing a
    trigger (conditions, before and after callbacks, triggers fired from inside a
    callback), the callbacks themselves, and a Controller class whose trigger and
    callback methods are proved against those definitions. */
module Controller {
  import opened Values
  import opened Messages

  datatype State = Init | Still | Error | Moving

  datatype Trigger =
    | ApiConfig | ApiInit | ApiMove | ApiError
    | EngineReachedDestination | EngineFail | ErrorSolved | ErrorUnsolved

  function TriggerName(t: Trigger): string
  {
    match t
    case ApiConfig => "api_config"
    case ApiInit => "api_init"
    case ApiMove => "api_move"
    case ApiError => "api_error"
    case EngineReachedDestination => "engine_reached_destination"
    case EngineFail => "engine_fail"
    case ErrorSolved => "error_solved"
    case ErrorUnsolved => "error_unsolved"
  }

  /** A row's condition: none, "conditions": correct_inputs, or "unless": correct_inputs. */
  datatype Guard = Always | IfCorrectInputs | UnlessCorrectInputs

  /** The callbacks the table names; "api_config" as a callback fires that trigger. */
  datatype Callback =
    | SetupEnvironment | EngineMove | CheckPosition | HandleError | Reconfig | TellPosition
    | FireTrigger(trigger: Trigger)

  datatype Row = Row(trigger: Trigger, source: State, dest: State, guard: Guard,
                     before: seq<Callback>, after: seq<Callback>)

  const ConfigRow := Row(ApiConfig, Init, Still, Always, [SetupEnvironment], [])
  const InitRow := Row(ApiInit, Still, Init, Always, [], [FireTrigger(ApiConfig)])
  const MoveRow := Row(ApiMove, Still, Moving, IfCorrectInputs, [], [EngineMove])
  const MoveRejectedRow := Row(ApiMove, Still, Error, UnlessCorrectInputs, [], [HandleError])
  const ApiErrorRow := Row(ApiError, Still, Error, Always, [], [HandleError])
  const ReachedRow := Row(EngineReachedDestination, Moving, Still, Always, [CheckPosition], [])
  const EngineFailRow := Row(EngineFail, Moving, Error, Always, [], [HandleError])
  const SolvedRow := Row(ErrorSolved, Error, Still, Always, [], [TellPosition])
  const UnsolvedRow := Row(ErrorUnsolved, Error, Init, Always, [], [Reconfig, TellPosition])

  /** The transition table, row by row in its order. */
  const Table: seq<Row> := [ConfigRow, InitRow, MoveRow, MoveRejectedRow, ApiErrorRow,
                            ReachedRow, EngineFailRow, SolvedRow, UnsolvedRow]

  /** The rows of `rows` for trigger t out of state s, in table order. */
  function Matching(rows: seq<Row>, t: Trigger, s: State): seq<Row>
  {
    if rows == [] then []
    else if rows[0].trigger == t && rows[0].source == s then [rows[0]] + Matching(rows[1..], t, s)
    else Matching(rows[1..], t, s)
  }

  // ---------------------------------------------------------------------------
  // Ranks: a callback only fires triggers of lower rank than its own, and a trigger's
  // rows only name callbacks of lower rank, so a cascade of triggers ends.

  function TriggerRank(t: Trigger): nat
  {
    match t
    case ApiConfig => 1
    case ErrorSolved => 1
    case ErrorUnsolved => 1
    case ApiInit => 3
    case ApiError => 3
    case EngineFail => 3
    case ApiMove => 5
    case EngineReachedDestination => 5
  }

  function CallbackRank(cb: Callback): nat
  {
    match cb
    case SetupEnvironment => 0
    case Reconfig => 0
    case TellPosition => 0
    case HandleError => 2
    case EngineMove => 4
    case CheckPosition => 4
    case FireTrigger(t) => TriggerRank(t) + 1
  }

  /** Every callback in the list ranks below rank. */
  predicate Below(callbacks: seq<Callback>, rank: nat)
  {
    forall i :: 0 <= i < |callbacks| ==> CallbackRank(callbacks[i]) < rank
  }

  predicate Ranked(row: Row)
  {
    Below(row.before, TriggerRank(row.trigger)) && Below(row.after, TriggerRank(row.trigger))
  }

  /** The rows the machine tries for trigger t in state s: Matching(Table, t, s),
      grouped by trigger. */
  function RowsFor(t: Trigger, s: State): (rows: seq<Row>)
    ensures forall i :: 0 <= i < |rows| ==> rows[i].trigger == t && rows[i].source == s && Ranked(rows[i])
  {
    match t
    case ApiConfig => if s == Init then [ConfigRow] else []
    case ApiInit => if s == Still then [InitRow] else []
    case ApiMove => if s == Still then [MoveRow, MoveRejectedRow] else []
    case ApiError => if s == Still then [ApiErrorRow] else []
    case EngineReachedDestination => if s == Moving then [ReachedRow] else []
    case EngineFail => if s == Moving then [EngineFailRow] else []
    case ErrorSolved => if s == Error then [SolvedRow] else []
    case ErrorUnsolved => if s == Error then [UnsolvedRow] else []
  }

  /** The one state each trigger may be fired from. */
  function Source(t: Trigger): State
  {
    match t
    case ApiConfig => Init
    case ApiInit => Still
    case ApiMove => Still
    case ApiError => Still
    case EngineReachedDestination => Moving
    case EngineFail => Moving
    case ErrorSolved => Error
    case ErrorUnsolved => Error
  }

  /** The destination of the first row for t out of s whose guard holds, when
      correct_inputs would answer inputsOk. */
  function Next(s: State, t: Trigger, inputsOk: bool): Option<State>
  {
    FirstEnabled(RowsFor(t, s), inputsOk)
  }

  function FirstEnabled(rows: seq<Row>, inputsOk: bool): Option<State>
  {
    if rows == [] then None
    else if Enabled(rows[0].guard, inputsOk) then Some(rows[0].dest)
    else FirstEnabled(rows[1..], inputsOk)
  }

  predicate Enabled(g: Guard, inputsOk: bool)
  {
    match g
    case Always => true
    case IfCorrectInputs => inputsOk
    case UnlessCorrectInputs => !inputsOk
  }

  /** The head row as a one-row filter result. */
  function Hit(row: Row, t: Trigger, s: State): seq<Row>
  {
    if row.trigger == t && row.source == s then [row] else []
  }

  /** One step of the filter: the head row, if it matches, then the rest. */
  lemma MatchingUnfold(rows: seq<Row>, t: Trigger, s: State)
    requires rows != []
    ensures Matching(rows, t, s) == Hit(rows[0], t, s) + Matching(rows[1..], t, s)
  {
  }

  lemma {:induction false} MatchingTable(t: Trigger, s: State)
    ensures Matching(Table, t, s)
         == Hit(ConfigRow, t, s) + (Hit(InitRow, t, s) + (Hit(MoveRow, t, s) + (Hit(MoveRejectedRow, t, s)
          + (Hit(ApiErrorRow, t, s) + (Hit(ReachedRow, t, s) + (Hit(EngineFailRow, t, s) + (Hit(SolvedRow, t, s)
          + (Hit(UnsolvedRow, t, s)))))))))
  {
    assert Table[9..] == [];
    MatchingUnfold(Table[8..], t, s);
    assert Table[8..][1..] == Table[9..];
    MatchingUnfold(Table[7..], t, s);
    assert Table[7..][1..] == Table[8..];
    MatchingUnfold(Table[6..], t, s);
    assert Table[6..][1..] == Table[7..];
    MatchingUnfold(Table[5..], t, s);
    assert Table[5..][1..] == Table[6..];
    MatchingUnfold(Table[4..], t, s);
    assert Table[4..][1..] == Table[5..];
    MatchingUnfold(Table[3..], t, s);
    assert Table[3..][1..] == Table[4..];
    MatchingUnfold(Table[2..], t, s);
    assert Table[2..][1..] == Table[3..];
    MatchingUnfold(Table[1..], t, s);
    assert Table[1..][1..] == Table[2..];
    MatchingUnfold(Table[0..], t, s);
    assert Table[0..][1..] == Table[1..];
    assert Table[0..] == Table;
  }

  /** The triggers whose rows open the table. */
  predicate FrontTrigger(t: Trigger)
  {
    t == ApiConfig || t == ApiInit || t == ApiMove
  }

  lemma HitsGroupFront(t: Trigger, s: State)
    ensures Hit(ConfigRow, t, s) + (Hit(InitRow, t, s) + (Hit(MoveRow, t, s) + Hit(MoveRejectedRow, t, s)))
         == if FrontTrigger(t) then RowsFor(t, s) else []
  {
  }

  lemma HitsGroupBack(t: Trigger, s: State)
    ensures Hit(ApiErrorRow, t, s) + (Hit(ReachedRow, t, s) + (Hit(EngineFailRow, t, s) + (Hit(SolvedRow, t, s)
          + Hit(UnsolvedRow, t, s))))
         == if FrontTrigger(t) then [] else RowsFor(t, s)
  {
  }

  /** The table's hits for t out of s, concatenated in order, are the grouped rows. */
  lemma HitsGroup(t: Trigger, s: State)
    ensures Hit(ConfigRow, t, s) + (Hit(InitRow, t, s) + (Hit(MoveRow, t, s) + (Hit(MoveRejectedRow, t, s)
          + (Hit(ApiErrorRow, t, s) + (Hit(ReachedRow, t, s) + (Hit(EngineFailRow, t, s) + (Hit(SolvedRow, t, s)
          + (Hit(UnsolvedRow, t, s)))))))))
         == RowsFor(t, s)
  {
    HitsGroupFront(t, s);
    HitsGroupBack(t, s);
  }

  /** The grouped rows are exactly the table's rows for t out of s, in order. */
  lemma {:induction false} RowsForFiltersTable(t: Trigger, s: State)
    ensures RowsFor(t, s) == Matching(Table, t, s)
  {
    HitsGroup(t, s);
    MatchingTable(t, s);
  }

  /** Every trigger has rows in exactly one state: its source. */
  lemma OnlyFromSource(t: Trigger, s: State)
    ensures RowsFor(t, s) != [] <==> s == Source(t)
  {
  }

  /** The two api_move rows out of STILL have complementary guards: exactly one
      applies, to MOVING when the inputs are correct and to ERROR otherwise. */
  lemma ApiMoveGuardsComplementary(inputsOk: bool)
    ensures Next(Still, ApiMove, inputsOk) == Some(if inputsOk then Moving else Error)
    ensures forall row :: row in RowsFor(ApiMove, Still) && Enabled(row.guard, inputsOk) ==>
              row.dest == (if inputsOk then Moving else Error)
  {
    var rows := RowsFor(ApiMove, Still);
    assert rows == [MoveRow, MoveRejectedRow];
    assert rows[1..] == [MoveRejectedRow];
    if !inputsOk {
      assert FirstEnabled(rows[1..], inputsOk) == Some(Error);
    }
  }

  /** Out of ERROR only error_solved (to STILL) and error_unsolved (to INIT) lead. */
  lemma ErrorExits(t: Trigger, inputsOk: bool)
    ensures Next(Error, t, inputsOk).Some? <==> t == ErrorSolved || t == ErrorUnsolved
    ensures Next(Error, ErrorSolved, inputsOk) == Some(Still)
    ensures Next(Error, ErrorUnsolved, inputsOk) == Some(Init)
  {
  }

  // ---------------------------------------------------------------------------
  // The controller's data, the environment it reads, and its messages

  /** Everything a trigger can change: the machine state, the three attributes, and the
      contents of the two queues the controller writes to. */
  datatype Ctl = Ctl(state: State, parameters: Value, prevPosition: Value, error: Option<ErrorRecord>,
                     apiQueue: seq<Msg>, engineQueue: seq<Msg>)

  /** What the controller reads from outside: the potentiometer's reading and whether
      the engine reports "still". */
  datatype Env = Env(position: Value, engineStill: bool)

  /** The controller after a call, and what the call returned or raised. */
  datatype Step<T> = Step(c: Ctl, r: Result<T>)

  const IncorrectInputs := ErrorRecord("0", "harmless error", "Incorrect inputs")
  const EngineBusy := ErrorRecord("0", "harmless error", "Trying to control the engine when it's busy")
  const PositionMismatch := ErrorRecord("0", "harmless error", "After the movement, the position were not matched")

  function UpdatePosMsg(position: Value): Msg
  {
    map["id" := StrV("1"), "command" := StrV("update_pos"), "parameter" := position]
  }

  function MoveMsg(angle: Value): Msg
  {
    map["id" := StrV("1"), "command" := StrV("move"), "parameter" := angle]
  }

  function ErrorValue(error: Option<ErrorRecord>): Value
  {
    if error.Some? then RecordV(error.value) else NoneV
  }

  function PrintErrorMsg(id: string, error: Option<ErrorRecord>): Msg
  {
    map["id" := StrV(id), "command" := StrV("print_error"), "parameter" := ErrorValue(error)]
  }

  const InitMsg: Msg := map["id" := StrV("1"), "command" := StrV("init"), "parameter" := NoneV]

  /** A callback that fires a trigger drops the trigger's return value; an exception
      passes through. */
  function Dropped(r: Result<bool>): Result<()>
  {
    if r.Raised? then Raised(r.fault) else Ok(())
  }

  function Discard(o: Step<bool>): Step<()>
  {
    Step(o.c, Dropped(o.r))
  }

  // ---------------------------------------------------------------------------
  // The callbacks that fire nothing

  /** correct_inputs: parameters := float(parameters), or the "Incorrect inputs" error
      record when float() raises ValueError or TypeError. */
  function InputsChecked(c: Ctl): (r: (Ctl, bool))
    ensures r.1 <==> ToFloat(c.parameters).Ok?
    ensures r.1 ==> r.0 == c.(parameters := FloatV(ToFloat(c.parameters).value))
    ensures !r.1 ==> r.0 == c.(error := Some(IncorrectInputs))
  {
    match ToFloat(c.parameters)
    case Ok(x) => (c.(parameters := FloatV(x)), true)
    case Raised(_) => (c.(error := Some(IncorrectInputs)), false)
  }

  /** Checking the inputs twice is checking them once: the float it stores converts to
      itself, and a failed check leaves the parameters as they were. */
  lemma InputsCheckedTwice(c: Ctl)
    ensures InputsChecked(InputsChecked(c).0) == InputsChecked(c)
  {
    var once := InputsChecked(c);
    if once.1 {
      assert ToFloat(once.0.parameters) == ToFloat(c.parameters);
    }
  }

  /** tell_position: one update_pos message with the reading. */
  function AfterTellPosition(c: Ctl, env: Env): Ctl
  {
    c.(apiQueue := c.apiQueue + [UpdatePosMsg(env.position)])
  }

  /** setup_environment: remembers the reading, clears parameters and error, tells the
      position. */
  function AfterSetup(c: Ctl, env: Env): Ctl
  {
    AfterTellPosition(c.(prevPosition := env.position, parameters := NoneV, error := None), env)
  }

  /** reconfig: an init message, then tell_position. */
  function AfterReconfig(c: Ctl, env: Env): Ctl
  {
    AfterTellPosition(c.(apiQueue := c.apiQueue + [InitMsg]), env)
  }

  /** api_print_error: one print_error message with the error, then error := None. */
  function AfterPrintError(c: Ctl, id: string, error: Option<ErrorRecord>): Ctl
  {
    c.(apiQueue := c.apiQueue + [PrintErrorMsg(id, error)], error := None)
  }


  // ---------------------------------------------------------------------------
  // Firing a trigger, and the callbacks that fire triggers

  /** trigger t: MachineError when t has no row out of the current state; otherwise the
      rows are tried in order. */
  function AfterFire(c: Ctl, env: Env, t: Trigger): Step<bool>
    decreases TriggerRank(t), 3
  {
    var rows := RowsFor(t, c.state);
    if rows == [] then Step(c, Raised(MachineError(TriggerName(t))))
    else AfterRows(c, env, t, rows)
  }

  /** A row's guard, evaluated: correct_inputs runs (with its effects) whenever the
      row has a condition, and an "unless" condition applies when it answers False. */
  function GuardChecked(c: Ctl, g: Guard): (Ctl, bool)
  {
    match g
    case Always => (c, true)
    case IfCorrectInputs => InputsChecked(c)
    case UnlessCorrectInputs => (InputsChecked(c).0, !InputsChecked(c).1)
  }

  /** A row whose guard fails passes on to the next row (its condition has run, with
      its effects); when no row applies the trigger returns False. */
  function AfterRows(c: Ctl, env: Env, t: Trigger, rows: seq<Row>): Step<bool>
    requires forall row :: row in rows ==> row.trigger == t && Ranked(row)
    decreases TriggerRank(t), 2, |rows|
  {
    if rows == [] then Step(c, Ok(false))
    else
      var (checked, applies) := GuardChecked(c, rows[0].guard);
      if applies then AfterExecute(checked, env, t, rows[0]) else AfterRows(checked, env, t, rows[1..])
  }

  /** A row applies: before callbacks, the state change, after callbacks; an exception
      from a callback ends the trigger where it is raised. */
  function AfterExecute(c: Ctl, env: Env, t: Trigger, row: Row): Step<bool>
    requires row.trigger == t && Ranked(row)
    decreases TriggerRank(t), 1
  {
    var before := AfterCallbacks(c, env, t, row.before);
    if before.r.Raised? then Step(before.c, Raised(before.r.fault))
    else
      var after := AfterCallbacks(before.c.(state := row.dest), env, t, row.after);
      if after.r.Raised? then Step(after.c, Raised(after.r.fault))
      else Step(after.c, Ok(true))
  }

  function AfterCallbacks(c: Ctl, env: Env, t: Trigger, callbacks: seq<Callback>): Step<()>
    requires Below(callbacks, TriggerRank(t))
    decreases TriggerRank(t), 0, |callbacks|
  {
    if callbacks == [] then Step(c, Ok(()))
    else
      var first := AfterCallback(c, env, callbacks[0]);
      if first.r.Raised? then first else AfterCallbacks(first.c, env, t, callbacks[1..])
  }

  function AfterCallback(c: Ctl, env: Env, cb: Callback): Step<()>
    decreases CallbackRank(cb), 5
  {
    match cb
    case SetupEnvironment => Step(AfterSetup(c, env), Ok(()))
    case EngineMove => AfterEngineMove(c, env)
    case CheckPosition => AfterCheckPosition(c, env)
    case HandleError => AfterHandleError(c, env)
    case Reconfig => Step(AfterReconfig(c, env), Ok(()))
    case TellPosition => Step(AfterTellPosition(c, env), Ok(()))
    case FireTrigger(t) => Discard(AfterFire(c, env, t))
  }

  /** engine_move: a move message with the angle when the engine is still; otherwise
      the "engine busy" error record and engine_fail. */
  function AfterEngineMove(c: Ctl, env: Env): Step<()>
    decreases CallbackRank(EngineMove), 4
  {
    if env.engineStill then Step(c.(engineQueue := c.engineQueue + [MoveMsg(c.parameters)]), Ok(()))
    else Discard(AfterFire(c.(error := Some(EngineBusy)), env, EngineFail))
  }

  /** check_position: prev_position + parameters (TypeError for values that do not
      add) against the reading; a difference records the mismatch and fires engine_fail. */
  function AfterCheckPosition(c: Ctl, env: Env): Step<()>
    decreases CallbackRank(CheckPosition), 4
  {
    var expected := Plus(c.prevPosition, c.parameters);
    if expected.Raised? then Step(c, Raised(expected.fault))
    else if !Equal(env.position, expected.value) then
      Discard(AfterFire(c.(error := Some(PositionMismatch)), env, EngineFail))
    else Step(c, Ok(()))
  }

  /** handle_error, reading the code of the error it reports: error_solved for code
      "0", error_unsolved otherwise; with no error at all the read raises TypeError. */
  function AfterHandleError(c: Ctl, env: Env): Step<()>
    decreases CallbackRank(HandleError), 4
  {
    var reported := c.error;
    var printed := AfterPrintError(c, "1", reported);
    match reported
    case None => Step(printed, Raised(TypeError))
    case Some(record) =>
      Discard(AfterFire(printed, env, if record.code == "0" then ErrorSolved else ErrorUnsolved))
  }

  /** handle_error as the source writes it: api_print_error clears error before
      error["error_code"] is read, so the read finds None and raises TypeError. */
  function AfterHandleErrorAsWritten(c: Ctl, env: Env): Step<()>
    decreases CallbackRank(HandleError), 4
  {
    var printed := AfterPrintError(c, "1", c.error);
    match printed.error
    case None => Step(printed, Raised(TypeError))
    case Some(record) =>
      Discard(AfterFire(printed, env, if record.code == "0" then ErrorSolved else ErrorUnsolved))
  }

  // ---------------------------------------------------------------------------
  // What each trigger does, written out flat

  /** A callback's outcome as the outcome of the trigger whose row ran it. */
  function Completed(o: Step<()>): Step<bool>
  {
    Step(o.c, if o.r.Raised? then Raised(o.r.fault) else Ok(true))
  }

  /** handle_error run in ERROR: the error is reported, then a harmless error (code
      "0") goes back to STILL with the position told, and any other error goes to INIT
      through reconfig and tells the position once more; with no error record the
      code cannot be read. */
  function Recovered(c: Ctl, env: Env): Step<()>
  {
    var printed := AfterPrintError(c, "1", c.error);
    match c.error
    case None => Step(printed, Raised(TypeError))
    case Some(record) =>
      if record.code == "0" then Step(AfterTellPosition(printed, env).(state := Still), Ok(()))
      else Step(AfterTellPosition(AfterReconfig(printed, env), env).(state := Init), Ok(()))
  }

  /** Every trigger out of every state, without the machinery of rows and callbacks. */
  function Outcome(c: Ctl, env: Env, t: Trigger): Step<bool>
  {
    if c.state != Source(t) then Step(c, Raised(MachineError(TriggerName(t))))
    else
      match t
      case ApiConfig => Step(AfterSetup(c, env).(state := Still), Ok(true))
      case ApiInit => Step(AfterSetup(c, env).(state := Still), Ok(true))
      case ApiMove =>
        (match ToFloat(c.parameters)
         case Ok(angle) =>
           var checked := c.(parameters := FloatV(angle));
           if env.engineStill then
             Step(checked.(state := Moving, engineQueue := c.engineQueue + [MoveMsg(FloatV(angle))]), Ok(true))
           else Completed(Recovered(checked.(state := Error, error := Some(EngineBusy)), env))
         case Raised(_) => Completed(Recovered(c.(state := Error, error := Some(IncorrectInputs)), env)))
      case ApiError => Completed(Recovered(c.(state := Error), env))
      case EngineReachedDestination =>
        (match Plus(c.prevPosition, c.parameters)
         case Raised(fault) => Step(c, Raised(fault))
         case Ok(expected) =>
           if Equal(env.position, expected) then Step(c.(state := Still), Ok(true))
           else
             var handled := Recovered(c.(state := Error, error := Some(PositionMismatch)), env);
             Step(handled.c.(state := Still), Ok(true)))
      case EngineFail => Completed(Recovered(c.(state := Error), env))
      case ErrorSolved => Step(AfterTellPosition(c, env).(state := Still), Ok(true))
      case ErrorUnsolved => Step(AfterTellPosition(AfterReconfig(c, env), env).(state := Init), Ok(true))
  }

  /** error_solved out of ERROR. */
  lemma {:induction false} FireErrorSolved(c: Ctl, env: Env)
    requires c.state == Error
    ensures AfterFire(c, env, ErrorSolved) == Outcome(c, env, ErrorSolved)
  {
  }

  /** error_unsolved out of ERROR. */
  lemma {:induction false} FireErrorUnsolved(c: Ctl, env: Env)
    requires c.state == Error
    ensures AfterFire(c, env, ErrorUnsolved) == Outcome(c, env, ErrorUnsolved)
  {
  }

  /** handle_error, run by a row into ERROR, recovers as Recovered says. */
  lemma {:induction false} HandleErrorRecovers(c: Ctl, env: Env)
    requires c.state == Error
    ensures AfterHandleError(c, env) == Recovered(c, env)
  {
    if c.error.Some? {
      var printed := AfterPrintError(c, "1", c.error);
      if c.error.value.code == "0" {
        FireErrorSolved(printed, env);
      } else {
        FireErrorUnsolved(printed, env);
      }
    }
  }

  /** api_config out of INIT. */
  lemma {:induction false} FireApiConfig(c: Ctl, env: Env)
    requires c.state == Init
    ensures AfterFire(c, env, ApiConfig) == Outcome(c, env, ApiConfig)
  {
  }

  /** api_init out of STILL: to INIT, then api_config back to STILL. */
  lemma {:induction false} FireApiInit(c: Ctl, env: Env)
    requires c.state == Still
    ensures AfterFire(c, env, ApiInit) == Outcome(c, env, ApiInit)
  {
    FireApiConfig(c.(state := Init), env);
  }

  /** engine_fail out of MOVING. */
  lemma {:induction false} FireEngineFail(c: Ctl, env: Env)
    requires c.state == Moving
    ensures AfterFire(c, env, EngineFail) == Outcome(c, env, EngineFail)
  {
    HandleErrorRecovers(c.(state := Error), env);
  }

  /** api_error out of STILL. */
  lemma {:induction false} FireApiError(c: Ctl, env: Env)
    requires c.state == Still
    ensures AfterFire(c, env, ApiError) == Outcome(c, env, ApiError)
  {
    HandleErrorRecovers(c.(state := Error), env);
  }

  /** api_move out of STILL with inputs that convert: the first row applies. */
  lemma {:induction false} FireApiMoveAccepted(c: Ctl, env: Env)
    requires c.state == Still && ToFloat(c.parameters).Ok?
    ensures AfterFire(c, env, ApiMove) == Outcome(c, env, ApiMove)
  {
    var rows := RowsFor(ApiMove, Still);
    assert rows == [MoveRow, MoveRejectedRow];
    var checked := InputsChecked(c).0;
    assert AfterFire(c, env, ApiMove) == AfterExecute(checked, env, ApiMove, MoveRow);
    var moving := checked.(state := Moving);
    if env.engineStill {
      assert AfterCallbacks(moving, env, ApiMove, [EngineMove]).c
          == moving.(engineQueue := c.engineQueue + [MoveMsg(checked.parameters)]);
    } else {
      FireEngineFail(moving.(error := Some(EngineBusy)), env);
    }
  }

  /** api_move out of STILL with inputs that do not convert: both guards are evaluated
      and the second row applies. */
  lemma {:induction false} FireApiMoveRejected(c: Ctl, env: Env)
    requires c.state == Still && ToFloat(c.parameters).Raised?
    ensures AfterFire(c, env, ApiMove) == Outcome(c, env, ApiMove)
  {
    var rows := RowsFor(ApiMove, Still);
    assert rows == [MoveRow, MoveRejectedRow];
    assert rows[1..] == [MoveRejectedRow];
    var checked := InputsChecked(c).0;
    InputsCheckedTwice(c);
    assert AfterFire(c, env, ApiMove) == AfterExecute(checked, env, ApiMove, MoveRejectedRow);
    HandleErrorRecovers(checked.(state := Error), env);
  }

  /** api_move out of STILL. */
  lemma {:induction false} FireApiMove(c: Ctl, env: Env)
    requires c.state == Still
    ensures AfterFire(c, env, ApiMove) == Outcome(c, env, ApiMove)
  {
    if ToFloat(c.parameters).Ok? {
      FireApiMoveAccepted(c, env);
    } else {
      FireApiMoveRejected(c, env);
    }
  }

  /** engine_reached_destination out of MOVING. */
  lemma {:induction false} FireEngineReachedDestination(c: Ctl, env: Env)
    requires c.state == Moving
    ensures AfterFire(c, env, EngineReachedDestination) == Outcome(c, env, EngineReachedDestination)
  {
    var expected := Plus(c.prevPosition, c.parameters);
    if expected.Ok? && !Equal(env.position, expected.value) {
      FireEngineFail(c.(error := Some(PositionMismatch)), env);
    }
  }

  /** The machinery of rows, guards, callbacks and triggers fired from callbacks does,
      trigger by trigger, what Outcome writes out. */
  lemma {:induction false} FireMatchesOutcome(c: Ctl, env: Env, t: Trigger)
    ensures AfterFire(c, env, t) == Outcome(c, env, t)
  {
    OnlyFromSource(t, c.state);
    if c.state == Source(t) {
      match t
      case ApiConfig => FireApiConfig(c, env);
      case ApiInit => FireApiInit(c, env);
      case ApiMove => FireApiMove(c, env);
      case ApiError => FireApiError(c, env);
      case EngineReachedDestination => FireEngineReachedDestination(c, env);
      case EngineFail => FireEngineFail(c, env);
      case ErrorSolved => FireErrorSolved(c, env);
      case ErrorUnsolved => FireErrorUnsolved(c, env);
    }
  }

  // ---------------------------------------------------------------------------
  // Properties of the machine

  /** A trigger that returns never leaves the machine in ERROR: every error it meets
      is handled on the spot, back to STILL or INIT. Only an exception (a missing
      error record, a position that cannot be added, a trigger from the wrong state)
      can leave it there. */
  lemma {:induction false} NeverRestsInError(c: Ctl, env: Env, t: Trigger)
    ensures AfterFire(c, env, t).r.Ok? ==> AfterFire(c, env, t).c.state != Error
  {
    FireMatchesOutcome(c, env, t);
  }

  /** prev_position is written by setup_environment only, that is by api_config and
      api_init; in particular a completed move does not move it on. */
  lemma {:induction false} PrevPositionOnlyAtSetup(c: Ctl, env: Env, t: Trigger)
    ensures AfterFire(c, env, t).c.prevPosition
         == if (t == ApiConfig || t == ApiInit) && c.state == Source(t) then env.position else c.prevPosition
  {
    FireMatchesOutcome(c, env, t);
  }

  /** The engine gets a message only from an accepted api_move with the engine still,
      and then exactly one move message carrying the converted angle. */
  lemma {:induction false} EngineQueueOnlyOnMove(c: Ctl, env: Env, t: Trigger)
    ensures AfterFire(c, env, t).c.engineQueue
         == c.engineQueue + if t == ApiMove && c.state == Still && ToFloat(c.parameters).Ok? && env.engineStill
                            then [MoveMsg(FloatV(ToFloat(c.parameters).value))] else []
  {
    FireMatchesOutcome(c, env, t);
  }

  /** A trigger only appends to the two queues. */
  lemma {:induction false} FireOnlyAppends(c: Ctl, env: Env, t: Trigger)
    ensures c.apiQueue <= AfterFire(c, env, t).c.apiQueue
    ensures c.engineQueue <= AfterFire(c, env, t).c.engineQueue
  {
    FireMatchesOutcome(c, env, t);
    match t
    case ApiMove =>
      var angle := ToFloat(c.parameters);
      var checked := c.(parameters := if angle.Ok? then FloatV(angle.value) else c.parameters);
      RecoveredOnlyAppends(checked.(state := Error, error := Some(EngineBusy)), env);
      RecoveredOnlyAppends(c.(state := Error, error := Some(IncorrectInputs)), env);
    case EngineReachedDestination =>
      RecoveredOnlyAppends(c.(state := Error, error := Some(PositionMismatch)), env);
    case _ =>
      RecoveredOnlyAppends(c.(state := Error), env);
  }

  lemma RecoveredOnlyAppends(c: Ctl, env: Env)
    ensures c.apiQueue <= Recovered(c, env).c.apiQueue
    ensures Recovered(c, env).c.engineQueue == c.engineQueue
  {
  }

  /** api_move out of STILL with an angle that does not convert: the error is reported,
      the machine passes through ERROR back to STILL and tells the position. */
  lemma {:induction false} MoveRejectedReported(c: Ctl, env: Env)
    requires c.state == Still && ToFloat(c.parameters).Raised?
    ensures AfterFire(c, env, ApiMove)
         == Step(c.(error := None, apiQueue := c.apiQueue + [PrintErrorMsg("1", Some(IncorrectInputs)), UpdatePosMsg(env.position)]),
                 Ok(true))
  {
    FireMatchesOutcome(c, env, ApiMove);
  }

  /** api_move out of STILL while the engine is busy: the machine passes through MOVING
      and ERROR back to STILL, reporting the busy engine, and the engine gets nothing. */
  lemma {:induction false} MoveWhileBusyReported(c: Ctl, env: Env)
    requires c.state == Still && ToFloat(c.parameters).Ok? && !env.engineStill
    ensures AfterFire(c, env, ApiMove)
         == Step(c.(parameters := FloatV(ToFloat(c.parameters).value), error := None,
                    apiQueue := c.apiQueue + [PrintErrorMsg("1", Some(EngineBusy)), UpdatePosMsg(env.position)]),
                 Ok(true))
  {
    FireMatchesOutcome(c, env, ApiMove);
  }

  /** engine_reached_destination with a reading that does not match: the mismatch is
      reported and the machine ends in STILL, with prev_position as it was. */
  lemma {:induction false} MismatchReported(c: Ctl, env: Env)
    requires c.state == Moving && Plus(c.prevPosition, c.parameters).Ok?
    requires !Equal(env.position, Plus(c.prevPosition, c.parameters).value)
    ensures AfterFire(c, env, EngineReachedDestination)
         == Step(c.(state := Still, error := None,
                    apiQueue := c.apiQueue + [PrintErrorMsg("1", Some(PositionMismatch)), UpdatePosMsg(env.position)]),
                 Ok(true))
  {
    FireMatchesOutcome(c, env, EngineReachedDestination);
  }

  /** api_config out of INIT: prev_position takes the reading, parameters and error are
      cleared, one update_pos message goes to the API, and the machine is in STILL. */
  lemma {:induction false} ConfigRecordsPosition(c: Ctl, env: Env)
    requires c.state == Init
    ensures AfterFire(c, env, ApiConfig)
         == Step(c.(state := Still, prevPosition := env.position, parameters := NoneV, error := None,
                    apiQueue := c.apiQueue + [UpdatePosMsg(env.position)]),
                 Ok(true))
  {
    FireApiConfig(c, env);
  }

  /** api_move out of STILL with an angle that converts and the engine still: the angle
      is stored as a float, exactly one move message carries it to the engine, nothing
      goes to the API, and the machine is in MOVING. */
  lemma {:induction false} MoveAccepted(c: Ctl, env: Env)
    requires c.state == Still && ToFloat(c.parameters).Ok? && env.engineStill
    ensures AfterFire(c, env, ApiMove)
         == Step(c.(state := Moving, parameters := FloatV(ToFloat(c.parameters).value),
                    engineQueue := c.engineQueue + [MoveMsg(FloatV(ToFloat(c.parameters).value))]),
                 Ok(true))
  {
    FireApiMoveAccepted(c, env);
  }

  /** engine_reached_destination with a reading that matches prev_position + parameters:
      back to STILL, and nothing else changes. */
  lemma {:induction false} PositionMatched(c: Ctl, env: Env)
    requires c.state == Moving && Plus(c.prevPosition, c.parameters).Ok?
    requires Equal(env.position, Plus(c.prevPosition, c.parameters).value)
    ensures AfterFire(c, env, EngineReachedDestination) == Step(c.(state := Still), Ok(true))
  {
    FireEngineReachedDestination(c, env);
  }

  /** error_unsolved puts init, update_pos, update_pos on the API queue, in this order. */
  lemma {:induction false} ErrorUnsolvedOutbox(c: Ctl, env: Env)
    requires c.state == Error
    ensures AfterFire(c, env, ErrorUnsolved)
         == Step(c.(state := Init, apiQueue := c.apiQueue + [InitMsg, UpdatePosMsg(env.position), UpdatePosMsg(env.position)]),
                 Ok(true))
  {
    FireErrorUnsolved(c, env);
  }

  /** handle_error, run in ERROR with an error record: one print_error message with
      the record, the error cleared, and the machine out of ERROR: in STILL with the
      position told when the code is "0", otherwise in INIT after reconfig. */
  lemma {:induction false} HandleErrorClassifies(c: Ctl, env: Env)
    requires c.state == Error && c.error.Some?
    ensures AfterHandleError(c, env).r == Ok(())
    ensures AfterHandleError(c, env).c.state == if c.error.value.code == "0" then Still else Init
    ensures AfterHandleError(c, env).c.error == None
    ensures AfterHandleError(c, env).c.apiQueue
         == c.apiQueue + [PrintErrorMsg("1", c.error)]
            + if c.error.value.code == "0" then [UpdatePosMsg(env.position)]
              else [InitMsg, UpdatePosMsg(env.position), UpdatePosMsg(env.position)]
  {
    HandleErrorRecovers(c, env);
  }

  /** handle_error as written: whatever the controller holds, it reports the error,
      clears it, and then raises TypeError; neither error_solved nor error_unsolved is
      ever fired. */
  lemma {:induction false} HandleErrorAsWrittenRaises(c: Ctl, env: Env)
    ensures AfterHandleErrorAsWritten(c, env) == Step(AfterPrintError(c, "1", c.error), Raised(TypeError))
  {
  }

  /** The machine as written, on api_move with an angle that does not convert: the
      rejecting row takes the machine to ERROR with the "Incorrect inputs" record and
      hands it to handle_error; the handle_error of the source then reports the error,
      clears it and raises TypeError, so the trigger ends in ERROR with that exception. */
  lemma {:induction false} MoveRejectedAsWritten(c: Ctl, env: Env)
    requires c.state == Still && ToFloat(c.parameters).Raised?
    ensures var entered := c.(state := Error, error := Some(IncorrectInputs));
            && AfterFire(c, env, ApiMove) == Completed(AfterCallback(entered, env, HandleError))
            && AfterHandleErrorAsWritten(entered, env)
               == Step(entered.(error := None, apiQueue := c.apiQueue + [PrintErrorMsg("1", Some(IncorrectInputs))]),
                       Raised(TypeError))
  {
    var rows := RowsFor(ApiMove, Still);
    assert rows == [MoveRow, MoveRejectedRow];
    assert rows[1..] == [MoveRejectedRow];
    var checked := InputsChecked(c).0;
    InputsCheckedTwice(c);
    var entered := c.(state := Error, error := Some(IncorrectInputs));
    assert checked.(state := Error) == entered;
    assert AfterFire(c, env, ApiMove) == AfterExecute(checked, env, ApiMove, MoveRejectedRow);
    HandleErrorAsWrittenRaises(entered, env);
  }

  // ---------------------------------------------------------------------------
  // The controller object

  /** The controller: the machine state, the three attributes its callbacks update, and
      the two queues it writes to (to the API and to the engine). Every trigger and
      callback method is proved to do what the definition of the same name above says. */
  class Controller {
    var state: State                  // the machine's current state
    var parameters: Value             // the move angle, as received and then as a float
    var prevPosition: Value           // the reading taken at setup
    var error: Option<ErrorRecord>    // the error being handled, if any
    const apiQ: MessageQueue
    const engineQ: MessageQueue

    ghost predicate Valid()
    {
      apiQ != engineQ
    }

    function Snapshot(): Ctl
      reads this, apiQ, engineQ
    {
      Ctl(state, parameters, prevPosition, error, apiQ.items, engineQ.items)
    }

    /** A controller in INIT with every attribute None, writing to the given queues. */
    constructor (apiQueue: MessageQueue, engineQueue: MessageQueue)
      requires apiQueue != engineQueue
      ensures Valid() && apiQ == apiQueue && engineQ == engineQueue
      ensures Snapshot() == Ctl(Init, NoneV, NoneV, None, apiQueue.items, engineQueue.items)
    {
      state := Init;
      parameters := NoneV;
      prevPosition := NoneV;
      error := None;
      apiQ := apiQueue;
      engineQ := engineQueue;
    }

    /** Fires trigger t. */
    method Fire(t: Trigger, env: Env) returns (r: Result<bool>)
      requires Valid()
      modifies this, apiQ, engineQ
      ensures Step(Snapshot(), r) == AfterFire(old(Snapshot()), env, t)
      decreases TriggerRank(t), 3
    {
      var rows := RowsFor(t, state);
      if rows == [] {
        return Raised(MachineError(TriggerName(t)));
      }
      r := TryRows(t, rows, env);
    }

    method TryRows(t: Trigger, rows: seq<Row>, env: Env) returns (r: Result<bool>)
      requires Valid()
      requires forall row :: row in rows ==> row.trigger == t && Ranked(row)
      modifies this, apiQ, engineQ
      ensures Step(Snapshot(), r) == AfterRows(old(Snapshot()), env, t, rows)
      decreases TriggerRank(t), 2, |rows|
    {
      if rows == [] {
        return Ok(false);
      }
      var applies := CheckGuard(rows[0].guard);
      if applies {
        r := Execute(t, rows[0], env);
      } else {
        r := TryRows(t, rows[1..], env);
      }
    }

    /** Evaluates a row's condition. */
    method CheckGuard(g: Guard) returns (applies: bool)
      modifies this
      ensures (Snapshot(), applies) == GuardChecked(old(Snapshot()), g)
    {
      match g
      case Always =>
        applies := true;
      case IfCorrectInputs =>
        applies := CorrectInputs();
      case UnlessCorrectInputs =>
        var ok := CorrectInputs();
        applies := !ok;
    }

    method Execute(t: Trigger, row: Row, env: Env) returns (r: Result<bool>)
      requires Valid() && row.trigger == t && Ranked(row)
      modifies this, apiQ, engineQ
      ensures Step(Snapshot(), r) == AfterExecute(old(Snapshot()), env, t, row)
      decreases TriggerRank(t), 1
    {
      var before := RunCallbacks(t, row.before, env);
      if before.Raised? {
        return Raised(before.fault);
      }
      state := row.dest;
      var after := RunCallbacks(t, row.after, env);
      if after.Raised? {
        return Raised(after.fault);
      }
      r := Ok(true);
    }

    method RunCallbacks(t: Trigger, callbacks: seq<Callback>, env: Env) returns (r: Result<()>)
      requires Valid()
      requires Below(callbacks, TriggerRank(t))
      modifies this, apiQ, engineQ
      ensures Step(Snapshot(), r) == AfterCallbacks(old(Snapshot()), env, t, callbacks)
      decreases TriggerRank(t), 0, |callbacks|
    {
      if callbacks == [] {
        return Ok(());
      }
      r := RunCallback(callbacks[0], env);
      if r.Ok? {
        r := RunCallbacks(t, callbacks[1..], env);
      }
    }

    method RunCallback(cb: Callback, env: Env) returns (r: Result<()>)
      requires Valid()
      modifies this, apiQ, engineQ
      ensures Step(Snapshot(), r) == AfterCallback(old(Snapshot()), env, cb)
      decreases CallbackRank(cb), 5
    {
      match cb
      case SetupEnvironment =>
        SetupEnvironment(env);
        r := Ok(());
      case EngineMove =>
        r := EngineMove(env);
      case CheckPosition =>
        r := CheckPosition(env);
      case HandleError =>
        r := HandleError(env);
      case Reconfig =>
        Reconfig(env);
        r := Ok(());
      case TellPosition =>
        TellPosition(env);
        r := Ok(());
      case FireTrigger(t) =>
        var fired := Fire(t, env);
        r := Dropped(fired);
    }

    /** correct_inputs */
    method CorrectInputs() returns (ok: bool)
      modifies this
      ensures (Snapshot(), ok) == InputsChecked(old(Snapshot()))
    {
      var converted := ToFloat(parameters);
      if converted.Ok? {
        parameters := FloatV(converted.value);
        ok := true;
      } else {
        error := Some(IncorrectInputs);
        ok := false;
      }
    }

    /** setup_environment */
    method SetupEnvironment(env: Env)
      requires Valid()
      modifies this, apiQ
      ensures Snapshot() == AfterSetup(old(Snapshot()), env)
    {
      var position := env.position;
      prevPosition := position;
      parameters := NoneV;
      error := None;
      TellPosition(env);
    }

    /** engine_move */
    method EngineMove(env: Env) returns (r: Result<()>)
      requires Valid()
      modifies this, apiQ, engineQ
      ensures Step(Snapshot(), r) == AfterEngineMove(old(Snapshot()), env)
      decreases CallbackRank(Callback.EngineMove), 4
    {
      var angle := parameters;
      var busy := false;
      if env.engineStill {
        engineQ.Put(MoveMsg(angle));
      } else {
        busy := true;
      }
      if busy {
        error := Some(EngineBusy);
        var fired := Fire(EngineFail, env);
        r := Dropped(fired);
      } else {
        r := Ok(());
      }
    }

    /** tell_position */
    method TellPosition(env: Env)
      requires Valid()
      modifies apiQ
      ensures Snapshot() == AfterTellPosition(old(Snapshot()), env)
    {
      var position := env.position;
      apiQ.Put(UpdatePosMsg(position));
    }

    /** check_position */
    method CheckPosition(env: Env) returns (r: Result<()>)
      requires Valid()
      modifies this, apiQ, engineQ
      ensures Step(Snapshot(), r) == AfterCheckPosition(old(Snapshot()), env)
      decreases CallbackRank(Callback.CheckPosition), 4
    {
      var position := env.position;
      var turnAngle := parameters;
      var expected := Plus(prevPosition, turnAngle);
      if expected.Raised? {
        return Raised(expected.fault);
      }
      if !Equal(position, expected.value) {
        error := Some(PositionMismatch);
        var fired := Fire(EngineFail, env);
        r := Dropped(fired);
      } else {
        r := Ok(());
      }
    }

    /** api_print_error */
    method ApiPrintError(engineId: string, engineError: Option<ErrorRecord>)
      requires Valid()
      modifies this, apiQ
      ensures Snapshot() == AfterPrintError(old(Snapshot()), engineId, engineError)
    {
      apiQ.Put(PrintErrorMsg(engineId, engineError));
      error := None;
    }

    /** handle_error as written: the code is read from error after api_print_error
        has cleared it. */
    method HandleErrorAsWritten(env: Env) returns (r: Result<()>)
      requires Valid()
      modifies this, apiQ, engineQ
      ensures Step(Snapshot(), r) == AfterHandleErrorAsWritten(old(Snapshot()), env)
    {
      ApiPrintError("1", error);
      match error
      case None =>
        r := Raised(TypeError);
      case Some(_) =>
        // api_print_error has just cleared error: the branch that would fire
        // error_solved or error_unsolved is never taken
        assert false;
    }

    /** handle_error with the code read from the error it reports. */
    method HandleError(env: Env) returns (r: Result<()>)
      requires Valid()
      modifies this, apiQ, engineQ
      ensures Step(Snapshot(), r) == AfterHandleError(old(Snapshot()), env)
      decreases CallbackRank(Callback.HandleError), 4
    {
      var reported := error;
      ApiPrintError("1", reported);
      match reported
      case None =>
        r := Raised(TypeError);
      case Some(record) =>
        var fired := Fire(if record.code == "0" then ErrorSolved else ErrorUnsolved, env);
        r := Dropped(fired);
    }

    /** reconfig */
    method Reconfig(env: Env)
      requires Valid()
      modifies apiQ
      ensures Snapshot() == AfterReconfig(old(Snapshot()), env)
    {
      apiQ.Put(InitMsg);
      TellPosition(env);
    }
  }
}
