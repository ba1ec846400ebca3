/** The controller process's main loop: api_config once, then ticks that each take at
    most one message from each queue and fire the matching triggers. */
module Turnantenna {
  import opened Values
  import opened Messages
  import opened Controller
  import Stepmotor

  /** The tail of a queue after a non-blocking get. */
  function Rest(q: seq<Msg>): seq<Msg>
  {
    if q == [] then [] else q[1..]
  }

  /** The first message of a queue, None standing for the Empty exception. */
  function Head(q: seq<Msg>): Option<Msg>
  {
    if q == [] then None else Some(q[0])
  }

  /** The engine's message, when it is a truthy dict with id "1": a "reached_dest"
      status fires engine_reached_destination; a missing "id" or "status" raises
      KeyError. */
  function EngineMessageHandled(c: Ctl, env: Env, msg: Option<Msg>): Step<()>
  {
    if msg.None? || !Truthy(msg.value) then Step(c, Ok(()))
    else
      match Field(msg.value, "id")
      case Raised(f) => Step(c, Raised(f))
      case Ok(id) =>
        if id != StrV("1") then Step(c, Ok(()))
        else
          match Field(msg.value, "status")
          case Raised(f) => Step(c, Raised(f))
          case Ok(status) =>
            if status == StrV("reached_dest") then Discard(AfterFire(c, env, EngineReachedDestination))
            else Step(c, Ok(()))
  }

  /** The API's message, when it is a truthy dict with id "1": "move" stores the
      parameter and fires api_move, "init" fires api_init; a missing "id", "command"
      or "parameter" raises KeyError. */
  function ApiMessageHandled(c: Ctl, env: Env, msg: Option<Msg>): Step<()>
  {
    if msg.None? || !Truthy(msg.value) then Step(c, Ok(()))
    else
      match Field(msg.value, "id")
      case Raised(f) => Step(c, Raised(f))
      case Ok(id) =>
        if id != StrV("1") then Step(c, Ok(()))
        else
          match Field(msg.value, "command")
          case Raised(f) => Step(c, Raised(f))
          case Ok(command) =>
            match Field(msg.value, "parameter")
            case Raised(f) => Step(c, Raised(f))
            case Ok(parameter) =>
              var moved := if command == StrV("move") then Discard(AfterFire(c.(parameters := parameter), env, ApiMove))
                           else Step(c, Ok(()));
              if moved.r.Raised? || command != StrV("init") then moved
              else Discard(AfterFire(moved.c, env, ApiInit))
  }

  /** One pass of the loop: a get from the API queue, a get from the engine queue, the
      engine's message handled, then the API's. */
  function TickSpec(c: Ctl, env: Env): Step<()>
  {
    var taken := c.(apiQueue := Rest(c.apiQueue), engineQueue := Rest(c.engineQueue));
    var engineHandled := EngineMessageHandled(taken, env, Head(c.engineQueue));
    if engineHandled.r.Raised? then engineHandled
    else ApiMessageHandled(engineHandled.c, env, Head(c.apiQueue))
  }

  /** What one tick sees: the reading and engine status, and the message the API
      process and the engine process each put on the queues since the last tick. */
  datatype TickInput = TickInput(env: Env, fromApi: Option<Msg>, fromEngine: Option<Msg>)

  function Arrived(c: Ctl, input: TickInput): Ctl
  {
    c.(apiQueue := c.apiQueue + (if input.fromApi.Some? then [input.fromApi.value] else []),
       engineQueue := c.engineQueue + (if input.fromEngine.Some? then [input.fromEngine.value] else []))
  }

  /** Ticks over the inputs, until one raises. */
  function Ticks(c: Ctl, inputs: seq<TickInput>): Step<()>
    decreases |inputs|
  {
    if inputs == [] then Step(c, Ok(()))
    else
      var ticked := TickSpec(Arrived(c, inputs[0]), inputs[0].env);
      if ticked.r.Raised? then ticked else Ticks(ticked.c, inputs[1..])
  }

  /** main after the processes are started: api_config, then the loop. */
  function MainSpec(c: Ctl, setupEnv: Env, inputs: seq<TickInput>): Step<()>
  {
    var configured := AfterFire(c, setupEnv, ApiConfig);
    if configured.r.Raised? then Step(configured.c, Raised(configured.r.fault))
    else Ticks(configured.c, inputs)
  }

  // ---------------------------------------------------------------------------
  // Properties of a tick

  /** A move request from the API. */
  function MoveRequest(angle: Value): Msg
  {
    map["id" := StrV("1"), "command" := StrV("move"), "parameter" := angle]
  }

  lemma {:induction false} EngineMessageOnlyAppends(c: Ctl, env: Env, msg: Option<Msg>)
    ensures c.apiQueue <= EngineMessageHandled(c, env, msg).c.apiQueue
    ensures c.engineQueue <= EngineMessageHandled(c, env, msg).c.engineQueue
  {
    FireOnlyAppends(c, env, EngineReachedDestination);
  }

  lemma {:induction false} ApiMessageOnlyAppends(c: Ctl, env: Env, msg: Option<Msg>)
    ensures c.apiQueue <= ApiMessageHandled(c, env, msg).c.apiQueue
    ensures c.engineQueue <= ApiMessageHandled(c, env, msg).c.engineQueue
  {
    if msg.Some? && "parameter" in msg.value {
      var withParameter := c.(parameters := msg.value["parameter"]);
      FireOnlyAppends(withParameter, env, ApiMove);
      FireOnlyAppends(AfterFire(withParameter, env, ApiMove).c, env, ApiInit);
    }
    FireOnlyAppends(c, env, ApiInit);
  }

  /** A tick takes at most the first message of each queue; whatever the triggers put
      goes after the messages still waiting. */
  lemma {:induction false} TickTakesOneEach(c: Ctl, env: Env)
    ensures Rest(c.apiQueue) <= TickSpec(c, env).c.apiQueue
    ensures Rest(c.engineQueue) <= TickSpec(c, env).c.engineQueue
  {
    var taken := c.(apiQueue := Rest(c.apiQueue), engineQueue := Rest(c.engineQueue));
    EngineMessageOnlyAppends(taken, env, Head(c.engineQueue));
    var engineHandled := EngineMessageHandled(taken, env, Head(c.engineQueue));
    ApiMessageOnlyAppends(engineHandled.c, env, Head(c.apiQueue));
  }

  /** The engine's status is handled before the API's command: when a move is
      requested in the tick that brings reached_dest, the machine is back in STILL
      when api_move fires, so the move is taken (a matching reading assumed). */
  lemma {:induction false} EngineStatusFirst(c: Ctl, env: Env, angle: Value)
    requires c.state == Moving && c.engineQueue != [] && c.engineQueue[0] == Stepmotor.ReachedDest
    requires c.apiQueue != [] && c.apiQueue[0] == MoveRequest(angle)
    requires Plus(c.prevPosition, c.parameters).Ok? && Equal(env.position, Plus(c.prevPosition, c.parameters).value)
    ensures TickSpec(c, env)
         == Discard(AfterFire(c.(state := Still, parameters := angle, apiQueue := c.apiQueue[1..],
                                 engineQueue := c.engineQueue[1..]), env, ApiMove))
  {
    var taken := c.(apiQueue := c.apiQueue[1..], engineQueue := c.engineQueue[1..]);
    assert Truthy(Stepmotor.ReachedDest) by { assert "id" in Stepmotor.ReachedDest; }
    assert Truthy(MoveRequest(angle)) by { assert "id" in MoveRequest(angle); }
    assert "move"[0] != "init"[0];
    FireEngineReachedDestination(taken, env);
  }

  /** A move requested while the engine is moving (and no status arrives in the same
      tick) stores the parameter and then raises MachineError, which ends the loop. */
  lemma {:induction false} MoveWhileMovingRaises(c: Ctl, env: Env, angle: Value)
    requires c.state == Moving && c.engineQueue == []
    requires c.apiQueue != [] && c.apiQueue[0] == MoveRequest(angle)
    ensures TickSpec(c, env)
         == Step(c.(parameters := angle, apiQueue := c.apiQueue[1..]), Raised(MachineError("api_move")))
  {
    assert Truthy(MoveRequest(angle)) by { assert "id" in MoveRequest(angle); }
  }

  /** A message with another id is taken and dropped. */
  lemma {:induction false} ForeignIdIgnored(c: Ctl, env: Env)
    requires c.engineQueue == [] && c.apiQueue != []
    requires "id" in c.apiQueue[0] && c.apiQueue[0]["id"] != StrV("1")
    ensures TickSpec(c, env) == Step(c.(apiQueue := c.apiQueue[1..]), Ok(()))
  {
  }

  /** An engine message with another id, or with id "1" and a status other than
      reached_dest, is taken and dropped. */
  lemma {:induction false} EngineMessageIgnored(c: Ctl, env: Env)
    requires c.apiQueue == [] && c.engineQueue != []
    requires "id" in c.engineQueue[0]
    requires c.engineQueue[0]["id"] != StrV("1")
             || ("status" in c.engineQueue[0] && c.engineQueue[0]["status"] != StrV("reached_dest"))
    ensures TickSpec(c, env) == Step(c.(engineQueue := c.engineQueue[1..]), Ok(()))
  {
    assert Truthy(c.engineQueue[0]) by { assert "id" in c.engineQueue[0]; }
  }

  /** The update_pos messages the controller itself puts on the API queue are read
      back by the loop and dropped. */
  lemma {:induction false} UpdatePosReadBack(c: Ctl, env: Env, position: Value)
    requires c.engineQueue == [] && c.apiQueue != [] && c.apiQueue[0] == UpdatePosMsg(position)
    ensures TickSpec(c, env) == Step(c.(apiQueue := c.apiQueue[1..]), Ok(()))
  {
  }

  /** The init message reconfig puts on the API queue is read back by the loop and
      fires api_init. */
  lemma {:induction false} ReconfigInitReadBack(c: Ctl, env: Env)
    requires c.engineQueue == [] && c.apiQueue != [] && c.apiQueue[0] == InitMsg
    ensures TickSpec(c, env) == Discard(AfterFire(c.(apiQueue := c.apiQueue[1..]), env, ApiInit))
  {
    assert "init"[0] != "move"[0];
    assert Truthy(InitMsg) by { assert "id" in InitMsg; }
  }

  /** The engine's reached_dest status fires engine_reached_destination. */
  lemma {:induction false} ReachedDestHandled(c: Ctl, env: Env)
    requires c.apiQueue == [] && c.engineQueue != [] && c.engineQueue[0] == Stepmotor.ReachedDest
    ensures TickSpec(c, env)
         == Discard(AfterFire(c.(engineQueue := c.engineQueue[1..]), env, EngineReachedDestination))
  {
    assert Truthy(Stepmotor.ReachedDest) by { assert "id" in Stepmotor.ReachedDest; }
  }

  /** The controller puts its move command on the queue the loop itself reads: when
      the loop gets it first, the message has no "status" and the tick raises
      KeyError. */
  lemma {:induction false} ControllerMoveTakenByLoop(c: Ctl, env: Env, angle: Value)
    requires c.engineQueue != [] && c.engineQueue[0] == MoveMsg(angle)
    ensures TickSpec(c, env)
         == Step(c.(apiQueue := Rest(c.apiQueue), engineQueue := c.engineQueue[1..]), Raised(KeyError("status")))
  {
    var command := MoveMsg(angle);
    assert Truthy(command) by { assert "id" in command; }
    assert "status" !in command by {
      assert "status"[0] != "id"[0] && "status"[0] != "command"[0] && "status"[0] != "parameter"[0];
    }
  }

  /** When the engine process gets the controller's move command first, the message
      has no "dest" and the engine's tick raises KeyError, leaving the stepper as it
      was. */
  lemma {:induction false} ControllerMoveRejectedByEngine(s: Stepmotor.StepperState, setup: Stepmotor.Setup,
                                                          angle: Value, rest: seq<Msg>)
    requires Stepmotor.SetupOk(setup)
    ensures Stepmotor.EngineTickSpec(s, setup, [MoveMsg(angle)] + rest)
         == Stepmotor.EngineTicked(s, rest, Raised(KeyError("dest")))
  {
    assert ([MoveMsg(angle)] + rest)[1..] == rest;
  }

  /** One pass of the loop on the controller and its queues. */
  method Tick(controller: Controller, env: Env) returns (r: Result<()>)
    requires controller.Valid()
    modifies controller, controller.apiQ, controller.engineQ
    ensures Step(controller.Snapshot(), r) == TickSpec(old(controller.Snapshot()), env)
  {
    var apiMsg := controller.apiQ.Get();
    var engineMsg := controller.engineQ.Get();

    if engineMsg.Some? && Truthy(engineMsg.value) {
      var id := Field(engineMsg.value, "id");
      if id.Raised? {
        return Raised(id.fault);
      }
      if id.value == StrV("1") {
        var status := Field(engineMsg.value, "status");
        if status.Raised? {
          return Raised(status.fault);
        }
        if status.value == StrV("reached_dest") {
          var fired := controller.Fire(EngineReachedDestination, env);
          if fired.Raised? {
            return Raised(fired.fault);
          }
        }
      }
    }

    if apiMsg.Some? && Truthy(apiMsg.value) {
      var id := Field(apiMsg.value, "id");
      if id.Raised? {
        return Raised(id.fault);
      }
      if id.value == StrV("1") {
        var apiCommand := Field(apiMsg.value, "command");
        if apiCommand.Raised? {
          return Raised(apiCommand.fault);
        }
        var apiParameter := Field(apiMsg.value, "parameter");
        if apiParameter.Raised? {
          return Raised(apiParameter.fault);
        }
        if apiCommand.value == StrV("move") {
          controller.parameters := apiParameter.value;
          var fired := controller.Fire(ApiMove, env);
          if fired.Raised? {
            return Raised(fired.fault);
          }
        }
        if apiCommand.value == StrV("init") {
          var fired := controller.Fire(ApiInit, env);
          if fired.Raised? {
            return Raised(fired.fault);
          }
        }
      }
    }
    r := Ok(());
  }

  /** main from the point the processes are started: api_config on a new controller
      over the two queues, then one tick per input until a tick raises (an exception
      ends the process). */
  method Run(apiQ: MessageQueue, engineQ: MessageQueue, setupEnv: Env, inputs: seq<TickInput>)
    returns (controller: Controller, r: Result<()>)
    requires apiQ != engineQ
    modifies apiQ, engineQ
    ensures fresh(controller) && controller.apiQ == apiQ && controller.engineQ == engineQ
    ensures Step(controller.Snapshot(), r)
         == MainSpec(Ctl(Init, NoneV, NoneV, None, old(apiQ.items), old(engineQ.items)), setupEnv, inputs)
  {
    controller := new Controller(apiQ, engineQ);
    ghost var start := controller.Snapshot();
    assert start == Ctl(Init, NoneV, NoneV, None, old(apiQ.items), old(engineQ.items));
    var configured := controller.Fire(ApiConfig, setupEnv);
    assert Step(controller.Snapshot(), configured) == AfterFire(start, setupEnv, ApiConfig);
    if configured.Raised? {
      return controller, Raised(configured.fault);
    }
    ghost var ready := controller.Snapshot();
    r := Ok(());
    var i := 0;
    while i < |inputs| && r.Ok?
      invariant 0 <= i <= |inputs|
      invariant controller.Valid() && controller.apiQ == apiQ && controller.engineQ == engineQ
      invariant r.Ok? ==> Ticks(ready, inputs) == Ticks(controller.Snapshot(), inputs[i..])
      invariant r.Raised? ==> Ticks(ready, inputs) == Step(controller.Snapshot(), r)
      decreases |inputs| - i
    {
      var input := inputs[i];
      ghost var before := controller.Snapshot();
      assert inputs[i..][1..] == inputs[i + 1..];
      Deliver(controller, input);
      r := Tick(controller, input.env);
      i := i + 1;
    }
    if r.Ok? {
      assert inputs[i..] == [];
      ghost var u := r.value;
      assert u == ();
    }
  }

  /** The other processes' puts between two ticks. */
  method Deliver(controller: Controller, input: TickInput)
    requires controller.Valid()
    modifies controller.apiQ, controller.engineQ
    ensures controller.Snapshot() == Arrived(old(controller.Snapshot()), input)
  {
    if input.fromApi.Some? {
      controller.apiQ.Put(input.fromApi.value);
    }
    if input.fromEngine.Some? {
      controller.engineQ.Put(input.fromEngine.value);
    }
  }
}
