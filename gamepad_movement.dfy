/**
  Gamepad locomotion: snap or smooth turning on the right stick, turbo mode on
  the triggers, and gaze-aimed teleporting with a ground marker (where the
  gaze ray hits) and an air marker (a fixed range ahead, for flying).
 */
module Movement {
  import opened Optional
  import opened Geometry

  /** Either trigger pushed beyond this switches turbo mode on. */
  const TurboThreshold: real := 0.1

  /** The layers AllowFreeMove puts the player on. */
  const FreeMoveLayer := 8
  const IgnoreRaycastLayer := 2

  function Abs(x: real): real {
    if x < 0.0 then -x else x
  }

  /** A teleport marker: whether it is shown, and where. */
  datatype Marker = Marker(active: bool, position: Vec3)

  /**
    One frame of gamepad input: the axes the script reads, and the teleport
    buttons (JoystickButton4, JoystickButton5, Space) taken together.
   */
  datatype Pad = Pad(lt: real, rt: real, rightHorizontal: real, rightVertical: real,
                     vertical: real, horizontal: real, teleportHeld: bool, teleportReleased: bool)

  /** The main camera this frame, and the point its gaze ray hits, if any. */
  datatype View = View(position: Vec3, forward: Vec3, gaze: Option<Vec3>)

  predicate IsTurbo(pad: Pad) {
    pad.lt > TurboThreshold || pad.rt > TurboThreshold
  }

  /** The snap-turn state kept between frames. */
  datatype Turning = Turning(rotating: bool, immediateTurn: bool, counter: real)

  /**
    What one frame of turning does: the state it leaves, how many snap turns
    fire (all to the right when `right`, all to the left otherwise) and the
    continuous yaw added by smooth turning.
   */
  datatype TurnFrame = TurnFrame(next: Turning, snapTurns: nat, right: bool, smoothYaw: real)

  /**
    Between frames: the first turn of a stick push is still due exactly when
    the player is not rotating, and an idle player has no time accumulated.
   */
  predicate TurnInvariant(s: Turning) {
    && s.immediateTurn == !s.rotating
    && (!s.rotating ==> s.counter == 0.0)
    && s.counter >= 0.0
  }

  /**
    The first half of turning (GamepadVRMovement.cs, lines 86-119): in smooth mode
    (turbo, or incremental turning off) a centred stick stops rotation, in
    snap mode the stick must pass `sensitivity` to start or keep it.
   */
  function Hold(s: Turning, turbo: bool, incremental: bool, rh: real, sensitivity: real): Turning {
    if turbo || !incremental then
      if Abs(rh) > 0.0 then s else Turning(false, true, 0.0)
    else if Abs(rh) > sensitivity then s.(rotating := true)
    else Turning(false, true, 0.0)
  }

  /** The continuous yaw of smooth mode: the stick, halved unless in turbo mode. */
  function SmoothYaw(turbo: bool, incremental: bool, rh: real): real {
    if (turbo || !incremental) && Abs(rh) > 0.0 then (if turbo then rh else rh * 0.5) else 0.0
  }

  /**
    The second half of turning (GamepadVRMovement.cs, lines 121-143): while rotating,
    the first turn fires at once and another each time the accumulated time
    exceeds `frequency`. Returns the new state and the number of turns.
   */
  function Repeat(h: Turning, frequency: real, dt: real): (Turning, nat) {
    if h.rotating then
      var first := if h.immediateTurn then 1 else 0;
      var counter := h.counter + dt;
      if counter > frequency then (Turning(true, false, 0.0), first + 1)
      else (Turning(true, false, counter), first)
    else
      (h.(immediateTurn := true), 0)
  }

  /**
    One frame of turning: smooth turning adds the stick to the yaw; snap
    turning fires one turn when the stick first passes `sensitivity` and one
    more each time the held time exceeds `frequency`.
   */
  function Turn(s: Turning, turbo: bool, incremental: bool, rh: real, sensitivity: real,
                frequency: real, dt: real): (r: TurnFrame)
    ensures r.right == (rh > sensitivity)
    ensures !r.next.rotating ==> r.snapTurns == 0 && r.next.immediateTurn
    ensures r.next.rotating ==>
      && !r.next.immediateTurn
      && r.snapTurns == (if s.immediateTurn then 1 else 0) + (if s.counter + dt > frequency then 1 else 0)
      && r.next.counter == (if s.counter + dt > frequency then 0.0 else s.counter + dt)
    // snap mode
    ensures !turbo && incremental ==> r.smoothYaw == 0.0 && r.next.rotating == (Abs(rh) > sensitivity)
    ensures !turbo && incremental && Abs(rh) <= sensitivity ==> r.next == Turning(false, true, 0.0)
    // smooth mode
    ensures turbo || !incremental ==>
      && r.smoothYaw == (if Abs(rh) > 0.0 then (if turbo then rh else rh * 0.5) else 0.0)
      && r.next.rotating == (s.rotating && Abs(rh) > 0.0)
    ensures TurnInvariant(s) && dt >= 0.0 ==>
      TurnInvariant(r.next) && (r.next.rotating ==> r.next.counter <= frequency || r.next.counter == 0.0)
  {
    var (next, turns) := Repeat(Hold(s, turbo, incremental, rh, sensitivity), frequency, dt);
    TurnFrame(next, turns, rh > sensitivity, SmoothYaw(turbo, incremental, rh))
  }

  /** The yaw `turns` snap turns of `amount` degrees add, to the right or to the left. */
  function SnapYaw(turns: nat, right: bool, amount: real): real {
    if turns == 0 then 0.0
    else SnapYaw(turns - 1, right, amount) + (if right then amount else -amount)
  }

  /** A right turn and a left turn of the same amount cancel. */
  lemma {:induction false} SnapYawOpposite(turns: nat, amount: real)
    ensures SnapYaw(turns, true, amount) + SnapYaw(turns, false, amount) == 0.0
  {
    if turns > 0 {
      SnapYawOpposite(turns - 1, amount);
    }
  }

  /** Where the air marker goes: `teleportRange` ahead of the camera. */
  function AirPoint(view: View, range: real): Vec3 {
    Add(view.position, Scale(view.forward, range))
  }

  /** The blind image is shown when turbo mode turns or flies the player. */
  function BlindsOn(turbo: bool, movement: bool, flying: bool, pad: Pad): (on: bool)
    ensures on ==> turbo
    ensures turbo && Abs(pad.rightHorizontal) > 0.0 ==> on
    ensures !movement || !flying ==> (on <==> turbo && Abs(pad.rightHorizontal) > 0.0)
  {
    && turbo
    && (|| Abs(pad.rightHorizontal) > 0.0
        || (movement && flying && (Abs(pad.vertical) > 0.0 || Abs(pad.horizontal) > 0.0
                                   || Abs(pad.rightVertical) > 0.0)))
  }

  /** The yaw after a frame of turning: the smooth amount plus the snap turns. */
  function Turned(angles: Vec3, t: TurnFrame, amount: real): Vec3 {
    Vec3(angles.x, angles.y + t.smoothYaw + SnapYaw(t.snapTurns, t.right, amount), angles.z)
  }

  /** What the teleport button drives: the two markers, the gaze pointer and the player's position. */
  datatype Teleporting = Teleporting(ground: Marker, air: Marker, pointerVisible: bool, position: Vec3)

  /** MoveTo on the teleport state: the player at `location`, both markers hidden. */
  function MovedTo(s: Teleporting, location: Vec3): Teleporting {
    s.(position := location, ground := s.ground.(active := false), air := s.air.(active := false))
  }

  /**
    The teleport part of Update. While the button is held the gaze ray picks
    the marker: with flying allowed exactly one is shown, the air marker
    (`range` ahead of the camera) when the gaze hits nothing or, with range
    limiting, hits farther than `range`, the ground marker (at the hit)
    otherwise; without flying only the ground marker, when the gaze hits.
    On release the player, when ready, moves one unit above the shown
    marker, the ground marker first. Otherwise both markers are hidden.
   */
  function TeleportStep(s: Teleporting, pad: Pad, view: View, flying: bool, limited: bool, range: real,
                        ready: bool): (r: Teleporting)
    ensures ready ==> !(r.ground.active && r.air.active)
    ensures !pad.teleportHeld && ready ==> !r.ground.active && !r.air.active
    ensures pad.teleportHeld ==>
      && !r.pointerVisible && r.position == s.position
      && (flying ==> r.ground.active != r.air.active)
      && (flying ==> (r.air.active <==> view.gaze.None? || (limited && FartherThan(view.gaze.value, view.position, range))))
      && (!flying ==> !r.air.active && (r.ground.active <==> view.gaze.Some?))
      && (r.ground.active ==> r.ground.position == view.gaze.value)
      && (r.air.active ==> r.air.position == AirPoint(view, range))
    ensures !pad.teleportHeld && pad.teleportReleased ==>
      && r.pointerVisible
      && (ready && s.ground.active ==> r.position == Add(s.ground.position, Up))
      && (ready && !s.ground.active && s.air.active ==> r.position == Add(s.air.position, Up))
      && (!ready || !(s.ground.active || s.air.active) ==> r == s.(pointerVisible := true))
    ensures !pad.teleportHeld && !pad.teleportReleased ==>
      r == s.(ground := s.ground.(active := false), air := s.air.(active := false))
  {
    if pad.teleportHeld then
      var hit := if view.gaze.Some? then view.gaze.value else Zero;
      var aimed := s.(pointerVisible := false);
      if flying && (view.gaze.None? || (limited && FartherThan(hit, view.position, range))) then
        aimed.(ground := s.ground.(active := false), air := Marker(true, AirPoint(view, range)))
      else if view.gaze.Some? then
        aimed.(ground := Marker(true, hit), air := s.air.(active := false))
      else
        aimed.(ground := s.ground.(active := false), air := s.air.(active := false))
    else if pad.teleportReleased then
      var shown := s.(pointerVisible := true);
      if ready && s.ground.active then MovedTo(shown, Add(s.ground.position, Up))
      else if ready && s.air.active then MovedTo(shown, Add(s.air.position, Up))
      else shown
    else
      s.(ground := s.ground.(active := false), air := s.air.(active := false))
  }

  class GamepadVRMovement {
    // Tuning, set in the inspector.
    var blinking: bool
    var allowJoystickMovement: bool
    var allowJoystickFlying: bool
    var limitedRangeGroundTeleport: bool
    var teleportRange: real
    var turnSensitivity: real
    var turnAmountInDegrees: real
    var rotationFrequencyInSeconds: real

    // Internal state.
    var rotating: bool
    var immediateTurn: bool
    var rotationCounter: real
    var readyToMove: bool
    var incrementalTurning: bool
    var turboMode: bool
    var groundMarker: Marker
    var airMarker: Marker

    // The scene objects the script drives.
    var position: Vec3
    var eulerAngles: Vec3
    var layer: int
    var blindActive: bool
    var gazePointerVisible: bool

    /** The part of the state turning drives. */
    function TurnState(): Turning
      reads this`rotating, this`immediateTurn, this`rotationCounter
    {
      Turning(rotating, immediateTurn, rotationCounter)
    }

    /** Nothing ever clears `readyToMove`; the turning state keeps TurnInvariant. */
    ghost predicate Valid()
      reads this`readyToMove, this`rotating, this`immediateTurn, this`rotationCounter
    {
      readyToMove && TurnInvariant(TurnState())
    }

    /** The part of the state the teleport button drives. */
    function TeleportState(): Teleporting
      reads this`groundMarker, this`airMarker
      reads this`gazePointerVisible, this`position
    {
      Teleporting(groundMarker, airMarker, gazePointerVisible, position)
    }

    /** Awake, with the inspector's default tuning: instantiates both markers from their prefabs. */
    constructor (groundTemplate: Marker, airTemplate: Marker, start: Vec3, startAngles: Vec3, startLayer: int)
      ensures Valid()
      ensures blinking && allowJoystickMovement && allowJoystickFlying && !limitedRangeGroundTeleport
      ensures teleportRange == 15.0 && turnSensitivity == 0.5 && turnAmountInDegrees == 45.0
      ensures rotationFrequencyInSeconds == 1.0
      ensures TurnState() == Turning(false, true, 0.0) && incrementalTurning && !turboMode
      ensures groundMarker == groundTemplate && airMarker == airTemplate
      ensures position == start && eulerAngles == startAngles && layer == startLayer
    {
      blinking, allowJoystickMovement, allowJoystickFlying := true, true, true;
      limitedRangeGroundTeleport := false;
      teleportRange, turnSensitivity, turnAmountInDegrees := 15.0, 0.5, 45.0;
      rotationFrequencyInSeconds := 1.0;
      rotating, immediateTurn, rotationCounter := false, true, 0.0;
      readyToMove, incrementalTurning, turboMode := true, true, false;
      groundMarker, airMarker := groundTemplate, airTemplate;
      position, eulerAngles, layer := start, startAngles, startLayer;
      blindActive, gazePointerVisible := false, true;
    }

    /** TurnRight: adds `turnAmountInDegrees` to the yaw. */
    method TurnRight()
      modifies this`eulerAngles
      ensures eulerAngles == Vec3(old(eulerAngles.x), old(eulerAngles.y) + turnAmountInDegrees, old(eulerAngles.z))
    {
      eulerAngles := Add(eulerAngles, Vec3(0.0, turnAmountInDegrees, 0.0));
    }

    /** TurnLeft: takes `turnAmountInDegrees` from the yaw. */
    method TurnLeft()
      modifies this`eulerAngles
      ensures eulerAngles == Vec3(old(eulerAngles.x), old(eulerAngles.y) - turnAmountInDegrees, old(eulerAngles.z))
    {
      eulerAngles := Sub(eulerAngles, Vec3(0.0, turnAmountInDegrees, 0.0));
    }

    /** MoveTo: puts the player at `location` and hides both markers. */
    method MoveTo(location: Vec3)
      modifies this`position, this`groundMarker, this`airMarker
      ensures position == location
      ensures groundMarker == old(groundMarker).(active := false)
      ensures airMarker == old(airMarker).(active := false)
    {
      position := location;
      groundMarker := groundMarker.(active := false);
      airMarker := airMarker.(active := false);
    }

    method SetSmoothTurning(state: bool)
      modifies this`incrementalTurning
      ensures incrementalTurning == !state
    {
      if state {
        incrementalTurning := false;
      } else {
        incrementalTurning := true;
      }
    }

    method AllowFreeMove(allow: bool)
      modifies this`allowJoystickFlying, this`layer
      ensures allowJoystickFlying == allow
      ensures layer == if allow then FreeMoveLayer else IgnoreRaycastLayer
    {
      allowJoystickFlying := allow;
      if allow {
        layer := FreeMoveLayer;
      } else {
        layer := IgnoreRaycastLayer;
      }
    }

    /** A snap turn in the direction the stick is pushed; the blink, if any, calls the same method. */
    method SnapTurn(rh: real)
      modifies this`eulerAngles
      ensures eulerAngles == Vec3(old(eulerAngles.x), old(eulerAngles.y) + SnapYaw(1, rh > turnSensitivity, turnAmountInDegrees),
                                  old(eulerAngles.z))
    {
      if rh > turnSensitivity {
        TurnRight();
      } else {
        TurnLeft();
      }
    }

    /** Turbo mode is on while either trigger is pushed beyond the threshold. */
    method UpdateTurbo(pad: Pad)
      modifies this`turboMode
      ensures turboMode == IsTurbo(pad)
    {
      if pad.lt > TurboThreshold || pad.rt > TurboThreshold {
        turboMode := true;
      } else {
        turboMode := false;
      }
    }

    /** The first half of turning: whether rotation goes on, and the smooth yaw. */
    method HoldStick(turbo: bool, rh: real) returns (blindsOn: bool)
      modifies this`rotating, this`immediateTurn, this`rotationCounter, this`eulerAngles
      ensures TurnState() == Hold(old(TurnState()), turbo, incrementalTurning, rh, turnSensitivity)
      ensures eulerAngles == Vec3(old(eulerAngles.x), old(eulerAngles.y) + SmoothYaw(turbo, incrementalTurning, rh),
                                  old(eulerAngles.z))
      ensures blindsOn == (turbo && Abs(rh) > 0.0)
    {
      blindsOn := false;
      if turbo || !incrementalTurning {
        if Abs(rh) > 0.0 {
          if turbo {
            blindsOn := true;
            eulerAngles := Add(eulerAngles, Scale(Up, rh));
          } else {
            eulerAngles := Add(eulerAngles, Scale(Scale(Up, rh), 0.5));
          }
        } else {
          rotating := false;
          rotationCounter := 0.0;
          immediateTurn := true;
        }
      } else {
        if Abs(rh) > turnSensitivity {
          rotating := true;
        } else {
          rotating := false;
          rotationCounter := 0.0;
          immediateTurn := true;
        }
      }
    }

    /** The second half of turning: the snap turns due this frame. */
    method RepeatTurns(rh: real, dt: real)
      modifies this`immediateTurn, this`rotationCounter, this`eulerAngles
      ensures var (next, turns) := Repeat(old(TurnState()), rotationFrequencyInSeconds, dt);
        && TurnState() == next
        && eulerAngles == Vec3(old(eulerAngles.x), old(eulerAngles.y) + SnapYaw(turns, rh > turnSensitivity, turnAmountInDegrees),
                               old(eulerAngles.z))
    {
      if rotating {
        if immediateTurn {
          SnapTurn(rh);
          immediateTurn := false;
        }
        rotationCounter := rotationCounter + dt;
        if rotationCounter > rotationFrequencyInSeconds {
          SnapTurn(rh);
          rotationCounter := 0.0;
        }
      } else {
        immediateTurn := true;
      }
    }

    /** The turning part of Update (GamepadVRMovement.cs, lines 86-143). */
    method UpdateTurning(pad: Pad, dt: real) returns (blindsOn: bool)
      modifies this`turboMode, this`rotating, this`immediateTurn, this`rotationCounter, this`eulerAngles
      ensures turboMode == IsTurbo(pad)
      ensures var t := Turn(old(TurnState()), IsTurbo(pad), incrementalTurning, pad.rightHorizontal, turnSensitivity,
                            rotationFrequencyInSeconds, dt);
        TurnState() == t.next && eulerAngles == Turned(old(eulerAngles), t, turnAmountInDegrees)
      ensures blindsOn == (IsTurbo(pad) && Abs(pad.rightHorizontal) > 0.0)
    {
      UpdateTurbo(pad);
      blindsOn := HoldStick(turboMode, pad.rightHorizontal);
      RepeatTurns(pad.rightHorizontal, dt);
    }

    /** The teleport part of Update (GamepadVRMovement.cs, lines 150-229). */
    method UpdateTeleport(pad: Pad, view: View)
      modifies this`groundMarker, this`airMarker
      modifies this`gazePointerVisible, this`position
      ensures TeleportState() == TeleportStep(old(TeleportState()), pad, view, allowJoystickFlying,
                                              limitedRangeGroundTeleport, teleportRange, readyToMove)
    {
      if pad.teleportHeld {
        // `currentTarget` and `hit` are fields of the script, read only in this branch.
        var currentTarget: bool, hitPoint: Vec3;
        match view.gaze {
          case Some(p) =>
            currentTarget, hitPoint := true, p;
          case None =>
            currentTarget, hitPoint := false, Zero;
        }
        gazePointerVisible := false;
        if allowJoystickFlying {
          if currentTarget {
            if limitedRangeGroundTeleport && FartherThan(hitPoint, view.position, teleportRange) {
              groundMarker := groundMarker.(active := false);
              airMarker := Marker(true, AirPoint(view, teleportRange));
            } else {
              groundMarker := Marker(true, hitPoint);
              airMarker := airMarker.(active := false);
            }
          } else {
            groundMarker := groundMarker.(active := false);
            airMarker := Marker(true, AirPoint(view, teleportRange));
          }
        } else {
          airMarker := airMarker.(active := false);
          if currentTarget {
            groundMarker := Marker(true, hitPoint);
          } else {
            groundMarker := groundMarker.(active := false);
          }
        }
      } else if pad.teleportReleased {
        gazePointerVisible := true;
        if groundMarker.active {
          if readyToMove {
            MoveTo(Add(groundMarker.position, Up));
          }
        } else if airMarker.active {
          if readyToMove {
            MoveTo(Add(airMarker.position, Up));
          }
        }
      } else {
        airMarker := airMarker.(active := false);
        groundMarker := groundMarker.(active := false);
      }
    }

    /**
      The joystick movement part of Update (GamepadVRMovement.cs, lines 236-273): only
      whether it asks for the blind image. The displacement itself is engine
      physics.
     */
    method MovementBlinds(pad: Pad) returns (blindsOn: bool)
      ensures blindsOn <==> turboMode && allowJoystickMovement && allowJoystickFlying
                            && (Abs(pad.vertical) > 0.0 || Abs(pad.horizontal) > 0.0 || Abs(pad.rightVertical) > 0.0)
    {
      blindsOn := false;
      if allowJoystickMovement {
        if Abs(pad.vertical) > 0.0 {
          if allowJoystickFlying {
            if turboMode { blindsOn := true; }
          }
        }
        if Abs(pad.horizontal) > 0.0 {
          if allowJoystickFlying {
            if turboMode { blindsOn := true; }
          }
        }
        if Abs(pad.rightVertical) > 0.0 {
          if allowJoystickFlying {
            if turboMode { blindsOn := true; }
          }
        }
      }
    }

    /** The rest of Update (GamepadVRMovement.cs, lines 150-282): the teleport button, then the blind image. */
    method UpdateTeleportAndBlinds(pad: Pad, view: View, turnBlinds: bool)
      modifies this`groundMarker, this`airMarker
      modifies this`gazePointerVisible, this`position, this`blindActive
      ensures TeleportState() == TeleportStep(old(TeleportState()), pad, view, allowJoystickFlying,
                                              limitedRangeGroundTeleport, teleportRange, readyToMove)
      ensures blindActive == (turnBlinds || (turboMode && allowJoystickMovement && allowJoystickFlying
                            && (Abs(pad.vertical) > 0.0 || Abs(pad.horizontal) > 0.0 || Abs(pad.rightVertical) > 0.0)))
    {
      UpdateTeleport(pad, view);
      var moveBlinds := MovementBlinds(pad);
      blindActive := turnBlinds || moveBlinds;
    }

    /**
      Update, one frame: turbo mode and turning, the teleport button, and the
      blind image. Neither marker is ever shown together with the other.
     */
    method Update(pad: Pad, dt: real, view: View)
      requires Valid() && dt >= 0.0
      modifies this`rotating, this`immediateTurn, this`rotationCounter, this`eulerAngles, this`turboMode
      modifies this`groundMarker, this`airMarker
      modifies this`gazePointerVisible, this`position, this`blindActive
      ensures Valid()
      ensures turboMode == IsTurbo(pad)
      ensures var t := Turn(old(TurnState()), IsTurbo(pad), incrementalTurning, pad.rightHorizontal,
                            turnSensitivity, rotationFrequencyInSeconds, dt);
        TurnState() == t.next && eulerAngles == Turned(old(eulerAngles), t, turnAmountInDegrees)
      ensures TeleportState() == TeleportStep(old(TeleportState()), pad, view, allowJoystickFlying,
                                              limitedRangeGroundTeleport, teleportRange, readyToMove)
      ensures blindActive == BlindsOn(IsTurbo(pad), allowJoystickMovement, allowJoystickFlying, pad)
      ensures !(groundMarker.active && airMarker.active)
    {
      var turnBlinds := UpdateTurning(pad, dt);
      UpdateTeleportAndBlinds(pad, view, turnBlinds);
    }
  }
}
