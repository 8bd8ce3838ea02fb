# MARIN2VRTK locomotion and menu scripts, modelled in Dafny

This project models the core of the MARIN2VRTK Unity toolkit. The toolkit lets a
player in virtual reality look at ship models and find their way around them.
Four scripts are modelled:

- **CurveTeleporter**: a controller-held teleporter.
  - The player holds the teleport button to sample a gravity-bent arc, recursively, one segment at a time.
  - Each segment casts one physics ray.
  - Every missed segment is shown as a node from a pool of `ceil(curveMaxLenght / curveNodeDistance)` nodes, built in Awake and rebuilt when a query starts after a tuning change.
  - The first hit is coloured green on a `TeleportArea` collider and red elsewhere.
  - Releasing the button, when the last hit is on a `TeleportArea` collider, moves the camera rig so that the camera stands over the hit point.
- **GamepadVRMovement**: gamepad locomotion.
  - Turbo mode comes on the triggers.
  - Turning on the right stick is either snap turning (one immediate turn, then one turn per `rotationFrequencyInSeconds` while held) or smooth turning.
  - Gaze-aimed teleporting uses a ground marker and an air marker.
  - A blind image shows during fast turbo motion.
- **VRInput**: the per-frame Fire1/Cancel classifier: up, click or double click, and cancel.
- **VRMenu**: a panel that listed keys toggle, that appears three units in front of the camera, and that hides itself beyond five units.

Layout:

- `geometry.dfy`: the `Optional` module (an `Option` type) and the `Geometry` module.
  - Geometry holds vectors over exact reals.
  - It expresses `Vector3.Distance(a, b) > r` without a square root, as `FartherThan`, and proves the two equivalent.
- `curve_teleporter.dfy` (module `Teleport`).
  - `CurveTeleporter` is a class whose node pool is an `array<Graphic>`.
  - The recursion of `CurvedRaycast` is kept as recursion: the pair of methods `Pass` and `Miss`, which keep the depth in the `levels` field.
  - The geometry of the arc (`Heading`, `Origin`, `Cast`, `FirstHit`) is a set of pure specification functions the methods are proved against.
- `gamepad_movement.dfy` (module `Movement`).
  - `GamepadVRMovement` is a class with the script's fields.
  - Each part of `Update` is a method proved against a pure function of the frame: `Turn`, `TeleportStep`, `BlindsOn`.
- `clicks.dfy` (module `Clicks`): the class `VRInput` with its timer field. Events are modelled as the sequence of events invoked.
- `menu.dfy` (module `Menu`): the class `VRMenu`. Its key loop is proved against the fold `AfterKeys`.

The engine services are parameters:

- The physics raycast and `Vector3.Normalize` are function-valued fields of `Teleport.Engine`.
- The gaze raycast of the movement script is `View.gaze`, the hit point or none.
- `Input.*` values are booleans and axis readings. This includes `GetKey`, `GetKeyUp` and `GetButtonDown`.
- `Time.time` and `Time.deltaTime` are real parameters.
- The main camera's pose is passed as a pair of vectors.

Two behaviours of the code are kept as written:

- In smooth mode (turbo, or incremental turning off) a centred stick is the only thing that clears `rotating`. So a snap rotation that was under way when smooth mode began keeps firing snap turns. When the stick is then within `turnSensitivity` of the centre, or pushed left, those turns go left. `Movement.Turn` states this as `r.next.rotating == (s.rotating && Abs(rh) > 0.0)` in smooth mode: a rotation under way continues while the stick is off centre, and none starts. Together with the rotating-frame clause on `snapTurns` and the unconditional `right == (rh > sensitivity)`, that pins the snap turns that keep firing.
- The double-click timer starts at 0. So a first Fire1 press earlier than the double-click time after start-up counts as a double click. See `Clicks.FirstEarlyPressIsDoubleClick`.

The comments of VRInput describe OnUp as the release event and the timer as the time of the last release. The code invokes OnUp, and records the time, on the button-down frame. The model follows the code.

## Model

| member | source | states |
|---|---|---|
| Geometry.FartherThanIsDistance | Assets/MARIN2VRTK/Scripts/GamepadVRMovement.cs:167 | the square-root-free test `FartherThan(a, b, r)` holds exactly when the true distance exceeds `r`, which is the comparison the scripts make |
| Teleport.Ceil | Assets/MARIN2VRTK/Scripts/CurveTeleporter.cs:133 | `Mathf.Ceil` in exact arithmetic: the result is the least integer not below its argument |
| Teleport.PoolSize | Assets/MARIN2VRTK/Scripts/CurveTeleporter.cs:133-140 | for a positive maximum length the pool has at least one node, and `n - 1` segments fall short of the maximum length while `n` segments reach it |
| Teleport.LengthLimitIsPoolEnd | Assets/MARIN2VRTK/Scripts/CurveTeleporter.cs:164 | the length test `(levels + 1) * d >= max` holds exactly when `levels + 1` reaches the pool size, so the sampler never indexes past the pool |
| Teleport.HeadingClosedForm | Assets/MARIN2VRTK/Scripts/CurveTeleporter.cs:174 | after k bends the direction keeps its x and z and has lost `k * curveAngle * curveNodeDistance` from its y |
| Teleport.FirstHit | Assets/MARIN2VRTK/Scripts/CurveTeleporter.cs:149-176 | the index of the first segment whose ray hits: every earlier segment misses, and the segment at that index hits unless it is the pool end |
| Teleport.FirstHitIsLeast | Assets/MARIN2VRTK/Scripts/CurveTeleporter.cs:149-176 | any index before which all rays miss and at which a ray hits (or the end) is FirstHit's answer |
| Teleport.GetCameraRigPosition | Assets/MARIN2VRTK/Scripts/CurveTeleporter.cs:107-112 | the rig is placed so that rig plus the camera's local x/z offset is the target's x/z, at the target's height |
| Teleport.InstantiatePool | Assets/MARIN2VRTK/Scripts/CurveTeleporter.cs:134-140 | a fresh pool of exactly `count` copies of the node prefab |
| Teleport.CurveTeleporter.constructor | Assets/MARIN2VRTK/Scripts/CurveTeleporter.cs:114-141 | Awake: the hit marker and a pool of `PoolSize(max, d)` prefab copies, with `levels` 0 |
| Teleport.CurveTeleporter.CheckForEditorChanges | Assets/MARIN2VRTK/Scripts/CurveTeleporter.cs:190-226 | on a tuning change, `levels` becomes 0 and the pool is rebuilt fresh with `PoolSize` of the new tuning; otherwise nothing changes; afterwards the recorded tuning equals the current one |
| Teleport.CurveTeleporter.CurvedRaycast | Assets/MARIN2VRTK/Scripts/CurveTeleporter.cs:143-178 | with k the first hitting segment and n the pool size: returns true with segment k's hit exactly when k < n; casts k + 1 rays on a hit and exactly n on a miss; nodes 0..k-1 are active at the segment ends, nodes from k on are inactive; `levels` is 0 afterwards |
| Teleport.CurveTeleporter.Pass | Assets/MARIN2VRTK/Scripts/CurveTeleporter.cs:148-158 | one recursion level at depth `levels`: the same outcome as CurvedRaycast for the segments from `levels` on, nodes below `levels` untouched, `levels` 0 on return |
| Teleport.CurveTeleporter.Miss | Assets/MARIN2VRTK/Scripts/CurveTeleporter.cs:159-177 | after a miss: node `levels` is activated at `from + normalize(direction) * d`, then either the length limit ends the query with `levels` 0 or the next level starts from that point with the bent direction |
| Teleport.CurveTeleporter.ReachedMaxLength | Assets/MARIN2VRTK/Scripts/CurveTeleporter.cs:164 | the limit test is true exactly when no pool slot remains beyond the current depth |
| Teleport.CurveTeleporter.DeactivateFrom | Assets/MARIN2VRTK/Scripts/CurveTeleporter.cs:152-155 | every node from `start` to the end is switched off and the nodes before it are untouched |
| Teleport.CurveTeleporter.ColorCurve | Assets/MARIN2VRTK/Scripts/CurveTeleporter.cs:96-100 | the hit marker's ring and glow and every node's material take the red, green and blue of c and keep their own alpha, as `TeleportMarker.SetColor` and `CurveNode.SetColor` do; nothing else about them changes |
| Teleport.CurveTeleporter.ClearNodes | Assets/MARIN2VRTK/Scripts/CurveTeleporter.cs:180-186 | every node is switched off, nothing else about it changes |
| Teleport.CurveTeleporter.MoveTo | Assets/MARIN2VRTK/Scripts/CurveTeleporter.cs:102-105 | the rig goes to GetCameraRigPosition of the target |
| Teleport.CurveTeleporter.Update | Assets/MARIN2VRTK/Scripts/CurveTeleporter.cs:58-94 | while held: the hit marker is active exactly when the arc hit, marker and nodes take one colour, green exactly on a TeleportArea hit, each keeping its material's alpha; nodes before the hit are active and none after; on release: the rig moves exactly when the last hit is a TeleportArea, and the marker and all nodes end inactive; otherwise nothing changes; whenever the button is not held the recorded tuning is kept; while held the recorded tuning ends equal to the current one, and the pool is kept when the tuning was unchanged and rebuilt fresh when it changed |
| Movement.Turn | Assets/MARIN2VRTK/Scripts/GamepadVRMovement.cs:86-143 | snap mode with the stick inside the sensitivity ends the frame idle (not rotating, counter 0, immediate turn due); while rotating, the first frame fires one turn plus one more when the counter, grown by dt, strictly exceeds the frequency, which resets it; turns go right exactly when `rh > sensitivity`; smooth mode adds the stick (halved outside turbo) to the yaw, and a rotation goes on exactly when one was under way and the stick is off centre; the between-frame invariant is preserved |
| Movement.SnapYawOpposite | Assets/MARIN2VRTK/Scripts/GamepadVRMovement.cs:293-301 | as many right turns as left turns of the same amount add up to no yaw at all |
| Movement.BlindsOn | Assets/MARIN2VRTK/Scripts/GamepadVRMovement.cs:90-282 | the blind image is requested only in turbo mode, always when turbo turns the player, and without free flying only then |
| Movement.TeleportStep | Assets/MARIN2VRTK/Scripts/GamepadVRMovement.cs:150-229 | held with flying: exactly one marker, the air marker exactly when there is no gaze hit or a range-limited hit is too far, placed `teleportRange` ahead of the camera; held without flying: no air marker, the ground marker at the hit exactly when there is one; released: the player moves one unit above the ground marker if shown, else above the air marker; idle: both markers off |
| Movement.GamepadVRMovement.constructor | Assets/MARIN2VRTK/Scripts/GamepadVRMovement.cs:8-70 | the inspector defaults (range 15, sensitivity 0.5, 45 degrees, 1 second) and the idle turning state |
| Movement.GamepadVRMovement.TurnRight | Assets/MARIN2VRTK/Scripts/GamepadVRMovement.cs:293-296 | adds `turnAmountInDegrees` to the yaw and leaves the other angles |
| Movement.GamepadVRMovement.TurnLeft | Assets/MARIN2VRTK/Scripts/GamepadVRMovement.cs:298-301 | takes `turnAmountInDegrees` from the yaw and leaves the other angles |
| Movement.GamepadVRMovement.MoveTo | Assets/MARIN2VRTK/Scripts/GamepadVRMovement.cs:285-291 | the player goes to the location and both markers are switched off |
| Movement.GamepadVRMovement.SetSmoothTurning | Assets/MARIN2VRTK/Scripts/GamepadVRMovement.cs:303-313 | incremental (snap) turning is on exactly when smooth turning is not requested |
| Movement.GamepadVRMovement.AllowFreeMove | Assets/MARIN2VRTK/Scripts/GamepadVRMovement.cs:315-327 | flying follows the argument, and the player is on layer 8 when flying and layer 2 otherwise |
| Movement.GamepadVRMovement.SnapTurn | Assets/MARIN2VRTK/Scripts/GamepadVRMovement.cs:125-126 | one turn, to the right exactly when `rh > turnSensitivity` |
| Movement.GamepadVRMovement.UpdateTurbo | Assets/MARIN2VRTK/Scripts/GamepadVRMovement.cs:77-84 | turbo mode is on exactly when LT or RT exceeds 0.1 |
| Movement.GamepadVRMovement.HoldStick | Assets/MARIN2VRTK/Scripts/GamepadVRMovement.cs:86-119 | the turning state becomes Hold of the old one, the yaw gains the smooth amount, and blinds are requested exactly in turbo with the stick off centre |
| Movement.GamepadVRMovement.RepeatTurns | Assets/MARIN2VRTK/Scripts/GamepadVRMovement.cs:121-143 | the turning state becomes Repeat of the old one and the yaw gains that many snap turns |
| Movement.GamepadVRMovement.UpdateTurning | Assets/MARIN2VRTK/Scripts/GamepadVRMovement.cs:77-143 | turbo from the triggers, then the turning state and yaw given by Turn |
| Movement.GamepadVRMovement.UpdateTeleport | Assets/MARIN2VRTK/Scripts/GamepadVRMovement.cs:150-229 | the markers, gaze pointer and position become TeleportStep of the old ones |
| Movement.GamepadVRMovement.MovementBlinds | Assets/MARIN2VRTK/Scripts/GamepadVRMovement.cs:236-273 | joystick movement requests the blinds exactly in turbo mode with movement and flying allowed and some movement axis off centre |
| Movement.GamepadVRMovement.UpdateTeleportAndBlinds | Assets/MARIN2VRTK/Scripts/GamepadVRMovement.cs:150-282 | the teleport step, then the blind image active exactly when turning or movement asked for it |
| Movement.GamepadVRMovement.Update | Assets/MARIN2VRTK/Scripts/GamepadVRMovement.cs:74-283 | one frame: turbo, Turn, TeleportStep and BlindsOn combined; the turning invariant is kept and the two markers are never active together |
| Clicks.Invoke | Assets/MARIN2VRTK/Prefabs/VRMenu/Scripts/VRInput.cs:38-39 | an event is invoked, once, exactly when it has subscribers |
| Clicks.Fired | Assets/MARIN2VRTK/Prefabs/VRMenu/Scripts/VRInput.cs:32-67 | a frame invokes Up exactly on a Fire1 press, then exactly one of DoubleClick (when less than the window has passed since the last press) or Click, then Cancel exactly on a Cancel press; Down never; each at most once, Up first and Cancel last |
| Clicks.ClickKinds | Assets/MARIN2VRTK/Prefabs/VRMenu/Scripts/VRInput.cs:35-58 | a run of frames yields exactly one click kind per Fire1 press, each a Click or a DoubleClick |
| Clicks.FrameClicks | Assets/MARIN2VRTK/Prefabs/VRMenu/Scripts/VRInput.cs:35-66 | with every event subscribed, a frame invokes exactly one Click or DoubleClick when Fire1 went down, the kind decided by the timer, and none otherwise |
| Clicks.RunClicksAreClickKinds | Assets/MARIN2VRTK/Prefabs/VRMenu/Scripts/VRInput.cs:32-67 | with every event subscribed, the Click and DoubleClick events invoked by successive CheckInput frames, with the timer threaded as CheckInput updates it, are exactly ClickKinds of the frames |
| Clicks.PressTrainIsDoubleClicks | Assets/MARIN2VRTK/Prefabs/VRMenu/Scripts/VRInput.cs:43-58 | in a run of presses each within the window of the one before, every press after the first is a double click, because every press restarts the timer |
| Clicks.FirstEarlyPressIsDoubleClick | Assets/MARIN2VRTK/Prefabs/VRMenu/Scripts/VRInput.cs:20-22 | with the timer at its initial 0, a press before 0.3 seconds is a double click and not a click |
| Clicks.VRInput.constructor | Assets/MARIN2VRTK/Prefabs/VRMenu/Scripts/VRInput.cs:20-22 | the double-click time is 0.3 and the timer 0 |
| Clicks.VRInput.CheckInput | Assets/MARIN2VRTK/Prefabs/VRMenu/Scripts/VRInput.cs:32-67 | the events invoked are Fired of the frame, and the timer becomes the current time exactly on a Fire1 press; a Cancel press leaves it |
| Clicks.VRInput.OnDestroy | Assets/MARIN2VRTK/Prefabs/VRMenu/Scripts/VRInput.cs:69-76 | only Cancel's subscribers survive |
| Menu.Presses | Assets/MARIN2VRTK/Prefabs/VRMenu/Scripts/VRMenu.cs:13-19 | the number of toggles is at most the number of listed keys, and 0 exactly when no listed key went down |
| Menu.AfterFrame | Assets/MARIN2VRTK/Prefabs/VRMenu/Scripts/VRMenu.cs:11-25 | after a whole Update a visible menu is never farther than 5 units from the camera, and the auto-hide never moves it |
| Menu.ToggleTwice | Assets/MARIN2VRTK/Prefabs/VRMenu/Scripts/VRMenu.cs:27-31 | two toggles restore the visibility (and a panel that followed it) and leave the menu in front of the camera |
| Menu.HideIdempotent | Assets/MARIN2VRTK/Prefabs/VRMenu/Scripts/VRMenu.cs:40-44 | hiding twice is hiding once, and hiding does not move the menu |
| Menu.AfterKeysParity | Assets/MARIN2VRTK/Prefabs/VRMenu/Scripts/VRMenu.cs:13-19 | the key loop leaves the visibility flipped by the parity of the presses, moves the menu in front of the camera exactly when some toggle showed it, and leaves the panel following the visibility once any toggle ran |
| Menu.EvenPressesKeepVisibility | Assets/MARIN2VRTK/Prefabs/VRMenu/Scripts/VRMenu.cs:11-25 | an even number of presses, with the menu near enough, leaves the visibility unchanged |
| Menu.VRMenu.constructor | Assets/MARIN2VRTK/Prefabs/VRMenu/Scripts/VRMenu.cs:6-9 | the menu starts hidden |
| Menu.VRMenu.PlaceInFront | Assets/MARIN2VRTK/Prefabs/VRMenu/Scripts/VRMenu.cs:46-50 | the menu goes three units along the camera's forward direction |
| Menu.VRMenu.Show | Assets/MARIN2VRTK/Prefabs/VRMenu/Scripts/VRMenu.cs:33-38 | panel active, visible, and in front of the camera |
| Menu.VRMenu.Hide | Assets/MARIN2VRTK/Prefabs/VRMenu/Scripts/VRMenu.cs:40-44 | panel inactive and hidden, position kept |
| Menu.VRMenu.Toggle | Assets/MARIN2VRTK/Prefabs/VRMenu/Scripts/VRMenu.cs:27-31 | Hide when visible, Show when hidden |
| Menu.VRMenu.Update | Assets/MARIN2VRTK/Prefabs/VRMenu/Scripts/VRMenu.cs:11-25 | the menu becomes AfterFrame of the old one: one toggle per listed key that went down, then the auto-hide |

## Left out

- IEEE single-precision arithmetic: every vector and length is an exact real, so rounding in `ceil(max / d)` against `(levels + 1) * d >= max` is not modelled. This is why the pool bound holds exactly.
- The player build of CurveTeleporter, in which CheckForEditorChanges is compiled out: the model follows the editor build.
- Blink coroutines (eyelids tweened over frames): the callback they wrap (MoveTo, TurnRight, TurnLeft) is called at once. When `blinking` is false GamepadVRMovement calls into a null `blinkScript`, and the model calls the callback directly.
- The blink object lookup in Awake and CheckForEditorChanges, node naming and parenting, and the Debug.Log message: scene bookkeeping with no effect on the logic.
- The displacement of joystick movement (`CharacterController.Move` and `SimpleMove`), the speeds `freeMoveSpeed`, `crawlMoveSpeed` and `moveSpeed`, and collision detection: engine physics. Only whether movement requests the blind image is modelled.
- Euler-angle wrap-around: the yaw is an unbounded real.
- `transform.LookAt` in PlaceInFront: the menu's rotation is not modelled, only its position.
- `MoveToModel` and `GetModelCenter`: outside the modelled operations. They average renderer bounds in floats with a NaN check.
- The `[Range]` inspector limits: the model requires only `curveNodeDistance > 0` and `curveMaxLength > 0` where the pool size and the length test need them. The field is spelled `curveMaxLength` here and `curveMaxLenght` in the source.
- `currentTarget` and `hit` of GamepadVRMovement: fields of the script that are written and read only within the held branch of one frame. They are locals of `UpdateTeleport`.
- Multicast delegates: an event is a member of the `subscribed` set, and the handlers it calls are not modelled. The way scripts subscribe (VRButton and others) is not part of this model.
- Movement.GamepadVRMovement.Update: requires `dt >= 0`, which `Time.deltaTime` always meets, and keeps `readyToMove` true as nothing in the script clears it.
