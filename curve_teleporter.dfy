/**
  The curved-raycast teleporter: a probe walks a gravity-bent arc one
  segment at a time, casting one ray per segment, and records every missed
  segment in a pre-sized pool of curve nodes. Holding the teleport button
  draws the arc; releasing it, when the last hit is on a teleport area,
  moves the camera rig so that the camera stands over the hit point.
 */
module Teleport {
  import opened Optional
  import opened Geometry

  /** The tag a collider must carry for the player to be moved onto it. */
  const TeleportAreaTag := "TeleportArea"

  /** Extra length given to each segment's ray, against floating-point short-fall. */
  const RayPadding: real := 0.1

  datatype Color = Rgba(r: real, g: real, b: real, a: real)

  const Green := Rgba(0.0, 1.0, 0.0, 1.0)
  const Red := Rgba(1.0, 0.0, 0.0, 1.0)

  /**
    SetColor on one material: the red, green and blue of c, and the
    material's own alpha, which the teleporter never changes.
   */
  function Tinted(material: Color, c: Color): Color {
    Rgba(c.r, c.g, c.b, material.a)
  }

  /** One curve node: whether it is shown, where, and its mesh material's colour. */
  datatype Graphic = Graphic(active: bool, position: Vec3, color: Color)

  /** The hit marker: whether it is shown, where, its ring material's colour and its glow's tint. */
  datatype Marker = Marker(active: bool, position: Vec3, ring: Color, glow: Color)

  /** TeleportMarker.SetColor: both the ring and the glow take c's colour and keep their alpha. */
  function MarkerTinted(m: Marker, c: Color): Marker {
    m.(ring := Tinted(m.ring, c), glow := Tinted(m.glow, c))
  }

  /** What a ray that hit a collider reports; the collider is known by its tag. */
  datatype RaycastHit = RaycastHit(point: Vec3, distance: real, tag: string)

  /**
    The engine services the sampler calls. `raycast(origin, direction, length)`
    is the physics query (None when nothing is hit within `length`);
    `normalize` is Vector3.Normalize.
   */
  datatype Engine = Engine(raycast: (Vec3, Vec3, real) -> Option<RaycastHit>, normalize: Vec3 -> Vec3)

  /** The arc a query follows: its start, its first direction and the two tuning values that bend it. */
  datatype Arc = Arc(from: Vec3, direction: Vec3, angle: real, step: real)

  predicate IsTeleportArea(h: Option<RaycastHit>) {
    h.Some? && h.value.tag == TeleportAreaTag
  }

  /** Mathf.Ceil in exact arithmetic: the least integer not below x. */
  function Ceil(x: real): (r: int)
    ensures (r - 1) as real < x <= r as real
  {
    var f := x.Floor;
    if f as real == x then f else f + 1
  }

  /**
    The number of nodes the pool is built with, `(int)Mathf.Ceil(max / d)`;
    a non-positive count builds no node at all.
   */
  function PoolSize(maxLength: real, nodeDistance: real): (n: nat)
    requires nodeDistance > 0.0
    ensures maxLength > 0.0 ==> n >= 1
    ensures maxLength > 0.0 ==> (n - 1) as real * nodeDistance < maxLength <= n as real * nodeDistance
  {
    var c := Ceil(maxLength / nodeDistance);
    if maxLength > 0.0 then
      CoverBounds(maxLength, nodeDistance, c);
      c
    else if c < 0 then 0 else c
  }

  /** From `c - 1 < max / d <= c` to the same bounds on segment lengths. */
  lemma CoverBounds(maxLength: real, nodeDistance: real, c: int)
    requires nodeDistance > 0.0 && maxLength > 0.0
    requires (c - 1) as real < maxLength / nodeDistance <= c as real
    ensures c >= 1
    ensures (c - 1) as real * nodeDistance < maxLength <= c as real * nodeDistance
  {
    var q := maxLength / nodeDistance;
    assert q * nodeDistance == maxLength;
    assert q > 0.0;
    ScaleMonotone(c as real - 1.0, q, nodeDistance);
    ScaleMonotone(q, c as real, nodeDistance);
  }

  lemma ScaleMonotone(p: real, q: real, d: real)
    requires d > 0.0
    ensures p < q ==> p * d < q * d
    ensures p <= q ==> p * d <= q * d
  {
    if p < q {
      assert q * d - p * d == (q - p) * d;
      Geometry.ProductSign(q - p, d);
    }
  }

  /**
    The length-limit test the sampler makes after a miss at depth `levels`,
    `(levels + 1) * d >= max`, holds exactly when the pool has no slot left
    beyond `levels`.
   */
  lemma LengthLimitIsPoolEnd(maxLength: real, nodeDistance: real, levels: nat)
    requires nodeDistance > 0.0 && maxLength > 0.0
    ensures ((levels + 1) as real * nodeDistance >= maxLength) <==> levels + 1 >= PoolSize(maxLength, nodeDistance)
  {
    var n := PoolSize(maxLength, nodeDistance);
    if levels + 1 >= n {
      ScaleMonotone(n as real, (levels + 1) as real, nodeDistance);
    } else {
      ScaleMonotone((levels + 1) as real, (n - 1) as real, nodeDistance);
    }
  }

  /** `direction + Vector3.down * angle * step`: the direction of the next segment. */
  function Bend(direction: Vec3, angle: real, step: real): Vec3 {
    Add(direction, Scale(Down, angle * step))
  }

  /** `from + unit * step`: where a missed segment ends and the next one starts. */
  function Advance(from: Vec3, unit: Vec3, step: real): Vec3 {
    Add(from, Scale(unit, step))
  }

  /** The direction of segment k. */
  function Heading(a: Arc, k: nat): Vec3 {
    if k == 0 then a.direction
    else Bend(Heading(a, k - 1), a.angle, a.step)
  }

  /** The bending never touches the horizontal components and is linear in the segment index. */
  lemma {:induction false} HeadingClosedForm(a: Arc, k: nat)
    ensures Heading(a, k) == Vec3(a.direction.x, a.direction.y - k as real * (a.angle * a.step), a.direction.z)
  {
    if k > 0 {
      HeadingClosedForm(a, k - 1);
    }
  }

  /** The start of segment k: each segment advances one step along its own normalized direction. */
  function Origin(e: Engine, a: Arc, k: nat): Vec3 {
    if k == 0 then a.from
    else Advance(Origin(e, a, k - 1), e.normalize(Heading(a, k - 1)), a.step)
  }

  /** The ray cast for segment k. */
  function Cast(e: Engine, a: Arc, k: nat): Option<RaycastHit> {
    e.raycast(Origin(e, a, k), Heading(a, k), a.step + RayPadding)
  }

  /**
    The index of the first segment in [i, n) whose ray hits, or n when none
    does: the number of segments that miss before the sampler stops.
   */
  function FirstHit(e: Engine, a: Arc, n: nat, i: nat): (k: nat)
    requires i <= n
    ensures i <= k <= n
    ensures forall j :: i <= j < k ==> Cast(e, a, j).None?
    ensures k < n ==> Cast(e, a, k).Some?
    decreases n - i
  {
    if i == n then n
    else if Cast(e, a, i).Some? then i
    else FirstHit(e, a, n, i + 1)
  }

  /** The least index in [i, n) of a ray that hits, or n when there is none, is FirstHit's answer. */
  lemma {:induction false} FirstHitIsLeast(e: Engine, a: Arc, n: nat, i: nat, first: nat)
    requires i <= first <= n
    requires forall j :: i <= j < first ==> Cast(e, a, j).None?
    requires first < n ==> Cast(e, a, first).Some?
    ensures FirstHit(e, a, n, i) == first
    decreases first - i
  {
    if i < first {
      FirstHitIsLeast(e, a, n, i + 1, first);
    }
  }

  /**
    Where the camera rig must go so that the camera, which sits at a
    horizontal offset inside the rig, stands over `feet` and the rig's floor
    is at the height of `feet`.
   */
  function GetCameraRigPosition(feet: Vec3, cameraLocal: Vec3): (rig: Vec3)
    ensures rig.x + cameraLocal.x == feet.x && rig.z + cameraLocal.z == feet.z
    ensures rig.y == feet.y
  {
    Vec3(feet.x - cameraLocal.x, feet.y, feet.z - cameraLocal.z)
  }

  /** Instantiates `count` copies of the curve-node prefab, as Awake and the editor check do. */
  method InstantiatePool(template: Graphic, count: nat) returns (pool: array<Graphic>)
    ensures fresh(pool) && pool.Length == count
    ensures forall i :: 0 <= i < count ==> pool[i] == template
  {
    pool := new Graphic[count];
    for i := 0 to count
      invariant forall j :: 0 <= j < i ==> pool[j] == template
    {
      pool[i] := template;
    }
  }

  class CurveTeleporter {
    // Tuning, set in the inspector.
    var curveAngle: real
    var curveNodeDistance: real
    var curveMaxLength: real
    var blinking: bool
    var teleportingEnabled: bool
    const curveTemplate: Graphic

    // Internal state.
    var hitInfo: Option<RaycastHit>
    var levels: int
    var nodes: array<Graphic>
    var hitGraphic: Marker
    var cameraRig: Vec3

    // The tuning the pool was last built for (editor builds only).
    var previousCurveAngle: real
    var previousCurveNodeDistance: real
    var previousCurveMaxLength: real

    /**
      Between frames no query is in progress, so `levels` is 0, and the pool
      has the size the last recorded tuning asks for.
     */
    ghost predicate Valid()
      reads this
    {
      && levels == 0
      && (previousCurveNodeDistance > 0.0 ==>
            nodes.Length == PoolSize(previousCurveMaxLength, previousCurveNodeDistance))
    }

    predicate TuningUnchanged()
      reads this
    {
      && previousCurveAngle == curveAngle
      && previousCurveMaxLength == curveMaxLength
      && previousCurveNodeDistance == curveNodeDistance
    }

    /** Awake: instantiates the hit marker and a pool of `ceil(max / d)` curve nodes. */
    constructor (angle: real, nodeDistance: real, maxLength: real, curveTemplate: Graphic,
                 hitTemplate: Marker, rig: Vec3)
      requires nodeDistance > 0.0
      ensures Valid()
      ensures curveAngle == angle && curveNodeDistance == nodeDistance && curveMaxLength == maxLength
      ensures blinking && teleportingEnabled && this.curveTemplate == curveTemplate
      ensures fresh(nodes) && nodes.Length == PoolSize(maxLength, nodeDistance)
      ensures forall i :: 0 <= i < nodes.Length ==> nodes[i] == curveTemplate
      ensures hitGraphic == hitTemplate && hitInfo == None && cameraRig == rig
      ensures previousCurveAngle == 0.0 && previousCurveMaxLength == 0.0 && previousCurveNodeDistance == 0.0
    {
      curveAngle, curveNodeDistance, curveMaxLength := angle, nodeDistance, maxLength;
      blinking, teleportingEnabled := true, true;
      this.curveTemplate := curveTemplate;
      hitInfo, levels := None, 0;
      hitGraphic, cameraRig := hitTemplate, rig;
      previousCurveAngle, previousCurveNodeDistance, previousCurveMaxLength := 0.0, 0.0, 0.0;
      var pool := InstantiatePool(curveTemplate, PoolSize(maxLength, nodeDistance));
      nodes := pool;
    }

    /**
      CheckForEditorChanges: when a tuning value differs from the one recorded,
      resets `levels` and rebuilds the pool with the new count; then records
      the current tuning.
     */
    method CheckForEditorChanges()
      requires curveNodeDistance > 0.0
      modifies this`levels, this`nodes
      modifies this`previousCurveAngle, this`previousCurveMaxLength, this`previousCurveNodeDistance
      ensures TuningUnchanged()
      ensures old(TuningUnchanged()) ==> nodes == old(nodes) && levels == old(levels)
      ensures !old(TuningUnchanged()) ==>
        && fresh(nodes) && levels == 0
        && nodes.Length == PoolSize(curveMaxLength, curveNodeDistance)
        && forall i :: 0 <= i < nodes.Length ==> nodes[i] == curveTemplate
      ensures old(Valid()) || !old(TuningUnchanged()) ==> Valid()
    {
      if previousCurveAngle != curveAngle || previousCurveMaxLength != curveMaxLength
         || previousCurveNodeDistance != curveNodeDistance
      {
        levels := 0;
        nodes := InstantiatePool(curveTemplate, PoolSize(curveMaxLength, curveNodeDistance));
      }
      previousCurveAngle := curveAngle;
      previousCurveMaxLength := curveMaxLength;
      previousCurveNodeDistance := curveNodeDistance;
    }

    /**
      CurvedRaycast, entered at depth 0: the editor check, then the passes
      of the recursion (Pass and Miss), which keep the depth in `levels`.
      `pool` is the pool as it stood after the editor check, and `casts` the
      number of rays cast.
     */
    method CurvedRaycast(engine: Engine, from: Vec3, direction: Vec3)
      returns (hit: bool, info: Option<RaycastHit>, ghost pool: seq<Graphic>, ghost casts: nat)
      requires Valid() && curveNodeDistance > 0.0 && curveMaxLength > 0.0
      modifies this`levels, this`nodes, nodes
      modifies this`previousCurveAngle, this`previousCurveMaxLength, this`previousCurveNodeDistance
      ensures Valid() && levels == 0 && TuningUnchanged()
      ensures nodes.Length == PoolSize(curveMaxLength, curveNodeDistance)
      ensures old(TuningUnchanged()) ==> nodes == old(nodes)
      ensures !old(TuningUnchanged()) ==> fresh(nodes)
      ensures |pool| == nodes.Length
      ensures forall i :: 0 <= i < |pool| ==>
                pool[i] == if old(TuningUnchanged()) then old(nodes[i]) else curveTemplate
      ensures var arc := Arc(from, direction, curveAngle, curveNodeDistance);
              var n := nodes.Length;
              var k := FirstHit(engine, arc, n, 0);
              && hit == (k < n)
              && info == (if hit then Cast(engine, arc, k) else None)
              && casts == (if hit then k + 1 else n)
              && (forall i :: 0 <= i < k ==>
                    nodes[i] == pool[i].(active := true, position := Origin(engine, arc, i + 1)))
              && (forall i :: k <= i < n ==> nodes[i] == pool[i].(active := false))
    {
      CheckForEditorChanges();
      pool := nodes[..];
      hit, info, casts := Pass(engine, Arc(from, direction, curveAngle, curveNodeDistance), from, direction);
    }

    /**
      One level of CurvedRaycast's recursion, below its first editor check:
      the pass at depth `levels` casts the ray of segment `levels` of `arc`
      and, on a miss within the length limit, records the segment's end in
      node `levels`, goes one level deeper, repeats the editor check and
      recurses. `casts` counts the rays this pass and the deeper ones cast.
     */
    method Pass(engine: Engine, ghost arc: Arc, from: Vec3, direction: Vec3)
      returns (hit: bool, info: Option<RaycastHit>, ghost casts: nat)
      requires TuningUnchanged() && curveNodeDistance > 0.0 && curveMaxLength > 0.0
      requires nodes.Length == PoolSize(curveMaxLength, curveNodeDistance)
      requires arc.angle == curveAngle && arc.step == curveNodeDistance
      requires 0 <= levels < nodes.Length
      requires from == Origin(engine, arc, levels) && direction == Heading(arc, levels)
      modifies this`levels, this`nodes, nodes
      modifies this`previousCurveAngle, this`previousCurveMaxLength, this`previousCurveNodeDistance
      ensures levels == 0 && TuningUnchanged() && nodes == old(nodes)
      ensures var n := nodes.Length;
              var k := FirstHit(engine, arc, n, old(levels));
              && hit == (k < n)
              && info == (if hit then Cast(engine, arc, k) else None)
              && casts == (if hit then k + 1 else n) - old(levels)
              && (forall i :: 0 <= i < old(levels) ==> nodes[i] == old(nodes[i]))
              && (forall i :: old(levels) <= i < k ==>
                    nodes[i] == old(nodes[i]).(active := true, position := Origin(engine, arc, i + 1)))
              && (forall i :: k <= i < n ==> nodes[i] == old(nodes[i]).(active := false))
      decreases nodes.Length - levels, 1
    {
      info := engine.raycast(from, direction, curveNodeDistance + RayPadding);
      assert info == Cast(engine, arc, levels);
      if info.Some? {
        // A hit: every node from this depth on is switched off.
        DeactivateFrom(levels);
        levels := 0;
        hit, casts := true, 1;
      } else {
        hit, info, casts := Miss(engine, arc, from, direction);
      }
    }

    /** The miss branch of a pass: records the segment, then stops or goes one level deeper. */
    method Miss(engine: Engine, ghost arc: Arc, from: Vec3, direction: Vec3)
      returns (hit: bool, info: Option<RaycastHit>, ghost casts: nat)
      requires TuningUnchanged() && curveNodeDistance > 0.0 && curveMaxLength > 0.0
      requires nodes.Length == PoolSize(curveMaxLength, curveNodeDistance)
      requires arc.angle == curveAngle && arc.step == curveNodeDistance
      requires 0 <= levels < nodes.Length
      requires from == Origin(engine, arc, levels) && direction == Heading(arc, levels)
      modifies this`levels, this`nodes, nodes
      modifies this`previousCurveAngle, this`previousCurveMaxLength, this`previousCurveNodeDistance
      requires Cast(engine, arc, levels).None?
      ensures levels == 0 && TuningUnchanged() && nodes == old(nodes)
      ensures var n := nodes.Length;
              var k := FirstHit(engine, arc, n, old(levels));
              && hit == (k < n)
              && info == (if hit then Cast(engine, arc, k) else None)
              && casts == (if hit then k + 1 else n) - old(levels)
              && (forall i :: 0 <= i < old(levels) ==> nodes[i] == old(nodes[i]))
              && (forall i :: old(levels) <= i < k ==>
                    nodes[i] == old(nodes[i]).(active := true, position := Origin(engine, arc, i + 1)))
              && (forall i :: k <= i < n ==> nodes[i] == old(nodes[i]).(active := false))
      decreases nodes.Length - levels, 0
    {
      var next := Advance(from, engine.normalize(direction), curveNodeDistance);
      nodes[levels] := nodes[levels].(active := true, position := next);
      var limit := ReachedMaxLength(levels);
      if limit {
        // No hit and the arc is as long as allowed.
        levels := 0;
        hit, info, casts := false, None, 1;
        return;
      }
      var newDirection := Bend(direction, curveAngle, curveNodeDistance);
      levels := levels + 1;
      CheckForEditorChanges();
      hit, info, casts := Pass(engine, arc, next, newDirection);
      casts := casts + 1;
    }

    /**
      The length-limit test after a miss at depth `depth`,
      `(depth + 1) * curveNodeDistance >= curveMaxLength`; it holds exactly
      when no pool slot is left beyond `depth`.
     */
    method ReachedMaxLength(depth: nat) returns (limit: bool)
      requires curveNodeDistance > 0.0 && curveMaxLength > 0.0
      ensures limit <==> depth + 1 >= PoolSize(curveMaxLength, curveNodeDistance)
    {
      limit := (depth + 1) as real * curveNodeDistance >= curveMaxLength;
      LengthLimitIsPoolEnd(curveMaxLength, curveNodeDistance, depth);
    }

    /** The loop of the hit branch: switches off every node from index `start` on. */
    method DeactivateFrom(start: nat)
      requires start <= nodes.Length
      modifies nodes
      ensures forall j :: 0 <= j < start ==> nodes[j] == old(nodes[j])
      ensures forall j :: start <= j < nodes.Length ==> nodes[j] == old(nodes[j]).(active := false)
    {
      for i := start to nodes.Length
        invariant forall j :: 0 <= j < start ==> nodes[j] == old(nodes[j])
        invariant forall j :: start <= j < i ==> nodes[j] == old(nodes[j]).(active := false)
        invariant forall j :: i <= j < nodes.Length ==> nodes[j] == old(nodes[j])
      {
        nodes[i] := nodes[i].(active := false);
      }
    }

    /**
      ColorCurve: gives the hit marker and every curve node the colour c;
      each material keeps its own alpha.
     */
    method ColorCurve(c: Color)
      modifies this`hitGraphic, nodes
      ensures hitGraphic == MarkerTinted(old(hitGraphic), c)
      ensures forall i :: 0 <= i < nodes.Length ==> nodes[i] == old(nodes[i]).(color := Tinted(old(nodes[i]).color, c))
    {
      hitGraphic := MarkerTinted(hitGraphic, c);
      for i := 0 to nodes.Length
        invariant hitGraphic == MarkerTinted(old(hitGraphic), c)
        invariant forall j :: 0 <= j < i ==> nodes[j] == old(nodes[j]).(color := Tinted(old(nodes[j]).color, c))
        invariant forall j :: i <= j < nodes.Length ==> nodes[j] == old(nodes[j])
      {
        nodes[i] := nodes[i].(color := Tinted(nodes[i].color, c));
      }
    }

    /** ClearNodes: switches every curve node off. */
    method ClearNodes()
      modifies nodes
      ensures forall i :: 0 <= i < nodes.Length ==> nodes[i] == old(nodes[i]).(active := false)
    {
      for i := 0 to nodes.Length
        invariant forall j :: 0 <= j < i ==> nodes[j] == old(nodes[j]).(active := false)
        invariant forall j :: i <= j < nodes.Length ==> nodes[j] == old(nodes[j])
      {
        nodes[i] := nodes[i].(active := false);
      }
    }

    /** MoveTo: the callback the (optional) blink calls once the eyes are closed. */
    method MoveTo(target: Vec3, cameraLocal: Vec3)
      modifies this`cameraRig
      ensures cameraRig == GetCameraRigPosition(target, cameraLocal)
    {
      cameraRig := GetCameraRigPosition(target, cameraLocal);
    }

    /**
      Update, one frame. `held` is Input.GetKey(teleportButton), `released`
      Input.GetKeyUp(teleportButton); `origin` and `forward` are the
      controller's pose and `cameraLocal` the camera's local position in the rig.
     */
    method Update(engine: Engine, held: bool, released: bool, origin: Vec3, forward: Vec3, cameraLocal: Vec3)
      requires Valid()
      requires teleportingEnabled && held ==> curveNodeDistance > 0.0 && curveMaxLength > 0.0
      modifies this`hitInfo, this`hitGraphic, this`cameraRig, this`levels, this`nodes, nodes
      modifies this`previousCurveAngle, this`previousCurveMaxLength, this`previousCurveNodeDistance
      ensures Valid()
      ensures !teleportingEnabled || (!held && !released) ==>
        && hitInfo == old(hitInfo) && hitGraphic == old(hitGraphic) && cameraRig == old(cameraRig)
        && nodes == old(nodes) && unchanged(nodes)
      ensures !(teleportingEnabled && held) ==>
        && previousCurveAngle == old(previousCurveAngle)
        && previousCurveMaxLength == old(previousCurveMaxLength)
        && previousCurveNodeDistance == old(previousCurveNodeDistance)
      ensures teleportingEnabled && held ==>
        && TuningUnchanged()
        && (old(TuningUnchanged()) ==> nodes == old(nodes))
        && (!old(TuningUnchanged()) ==> fresh(nodes))
      ensures teleportingEnabled && held ==>
        var arc := Arc(origin, forward, curveAngle, curveNodeDistance);
        var n := nodes.Length;
        var k := FirstHit(engine, arc, n, 0);
        var c := if IsTeleportArea(hitInfo) then Green else Red;
        && n == PoolSize(curveMaxLength, curveNodeDistance)
        && hitInfo == (if k < n then Cast(engine, arc, k) else None)
        && hitGraphic.active == (k < n)
        && hitGraphic.ring == Tinted(old(hitGraphic.ring), c) && hitGraphic.glow == Tinted(old(hitGraphic.glow), c)
        && hitGraphic.position == (if k < n then hitInfo.value.point else old(hitGraphic.position))
        && cameraRig == old(cameraRig)
        && (forall i :: 0 <= i < n ==> nodes[i].active == (i < k))
        && (forall i :: 0 <= i < k ==> nodes[i].position == Origin(engine, arc, i + 1))
        && (forall i :: k <= i < n ==>
              nodes[i].position == (if old(TuningUnchanged()) then old(nodes[i].position) else curveTemplate.position))
        && (forall i :: 0 <= i < n ==>
              nodes[i].color == Tinted(if old(TuningUnchanged()) then old(nodes[i].color) else curveTemplate.color, c))
      ensures teleportingEnabled && !held && released ==>
        && cameraRig == (if IsTeleportArea(old(hitInfo))
                         then GetCameraRigPosition(old(hitInfo).value.point, cameraLocal)
                         else old(cameraRig))
        && hitInfo == old(hitInfo) && hitGraphic == old(hitGraphic).(active := false)
        && nodes == old(nodes)
        && forall i :: 0 <= i < nodes.Length ==> nodes[i] == old(nodes[i]).(active := false)
    {
      if teleportingEnabled {
        if held {
          var hit, info, pool, casts := CurvedRaycast(engine, origin, forward);
          hitInfo := info;
          if hit {
            hitGraphic := hitGraphic.(active := true, position := info.value.point);
            if info.value.tag == TeleportAreaTag {
              ColorCurve(Green);
            } else {
              ColorCurve(Red);
            }
          } else {
            hitGraphic := hitGraphic.(active := false);
            ColorCurve(Red);
          }
        } else if released {
          if hitInfo.Some? && hitInfo.value.tag == TeleportAreaTag {
            // With blinking on, the blink invokes this same call once the eyes are closed.
            MoveTo(hitInfo.value.point, cameraLocal);
          }
          hitGraphic := hitGraphic.(active := false);
          ClearNodes();
        }
      }
    }
  }
}
