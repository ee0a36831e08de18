/**
 * `camera.Camera`: an orbit camera. It circles a target point at a zoom
 * distance, steered by a horizontal and a vertical angle; the pose it hands
 * to the view matrix is pitch, yaw, roll and position. A light can be
 * attached so that it follows the camera.
 *
 * The float geometry (matrix inversion, rotation, normalisation) is given as
 * a `Geometry` of uninterpreted functions; the view matrix is the pose it was
 * built from.
 */
module Cameras {
  import opened Common
  import opened Lights

  /** `STANDARD_ZOOM`. */
  const StandardZoom: real := 5.0

  /** The camera values `Maths.createViewMatrix` builds a view matrix from. */
  datatype Pose = Pose(pitch: real, yaw: real, roll: real, position: Vec3)

  /** The rotation part of a view matrix, row by row. */
  datatype Mat3 = Mat3(row0: Vec3, row1: Vec3, row2: Vec3)

  function Component(v: Vec3, i: nat): real
    requires i < 3
  {
    if i == 0 then v.x else if i == 1 then v.y else v.z
  }

  /** The matrix field `mCR`: column `col`, row `row`. */
  function Element(m: Mat3, col: nat, row: nat): real
    requires col < 3 && row < 3
  {
    Component(if row == 0 then m.row0 else if row == 1 then m.row1 else m.row2, col)
  }

  function Dot(a: Vec3, b: Vec3): real {
    a.x * b.x + a.y * b.y + a.z * b.z
  }

  /**
   * The float geometry of the camera: the rotation of the view matrix built
   * from a pose, the target point found through the inverse view matrix at
   * a zoom distance, the orbit position for the two angles around a target,
   * and vector normalisation.
   */
  datatype Geometry = Geometry(
    rotation: Pose -> Mat3,
    target: (Pose, real) -> Vec3,
    orbit: (real, real, Vec3, real) -> Vec3,
    normalise: Vec3 -> Vec3)

  /** `Math.max(-90, Math.min(angle, 90))`. */
  function ClampAngle(angle: real): (r: real)
    ensures -90.0 <= r <= 90.0
    ensures -90.0 <= angle <= 90.0 ==> r == angle
    ensures angle > 90.0 ==> r == 90.0
    ensures angle < -90.0 ==> r == -90.0
  {
    if angle > 90.0 then 90.0 else if angle < -90.0 then -90.0 else angle
  }

  /** A negative zoom level is raised to 0. */
  function ClampZoom(zoom: real): (r: real)
    ensures r >= 0.0
    ensures zoom >= 0.0 ==> r == zoom
    ensures zoom < 0.0 ==> r == 0.0
  {
    if zoom < 0.0 then 0.0 else zoom
  }

  /** Clamping twice changes nothing more. */
  lemma ClampsAreIdempotent(angle: real, zoom: real)
    ensures ClampAngle(ClampAngle(angle)) == ClampAngle(angle)
    ensures ClampZoom(ClampZoom(zoom)) == ClampZoom(zoom)
  {
  }

  /** Every field of a camera except the attached light. */
  datatype CameraState = CameraState(
    view: Pose,
    position: Vec3,
    originalPosition: Vec3,
    target: Vec3,
    pitch: real,
    yaw: real,
    roll: real,
    originalRotations: Vec3,
    zoom: real,
    verticalAngle: real,
    horizontalAngle: real)

  /** The view matrix was built from the current pose. */
  predicate InSync(s: CameraState) {
    s.view == Pose(s.pitch, s.yaw, s.roll, s.position)
  }

  /** Yaw and pitch are the negated horizontal and vertical angles. */
  predicate AnglesMatch(s: CameraState) {
    s.yaw == -s.horizontalAngle && s.pitch == -s.verticalAngle
  }

  /**
   * A new camera: given position, pitch and yaw, roll 0 (the given roll is
   * only remembered), standard zoom, angles the negated pitch and yaw, and
   * the target point found from the view matrix.
   */
  function Constructed(position: Vec3, pitch: real, yaw: real, roll: real, g: Geometry): CameraState {
    var view := Pose(pitch, yaw, 0.0, position);
    CameraState(view, position, position, g.target(view, StandardZoom), pitch, yaw, 0.0,
                Vec3(pitch, yaw, roll), StandardZoom, -pitch, -yaw)
  }

  /**
   * `calculateRelativePositionToTarget`: the position moves onto the orbit
   * given by the angles, target and zoom; pitch and yaw follow the angles and
   * the view matrix is rebuilt.
   */
  function Orbited(s: CameraState, g: Geometry): CameraState {
    var p := g.orbit(s.horizontalAngle, s.verticalAngle, s.target, s.zoom);
    s.(position := p, yaw := -s.horizontalAngle, pitch := -s.verticalAngle,
       view := Pose(-s.verticalAngle, -s.horizontalAngle, s.roll, p))
  }

  /** A new camera has its view matrix in step, its angles matching, roll 0 and standard zoom. */
  lemma ConstructedConsistent(position: Vec3, pitch: real, yaw: real, roll: real, g: Geometry)
    ensures var s := Constructed(position, pitch, yaw, roll, g);
            && InSync(s) && AnglesMatch(s)
            && s.roll == 0.0 && s.originalRotations.z == roll && s.zoom == StandardZoom
            && s.target == g.target(s.view, s.zoom)
  {
  }

  /**
   * Every orbit update puts the view matrix in step with the pose and
   * derives yaw and pitch from the angles; roll, zoom, target and the
   * angles themselves are kept.
   */
  lemma OrbitedConsistent(s: CameraState, g: Geometry)
    ensures InSync(Orbited(s, g)) && AnglesMatch(Orbited(s, g))
    ensures Orbited(s, g).position == g.orbit(s.horizontalAngle, s.verticalAngle, s.target, s.zoom)
    ensures var t := Orbited(s, g);
            && t.roll == s.roll && t.zoom == s.zoom && t.target == s.target
            && t.horizontalAngle == s.horizontalAngle && t.verticalAngle == s.verticalAngle
  {
  }

  /**
   * `reset` as written: position and rotations go back to the remembered
   * ones and the angles follow, but the view matrix is not rebuilt, so the
   * target point is found from the matrix of the pose before the reset.
   */
  function ResetAsWritten(s: CameraState, g: Geometry): CameraState {
    var r := s.originalRotations;
    s.(position := s.originalPosition, pitch := r.x, yaw := r.y, roll := r.z,
       horizontalAngle := -r.y, verticalAngle := -r.x,
       target := g.target(s.view, s.zoom))
  }

  /**
   * Every camera that has moved away from its start keeps, after a reset,
   * the view matrix of the pose it left: it is out of step with its pose,
   * and its target point is the one seen from the old pose.
   */
  lemma ResetLeavesViewStale(s: CameraState, g: Geometry)
    requires InSync(s) && s.position != s.originalPosition
    ensures !InSync(ResetAsWritten(s, g))
    ensures ResetAsWritten(s, g).view == s.view
    ensures ResetAsWritten(s, g).target == g.target(s.view, s.zoom)
  {
  }

  /** `reset` as evidently intended: the view matrix is rebuilt before the target point is found. */
  function ResetCorrected(s: CameraState, g: Geometry): (t: CameraState)
    ensures InSync(t) && AnglesMatch(t)
    ensures t.target == g.target(t.view, t.zoom)
  {
    var r := s.originalRotations;
    var view := Pose(r.x, r.y, r.z, s.originalPosition);
    s.(position := s.originalPosition, pitch := r.x, yaw := r.y, roll := r.z,
       horizontalAngle := -r.y, verticalAngle := -r.x, view := view,
       target := g.target(view, s.zoom))
  }

  /**
   * The corrected reset brings a camera whose roll argument was 0 back to
   * the state it was created in, whatever happened in between, as long as
   * the zoom is back at its standard level. For a non-zero roll argument it
   * cannot: see `ResetRestoresRollArgument`.
   */
  lemma ResetCorrectedRestoresConstruction(s: CameraState, g: Geometry, position: Vec3, pitch: real,
                                           yaw: real)
    requires s.originalPosition == position && s.originalRotations == Vec3(pitch, yaw, 0.0)
    requires s.zoom == StandardZoom
    ensures ResetCorrected(s, g) == Constructed(position, pitch, yaw, 0.0, g)
  {
  }

  /**
   * The constructor sets `roll` to 0 but records the roll argument among the
   * original rotations, and `reset` restores that record. So for a non-zero
   * roll argument a reset, as written or corrected, leaves the camera rolled
   * although it was created level, and never gives back the constructed state.
   */
  lemma ResetRestoresRollArgument(s: CameraState, g: Geometry, position: Vec3, pitch: real, yaw: real,
                                  roll: real)
    requires s.originalPosition == position && s.originalRotations == Vec3(pitch, yaw, roll)
    requires roll != 0.0
    ensures Constructed(position, pitch, yaw, roll, g).roll == 0.0
    ensures ResetAsWritten(s, g).roll == roll && ResetCorrected(s, g).roll == roll
    ensures ResetCorrected(s, g) != Constructed(position, pitch, yaw, roll, g)
    ensures ResetAsWritten(s, g) != Constructed(position, pitch, yaw, roll, g)
  {
  }

  /** `moveForward`'s axis: the fields m02, m12, m22, the third row. */
  function ForwardAxis(m: Mat3): (a: Vec3)
    ensures a == m.row2
  {
    Vec3(Element(m, 0, 2), Element(m, 1, 2), Element(m, 2, 2))
  }

  /** `moveRight`'s axis: the fields m00, m10, m20, the first row. */
  function RightAxis(m: Mat3): (a: Vec3)
    ensures a == m.row0
  {
    Vec3(Element(m, 0, 0), Element(m, 1, 0), Element(m, 2, 0))
  }

  /** `moveUp`'s axis as written: the fields m01, m11 and m12, where the row pattern needs m21. */
  function UpAxisAsWritten(m: Mat3): (a: Vec3)
    ensures a.x == m.row1.x && a.y == m.row1.y && a.z == m.row2.y
  {
    Vec3(Element(m, 0, 1), Element(m, 1, 1), Element(m, 1, 2))
  }

  /** The rows of a rotation are pairwise orthogonal. */
  predicate RowsOrthogonal(m: Mat3) {
    Dot(m.row0, m.row1) == 0.0 && Dot(m.row0, m.row2) == 0.0 && Dot(m.row1, m.row2) == 0.0
  }

  /**
   * For every rotation whose fields m21 and m12 differ (any rotation that is
   * not symmetric about the up axis) and whose right axis has a z part, the
   * up axis as written is not orthogonal to the right axis, so `moveUp` also
   * moves the camera sideways. The rotation that cycles the axes,
   * rows (0, 0, 1), (1, 0, 0), (0, 1, 0), is one.
   */
  lemma UpAxisAsWrittenSkewed(m: Mat3)
    requires RowsOrthogonal(m)
    requires Element(m, 2, 0) != 0.0 && Element(m, 2, 1) != Element(m, 1, 2)
    ensures Dot(RightAxis(m), UpAxisAsWritten(m)) != 0.0
  {
    var r0, r1, r2 := m.row0, m.row1, m.row2;
    assert Dot(RightAxis(m), UpAxisAsWritten(m)) == Dot(r0, r1) + r0.z * (r2.y - r1.z);
    assert r0.z * (r2.y - r1.z) != 0.0;
  }

  /** The up axis as evidently intended: the fields m01, m11, m21, the second row. */
  function UpAxisCorrected(m: Mat3): (a: Vec3)
    ensures a == m.row1
  {
    Vec3(Element(m, 0, 1), Element(m, 1, 1), Element(m, 2, 1))
  }

  /** For any rotation the three movement axes are pairwise orthogonal once up is read from its row. */
  lemma MovementAxesOrthogonal(m: Mat3)
    requires RowsOrthogonal(m)
    ensures Dot(RightAxis(m), UpAxisCorrected(m)) == 0.0
    ensures Dot(RightAxis(m), ForwardAxis(m)) == 0.0
    ensures Dot(UpAxisCorrected(m), ForwardAxis(m)) == 0.0
  {
  }

  class Camera {
    const geometry: Geometry
    var viewMatrix: Pose
    var currentPosition: Vec3
    var originalPosition: Vec3
    var targetPoint: Vec3
    var pitch: real
    var yaw: real
    var roll: real
    var originalCameraRotations: Vec3
    var zoomLevel: real
    var verticalAngle: real
    var horizontalAngle: real
    var attachedLight: Option<Light>

    function State(): CameraState
      reads this
    {
      CameraState(viewMatrix, currentPosition, originalPosition, targetPoint, pitch, yaw, roll,
                  originalCameraRotations, zoomLevel, verticalAngle, horizontalAngle)
    }

    /** The attached light, which orbit updates move. */
    ghost function Lamp(): set<object>
      reads this
    {
      if attachedLight.Some? then {attachedLight.value} else {}
    }

    /** Builds the view matrix for the given pose and finds the target point through it. */
    constructor (position: Vec3, pitch: real, yaw: real, roll: real, geometry: Geometry)
      ensures this.geometry == geometry
      ensures State() == Constructed(position, pitch, yaw, roll, geometry)
      ensures attachedLight == None
    {
      this.geometry := geometry;
      attachedLight := None;
      currentPosition := position;
      originalPosition := position;
      this.pitch := pitch;
      this.yaw := yaw;
      this.roll := 0.0;
      zoomLevel := StandardZoom;
      verticalAngle := -pitch;
      horizontalAngle := -yaw;
      originalCameraRotations := Vec3(pitch, yaw, roll);
      targetPoint := Zero3;
      viewMatrix := Pose(pitch, yaw, 0.0, position);
      new;
      CalculateTargetPoint();
    }

    /** The target point at zoom distance in front of the current view matrix. */
    method CalculateTargetPoint()
      modifies this
      ensures State() == old(State()).(target := geometry.target(viewMatrix, zoomLevel))
      ensures attachedLight == old(attachedLight)
    {
      targetPoint := geometry.target(viewMatrix, zoomLevel);
    }

    /** Moves onto the orbit, carries an attached light along, and rebuilds pitch, yaw and the view. */
    method CalculateRelativePositionToTarget()
      modifies this, Lamp()
      ensures State() == Orbited(old(State()), geometry)
      ensures attachedLight == old(attachedLight)
      ensures attachedLight.Some? ==>
                attachedLight.value.State() == old(attachedLight.value.State()).(position := currentPosition)
    {
      var newPosition := geometry.orbit(horizontalAngle, verticalAngle, targetPoint, zoomLevel);
      currentPosition := newPosition;
      if attachedLight.Some? {
        attachedLight.value.SetPosition(newPosition);
      }
      CalculateCameraRotations();
      UpdateViewMatrix();
    }

    /** Yaw and pitch from the angles. */
    method CalculateCameraRotations()
      modifies this
      ensures State() == old(State()).(yaw := -horizontalAngle, pitch := -verticalAngle)
      ensures AnglesMatch(State())
      ensures attachedLight == old(attachedLight)
    {
      yaw := -horizontalAngle;
      pitch := -verticalAngle;
    }

    /** Rebuilds the view matrix from the current pose. */
    method UpdateViewMatrix()
      modifies this
      ensures State() == old(State()).(view := Pose(pitch, yaw, roll, currentPosition))
      ensures InSync(State())
      ensures attachedLight == old(attachedLight)
    {
      viewMatrix := Pose(pitch, yaw, roll, currentPosition);
    }

    /**
     * Restores the remembered position and rotations and derives the angles
     * from them, then finds the target point through the view matrix, which
     * is not rebuilt. An attached light is not moved.
     */
    method Reset()
      modifies this
      ensures State() == ResetAsWritten(old(State()), geometry)
      ensures attachedLight == old(attachedLight)
    {
      currentPosition := originalPosition;
      pitch := originalCameraRotations.x;
      yaw := originalCameraRotations.y;
      roll := originalCameraRotations.z;
      horizontalAngle := -yaw;
      verticalAngle := -pitch;
      CalculateTargetPoint();
    }

    /** Changes the zoom distance, never below 0; the position is not recomputed. */
    method UpdateZoom(dx: real)
      modifies this
      ensures zoomLevel == ClampZoom(old(zoomLevel) + dx)
      ensures State() == old(State()).(zoom := zoomLevel)
      ensures attachedLight == old(attachedLight)
    {
      zoomLevel := zoomLevel + dx;
      if zoomLevel < 0.0 {
        zoomLevel := 0.0;
      }
    }

    /** Shifts the target point and moves the camera onto the orbit around it. */
    method UpdateTargetPosition(dx: real, dy: real, dz: real)
      modifies this, Lamp()
      ensures State() == Orbited(old(State()).(target := Add3(old(targetPoint), Vec3(dx, dy, dz))), geometry)
      ensures attachedLight == old(attachedLight)
      ensures attachedLight.Some? ==>
                attachedLight.value.State() == old(attachedLight.value.State()).(position := currentPosition)
    {
      targetPoint := Add3(targetPoint, Vec3(dx, dy, dz));
      CalculateRelativePositionToTarget();
    }

    /**
     * `moveRelative` of the subclass `camera.MovableCamera`, whose only
     * behaviour it is: the same orbit update as `UpdateTargetPosition`.
     */
    method MoveRelative(dx: real, dy: real, dz: real)
      modifies this, Lamp()
      ensures State() == Orbited(old(State()).(target := Add3(old(targetPoint), Vec3(dx, dy, dz))), geometry)
      ensures attachedLight == old(attachedLight)
      ensures attachedLight.Some? ==>
                attachedLight.value.State() == old(attachedLight.value.State()).(position := currentPosition)
    {
      UpdateTargetPosition(dx, dy, dz);
    }

    /** Turns the horizontal angle and moves onto the orbit. */
    method UpdateHorAngle(dx: real)
      modifies this, Lamp()
      ensures State() == Orbited(old(State()).(horizontalAngle := old(horizontalAngle) + dx), geometry)
      ensures attachedLight == old(attachedLight)
      ensures attachedLight.Some? ==>
                attachedLight.value.State() == old(attachedLight.value.State()).(position := currentPosition)
    {
      horizontalAngle := horizontalAngle + dx;
      CalculateRelativePositionToTarget();
    }

    /** Turns the vertical angle, clamped to [-90, 90], and moves onto the orbit. */
    method UpdateVerAngle(dx: real)
      modifies this, Lamp()
      ensures -90.0 <= verticalAngle <= 90.0
      ensures State() == Orbited(old(State()).(verticalAngle := ClampAngle(old(verticalAngle) + dx)), geometry)
      ensures attachedLight == old(attachedLight)
      ensures attachedLight.Some? ==>
                attachedLight.value.State() == old(attachedLight.value.State()).(position := currentPosition)
    {
      verticalAngle := verticalAngle + dx;
      verticalAngle := if -90.0 > (if verticalAngle < 90.0 then verticalAngle else 90.0) then -90.0
                       else if verticalAngle < 90.0 then verticalAngle else 90.0;
      CalculateRelativePositionToTarget();
    }

    /** Moves the target along the view's forward axis (the matrix's third row, negated). */
    method MoveForward(dz: real)
      modifies this, Lamp()
      ensures var axis := geometry.normalise(ForwardAxis(geometry.rotation(old(viewMatrix))));
              State() == Orbited(old(State()).(target := Add3(old(targetPoint), Scale3(axis, -dz))), geometry)
      ensures attachedLight == old(attachedLight)
      ensures attachedLight.Some? ==>
                attachedLight.value.State() == old(attachedLight.value.State()).(position := currentPosition)
    {
      var zAxis := geometry.normalise(ForwardAxis(geometry.rotation(viewMatrix)));
      zAxis := Scale3(zAxis, -dz);
      UpdateTargetPosition(zAxis.x, zAxis.y, zAxis.z);
    }

    /** Moves the target along the view's right axis (the matrix's first row). */
    method MoveRight(dx: real)
      modifies this, Lamp()
      ensures var axis := geometry.normalise(RightAxis(geometry.rotation(old(viewMatrix))));
              State() == Orbited(old(State()).(target := Add3(old(targetPoint), Scale3(axis, dx))), geometry)
      ensures attachedLight == old(attachedLight)
      ensures attachedLight.Some? ==>
                attachedLight.value.State() == old(attachedLight.value.State()).(position := currentPosition)
    {
      var xAxis := geometry.normalise(RightAxis(geometry.rotation(viewMatrix)));
      xAxis := Scale3(xAxis, dx);
      UpdateTargetPosition(xAxis.x, xAxis.y, xAxis.z);
    }

    /** Moves the target along the up axis as `moveUp` reads it from the matrix. */
    method MoveUp(dy: real)
      modifies this, Lamp()
      ensures var axis := geometry.normalise(UpAxisAsWritten(geometry.rotation(old(viewMatrix))));
              State() == Orbited(old(State()).(target := Add3(old(targetPoint), Scale3(axis, dy))), geometry)
      ensures attachedLight == old(attachedLight)
      ensures attachedLight.Some? ==>
                attachedLight.value.State() == old(attachedLight.value.State()).(position := currentPosition)
    {
      var yAxis := geometry.normalise(UpAxisAsWritten(geometry.rotation(viewMatrix)));
      yAxis := Scale3(yAxis, dy);
      UpdateTargetPosition(yAxis.x, yAxis.y, yAxis.z);
    }

    /** Attaches `light` in place of any previous one and moves it to the camera at once. */
    method AttachLight(light: Light)
      modifies this, light
      ensures attachedLight == Some(light)
      ensures State() == old(State())
      ensures light.State() == old(light.State()).(position := currentPosition)
    {
      attachedLight := Some(light);
      light.SetPosition(currentPosition);
    }

    /** Stops moving the attached light. */
    method DetachLight()
      modifies this
      ensures attachedLight == None
      ensures State() == old(State())
    {
      attachedLight := None;
    }
  }
}
