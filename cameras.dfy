/**
  Camera.cpp: a first-person camera. Keyboard moves are gated by two bounds
  checks (inside the sky sphere, above the floor) and applied one after the
  other; mouse motion turns yaw and pitch, with pitch clamped to [-89, 89].
 */
module Cameras {
  import opened Vectors

  // The constants of Camera.cpp appear as literals: the sky radius 198, the
  // floor height 1, the camera speed 0.5, the mouse sensitivity 0.3 and the
  // pitch limit 89.

  /** checkSkyBounds: |pos + delta| < 198, compared on squares. */
  predicate SkyBoundsOk(pos: Vec3, delta: Vec3) {
    LengthSquared(Plus(pos, delta)) < 198.0 * 198.0
  }

  /** checkFloorBounds: the new height is above 1. */
  predicate FloorBoundsOk(pos: Vec3, delta: Vec3) {
    pos.y + delta.y > 1.0
  }

  /** The region both checks keep the camera in. */
  predicate InBounds(p: Vec3) {
    LengthSquared(p) < 198.0 * 198.0 && p.y > 1.0
  }

  /** One `if (checkSkyBounds && checkFloorBounds) position += delta`. */
  function GuardedMove(pos: Vec3, delta: Vec3): Vec3 {
    if SkyBoundsOk(pos, delta) && FloorBoundsOk(pos, delta) then Plus(pos, delta) else pos
  }

  /** A guarded move never leaves the bounds: an accepted one lands inside, a rejected one stays. */
  lemma GuardedMoveKeepsBounds(pos: Vec3, delta: Vec3)
    requires InBounds(pos)
    ensures InBounds(GuardedMove(pos, delta))
  {
  }

  /**
    ProcessKeyboard on the key states W, S, A, D: four guarded moves in that
    order, each checked from the position the previous ones left. `right` is
    normalize(cross(front, up)).
   */
  function KeyboardMove(pos: Vec3, front: Vec3, right: Vec3, w: bool, s: bool, a: bool, d: bool): Vec3 {
    var p1 := if w then GuardedMove(pos, Times(0.5, front)) else pos;
    var p2 := if s then GuardedMove(p1, Times(-0.5, front)) else p1;
    var p3 := if a then GuardedMove(p2, Times(-0.5, right)) else p2;
    if d then GuardedMove(p3, Times(0.5, right)) else p3
  }

  /** A camera inside the sky sphere and above the floor stays there, whatever keys are down. */
  lemma KeyboardMoveKeepsBounds(pos: Vec3, front: Vec3, right: Vec3, w: bool, s: bool, a: bool, d: bool)
    requires InBounds(pos)
    ensures InBounds(KeyboardMove(pos, front, right, w, s, a, d))
  {
    var p1 := if w then GuardedMove(pos, Times(0.5, front)) else pos;
    GuardedMoveKeepsBounds(pos, Times(0.5, front));
    var p2 := if s then GuardedMove(p1, Times(-0.5, front)) else p1;
    GuardedMoveKeepsBounds(p1, Times(-0.5, front));
    var p3 := if a then GuardedMove(p2, Times(-0.5, right)) else p2;
    GuardedMoveKeepsBounds(p2, Times(-0.5, right));
    GuardedMoveKeepsBounds(p3, Times(0.5, right));
  }

  /** With no key down the camera stays put. */
  lemma NoKeyNoMove(pos: Vec3, front: Vec3, right: Vec3)
    ensures KeyboardMove(pos, front, right, false, false, false, false) == pos
  {
  }

  /** A key's contribution when every key is checked against the same starting position. */
  function Contribution(pos: Vec3, pressed: bool, delta: Vec3): Vec3 {
    if pressed && SkyBoundsOk(pos, delta) && FloorBoundsOk(pos, delta) then delta else Vec3(0.0, 0.0, 0.0)
  }

  /** The alternative reading in which every key is checked against the starting position. */
  function IndependentMove(pos: Vec3, front: Vec3, right: Vec3, w: bool, s: bool, a: bool, d: bool): Vec3 {
    var dw := Contribution(pos, w, Times(0.5, front));
    var ds := Contribution(pos, s, Times(-0.5, front));
    var da := Contribution(pos, a, Times(-0.5, right));
    var dd := Contribution(pos, d, Times(0.5, right));
    Plus(Plus(Plus(Plus(pos, dw), ds), da), dd)
  }

  /** From height 1.2, W looking straight up is accepted. */
  lemma UpFromLow()
    ensures GuardedMove(Vec3(0.0, 1.2, 0.0), Vec3(0.0, 0.5, 0.0)) == Vec3(0.0, 1.7, 0.0)
  {
  }

  /** From height 1.7, S back down to 1.2 is accepted. */
  lemma DownFromHigh()
    ensures GuardedMove(Vec3(0.0, 1.7, 0.0), Vec3(0.0, -0.5, 0.0)) == Vec3(0.0, 1.2, 0.0)
  {
  }

  /**
    The moves are sequential: at height 1.2 looking straight up, W lifts the
    camera to 1.7 and S, checked from there, is allowed back down to 1.2.
   */
  lemma SequentialGating(pos: Vec3, front: Vec3, right: Vec3)
    requires pos == Vec3(0.0, 1.2, 0.0) && front == Vec3(0.0, 1.0, 0.0)
    ensures KeyboardMove(pos, front, right, true, true, false, false) == pos
  {
    UpFromLow();
    DownFromHigh();
    assert Times(0.5, front) == Vec3(0.0, 0.5, 0.0);
    assert Times(-0.5, front) == Vec3(0.0, -0.5, 0.0);
  }

  /** Checked from 1.2 alone, the same S would sink below the floor: only W would count. */
  lemma IndependentGating(pos: Vec3, front: Vec3, right: Vec3)
    requires pos == Vec3(0.0, 1.2, 0.0) && front == Vec3(0.0, 1.0, 0.0)
    ensures IndependentMove(pos, front, right, true, true, false, false) == Vec3(0.0, 1.7, 0.0)
  {
    assert Times(0.5, front) == Vec3(0.0, 0.5, 0.0);
    assert Times(-0.5, front) == Vec3(0.0, -0.5, 0.0);
    UpContribution();
    DownContribution();
  }

  lemma UpContribution()
    ensures Contribution(Vec3(0.0, 1.2, 0.0), true, Vec3(0.0, 0.5, 0.0)) == Vec3(0.0, 0.5, 0.0)
  {
    assert LengthSquared(Vec3(0.0, 1.7, 0.0)) < 198.0 * 198.0;
    assert SkyBoundsOk(Vec3(0.0, 1.2, 0.0), Vec3(0.0, 0.5, 0.0));
  }

  lemma DownContribution()
    ensures Contribution(Vec3(0.0, 1.2, 0.0), true, Vec3(0.0, -0.5, 0.0)) == Vec3(0.0, 0.0, 0.0)
  {
  }

  /** `if (pitch > 89) pitch = 89; if (pitch < -89) pitch = -89;` */
  function ClampPitch(p: real): (r: real)
    ensures -89.0 <= r <= 89.0
    ensures -89.0 <= p <= 89.0 ==> r == p
    ensures p > 89.0 ==> r == 89.0
    ensures p < -89.0 ==> r == -89.0
  {
    var q := if p > 89.0 then 89.0 else p;
    if q < -89.0 then -89.0 else q
  }

  /** The fields ProcessMouseMovement reads and writes, apart from `front`. */
  datatype Look = Look(yaw: real, pitch: real, lastX: real, lastY: real, firstMouse: bool)

  /** ProcessMouseMovement on the sample (x, y). */
  function MouseLook(s: Look, x: real, y: real): (r: Look)
    ensures -89.0 <= r.pitch <= 89.0
    ensures r.lastX == x && r.lastY == y && !r.firstMouse
  {
    var lastX := if s.firstMouse then x else s.lastX;
    var lastY := if s.firstMouse then y else s.lastY;
    var xoffset := (x - lastX) * 0.3;
    var yoffset := (lastY - y) * 0.3;
    Look(s.yaw + xoffset, ClampPitch(s.pitch + yoffset), x, y, false)
  }

  /** The first sample only records the cursor: yaw is unchanged and pitch is only clamped. */
  lemma FirstSampleRecordsOnly(s: Look, x: real, y: real)
    requires s.firstMouse
    ensures MouseLook(s, x, y).yaw == s.yaw
    ensures MouseLook(s, x, y).pitch == ClampPitch(s.pitch)
  {
  }

  /** Later samples turn by 0.3 per unit of cursor travel, vertical travel inverted. */
  lemma LaterSampleTurns(s: Look, x: real, y: real)
    requires !s.firstMouse
    ensures MouseLook(s, x, y).yaw == s.yaw + 0.3 * (x - s.lastX)
    ensures MouseLook(s, x, y).pitch == ClampPitch(s.pitch + 0.3 * (s.lastY - y))
  {
  }

  /**
    Two samples in a row: the second turns by the cursor travel between the
    two, and so two equal samples leave the angles where the first left them.
   */
  lemma RepeatedSampleIsStill(s: Look, x: real, y: real)
    ensures MouseLook(MouseLook(s, x, y), x, y) == MouseLook(s, x, y)
  {
    var r := MouseLook(s, x, y);
    LaterSampleTurns(r, x, y);
  }

  class Camera {
    var position: Vec3
    var front: Vec3
    var up: Vec3
    var yaw: real
    var pitch: real
    var firstMouse: bool
    var lastX: real
    var lastY: real
    var width: real
    var height: real

    function LookState(): (s: Look)
      reads this
      ensures s.yaw == yaw && s.pitch == pitch && s.firstMouse == firstMouse
      ensures s.lastX == lastX && s.lastY == lastY
    {
      Look(yaw, pitch, lastX, lastY, firstMouse)
    }

    /** Looking down -Z with Y up, yaw -90, pitch 0, waiting for the first mouse sample at the window centre. */
    constructor (width: real, height: real, x: real, y: real, z: real)
      ensures position == Vec3(x, y, z) && front == Vec3(0.0, 0.0, -1.0) && up == Vec3(0.0, 1.0, 0.0)
      ensures yaw == -90.0 && pitch == 0.0 && firstMouse
      ensures lastX == width / 2.0 && lastY == height / 2.0
      ensures this.width == width && this.height == height
    {
      position := Vec3(x, y, z);
      front := Vec3(0.0, 0.0, -1.0);
      up := Vec3(0.0, 1.0, 0.0);
      yaw := -90.0;
      pitch := 0.0;
      firstMouse := true;
      lastX := width / 2.0;
      lastY := height / 2.0;
      this.width := width;
      this.height := height;
    }

    /**
      The mouse handler. `frontOf(yaw, pitch)` stands for UpdateCameraVectors'
      normalised direction, whose trigonometry is not modelled.
     */
    method ProcessMouseMovement(xpos: real, ypos: real, frontOf: (real, real) -> Vec3)
      modifies this`lastX, this`lastY, this`yaw, this`pitch, this`firstMouse, this`front
      ensures LookState() == MouseLook(old(LookState()), xpos, ypos)
      ensures -89.0 <= pitch <= 89.0
      ensures front == frontOf(yaw, pitch)
    {
      if firstMouse {
        lastX := xpos;
        lastY := ypos;
        firstMouse := false;
      }
      var xoffset := xpos - lastX;
      var yoffset := lastY - ypos;
      lastX := xpos;
      lastY := ypos;
      xoffset := xoffset * 0.3;
      yoffset := yoffset * 0.3;
      yaw := yaw + xoffset;
      pitch := pitch + yoffset;
      if pitch > 89.0 {
        pitch := 89.0;
      }
      if pitch < -89.0 {
        pitch := -89.0;
      }
      front := frontOf(yaw, pitch);
    }

    /**
      The keyboard handler on the four key states; `right` is
      normalize(cross(front, up)), taken as given.
     */
    method ProcessKeyboard(w: bool, s: bool, a: bool, d: bool, right: Vec3)
      modifies this`position
      ensures position == KeyboardMove(old(position), front, right, w, s, a, d)
      ensures old(InBounds(position)) ==> InBounds(position)
    {
      if InBounds(position) {
        KeyboardMoveKeepsBounds(position, front, right, w, s, a, d);
      }
      var delta: Vec3;
      if w {
        delta := Times(0.5, front);
        if SkyBoundsOk(position, delta) && FloorBoundsOk(position, delta) {
          position := Plus(position, delta);
        }
      }
      if s {
        delta := Times(-0.5, front);
        if SkyBoundsOk(position, delta) && FloorBoundsOk(position, delta) {
          position := Plus(position, delta);
        }
      }
      if a {
        delta := Times(-0.5, right);
        if SkyBoundsOk(position, delta) && FloorBoundsOk(position, delta) {
          position := Plus(position, delta);
        }
      }
      if d {
        delta := Times(0.5, right);
        if SkyBoundsOk(position, delta) && FloorBoundsOk(position, delta) {
          position := Plus(position, delta);
        }
      }
    }

    function GetPosition(): (p: Vec3)
      reads this
      ensures p == position
    {
      position
    }
  }
}
