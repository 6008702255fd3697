/** Keyboard edge detection and mouse-look state (src/Input.cpp). GLFW's
    key polling becomes a snapshot `held` of every key code; the cursor and
    scroll callbacks become calls with the event's numbers. */
module Inputs {
  /** GLFW_KEY_SPACE and GLFW_KEY_LAST: update polls the codes between them. */
  const KeySpace: int := 32
  const KeyLast: int := 348
  const KeyCount: int := KeyLast + 1

  const Sensitivity: real := 0.1
  const MaxPitch: real := 89.0
  const MinFov: real := 1.0
  const MaxFov: real := 45.0

  /** The key codes update refreshes. */
  predicate Polled(k: int) {
    KeySpace <= k <= KeyLast
  }

  /** The key array after update's polling loop: polled codes take the
      snapshot's value, the codes below GLFW_KEY_SPACE keep theirs. */
  function Sampled(current: seq<bool>, held: seq<bool>): (r: seq<bool>)
    requires |current| == KeyCount && |held| == KeyCount
  {
    seq(KeyCount, k requires 0 <= k < KeyCount => if Polled(k) then held[k] else current[k])
  }

  /** Input::isKeyPressed on the two arrays. */
  predicate Pressed(current: seq<bool>, previous: seq<bool>, k: int)
    requires 0 <= k < |current| && 0 <= k < |previous|
  {
    current[k] && !previous[k]
  }

  /** Input::isKeyReleased on the two arrays. */
  predicate Released(current: seq<bool>, previous: seq<bool>, k: int)
    requires 0 <= k < |current| && 0 <= k < |previous|
  {
    !current[k] && previous[k]
  }

  /** A key is never pressed and released in the same frame, and a key
      whose state did not change is neither. */
  lemma PressReleaseExclusive(current: seq<bool>, previous: seq<bool>, k: int)
    requires 0 <= k < |current| && 0 <= k < |previous|
    ensures !(Pressed(current, previous, k) && Released(current, previous, k))
    ensures Pressed(current, previous, k) || Released(current, previous, k) <==> current[k] != previous[k]
  {
  }

  /** Across one update, a polled key is pressed exactly when the snapshot
      holds it and the previous frame did not, and released exactly the
      other way round. */
  lemma UpdateEdges(current: seq<bool>, held: seq<bool>, k: int)
    requires |current| == KeyCount && |held| == KeyCount && Polled(k)
    ensures Pressed(Sampled(current, held), current, k) <==> held[k] && !current[k]
    ensures Released(Sampled(current, held), current, k) <==> !held[k] && current[k]
  {
  }

  /** A key held through two updates is down but no longer pressed. */
  lemma HeldKeyNotPressedTwice(current: seq<bool>, first: seq<bool>, second: seq<bool>, k: int)
    requires |current| == KeyCount && |first| == KeyCount && |second| == KeyCount
    requires Polled(k) && first[k] && second[k]
    ensures var c1 := Sampled(current, first);
            var c2 := Sampled(c1, second);
            c2[k] && !Pressed(c2, c1, k) && !Released(c2, c1, k)
  {
  }

  /** Codes below GLFW_KEY_SPACE are never polled, so they never change. */
  lemma UnpolledKeysKept(current: seq<bool>, held: seq<bool>, k: int)
    requires |current| == KeyCount && |held| == KeyCount && 0 <= k < KeySpace
    ensures Sampled(current, held)[k] == current[k]
    ensures !Pressed(Sampled(current, held), current, k) && !Released(Sampled(current, held), current, k)
  {
  }

  // ---------------------------------------------------------------------
  // Mouse look.

  /** The camera angles, the field of view and the cursor bookkeeping. */
  datatype Look = Look(yaw: real, pitch: real, fov: real, lastX: real, lastY: real, firstMouse: bool)

  /** Input::Input. */
  const InitialLook: Look := Look(-90.0, 0.0, 45.0, 400.0, 300.0, true)

  /** The two pitch tests of handleMouse, in their order. */
  function PitchClamped(p: real): (r: real)
    ensures -MaxPitch <= r <= MaxPitch
    ensures -MaxPitch <= p <= MaxPitch ==> r == p
  {
    var upper := if p > MaxPitch then MaxPitch else p;
    if upper < -MaxPitch then -MaxPitch else upper
  }

  /** The two fov tests of handleScroll, in their order. */
  function FovClamped(f: real): (r: real)
    ensures MinFov <= r <= MaxFov
    ensures MinFov <= f <= MaxFov ==> r == f
  {
    var lower := if f < MinFov then MinFov else f;
    if lower > MaxFov then MaxFov else lower
  }

  /** Input::handleMouse. */
  function MouseMoved(l: Look, x: real, y: real): Look {
    var fromX := if l.firstMouse then x else l.lastX;
    var fromY := if l.firstMouse then y else l.lastY;
    l.(yaw := l.yaw + Sensitivity * (x - fromX),
       pitch := PitchClamped(l.pitch + Sensitivity * (fromY - y)),
       lastX := x, lastY := y, firstMouse := false)
  }

  /** Input::handleScroll; the horizontal offset is ignored. */
  function Scrolled(l: Look, yOffset: real): Look {
    l.(fov := FovClamped(l.fov - yOffset))
  }

  /** The first cursor event only records where the cursor is: the offset
      is zero, yaw is kept and pitch only gets clamped. */
  lemma FirstMouseRecordsOnly(l: Look, x: real, y: real)
    requires l.firstMouse
    ensures var r := MouseMoved(l, x, y);
            !r.firstMouse && r.yaw == l.yaw && r.pitch == PitchClamped(l.pitch) &&
            r.lastX == x && r.lastY == y && r.fov == l.fov
  {
  }

  /** Later events turn by a tenth of the cursor travel (y inverted), pitch
      then clamped to [-89, 89]. */
  lemma MouseTurns(l: Look, x: real, y: real)
    requires !l.firstMouse
    ensures var r := MouseMoved(l, x, y);
            r.yaw == l.yaw + 0.1 * (x - l.lastX) &&
            r.pitch == PitchClamped(l.pitch + 0.1 * (l.lastY - y)) &&
            -89.0 <= r.pitch <= 89.0 &&
            r.lastX == x && r.lastY == y && !r.firstMouse && r.fov == l.fov
  {
  }

  /** A run of cursor events, in order. */
  datatype CursorEvent = CursorEvent(x: real, y: real)

  function Moves(l: Look, evs: seq<CursorEvent>): Look
    decreases |evs|
  {
    if evs == [] then l
    else
      var e := evs[|evs| - 1];
      MouseMoved(Moves(l, evs[..|evs| - 1]), e.x, e.y)
  }

  /** Yaw is never clamped, so after any run of events it has turned by a
      tenth of the cursor's total travel since the last recorded position. */
  lemma {:induction false} YawFollowsCursor(l: Look, evs: seq<CursorEvent>)
    requires evs != [] && !l.firstMouse
    ensures Moves(l, evs).yaw == l.yaw + 0.1 * (evs[|evs| - 1].x - l.lastX)
    ensures Moves(l, evs).lastX == evs[|evs| - 1].x && Moves(l, evs).lastY == evs[|evs| - 1].y
    decreases |evs|
  {
    var init := evs[..|evs| - 1];
    if init != [] {
      YawFollowsCursor(l, init);
      assert init[|init| - 1] == evs[|evs| - 2];
    }
  }

  /** From a fresh state the first event is only recorded, so yaw measures
      the travel from the first event's position. */
  lemma {:induction false} YawFromFirstEvent(l: Look, evs: seq<CursorEvent>)
    requires evs != [] && l.firstMouse
    ensures Moves(l, evs).yaw == l.yaw + 0.1 * (evs[|evs| - 1].x - evs[0].x)
    ensures !Moves(l, evs).firstMouse
    decreases |evs|
  {
    var init := evs[..|evs| - 1];
    if init == [] {
      assert Moves(l, evs) == MouseMoved(l, evs[0].x, evs[0].y);
    } else {
      YawFromFirstEvent(l, init);
      assert init[0] == evs[0];
      var m := Moves(l, init);
      assert m.lastX == init[|init| - 1].x by {
        LastEventRecorded(l, init);
      }
    }
  }

  /** Every event leaves its position as the recorded one. */
  lemma LastEventRecorded(l: Look, evs: seq<CursorEvent>)
    requires evs != []
    ensures Moves(l, evs).lastX == evs[|evs| - 1].x && Moves(l, evs).lastY == evs[|evs| - 1].y
  {
  }

  /** Pitch stays in [-89, 89] after any non-empty run of events, whatever
      it was before. */
  lemma PitchStaysBounded(l: Look, evs: seq<CursorEvent>)
    requires evs != []
    ensures -89.0 <= Moves(l, evs).pitch <= 89.0
  {
  }

  /** Scrolling by y and back by -y restores the field of view when neither
      step reaches a clamp. */
  lemma ScrollRoundTrip(l: Look, y: real)
    requires 1.0 <= l.fov <= 45.0 && 1.0 <= l.fov - y <= 45.0
    ensures Scrolled(l, y).fov == l.fov - y
    ensures Scrolled(Scrolled(l, y), -y) == l
  {
  }

  /** Scrolling keeps the field of view in [1, 45] and touches nothing else. */
  lemma ScrollBounded(l: Look, y: real)
    ensures 1.0 <= Scrolled(l, y).fov <= 45.0
    ensures Scrolled(l, y) == l.(fov := Scrolled(l, y).fov)
    ensures y >= l.fov - 1.0 ==> Scrolled(l, y).fov == 1.0
    ensures y <= l.fov - 45.0 ==> Scrolled(l, y).fov == 45.0
  {
  }

  class Input {
    var yaw: real
    var pitch: real
    var fov: real
    var lastX: real
    var lastY: real
    var firstMouse: bool
    const currentKeys: array<bool>
    const previousKeys: array<bool>

    predicate Valid()
      reads this
    {
      currentKeys.Length == KeyCount && previousKeys.Length == KeyCount && currentKeys != previousKeys
    }

    function LookState(): Look
      reads this
    {
      Look(yaw, pitch, fov, lastX, lastY, firstMouse)
    }

    /** Input::Input; both key arrays start with every key up. */
    constructor ()
      ensures Valid() && fresh(currentKeys) && fresh(previousKeys)
      ensures LookState() == InitialLook
      ensures forall k :: 0 <= k < KeyCount ==> !currentKeys[k] && !previousKeys[k]
    {
      yaw := -90.0;
      pitch := 0.0;
      fov := 45.0;
      lastX := 400.0;
      lastY := 300.0;
      firstMouse := true;
      currentKeys := new bool[KeyCount](_ => false);
      previousKeys := new bool[KeyCount](_ => false);
    }

    /** Input::update: remember the current keys, then poll. */
    method Update(held: seq<bool>)
      requires Valid() && |held| == KeyCount
      modifies currentKeys, previousKeys
      ensures previousKeys[..] == old(currentKeys[..])
      ensures currentKeys[..] == Sampled(old(currentKeys[..]), held)
    {
      ghost var before := currentKeys[..];
      forall k | 0 <= k < KeyCount {
        previousKeys[k] := currentKeys[k];
      }
      assert previousKeys[..] == before;
      var key := KeySpace;
      while key <= KeyLast
        invariant KeySpace <= key <= KeyCount
        invariant previousKeys[..] == before
        invariant forall k :: 0 <= k < KeyCount ==> currentKeys[k] == (if KeySpace <= k < key then held[k] else before[k])
      {
        currentKeys[key] := held[key];
        key := key + 1;
      }
      assert currentKeys[..] == Sampled(before, held);
    }

    function IsKeyDown(key: int): (down: bool)
      requires Valid() && 0 <= key < KeyCount
      reads this, currentKeys
      ensures down == currentKeys[..][key]
    {
      currentKeys[key]
    }

    function IsKeyPressed(key: int): (pressed: bool)
      requires Valid() && 0 <= key < KeyCount
      reads this, currentKeys, previousKeys
      ensures pressed == Pressed(currentKeys[..], previousKeys[..], key)
      ensures pressed ==> IsKeyDown(key) && !IsKeyReleased(key)
    {
      currentKeys[key] && !previousKeys[key]
    }

    function IsKeyReleased(key: int): (released: bool)
      requires Valid() && 0 <= key < KeyCount
      reads this, currentKeys, previousKeys
      ensures released == Released(currentKeys[..], previousKeys[..], key)
      ensures released ==> !IsKeyDown(key)
    {
      !currentKeys[key] && previousKeys[key]
    }

    method HandleMouse(xpos: real, ypos: real)
      modifies this
      ensures LookState() == MouseMoved(old(LookState()), xpos, ypos)
      ensures -89.0 <= pitch <= 89.0
    {
      if firstMouse {
        lastX := xpos;
        lastY := ypos;
        firstMouse := false;
      }
      var xoffset := xpos - lastX;
      var yoffset := lastY - ypos;
      lastX := xpos;
      lastY := ypos;
      xoffset := xoffset * Sensitivity;
      yoffset := yoffset * Sensitivity;
      yaw := yaw + xoffset;
      pitch := pitch + yoffset;
      if pitch > MaxPitch {
        pitch := MaxPitch;
      }
      if pitch < -MaxPitch {
        pitch := -MaxPitch;
      }
    }

    method HandleScroll(xoffset: real, yoffset: real)
      modifies this
      ensures LookState() == Scrolled(old(LookState()), yoffset)
      ensures 1.0 <= fov <= 45.0
    {
      fov := fov - yoffset;
      if fov < MinFov {
        fov := MinFov;
      }
      if fov > MaxFov {
        fov := MaxFov;
      }
    }
  }
}
