/**
 * The camera: its distance from the cube, clamped to [2, 10] by the scroll
 * wheel, and the cube's rotation about two axes, turned by the arrow keys.
 * Floats are modelled as reals.
 */
module CameraControl {

  const RotationSpeed: real := 2.0
  const MinDistance: real := 2.0
  const MaxDistance: real := 10.0
  const ScrollSpeed: real := 0.5
  const InitialDistance: real := 5.0

  /** Which of the keys the camera polls are held down. */
  datatype Keys = Keys(escape: bool, left: bool, right: bool, up: bool, down: bool)

  /** The camera's three fields, as a value. */
  datatype CameraState = CameraState(distance: real, rotationX: real, rotationY: real)

  /** A scroll of the mouse wheel, or one poll of the keyboard. */
  datatype Event = Scroll(yoffset: real) | Poll(keys: Keys)

  /** The state init leaves, which is also the state the fields start in. */
  const Initial: CameraState := CameraState(InitialDistance, 0.0, 0.0)

  predicate InRange(x: real) {
    MinDistance <= x <= MaxDistance
  }

  function Abs(x: real): real {
    if x < 0.0 then -x else x
  }

  /** 1 when the key is held, 0 when it is not. */
  function Held(b: bool): real {
    if b then 1.0 else 0.0
  }

  /**
   * The distance after a scroll of `yoffset`: the distance moved by
   * yoffset * scrollSpeed, first raised to the minimum, then lowered to the
   * maximum. It is the point of [2, 10] nearest to the unclamped distance.
   */
  function Scrolled(distance: real, yoffset: real): (r: real)
    ensures InRange(r)
    ensures InRange(distance - yoffset * ScrollSpeed) ==> r == distance - yoffset * ScrollSpeed
    ensures distance - yoffset * ScrollSpeed < MinDistance ==> r == MinDistance
    ensures distance - yoffset * ScrollSpeed > MaxDistance ==> r == MaxDistance
    ensures forall x :: InRange(x) ==>
              Abs(r - (distance - yoffset * ScrollSpeed)) <= Abs(x - (distance - yoffset * ScrollSpeed))
    ensures InRange(distance) && yoffset >= 0.0 ==> r <= distance
    ensures InRange(distance) && yoffset <= 0.0 ==> r >= distance
  {
    var moved := distance - yoffset * ScrollSpeed;
    var raised := if moved < MinDistance then MinDistance else moved;
    if raised > MaxDistance then MaxDistance else raised
  }

  /**
   * The state after one poll of the arrow keys: left turns the cube by -2
   * about the Y axis and right by +2, up by -2 about the X axis and down by
   * +2, each key on its own; the distance is not touched.
   */
  function Turned(s: CameraState, keys: Keys): (r: CameraState)
    ensures r.distance == s.distance
    ensures r.rotationY == s.rotationY + RotationSpeed * (Held(keys.right) - Held(keys.left))
    ensures r.rotationX == s.rotationX + RotationSpeed * (Held(keys.down) - Held(keys.up))
    ensures keys.left == keys.right ==> r.rotationY == s.rotationY
    ensures keys.up == keys.down ==> r.rotationX == s.rotationX
  {
    var y := if keys.left then s.rotationY - RotationSpeed else s.rotationY;
    var y' := if keys.right then y + RotationSpeed else y;
    var x := if keys.up then s.rotationX - RotationSpeed else s.rotationX;
    var x' := if keys.down then x + RotationSpeed else x;
    CameraState(s.distance, x', y')
  }

  /** The effect of one event: a scroll changes only the distance, a poll only the rotation. */
  function Apply(s: CameraState, e: Event): (r: CameraState)
    ensures e.Scroll? ==> r.rotationX == s.rotationX && r.rotationY == s.rotationY && InRange(r.distance)
    ensures e.Poll? ==> r.distance == s.distance
  {
    match e
    case Scroll(yoffset) => s.(distance := Scrolled(s.distance, yoffset))
    case Poll(keys) => Turned(s, keys)
  }

  /**
   * The state after the events, oldest first: polls alone never move the
   * camera, and scrolls alone never turn the cube.
   */
  function Replay(s: CameraState, events: seq<Event>): (r: CameraState)
    decreases |events|
    ensures (forall e :: e in events ==> e.Poll?) ==> r.distance == s.distance
    ensures (forall e :: e in events ==> e.Scroll?) ==> r.rotationX == s.rotationX && r.rotationY == s.rotationY
  {
    if events == [] then s else Replay(Apply(s, events[0]), events[1..])
  }

  /** Any sequence of scrolls and polls keeps a distance in [2, 10] within it. */
  lemma {:induction false} ReplayKeepsDistanceInRange(s: CameraState, events: seq<Event>)
    requires InRange(s.distance)
    decreases |events|
    ensures InRange(Replay(s, events).distance)
  {
    if events != [] {
      ReplayKeepsDistanceInRange(Apply(s, events[0]), events[1..]);
    }
  }

  /** Starting from init, the distance stays within [2, 10] whatever the events. */
  lemma DistanceInRangeFromInitial(events: seq<Event>)
    ensures InRange(Replay(Initial, events).distance)
  {
    ReplayKeepsDistanceInRange(Initial, events);
  }

  function ScrollsOnly(events: seq<Event>): (r: seq<Event>)
    ensures forall e :: e in r <==> e in events && e.Scroll?
  {
    if events == [] then []
    else if events[0].Scroll? then [events[0]] + ScrollsOnly(events[1..])
    else ScrollsOnly(events[1..])
  }

  function PollsOnly(events: seq<Event>): (r: seq<Event>)
    ensures forall e :: e in r <==> e in events && e.Poll?
  {
    if events == [] then []
    else if events[0].Poll? then [events[0]] + PollsOnly(events[1..])
    else PollsOnly(events[1..])
  }

  /** The distance depends only on the scrolls, and not on the polls between them. */
  lemma {:induction false} DistanceOnlyFromScrolls(s: CameraState, events: seq<Event>)
    decreases |events|
    ensures Replay(s, events).distance == Replay(s, ScrollsOnly(events)).distance
  {
    if events != [] {
      var e := events[0];
      var rest := events[1..];
      DistanceOnlyFromScrolls(Apply(s, e), rest);
      if e.Scroll? {
        assert ScrollsOnly(events) == [e] + ScrollsOnly(rest);
        assert ([e] + ScrollsOnly(rest))[1..] == ScrollsOnly(rest);
      } else {
        SameDistanceSameEnd(s, Apply(s, e), ScrollsOnly(rest));
      }
    }
  }

  /** The same events replayed from two states at the same distance end at the same distance. */
  lemma {:induction false} SameDistanceSameEnd(s: CameraState, t: CameraState, events: seq<Event>)
    requires s.distance == t.distance
    decreases |events|
    ensures Replay(s, events).distance == Replay(t, events).distance
  {
    if events != [] {
      var e := events[0];
      var s' := Apply(s, e);
      var t' := Apply(t, e);
      SameDistanceSameEnd(s', t', events[1..]);
    }
  }

  /** The rotation depends only on the polls, and not on the scrolls between them. */
  lemma {:induction false} RotationOnlyFromPolls(s: CameraState, events: seq<Event>)
    decreases |events|
    ensures Replay(s, events).rotationX == Replay(s, PollsOnly(events)).rotationX
    ensures Replay(s, events).rotationY == Replay(s, PollsOnly(events)).rotationY
  {
    if events != [] {
      var e := events[0];
      var rest := events[1..];
      RotationOnlyFromPolls(Apply(s, e), rest);
      if e.Poll? {
        assert PollsOnly(events) == [e] + PollsOnly(rest);
        assert ([e] + PollsOnly(rest))[1..] == PollsOnly(rest);
      } else {
        SameRotationSameEnd(s, Apply(s, e), PollsOnly(rest));
      }
    }
  }

  /** The same events replayed from two states with the same rotation end with the same rotation. */
  lemma {:induction false} SameRotationSameEnd(s: CameraState, t: CameraState, events: seq<Event>)
    requires s.rotationX == t.rotationX && s.rotationY == t.rotationY
    decreases |events|
    ensures Replay(s, events).rotationX == Replay(t, events).rotationX
    ensures Replay(s, events).rotationY == Replay(t, events).rotationY
  {
    if events != [] {
      var e := events[0];
      SameRotationSameEnd(Apply(s, e), Apply(t, e), events[1..]);
    }
  }

  /** The camera singleton's state. */
  class Camera {
    var cameraDistance: real
    var rotationX: real
    var rotationY: real

    function State(): CameraState
      reads this
    {
      CameraState(cameraDistance, rotationX, rotationY)
    }

    /** The distance is within [2, 10]. */
    ghost predicate Valid()
      reads this
    {
      InRange(cameraDistance)
    }

    /** The fields' initial values: distance 5, no rotation. */
    constructor ()
      ensures Valid()
      ensures State() == Initial
    {
      cameraDistance := InitialDistance;
      rotationX := 0.0;
      rotationY := 0.0;
    }

    /** Resets the camera to distance 5 with no rotation. */
    method Init()
      modifies this
      ensures Valid()
      ensures State() == Initial
    {
      cameraDistance := InitialDistance;
      rotationX := 0.0;
      rotationY := 0.0;
    }

    /**
     * Polls the keyboard: escape asks the window to close (`shouldClose` is
     * the window's flag before, the result the flag after), and each arrow
     * key held turns the cube.
     */
    method HandleInput(keys: Keys, shouldClose: bool) returns (closeWindow: bool)
      modifies this
      ensures closeWindow == (shouldClose || keys.escape)
      ensures State() == Apply(old(State()), Poll(keys))
      ensures old(Valid()) ==> Valid()
    {
      closeWindow := shouldClose;
      if keys.escape {
        closeWindow := true;
      }
      if keys.left {
        rotationY := rotationY - RotationSpeed;
      }
      if keys.right {
        rotationY := rotationY + RotationSpeed;
      }
      if keys.up {
        rotationX := rotationX - RotationSpeed;
      }
      if keys.down {
        rotationX := rotationX + RotationSpeed;
      }
    }

    /** Moves the camera by the scroll, clamping its distance to [2, 10]. */
    method HandleScroll(yoffset: real)
      modifies this
      ensures Valid()
      ensures State() == Apply(old(State()), Scroll(yoffset))
    {
      cameraDistance := cameraDistance - yoffset * ScrollSpeed;
      if cameraDistance < MinDistance {
        cameraDistance := MinDistance;
      }
      if cameraDistance > MaxDistance {
        cameraDistance := MaxDistance;
      }
    }
  }
}
