/**
 * The keyboard and mouse layer as a recorded trace of discrete input events,
 * with the view a test spy has of it.
 */
module InputActuator {
  import opened Perception

  /** One call into the keyboard or mouse primitives. */
  datatype Event =
    | KeyDown(key: string)
    | KeyUp(key: string)
    | Press(key: string)
    | LeftClick(at: Point)
    | MoveTo(to: Point)
    | Write(text: string)
    | Hotkey(first: string, second: string)

  /** The primitive an event is a call of. */
  datatype Primitive = KeyDownFn | KeyUpFn | PressFn | LeftClickFn | MoveToFn | WriteFn | HotkeyFn

  function PrimitiveOf(e: Event): Primitive {
    match e
    case KeyDown(_) => KeyDownFn
    case KeyUp(_) => KeyUpFn
    case Press(_) => PressFn
    case LeftClick(_) => LeftClickFn
    case MoveTo(_) => MoveToFn
    case Write(_) => WriteFn
    case Hotkey(_, _) => HotkeyFn
  }

  /**
   * What a spy on primitive `p` records of `trace`: the calls to `p`, in order.
   * "Called once with x" is `CallsTo(trace, p) == [x]`; "not called" is `CallsTo(trace, p) == []`.
   */
  function CallsTo(trace: seq<Event>, p: Primitive): (calls: seq<Event>)
    ensures |calls| <= |trace|
    ensures forall e {:trigger e in calls} :: e in calls ==> e in trace && PrimitiveOf(e) == p
    ensures forall e {:trigger e in trace} :: e in trace && PrimitiveOf(e) == p ==> e in calls
  {
    if trace == [] then []
    else
      var rest := CallsTo(trace[1..], p);
      assert forall e :: e in trace <==> e == trace[0] || e in trace[1..];
      if PrimitiveOf(trace[0]) == p then [trace[0]] + rest else rest
  }

  lemma {:induction false} CallsToAppend(a: seq<Event>, b: seq<Event>, p: Primitive)
    ensures CallsTo(a + b, p) == CallsTo(a, p) + CallsTo(b, p)
  {
    if a == [] {
      assert a + b == b;
    } else {
      assert (a + b)[1..] == a[1..] + b;
      CallsToAppend(a[1..], b, p);
    }
  }

  /** What a spy on `p` records of the single event `e`. */
  function CallOf(e: Event, p: Primitive): seq<Event> {
    if PrimitiveOf(e) == p then [e] else []
  }

  lemma CallsToCons(e: Event, rest: seq<Event>, p: Primitive)
    ensures CallsTo([e] + rest, p) == CallOf(e, p) + CallsTo(rest, p)
  {
  }

  /** A spy on a three-event sequence sees each event's call in turn. */
  lemma CallsToThree(a: Event, b: Event, c: Event, p: Primitive)
    ensures CallsTo([a, b, c], p) == CallOf(a, p) + (CallOf(b, p) + CallOf(c, p))
  {
    var one, two, three := [c], [b, c], [a, b, c];
    assert one == [c] + [];
    assert two == [b] + one;
    assert three == [a] + two;
    CallsToCons(c, [], p);
    assert CallsTo(one, p) == CallOf(c, p);
    CallsToCons(b, one, p);
    CallsToCons(a, two, p);
  }

  /** A spy on a four-event sequence sees each event's call in turn. */
  lemma CallsToFour(a: Event, b: Event, c: Event, d: Event, p: Primitive)
    ensures CallsTo([a, b, c, d], p) == CallOf(a, p) + (CallOf(b, p) + (CallOf(c, p) + CallOf(d, p)))
  {
    var three, four := [b, c, d], [a, b, c, d];
    assert four == [a] + three;
    CallsToCons(a, three, p);
    CallsToThree(b, c, d, p);
  }

  /** The points the pointer is sent to, by a click or a move, in order. */
  function PointerTargets(trace: seq<Event>): (targets: seq<Point>)
    ensures |targets| <= |trace|
    ensures forall q :: q in targets ==> LeftClick(q) in trace || MoveTo(q) in trace
  {
    if trace == [] then []
    else
      var rest := PointerTargets(trace[1..]);
      match trace[0]
      case LeftClick(q) => [q] + rest
      case MoveTo(q) => [q] + rest
      case _ => rest
  }

  /** The input device: every primitive appends its event to `trace`. */
  class Actuator {
    var trace: seq<Event>

    constructor ()
      ensures trace == []
    {
      trace := [];
    }

    method KeyDown(key: string)
      modifies this
      ensures trace == old(trace) + [Event.KeyDown(key)]
    {
      trace := trace + [Event.KeyDown(key)];
    }

    method KeyUp(key: string)
      modifies this
      ensures trace == old(trace) + [Event.KeyUp(key)]
    {
      trace := trace + [Event.KeyUp(key)];
    }

    method Press(key: string)
      modifies this
      ensures trace == old(trace) + [Event.Press(key)]
    {
      trace := trace + [Event.Press(key)];
    }

    method LeftClick(at: Point)
      modifies this
      ensures trace == old(trace) + [Event.LeftClick(at)]
    {
      trace := trace + [Event.LeftClick(at)];
    }

    method MoveTo(to: Point)
      modifies this
      ensures trace == old(trace) + [Event.MoveTo(to)]
    {
      trace := trace + [Event.MoveTo(to)];
    }

    method Write(text: string)
      modifies this
      ensures trace == old(trace) + [Event.Write(text)]
    {
      trace := trace + [Event.Write(text)];
    }

    method Hotkey(first: string, second: string)
      modifies this
      ensures trace == old(trace) + [Event.Hotkey(first, second)]
    {
      trace := trace + [Event.Hotkey(first, second)];
    }
  }
}
