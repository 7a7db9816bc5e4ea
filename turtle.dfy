/**
 * The turtle pen that both tree scripts drive.  The drawing code only talks
 * to the pen through a handful of calls; each call is recorded as a `Cmd`,
 * and the pen's observable state is the result of replaying those commands.
 *
 * Headings are whole degrees kept modulo 360, as the turtle reports them.
 * Position is abstract: the pen keeps the straight-line displacement it has
 * accumulated as a formal sum, for every heading, of the signed distance
 * travelled along it.  Equal sums mean equal displacement.  Arcs (`Circle`)
 * turn the pen but their displacement is not tracked.
 */
module Turtle {

  /** Colours are opaque tags handed to the graphics library. */
  type Color = string

  /** One call issued to the turtle. */
  datatype Cmd =
    | Forward(distance: real)
    | Backward(distance: real)
    | Right(degrees: int)
    | Left(degrees: int)
    | Circle(radius: real, extent: int)
    | BeginFill
    | EndFill
    | SetColor(color: Color)

  /** Heading change of one command, in degrees counter-clockwise.  An arc
      with a negative radius runs clockwise; the library tests `radius < 0`,
      so an arc of radius zero turns counter-clockwise. */
  function Turn(c: Cmd): (r: int)
    ensures !c.Right? && !c.Left? && !c.Circle? ==> r == 0
    ensures c.Circle? ==> r == c.extent || r == -c.extent
  {
    match c
    case Right(a) => -a
    case Left(a) => a
    case Circle(r, e) => if r < 0.0 then -e else e
    case _ => 0
  }

  /** Total heading change of a command sequence, without reduction. */
  function NetTurn(cmds: seq<Cmd>): int {
    if cmds == [] then 0 else Turn(cmds[0]) + NetTurn(cmds[1..])
  }

  lemma {:induction false} NetTurnAppend(a: seq<Cmd>, b: seq<Cmd>)
    ensures NetTurn(a + b) == NetTurn(a) + NetTurn(b)
  {
    if a == [] {
      assert a + b == b;
    } else {
      assert (a + b)[0] == a[0];
      assert (a + b)[1..] == a[1..] + b;
      NetTurnAppend(a[1..], b);
    }
  }

  /** Straight-line displacement: heading |-> signed distance along it. */
  type Offset = map<int, real>

  function Along(m: Offset, h: int): real {
    if h in m then m[h] else 0.0
  }

  /** No heading is stored with a zero distance, so that map equality is
      equality of displacement. */
  ghost predicate Normal(m: Offset) {
    forall h :: h in m ==> m[h] != 0.0
  }

  /** Travel `d` along heading `h`. */
  function Move(m: Offset, h: int, d: real): (r: Offset)
    ensures Along(r, h) == Along(m, h) + d
    ensures forall g :: g != h ==> Along(r, g) == Along(m, g)
    ensures Normal(m) ==> Normal(r)
  {
    var v := Along(m, h) + d;
    if v == 0.0 then m - {h} else m[h := v]
  }

  /** Going back the same distance along the same heading cancels a move. */
  lemma MoveCancels(m: Offset, h: int, d: real)
    requires Normal(m)
    ensures Move(Move(m, h, d), h, -d) == m
  {
    var m1 := Move(m, h, d);
    var m2 := Move(m1, h, -d);
    assert forall g :: Along(m2, g) == Along(m, g);
    forall g | g in m2 ensures g in m && m2[g] == m[g] {
      assert Along(m2, g) == m2[g];
    }
    forall g | g in m ensures g in m2 {
      assert Along(m, g) == m[g] != 0.0;
    }
  }

  /** The part of the turtle's state that the drawing code changes. */
  datatype PenState = PenState(heading: int, offset: Offset, color: Color, filling: bool)

  ghost predicate Wf(s: PenState) {
    0 <= s.heading < 360 && Normal(s.offset)
  }

  /** Effect of one command on the pen. */
  function Step(s: PenState, c: Cmd): (r: PenState)
    ensures Wf(s) ==> Wf(r)
    ensures Wf(s) ==> r.heading == (s.heading + Turn(c)) % 360
    ensures c.Forward? ==> r.offset == Move(s.offset, s.heading, c.distance)
    ensures c.Backward? ==> r.offset == Move(s.offset, s.heading, -c.distance)
    ensures !c.Forward? && !c.Backward? ==> r.offset == s.offset
  {
    match c
    case Forward(d) => s.(offset := Move(s.offset, s.heading, d))
    case Backward(d) => s.(offset := Move(s.offset, s.heading, -d))
    case Right(_) => s.(heading := (s.heading + Turn(c)) % 360)
    case Left(_) => s.(heading := (s.heading + Turn(c)) % 360)
    case Circle(_, _) => s.(heading := (s.heading + Turn(c)) % 360)
    case BeginFill => s.(filling := true)
    case EndFill => s.(filling := false)
    case SetColor(col) => s.(color := col)
  }

  /** Effect of a command sequence, first command first. */
  function Replay(s: PenState, cmds: seq<Cmd>): (r: PenState)
    ensures Wf(s) ==> Wf(r)
    decreases |cmds|
  {
    if cmds == [] then s else Replay(Step(s, cmds[0]), cmds[1..])
  }

  lemma {:induction false} ReplayAppend(s: PenState, a: seq<Cmd>, b: seq<Cmd>)
    ensures Replay(s, a + b) == Replay(Replay(s, a), b)
    decreases |a|
  {
    if a == [] {
      assert a + b == b;
    } else {
      assert (a + b)[0] == a[0];
      assert (a + b)[1..] == a[1..] + b;
      ReplayAppend(Step(s, a[0]), a[1..], b);
    }
  }

  /** The heading after a command sequence is the start heading turned by
      the sequence's net turn, reduced modulo 360. */
  lemma {:induction false} ReplayHeading(s: PenState, cmds: seq<Cmd>)
    requires Wf(s)
    ensures Replay(s, cmds).heading == (s.heading + NetTurn(cmds)) % 360
    decreases |cmds|
  {
    if cmds != [] {
      var s1 := Step(s, cmds[0]);
      ReplayHeading(s1, cmds[1..]);
      assert s1.heading == (s.heading + Turn(cmds[0])) % 360;
      ModAdd(s.heading + Turn(cmds[0]), NetTurn(cmds[1..]));
    }
  }

  lemma ModAdd(x: int, y: int)
    ensures (x % 360 + y) % 360 == (x + y) % 360
  {
  }

  /**
   * The turtle.  `trace` is every command issued so far; `start` is the
   * state the pen had before the first of them.
   */
  class Pen {
    var heading: int
    var offset: Offset
    var color: Color
    var filling: bool
    var trace: seq<Cmd>
    ghost var start: PenState

    function State(): PenState
      reads this
    {
      PenState(heading, offset, color, filling)
    }

    ghost predicate Valid()
      reads this
    {
      Wf(start) && State() == Replay(start, trace)
    }

    /** A fresh turtle faces heading 0 and draws in black. */
    constructor ()
      ensures Valid() && trace == []
      ensures State() == PenState(0, map[], "black", false)
    {
      heading, offset, color, filling := 0, map[], "black", false;
      trace := [];
      start := PenState(0, map[], "black", false);
    }

    method Forward(d: real)
      requires Valid()
      modifies this
      ensures Valid() && start == old(start) && trace == old(trace) + [Cmd.Forward(d)]
      ensures offset == Move(old(offset), heading, d)
      ensures heading == old(heading) && color == old(color) && filling == old(filling)
    {
      offset := Move(offset, heading, d);
      ReplayAppend(start, trace, [Cmd.Forward(d)]);
      trace := trace + [Cmd.Forward(d)];
    }

    method Backward(d: real)
      requires Valid()
      modifies this
      ensures Valid() && start == old(start) && trace == old(trace) + [Cmd.Backward(d)]
      ensures offset == Move(old(offset), heading, -d)
      ensures heading == old(heading) && color == old(color) && filling == old(filling)
    {
      offset := Move(offset, heading, -d);
      ReplayAppend(start, trace, [Cmd.Backward(d)]);
      trace := trace + [Cmd.Backward(d)];
    }

    method Right(a: int)
      requires Valid()
      modifies this
      ensures Valid() && start == old(start) && trace == old(trace) + [Cmd.Right(a)]
      ensures heading == (old(heading) - a) % 360
      ensures offset == old(offset) && color == old(color) && filling == old(filling)
    {
      heading := (heading - a) % 360;
      ReplayAppend(start, trace, [Cmd.Right(a)]);
      trace := trace + [Cmd.Right(a)];
    }

    method Left(a: int)
      requires Valid()
      modifies this
      ensures Valid() && start == old(start) && trace == old(trace) + [Cmd.Left(a)]
      ensures heading == (old(heading) + a) % 360
      ensures offset == old(offset) && color == old(color) && filling == old(filling)
    {
      heading := (heading + a) % 360;
      ReplayAppend(start, trace, [Cmd.Left(a)]);
      trace := trace + [Cmd.Left(a)];
    }

    /** `circle(radius, extent)`: an arc that turns the pen by `extent`
        degrees, clockwise when the radius is negative. */
    method Circle(radius: real, extent: int)
      requires Valid()
      modifies this
      ensures Valid() && start == old(start) && trace == old(trace) + [Cmd.Circle(radius, extent)]
      ensures heading == (old(heading) + (if radius < 0.0 then -extent else extent)) % 360
      ensures offset == old(offset) && color == old(color) && filling == old(filling)
    {
      heading := (heading + (if radius < 0.0 then -extent else extent)) % 360;
      ReplayAppend(start, trace, [Cmd.Circle(radius, extent)]);
      trace := trace + [Cmd.Circle(radius, extent)];
    }

    method BeginFill()
      requires Valid()
      modifies this
      ensures Valid() && start == old(start) && trace == old(trace) + [Cmd.BeginFill]
      ensures filling
      ensures heading == old(heading) && offset == old(offset) && color == old(color)
    {
      filling := true;
      ReplayAppend(start, trace, [Cmd.BeginFill]);
      trace := trace + [Cmd.BeginFill];
    }

    method EndFill()
      requires Valid()
      modifies this
      ensures Valid() && start == old(start) && trace == old(trace) + [Cmd.EndFill]
      ensures !filling
      ensures heading == old(heading) && offset == old(offset) && color == old(color)
    {
      filling := false;
      ReplayAppend(start, trace, [Cmd.EndFill]);
      trace := trace + [Cmd.EndFill];
    }

    /** `color(c)`: sets the pen and fill colour. */
    method SetColor(c: Color)
      requires Valid()
      modifies this
      ensures Valid() && start == old(start) && trace == old(trace) + [Cmd.SetColor(c)]
      ensures color == c
      ensures heading == old(heading) && offset == old(offset) && filling == old(filling)
    {
      color := c;
      ReplayAppend(start, trace, [Cmd.SetColor(c)]);
      trace := trace + [Cmd.SetColor(c)];
    }
  }
}
