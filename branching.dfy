/**
 * The recursive branch generator shared by both scripts, as a specification
 * of what one call issues to the pen and how many random draws it takes.
 * The two scripts differ only in how a branch body is drawn (`Shape`) and
 * where their settings live; the drawing methods in FractalTree and
 * FractalTreeOrganic are proved to issue exactly these commands.
 */
module Branching {
  import opened Turtle
  import opened Randomness

  /** A branch body is a straight segment or a 60-degree arc. */
  datatype Shape = Straight | Arc

  /** The settings a run reads. */
  datatype Config = Config(
    branchLength: real,
    lengthDecrement: real,
    minLength: real,
    angle: int,
    angleVariation: int,
    leafProbability: real,
    maxDepth: int,
    backgroundColor: Color,
    branchColor: Color,
    leafColor: Color)

  /** What one call of `draw_branch` did: return at the depth guard, draw
      a leaf (`early` when the leaf test chose it, not a short length), or
      draw a branch body of length `len` turned by `angle` and call itself
      twice. */
  datatype Call =
    | Halted
    | Leaf(early: bool)
    | Fork(len: real, angle: int, right: Call, left: Call)

  /** A call together with the index of the first draw it left unused. */
  datatype Growth = Growth(call: Call, next: nat)

  /** Commands issued together with the index of the first unused draw. */
  datatype Drawing = Drawing(cmds: seq<Cmd>, next: nat)

  /** Sweep of a branch arc, in degrees. */
  const ArcExtent: int := 60
  /** Radius of a leaf's large lobe; the small lobe uses `LeafRadius / 2`. */
  const LeafRadius: int := 4

  /** The command that draws a branch body of length `len`. */
  function Outward(shape: Shape, len: real): (r: Cmd)
    ensures shape.Straight? <==> r.Forward?
    ensures shape.Arc? ==> r.Circle? && r.extent == ArcExtent && (r.radius > 0.0 <==> len > 0.0)
  {
    match shape
    case Straight => Forward(len)
    case Arc => Circle(len / 2.0, ArcExtent)
  }

  /** The command that retraces a branch body of length `len`. */
  function Inward(shape: Shape, len: real): (r: Cmd)
    ensures shape.Straight? <==> r.Backward?
    ensures shape.Straight? || len > 0.0 ==> Turn(r) == -Turn(Outward(shape, len))
  {
    match shape
    case Straight => Backward(len)
    case Arc => Circle(-(len / 2.0), ArcExtent)
  }

  /** `n` passes of the leaf loop: a large and a small quarter arc each. */
  function Lobes(n: nat): seq<Cmd>
  {
    if n == 0 then []
    else Lobes(n - 1) + [Circle(LeafRadius as real, 90), Circle((LeafRadius / 2) as real, 90)]
  }

  /** `draw_leaf`: a filled two-lobe oval in the leaf colour, tilted 45
      degrees, after which the branch colour is restored. */
  function LeafCmds(c: Config): seq<Cmd>
  {
    [SetColor(c.leafColor), BeginFill, Left(45)] + Lobes(2) + [Right(45), EndFill, SetColor(c.branchColor)]
  }

  /** The leaf loop's `n` passes draw `2n` quarter arcs, alternately of
      radius 4 and of radius 2. */
  lemma {:induction false} LobesLayout(n: nat)
    ensures |Lobes(n)| == 2 * n
    ensures forall i :: 0 <= i < 2 * n ==> Lobes(n)[i] == if i % 2 == 0 then Circle(4.0, 90) else Circle(2.0, 90)
  {
    if n > 0 {
      LobesLayout(n - 1);
      var r := Lobes(n);
      assert r == Lobes(n - 1) + [Circle(4.0, 90), Circle(2.0, 90)];
      forall i | 0 <= i < 2 * n
        ensures r[i] == if i % 2 == 0 then Circle(4.0, 90) else Circle(2.0, 90)
      {
        if i < 2 * (n - 1) {
          assert r[i] == Lobes(n - 1)[i];
        }
      }
    }
  }

  /** The lobes of a leaf, drawn one arc at a time after `h`. */
  lemma LobesStep(h: seq<Cmd>, n: nat)
    ensures h + Lobes(n) + [Circle(LeafRadius as real, 90)] + [Circle((LeafRadius / 2) as real, 90)]
      == h + Lobes(n + 1)
  {
  }

  /** The commands of a leaf, drawn one call at a time after `h`. */
  lemma LeafTrace(h: seq<Cmd>, c: Config)
    ensures h + [SetColor(c.leafColor)] + [BeginFill] + [Left(45)] + Lobes(2) + [Right(45)] + [EndFill]
        + [SetColor(c.branchColor)]
      == h + LeafCmds(c)
  {
  }

  /** A fork's commands: body, right subtree, left subtree, retrace, with
      one angle `a` used for all three turns. */
  function ForkCmds(c: Config, shape: Shape, len: real, a: int, right: seq<Cmd>, left: seq<Cmd>): seq<Cmd>
  {
    [SetColor(c.branchColor), Outward(shape, len), Right(a)] + right + [Left(2 * a)] + left + [Right(a), Inward(shape, len)]
  }

  /** A fork issues six commands of its own around its subtrees: the
      branch colour, the body, `right(a)`, the right subtree, `left(2a)`, the
      left subtree, `right(a)` and the retrace; the one angle `a` sets all
      three turns. */
  lemma ForkLayout(c: Config, shape: Shape, len: real, a: int, right: seq<Cmd>, left: seq<Cmd>)
    ensures var r := ForkCmds(c, shape, len, a, right, left);
      && |r| == 6 + |right| + |left|
      && r[0] == SetColor(c.branchColor)
      && r[1] == Outward(shape, len) && r[|r| - 1] == Inward(shape, len)
      && r[2] == Right(a) && r[3 + |right|] == Left(2 * a) && r[|r| - 2] == Right(a)
      && r[3..3 + |right|] == right && r[4 + |right|..|r| - 2] == left
  {
  }

  /** The commands a call issues, in order. */
  function Cmds(c: Config, shape: Shape, t: Call): seq<Cmd>
    decreases t
  {
    match t
    case Halted => []
    case Leaf(_) => LeafCmds(c)
    case Fork(len, a, right, left) => ForkCmds(c, shape, len, a, Cmds(c, shape, right), Cmds(c, shape, left))
  }

  /** A call issues ten commands per leaf and six per fork, and nothing
      else. */
  lemma {:induction false} CmdsLength(c: Config, shape: Shape, t: Call)
    ensures |Cmds(c, shape, t)| == 10 * LeafCalls(t) + 6 * ForkCalls(t)
    decreases t
  {
    match t
    case Halted =>
    case Leaf(_) =>
      LeafShape(c);
    case Fork(len, a, right, left) =>
      CmdsLength(c, shape, right);
      CmdsLength(c, shape, left);
      ForkLayout(c, shape, len, a, Cmds(c, shape, right), Cmds(c, shape, left));
  }

  /**
   * `draw_branch(len, depth)` starting at draw `k` of `draws`.  The depth
   * guard stops the recursion whatever the length and decrement are, and it
   * is the only way a call draws nothing.
   */
  function Branch(c: Config, shape: Shape, len: real, depth: int, draws: nat -> real, pick: Picker, k: nat): (r: Growth)
    ensures k <= r.next
    ensures r.call.Halted? <==> depth > c.maxDepth
    decreases c.maxDepth + 1 - depth, 1
  {
    if depth > c.maxDepth then Growth(Halted, k)
    else if len <= c.minLength then Growth(Leaf(false), k)
    else if draws(k) < c.leafProbability then Growth(Leaf(true), k + 1)
    else Grow(c, shape, len, depth, draws, pick, k)
  }

  /**
   * The growing case of `draw_branch`: the angle is drawn by `randint` at
   * `k + 1` (draw `k` was the leaf test), and the two children of length
   * `len - lengthDecrement` at `depth + 1` follow, the second continuing
   * the draws where the first stopped.
   */
  function Grow(c: Config, shape: Shape, len: real, depth: int, draws: nat -> real, pick: Picker, k: nat): (r: Growth)
    requires depth <= c.maxDepth
    ensures r.call.Fork? && k + 2 <= r.next
    decreases c.maxDepth + 1 - depth, 0
  {
    var a := pick(c.angle - c.angleVariation, c.angle + c.angleVariation, draws(k + 1));
    var right := Branch(c, shape, len - c.lengthDecrement, depth + 1, draws, pick, k + 2);
    var left := Branch(c, shape, len - c.lengthDecrement, depth + 1, draws, pick, right.next);
    Growth(Fork(len, a, right.call, left.call), left.next)
  }

  /** Trunk scale of pass `i` (counting from 0): 1, then 0.05 less per
      pass. */
  function Scale(i: nat): real {
    if i == 0 then 1.0 else Scale(i - 1) - 0.05
  }

  /** The trunk of pass `i` of the driver loop: each pass takes a
      twentieth of the full trunk off the previous one. */
  function Trunk(c: Config, i: nat): real {
    if i == 0 then c.branchLength else Trunk(c, i - 1) - 0.05 * c.branchLength
  }

  /** The scale of pass `i` is `1 - 0.05 i`. */
  lemma {:induction false} ScaleValue(i: nat)
    ensures Scale(i) == 1.0 - 0.05 * i as real
  {
    if i > 0 {
      ScaleValue(i - 1);
    }
  }

  /** The trunk the loop computes, the full trunk `bl` times the scale
      `seg` of pass `n`, is `Trunk(c, n)`. */
  lemma {:induction false} TrunkScaled(c: Config, n: nat, bl: real, seg: real)
    requires bl == c.branchLength && seg == Scale(n)
    ensures bl * seg == Trunk(c, n)
  {
    if n > 0 {
      TrunkScaled(c, n - 1, bl, Scale(n - 1));
      assert bl * seg == bl * Scale(n - 1) - bl * 0.05;
    }
  }

  /** The trunk of pass `i` is the full trunk scaled by `1 - 0.05 i`. */
  lemma TrunkValue(c: Config, i: nat)
    ensures Trunk(c, i) == c.branchLength * (1.0 - 0.05 * i as real)
  {
    ScaleValue(i);
    TrunkScaled(c, i, c.branchLength, Scale(i));
  }

  /** The first `n` passes of the driver loop: one `draw_branch` at depth 0
      per pass, in order, each continuing the draws where the previous one
      stopped. */
  function Passes(c: Config, shape: Shape, n: nat, draws: nat -> real, pick: Picker, k: nat): (r: Drawing)
    ensures k <= r.next
  {
    if n == 0 then Drawing([], k)
    else
      var before := Passes(c, shape, n - 1, draws, pick, k);
      var pass := Branch(c, shape, Trunk(c, n - 1), 0, draws, pick, before.next);
      Drawing(before.cmds + Cmds(c, shape, pass.call), pass.next)
  }

  /** Calls that drew a leaf. */
  function LeafCalls(t: Call): nat {
    match t
    case Halted => 0
    case Leaf(_) => 1
    case Fork(_, _, right, left) => LeafCalls(right) + LeafCalls(left)
  }

  /** Calls that drew a leaf because the leaf test came up. */
  function EarlyLeaves(t: Call): nat {
    match t
    case Leaf(early) => if early then 1 else 0
    case Fork(_, _, right, left) => EarlyLeaves(right) + EarlyLeaves(left)
    case Halted => 0
  }

  /** Calls that drew a branch body. */
  function ForkCalls(t: Call): nat {
    match t
    case Fork(_, _, right, left) => 1 + ForkCalls(right) + ForkCalls(left)
    case _ => 0
  }

  /** Every branch body has a positive length (an arc of radius zero would
      turn the same way out and back). */
  ghost predicate Positive(t: Call) {
    match t
    case Fork(len, _, right, left) => len > 0.0 && Positive(right) && Positive(left)
    case _ => true
  }

  // ---------------------------------------------------------------------
  // Counting commands

  /** What is counted: leaves by their `begin_fill`, fills closed, and
      branch bodies by their outward stroke. */
  datatype Kind = FillStart | FillEnd | Segment(shape: Shape)

  predicate Matches(k: Kind, cmd: Cmd) {
    match k
    case FillStart => cmd.BeginFill?
    case FillEnd => cmd.EndFill?
    case Segment(Straight) => cmd.Forward?
    case Segment(Arc) => cmd.Circle? && cmd.extent == ArcExtent && cmd.radius > 0.0
  }

  function Count(cmds: seq<Cmd>, k: Kind): nat
    decreases |cmds|
  {
    if cmds == [] then 0 else (if Matches(k, cmds[0]) then 1 else 0) + Count(cmds[1..], k)
  }

  lemma {:induction false} CountAppend(a: seq<Cmd>, b: seq<Cmd>, k: Kind)
    ensures Count(a + b, k) == Count(a, k) + Count(b, k)
    decreases |a|
  {
    if a == [] {
      assert a + b == b;
    } else {
      assert (a + b)[0] == a[0];
      assert (a + b)[1..] == a[1..] + b;
      CountAppend(a[1..], b, k);
    }
  }

  function Leaves(cmds: seq<Cmd>): nat {
    Count(cmds, FillStart)
  }

  function Segments(shape: Shape, cmds: seq<Cmd>): nat {
    Count(cmds, Segment(shape))
  }

  function Hit(k: Kind, cmd: Cmd): nat {
    if Matches(k, cmd) then 1 else 0
  }

  /** Counting a run of one, two or three commands. */
  lemma CountOne(x: Cmd, k: Kind)
    ensures Count([x], k) == Hit(k, x)
  {
    assert [x][1..] == [];
  }

  lemma CountTwo(x: Cmd, y: Cmd, k: Kind)
    ensures Count([x, y], k) == Hit(k, x) + Hit(k, y)
  {
    assert [x, y][1..] == [y];
    CountOne(y, k);
  }

  lemma CountThree(x: Cmd, y: Cmd, z: Cmd, k: Kind)
    ensures Count([x, y, z], k) == Hit(k, x) + Hit(k, y) + Hit(k, z)
  {
    assert [x, y, z][1..] == [y, z];
    CountTwo(y, z, k);
  }

  /** The net turn of a run of one, two or three commands. */
  lemma NetTurnOne(x: Cmd)
    ensures NetTurn([x]) == Turn(x)
  {
    assert [x][1..] == [];
  }

  lemma NetTurnTwo(x: Cmd, y: Cmd)
    ensures NetTurn([x, y]) == Turn(x) + Turn(y)
  {
    assert [x, y][1..] == [y];
    NetTurnOne(y);
  }

  lemma NetTurnThree(x: Cmd, y: Cmd, z: Cmd)
    ensures NetTurn([x, y, z]) == Turn(x) + Turn(y) + Turn(z)
  {
    assert [x, y, z][1..] == [y, z];
    NetTurnTwo(y, z);
  }

  /** Replaying a run of one, two or three commands. */
  lemma ReplayOne(s: PenState, x: Cmd)
    ensures Replay(s, [x]) == Step(s, x)
  {
    assert [x][1..] == [];
  }

  lemma ReplayTwo(s: PenState, x: Cmd, y: Cmd)
    ensures Replay(s, [x, y]) == Step(Step(s, x), y)
  {
    assert [x, y][1..] == [y];
    ReplayOne(Step(s, x), y);
  }

  lemma ReplayThree(s: PenState, x: Cmd, y: Cmd, z: Cmd)
    ensures Replay(s, [x, y, z]) == Step(Step(Step(s, x), y), z)
  {
    assert [x, y, z][1..] == [y, z];
    ReplayTwo(Step(s, x), y, z);
  }

  // ---------------------------------------------------------------------
  // The leaf

  lemma LeafCount(c: Config, k: Kind)
    ensures Count(LeafCmds(c), k) == if k == FillStart || k == FillEnd then 1 else 0
  {
    var r := LeafCmds(c);
    var half := [Circle(4.0, 90), Circle(2.0, 90)];
    assert Lobes(1) == half;
    assert Lobes(2) == half + half;
    var head := [SetColor(c.leafColor), BeginFill, Left(45)];
    var tail := [Right(45), EndFill, SetColor(c.branchColor)];
    assert r == head + (half + half) + tail;
    CountAppend(head + (half + half), tail, k);
    CountAppend(head, half + half, k);
    CountAppend(half, half, k);
    CountTwo(half[0], half[1], k);
    CountThree(head[0], head[1], head[2], k);
    CountThree(tail[0], tail[1], tail[2], k);
  }

  /** A leaf opens and closes one fill, draws no branch body, and its turns
      add up to one full turn. */
  lemma LeafTally(c: Config)
    ensures var r := LeafCmds(c);
      && Leaves(r) == 1 && Count(r, FillEnd) == 1
      && Segments(Straight, r) == 0 && Segments(Arc, r) == 0
      && NetTurn(r) == 360
  {
    var lobes := [Circle(4.0, 90), Circle(2.0, 90), Circle(4.0, 90), Circle(2.0, 90)];
    var half := [Circle(4.0, 90), Circle(2.0, 90)];
    assert Lobes(1) == half;
    assert Lobes(2) == lobes == half + half;
    var head := [SetColor(c.leafColor), BeginFill, Left(45)];
    var tail := [Right(45), EndFill, SetColor(c.branchColor)];
    assert LeafCmds(c) == head + lobes + tail;
    LeafCount(c, FillStart);
    LeafCount(c, FillEnd);
    LeafCount(c, Segment(Straight));
    LeafCount(c, Segment(Arc));
    NetTurnAppend(head + lobes, tail);
    NetTurnAppend(head, lobes);
    NetTurnAppend(half, half);
    NetTurnTwo(half[0], half[1]);
    NetTurnThree(head[0], head[1], head[2]);
    NetTurnThree(tail[0], tail[1], tail[2]);
  }

  /** The leaf in order: tilt left 45 degrees inside a fill in the leaf
      colour, sweep four quarter arcs of radii 4, 2, 4, 2, tilt back right
      45 degrees, close the fill and return to the branch colour. */
  lemma LeafShape(c: Config)
    ensures var r := LeafCmds(c);
      && |r| == 10
      && r[0] == SetColor(c.leafColor) && r[1] == BeginFill && r[2] == Left(45)
      && r[3..7] == [Circle(4.0, 90), Circle(2.0, 90), Circle(4.0, 90), Circle(2.0, 90)]
      && r[7] == Right(45) && r[8] == EndFill && r[9] == SetColor(c.branchColor)
  {
    var lobes := [Circle(4.0, 90), Circle(2.0, 90), Circle(4.0, 90), Circle(2.0, 90)];
    assert Lobes(1) == [Circle(4.0, 90), Circle(2.0, 90)];
    assert Lobes(2) == lobes;
    var head := [SetColor(c.leafColor), BeginFill, Left(45)];
    var tail := [Right(45), EndFill, SetColor(c.branchColor)];
    assert LeafCmds(c) == head + lobes + tail;
  }

  /** Drawing a leaf restores the heading, leaves the straight-line position
      alone, closes its fill and ends in the branch colour. */
  lemma LeafReturns(c: Config, s: PenState)
    requires Wf(s)
    ensures var e := Replay(s, LeafCmds(c));
      e.heading == s.heading && e.offset == s.offset && e.color == c.branchColor && !e.filling
  {
    var r := LeafCmds(c);
    LeafTally(c);
    ReplayHeading(s, r);
    var head := r[..9];
    assert r == head + [r[9]];
    ReplayAppend(s, head, [r[9]]);
    assert head == r[..8] + [r[8]];
    ReplayAppend(s, r[..8], [r[8]]);
    OffsetKept(s, r);
  }

  /** Commands without `forward` or `backward` keep the straight-line
      position. */
  lemma {:induction false} OffsetKept(s: PenState, cmds: seq<Cmd>)
    requires forall i :: 0 <= i < |cmds| ==> !cmds[i].Forward? && !cmds[i].Backward?
    ensures Replay(s, cmds).offset == s.offset
    decreases |cmds|
  {
    if cmds != [] {
      OffsetKept(Step(s, cmds[0]), cmds[1..]);
    }
  }

  // ---------------------------------------------------------------------
  // The commands of a call tree

  lemma ForkKinds(c: Config, shape: Shape, len: real, a: int, right: seq<Cmd>, left: seq<Cmd>, k: Kind)
    requires shape.Arc? ==> len > 0.0
    ensures Count(ForkCmds(c, shape, len, a, right, left), k)
      == Count(right, k) + Count(left, k) + if k == Segment(shape) then 1 else 0
  {
    var pre := [SetColor(c.branchColor), Outward(shape, len), Right(a)];
    var mid := [Left(2 * a)];
    var post := [Right(a), Inward(shape, len)];
    CountAppend(pre + right + mid + left, post, k);
    CountAppend(pre + right + mid, left, k);
    CountAppend(pre + right, mid, k);
    CountAppend(pre, right, k);
    CountThree(pre[0], pre[1], pre[2], k);
    CountTwo(post[0], post[1], k);
    CountOne(mid[0], k);
  }

  /** The fixed parts of a fork: one branch body and no leaf, and turns that
      cancel (the arc out and the arc back turn by opposite amounts when
      the length is positive). */
  lemma ForkTallies(c: Config, shape: Shape, len: real, a: int, right: seq<Cmd>, left: seq<Cmd>)
    requires shape.Arc? ==> len > 0.0
    ensures var f := ForkCmds(c, shape, len, a, right, left);
      && Segments(shape, f) == 1 + Segments(shape, right) + Segments(shape, left)
      && Leaves(f) == Leaves(right) + Leaves(left)
      && Count(f, FillEnd) == Count(right, FillEnd) + Count(left, FillEnd)
      && NetTurn(f) == NetTurn(right) + NetTurn(left)
  {
    var pre := [SetColor(c.branchColor), Outward(shape, len), Right(a)];
    var mid := [Left(2 * a)];
    var post := [Right(a), Inward(shape, len)];
    ForkKinds(c, shape, len, a, right, left, FillStart);
    ForkKinds(c, shape, len, a, right, left, FillEnd);
    ForkKinds(c, shape, len, a, right, left, Segment(shape));
    NetTurnAppend(pre + right + mid + left, post);
    NetTurnAppend(pre + right + mid, left);
    NetTurnAppend(pre + right, mid);
    NetTurnAppend(pre, right);
    NetTurnThree(pre[0], pre[1], pre[2]);
    NetTurnTwo(post[0], post[1]);
    NetTurnOne(mid[0]);
  }

  /** A call's commands hold one `begin_fill` and one `end_fill` per leaf,
      one branch body per fork, and turn by one full turn per leaf: a leaf
      turns 360 degrees and everything else cancels. */
  lemma {:induction false} CmdsTally(c: Config, shape: Shape, t: Call)
    requires shape.Arc? ==> Positive(t)
    ensures var r := Cmds(c, shape, t);
      && Leaves(r) == LeafCalls(t) && Count(r, FillEnd) == LeafCalls(t)
      && Segments(shape, r) == ForkCalls(t)
      && NetTurn(r) == 360 * LeafCalls(t)
    decreases t
  {
    match t
    case Halted =>
    case Leaf(_) =>
      LeafTally(c);
    case Fork(len, a, right, left) =>
      CmdsTally(c, shape, right);
      CmdsTally(c, shape, left);
      ForkTallies(c, shape, len, a, Cmds(c, shape, right), Cmds(c, shape, left));
  }

  /** Replaying a fork piece by piece. */
  lemma ReplayFork(s: PenState, c: Config, shape: Shape, len: real, a: int, right: seq<Cmd>, left: seq<Cmd>)
    ensures var s1 := Step(Step(Step(s, SetColor(c.branchColor)), Outward(shape, len)), Right(a));
      var s2 := Replay(s1, right);
      var s3 := Step(s2, Left(2 * a));
      var s4 := Replay(s3, left);
      Replay(s, ForkCmds(c, shape, len, a, right, left)) == Step(Step(s4, Right(a)), Inward(shape, len))
  {
    var pre := [SetColor(c.branchColor), Outward(shape, len), Right(a)];
    var mid := [Left(2 * a)];
    var post := [Right(a), Inward(shape, len)];
    ReplayAppend(s, pre + right + mid + left, post);
    ReplayAppend(s, pre + right + mid, left);
    ReplayAppend(s, pre + right, mid);
    ReplayAppend(s, pre, right);
    ReplayThree(s, pre[0], pre[1], pre[2]);
    var s2 := Replay(Replay(s, pre), right);
    ReplayOne(s2, mid[0]);
    var s4 := Replay(Replay(s2, mid), left);
    ReplayTwo(s4, post[0], post[1]);
  }

  /** The pen went from `s` back to `e`: the same heading and, for straight
      branches, the same position; the colour is either kept or the branch
      colour, and no fill is open that was not open before. */
  ghost predicate Returned(c: Config, shape: Shape, s: PenState, e: PenState) {
    && e.heading == s.heading
    && (shape.Straight? ==> e.offset == s.offset)
    && (e.color == s.color || e.color == c.branchColor)
    && (e.filling ==> s.filling)
  }

  /** Replaying any call tree puts the pen back: same heading and, for
      straight branches, same position; a call that did anything ends in
      the branch colour; no fill is left open. */
  lemma {:induction false} CallReturns(c: Config, shape: Shape, t: Call, s: PenState)
    requires Wf(s)
    requires shape.Arc? ==> Positive(t)
    ensures var e := Replay(s, Cmds(c, shape, t));
      && Returned(c, shape, s, e)
      && (!t.Halted? ==> e.color == c.branchColor)
    decreases t
  {
    match t
    case Halted =>
    case Leaf(_) =>
      LeafReturns(c, s);
    case Fork(len, a, right, left) =>
      var rc := Cmds(c, shape, right);
      var lc := Cmds(c, shape, left);
      ReplayFork(s, c, shape, len, a, rc, lc);
      var s1 := Step(Step(Step(s, SetColor(c.branchColor)), Outward(shape, len)), Right(a));
      CallReturns(c, shape, right, s1);
      var s2 := Replay(s1, rc);
      var s3 := Step(s2, Left(2 * a));
      CallReturns(c, shape, left, s3);
      ForkRestores(s, c, shape, len, a, s2, Replay(s3, lc));
  }

  /** The inductive step of `BranchReturns`: the fork's prefix sets the
      branch colour, steps out and turns right by the angle; when the right
      subtree takes the pen from there to `s2`, and the left subtree takes
      it from `s2` turned left by twice the angle to `s4`, turning right by
      the angle and retracing the step from `s4` returns to `s` in the
      branch colour. */
  lemma ForkRestores(s: PenState, c: Config, shape: Shape, len: real, a: int, s2: PenState, s4: PenState)
    requires Wf(s) && Wf(s2) && Wf(s4)
    requires shape.Arc? ==> len > 0.0
    requires Returned(c, shape, Step(Step(Step(s, SetColor(c.branchColor)), Outward(shape, len)), Right(a)), s2)
    requires Returned(c, shape, Step(s2, Left(2 * a)), s4)
    ensures var e := Step(Step(s4, Right(a)), Inward(shape, len));
      Returned(c, shape, s, e) && e.color == c.branchColor
  {
    var t := Turn(Outward(shape, len));
    assert Turn(Inward(shape, len)) == -t;
    var s0 := Step(s, SetColor(c.branchColor));
    var o := Step(s0, Outward(shape, len));
    assert o.heading == (s.heading + t) % 360;
    var s1 := Step(o, Right(a));
    assert s1.heading == ((s.heading + t) % 360 - a) % 360;
    var s3 := Step(s2, Left(2 * a));
    assert s3.heading == (s1.heading + 2 * a) % 360;
    var s5 := Step(s4, Right(a));
    assert s5.heading == (s3.heading - a) % 360;
    var e := Step(s5, Inward(shape, len));
    assert e.heading == (s5.heading - t) % 360;
    TurnsCancel(s.heading, t, a);
    if shape.Straight? {
      MoveCancels(s.offset, s.heading, len);
    }
  }

  /** Turning by `t`, right by `a`, left by `2a`, right by `a` and back by
      `t` again, each reduced modulo 360, is no turn at all. */
  lemma TurnsCancel(h: int, t: int, a: int)
    requires 0 <= h < 360
    ensures ((((h + t) % 360 - a) % 360 + 2 * a) % 360 - a) % 360 == (h + t) % 360
    ensures (((((h + t) % 360 - a) % 360 + 2 * a) % 360 - a) % 360 - t) % 360 == h
  {
    ModAdd(h + t, -a);
    ModAdd(h + t - a, 2 * a);
    ModAdd(h + t + a, -a);
    ModAdd(h + t, -t);
  }

  // ---------------------------------------------------------------------
  // One call of draw_branch

  /** A call that grows draws `random()` at `k`, then `randint` at `k + 1`
      for the one angle of the fork; both children get length
      `len - lengthDecrement` at `depth + 1`, the second continuing the
      draws where the first stopped. */
  lemma ForkShape(c: Config, shape: Shape, len: real, depth: int, draws: nat -> real, pick: Picker, k: nat,
                  lo: int, hi: int, k1: nat, a: int, shorter: real, k2: nat, right: Growth, left: Growth)
    requires depth <= c.maxDepth && len > c.minLength && draws(k) >= c.leafProbability
    requires lo == c.angle - c.angleVariation && hi == c.angle + c.angleVariation && k1 == k + 1
    requires a == pick(lo, hi, draws(k1))
    requires shorter == len - c.lengthDecrement && k2 == k + 2
    requires right == Branch(c, shape, shorter, depth + 1, draws, pick, k2)
    requires left == Branch(c, shape, shorter, depth + 1, draws, pick, right.next)
    ensures Branch(c, shape, len, depth, draws, pick, k) == Growth(Fork(len, a, right.call, left.call), left.next)
  {
  }

  /** A call that grows is a fork whose subtrees are the two recursive
      calls, the first starting after the two draws of the fork and the
      second where the first stopped. */
  lemma ForkParts(c: Config, shape: Shape, len: real, depth: int, draws: nat -> real, pick: Picker, k: nat)
    requires depth <= c.maxDepth && len > c.minLength && draws(k) >= c.leafProbability
    ensures var r := Branch(c, shape, len, depth, draws, pick, k);
      var right := Branch(c, shape, len - c.lengthDecrement, depth + 1, draws, pick, k + 2);
      var left := Branch(c, shape, len - c.lengthDecrement, depth + 1, draws, pick, right.next);
      && r.call.Fork? && r.call.len == len
      && r.call.right == right.call && r.call.left == left.call && r.next == left.next
  {
  }

  /** The commands of a fork, issued one call at a time after `h`: `out`
      and `back` are the calls that draw and retrace the body, `h3` is what
      has been issued once both subtrees are drawn, `h4` after the turn
      back and `tr` after the retrace. */
  lemma ForkTrace(h: seq<Cmd>, c: Config, shape: Shape, len: real, a: int, out: Cmd, back: Cmd, right: Call, left: Call,
                  h3: seq<Cmd>, h4: seq<Cmd>, tr: seq<Cmd>)
    requires out == Outward(shape, len) && back == Inward(shape, len)
    requires h3 == h + [SetColor(c.branchColor)] + [out] + [Right(a)] + Cmds(c, shape, right)
      + [Left(2 * a)] + Cmds(c, shape, left)
    requires h4 == h3 + [Right(a)] && tr == h4 + [back]
    ensures tr == h + Cmds(c, shape, Fork(len, a, right, left))
  {
  }

  /** With a non-negative `minLength` every branch body drawn is longer than
      zero, since only lengths above `minLength` grow. */
  lemma {:induction false} BranchPositive(c: Config, shape: Shape, len: real, depth: int, draws: nat -> real, pick: Picker, k: nat)
    requires c.minLength >= 0.0
    ensures Positive(Branch(c, shape, len, depth, draws, pick, k).call)
    decreases c.maxDepth + 1 - depth
  {
    if depth <= c.maxDepth && len > c.minLength && draws(k) >= c.leafProbability {
      var right := Branch(c, shape, len - c.lengthDecrement, depth + 1, draws, pick, k + 2);
      BranchPositive(c, shape, len - c.lengthDecrement, depth + 1, draws, pick, k + 2);
      BranchPositive(c, shape, len - c.lengthDecrement, depth + 1, draws, pick, right.next);
    }
  }

  /** Every fork of `t` is a body of length `len` (the length drops by
      `dec` per level down) longer than `minLength`, turned by an angle in
      the range [lo, hi]. */
  predicate Shaped(t: Call, len: real, dec: real, minLength: real, lo: int, hi: int) {
    match t
    case Fork(l, a, right, left) =>
      && l == len && l > minLength && lo <= a <= hi
      && Shaped(right, len - dec, dec, minLength, lo, hi)
      && Shaped(left, len - dec, dec, minLength, lo, hi)
    case _ => true
  }

  /** A call that grows has a body longer than `minLength`, its children
      are `lengthDecrement` shorter, and, when `randint` keeps to its range
      and the range is not empty, every angle drawn lies within
      `angleVariation` of `angle`. */
  lemma {:induction false} BranchShaped(c: Config, shape: Shape, len: real, depth: int, draws: nat -> real, pick: Picker, k: nat)
    requires Uniform(draws) && InRange(pick) && c.angleVariation >= 0
    ensures Shaped(Branch(c, shape, len, depth, draws, pick, k).call, len, c.lengthDecrement, c.minLength,
      c.angle - c.angleVariation, c.angle + c.angleVariation)
    decreases c.maxDepth + 1 - depth
  {
    if depth <= c.maxDepth && len > c.minLength && draws(k) >= c.leafProbability {
      var right := Branch(c, shape, len - c.lengthDecrement, depth + 1, draws, pick, k + 2);
      ForkParts(c, shape, len, depth, draws, pick, k);
      assert 0.0 <= draws(k + 1) < 1.0;
      BranchShaped(c, shape, len - c.lengthDecrement, depth + 1, draws, pick, k + 2);
      BranchShaped(c, shape, len - c.lengthDecrement, depth + 1, draws, pick, right.next);
    }
  }

  /** Levels of forks above the deepest leaf or halted call. */
  function Height(t: Call): nat {
    match t
    case Fork(_, _, right, left) =>
      1 + (if Height(right) < Height(left) then Height(left) else Height(right))
    case _ => 0
  }

  /** The depth guard bounds the recursion whatever the lengths: a call at
      `depth` forks on at most `maxDepth + 1 - depth` levels. */
  lemma {:induction false} BranchHeight(c: Config, shape: Shape, len: real, depth: int, draws: nat -> real, pick: Picker, k: nat)
    ensures var r := Branch(c, shape, len, depth, draws, pick, k);
      Height(r.call) <= if depth > c.maxDepth then 0 else c.maxDepth + 1 - depth
    decreases c.maxDepth + 1 - depth
  {
    if depth <= c.maxDepth && len > c.minLength && draws(k) >= c.leafProbability {
      var r := Branch(c, shape, len, depth, draws, pick, k);
      var right := Branch(c, shape, len - c.lengthDecrement, depth + 1, draws, pick, k + 2);
      var left := Branch(c, shape, len - c.lengthDecrement, depth + 1, draws, pick, right.next);
      var levels := c.maxDepth + 1 - depth;
      ForkParts(c, shape, len, depth, draws, pick, k);
      BranchHeight(c, shape, len - c.lengthDecrement, depth + 1, draws, pick, k + 2);
      BranchHeight(c, shape, len - c.lengthDecrement, depth + 1, draws, pick, right.next);
      HeightFork(levels, r.call, right.call, left.call);
    }
  }

  /** The inductive step of `BranchHeight`: a fork is one level above the
      taller of its subtrees. */
  lemma HeightFork(levels: int, t: Call, right: Call, left: Call)
    requires t.Fork? && t.right == right && t.left == left
    requires Height(right) <= levels - 1 && Height(left) <= levels - 1
    ensures Height(t) <= levels
  {
  }

  /** The inductive step of `DrawsTaken`: a fork takes its own two draws
      and then those of its subtrees, in order. */
  lemma DrawsFork(k: nat, r: Growth, right: Growth, left: Growth)
    requires r.call.Fork? && r.call.right == right.call && r.call.left == left.call && r.next == left.next
    requires right.next == k + 2 + 2 * ForkCalls(right.call) + EarlyLeaves(right.call)
    requires left.next == right.next + 2 * ForkCalls(left.call) + EarlyLeaves(left.call)
    ensures r.next == k + 2 * ForkCalls(r.call) + EarlyLeaves(r.call)
  {
  }

  /** Random draws consumed by a call: two for every fork (the leaf test and
      the angle) and one for every early leaf (the leaf test that came up);
      a leaf drawn because the branch was short, and a call stopped by the
      depth guard, take none. */
  lemma {:induction false} DrawsTaken(c: Config, shape: Shape, len: real, depth: int, draws: nat -> real, pick: Picker, k: nat)
    ensures var r := Branch(c, shape, len, depth, draws, pick, k);
      r.next == k + 2 * ForkCalls(r.call) + EarlyLeaves(r.call)
    decreases c.maxDepth + 1 - depth
  {
    if depth <= c.maxDepth && len > c.minLength && draws(k) >= c.leafProbability {
      var r := Branch(c, shape, len, depth, draws, pick, k);
      var right := Branch(c, shape, len - c.lengthDecrement, depth + 1, draws, pick, k + 2);
      var left := Branch(c, shape, len - c.lengthDecrement, depth + 1, draws, pick, right.next);
      ForkParts(c, shape, len, depth, draws, pick, k);
      DrawsTaken(c, shape, len - c.lengthDecrement, depth + 1, draws, pick, k + 2);
      DrawsTaken(c, shape, len - c.lengthDecrement, depth + 1, draws, pick, right.next);
      DrawsFork(k, r, right, left);
    }
  }

  /** The two ways a call ends in a leaf: a branch no longer than
      `minLength` draws its leaf without touching the generator; a longer one
      whose leaf test comes up below `leafProbability` draws it after that
      one `random()` and takes no `randint`. */
  lemma BranchLeaves(c: Config, shape: Shape, len: real, depth: int, draws: nat -> real, pick: Picker, k: nat)
    ensures var r := Branch(c, shape, len, depth, draws, pick, k);
      && (r.call == Leaf(false) <==> depth <= c.maxDepth && len <= c.minLength)
      && (r.call == Leaf(true) <==> depth <= c.maxDepth && len > c.minLength && draws(k) < c.leafProbability)
      && (r.call == Leaf(false) ==> r.next == k)
      && (r.call == Leaf(true) ==> r.next == k + 1)
  {
  }

  /**
   * A call puts the pen back where it found it: same heading and, for
   * straight branches, same position.  Unless the depth guard stopped it
   * (and then it issues nothing), it leaves the branch colour set, and it
   * never leaves a fill open.
   */
  lemma BranchReturns(c: Config, shape: Shape, len: real, depth: int, draws: nat -> real, pick: Picker, k: nat, s: PenState)
    requires Wf(s)
    requires shape.Arc? ==> c.minLength >= 0.0
    ensures var cmds := Cmds(c, shape, Branch(c, shape, len, depth, draws, pick, k).call);
      && Returned(c, shape, s, Replay(s, cmds))
      && (depth <= c.maxDepth ==> Replay(s, cmds).color == c.branchColor)
      && (depth > c.maxDepth ==> cmds == [])
  {
    var t := Branch(c, shape, len, depth, draws, pick, k).call;
    if shape.Arc? {
      BranchPositive(c, shape, len, depth, draws, pick, k);
    }
    CallReturns(c, shape, t, s);
  }

  /** A branch of length `len` stays above `minLength` for exactly `n`
      levels when each level takes `decrement` off. */
  ghost predicate GrowsFor(len: real, decrement: real, minLength: real, n: nat)
    decreases n
  {
    if n == 0 then len <= minLength
    else minLength < len && GrowsFor(len - decrement, decrement, minLength, n - 1)
  }

  function Pow2(n: nat): nat {
    if n == 0 then 1 else 2 * Pow2(n - 1)
  }

  /**
   * With the leaf test switched off (`leafProbability <= 0`), a call whose
   * length stays above `minLength` for exactly `n` levels and whose depth
   * guard is never reached grows a full binary tree: 2^n leaves, 2^n - 1
   * forks, and two draws per fork.
   */
  lemma {:induction false} FullTree(c: Config, shape: Shape, len: real, depth: int, draws: nat -> real, pick: Picker, k: nat, n: nat)
    requires Uniform(draws) && c.leafProbability <= 0.0
    requires depth + n <= c.maxDepth
    requires GrowsFor(len, c.lengthDecrement, c.minLength, n)
    ensures var r := Branch(c, shape, len, depth, draws, pick, k);
      && LeafCalls(r.call) == Pow2(n)
      && ForkCalls(r.call) == Pow2(n) - 1
      && r.next == k + 2 * (Pow2(n) - 1)
    decreases n
  {
    if n > 0 {
      assert draws(k) >= c.leafProbability;
      var right := Branch(c, shape, len - c.lengthDecrement, depth + 1, draws, pick, k + 2);
      ForkParts(c, shape, len, depth, draws, pick, k);
      FullTree(c, shape, len - c.lengthDecrement, depth + 1, draws, pick, k + 2, n - 1);
      FullTree(c, shape, len - c.lengthDecrement, depth + 1, draws, pick, right.next, n - 1);
    }
  }

  // ---------------------------------------------------------------------
  // The driver loop

  /** One more pass of the driver loop, drawn with trunk `Trunk(c, n)`,
      appends that pass's drawing and continues the draws where it
      stopped. */
  lemma PassesStep(h: seq<Cmd>, c: Config, shape: Shape, n: nat, draws: nat -> real, pick: Picker, k: nat,
                   before: Drawing, len: real, k1: nat, pass: Growth)
    requires before == Passes(c, shape, n, draws, pick, k) && k1 == before.next
    requires len == Trunk(c, n)
    requires pass == Branch(c, shape, len, 0, draws, pick, k1)
    ensures Passes(c, shape, n + 1, draws, pick, k) == Drawing(before.cmds + Cmds(c, shape, pass.call), pass.next)
    ensures h + Passes(c, shape, n + 1, draws, pick, k).cmds == h + before.cmds + Cmds(c, shape, pass.call)
  {
  }

  /** After any number of passes the pen is back at its heading and, for
      straight branches, its position; the colour is the branch colour once
      a pass has run at a depth the guard admits; no fill is left open. */
  lemma {:induction false} PassesReturn(c: Config, shape: Shape, n: nat, draws: nat -> real, pick: Picker, k: nat, s: PenState)
    requires Wf(s)
    requires shape.Arc? ==> c.minLength >= 0.0
    ensures var e := Replay(s, Passes(c, shape, n, draws, pick, k).cmds);
      && Returned(c, shape, s, e)
      && (n > 0 && 0 <= c.maxDepth ==> e.color == c.branchColor)
  {
    if n > 0 {
      var before := Passes(c, shape, n - 1, draws, pick, k);
      var pass := Branch(c, shape, Trunk(c, n - 1), 0, draws, pick, before.next);
      var pc := Cmds(c, shape, pass.call);
      assert Passes(c, shape, n, draws, pick, k) == Drawing(before.cmds + pc, pass.next);
      PassesReturn(c, shape, n - 1, draws, pick, k, s);
      ReplayAppend(s, before.cmds, pc);
      BranchReturns(c, shape, Trunk(c, n - 1), 0, draws, pick, before.next, Replay(s, before.cmds));
    } else {
      assert Passes(c, shape, n, draws, pick, k).cmds == [];
    }
  }

  /** The same, for passes drawn after the commands `h`: `s` is the pen
      before the passes and `e` after them. */
  lemma PassesReturnAfter(c: Config, shape: Shape, n: nat, draws: nat -> real, pick: Picker, k: nat,
                          start: PenState, h: seq<Cmd>, cmds: seq<Cmd>, s: PenState, e: PenState)
    requires Wf(start)
    requires shape.Arc? ==> c.minLength >= 0.0
    requires cmds == Passes(c, shape, n, draws, pick, k).cmds
    requires s == Replay(start, h) && e == Replay(start, h + cmds)
    ensures Returned(c, shape, s, e)
    ensures n > 0 && 0 <= c.maxDepth ==> e.color == c.branchColor
  {
    ReplayAppend(start, h, cmds);
    PassesReturn(c, shape, n, draws, pick, k, s);
  }

}
