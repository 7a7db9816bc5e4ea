/**
 * The arc-branch tree script: its settings are the fields of a `TreeDrawer`,
 * and a branch body is a 60-degree arc of radius half the branch length,
 * retraced by an arc of the opposite radius.  The settings are set once,
 * by the constructor, and only read afterwards: they are constant fields,
 * and the drawing methods modify only the pen and the generator.
 */
module FractalTreeOrganic {
  import opened Turtle
  import opened Randomness
  import opened Branching

  class TreeDrawer {
    const branchLength: real
    const lengthDecrement: real
    const minLength: real
    const angle: int
    const angleVariation: int
    /** Probability that a long enough branch ends in a leaf anyway. */
    const leafProbability: real
    /** Recursion limit, independent of the lengths. */
    const maxDepth: int
    const backgroundColor: Color
    const branchColor: Color
    const leafColor: Color
    /** Drawing speed handed to the turtle; 0 is the fastest. */
    const turtleSpeed: int

    /** The current settings, as the shared specification reads them. */
    function Cfg(): Config {
      Config(branchLength, lengthDecrement, minLength, angle, angleVariation,
        leafProbability, maxDepth, backgroundColor, branchColor, leafColor)
    }

    /** `TreeDrawer()` with its default settings. */
    constructor ()
      ensures branchLength == 100.0 && lengthDecrement == 10.0 && minLength == 20.0
      ensures angle == 15 && angleVariation == 20
      ensures leafProbability == 0.15 && maxDepth == 300
      ensures backgroundColor == "white" && branchColor == "brown" && leafColor == "green"
      ensures turtleSpeed == 0
    {
      branchLength := 100.0;
      lengthDecrement := 10.0;
      minLength := 20.0;
      angle := 15;
      angleVariation := 20;
      leafProbability := 0.15;
      maxDepth := 300;
      backgroundColor := "white";
      branchColor := "brown";
      leafColor := "green";
      turtleSpeed := 0;
    }

    /** `draw_leaf(t)` */
    method DrawLeaf(t: Pen)
      requires t.Valid()
      modifies t
      ensures t.Valid() && t.start == old(t.start)
      ensures t.trace == old(t.trace) + LeafCmds(Cfg())
    {
      t.SetColor(leafColor);
      t.BeginFill();
      t.Left(45);
      for i := 0 to 2
        invariant t.Valid() && t.start == old(t.start)
        invariant t.trace == old(t.trace) + [SetColor(Cfg().leafColor)] + [BeginFill] + [Left(45)] + Lobes(i)
      {
        t.Circle(4 as real, 90);
        t.Circle((4 / 2) as real, 90);
        LobesStep(old(t.trace) + [SetColor(Cfg().leafColor)] + [BeginFill] + [Left(45)], i);
      }
      t.Right(45);
      t.EndFill();
      t.SetColor(branchColor);
      LeafTrace(old(t.trace), Cfg());
    }

    /** `draw_branch(branch_length, depth, t)`, drawing from `rng`.  The
        library's `randint` rejects an empty range, so the angle range must
        not be empty. */
    method DrawBranch(len: real, depth: int, t: Pen, rng: Rng) returns (ghost g: Growth)
      requires t.Valid() && rng.Valid() && angleVariation >= 0
      modifies t, rng
      ensures g == Branch(Cfg(), Arc, len, depth, rng.draws, rng.pick, old(rng.used))
      ensures t.Valid() && t.start == old(t.start)
      ensures t.trace == old(t.trace) + Cmds(Cfg(), Arc, g.call) && rng.used == g.next
      decreases maxDepth + 1 - depth
    {
      ghost var k := rng.used;
      if depth > maxDepth {
        g := Growth(Halted, k);
        return;
      }
      if len > minLength {
        var u := rng.Random();
        if u < leafProbability {
          DrawLeaf(t);
          g := Growth(Leaf(true), k + 1);
          return;
        }
        ghost var h := t.trace;
        t.SetColor(branchColor);
        var arcRadius := len / 2.0;
        var arcExtent := 60;
        t.Circle(arcRadius, arcExtent);
        ghost var k1 := rng.used;
        var lo, hi := angle - angleVariation, angle + angleVariation;
        var a := rng.RandInt(lo, hi);
        t.Right(a);
        ghost var h1 := h + [SetColor(Cfg().branchColor)] + [Circle(arcRadius, arcExtent)] + [Right(a)];
        assert t.trace == h1 && rng.used == k + 2;
        var shorter := len - lengthDecrement;
        ghost var k2 := rng.used;
        ghost var right := DrawBranch(shorter, depth + 1, t, rng);
        t.Left(2 * a);
        ghost var h2 := h1 + Cmds(Cfg(), Arc, right.call) + [Left(2 * a)];
        assert t.trace == h2 && rng.used == right.next;
        ghost var left := DrawBranch(shorter, depth + 1, t, rng);
        ghost var h3 := t.trace;
        t.Right(a);
        ghost var h4 := t.trace;
        var retrace := -arcRadius;
        ghost var back := Circle(retrace, arcExtent);
        t.Circle(retrace, arcExtent);
        assert t.trace == h4 + [back];
        ForkTrace(h, Cfg(), Arc, len, a, Circle(arcRadius, arcExtent), back,
          right.call, left.call, h3, h4, t.trace);
        ForkShape(Cfg(), Arc, len, depth, rng.draws, rng.pick, k, lo, hi, k1, a, shorter, k2, right, left);
        g := Growth(Fork(len, a, right.call, left.call), left.next);
      } else {
        DrawLeaf(t);
        g := Growth(Leaf(false), k);
      }
    }

    /** The drawing loop of `draw_tree`, on the pen `setup_turtle` made:
        five passes at depth 0, the trunk scaled down by 0.05 after each. */
    method DrawTree(t: Pen, rng: Rng)
      requires t.Valid() && rng.Valid() && angleVariation >= 0
      modifies t, rng
      ensures t.Valid() && t.start == old(t.start)
      ensures var d := Passes(Cfg(), Arc, 5, rng.draws, rng.pick, old(rng.used));
        t.trace == old(t.trace) + d.cmds && rng.used == d.next
    {
      var subtreeSegment: real := 1.0;
      ghost var d := Drawing([], rng.used);
      for subtrees := 1 to 6
        invariant t.Valid() && t.start == old(t.start)
        invariant subtreeSegment == Scale(subtrees - 1)
        invariant d == Passes(Cfg(), Arc, subtrees - 1, rng.draws, rng.pick, old(rng.used))
        invariant t.trace == old(t.trace) + d.cmds && rng.used == d.next
      {
        ghost var k1 := rng.used;
        var trunk := branchLength * subtreeSegment;
        ghost var pass := DrawBranch(trunk, 0, t, rng);
        TrunkScaled(Cfg(), subtrees - 1, branchLength, subtreeSegment);
        ghost var n := subtrees - 1;
        PassesStep(old(t.trace), Cfg(), Arc, n, rng.draws, rng.pick, old(rng.used), d, trunk, k1, pass);
        d := Drawing(d.cmds + Cmds(Cfg(), Arc, pass.call), pass.next);
        subtreeSegment := subtreeSegment - 0.05;
      }
    }
  }
}
