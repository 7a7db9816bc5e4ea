/**
 * The straight-branch tree script: its settings are module constants, and
 * `draw_leaf`, `draw_branch` and the drawing loop of `main` drive one pen
 * with the draws of one generator.  Each method is proved to issue exactly
 * the commands, and take exactly the draws, that Branching specifies for
 * straight branches.
 */
module FractalTree {
  import opened Turtle
  import opened Randomness
  import opened Branching

  const BranchLength: real := 100.0
  const LengthDecrement: real := 10.0
  const MinLength: real := 20.0
  const Angle: int := 15

  const BackgroundColor: Color := "white"
  const BranchColor: Color := "brown"
  const LeafColor: Color := "green"
  /** Drawing speed handed to the turtle; 0 is the fastest. */
  const TurtleSpeed: int := 0

  /** Probability that a long enough branch ends in a leaf anyway. */
  const LeafProbability: real := 0.15
  const AngleVariation: int := 20
  const MinAngle: int := Angle - AngleVariation
  const MaxAngle: int := Angle + AngleVariation
  /** Recursion limit, independent of the lengths. */
  const MaxDepth: int := 300

  /** The constants above, as the settings the shared specification reads. */
  const Settings: Config := Config(
    BranchLength, LengthDecrement, MinLength, Angle, AngleVariation,
    LeafProbability, MaxDepth, BackgroundColor, BranchColor, LeafColor)

  /** The configuration block: a 100-unit trunk shortened by 10 per level
      down to leaves at 20, angles drawn from -5 to 35 around 15, a 15%
      leaf chance, 300 levels at most, and white, brown and green. */
  lemma SettingsValues()
    ensures Settings == Config(100.0, 10.0, 20.0, 15, 20, 0.15, 300, "white", "brown", "green")
    ensures MinAngle == -5 && MaxAngle == 35 && TurtleSpeed == 0
  {
  }

  /** `draw_leaf(t)` */
  method DrawLeaf(t: Pen)
    requires t.Valid()
    modifies t
    ensures t.Valid() && t.start == old(t.start)
    ensures t.trace == old(t.trace) + LeafCmds(Settings)
  {
    t.SetColor(LeafColor);
    t.BeginFill();
    t.Left(45);
    for i := 0 to 2
      invariant t.Valid() && t.start == old(t.start)
      invariant t.trace == old(t.trace) + [SetColor(LeafColor)] + [BeginFill] + [Left(45)] + Lobes(i)
    {
      t.Circle(4 as real, 90);
      t.Circle((4 / 2) as real, 90);
      LobesStep(old(t.trace) + [SetColor(LeafColor)] + [BeginFill] + [Left(45)], i);
    }
    t.Right(45);
    t.EndFill();
    t.SetColor(BranchColor);
    LeafTrace(old(t.trace), Settings);
  }

  /** `draw_branch(branch_length, depth, t)`, drawing from `rng`. */
  method DrawBranch(branchLength: real, depth: int, t: Pen, rng: Rng) returns (ghost g: Growth)
    requires t.Valid() && rng.Valid()
    modifies t, rng
    ensures g == Branch(Settings, Straight, branchLength, depth, rng.draws, rng.pick, old(rng.used))
    ensures t.Valid() && t.start == old(t.start)
    ensures t.trace == old(t.trace) + Cmds(Settings, Straight, g.call) && rng.used == g.next
    decreases MaxDepth + 1 - depth
  {
    ghost var k := rng.used;
    if depth > MaxDepth {
      g := Growth(Halted, k);
      return;
    }
    if branchLength > MinLength {
      var u := rng.Random();
      if u < LeafProbability {
        DrawLeaf(t);
        g := Growth(Leaf(true), k + 1);
        return;
      }
      ghost var h := t.trace;
      t.SetColor(BranchColor);
      t.Forward(branchLength);
      ghost var k1 := rng.used;
      var angle := rng.RandInt(MinAngle, MaxAngle);
      t.Right(angle);
      ghost var h1 := h + [SetColor(BranchColor)] + [Outward(Straight, branchLength)] + [Right(angle)];
      assert t.trace == h1 && rng.used == k + 2;
      var shorter := branchLength - LengthDecrement;
      ghost var k2 := rng.used;
      ghost var right := DrawBranch(shorter, depth + 1, t, rng);
      t.Left(2 * angle);
      ghost var h2 := h1 + Cmds(Settings, Straight, right.call) + [Left(2 * angle)];
      assert t.trace == h2 && rng.used == right.next;
      ghost var left := DrawBranch(shorter, depth + 1, t, rng);
      ghost var h3 := t.trace;
      t.Right(angle);
      ghost var h4 := t.trace;
      t.Backward(branchLength);
      ForkTrace(h, Settings, Straight, branchLength, angle, Forward(branchLength), Backward(branchLength),
        right.call, left.call, h3, h4, t.trace);
      ForkShape(Settings, Straight, branchLength, depth, rng.draws, rng.pick, k,
        MinAngle, MaxAngle, k1, angle, shorter, k2, right, left);
      g := Growth(Fork(branchLength, angle, right.call, left.call), left.next);
    } else {
      DrawLeaf(t);
      g := Growth(Leaf(false), k);
    }
  }

  /** The drawing loop of `main`: five passes at depth 0, the trunk scaled
      down by 0.05 after each. */
  method DrawTree(t: Pen, rng: Rng)
    requires t.Valid() && rng.Valid()
    modifies t, rng
    ensures t.Valid() && t.start == old(t.start)
    ensures var d := Passes(Settings, Straight, 5, rng.draws, rng.pick, old(rng.used));
      t.trace == old(t.trace) + d.cmds && rng.used == d.next
  {
    var subtreeSegment: real := 1.0;
    ghost var d := Drawing([], rng.used);
    for subtrees := 1 to 6
      invariant t.Valid() && t.start == old(t.start)
      invariant subtreeSegment == Scale(subtrees - 1)
      invariant d == Passes(Settings, Straight, subtrees - 1, rng.draws, rng.pick, old(rng.used))
      invariant t.trace == old(t.trace) + d.cmds && rng.used == d.next
    {
      ghost var k1 := rng.used;
      var trunk := BranchLength * subtreeSegment;
      ghost var pass := DrawBranch(trunk, 0, t, rng);
      TrunkScaled(Settings, subtrees - 1, BranchLength, subtreeSegment);
      ghost var n := subtrees - 1;
      PassesStep(old(t.trace), Settings, Straight, n, rng.draws, rng.pick, old(rng.used), d,
        trunk, k1, pass);
      d := Drawing(d.cmds + Cmds(Settings, Straight, pass.call), pass.next);
      subtreeSegment := subtreeSegment - 0.05;
    }
  }

  /** The five passes of `main` draw trunks of 100, 95, 90, 85 and 80. */
  lemma TrunkLengths()
    ensures forall i: nat :: i < 5 ==> Trunk(Settings, i) == 100.0 - 5.0 * i as real
  {
    forall i: nat | i < 5
      ensures Trunk(Settings, i) == 100.0 - 5.0 * i as real
    {
      TrunkValue(Settings, i);
    }
  }

  /** With randomness switched off (leaf probability 0, angle variation 0),
      one call at the full trunk length draws 2^8 = 256 leaves and 255
      straight segments and takes two draws per segment. */
  lemma NoRandomness(draws: nat -> real, pick: Picker, k: nat)
    requires Uniform(draws)
    ensures var c := Settings.(leafProbability := 0.0, angleVariation := 0);
      var r := Branch(c, Straight, BranchLength, 0, draws, pick, k);
      var cmds := Cmds(c, Straight, r.call);
      && Leaves(cmds) == 256 && Count(cmds, FillEnd) == 256
      && Segments(Straight, cmds) == 255
      && r.next == k + 510
  {
    var c := Settings.(leafProbability := 0.0, angleVariation := 0);
    assert GrowsFor(BranchLength, LengthDecrement, MinLength, 8);
    FullTree(c, Straight, BranchLength, 0, draws, pick, k, 8);
    CmdsTally(c, Straight, Branch(c, Straight, BranchLength, 0, draws, pick, k).call);
  }
}
