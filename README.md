# Fractal tree, modelled in Dafny

Two turtle-graphics scripts draw a fractal tree:

- `fractal-tree.py` draws straight branches and keeps its settings in module constants.
- `fractal-tree-organic.py` draws each branch as a 60-degree arc and keeps the same settings as fields of a `TreeDrawer` object.

Both scripts use the same recursion. `draw_branch(length, depth)` works as follows:

- Past `max_depth`, it returns without drawing.
- If the length is at most `min_length`, it draws a leaf.
- Otherwise it takes one `random()` draw. Below `leaf_probability`, it draws a leaf and returns.
- Otherwise it:
  1. draws the branch body;
  2. takes one `randint` angle;
  3. turns right by that angle and draws the right subtree;
  4. turns left by twice the angle and draws the left subtree;
  5. turns right by the angle again and retraces the body.

  Both subtrees are `length_decrement` shorter and one level deeper.

A leaf is a filled oval in the leaf colour: four quarter arcs inside a 45-degree tilt. After it, the pen returns to the branch colour. The driver makes five passes at depth 0. Each pass scales the trunk down by a further 0.05.

The project has five modules:

- **`Turtle`** models the pen. Every call the scripts make is recorded as a command. The pen's state (heading modulo 360, straight-line displacement, colour, fill) is the replay of those commands.
- **`Randomness`** models the generator as an injected stream of draws in [0, 1). `random()` takes the next draw. `randint` maps the next draw into its inclusive range.
- **`Branching`** holds the specification both scripts share:
  - `Branch` describes one `draw_branch` call as a call tree plus the index of the next unused draw.
  - `Cmds` gives the commands that call tree issues.
  - `Passes` describes the driver loop.
  - Lemmas state what the drawing does: the tree returns to its start, the numbers of leaves, segments and draws, the angle range, the lengths, and the recursion bound.
- **`FractalTree`** holds the straight script's constants and its `DrawLeaf`, `DrawBranch` and `DrawTree` methods. Each method is proved to issue exactly the `Branching` commands and take exactly the `Branching` draws.
- **`FractalTreeOrganic`** holds the class `TreeDrawer`: its settings as constant fields (set by the constructor, only read afterwards) and the same three methods for arcs.

## Model

| member | source | states |
|---|---|---|
| Turtle.Pen.constructor | fractal-tree.py:66 | a new turtle has an empty command record and faces heading 0 |
| Turtle.Pen.Forward | fractal-tree.py:47 | `forward(d)` records the command and moves the pen `d` along its heading; heading, colour and fill unchanged |
| Turtle.Pen.Backward | fractal-tree.py:57 | `backward(d)` records the command and moves the pen `-d` along its heading; nothing else changes |
| Turtle.Pen.Right | fractal-tree.py:50 | `right(a)` records the command and turns the heading by `-a` modulo 360; nothing else changes |
| Turtle.Pen.Left | fractal-tree.py:53 | `left(a)` records the command and turns the heading by `a` modulo 360; nothing else changes |
| Turtle.Pen.Circle | fractal-tree-organic.py:77 | `circle(r, e)` records the command and turns by `e`, clockwise (`-e`) exactly when `r < 0`; position not tracked |
| Turtle.Pen.BeginFill | fractal-tree.py:26 | `begin_fill()` records the command and opens a fill |
| Turtle.Pen.EndFill | fractal-tree.py:32 | `end_fill()` records the command and closes the fill |
| Turtle.Pen.SetColor | fractal-tree.py:25 | `color(c)` records the command and sets the colour |
| Turtle.Move | fractal-tree.py:47 | moving `d` along heading `h` adds `d` to that heading's distance and leaves every other heading alone |
| Turtle.MoveCancels | fractal-tree.py:57 | moving back the same distance along the same heading restores the exact displacement |
| Turtle.Step | fractal-tree.py:45-57 | one command changes the heading by its turn modulo 360; only `forward`/`backward` move the pen |
| Turtle.Turn | fractal-tree.py:50-53 | only `right`, `left` and `circle` turn the pen; an arc of extent `e` turns by `e` or `-e` |
| Turtle.Replay | fractal-tree.py:45-57 | the pen's state after a command run is the commands' effects in order, starting from a well-formed state and staying well-formed |
| Turtle.ReplayAppend | fractal-tree.py:45-57 | replaying two command runs one after the other is replaying their concatenation |
| Turtle.ReplayHeading | fractal-tree.py:45-57 | the heading after any command run is the start heading plus the run's net turn, modulo 360 |
| Randomness.Pick | fractal-tree.py:48 | the scaling `randint` returns a value in `[lo, hi]` for every draw in [0, 1) when `lo <= hi` |
| Randomness.PickInRange | fractal-tree.py:48 | `Pick` keeps to its range for all bounds and draws |
| Randomness.Rng.constructor | fractal-tree.py:2 | a generator starts at draw 0 of a stream of draws in [0, 1) |
| Randomness.Rng.Random | fractal-tree.py:41 | `random()` returns the next draw, which lies in [0, 1), and advances by one |
| Randomness.Rng.RandInt | fractal-tree.py:48 | `randint(lo, hi)` returns a value in `[lo, hi]` picked from the next draw and advances by one |
| Branching.Branch | fractal-tree.py:35-59 | a call halts exactly when `depth > max_depth`, and never goes back in the draw stream |
| Branching.BranchLeaves | fractal-tree.py:39-43 | a call ends in a short leaf exactly when it passes the guard with length at most `min_length`, taking no draw; it ends in an early leaf exactly when it is longer but `random()` comes up below `leaf_probability`, taking that one draw and no `randint` |
| Branching.Outward | fractal-tree-organic.py:73-77 | the branch body is `forward` for straight branches and otherwise a 60-degree arc, with a positive radius exactly when the length is positive |
| Branching.Inward | fractal-tree-organic.py:90 | the retrace is `backward` for straight branches; for straight branches and positive arc lengths it turns by exactly the opposite of the body |
| Branching.Grow | fractal-tree.py:45-57 | a call that grows is a fork and takes at least its two draws |
| Branching.ForkParts | fractal-tree.py:39-54 | a growing call is a fork of the given length; its subtrees are the calls at `len - length_decrement` and `depth + 1`, the first starting two draws on, the second where the first stopped |
| Branching.ForkShape | fractal-tree-organic.py:64-90 | the fork's one angle is `randint(angle - variation, angle + variation)` of draw `k + 1`, used in all three turns |
| Branching.ForkTrace | fractal-tree.py:45-57 | the fork's commands in order: colour, body, `right(a)`, right subtree, `left(2a)`, left subtree, `right(a)`, retrace |
| Branching.ForkCmds | fractal-tree.py:45-57 | a fork's commands around its two subtrees; their layout is `ForkLayout`'s contract |
| Branching.ForkLayout | fractal-tree-organic.py:72-90 | a fork adds six commands to its subtrees: branch colour, body, `right(a)`, `left(2a)` between the subtrees, `right(a)`, retrace; one angle `a` sets all three turns |
| Branching.Cmds | fractal-tree.py:35-59 | the commands of a call tree in the order `draw_branch` issues them; their counts are `CmdsLength`'s and `CmdsTally`'s contracts |
| Branching.CmdsLength | fractal-tree.py:35-59 | a call issues ten commands per leaf and six per fork, and nothing else |
| Branching.Lobes | fractal-tree.py:28-30 | the passes of the leaf loop; their layout is `LobesLayout`'s contract |
| Branching.LobesLayout | fractal-tree.py:28-30 | `n` passes of the leaf loop draw `2n` quarter arcs, alternately of radius 4 and radius `4 // 2` = 2 |
| Branching.LeafShape | fractal-tree.py:24-33 | a leaf is exactly: leaf colour, `begin_fill`, `left(45)`, arcs of radius 4, 2, 4, 2 over 90 degrees, `right(45)`, `end_fill`, branch colour |
| Branching.LeafCmds | fractal-tree.py:24-33 | `draw_leaf`'s commands; their layout is `LeafShape`'s contract |
| Branching.LeafCount | fractal-tree.py:24-33 | a leaf holds one `begin_fill`, one `end_fill` and no branch body |
| Branching.LeafTally | fractal-tree.py:24-33 | a leaf opens and closes one fill, draws no segment, and turns one full turn in total |
| Branching.LeafReturns | fractal-tree-organic.py:38-53 | after a leaf the heading and position are unchanged, no fill is open, and the colour is the branch colour |
| Branching.OffsetKept | fractal-tree-organic.py:38-53 | commands without `forward`/`backward` leave the position unchanged |
| Branching.ForkKinds | fractal-tree.py:45-57 | a fork adds one body of its shape to its subtrees' counts, and no fill |
| Branching.ForkTallies | fractal-tree.py:45-57 | a fork's own turns cancel: its net turn is its subtrees' net turns |
| Branching.CmdsTally | fractal-tree.py:35-59 | a call tree issues one `begin_fill` and one `end_fill` per leaf, one body per fork, and turns 360 degrees per leaf |
| Branching.ReplayFork | fractal-tree.py:45-57 | replaying a fork is replaying its prefix, right subtree, `left(2a)`, left subtree, `right(a)` and retrace in turn |
| Branching.CallReturns | fractal-tree.py:52-57 | every call tree returns the pen to its heading and, when straight, its position; it leaves no fill open and ends in the branch colour unless halted |
| Branching.ForkRestores | fractal-tree-organic.py:84-90 | when both subtrees return the pen, turning right by the angle and retracing the body restores the heading, and for straight branches the position |
| Branching.TurnsCancel | fractal-tree.py:50-57 | out by `t`, right `a`, left `2a`, right `a`, back by `-t`, each modulo 360, is the start heading |
| Branching.BranchPositive | fractal-tree-organic.py:67-77 | with `min_length >= 0` every body drawn is longer than zero, so each arc radius `len/2` is positive |
| Branching.BranchShaped | fractal-tree-organic.py:64-86 | every fork is longer than `min_length`, its children are `length_decrement` shorter, and every angle lies in `[angle - variation, angle + variation]` |
| Branching.BranchHeight | fractal-tree.py:36-37 | the depth guard bounds the recursion to `max_depth + 1 - depth` levels of forks, whatever the lengths |
| Branching.DrawsTaken | fractal-tree.py:39-48 | a call takes exactly two draws per fork (the leaf test and the angle) plus one per early leaf; short leaves and halted calls take none |
| Branching.BranchReturns | fractal-tree.py:35-59 | `draw_branch` puts the pen back: same heading and, for straight branches, same position; branch colour unless halted; no open fill; a halted call issues nothing |
| Branching.FullTree | fractal-tree.py:18-19 | without the leaf test, a call that stays long enough for `n` levels grows `2^n` leaves and `2^n - 1` forks, taking two draws per fork |
| Branching.TrunkScaled | fractal-tree.py:77-81 | the loop's trunk `branch_length * subtree_segment` is `Trunk(c, n)` on pass `n` |
| Branching.ScaleValue | fractal-tree.py:77-81 | pass `i` scales the trunk by `1 - 0.05 i` |
| Branching.Scale | fractal-tree.py:77-81 | `subtree_segment` on pass `i`; its closed form is `ScaleValue`'s contract |
| Branching.Trunk | fractal-tree.py:80 | the trunk `BRANCH_LENGTH * subtree_segment` of pass `i`; its value is `TrunkValue`'s contract |
| Branching.TrunkValue | fractal-tree-organic.py:121-125 | pass `i` draws a trunk of `branch_length * (1 - 0.05 i)` |
| Branching.Passes | fractal-tree.py:79-80 | the driver loop's draws never go backwards |
| Branching.PassesReturn | fractal-tree-organic.py:123-125 | after any number of passes the pen is back at its heading (and, when straight, position) with no open fill, in the branch colour once a pass has run |
| Branching.PassesReturnAfter | fractal-tree.py:77-81 | the same, for passes started after earlier commands |
| FractalTree.SettingsValues | fractal-tree.py:5-22 | the configuration: trunk 100, decrement 10, minimum length 20, angle 15 with variation 20 (angles -5 to 35), leaf chance 0.15, depth limit 300, white/brown/green, speed 0 |
| FractalTree.DrawLeaf | fractal-tree.py:24-33 | `draw_leaf` issues exactly the leaf's commands and keeps the pen valid |
| FractalTree.DrawBranch | fractal-tree.py:35-59 | `draw_branch` issues exactly `Cmds` of `Branch` with the module settings and takes exactly its draws |
| FractalTree.DrawTree | fractal-tree.py:77-81 | the loop issues exactly the five passes of `Passes` and takes exactly their draws |
| FractalTree.TrunkLengths | fractal-tree.py:77-81 | the five trunks are 100, 95, 90, 85 and 80 |
| FractalTree.NoRandomness | fractal-tree.py:18-19 | with both randomness settings at 0, one call draws 256 leaves and 255 straight segments and takes 510 draws |
| FractalTreeOrganic.TreeDrawer.constructor | fractal-tree-organic.py:22-36 | the default settings: 100, 10, 20, 15, 20, 0.15, 300, white, brown, green, speed 0 |
| FractalTreeOrganic.TreeDrawer.DrawLeaf | fractal-tree-organic.py:38-53 | `draw_leaf` issues exactly the leaf's commands in the drawer's colours |
| FractalTreeOrganic.TreeDrawer.DrawBranch | fractal-tree-organic.py:55-92 | `draw_branch` issues exactly `Cmds` of `Branch` for arcs (radius `len/2`, extent 60, retraced by radius `-len/2`) and takes exactly its draws |
| FractalTreeOrganic.TreeDrawer.DrawTree | fractal-tree-organic.py:116-125 | the loop issues exactly the five arc passes of `Passes` and takes exactly their draws |

## Left out

- Window and turtle setup are not modelled: `turtle.Screen`, `bgcolor`, `shape`, `speed`, `turtle.done` and `mainloop`. The same goes for the moves that place the pen before drawing (`setup_turtle`, and the start of `main`). The drawing methods take any valid pen, and the background colour and speed are only recorded as settings (`FractalTree.BackgroundColor` and `FractalTree.TurtleSpeed`, and the `TreeDrawer` fields).
- Geometry is abstract. An arc's displacement needs trigonometry, so `circle` turns the pen but does not move it. For the arc variant, only the heading (not the position) is proved to return to the start. A leaf likewise counts as not moving the pen: its quarter arcs of radii 4, 2, 4 and 2 join into a closed loop in the library, but that is assumed by the pen model, not derived from geometry. So the straight tree's return to its start position rests on this assumption.
- Numbers are exact reals, not floats. `subtree_segment` is modelled as exactly `1 - 0.05 i`. Floating-point rounding in the scale and in `branch_length / 2` is not modelled.
- Randomness.Rng.RandInt: CPython's `randint` draws bits through `getrandbits`, not a scaled float. The model only promises a value in the range, computed by the generator's mapping from one draw of the shared stream. The scaling `Pick` is the mapping a new generator uses. The Mersenne Twister itself is not modelled.
- FractalTreeOrganic.TreeDrawer.DrawBranch requires `angle_variation >= 0`. With a negative variation the library's `randint` raises `ValueError`, and that error path is not modelled.
- The tree returning to its start holds for any pen state and is proved on command runs (`BranchReturns`, `PassesReturn`), not as postconditions of the drawing methods.
- For the arc variant, `BranchReturns` needs `min_length >= 0`. The library turns a radius-0 arc counter-clockwise in both directions, so a zero-length arc branch would not retrace its turn.
- `FractalTreeOrganic.TreeDrawer` has constant fields. Reassigning a setting from outside after construction is not modelled.
- A new pen starts in black. The colour handed to `color` is an opaque tag.
