# Barnes-Hut gravity toy: the bookkeeping core in Dafny

This project models the bookkeeping of a small Java gravity simulation. The
physics is left out. The model has three parts.

**The Barnes-Hut quadtree (`BHTree`).**
- A node is empty, a leaf holding one body, or internal with four children.
- Boxes are integers. The centre is the integer midpoint, computed with
  Java's truncating division (`Config.JavaHalf`).
- A body goes left when `x < centerX` and up when `y < centerY`. A body on a
  centre line goes right or down.
- A leaf splits only when it is wider than `QUAD_TREE_MIN_QUAD_SIZE` (20) and
  taller than a literal 10.
- A leaf that cannot split reports the pair (held body, arriving body) to the
  collision registry and refuses the body.
- An internal node adds the body's getMass() and weighted position before it
  recurses, and ignores what the child answers.

**The universe (`Universe`).**
- It holds the live body list, the list of bodies destroyed this step, the
  collision registry (one partner per body, a later report overwriting an
  earlier one), the sun and the selected body.
- One step of `update` runs in this order:
  1. Build the tree.
  2. Scan the bodies in list order, up to the first one at or beyond an edge.
     That body is marked destroyed; each body before it takes its pull and
     moves.
  3. Resolve collisions: the strictly larger getMass() wins, otherwise the
     partner wins, and the loser is marked destroyed.
  4. Remove every destroyed body.

**Bodies (`Body`).**
- A body is a circle whose radius is its mass field times
  `MASS_TO_SIZE_MULTIPLIER`.
- `getMass()` answers the radius, not the mass field.
- `update()` moves the position by the velocity, puts the circle on the
  position and ages the body.
- `checkForAbsorption` hands this body's mass to a body whose circle contains
  its centre.

## How it is built

Modules follow the source's classes:

- `Config` holds the constants and Java's `/ 2`.
- `Bodies` has class `Body`, with the same fields updated in place.
- `Collisions` has class `CollisionRegistry`. This is the static map, made an
  object that the universe owns.
- `Quadrants` is the quadtree as a datatype: insert, create, getMass,
  getCenterOfMass and the skip test of updateGravity as functions, and what
  they do to bodies and masses as lemmas.
- `BarnesHut` holds the create loop. It is an imperative method over the
  registry, proved equal to `Quadrants.Create`.
- `Overcount` gives a concrete three-body run in which the root's stored mass
  exceeds getMass().
- `Simulation` has class `Universe`. Its `update` is split into the
  sub-steps above. processCollisions is proved against a value-level
  specification, `Resolve`, which folds over the registry's keys in the
  order the map was iterated.

Floats are modelled as reals. The force computation is outside the model:
`Update` takes `pulls[i]`, the velocity change the tree and the sun give body
`i`.

## Model

| member | source | states |
|---|---|---|
| Config.JavaHalf | src/app/BHTree.java:57-58 | the centre's `/ 2` truncates toward zero: it equals Dafny's division for non-negative sums and lies within one half of n/2 for negative ones |
| Bodies.Body.constructor | src/app/Body.java:37-46 | the circle and the position are both at (x, y); radius is mass times the multiplier; age is 0; the invariant radius = mass times multiplier holds |
| Bodies.Body.GetMass | src/app/Body.java:29-31 | getMass() is the radius: on a valid body it is the mass field times 0.01, hence strictly between 0 and the mass for a positive mass |
| Bodies.Body.GetX | src/app/Body.java:21-23 | getX reads the circle's centre, which on a valid body is the position's x |
| Bodies.Body.GetY | src/app/Body.java:25-27 | getY reads the circle's centre, which on a valid body is the position's y |
| Bodies.Body.UpdateMass | src/app/Body.java:48-51 | mass grows by diff and the radius by diff times the multiplier; only those two fields change, so the centre stays and radius = mass times multiplier is preserved |
| Bodies.Body.IncreaseMass | src/app/Body.java:53-55 | mass grows by NODE_MASS_CHANGE_RATE (0.5) and the radius by its scaled amount; the invariant is kept |
| Bodies.Body.DecreaseMass | src/app/Body.java:57-59 | mass shrinks by 0.5 and the radius by its scaled amount; the invariant is kept |
| Bodies.IncreaseThenDecreaseRestores | src/app/Body.java:53-59 | increaseMass followed by decreaseMass gives back the original mass and radius |
| Bodies.Body.Update | src/app/Body.java:69-74 | the position moves by the unchanged velocity, the circle centre moves onto the new position, age grows by 0.01; mass, radius and velocity are untouched |
| Bodies.Body.ContainsPoint | src/app/Body.java:76-78 | the point lies strictly inside the circle; a circle of radius zero contains no point |
| Bodies.Body.CentreWithin | src/app/Body.java:99-101 | the absorption test `distance < other.radius` without the square root: the radius is positive and the squared distance is below its square (a definition; `CheckForAbsorption` states its use) |
| Bodies.Body.CheckForAbsorption | src/app/Body.java:98-107 | answers true exactly when this centre lies strictly inside other's circle; then other's mass grows by this body's mass field and its radius by the scaled amount; otherwise other is unchanged; other's invariant is kept |
| Bodies.Body.AbsorbBody | src/app/Universe.java:158-162 | absorbBody(o): this body's mass grows by o's mass field and its radius by the scaled amount, keeping the invariant |
| Bodies.Body.GravitateBy | src/app/Body.java:81-86 | the computed pull is added to the velocity and nothing else changes |
| Collisions.ApplyNotes | src/app/Universe.java:185-187 | recording a batch of reports keeps every old key and adds exactly the reported first bodies as keys |
| Collisions.ApplyNotesAppend | src/app/Universe.java:185-187 | recording two batches one after the other equals recording their concatenation |
| Collisions.LatestPartnerWins | src/app/Universe.java:185-187 | a reported body maps to the partner from its latest report: earlier partners are overwritten |
| Collisions.UnreportedKeepsPartner | src/app/Universe.java:185-187 | a body that is never reported keeps the partner it had |
| Collisions.ApplyNotesInvolved | src/app/Universe.java:185-187 | recording reports brings into the map only bodies the reports name |
| Collisions.CollisionRegistry.constructor | src/app/Universe.java:35 | the registry starts empty |
| Collisions.CollisionRegistry.Notify | src/app/Universe.java:185-187 | b1 maps to b2 afterwards, whatever it mapped to before; the map is the old map with this one report recorded |
| Collisions.CollisionRegistry.Clear | src/app/Universe.java:166 | the registry is empty afterwards |
| Quadrants.Insert | src/app/BHTree.java:76-155 | insert keeps the tree's shape: every internal box was large enough to split and has the four quarters as children; the box is unchanged; an internal node stays internal |
| Quadrants.Split | src/app/BHTree.java:106-116 | a split node has four empty quarter children, zero stored mass and no bodies |
| Quadrants.QuarterBox | src/app/BHTree.java:107-110 | the four children's boxes meet at the parent's integer midpoint, and each lies within the parent's box when that box is not inverted |
| Quadrants.Route | src/app/BHTree.java:136-151 | the quarter a point is sent to contains the point whenever the box does, ties on a centre line going right or down |
| Quadrants.Rejects | src/app/BHTree.java:124 | the internal node's guard against the far corner and the zero edges; a body strictly inside the box is never rejected |
| Quadrants.AddToChild | src/app/BHTree.java:130-135 | an accepting internal node adds the body's getMass() and weighted position to its aggregates and replaces the routed child (a definition; `AddToChildShape` and `AddToChildTotals` state what it keeps and changes) |
| Quadrants.StoredMass | src/app/BHTree.java:84-89 | the `mass` field: on an empty node or a leaf it agrees with getMass(), since a leaf stores its body's getMass() |
| Quadrants.TotalMass | src/app/BHTree.java:157-169 | getMass(): zero when empty, the body's getMass() in a leaf, the sum of the four children otherwise (a definition; `PositiveTotal`, `StoredCoversTotal`, `InsertPlaced` and `CreateStoresAll` state its properties) |
| Quadrants.Create | src/app/BHTree.java:67-73 | create yields a well-shaped tree whose root box is (0, 0, width, height) |
| Quadrants.InsertAll | src/app/BHTree.java:69-71 | inserting a list in order keeps the tree well shaped and its box unchanged |
| Quadrants.QuartersShrink | src/app/BHTree.java:101-110 | a splittable box has its centre strictly inside, and every quarter is strictly smaller, which is why insert terminates |
| Quadrants.RouteInside | src/app/BHTree.java:136-151 | a body strictly inside a splittable box is sent to the one quarter containing it, and no other quarter contains it |
| Quadrants.InsertNoInvention | src/app/BHTree.java:76-155 | after insert the node holds at most what it held plus the new body, and it reports at most one collision, always (a body it held, the arriving body) |
| Quadrants.InsertPlaced | src/app/BHTree.java:76-155 | for a well-shaped node whose held bodies lie inside their leaves' boxes (`Placed`) and a body strictly inside the box, insert keeps `Placed` and either stores it once (held, getMass() and overcount as expected, no report) or drops it (nothing held changes, and a report was made or its coordinates were taken); it answers false exactly when the node is a leaf with those coordinates or too small to split |
| Quadrants.InsertKeepsCover | src/app/BHTree.java:122-154 | for a tree whose stored masses cover their children and whose held masses are non-negative, and a body of non-negative mass: every internal mass stays at least the sum of its children's stored masses, and a node's stored mass grows by at most the body's mass |
| Quadrants.StoredCoversTotal | src/app/BHTree.java:157-169 | where stored masses cover the children, getMass() never exceeds the stored mass |
| Quadrants.InsertAllKeepsCover | src/app/BHTree.java:67-73 | building from a list of non-negative masses keeps the cover property and non-negative held masses |
| Quadrants.CreateNeverUndercounts | src/app/BHTree.java:185-189 | for non-negative masses the root's stored mass is at least getMass(): failed nested inserts leave extra mass behind and never remove any |
| Quadrants.InsertAllPlaced | src/app/BHTree.java:67-73 | every body the tree holds lies inside its own leaf's box after a list of bodies strictly inside the box is inserted; which bodies are held is stated by `InsertPlaced` and `CreateStoresAll` |
| Quadrants.InsertAllExact | src/app/BHTree.java:67-73 | starting from an empty node, with every body strictly inside the box, no report and distinct coordinates, the tree holds exactly the list, getMass() is the list's mass sum, and nothing is overcounted |
| Quadrants.CreateStoresAll | src/app/BHTree.java:157-169 | with bodies strictly inside the universe, distinct coordinates and no report, create holds every body once and its stored mass equals getMass(), which is the sum of the masses |
| Quadrants.InsertAllNames | src/app/BHTree.java:67-73 | inserting a list holds only what was held plus the list, and every report pairs a held or listed body with a listed body |
| Quadrants.CreateNames | src/app/BHTree.java:101-104 | every pair create reports names two of the inserted bodies |
| Quadrants.PositiveTotal | src/app/BHTree.java:157-169 | when every held mass is positive, getMass() is non-negative, and positive when the node holds a body |
| Quadrants.SkipsGravity | src/app/BHTree.java:241-244 | updateGravity's early return: the mass field is zero or the node is the leaf holding the queried body; an empty node is always skipped, and `OthersAttract` shows which nodes are not |
| Quadrants.OthersAttract | src/app/BHTree.java:241-244 | a node holding a body other than the queried one, with positive masses and covered stored masses, is not skipped by updateGravity's early return |
| Quadrants.CenterOfMass | src/app/BHTree.java:171-176 | getCenterOfMass: the held body's position for a leaf, the integer midpoint otherwise; for a node whose bodies lie inside their leaves' boxes (`Placed`) and whose box is not inverted, the point lies in the node's closed box |
| Overcount.OvercountWitness | src/app/BHTree.java:185-189 | three bodies of getMass() 1 in a 100 by 100 universe, the third at the first one's coordinates: the root stores mass 3 while getMass() answers 2 |
| BarnesHut.Snapshot | src/app/BHTree.java:87-89 | what the tree reads from each body is its circle centre and getMass(), in list order |
| BarnesHut.Record | src/app/BHTree.java:103 | sending the reports of one insert in order leaves the registry as recording them does |
| BarnesHut.Create | src/app/BHTree.java:67-73 | the loop builds exactly the tree of `Quadrants.Create` over the bodies as they stood, and the registry gains exactly the reports of that build |
| Simulation.RemoveFirst | src/app/Universe.java:169-171 | List.remove: a present body is taken out once and the rest is kept as a multiset; an absent body leaves the list as it is |
| Simulation.RemoveFirstDistinct | src/app/Universe.java:169-171 | in a list without repetitions the removed body is gone, every other body stays, and the list stays without repetitions |
| Simulation.Without | src/app/Universe.java:144 | removeAll never lengthens the list; `WithoutMembers` states exactly which bodies stay |
| Simulation.WithoutMembers | src/app/Universe.java:143-146 | removeAll keeps a body exactly when it is in the list and not in the removed list |
| Simulation.WithoutNothing | src/app/Universe.java:143-146 | removeAll of nothing leaves the list as it is |
| Simulation.WithoutDistinct | src/app/Universe.java:144 | removeAll keeps a list without repetitions |
| Simulation.FirstContaining | src/app/Universe.java:59-64 | the index found is the first in list order whose body contains the point; none means no body contains it |
| Simulation.OutOfBounds | src/app/Universe.java:131-132 | the scan's test: at or beyond an edge of the universe; a body that passes it lies in the tree's root box |
| Simulation.FirstOut | src/app/Universe.java:130-135 | the scan stops at the first body with x at most 0 or at least width (the same for y); every body before it is inside; the length means none is out |
| Simulation.FirstOutUnique | src/app/Universe.java:130-135 | any index with every earlier body inside and, unless it is the end, an outside body at it is the scan's stopping point |
| Simulation.Step | src/app/Universe.java:136-138 | the velocity changes by exactly the pull, then the position moves by the new velocity, the circle sits on the position and the age grows by 0.01 |
| Simulation.Advance | src/app/Universe.java:136-138 | a scanned body's velocity grows by its pull, then its position moves by the new velocity, the circle follows and age grows by 0.01 |
| Simulation.Absorb | src/app/Universe.java:158-162 | the winner's mass grows by the loser's mass field; every other weight is unchanged |
| Simulation.Loser | src/app/Universe.java:157-164 | the body destroyed for a key is the key or its partner, never heavier than either, and differs from the winner when they are different bodies |
| Simulation.Winner | src/app/Universe.java:157-164 | the absorbing body is the key or its partner, at least as heavy as both, and the partner on a tie |
| Simulation.Settle | src/app/Universe.java:156-164 | handling one key marks exactly one more body destroyed and keeps the set of weighed bodies |
| Simulation.Resolve | src/app/Universe.java:155-165 | processing k keys marks exactly k bodies destroyed and keeps every body's weight entry |
| Simulation.ResolveOnePerPair | src/app/Universe.java:154-165 | the i-th body marked destroyed is the i-th key or its partner: exactly one body per pair |
| Simulation.ResolveProportional | src/app/Universe.java:155-165 | absorptions keep radius = mass times multiplier for every body |
| Simulation.ResolveNeverShrinks | src/app/Universe.java:155-165 | with non-negative masses no body loses mass and all stay non-negative |
| Simulation.TieGoesToPartner | src/app/Universe.java:157-164 | equal getMass(): the key is destroyed and the partner absorbs it |
| Simulation.AbsorbedTwice | src/app/Universe.java:154-165 | because alreadyProcessed is never appended to, a smaller body that is the partner of two larger keys is destroyed twice, and both keys gain its mass |
| Simulation.CreateInvolved | src/app/Universe.java:129 | building the tree over the list adds to the registry only bodies of the list |
| Simulation.AbsorbTracked | src/app/Universe.java:158-162 | absorbBody on tracked bodies changes their weights exactly as `Absorb` says |
| Simulation.Universe.constructor | src/app/Universe.java:29-36 | a new universe has no bodies, nothing destroyed, an empty registry and a fresh sun of mass SUN_MASS at rest at (width / 2, height / 2) with Java's division |
| Simulation.Universe.CreateBody | src/app/Universe.java:46-50 | exactly one new body at (x, y) is appended; the list stays without repetitions |
| Simulation.Universe.GetBodyAt | src/app/Universe.java:56-66 | the sun if it contains the point, the selection unchanged; otherwise the first body of the list containing it, which becomes the selection; otherwise null with the selection unchanged |
| Simulation.Universe.DeleteBody | src/app/Universe.java:169-171 | the body is removed and every other body stays |
| Simulation.Universe.ClearAllBodies | src/app/Universe.java:173-175 | the list is empty afterwards |
| Simulation.Universe.NumberOfBodies | src/app/Universe.java:177-179 | the count is the list's length, zero exactly for an empty list |
| Simulation.Universe.Scan | src/app/Universe.java:130-139 | the scan stops at `FirstOut` of the bodies' motions; only the body there, if any, is appended to the destroyed list; bodies before it advanced one step by their pulls, and the others kept their motion |
| Simulation.Universe.AdvanceWhileInside | src/app/Universe.java:130-139 | the loop stops at the first body at or beyond an edge, or at the end; every body before that point is inside and has advanced by its pull, and the rest are untouched |
| Simulation.Universe.Escapes | src/app/Universe.java:131-132 | the scan's bounds test read from a live body; it is `OutOfBounds` of the body's motion, so the heap loop and the value-level `FirstOut` test the same thing |
| Simulation.Universe.AdvanceAt | src/app/Universe.java:136-138 | the scan's k-th body advances, extending the moved prefix by one |
| Simulation.Universe.ProcessCollisions | src/app/Universe.java:153-167 | every key of the registry is handled once, in iteration order; the destroyed list gains exactly the bodies `Resolve` marks; every body the registry named carries the weight `Resolve` computes; the registry is empty afterwards |
| Simulation.Universe.ProcessKey | src/app/Universe.java:155-165 | one round handles one key not yet handled and keeps the destroyed list and all weights equal to `Resolve` over the keys handled so far |
| Simulation.Universe.AbsorbAndMark | src/app/Universe.java:158-163 | the loser is appended to the destroyed list and the winner's weight follows `Absorb` |
| Simulation.Universe.Decide | src/app/Universe.java:157-164 | the key wins only with strictly larger getMass(); the winner and loser are the pair's two bodies |
| Simulation.Universe.RemoveDestroyed | src/app/Universe.java:143-146 | the destroyed bodies leave the list, the destroyed list is empty, and the list stays without repetitions |
| Simulation.Universe.BuildTree | src/app/Universe.java:129 | the tree is create over the bodies as they stood; the registry gains that build's reports, which name only listed bodies; no body moves or changes weight |
| Simulation.Universe.MoveAndResolve | src/app/Universe.java:130-146 | the scan stops at `FirstOut`; the bodies before it advanced by their pulls and the others kept their motion; the registry is drained by `Resolve`; afterwards the registry and the destroyed list are empty, and the list is the old list without the escaped body and the absorbed ones |
| Simulation.Universe.ResolveAndRemove | src/app/Universe.java:141-146 | collisions resolved as `Resolve` says, then every destroyed body removed; the registry and the destroyed list end empty |
| Simulation.Universe.ResolveKeepingMotions | src/app/Universe.java:141-146 | the same end of update, and the motions of the scanned bodies are left as the scan made them |
| Simulation.Universe.MoveAndResolveKeeping | src/app/Universe.java:130-146 | the same scan and resolution, and a listed body the registry does not name keeps its mass and radius |
| Simulation.Universe.Update | src/app/Universe.java:114-147 | the tree is create over the bodies as they stood, and `registered` is the registry with that build's reports; the scan stops at `FirstOut`, the bodies before it advanced by their pulls and the others kept their motion; every key of `registered` is resolved by `Resolve` in iteration order; a listed body that `registered` does not name keeps its mass and radius; afterwards the registry and the destroyed list are empty, and no body marked destroyed (escaped or absorbed) is left in the list |

## Left out

- The quadtree is a value, not linked node objects updated in place: each insert yields the new node value. Linked nodes would need a footprint for every node in every proof. Aliasing between nodes and the in-place update of `containedBody`, `mass`, `cmx`, `cmy` and the child fields are therefore not modelled.
- A leaf does not store `cmx` and `cmy`; they are its body's position times its getMass(). The internal nodes' `cmx` and `cmy` are kept as in the source. The `level` field is not modelled, as nothing in the core reads it.
- The tree records each body's position and getMass() when the body is inserted. Java reads them through the reference later, but only the force computation and drawing do that. So `Quadrants.TotalMass` and `Quadrants.CenterOfMass` give a leaf's values from insertion time, whereas Java's getMass() and getCenterOfMass() read the contained body live, after bodies earlier in the list have already moved in the same update.
- A report made inside an insert is sent to the registry when that insert returns, in the same order. Nothing reads the registry while the tree is built, so the final map is the same.
- The force computation is outside the model: the rest of `updateGravity` below its early return, `updateBodyGravity`, `distanceTo`, `gravitateToward`'s magnitude and angle, and `gravityHistory`. BHTree.java:283 calls `body.enactGravity`, but Body.java defines no enactGravity method; its effect is taken to be a change of the body's velocity, and that change is folded into the parameter `pulls` together with the rest of the force computation.
- Rendering (`draw`, `drawGravity`, `drawGravityLineBetweenBodies`), the game loop, input handling, the names file and `createRandomBody` are left out. They are graphics, I/O or randomness.
- Bodies.Body.constructor: the velocity the source derives from a speed and a heading with trigonometry is a vector parameter, and the colour is dropped.
- Simulation.Universe.CreateBody: the body's name, velocity and mass are parameters. The source calls a five-argument Body constructor with a random heading and a name from the names file; Body.java declares no such constructor, so its behaviour is unknown here.
- Simulation.Universe.constructor: the source builds the sun with a seven-argument Body constructor, which Body.java does not declare; here it is the model's constructor with zero velocity and mass SUN_MASS, and its colour is dropped.
- Bodies.Body.AbsorbBody: Body.java defines no absorbBody method; it is taken to be `updateMass(o.mass)`, the step checkForAbsorption performs.
- Bodies.Body.ContainsPoint: the geometry library's circle containment is taken to be the open disc test.
- Floats are reals: IEEE rounding and NaN are not modelled. Console output is left out: the NaN diagnostic prints of insert and the "ABSORBED BY OTHER BODY" line of checkForAbsorption. Integer overflow of the box arithmetic is not modelled either.
- The static fields `bodies`, `destroyedBodies` and `collisions` are fields of one universe. Sharing them between several universes is not modelled.
- Simulation.Universe.ProcessCollisions: HashMap iteration order is not specified, so the loop picks any key it has not handled yet. The contract holds for the order returned as `order`, whatever it is.
- Simulation.Universe.Decide: its requirement that `alreadyProcessed` is empty is what the source guarantees, since the list is created empty and never appended to.
- Simulation.Universe.Update: `Valid()`, meaning the list never holds a body twice, is required. The constructor establishes it and every list operation keeps it.
