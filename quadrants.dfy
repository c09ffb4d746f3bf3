/** The Barnes-Hut quadtree as a value: insert and create as functions, which
    the create loop in module BarnesHut is proved against, and the lemmas about
    how insertion treats bodies and mass. */
module Quadrants {
  import opened Config
  import opened Bodies
  import opened Collisions

  /** An integer box: left x, top y, right x, bottom y. */
  datatype Box = Box(xs: int, ys: int, xl: int, yl: int) {
    function Width(): int { xl - xs }
    function Height(): int { yl - ys }

    /** The integer midpoint, with Java's truncating division. */
    function CenterX(): int { JavaHalf(xs + xl) }
    function CenterY(): int { JavaHalf(ys + yl) }

    /** A leaf splits only when it is wider than the minimum quad size and
        taller than the hard-coded height limit. */
    predicate CanSplit() {
      Width() > QUAD_TREE_MIN_QUAD_SIZE && Height() > QUAD_TREE_MIN_QUAD_HEIGHT
    }

    /** Half-open containment: ties on the centre line go right and down. */
    predicate HasPoint(x: real, y: real) {
      xs as real <= x < xl as real && ys as real <= y < yl as real
    }

    /** Measure for termination: splitting strictly shrinks it. */
    function Size(): nat {
      if Width() + Height() > 0 then Width() + Height() else 0
    }
  }

  datatype Quarter = UpperLeft | UpperRight | LowerLeft | LowerRight

  /** The four children's boxes meet at the parent's integer midpoint. */
  function QuarterBox(b: Box, k: Quarter): (c: Box)
    ensures b.xs <= b.xl && b.ys <= b.yl ==>
      b.xs <= c.xs <= c.xl <= b.xl && b.ys <= c.ys <= c.yl <= b.yl
  {
    match k
    case UpperLeft => Box(b.xs, b.ys, b.CenterX(), b.CenterY())
    case UpperRight => Box(b.CenterX(), b.ys, b.xl, b.CenterY())
    case LowerLeft => Box(b.xs, b.CenterY(), b.CenterX(), b.yl)
    case LowerRight => Box(b.CenterX(), b.CenterY(), b.xl, b.yl)
  }

  /** x < centerX goes left, y < centerY goes up; a point on a centre line
      goes right or down. */
  function Route(b: Box, x: real, y: real): (k: Quarter)
    ensures b.HasPoint(x, y) ==> QuarterBox(b, k).HasPoint(x, y)
  {
    if x < b.CenterX() as real then
      if y < b.CenterY() as real then UpperLeft else LowerLeft
    else
      if y < b.CenterY() as real then UpperRight else LowerRight
  }

  /** What the tree reads from a body when it inserts it: the body itself
      (for identity), the circle centre, and getMass() (the radius). */
  datatype Particle = Particle(body: Body, x: real, y: real, m: real)

  /** A node is empty, a leaf holding one body, or internal with four
      children and the aggregates (mass, mass-weighted x and y) it keeps. */
  datatype Quad =
    | Empty(box: Box)
    | Leaf(box: Box, held: Particle)
    | Internal(box: Box, mass: real, cmx: real, cmy: real, ul: Quad, ur: Quad, ll: Quad, lr: Quad)

  /** The result of insert: the new node, the boolean insert returns, and the
      collision notifications it sent, in order. */
  datatype Inserted = Inserted(node: Quad, ok: bool, notes: seq<Pair>)

  /** The result of building a tree from a list: the root and all
      notifications. */
  datatype Built = Built(node: Quad, notes: seq<Pair>)

  function Child(q: Quad, k: Quarter): Quad
    requires q.Internal?
  {
    match k
    case UpperLeft => q.ul
    case UpperRight => q.ur
    case LowerLeft => q.ll
    case LowerRight => q.lr
  }

  function WithChild(q: Quad, k: Quarter, c: Quad): Quad
    requires q.Internal?
  {
    match k
    case UpperLeft => q.(ul := c)
    case UpperRight => q.(ur := c)
    case LowerLeft => q.(ll := c)
    case LowerRight => q.(lr := c)
  }

  /** The shape every tree the code builds has: internal nodes are boxes that
      were large enough to split, and their children's boxes are the four
      quarters. */
  predicate WellFormed(q: Quad) {
    match q
    case Empty(_) => true
    case Leaf(_, _) => true
    case Internal(b, _, _, _, ul, ur, ll, lr) =>
      && b.CanSplit()
      && ul.box == QuarterBox(b, UpperLeft) && ur.box == QuarterBox(b, UpperRight)
      && ll.box == QuarterBox(b, LowerLeft) && lr.box == QuarterBox(b, LowerRight)
      && WellFormed(ul) && WellFormed(ur) && WellFormed(ll) && WellFormed(lr)
  }

  /** The mass field of a node: 0 when empty, the body's mass in a leaf, the
      incrementally kept sum in an internal node. */
  function StoredMass(q: Quad): (r: real)
    ensures !q.Internal? ==> r == TotalMass(q)
  {
    match q
    case Empty(_) => 0.0
    case Leaf(_, p) => p.m
    case Internal(_, m, _, _, _, _, _, _) => m
  }

  /** getMass(): recomputed from the leaves. */
  function TotalMass(q: Quad): real {
    match q
    case Empty(_) => 0.0
    case Leaf(_, p) => p.m
    case Internal(_, _, _, _, ul, ur, ll, lr) =>
      TotalMass(ul) + TotalMass(ur) + TotalMass(ll) + TotalMass(lr)
  }

  /** By how much the stored mass exceeds getMass(). */
  function Overcount(q: Quad): real {
    StoredMass(q) - TotalMass(q)
  }

  /** The bodies held in the leaves. */
  function Held(q: Quad): multiset<Particle> {
    match q
    case Empty(_) => multiset{}
    case Leaf(_, p) => multiset{p}
    case Internal(_, _, _, _, ul, ur, ll, lr) => Held(ul) + Held(ur) + Held(ll) + Held(lr)
  }

  /** Some held body sits exactly at (x, y). */
  ghost predicate CoordsTaken(q: Quad, x: real, y: real) {
    exists h :: h in Held(q) && h.x == x && h.y == y
  }

  /** The guard of an internal node: it compares against 0 and its own right
      and bottom edges, not against its left and top edges. */
  predicate Rejects(b: Box, p: Particle)
    ensures Inside(b, p) ==> !Rejects(b, p)
  {
    p.x <= 0.0 || p.x >= b.xl as real || p.y <= 0.0 || p.y >= b.yl as real
  }

  /** A body that no internal guard on its way down can reject. */
  predicate Inside(b: Box, p: Particle) {
    0.0 < p.x && 0.0 < p.y && b.HasPoint(p.x, p.y)
  }

  /** Every held body lies inside its leaf's box. */
  predicate Placed(q: Quad) {
    match q
    case Empty(_) => true
    case Leaf(b, p) => Inside(b, p)
    case Internal(_, _, _, _, ul, ur, ll, lr) => Placed(ul) && Placed(ur) && Placed(ll) && Placed(lr)
  }

  /** Splitting strictly shrinks the box, and the centre lies strictly inside
      it, which is what makes insert terminate. */
  lemma QuartersShrink(b: Box)
    requires b.CanSplit()
    ensures b.xs < b.CenterX() < b.xl && b.ys < b.CenterY() < b.yl
    ensures forall k :: QuarterBox(b, k).Size() < b.Size()
  {
  }

  lemma ChildOf(q: Quad, k: Quarter)
    requires q.Internal? && WellFormed(q)
    ensures WellFormed(Child(q, k)) && Child(q, k).box == QuarterBox(q.box, k)
    ensures Child(q, k).box.Size() < q.box.Size()
  {
    QuartersShrink(q.box);
  }

  /** An internal node after it accepted `p`: the aggregates grow by `p`'s
      share, and child `k` is replaced by `c`. */
  function AddToChild(q: Quad, k: Quarter, c: Quad, p: Particle): Quad
    requires q.Internal?
  {
    WithChild(q.(mass := q.mass + p.m, cmx := q.cmx + p.x * p.m, cmy := q.cmy + p.y * p.m), k, c)
  }

  lemma AddToChildShape(q: Quad, k: Quarter, c: Quad, p: Particle)
    requires q.Internal? && WellFormed(q) && WellFormed(c) && c.box == QuarterBox(q.box, k)
    ensures WellFormed(AddToChild(q, k, c, p)) && AddToChild(q, k, c, p).box == q.box
    ensures AddToChild(q, k, c, p).Internal?
    ensures StoredMass(AddToChild(q, k, c, p)) == StoredMass(q) + p.m
    ensures Placed(q) && Placed(c) ==> Placed(AddToChild(q, k, c, p))
  {
  }

  lemma AddToChildMass(q: Quad, k: Quarter, c: Quad, p: Particle)
    requires q.Internal?
    ensures AddToChild(q, k, c, p).Internal? && StoredMass(AddToChild(q, k, c, p)) == StoredMass(q) + p.m
  {
  }

  lemma AddToChildTotals(q: Quad, k: Quarter, c: Quad, p: Particle)
    requires q.Internal?
    ensures TotalMass(AddToChild(q, k, c, p)) == TotalMass(q) - TotalMass(Child(q, k)) + TotalMass(c)
    ensures Held(AddToChild(q, k, c, p)) + Held(Child(q, k)) == Held(q) + Held(c)
  {
  }

  lemma ChildHeld(q: Quad, k: Quarter)
    requires q.Internal?
    ensures Held(Child(q, k)) <= Held(q)
    ensures Placed(q) ==> Placed(Child(q, k))
  {
  }

  /** insert, as the source does it. */
  function Insert(q: Quad, p: Particle): (r: Inserted)
    requires WellFormed(q)
    ensures WellFormed(r.node) && r.node.box == q.box
    ensures q.Internal? ==> r.node.Internal?
    decreases q.box.Size(), if q.Internal? then 0 else 1
  {
    match q
    case Empty(b) => Inserted(Leaf(b, p), true, [])
    case Leaf(b, held) =>
      if p.x == held.x && p.y == held.y then
        Inserted(q, false, [])
      else if !b.CanSplit() then
        Inserted(q, false, [Pair(held.body, p.body)])
      else
        var first := Insert(Split(b), held);
        var second := Insert(first.node, p);
        Inserted(second.node, true, first.notes + second.notes)
    case Internal(b, _, _, _, _, _, _, _) =>
      if Rejects(b, p) then
        Inserted(q, false, [])
      else
        var k := Route(b, p.x, p.y);
        ChildOf(q, k);
        var c := Insert(Child(q, k), p);
        AddToChildShape(q, k, c.node, p);
        Inserted(AddToChild(q, k, c.node, p), true, c.notes)
  }

  /** create: a root over (0, 0, width, height), then every body in list
      order, ignoring what each insert returns. */
  function Create(ps: seq<Particle>, width: int, height: int): (r: Built)
    ensures WellFormed(r.node) && r.node.box == Box(0, 0, width, height)
  {
    InsertAll(Empty(Box(0, 0, width, height)), ps)
  }

  function InsertAll(q: Quad, ps: seq<Particle>): (r: Built)
    requires WellFormed(q)
    ensures WellFormed(r.node) && r.node.box == q.box
    decreases |ps|
  {
    if ps == [] then Built(q, [])
    else
      var before := InsertAll(q, ps[..|ps| - 1]);
      var last := Insert(before.node, ps[|ps| - 1]);
      Built(last.node, before.notes + last.notes)
  }

  /** The node a leaf becomes when it splits: its box, zero aggregates, four
      empty quarters. */
  function Split(b: Box): (q: Quad)
    requires b.CanSplit()
    ensures WellFormed(q) && Placed(q) && Held(q) == multiset{}
    ensures StoredMass(q) == 0.0 && TotalMass(q) == 0.0
  {
    Internal(b, 0.0, 0.0, 0.0,
             Empty(QuarterBox(b, UpperLeft)), Empty(QuarterBox(b, UpperRight)),
             Empty(QuarterBox(b, LowerLeft)), Empty(QuarterBox(b, LowerRight)))
  }

  /** A body inside a splittable box is routed to the one quarter that
      contains it, and no other quarter contains it. */
  lemma RouteInside(b: Box, p: Particle)
    requires b.CanSplit() && Inside(b, p)
    ensures Inside(QuarterBox(b, Route(b, p.x, p.y)), p)
    ensures forall k :: QuarterBox(b, k).HasPoint(p.x, p.y) <==> k == Route(b, p.x, p.y)
  {
    QuartersShrink(b);
  }

  lemma MultisetCancel<T>(a: multiset<T>, b: multiset<T>, x: multiset<T>, y: multiset<T>, z: multiset<T>)
    requires a + b == x + y && y <= b + z
    ensures a <= x + z
  {
    forall e
      ensures a[e] <= (x + z)[e]
    {
      assert (a + b)[e] == (x + y)[e];
    }
  }

  /** What insert does to a leaf that splits. */
  lemma InsertSplitting(q: Quad, p: Particle)
    requires q.Leaf? && q.box.CanSplit() && !(p.x == q.held.x && p.y == q.held.y)
    ensures var first := Insert(Split(q.box), q.held);
            var second := Insert(first.node, p);
            Insert(q, p) == Inserted(second.node, true, first.notes + second.notes)
  {
  }

  /** What insert does to an internal node whose guard lets the body in. */
  lemma InsertDescending(q: Quad, p: Particle)
    requires q.Internal? && WellFormed(q) && !Rejects(q.box, p)
    ensures var k := Route(q.box, p.x, p.y);
            WellFormed(Child(q, k)) &&
            var c := Insert(Child(q, k), p);
            Insert(q, p) == Inserted(AddToChild(q, k, c.node, p), true, c.notes)
  {
    ChildOf(q, Route(q.box, p.x, p.y));
  }

  /** Every reported pair is (a body held in `q`, the arriving body), and
      there is at most one. */
  ghost predicate ReportsFrom(notes: seq<Pair>, q: Quad, p: Particle) {
    && |notes| <= 1
    && forall n :: n in notes ==> n.second == p.body && exists h :: h in Held(q) && h.body == n.first
  }

  /** Insertion invents nothing: the node afterwards holds at most what it
      held plus the new body, and it reports at most one collision, always
      between a body it already held and the arriving one. */
  lemma {:induction false} InsertNoInvention(q: Quad, p: Particle)
    requires WellFormed(q)
    ensures Held(Insert(q, p).node) <= Held(q) + multiset{p}
    ensures ReportsFrom(Insert(q, p).notes, q, p)
    decreases q.box.Size(), if q.Internal? then 0 else 1, 1
  {
    match q
    case Empty(_) =>
    case Leaf(_, _) =>
      LeafNoInvention(q, p);
    case Internal(b, _, _, _, _, _, _, _) =>
      if !Rejects(b, p) {
        DescendNoInvention(q, p);
      }
  }

  lemma {:induction false} LeafNoInvention(q: Quad, p: Particle)
    requires q.Leaf?
    ensures Held(Insert(q, p).node) <= Held(q) + multiset{p}
    ensures ReportsFrom(Insert(q, p).notes, q, p)
    decreases q.box.Size(), 1, 0
  {
    var held := q.held;
    if p.x == held.x && p.y == held.y {
    } else if !q.box.CanSplit() {
      assert Insert(q, p).notes == [Pair(held.body, p.body)];
      assert held in Held(q);
    } else {
      SplitNoInvention(q, p);
    }
  }

  lemma {:induction false} SplitNoInvention(q: Quad, p: Particle)
    requires q.Leaf? && q.box.CanSplit() && !(p.x == q.held.x && p.y == q.held.y)
    ensures Held(Insert(q, p).node) <= Held(q) + multiset{p}
    ensures ReportsFrom(Insert(q, p).notes, q, p)
    decreases q.box.Size(), 0, 2
  {
    var first := Insert(Split(q.box), q.held);
    var second := Insert(first.node, p);
    InsertSplitting(q, p);
    InsertNoInvention(Split(q.box), q.held);
    InsertNoInvention(first.node, p);
    ChainNoInvention(q, p, first, second);
  }

  lemma HeadIsMember<T>(s: seq<T>)
    requires s != []
    ensures s[0] in s
  {
  }

  /** The two inserts of a split, chained: the re-inserted body lands in a
      node that held nothing, so it reports nothing, and whatever the
      arriving body adds or reports is relative to the leaf's own body. */
  lemma ChainNoInvention(q: Quad, p: Particle, first: Inserted, second: Inserted)
    requires q.Leaf? && q.box.CanSplit()
    requires Held(first.node) <= Held(Split(q.box)) + multiset{q.held}
    requires ReportsFrom(first.notes, Split(q.box), q.held)
    requires Held(second.node) <= Held(first.node) + multiset{p}
    requires ReportsFrom(second.notes, first.node, p)
    ensures Held(second.node) <= Held(q) + multiset{p}
    ensures ReportsFrom(first.notes + second.notes, q, p)
  {
    assert Held(q) == multiset{q.held};
    if first.notes != [] {
      HeadIsMember(first.notes);
      assert false;
    }
    assert first.notes + second.notes == second.notes;
    forall n | n in second.notes
      ensures exists h :: h in Held(q) && h.body == n.first
    {
      var h :| h in Held(first.node) && h.body == n.first;
      assert h in Held(q);
    }
  }

  lemma {:induction false} DescendNoInvention(q: Quad, p: Particle)
    requires q.Internal? && WellFormed(q) && !Rejects(q.box, p)
    ensures Held(Insert(q, p).node) <= Held(q) + multiset{p}
    ensures ReportsFrom(Insert(q, p).notes, q, p)
    decreases q.box.Size(), 0, 0
  {
    var k := Route(q.box, p.x, p.y);
    InsertDescending(q, p);
    ChildOf(q, k);
    ChildHeld(q, k);
    InsertNoInvention(Child(q, k), p);
    var c := Insert(Child(q, k), p);
    AddToChildTotals(q, k, c.node, p);
    MultisetCancel(Held(AddToChild(q, k, c.node, p)), Held(Child(q, k)), Held(q), Held(c.node), multiset{p});
    forall n | n in c.notes
      ensures exists h :: h in Held(q) && h.body == n.first
    {
      var h :| h in Held(Child(q, k)) && h.body == n.first;
      assert h in Held(q);
    }
  }

  /** Insert stored `p` once: it joins the held bodies and getMass(), no
      collision is reported, and the overcount is unchanged. */
  ghost predicate StoredOnce(q: Quad, p: Particle, r: Inserted) {
    && Held(r.node) == Held(q) + multiset{p}
    && TotalMass(r.node) == TotalMass(q) + p.m
    && r.notes == []
    && Overcount(r.node) == Overcount(q)
  }

  /** Insert dropped `p`: nothing held changes, and either a collision was
      reported or a held body sits at `p`'s coordinates. If the node is
      internal afterwards, its stored mass counted `p` anyway. */
  ghost predicate DroppedWithReason(q: Quad, p: Particle, r: Inserted) {
    && Held(r.node) == Held(q)
    && TotalMass(r.node) == TotalMass(q)
    && (r.notes != [] || CoordsTaken(q, p.x, p.y))
    && Overcount(r.node) == Overcount(q) + (if r.node.Internal? then p.m else 0.0)
  }

  /** For a body strictly inside the box of a tree whose bodies all sit in
      their leaves' boxes, insert either stores it exactly once or drops it
      with a reason, and it answers false exactly when the node is a leaf
      that refused it (same coordinates, or too small to split). */
  lemma {:induction false} InsertPlaced(q: Quad, p: Particle)
    requires WellFormed(q) && Placed(q) && Inside(q.box, p)
    ensures Placed(Insert(q, p).node)
    ensures StoredOnce(q, p, Insert(q, p)) || DroppedWithReason(q, p, Insert(q, p))
    ensures !Insert(q, p).ok <==> q.Leaf? && (CoordsTaken(q, p.x, p.y) || !q.box.CanSplit())
    decreases q.box.Size(), if q.Internal? then 0 else 1, 1
  {
    match q
    case Empty(_) =>
    case Leaf(_, _) =>
      LeafPlaced(q, p);
    case Internal(_, _, _, _, _, _, _, _) =>
      DescendPlaced(q, p);
  }

  lemma {:induction false} LeafPlaced(q: Quad, p: Particle)
    requires q.Leaf? && Placed(q) && Inside(q.box, p)
    ensures Placed(Insert(q, p).node)
    ensures StoredOnce(q, p, Insert(q, p)) || DroppedWithReason(q, p, Insert(q, p))
    ensures !Insert(q, p).ok <==> CoordsTaken(q, p.x, p.y) || !q.box.CanSplit()
    decreases q.box.Size(), 1, 0
  {
    var held := q.held;
    assert Held(q) == multiset{held};
    if p.x == held.x && p.y == held.y {
      assert held in Held(q);
    } else if !q.box.CanSplit() {
    } else {
      SplitPlaced(q, p);
    }
  }

  /** Re-inserting the leaf's own body into the freshly split node stores it
      in the empty quarter that contains it. */
  lemma ReinsertIntoSplit(b: Box, held: Particle)
    requires b.CanSplit() && Inside(b, held)
    ensures var k := Route(b, held.x, held.y);
            var first := Insert(Split(b), held);
            && first == Inserted(AddToChild(Split(b), k, Leaf(QuarterBox(b, k), held), held), true, [])
            && Placed(first.node)
            && Held(first.node) == multiset{held}
            && StoredMass(first.node) == held.m && TotalMass(first.node) == held.m
  {
    var k := Route(b, held.x, held.y);
    RouteInside(b, held);
    InsertDescending(Split(b), held);
    AddToChildShape(Split(b), k, Leaf(QuarterBox(b, k), held), held);
    AddToChildTotals(Split(b), k, Leaf(QuarterBox(b, k), held), held);
  }

  lemma {:induction false} SplitPlaced(q: Quad, p: Particle)
    requires q.Leaf? && q.box.CanSplit() && !(p.x == q.held.x && p.y == q.held.y)
    requires Placed(q) && Inside(q.box, p)
    ensures Placed(Insert(q, p).node)
    ensures StoredOnce(q, p, Insert(q, p)) || DroppedWithReason(q, p, Insert(q, p))
    ensures Insert(q, p).ok && !CoordsTaken(q, p.x, p.y)
    decreases q.box.Size(), 0, 2
  {
    var first := Insert(Split(q.box), q.held);
    var second := Insert(first.node, p);
    InsertSplitting(q, p);
    ReinsertIntoSplit(q.box, q.held);
    InsertPlaced(first.node, p);
    ChainPlaced(q, p, first, second);
  }

  /** The two inserts of a split, chained: the leaf's own body is back in
      place with nothing reported, so whatever happens to the arriving body
      happens relative to the leaf. */
  lemma ChainPlaced(q: Quad, p: Particle, first: Inserted, second: Inserted)
    requires q.Leaf? && !(p.x == q.held.x && p.y == q.held.y)
    requires first.notes == [] && Held(first.node) == multiset{q.held}
    requires StoredMass(first.node) == q.held.m && TotalMass(first.node) == q.held.m
    requires first.node.Internal?
    requires StoredOnce(first.node, p, second) || DroppedWithReason(first.node, p, second)
    ensures var ins := Inserted(second.node, true, first.notes + second.notes);
            StoredOnce(q, p, ins) || DroppedWithReason(q, p, ins)
    ensures !CoordsTaken(q, p.x, p.y)
  {
    var ins := Inserted(second.node, true, first.notes + second.notes);
    assert ins.notes == second.notes;
    assert Held(q) == Held(first.node) && TotalMass(q) == TotalMass(first.node);
    assert Overcount(first.node) == Overcount(q);
    LeafCoordsTaken(q, p.x, p.y);
    assert CoordsTaken(first.node, p.x, p.y) == CoordsTaken(q, p.x, p.y);
  }

  /** A leaf has a body at (x, y) exactly when its own body sits there. */
  lemma LeafCoordsTaken(q: Quad, x: real, y: real)
    requires q.Leaf?
    ensures CoordsTaken(q, x, y) <==> q.held.x == x && q.held.y == y
  {
    assert Held(q) == multiset{q.held};
    if q.held.x == x && q.held.y == y {
      assert q.held in Held(q);
    }
  }

  lemma {:induction false} DescendPlaced(q: Quad, p: Particle)
    requires q.Internal? && WellFormed(q) && Placed(q) && Inside(q.box, p)
    ensures Placed(Insert(q, p).node)
    ensures StoredOnce(q, p, Insert(q, p)) || DroppedWithReason(q, p, Insert(q, p))
    ensures Insert(q, p).ok
    decreases q.box.Size(), 0, 0
  {
    var k := Route(q.box, p.x, p.y);
    RouteInside(q.box, p);
    InsertDescending(q, p);
    ChildOf(q, k);
    ChildHeld(q, k);
    InsertPlaced(Child(q, k), p);
    var c := Insert(Child(q, k), p);
    ChainDescendPlaced(q, p, k, c);
  }

  /** An internal node that passed `p` to child `k`: what the child did with
      it is what the node did with it, and the node's own mass counted it
      either way. */
  lemma ChainDescendPlaced(q: Quad, p: Particle, k: Quarter, c: Inserted)
    requires q.Internal? && WellFormed(q) && Placed(q)
    requires WellFormed(c.node) && c.node.box == QuarterBox(q.box, k)
    requires Placed(c.node)
    requires StoredOnce(Child(q, k), p, c) || DroppedWithReason(Child(q, k), p, c)
    ensures var ins := Inserted(AddToChild(q, k, c.node, p), true, c.notes);
            Placed(ins.node) && (StoredOnce(q, p, ins) || DroppedWithReason(q, p, ins))
  {
    ChildHeld(q, k);
    AddToChildShape(q, k, c.node, p);
    if StoredOnce(Child(q, k), p, c) {
      DescendStored(q, p, k, c);
    } else {
      DescendDropped(q, p, k, c);
    }
  }

  lemma DescendStored(q: Quad, p: Particle, k: Quarter, c: Inserted)
    requires q.Internal? && StoredOnce(Child(q, k), p, c)
    ensures StoredOnce(q, p, Inserted(AddToChild(q, k, c.node, p), true, c.notes))
  {
    var r := AddToChild(q, k, c.node, p);
    AddToChildMass(q, k, c.node, p);
    AddToChildTotals(q, k, c.node, p);
    MultisetCancelEq(Held(r), Held(Child(q, k)), Held(q), multiset{p});
  }

  lemma DescendDropped(q: Quad, p: Particle, k: Quarter, c: Inserted)
    requires q.Internal? && DroppedWithReason(Child(q, k), p, c)
    ensures DroppedWithReason(q, p, Inserted(AddToChild(q, k, c.node, p), true, c.notes))
  {
    var r := AddToChild(q, k, c.node, p);
    assert Held(r) == Held(q) && TotalMass(r) == TotalMass(q) && StoredMass(r) == StoredMass(q) + p.m by {
      AddToChildMass(q, k, c.node, p);
      AddToChildTotals(q, k, c.node, p);
      MultisetCancelEq(Held(r), Held(Child(q, k)), Held(q), multiset{});
    }
    ChildCoordsTaken(q, k, p.x, p.y);
  }

  /** A body at (x, y) below child `k` is a body at (x, y) below the node. */
  lemma ChildCoordsTaken(q: Quad, k: Quarter, x: real, y: real)
    requires q.Internal?
    ensures CoordsTaken(Child(q, k), x, y) ==> CoordsTaken(q, x, y)
  {
    if CoordsTaken(Child(q, k), x, y) {
      var h :| h in Held(Child(q, k)) && h.x == x && h.y == y;
      ChildHeld(q, k);
      assert h in Held(q);
    }
  }

  lemma MultisetCancelEq<T>(a: multiset<T>, b: multiset<T>, x: multiset<T>, z: multiset<T>)
    requires a + b == x + (b + z)
    ensures a == x + z
  {
    forall e
      ensures a[e] == (x + z)[e]
    {
      assert (a + b)[e] == (x + (b + z))[e];
    }
  }

  /** The mass an internal node stores is at least the sum of what its four
      children store, all the way down. */
  predicate Covers(q: Quad) {
    match q
    case Empty(_) => true
    case Leaf(_, _) => true
    case Internal(_, m, _, _, ul, ur, ll, lr) =>
      && m >= StoredMass(ul) + StoredMass(ur) + StoredMass(ll) + StoredMass(lr)
      && Covers(ul) && Covers(ur) && Covers(ll) && Covers(lr)
  }

  /** Every held body has a mass of at least 0. */
  ghost predicate NonNegative(q: Quad) {
    forall h :: h in Held(q) ==> h.m >= 0.0
  }

  lemma AddToChildCover(q: Quad, k: Quarter, c: Quad, p: Particle)
    requires q.Internal? && Covers(q) && Covers(c)
    requires StoredMass(c) <= StoredMass(Child(q, k)) + p.m
    ensures Covers(AddToChild(q, k, c, p))
    ensures StoredMass(AddToChild(q, k, c, p)) == StoredMass(q) + p.m
  {
  }

  /** Insert keeps Covers, and a node's stored mass grows by at most the
      arriving body's mass (it grows by exactly that mass in an internal node
      whose guard lets the body in, whatever happens below). */
  lemma {:induction false} InsertKeepsCover(q: Quad, p: Particle)
    requires WellFormed(q) && Covers(q) && NonNegative(q) && p.m >= 0.0
    ensures Covers(Insert(q, p).node)
    ensures StoredMass(Insert(q, p).node) <= StoredMass(q) + p.m
    decreases q.box.Size(), if q.Internal? then 0 else 1, 1
  {
    match q
    case Empty(_) =>
    case Leaf(b, held) =>
      if !(p.x == held.x && p.y == held.y) && b.CanSplit() {
        SplitKeepsCover(q, p);
      }
    case Internal(b, _, _, _, _, _, _, _) =>
      if !Rejects(b, p) {
        DescendKeepsCover(q, p);
      }
  }

  lemma {:induction false} SplitKeepsCover(q: Quad, p: Particle)
    requires q.Leaf? && q.box.CanSplit() && !(p.x == q.held.x && p.y == q.held.y)
    requires NonNegative(q) && p.m >= 0.0
    ensures Covers(Insert(q, p).node)
    ensures StoredMass(Insert(q, p).node) <= StoredMass(q) + p.m
    decreases q.box.Size(), 1, 0
  {
    var first := Insert(Split(q.box), q.held);
    var second := Insert(first.node, p);
    InsertSplitting(q, p);
    assert Insert(q, p).node == second.node;
    assert q.held in Held(q);
    InsertKeepsCover(Split(q.box), q.held);
    InsertNoInvention(Split(q.box), q.held);
    assert NonNegative(first.node);
    InsertKeepsCover(first.node, p);
  }

  lemma {:induction false} DescendKeepsCover(q: Quad, p: Particle)
    requires q.Internal? && WellFormed(q) && Covers(q) && NonNegative(q) && !Rejects(q.box, p) && p.m >= 0.0
    ensures Covers(Insert(q, p).node)
    ensures StoredMass(Insert(q, p).node) <= StoredMass(q) + p.m
    decreases q.box.Size(), 0, 0
  {
    var k := Route(q.box, p.x, p.y);
    InsertDescending(q, p);
    ChildOf(q, k);
    ChildHeld(q, k);
    assert Covers(Child(q, k));
    InsertKeepsCover(Child(q, k), p);
    var c := Insert(Child(q, k), p);
    AddToChildCover(q, k, c.node, p);
    assert Insert(q, p).node == AddToChild(q, k, c.node, p);
  }

  /** Under Covers the stored mass is never below getMass(). */
  lemma {:induction false} StoredCoversTotal(q: Quad)
    requires Covers(q)
    ensures TotalMass(q) <= StoredMass(q)
  {
    match q
    case Empty(_) =>
    case Leaf(_, _) =>
    case Internal(_, _, _, _, ul, ur, ll, lr) =>
      StoredCoversTotal(ul);
      StoredCoversTotal(ur);
      StoredCoversTotal(ll);
      StoredCoversTotal(lr);
  }

  lemma {:induction false} InsertAllKeepsCover(q: Quad, ps: seq<Particle>)
    requires WellFormed(q) && Covers(q) && NonNegative(q)
    requires forall i :: 0 <= i < |ps| ==> ps[i].m >= 0.0
    ensures Covers(InsertAll(q, ps).node) && NonNegative(InsertAll(q, ps).node)
    decreases |ps|
  {
    if ps != [] {
      var before := InsertAll(q, ps[..|ps| - 1]).node;
      InsertAllKeepsCover(q, ps[..|ps| - 1]);
      InsertKeepsCover(before, ps[|ps| - 1]);
      InsertNoInvention(before, ps[|ps| - 1]);
    }
  }

  /** For bodies of non-negative mass, the root that create builds stores at least the
      mass getMass() recomputes: failed nested inserts can only leave mass
      behind, never take it away. */
  lemma CreateNeverUndercounts(ps: seq<Particle>, width: int, height: int)
    requires forall i :: 0 <= i < |ps| ==> ps[i].m >= 0.0
    ensures TotalMass(Create(ps, width, height).node) <= StoredMass(Create(ps, width, height).node)
  {
    InsertAllKeepsCover(Empty(Box(0, 0, width, height)), ps);
    StoredCoversTotal(Create(ps, width, height).node);
  }

  /** Sum of the masses in a list, in list order. */
  function MassSum(ps: seq<Particle>): real
    decreases |ps|
  {
    if ps == [] then 0.0 else MassSum(ps[..|ps| - 1]) + ps[|ps| - 1].m
  }

  /** No two bodies in the list share coordinates. */
  predicate DistinctCoords(ps: seq<Particle>) {
    forall i, j :: 0 <= i < j < |ps| ==> !(ps[i].x == ps[j].x && ps[i].y == ps[j].y)
  }

  /** Building from a tree whose bodies are all placed, with bodies that all
      lie strictly inside the box, keeps every body inside its leaf's box. */
  lemma {:induction false} InsertAllPlaced(q: Quad, ps: seq<Particle>)
    requires WellFormed(q) && Placed(q)
    requires forall i :: 0 <= i < |ps| ==> Inside(q.box, ps[i])
    ensures Placed(InsertAll(q, ps).node)
    decreases |ps|
  {
    if ps != [] {
      InsertAllPlaced(q, ps[..|ps| - 1]);
      InsertPlaced(InsertAll(q, ps[..|ps| - 1]).node, ps[|ps| - 1]);
    }
  }

  /** Building from an empty root: if nothing was reported and no two bodies
      share coordinates, every body was stored exactly once and nothing was
      overcounted. */
  lemma {:induction false} InsertAllExact(b: Box, ps: seq<Particle>)
    requires forall i :: 0 <= i < |ps| ==> Inside(b, ps[i])
    requires InsertAll(Empty(b), ps).notes == [] && DistinctCoords(ps)
    ensures Held(InsertAll(Empty(b), ps).node) == multiset(ps)
    ensures TotalMass(InsertAll(Empty(b), ps).node) == MassSum(ps)
    ensures Overcount(InsertAll(Empty(b), ps).node) == 0.0
    decreases |ps|
  {
    if ps != [] {
      var init := ps[..|ps| - 1];
      var p := ps[|ps| - 1];
      var before := InsertAll(Empty(b), init);
      var last := Insert(before.node, p);
      assert InsertAll(Empty(b), ps) == Built(last.node, before.notes + last.notes);
      assert before.notes == [] && last.notes == [];
      assert DistinctCoords(init);
      InsertAllExact(b, init);
      LastStored(b, ps);
      LastSplit(ps);
    }
  }

  /** The step of InsertAllExact: the last body lands in a tree that holds
      exactly the others, so with nothing reported it is stored once. */
  lemma LastStored(b: Box, ps: seq<Particle>)
    requires ps != [] && DistinctCoords(ps)
    requires forall i :: 0 <= i < |ps| ==> Inside(b, ps[i])
    requires Held(InsertAll(Empty(b), ps[..|ps| - 1]).node) == multiset(ps[..|ps| - 1])
    requires Insert(InsertAll(Empty(b), ps[..|ps| - 1]).node, ps[|ps| - 1]).notes == []
    ensures var before := InsertAll(Empty(b), ps[..|ps| - 1]).node;
      StoredOnce(before, ps[|ps| - 1], Insert(before, ps[|ps| - 1]))
  {
    var init := ps[..|ps| - 1];
    var before := InsertAll(Empty(b), init).node;
    assert forall i :: 0 <= i < |init| ==> Inside(b, init[i]);
    InsertAllPlaced(Empty(b), init);
    InsertPlaced(before, ps[|ps| - 1]);
    FreshCoords(ps, before);
  }

  /** The bodies and the mass of a list are those of its prefix plus its
      last element. */
  lemma LastSplit(ps: seq<Particle>)
    requires ps != []
    ensures multiset(ps) == multiset(ps[..|ps| - 1]) + multiset{ps[|ps| - 1]}
    ensures MassSum(ps) == MassSum(ps[..|ps| - 1]) + ps[|ps| - 1].m
  {
    var init, p := ps[..|ps| - 1], ps[|ps| - 1];
    assert ps == init + [p];
    calc {
      multiset(ps);
      multiset(init + [p]);
      multiset(init) + multiset([p]);
    }
  }

  /** The last body of a list with distinct coordinates finds its coordinates
      free in a tree that holds exactly the rest of the list. */
  lemma FreshCoords(ps: seq<Particle>, t: Quad)
    requires ps != [] && DistinctCoords(ps)
    requires Held(t) == multiset(ps[..|ps| - 1])
    ensures !CoordsTaken(t, ps[|ps| - 1].x, ps[|ps| - 1].y)
  {
    var p := ps[|ps| - 1];
    var init := ps[..|ps| - 1];
    forall h | h in Held(t)
      ensures !(h.x == p.x && h.y == p.y)
    {
      assert h in init;
      var j :| 0 <= j < |init| && init[j] == h;
      assert ps[j] == h;
    }
  }

  /** create stores every body exactly once, and the root's stored mass is
      exactly getMass(), when all bodies lie strictly inside the universe,
      no two share coordinates and no collision was reported. */
  lemma CreateStoresAll(ps: seq<Particle>, width: int, height: int)
    requires forall i :: 0 <= i < |ps| ==> Inside(Box(0, 0, width, height), ps[i])
    requires DistinctCoords(ps)
    requires Create(ps, width, height).notes == []
    ensures Held(Create(ps, width, height).node) == multiset(ps)
    ensures TotalMass(Create(ps, width, height).node) == MassSum(ps)
    ensures StoredMass(Create(ps, width, height).node) == TotalMass(Create(ps, width, height).node)
  {
    InsertAllExact(Box(0, 0, width, height), ps);
  }

  /** The bodies a list of snapshots speaks of. */
  ghost function BodiesOf(ps: seq<Particle>): set<Body> {
    set p | p in ps :: p.body
  }

  /** The bodies a node holds. */
  ghost function HeldBodies(q: Quad): set<Body> {
    set h | h in Held(q) :: h.body
  }

  /** Inserting a list invents nothing: the node holds at most what it held
      plus the list, and every reported pair names a body that was held or
      inserted on its left and an inserted body on its right. */
  lemma {:induction false} InsertAllNames(q: Quad, ps: seq<Particle>)
    requires WellFormed(q)
    ensures Held(InsertAll(q, ps).node) <= Held(q) + multiset(ps)
    ensures forall n :: n in InsertAll(q, ps).notes ==>
      n.first in HeldBodies(q) + BodiesOf(ps) && n.second in BodiesOf(ps)
    decreases |ps|
  {
    if ps != [] {
      InsertAllNames(q, ps[..|ps| - 1]);
      InsertAllHeldStep(q, ps);
      InsertAllNamesStep(q, ps);
    }
  }

  /** The step of InsertAllNames for what the node holds. */
  lemma InsertAllHeldStep(q: Quad, ps: seq<Particle>)
    requires WellFormed(q) && ps != []
    requires Held(InsertAll(q, ps[..|ps| - 1]).node) <= Held(q) + multiset(ps[..|ps| - 1])
    ensures Held(InsertAll(q, ps).node) <= Held(q) + multiset(ps)
  {
    var init, p := ps[..|ps| - 1], ps[|ps| - 1];
    var before := InsertAll(q, init);
    assert InsertAll(q, ps).node == Insert(before.node, p).node;
    InsertNoInvention(before.node, p);
    LastSplit(ps);
  }

  /** The step of InsertAllNames for the reports: what holds for all but the
      last body holds once the last one is inserted. */
  lemma InsertAllNamesStep(q: Quad, ps: seq<Particle>)
    requires WellFormed(q) && ps != []
    requires Held(InsertAll(q, ps[..|ps| - 1]).node) <= Held(q) + multiset(ps[..|ps| - 1])
    requires forall n :: n in InsertAll(q, ps[..|ps| - 1]).notes ==>
      n.first in HeldBodies(q) + BodiesOf(ps[..|ps| - 1]) && n.second in BodiesOf(ps[..|ps| - 1])
    ensures forall n :: n in InsertAll(q, ps).notes ==>
      n.first in HeldBodies(q) + BodiesOf(ps) && n.second in BodiesOf(ps)
  {
    var init, p := ps[..|ps| - 1], ps[|ps| - 1];
    var before := InsertAll(q, init);
    var last := Insert(before.node, p);
    assert InsertAll(q, ps).notes == before.notes + last.notes;
    assert BodiesOf(ps) == BodiesOf(init) + {p.body} by {
      assert ps == init + [p];
    }
    var allowed := HeldBodies(q) + BodiesOf(ps);
    assert forall n :: n in last.notes ==> n.first in allowed && n.second == p.body by {
      WithinBodies(Held(before.node), q, init);
      InsertNames(before.node, p, allowed);
    }
    NotesConcat(before.notes, last.notes, HeldBodies(q), BodiesOf(init), p.body);
  }

  /** Reports naming held or earlier bodies, followed by reports about one
      more body, name held or inserted bodies. */
  lemma NotesConcat(a: seq<Pair>, b: seq<Pair>, held: set<Body>, earlier: set<Body>, body: Body)
    requires forall n :: n in a ==> n.first in held + earlier && n.second in earlier
    requires forall n :: n in b ==> n.first in held + (earlier + {body}) && n.second == body
    ensures forall n :: n in a + b ==> n.first in held + (earlier + {body}) && n.second in earlier + {body}
  {
  }

  /** A node holding only what `q` held plus `ps` holds only their bodies. */
  lemma WithinBodies(m: multiset<Particle>, q: Quad, ps: seq<Particle>)
    requires m <= Held(q) + multiset(ps)
    ensures forall h :: h in m ==> h.body in HeldBodies(q) + BodiesOf(ps)
  {
    forall h | h in m
      ensures h.body in HeldBodies(q) + BodiesOf(ps)
    {
      assert h in Held(q) + multiset(ps);
      if h !in Held(q) {
        assert h in ps;
      }
    }
  }

  /** One insertion names only bodies the node held and the arriving one. */
  lemma InsertNames(q: Quad, p: Particle, allowed: set<Body>)
    requires WellFormed(q) && p.body in allowed
    requires forall h :: h in Held(q) ==> h.body in allowed
    ensures Held(Insert(q, p).node) <= Held(q) + multiset{p}
    ensures forall n :: n in Insert(q, p).notes ==> n.first in allowed && n.second == p.body
  {
    InsertNoInvention(q, p);
  }

  /** Every pair create reports names two of the inserted bodies. */
  lemma CreateNames(ps: seq<Particle>, width: int, height: int)
    ensures forall n :: n in Create(ps, width, height).notes ==>
      n.first in BodiesOf(ps) && n.second in BodiesOf(ps)
  {
    var root := Empty(Box(0, 0, width, height));
    InsertAllNames(root, ps);
    assert HeldBodies(root) == {};
  }

  /** The early return of updateGravity: the node's mass field is zero, or
      the node holds the very body the force is being computed for. */
  predicate SkipsGravity(q: Quad, body: Body)
    ensures q.Empty? ==> SkipsGravity(q, body)
  {
    StoredMass(q) == 0.0 || (q.Leaf? && q.held.body == body)
  }

  /** Bodies of positive mass give a positive getMass(). */
  lemma {:induction false} PositiveTotal(q: Quad)
    requires forall h :: h in Held(q) ==> h.m > 0.0
    ensures TotalMass(q) >= 0.0
    ensures Held(q) != multiset{} ==> TotalMass(q) > 0.0
  {
    match q
    case Empty(_) =>
    case Leaf(_, _) =>
    case Internal(_, _, _, _, ul, ur, ll, lr) =>
      PositiveTotal(ul);
      PositiveTotal(ur);
      PositiveTotal(ll);
      PositiveTotal(lr);
  }

  /** In a node whose stored masses cover getMass() and whose bodies all have
      positive mass, holding some body other than `body` means the node is
      not skipped when the force on `body` is computed. */
  lemma OthersAttract(q: Quad, body: Body, other: Particle)
    requires Covers(q)
    requires forall h :: h in Held(q) ==> h.m > 0.0
    requires other in Held(q) && other.body != body
    ensures !SkipsGravity(q, body)
  {
    PositiveTotal(q);
    StoredCoversTotal(q);
    if q.Leaf? {
      assert other == q.held;
    }
  }

  /** getCenterOfMass: the held body's position in a leaf, otherwise the
      integer midpoint of the box, whatever the node's mass. Either way the
      point lies in the node's closed box. */
  function CenterOfMass(q: Quad): (c: (real, real))
    ensures Placed(q) && q.box.xs <= q.box.xl && q.box.ys <= q.box.yl ==>
      q.box.xs as real <= c.0 <= q.box.xl as real && q.box.ys as real <= c.1 <= q.box.yl as real
  {
    if q.Leaf? then (q.held.x, q.held.y)
    else (q.box.CenterX() as real, q.box.CenterY() as real)
  }
}
