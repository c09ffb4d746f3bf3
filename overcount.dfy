/** A concrete run of create in which the mass the root stores and the mass
    getMass() recomputes part ways. */
module Overcount {
  import opened Config
  import opened Quadrants

  /** Three bodies of radius 1 in a 100 x 100 universe, the third at the first
      one's coordinates: the third insert is dropped in the upper-left leaf
      after the root has counted it, so the root stores mass 3 while
      getMass() answers 2. */
  lemma OvercountWitness(pa: Particle, pb: Particle, pc: Particle)
    requires pa.x == 10.0 && pa.y == 10.0 && pa.m == 1.0
    requires pb.x == 60.0 && pb.y == 60.0 && pb.m == 1.0
    requires pc.x == 10.0 && pc.y == 10.0 && pc.m == 1.0
    ensures StoredMass(Create([pa, pb, pc], 100, 100).node) == 3.0
    ensures TotalMass(Create([pa, pb, pc], 100, 100).node) == 2.0
  {
    var root := Box(0, 0, 100, 100);
    InsertAllThree(Empty(root), pa, pb, pc);
    assert Insert(Empty(root), pa).node == Leaf(root, pa);
    WitnessSplit(root, pa, pb);
    WitnessThird(root, pa, pb, pc, WitnessSecond(root, pa, pb));
  }

  /** create over three bodies is three inserts in list order. */
  lemma InsertAllThree(q: Quad, pa: Particle, pb: Particle, pc: Particle)
    requires WellFormed(q)
    ensures InsertAll(q, [pa, pb, pc]).node == Insert(Insert(Insert(q, pa).node, pb).node, pc).node
  {
    assert InsertAll(q, [pa]).node == Insert(q, pa).node by {
      InsertAllLast(q, [], pa);
      assert [] + [pa] == [pa];
    }
    assert InsertAll(q, [pa, pb]).node == Insert(InsertAll(q, [pa]).node, pb).node by {
      InsertAllLast(q, [pa], pb);
      assert [pa] + [pb] == [pa, pb];
    }
    assert InsertAll(q, [pa, pb, pc]).node == Insert(InsertAll(q, [pa, pb]).node, pc).node by {
      InsertAllLast(q, [pa, pb], pc);
      assert [pa, pb] + [pc] == [pa, pb, pc];
    }
  }

  /** Unfolds InsertAll once at the end of the list. */
  lemma InsertAllLast(q: Quad, ps: seq<Particle>, p: Particle)
    requires WellFormed(q)
    ensures InsertAll(q, ps + [p]).node == Insert(InsertAll(q, ps).node, p).node
  {
    assert (ps + [p])[..|ps|] == ps;
  }

  /** The witness after one body: the root was split and `pa` re-inserted
      into its upper-left quarter. */
  function WitnessFirst(root: Box, pa: Particle): Quad {
    Internal(root, 1.0, 10.0, 10.0, Leaf(QuarterBox(root, UpperLeft), pa), Empty(QuarterBox(root, UpperRight)),
             Empty(QuarterBox(root, LowerLeft)), Empty(QuarterBox(root, LowerRight)))
  }

  /** The witness after two bodies: `pa` in the upper-left and `pb` in the
      lower-right quarter. */
  function WitnessSecond(root: Box, pa: Particle, pb: Particle): Quad {
    Internal(root, 2.0, 70.0, 70.0, Leaf(QuarterBox(root, UpperLeft), pa), Empty(QuarterBox(root, UpperRight)),
             Empty(QuarterBox(root, LowerLeft)), Leaf(QuarterBox(root, LowerRight), pb))
  }

  lemma WitnessSplit(root: Box, pa: Particle, pb: Particle)
    requires root == Box(0, 0, 100, 100)
    requires pa.x == 10.0 && pa.y == 10.0 && pa.m == 1.0
    requires pb.x == 60.0 && pb.y == 60.0 && pb.m == 1.0
    ensures Insert(Leaf(root, pa), pb).node == WitnessSecond(root, pa, pb)
  {
    var first := WitnessFirst(root, pa);
    assert root.CanSplit() && Insert(Split(root), pa).node == first by {
      WitnessReinsert(root, pa);
    }
    assert WellFormed(first) && Insert(first, pb).node == WitnessSecond(root, pa, pb) by {
      WitnessSecondBody(root, pa, pb, first);
    }
    assert Insert(Leaf(root, pa), pb).node == Insert(Insert(Split(root), pa).node, pb).node by {
      InsertSplitting(Leaf(root, pa), pb);
    }
  }

  lemma WitnessReinsert(root: Box, pa: Particle)
    requires root == Box(0, 0, 100, 100)
    requires pa.x == 10.0 && pa.y == 10.0 && pa.m == 1.0
    ensures root.CanSplit() && Insert(Split(root), pa).node == WitnessFirst(root, pa)
  {
    assert Route(root, pa.x, pa.y) == UpperLeft;
    ReinsertIntoSplit(root, pa);
  }

  lemma WitnessSecondBody(root: Box, pa: Particle, pb: Particle, first: Quad)
    requires root == Box(0, 0, 100, 100)
    requires pb.x == 60.0 && pb.y == 60.0 && pb.m == 1.0
    requires first == WitnessFirst(root, pa)
    ensures WellFormed(first)
    ensures Insert(first, pb).node == WitnessSecond(root, pa, pb)
  {
    assert Route(root, pb.x, pb.y) == LowerRight;
    InsertDescending(first, pb);
  }

  lemma WitnessThird(root: Box, pa: Particle, pb: Particle, pc: Particle, t2: Quad)
    requires root == Box(0, 0, 100, 100)
    requires pa.x == 10.0 && pa.y == 10.0 && pa.m == 1.0
    requires pb.x == 60.0 && pb.y == 60.0 && pb.m == 1.0
    requires pc.x == 10.0 && pc.y == 10.0 && pc.m == 1.0
    requires t2 == WitnessSecond(root, pa, pb)
    ensures WellFormed(t2)
    ensures StoredMass(Insert(t2, pc).node) == 3.0 && TotalMass(Insert(t2, pc).node) == 2.0
  {
    assert Route(root, pc.x, pc.y) == UpperLeft;
    InsertDescending(t2, pc);
    assert Insert(t2.ul, pc) == Inserted(t2.ul, false, []);
  }
}
