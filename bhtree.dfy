/** Building the Barnes-Hut tree for one simulation step. The tree itself is
    the value `Quadrants.Quad`; what stays imperative here is the loop of
    create and the collision registry it fills, in the order insert reports
    to it. */
module BarnesHut {
  import opened Bodies
  import opened Collisions
  import opened Quadrants

  /** What the tree reads from each body when it inserts it: the circle
      centre and getMass(). */
  function Snapshot(bodies: seq<Body>): (ps: seq<Particle>)
    reads set b | b in bodies
    ensures |ps| == |bodies|
    ensures forall i :: 0 <= i < |ps| ==>
      ps[i] == Particle(bodies[i], bodies[i].GetX(), bodies[i].GetY(), bodies[i].GetMass())
    decreases |bodies|
  {
    if bodies == [] then []
    else
      var b := bodies[|bodies| - 1];
      Snapshot(bodies[..|bodies| - 1]) + [Particle(b, b.GetX(), b.GetY(), b.GetMass())]
  }

  /** Sends the notifications one insert made to the registry, in the order
      it made them. */
  method Record(registry: CollisionRegistry, notes: seq<Pair>)
    modifies registry`pairs
    ensures registry.pairs == ApplyNotes(old(registry.pairs), notes)
  {
    var i := 0;
    while i < |notes|
      invariant 0 <= i <= |notes|
      invariant registry.pairs == ApplyNotes(old(registry.pairs), notes[..i])
    {
      registry.Notify(notes[i].first, notes[i].second);
      ApplyNotesAppend(old(registry.pairs), notes[..i], [notes[i]]);
      assert notes[..i] + [notes[i]] == notes[..i + 1];
      i := i + 1;
    }
    assert notes[..|notes|] == notes;
  }

  /** create: a root over the whole universe, then every body in list order,
      ignoring what each insert answers. The tree is the model's create over
      the bodies as read, and the registry holds every collision the inserts
      reported, later reports for the same body overwriting earlier ones. */
  method Create(bodies: seq<Body>, width: int, height: int, registry: CollisionRegistry)
    returns (tree: Quad)
    modifies registry`pairs
    ensures tree == Quadrants.Create(old(Snapshot(bodies)), width, height).node
    ensures registry.pairs == ApplyNotes(old(registry.pairs), Quadrants.Create(old(Snapshot(bodies)), width, height).notes)
  {
    ghost var ps := Snapshot(bodies);
    var root := Empty(Box(0, 0, width, height));
    tree := root;
    var i := 0;
    while i < |bodies|
      invariant 0 <= i <= |bodies|
      invariant ps == Snapshot(bodies)
      invariant WellFormed(tree) && tree == InsertAll(root, ps[..i]).node
      invariant registry.pairs == ApplyNotes(old(registry.pairs), InsertAll(root, ps[..i]).notes)
    {
      var b := bodies[i];
      ghost var before := InsertAll(root, ps[..i]);
      var r := Insert(tree, Particle(b, b.GetX(), b.GetY(), b.GetMass()));
      Record(registry, r.notes);
      tree := r.node;
      assert ps[..i + 1][..i] == ps[..i];
      ApplyNotesAppend(old(registry.pairs), before.notes, r.notes);
      i := i + 1;
    }
    assert ps[..|bodies|] == ps;
  }
}
