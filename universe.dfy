/** The universe: the live list of bodies, the sun, the collision registry,
    and one simulation step (build the tree, move the bodies up to the first
    one that left the screen, resolve collisions, drop what was destroyed). */
module Simulation {
  import opened Config
  import opened Bodies
  import opened Collisions
  import opened Quadrants
  import BarnesHut

  datatype Option<T> = None | Some(value: T)

  /** No body appears twice in a list. */
  predicate Distinct(s: seq<Body>) {
    forall i, j :: 0 <= i < j < |s| ==> s[i] != s[j]
  }

  // ---------------------------------------------------------------------
  // List operations
  // ---------------------------------------------------------------------

  /** List.remove(Object): the first occurrence of `x` is taken out, the rest
      keeps its order; a list without `x` is left as it is. */
  function RemoveFirst(s: seq<Body>, x: Body): (r: seq<Body>)
    ensures x in s ==> multiset(r) == multiset(s) - multiset{x} && |r| == |s| - 1
    ensures x !in s ==> r == s
  {
    if s == [] then []
    else
      assert s == [s[0]] + s[1..];
      if s[0] == x then s[1..]
      else [s[0]] + RemoveFirst(s[1..], x)
  }

  /** In a list without repetitions, removing a body removes it entirely and
      keeps the list free of repetitions. */
  lemma {:induction false} RemoveFirstDistinct(s: seq<Body>, x: Body)
    requires Distinct(s)
    ensures Distinct(RemoveFirst(s, x))
    ensures x !in RemoveFirst(s, x)
    ensures forall b :: b in RemoveFirst(s, x) <==> b in s && b != x
    decreases |s|
  {
    if s != [] {
      assert s == [s[0]] + s[1..];
      assert Distinct(s[1..]);
      if s[0] != x {
        RemoveFirstDistinct(s[1..], x);
        assert s[0] !in s[1..];
      }
    }
  }

  /** removeAll: every element of `s` that occurs in `d` is dropped, the rest
      keeps its order. */
  function Without(s: seq<Body>, d: seq<Body>): (r: seq<Body>)
    ensures |r| <= |s|
    decreases |s|
  {
    if s == [] then []
    else Without(s[..|s| - 1], d) + (if s[|s| - 1] in d then [] else [s[|s| - 1]])
  }

  /** What removeAll keeps: exactly the bodies of `s` that are not in `d`. */
  lemma {:induction false} WithoutMembers(s: seq<Body>, d: seq<Body>)
    ensures forall b :: b in Without(s, d) <==> b in s && b !in d
    decreases |s|
  {
    if s != [] {
      var init, last := s[..|s| - 1], s[|s| - 1];
      WithoutMembers(init, d);
      assert s == init + [last];
    }
  }

  /** removeAll with nothing to remove changes nothing. */
  lemma {:induction false} WithoutNothing(s: seq<Body>)
    ensures Without(s, []) == s
    decreases |s|
  {
    if s != [] {
      var init, last := s[..|s| - 1], s[|s| - 1];
      WithoutNothing(init);
      assert Without(s, []) == Without(init, []) + [last];
      assert s == init + [last];
    }
  }

  /** removeAll keeps a list free of repetitions. */
  lemma {:induction false} WithoutDistinct(s: seq<Body>, d: seq<Body>)
    requires Distinct(s)
    ensures Distinct(Without(s, d))
    decreases |s|
  {
    if s != [] {
      var init, last := s[..|s| - 1], s[|s| - 1];
      assert Distinct(init);
      WithoutDistinct(init, d);
      assert last !in init;
      WithoutMembers(init, d);
      assert last !in Without(init, d);
    }
  }

  /** The first body (in list order) whose circle contains the point. */
  function FirstContaining(bodies: seq<Body>, x: int, y: int): (r: Option<nat>)
    reads set b | b in bodies
    ensures r.Some? ==> r.value < |bodies| && bodies[r.value].ContainsPoint(x, y)
    ensures r.Some? ==> forall j :: 0 <= j < r.value ==> !bodies[j].ContainsPoint(x, y)
    ensures r.None? ==> forall j :: 0 <= j < |bodies| ==> !bodies[j].ContainsPoint(x, y)
    decreases |bodies|
  {
    if bodies == [] then None
    else if bodies[0].ContainsPoint(x, y) then Some(0)
    else
      match FirstContaining(bodies[1..], x, y)
      case None => None
      case Some(i) => Some(i + 1)
  }

  // ---------------------------------------------------------------------
  // The bounds scan of update
  // ---------------------------------------------------------------------

  /** A body at or beyond any edge of the universe. */
  predicate OutOfBounds(m: Motion, width: int, height: int)
    ensures !OutOfBounds(m, width, height) ==> Box(0, 0, width, height).HasPoint(m.cx, m.cy)
  {
    m.cx <= 0.0 || m.cx >= width as real || m.cy <= 0.0 || m.cy >= height as real
  }

  /** The index at which the scan stops: the first body out of bounds, or
      the length of the list when every body is inside. */
  function FirstOut(ps: seq<Motion>, width: int, height: int): (k: nat)
    ensures k <= |ps|
    ensures forall j :: 0 <= j < k ==> !OutOfBounds(ps[j], width, height)
    ensures k < |ps| ==> OutOfBounds(ps[k], width, height)
    decreases |ps|
  {
    if ps == [] || OutOfBounds(ps[0], width, height) then 0
    else 1 + FirstOut(ps[1..], width, height)
  }

  /** Which body the scan marks destroyed: the one it stopped at, if any. */
  function Escaped(bodies: seq<Body>, stop: nat): seq<Body> {
    if stop < |bodies| then [bodies[stop]] else []
  }

  /** The scan's stopping point is the only index with nothing out of bounds
      before it and, unless it is the end, an out-of-bounds body at it. */
  lemma {:induction false} FirstOutUnique(ps: seq<Motion>, width: int, height: int, k: nat)
    requires k <= |ps|
    requires forall j :: 0 <= j < k ==> !OutOfBounds(ps[j], width, height)
    requires k < |ps| ==> OutOfBounds(ps[k], width, height)
    ensures k == FirstOut(ps, width, height)
    decreases |ps|
  {
    if ps != [] && !OutOfBounds(ps[0], width, height) {
      assert k != 0;
      FirstOutUnique(ps[1..], width, height, k - 1);
    }
  }

  /** The fields one step of update changes: velocity, position, circle
      centre and age. */
  datatype Motion = Motion(vx: real, vy: real, px: real, py: real, cx: real, cy: real, age: real)

  function MotionOf(b: Body): Motion
    reads b`vx, b`vy, b`px, b`py, b`cx, b`cy, b`age
  {
    Motion(b.vx, b.vy, b.px, b.py, b.cx, b.cy, b.age)
  }

  /** The motion fields of every listed body, in list order. */
  ghost function Motions(bodies: seq<Body>): (ms: seq<Motion>)
    reads (set b | b in bodies)`vx, (set b | b in bodies)`vy, (set b | b in bodies)`px
    reads (set b | b in bodies)`py, (set b | b in bodies)`cx, (set b | b in bodies)`cy
    reads (set b | b in bodies)`age
    ensures |ms| == |bodies|
    ensures forall i :: 0 <= i < |bodies| ==> ms[i] == MotionOf(bodies[i])
    decreases |bodies|
  {
    if bodies == [] then []
    else Motions(bodies[..|bodies| - 1]) + [MotionOf(bodies[|bodies| - 1])]
  }

  /** A scanned body: gravitateToward adds the pull to the velocity, then
      update moves the position by the new velocity, the circle follows the
      position, and the body ages one step. */
  function Step(m: Motion, pull: (real, real)): (n: Motion)
    ensures n.vx - m.vx == pull.0 && n.vy - m.vy == pull.1
    ensures n.px - m.px == n.vx && n.py - m.py == n.vy
    ensures n.cx == n.px && n.cy == n.py && n.age == m.age + AGE_STEP
  {
    var vx := m.vx + pull.0;
    var vy := m.vy + pull.1;
    Motion(vx, vy, m.px + vx, m.py + vy, m.px + vx, m.py + vy, m.age + AGE_STEP)
  }

  /** The motions after a scan that stopped at `stop`: every body before it
      took its step, the others kept their motion. */
  function Advanced(ms: seq<Motion>, pulls: seq<(real, real)>, stop: nat): (r: seq<Motion>)
    requires |pulls| == |ms|
  {
    seq(|ms|, j requires 0 <= j < |ms| => if j < stop then Step(ms[j], pulls[j]) else ms[j])
  }

  /** gravitateToward's velocity change followed by Body.update. */
  method Advance(b: Body, pull: (real, real))
    modifies b`vx, b`vy, b`px, b`py, b`cx, b`cy, b`age
    ensures MotionOf(b) == Step(old(MotionOf(b)), pull)
  {
    b.GravitateBy(pull.0, pull.1);
    b.Update();
  }

  // ---------------------------------------------------------------------
  // processCollisions on values
  // ---------------------------------------------------------------------

  /** The two fields absorption changes. */
  datatype Weight = Weight(mass: real, radius: real)

  /** The outcome of processing collisions: the bodies marked destroyed, in
      order, and every involved body's weight afterwards. */
  datatype Resolution = Resolution(destroyed: seq<Body>, weights: map<Body, Weight>)

  ghost function WeightsOf(s: set<Body>): (w: map<Body, Weight>)
    reads s`mass, s`radius
    ensures w.Keys == s
  {
    map b | b in s :: Weight(b.mass, b.radius)
  }

  /** Every body a registry names has a weight. */
  predicate Weighed(pairs: map<Body, Body>, w: map<Body, Weight>) {
    forall b :: b in pairs ==> b in w && pairs[b] in w
  }

  /** `winner.absorbBody(loser)`: the winner's mass grows by the loser's
      mass field and its radius by the scaled mass. */
  function Absorb(w: map<Body, Weight>, winner: Body, loser: Body): (r: map<Body, Weight>)
    requires winner in w && loser in w
    ensures r.Keys == w.Keys
    ensures r[winner].mass == w[winner].mass + w[loser].mass
    ensures forall b :: b in w && b != winner ==> r[b] == w[b]
  {
    w[winner := Weight(w[winner].mass + w[loser].mass,
                       w[winner].radius + w[loser].mass * MASS_TO_SIZE_MULTIPLIER)]
  }

  /** One key of processCollisions, with partner b2: if getMass() (the
      radius) of b1 is strictly greater, b1 absorbs b2 and b2 is destroyed;
      otherwise, equal radii included, b2 absorbs b1 and b1 is destroyed. The
      list `alreadyProcessed` that guards both branches never receives an
      element, so both guards always pass and do not appear. */
  function Settle(before: Resolution, b1: Body, pairs: map<Body, Body>): (r: Resolution)
    requires b1 in pairs && b1 in before.weights && pairs[b1] in before.weights
    ensures r.weights.Keys == before.weights.Keys
    ensures |r.destroyed| == |before.destroyed| + 1
  {
    var b2 := pairs[b1];
    var loser := Loser(before.weights, b1, b2);
    Resolution(before.destroyed + [loser], Absorb(before.weights, Winner(before.weights, b1, b2), loser))
  }

  /** The body destroyed for key b1 and partner b2. */
  function Loser(ws: map<Body, Weight>, b1: Body, b2: Body): (l: Body)
    requires b1 in ws && b2 in ws
    ensures l == b1 || l == b2
    ensures ws[l].radius <= ws[b1].radius && ws[l].radius <= ws[b2].radius
    ensures b1 != b2 ==> l != Winner(ws, b1, b2)
  {
    if ws[b1].radius > ws[b2].radius then b2 else b1
  }

  /** The body that absorbs it. */
  function Winner(ws: map<Body, Weight>, b1: Body, b2: Body): (w: Body)
    requires b1 in ws && b2 in ws
    ensures w == b1 || w == b2
    ensures ws[w].radius >= ws[b1].radius && ws[w].radius >= ws[b2].radius
    ensures ws[b1].radius == ws[b2].radius ==> w == b2
  {
    if ws[b1].radius > ws[b2].radius then b1 else b2
  }

  /** processCollisions over the keys in the order `order`, starting from the
      weights `w`. */
  function Resolve(order: seq<Body>, pairs: map<Body, Body>, w: map<Body, Weight>): (r: Resolution)
    requires forall b :: b in order ==> b in pairs
    requires Weighed(pairs, w)
    ensures |r.destroyed| == |order|
    ensures r.weights.Keys == w.Keys
    decreases |order|
  {
    if order == [] then Resolution([], w)
    else Settle(Resolve(order[..|order| - 1], pairs, w), order[|order| - 1], pairs)
  }

  /** Handling one more key is one more Settle. */
  lemma ResolveSnoc(order: seq<Body>, b1: Body, pairs: map<Body, Body>, w: map<Body, Weight>)
    requires forall b :: b in order ==> b in pairs
    requires b1 in pairs && Weighed(pairs, w)
    ensures Resolve(order + [b1], pairs, w) == Settle(Resolve(order, pairs, w), b1, pairs)
  {
    assert (order + [b1])[..|order|] == order;
  }

  /** Each pair marks exactly one of its own two bodies destroyed: the i-th
      destroyed body is the i-th key or its partner. */
  lemma {:induction false} ResolveOnePerPair(order: seq<Body>, pairs: map<Body, Body>, w: map<Body, Weight>)
    requires forall b :: b in order ==> b in pairs
    requires Weighed(pairs, w)
    ensures forall i :: 0 <= i < |order| ==>
      Resolve(order, pairs, w).destroyed[i] in {order[i], pairs[order[i]]}
    decreases |order|
  {
    if order != [] {
      var init := order[..|order| - 1];
      ResolveOnePerPair(init, pairs, w);
    }
  }

  /** The radius of every weight stays its mass scaled down, as Body.Valid
      demands. */
  ghost predicate Proportional(w: map<Body, Weight>) {
    forall b :: b in w ==> w[b].radius == w[b].mass * MASS_TO_SIZE_MULTIPLIER
  }

  lemma {:induction false} ResolveProportional(order: seq<Body>, pairs: map<Body, Body>, w: map<Body, Weight>)
    requires forall b :: b in order ==> b in pairs
    requires Weighed(pairs, w) && Proportional(w)
    ensures Proportional(Resolve(order, pairs, w).weights)
    decreases |order|
  {
    if order != [] {
      ResolveProportional(order[..|order| - 1], pairs, w);
    }
  }

  /** Masses only grow when every mass is non-negative: absorbing never
      takes mass away from anyone. */
  lemma {:induction false} ResolveNeverShrinks(order: seq<Body>, pairs: map<Body, Body>, w: map<Body, Weight>, b: Body)
    requires forall c :: c in order ==> c in pairs
    requires Weighed(pairs, w) && b in w
    requires forall c :: c in w ==> w[c].mass >= 0.0
    ensures Resolve(order, pairs, w).weights[b].mass >= w[b].mass
    ensures forall c :: c in w ==> Resolve(order, pairs, w).weights[c].mass >= 0.0
    decreases |order|
  {
    if order != [] {
      ResolveNeverShrinks(order[..|order| - 1], pairs, w, b);
    }
  }

  /** Equal getMass() goes to the partner: for a single pair of equal
      radius, the key is destroyed and the partner absorbs it. */
  lemma TieGoesToPartner(b1: Body, b2: Body, w: map<Body, Weight>)
    requires b1 in w && b2 in w && w[b1].radius == w[b2].radius
    ensures Resolve([b1], map[b1 := b2], w).destroyed == [b1]
    ensures Resolve([b1], map[b1 := b2], w).weights[b2].mass == w[b2].mass + w[b1].mass
  {
    assert [b1][..0] == [];
  }

  /** Because the guard list stays empty, a body reported as the partner of
      two heavier keys is absorbed twice and marked destroyed twice, and both
      keys gain its mass. */
  lemma AbsorbedTwice(a: Body, b: Body, c: Body, w: map<Body, Weight>)
    requires a != b && a != c && b != c
    requires a in w && b in w && c in w
    requires w[a].radius > w[c].radius && w[b].radius > w[c].radius
    ensures var r := Resolve([a, b], map[a := c, b := c], w);
      && r.destroyed == [c, c]
      && r.weights[a].mass == w[a].mass + w[c].mass
      && r.weights[b].mass == w[b].mass + w[c].mass
      && r.weights[c] == w[c]
  {
    var pairs := map[a := c, b := c];
    ResolveSnoc([], a, pairs, w);
    assert [] + [a] == [a];
    ResolveSnoc([a], b, pairs, w);
    assert [a] + [b] == [a, b];
    var first := Resolve([a], pairs, w);
    assert first == Resolution([c], Absorb(w, a, c));
  }

  /** Building the tree over the listed bodies adds to the registry only
      bodies of the list. */
  lemma CreateInvolved(pairs: map<Body, Body>, ps: seq<Particle>, bodies: seq<Body>, width: int, height: int)
    requires |ps| == |bodies| && forall i :: 0 <= i < |ps| ==> ps[i].body == bodies[i]
    ensures Involved(ApplyNotes(pairs, Quadrants.Create(ps, width, height).notes))
      <= Involved(pairs) + set b | b in bodies
  {
    assert BodiesOf(ps) <= set b | b in bodies by {
      forall p | p in ps
        ensures p.body in bodies
      {
        var i :| 0 <= i < |ps| && ps[i] == p;
      }
    }
    Quadrants.CreateNames(ps, width, height);
    ApplyNotesInvolved(pairs, Quadrants.Create(ps, width, height).notes, set b | b in bodies);
  }

  /** A weight for every body a registry names is all Resolve needs. */
  lemma InvolvedWeighed(pairs: map<Body, Body>, w: map<Body, Weight>)
    requires w.Keys == Involved(pairs)
    ensures Weighed(pairs, w)
  {
    forall b | b in pairs
      ensures pairs[b] in w
    {
      assert pairs[b] in pairs.Values;
    }
  }

  /** Resolve over a full enumeration of the registry, from the weights of
      the bodies it names. */
  ghost function Drain(order: seq<Body>, pairs: map<Body, Body>, w: map<Body, Weight>): Resolution
    requires Enumerates(order, pairs) && w.Keys == Involved(pairs)
  {
    InvolvedWeighed(pairs, w);
    Resolve(order, pairs, w)
  }

  /** The weights `ws` are those the bodies of `named` carry. */
  ghost predicate Tracks(named: set<Body>, ws: map<Body, Weight>)
    reads named`mass, named`radius
  {
    WeightsOf(named) == ws
  }

  /** `order` lists every key of `pairs` once. */
  predicate Enumerates(order: seq<Body>, pairs: map<Body, Body>) {
    && Distinct(order)
    && (forall i :: 0 <= i < |order| ==> order[i] in pairs)
    && (forall b :: b in pairs ==> b in order)
  }

  /** `order` lists once every key of `pairs` not left in `keys`. */
  predicate Enumerating(order: seq<Body>, keys: set<Body>, pairs: map<Body, Body>) {
    && keys <= pairs.Keys
    && Distinct(order)
    && (forall i :: 0 <= i < |order| ==> order[i] in pairs && order[i] !in keys)
    && (forall b :: b in pairs && b !in keys ==> b in order)
  }

  lemma EnumeratingStep(order: seq<Body>, keys: set<Body>, pairs: map<Body, Body>, b1: Body)
    requires Enumerating(order, keys, pairs) && b1 in keys
    ensures Enumerating(order + [b1], keys - {b1}, pairs)
  {
  }

  /** A tracked body carries the weight recorded for it. */
  lemma TrackedWeight(named: set<Body>, ws: map<Body, Weight>, b: Body)
    requires Tracks(named, ws) && b in named
    ensures ws[b] == Weight(b.mass, b.radius)
  {
  }

  /** `winner.absorbBody(loser)` on bodies whose weights `ws` records: the
      recorded weights follow Absorb. */
  method AbsorbTracked(winner: Body, loser: Body, ghost named: set<Body>, ghost ws: map<Body, Weight>)
    requires winner in named && loser in named && Tracks(named, ws)
    modifies winner`mass, winner`radius
    ensures Tracks(named, Absorb(ws, winner, loser))
  {
    winner.AbsorbBody(loser);
    assert forall b :: b in named ==> WeightsOf(named)[b] == Absorb(ws, winner, loser)[b];
  }

  /** The pure half of one round: one more key is enumerated, and Resolve
      takes one more Settle, which destroys the loser and lets the winner
      absorb it. */
  lemma ProgressStep(order: seq<Body>, keys: set<Body>, pairs: map<Body, Body>,
                     w: map<Body, Weight>, cur: Resolution, b1: Body)
    requires Weighed(pairs, w) && Enumerating(order, keys, pairs) && b1 in keys
    requires cur == Resolve(order, pairs, w)
    ensures Enumerating(order + [b1], keys - {b1}, pairs)
    ensures b1 in cur.weights && pairs[b1] in cur.weights
    ensures Resolve(order + [b1], pairs, w) == Settle(cur, b1, pairs)
    ensures var loser := Loser(cur.weights, b1, pairs[b1]);
      Settle(cur, b1, pairs) == Resolution(cur.destroyed + [loser],
        Absorb(cur.weights, Winner(cur.weights, b1, pairs[b1]), loser))
  {
    ResolveSnoc(order, b1, pairs, w);
    EnumeratingStep(order, keys, pairs, b1);
  }

  // ---------------------------------------------------------------------
  // The universe
  // ---------------------------------------------------------------------

  class Universe {
    const width: int
    const height: int
    var bodies: seq<Body>
    var destroyedBodies: seq<Body>
    const collisions: CollisionRegistry
    const sun: Body
    var selectedBody: Body?
    var tree: Option<Quad>

    /** The live list never holds the same body twice. */
    ghost predicate Valid()
      reads this`bodies
    {
      Distinct(bodies)
    }

    /** A new universe: no bodies, nothing destroyed, an empty registry, and
        the sun at the integer midpoint of the screen. */
    constructor (width: int, height: int)
      ensures Valid()
      ensures this.width == width && this.height == height
      ensures bodies == [] && destroyedBodies == [] && tree == None && selectedBody == null
      ensures fresh(collisions) && collisions.pairs == map[]
      ensures fresh(sun) && sun.Valid() && sun.mass == SUN_MASS
      ensures sun.GetX() == JavaHalf(width) as real && sun.GetY() == JavaHalf(height) as real
      ensures sun.vx == 0.0 && sun.vy == 0.0
    {
      this.width := width;
      this.height := height;
      bodies := [];
      destroyedBodies := [];
      sun := new Body("Sol", JavaHalf(width), JavaHalf(height), 0.0, 0.0, SUN_MASS);
      collisions := new CollisionRegistry();
      selectedBody := null;
      tree := None;
    }

    /** createBody: a new body at (x, y) is appended to the list; nothing
        else changes. */
    method CreateBody(name: string, x: int, y: int, vx: real, vy: real, mass: real) returns (body: Body)
      requires Valid()
      modifies this`bodies
      ensures Valid()
      ensures fresh(body) && bodies == old(bodies) + [body]
      ensures body.Valid() && body.GetX() == x as real && body.GetY() == y as real && body.mass == mass
    {
      body := new Body(name, x, y, vx, vy, mass);
      bodies := bodies + [body];
    }

    /** getBodyAt: the sun if it contains the point; otherwise the first body
        of the list containing it, which also becomes the selected body;
        otherwise null. */
    method GetBodyAt(x: int, y: int) returns (r: Body?)
      modifies this`selectedBody
      ensures sun.ContainsPoint(x, y) ==> r == sun && selectedBody == old(selectedBody)
      ensures !sun.ContainsPoint(x, y) ==>
        match FirstContaining(bodies, x, y)
        case None => r == null && selectedBody == old(selectedBody)
        case Some(i) => r == bodies[i] && selectedBody == r
    {
      if sun.ContainsPoint(x, y) {
        return sun;
      }
      var i := 0;
      while i < |bodies|
        invariant 0 <= i <= |bodies|
        invariant forall j :: 0 <= j < i ==> !bodies[j].ContainsPoint(x, y)
        invariant selectedBody == old(selectedBody)
      {
        var b := bodies[i];
        if b.ContainsPoint(x, y) {
          selectedBody := b;
          assert FirstContaining(bodies, x, y) == Some(i);
          return b;
        }
        i := i + 1;
      }
      return null;
    }

    /** deleteBody: the first occurrence of the body is removed. */
    method DeleteBody(body: Body)
      requires Valid()
      modifies this`bodies
      ensures Valid()
      ensures bodies == RemoveFirst(old(bodies), body)
      ensures forall b :: b in bodies <==> b in old(bodies) && b != body
    {
      RemoveFirstDistinct(bodies, body);
      bodies := RemoveFirst(bodies, body);
    }

    method ClearAllBodies()
      modifies this`bodies
      ensures Valid() && bodies == []
    {
      bodies := [];
    }

    /** getNumberOfBodies: the length of the live list. */
    function NumberOfBodies(): (n: nat)
      reads this
      ensures n == |bodies|
      ensures n == 0 <==> bodies == []
    {
      |bodies|
    }

    /** The scan of update: in list order, the first body at or beyond an
        edge is marked destroyed and the scan stops; every body before it
        takes its pull (what the force computation adds to its velocity) and
        moves one step; the bodies from the stopping point on are untouched. */
    method Scan(pulls: seq<(real, real)>) returns (stop: nat)
      requires Valid() && |pulls| == |bodies|
      modifies this`destroyedBodies
      modifies (set b | b in bodies)`vx, (set b | b in bodies)`vy, (set b | b in bodies)`px
      modifies (set b | b in bodies)`py, (set b | b in bodies)`cx, (set b | b in bodies)`cy
      modifies (set b | b in bodies)`age
      ensures stop == FirstOut(old(Motions(bodies)), width, height)
      ensures destroyedBodies == old(destroyedBodies) + Escaped(bodies, stop)
      ensures Motions(bodies) == Advanced(old(Motions(bodies)), pulls, stop)
    {
      ghost var before := Motions(bodies);
      stop := AdvanceWhileInside(pulls, before);
      destroyedBodies := destroyedBodies + Escaped(bodies, stop);
      FirstOutUnique(before, width, height, stop);
      MovingMotions(before, pulls, stop);
    }

    /** The loop of the scan: bodies advance in list order until one is at or
        beyond an edge (the `break`) or the list ends. */
    method AdvanceWhileInside(pulls: seq<(real, real)>, ghost before: seq<Motion>) returns (stop: nat)
      requires Valid() && Moving(before, pulls, 0)
      modifies (set b | b in bodies)`vx, (set b | b in bodies)`vy, (set b | b in bodies)`px
      modifies (set b | b in bodies)`py, (set b | b in bodies)`cx, (set b | b in bodies)`cy
      modifies (set b | b in bodies)`age
      ensures stop <= |bodies| && Moving(before, pulls, stop)
      ensures forall j :: 0 <= j < stop ==> !OutOfBounds(before[j], width, height)
      ensures stop < |bodies| ==> OutOfBounds(before[stop], width, height)
    {
      stop := 0;
      while stop < |bodies| && !Escapes(bodies[stop])
        invariant stop <= |bodies|
        invariant forall j :: 0 <= j < stop ==> !OutOfBounds(before[j], width, height)
        invariant Moving(before, pulls, stop)
      {
        assert MotionOf(bodies[stop]) == before[stop];
        AdvanceAt(stop, bodies[stop], pulls, before);
        stop := stop + 1;
      }
      if stop < |bodies| {
        assert MotionOf(bodies[stop]) == before[stop];
      }
    }

    /** The test of update's scan: the body is at or beyond an edge. */
    predicate Escapes(body: Body)
      reads body
      ensures Escapes(body) == OutOfBounds(MotionOf(body), width, height)
    {
      body.GetX() <= 0.0 || body.GetX() >= width as real || body.GetY() <= 0.0 || body.GetY() >= height as real
    }

    /** The scan has moved the bodies before index k and no other. */
    ghost predicate Moving(before: seq<Motion>, pulls: seq<(real, real)>, k: nat)
      reads this`bodies, (set b | b in bodies)`vx, (set b | b in bodies)`vy, (set b | b in bodies)`px
      reads (set b | b in bodies)`py, (set b | b in bodies)`cx, (set b | b in bodies)`cy
      reads (set b | b in bodies)`age
    {
      && |before| == |bodies| == |pulls| && k <= |bodies|
      && (forall j :: 0 <= j < k ==> MotionOf(bodies[j]) == Step(before[j], pulls[j]))
      && (forall j :: k <= j < |bodies| ==> MotionOf(bodies[j]) == before[j])
    }

    /** The scan's progress read as the motions of the whole list. */
    lemma MovingMotions(before: seq<Motion>, pulls: seq<(real, real)>, k: nat)
      requires Moving(before, pulls, k)
      ensures Motions(bodies) == Advanced(before, pulls, k)
    {
    }

    /** One body of the scan takes its step. */
    method AdvanceAt(k: nat, body: Body, pulls: seq<(real, real)>, ghost before: seq<Motion>)
      requires Valid() && k < |bodies| && body == bodies[k] && Moving(before, pulls, k)
      modifies body`vx, body`vy, body`px, body`py, body`cx, body`cy, body`age
      ensures Moving(before, pulls, k + 1)
    {
      Advance(body, pulls[k]);
    }

    /** processCollisions: every key of the registry is handled once, in
        the map's iteration order (returned as `order`), by the rule of
        `Resolve`; the destroyed bodies are appended, the weights of all
        bodies the registry named are those `Resolve` computes, nobody moves,
        and the registry is cleared. */
    method ProcessCollisions() returns (ghost order: seq<Body>)
      modifies this`destroyedBodies, collisions`pairs
      modifies Involved(collisions.pairs)`mass, Involved(collisions.pairs)`radius
      ensures collisions.pairs == map[]
      ensures Enumerates(order, old(collisions.pairs))
      ensures var r := Resolve(order, old(collisions.pairs), old(WeightsOf(Involved(collisions.pairs))));
        destroyedBodies == old(destroyedBodies) + r.destroyed && Tracks(old(Involved(collisions.pairs)), r.weights)
    {
      ghost var pairs := collisions.pairs;
      ghost var named := Involved(pairs);
      ghost var w := WeightsOf(named);
      var alreadyProcessed: seq<Body> := [];
      var keys := collisions.pairs.Keys;
      order := [];
      ghost var cur := Resolution([], w);
      assert Weighed(pairs, w) by {
        forall b | b in pairs
          ensures pairs[b] in named
        {
          assert pairs[b] in pairs.Values;
        }
      }
      while keys != {}
        invariant collisions.pairs == pairs
        invariant Progress(order, keys, pairs, w, old(destroyedBodies), cur)
        decreases keys
      {
        keys, order, cur := ProcessKey(keys, alreadyProcessed, pairs, w, old(destroyedBodies), order, cur);
      }
      collisions.Clear();
    }

    /** The state of processCollisions after handling the keys in `order`:
        the keys left are those not yet handled, the destroyed list and every
        named body's weight are what Resolve computes for `order`. */
    ghost predicate Progress(order: seq<Body>, keys: set<Body>, pairs: map<Body, Body>,
                             w: map<Body, Weight>, base: seq<Body>, cur: Resolution)
      reads this, w.Keys`mass, w.Keys`radius
    {
      && Weighed(pairs, w)
      && Enumerating(order, keys, pairs)
      && cur == Resolve(order, pairs, w)
      && destroyedBodies == base + cur.destroyed
      && Tracks(w.Keys, cur.weights)
    }

    /** One round of processCollisions' loop: some key b1 not yet handled,
        with partner b2; the heavier key absorbs the partner, otherwise the
        partner absorbs the key; the absorbed body is marked destroyed. */
    method ProcessKey(keys: set<Body>, alreadyProcessed: seq<Body>, ghost pairs: map<Body, Body>,
                      ghost w: map<Body, Weight>, ghost base: seq<Body>, ghost order: seq<Body>, ghost cur: Resolution)
      returns (rest: set<Body>, ghost order': seq<Body>, ghost next: Resolution)
      requires keys != {} && alreadyProcessed == []
      requires collisions.pairs == pairs && w.Keys == Involved(pairs)
      requires Progress(order, keys, pairs, w, base, cur)
      modifies this`destroyedBodies, Involved(pairs)`mass, Involved(pairs)`radius
      ensures rest < keys
      ensures Progress(order', rest, pairs, w, base, next)
    {
      ghost var named := Involved(pairs);
      var b1 :| b1 in keys;
      var b2 := collisions.pairs[b1];
      ProgressStep(order, keys, pairs, w, cur, b1);
      TrackedWeight(named, cur.weights, b1);
      TrackedWeight(named, cur.weights, b2);
      var winner, loser := Decide(b1, b2, alreadyProcessed, cur.weights);
      AbsorbAndMark(winner, loser, named, cur.weights, base, cur.destroyed);
      rest := keys - {b1};
      order' := order + [b1];
      next := Settle(cur, b1, pairs);
    }

    /** The two effects of one round: the loser is appended to the
        destroyed list and the winner absorbs it. */
    method AbsorbAndMark(winner: Body, loser: Body, ghost named: set<Body>, ghost ws: map<Body, Weight>,
                         ghost base: seq<Body>, ghost done: seq<Body>)
      requires winner in named && loser in named && Tracks(named, ws)
      requires destroyedBodies == base + done
      modifies this`destroyedBodies, winner`mass, winner`radius
      ensures destroyedBodies == base + (done + [loser])
      ensures Tracks(named, Absorb(ws, winner, loser))
    {
      assert base + done + [loser] == base + (done + [loser]);
      AbsorbTracked(winner, loser, named, ws);
      destroyedBodies := destroyedBodies + [loser];
    }

    /** The branch of processCollisions for key b1 and partner b2, whose
        weights `ws` records: b1 wins only with a strictly greater getMass()
        (both guards on `alreadyProcessed` pass, as the list is empty). */
    method Decide(b1: Body, b2: Body, alreadyProcessed: seq<Body>, ghost ws: map<Body, Weight>)
      returns (winner: Body, loser: Body)
      requires alreadyProcessed == []
      requires b1 in ws && b2 in ws
      requires ws[b1] == Weight(b1.mass, b1.radius) && ws[b2] == Weight(b2.mass, b2.radius)
      ensures winner == Winner(ws, b1, b2) && loser == Loser(ws, b1, b2)
      ensures {winner, loser} == {b1, b2}
    {
      if b1.GetMass() > b2.GetMass() && b2 !in alreadyProcessed {
        winner, loser := b1, b2;
      } else {
        assert b1 !in alreadyProcessed;
        winner, loser := b2, b1;
      }
    }

    /** The end of update: when something was destroyed, every destroyed
        body leaves the list and the destroyed list is emptied. */
    method RemoveDestroyed()
      requires Valid()
      modifies this`bodies, this`destroyedBodies
      ensures Valid() && destroyedBodies == []
      ensures bodies == Without(old(bodies), old(destroyedBodies))
    {
      if destroyedBodies != [] {
        WithoutDistinct(bodies, destroyedBodies);
        bodies := Without(bodies, destroyedBodies);
        destroyedBodies := [];
      } else {
        WithoutNothing(bodies);
      }
    }

    /** The first step of update: the tree is rebuilt over the bodies as
        they stand, and every collision its inserts report is recorded. The
        registry then names only bodies it named before or bodies of the
        list; no body moves or changes weight. */
    method BuildTree(ghost named: set<Body>)
      modifies this`tree, collisions`pairs
      ensures tree == Some(Quadrants.Create(old(BarnesHut.Snapshot(bodies)), width, height).node)
      ensures collisions.pairs == ApplyNotes(old(collisions.pairs),
        Quadrants.Create(old(BarnesHut.Snapshot(bodies)), width, height).notes)
      ensures Involved(collisions.pairs) <= old(Involved(collisions.pairs)) + set b | b in bodies
      ensures Motions(bodies) == old(Motions(bodies)) && WeightsOf(named) == old(WeightsOf(named))
    {
      ghost var ps := BarnesHut.Snapshot(bodies);
      ghost var motions := Motions(bodies);
      ghost var w := WeightsOf(named);
      var t := BarnesHut.Create(bodies, width, height, collisions);
      tree := Some(t);
      assert Motions(bodies) == motions && WeightsOf(named) == w;
      CreateInvolved(old(collisions.pairs), ps, bodies, width, height);
    }

    /** The rest of update once the tree is built: scan and move the
        bodies, resolve the reported collisions, remove the destroyed. */
    method MoveAndResolve(pulls: seq<(real, real)>) returns (ghost stop: nat, ghost order: seq<Body>)
      requires Valid() && |pulls| == |bodies|
      modifies this`bodies, this`destroyedBodies, collisions`pairs
      modifies (set b | b in bodies)`vx, (set b | b in bodies)`vy, (set b | b in bodies)`px
      modifies (set b | b in bodies)`py, (set b | b in bodies)`cx, (set b | b in bodies)`cy
      modifies (set b | b in bodies)`age
      modifies Involved(collisions.pairs)`mass, Involved(collisions.pairs)`radius
      ensures Valid() && collisions.pairs == map[] && destroyedBodies == []
      ensures stop == FirstOut(old(Motions(bodies)), width, height)
      ensures Motions(old(bodies)) == Advanced(old(Motions(bodies)), pulls, stop)
      ensures Enumerates(order, old(collisions.pairs))
      ensures var r := Drain(order, old(collisions.pairs), old(WeightsOf(Involved(collisions.pairs))));
        && Tracks(old(Involved(collisions.pairs)), r.weights)
        && bodies == Without(old(bodies), old(destroyedBodies) + Escaped(old(bodies), stop) + r.destroyed)
    {
      ghost var pairs := collisions.pairs;
      ghost var named := Involved(pairs);
      ghost var w := WeightsOf(named);
      ghost var listed := bodies;
      stop := Scan(pulls);
      assert WeightsOf(named) == w;
      ghost var moved := Motions(listed);
      order := ResolveKeepingMotions(listed);
      assert Motions(listed) == moved;
    }

    /** MoveAndResolve seen from the bodies the registry does not name: their
        masses and radii are left alone. */
    method MoveAndResolveKeeping(pulls: seq<(real, real)>) returns (ghost stop: nat, ghost order: seq<Body>)
      requires Valid() && |pulls| == |bodies|
      modifies this`bodies, this`destroyedBodies, collisions`pairs
      modifies (set b | b in bodies)`vx, (set b | b in bodies)`vy, (set b | b in bodies)`px
      modifies (set b | b in bodies)`py, (set b | b in bodies)`cx, (set b | b in bodies)`cy
      modifies (set b | b in bodies)`age
      modifies Involved(collisions.pairs)`mass, Involved(collisions.pairs)`radius
      ensures Valid() && collisions.pairs == map[] && destroyedBodies == []
      ensures stop == FirstOut(old(Motions(bodies)), width, height)
      ensures Motions(old(bodies)) == Advanced(old(Motions(bodies)), pulls, stop)
      ensures Enumerates(order, old(collisions.pairs))
      ensures var r := Drain(order, old(collisions.pairs), old(WeightsOf(Involved(collisions.pairs))));
        && Tracks(old(Involved(collisions.pairs)), r.weights)
        && bodies == Without(old(bodies), old(destroyedBodies) + Escaped(old(bodies), stop) + r.destroyed)
      ensures forall b :: b in old(bodies) && b !in old(Involved(collisions.pairs)) ==>
        b.mass == old(b.mass) && b.radius == old(b.radius)
    {
      stop, order := MoveAndResolve(pulls);
    }

    /** The end of update: the collisions are resolved, then the destroyed
        bodies leave the list. */
    method ResolveAndRemove() returns (ghost order: seq<Body>)
      requires Valid()
      modifies this`bodies, this`destroyedBodies, collisions`pairs
      modifies Involved(collisions.pairs)`mass, Involved(collisions.pairs)`radius
      ensures Valid() && collisions.pairs == map[] && destroyedBodies == []
      ensures Enumerates(order, old(collisions.pairs))
      ensures var r := Drain(order, old(collisions.pairs), old(WeightsOf(Involved(collisions.pairs))));
        && Tracks(old(Involved(collisions.pairs)), r.weights)
        && bodies == Without(old(bodies), old(destroyedBodies) + r.destroyed)
    {
      order := ProcessCollisions();
      RemoveDestroyed();
    }

    /** ResolveAndRemove seen from the bodies of `listed`: only masses and
        radii change, so their motions stay as the scan left them. */
    method ResolveKeepingMotions(ghost listed: seq<Body>) returns (ghost order: seq<Body>)
      requires Valid()
      modifies this`bodies, this`destroyedBodies, collisions`pairs
      modifies Involved(collisions.pairs)`mass, Involved(collisions.pairs)`radius
      ensures Valid() && collisions.pairs == map[] && destroyedBodies == []
      ensures Enumerates(order, old(collisions.pairs))
      ensures var r := Drain(order, old(collisions.pairs), old(WeightsOf(Involved(collisions.pairs))));
        && Tracks(old(Involved(collisions.pairs)), r.weights)
        && bodies == Without(old(bodies), old(destroyedBodies) + r.destroyed)
      ensures Motions(listed) == old(Motions(listed))
    {
      order := ResolveAndRemove();
    }

    /** update: the tree is rebuilt over the bodies (recording the
        collisions its inserts report), the scan moves the bodies before the
        first one out of bounds and marks that one destroyed, the registry is
        drained by Resolve in the map's iteration order, and every destroyed
        body leaves the list. `registered` is the registry once the tree is
        built; a body it does not name keeps its mass. `pulls[i]` is what the
        force computation adds to the velocity of body i. */
    method Update(pulls: seq<(real, real)>) returns (ghost stop: nat, ghost order: seq<Body>, ghost registered: map<Body, Body>)
      requires Valid() && |pulls| == |bodies|
      modifies this`bodies, this`destroyedBodies, this`tree, collisions`pairs
      modifies (set b | b in bodies)`vx, (set b | b in bodies)`vy, (set b | b in bodies)`px
      modifies (set b | b in bodies)`py, (set b | b in bodies)`cx, (set b | b in bodies)`cy
      modifies (set b | b in bodies)`age, (set b | b in bodies)`mass, (set b | b in bodies)`radius
      modifies Involved(collisions.pairs)`mass, Involved(collisions.pairs)`radius
      ensures Valid() && collisions.pairs == map[] && destroyedBodies == []
      ensures tree == Some(Quadrants.Create(old(BarnesHut.Snapshot(bodies)), width, height).node)
      ensures registered == ApplyNotes(old(collisions.pairs),
        Quadrants.Create(old(BarnesHut.Snapshot(bodies)), width, height).notes)
      ensures stop == FirstOut(old(Motions(bodies)), width, height)
      ensures Motions(old(bodies)) == Advanced(old(Motions(bodies)), pulls, stop)
      ensures Enumerates(order, registered)
      ensures var r := Drain(order, registered, old(WeightsOf(Involved(registered))));
        && Tracks(Involved(registered), r.weights)
        && bodies == Without(old(bodies), old(destroyedBodies) + Escaped(old(bodies), stop) + r.destroyed)
      ensures forall b :: b in old(bodies) && b !in Involved(registered) ==>
        b.mass == old(b.mass) && b.radius == old(b.radius)
    {
      ghost var named := Involved(ApplyNotes(collisions.pairs,
        Quadrants.Create(BarnesHut.Snapshot(bodies), width, height).notes));
      BuildTree(named);
      registered := collisions.pairs;
      assert forall b :: b in old(bodies) ==> b.mass == old(b.mass) && b.radius == old(b.radius);
      stop, order := MoveAndResolveKeeping(pulls);
    }
  }
}
