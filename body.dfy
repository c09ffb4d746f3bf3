/** A body: a disc whose radius is derived from its mass, with a position, a
    velocity and an age. Floats are modelled as reals. */
module Bodies {
  import opened Config

  class Body {
    // The Slick circle: centre and radius. getX/getY read the centre.
    var cx: real
    var cy: real
    var radius: real
    // The `mass` field, distinct from getMass() (which returns the radius).
    var mass: real
    // The position vector, kept equal to the circle centre.
    var px: real
    var py: real
    var vx: real
    var vy: real
    var age: real
    const name: string

    /** The object invariant: radius follows mass, and the circle sits on the
        position. */
    ghost predicate Valid()
      reads this
    {
      radius == mass * MASS_TO_SIZE_MULTIPLIER && cx == px && cy == py
    }

    /** The constructor the simulation uses. The velocity that the source
        derives from a speed and a heading is supplied as a vector. */
    constructor (name: string, x: int, y: int, vx: real, vy: real, mass: real)
      ensures Valid()
      ensures cx == x as real && cy == y as real && px == x as real && py == y as real
      ensures radius == mass * MASS_TO_SIZE_MULTIPLIER && this.mass == mass
      ensures this.vx == vx && this.vy == vy && age == 0.0 && this.name == name
    {
      this.cx, this.cy := x as real, y as real;
      this.radius := mass * MASS_TO_SIZE_MULTIPLIER;
      this.px, this.py := x as real, y as real;
      this.vx, this.vy := vx, vy;
      this.mass := mass;
      this.name := name;
      this.age := 0.0;
    }

    /** getX: the circle's centre, which on a valid body is the position. */
    function GetX(): (x: real)
      reads this
      ensures Valid() ==> x == px
    {
      cx
    }

    function GetY(): (y: real)
      reads this
      ensures Valid() ==> y == py
    {
      cy
    }

    /** getMass() answers with the circle's radius, which on a valid body is
        the mass field scaled down by MASS_TO_SIZE_MULTIPLIER. */
    function GetMass(): (r: real)
      reads this
      ensures Valid() ==> r == mass * MASS_TO_SIZE_MULTIPLIER
      ensures Valid() && mass > 0.0 ==> 0.0 < r < mass
    {
      radius
    }

    /** Grows (or shrinks) mass by `diff` and the radius by the scaled `diff`;
        only those two fields change, so the centre stays. */
    method UpdateMass(diff: real)
      modifies this`mass, this`radius
      ensures old(Valid()) ==> Valid()
      ensures mass == old(mass) + diff
      ensures radius == old(radius) + diff * MASS_TO_SIZE_MULTIPLIER
    {
      radius := radius + diff * MASS_TO_SIZE_MULTIPLIER;
      mass := mass + diff;
    }

    method IncreaseMass()
      modifies this`mass, this`radius
      ensures old(Valid()) ==> Valid()
      ensures mass == old(mass) + NODE_MASS_CHANGE_RATE
      ensures radius == old(radius) + NODE_MASS_CHANGE_RATE * MASS_TO_SIZE_MULTIPLIER
    {
      UpdateMass(NODE_MASS_CHANGE_RATE);
    }

    method DecreaseMass()
      modifies this`mass, this`radius
      ensures old(Valid()) ==> Valid()
      ensures mass == old(mass) - NODE_MASS_CHANGE_RATE
      ensures radius == old(radius) - NODE_MASS_CHANGE_RATE * MASS_TO_SIZE_MULTIPLIER
    {
      UpdateMass(-NODE_MASS_CHANGE_RATE);
    }

    /** One step of motion: position += velocity, the circle follows, the body
        ages; velocity, mass and radius are left alone. */
    method Update()
      modifies this`px, this`py, this`cx, this`cy, this`age
      ensures old(Valid()) ==> Valid()
      ensures px == old(px) + vx && py == old(py) + vy
      ensures cx == px && cy == py
      ensures age == old(age) + AGE_STEP
    {
      px, py := px + vx, py + vy;
      cx, cy := px, py;
      age := age + AGE_STEP;
    }

    /** Square of the distance between the two circle centres. */
    function SquaredDistanceTo(other: Body): (d2: real)
      reads this, other
      ensures d2 >= 0.0
      ensures other == this ==> d2 == 0.0
    {
      (other.cx - cx) * (other.cx - cx) + (other.cy - cy) * (other.cy - cy)
    }

    /** `distance < other.radius`, stated without the square root: a distance
        is never negative, so it is below `r` exactly when `r` is positive and
        the squared distance is below `r * r`. */
    predicate CentreWithin(other: Body)
      reads this, other
    {
      other.radius > 0.0 && SquaredDistanceTo(other) < other.radius * other.radius
    }

    /** If this body's centre lies inside `other`'s circle, `other` takes this
        body's mass field and the answer is true; otherwise nothing changes. */
    method CheckForAbsorption(other: Body) returns (absorbed: bool)
      modifies other`mass, other`radius
      ensures old(other.Valid()) ==> other.Valid()
      ensures absorbed == old(CentreWithin(other))
      ensures absorbed ==> other.mass == old(other.mass) + old(mass)
      ensures absorbed ==> other.radius == old(other.radius) + old(mass) * MASS_TO_SIZE_MULTIPLIER
      ensures !absorbed ==> other.mass == old(other.mass) && other.radius == old(other.radius)
    {
      if CentreWithin(other) {
        other.UpdateMass(mass);
        return true;
      }
      return false;
    }

    /** Body.java defines no absorbBody method; it is taken to be
        `updateMass(o.mass)`, the same step checkForAbsorption performs. */
    method AbsorbBody(o: Body)
      modifies this`mass, this`radius
      ensures old(Valid()) ==> Valid()
      ensures mass == old(mass) + old(o.mass)
      ensures radius == old(radius) + old(o.mass) * MASS_TO_SIZE_MULTIPLIER
    {
      UpdateMass(o.mass);
    }

    /** The last step of gravitateToward and of the tree's force update: the
        pull, whose size and direction come from the force computation, is
        added to the velocity. */
    method GravitateBy(gx: real, gy: real)
      modifies this`vx, this`vy
      ensures vx == old(vx) + gx && vy == old(vy) + gy
    {
      vx, vy := vx + gx, vy + gy;
    }

    /** Hit test against the circle: strictly inside the disc, so a disc of
        radius zero contains no point at all. */
    predicate ContainsPoint(x: int, y: int)
      reads this
      ensures radius == 0.0 ==> !ContainsPoint(x, y)
    {
      (x as real - cx) * (x as real - cx) + (y as real - cy) * (y as real - cy) < radius * radius
    }
  }

  /** increaseMass followed by decreaseMass gives back the original mass and
      radius. */
  method IncreaseThenDecreaseRestores(b: Body)
    modifies b`mass, b`radius
    ensures b.mass == old(b.mass) && b.radius == old(b.radius)
  {
    b.IncreaseMass();
    b.DecreaseMass();
  }
}
