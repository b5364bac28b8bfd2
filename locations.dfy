/**
 * Positions of the host world. `Vec` is a coordinate triple (reals stand for
 * the host's doubles); `Location` is the host's mutable location object, which
 * the environment sampler moves around in place.
 */
module Locations {

  datatype Vec = Vec(x: real, y: real, z: real) {
    function Plus(dx: real, dy: real, dz: real): Vec {
      Vec(x + dx, y + dy, z + dz)
    }
  }

  /** One block lower: what the host's relative block towards DOWN denotes. */
  function Below(v: Vec): Vec {
    v.Plus(0.0, -1.0, 0.0)
  }

  /** One block higher: where `setY(getY() + 1)` leaves a location. */
  function Raised(v: Vec): Vec {
    v.Plus(0.0, 1.0, 0.0)
  }

  class Location {
    var x: real
    var y: real
    var z: real

    function Pos(): Vec
      reads this
    {
      Vec(x, y, z)
    }

    constructor At(v: Vec)
      ensures Pos() == v
    {
      x, y, z := v.x, v.y, v.z;
    }

    method Clone() returns (c: Location)
      ensures fresh(c) && c.Pos() == Pos()
    {
      c := new Location.At(Pos());
    }

    method Add(dx: real, dy: real, dz: real)
      modifies this
      ensures Pos() == old(Pos()).Plus(dx, dy, dz)
    {
      x, y, z := x + dx, y + dy, z + dz;
    }

    method Subtract(dx: real, dy: real, dz: real)
      modifies this
      ensures Pos() == old(Pos()).Plus(-dx, -dy, -dz)
    {
      x, y, z := x - dx, y - dy, z - dz;
    }

    method SetX(v: real)
      modifies this
      ensures Pos() == Vec(v, old(y), old(z))
    {
      x := v;
    }

    method SetY(v: real)
      modifies this
      ensures Pos() == Vec(old(x), v, old(z))
    {
      y := v;
    }

    method SetZ(v: real)
      modifies this
      ensures Pos() == Vec(old(x), old(y), v)
    {
      z := v;
    }
  }
}
