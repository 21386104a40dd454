/** A fleet in flight: an owner snapshot, a fixed ship count and the arrival test. */
module Fleets {
  import opened Planets

  /** A fleet has arrived once it is strictly closer than this to its target. */
  const ArrivalDistance: nat := 5
  /** Travel speed in distance units per second. */
  const Speed: nat := 100

  /** Squared Euclidean distance: `d < r` for `d, r >= 0` is `DistSq < r * r`. */
  function DistSq(x1: int, y1: int, x2: int, y2: int): (d: nat)
    ensures d == 0 <==> x1 == x2 && y1 == y2
  {
    (x1 - x2) * (x1 - x2) + (y1 - y2) * (y1 - y2)
  }

  class Fleet {
    const source: Planet
    const target: Planet
    /** The source planet's owner at launch; later changes to the source do not reach it. */
    const owner: Owner
    const shipCount: int
    const speed: nat
    var x: int
    var y: int

    constructor (source: Planet, target: Planet, shipCount: int)
      ensures this.source == source && this.target == target && this.shipCount == shipCount
      ensures owner == source.owner && speed == Speed
      ensures x == source.x && y == source.y
    {
      this.source := source;
      this.target := target;
      owner := source.owner;
      this.shipCount := shipCount;
      speed := Speed;
      x := source.x;
      y := source.y;
    }

    /** `distance < 5` to the target: a fleet on its target has arrived, one 5 or more away on an axis has not. */
    predicate Arrived()
      reads this
      ensures x == target.x && y == target.y ==> Arrived()
      ensures Arrived() ==>
        x - target.x < ArrivalDistance && target.x - x < ArrivalDistance &&
        y - target.y < ArrivalDistance && target.y - y < ArrivalDistance
    {
      DistSq(x, y, target.x, target.y) < ArrivalDistance * ArrivalDistance
    }

    /** One frame: report arrival, or take a step towards the target. */
    method Update() returns (arrived: bool)
      modifies this
      ensures arrived == old(Arrived())
      ensures arrived ==> x == old(x) && y == old(y)
    {
      if Arrived() {
        return true;
      }
      // The step of `speed * delta` along the bearing is trigonometry; any new position will do.
      x, y := *, *;
      return false;
    }
  }
}
