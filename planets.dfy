/** A planet: owner tag, garrison and the clamping rules of `addShips`/`removeShips`. */
module Planets {

  /** Owner tag of planets and fleets: 0 neutral, 1 player, 2 AI. */
  type Owner = o: int | 0 <= o <= 2
  const Neutral: Owner := 0
  const Player: Owner := 1
  const Ai: Owner := 2

  datatype PlanetType = Big | Medium | Small

  /** Radius of a planet of type `t`. */
  function RadiusOf(t: PlanetType): nat {
    match t
    case Big => 40
    case Medium => 25
    case Small => 15
  }

  /** Ship capacity of a planet of type `t`. */
  function CapacityOf(t: PlanetType): nat {
    match t
    case Big => 200
    case Medium => 50
    case Small => 20
  }

  /** The mutable part of a planet. */
  datatype Garrison = Garrison(owner: Owner, ships: int)

  /** `Math.min(ships + amount, capacity)`: never above the capacity. */
  function Added(ships: int, amount: int, capacity: int): (r: int)
    ensures r <= capacity && r <= ships + amount
    ensures r == capacity || r == ships + amount
  {
    if ships + amount < capacity then ships + amount else capacity
  }

  /** `Math.max(0, ships - amount)`: never negative. */
  function Removed(ships: int, amount: int): (r: int)
    ensures r >= 0 && r >= ships - amount
    ensures r == 0 || r == ships - amount
  {
    if ships - amount > 0 then ships - amount else 0
  }

  /** Adding a non-negative amount keeps an in-range garrison in range and never loses ships. */
  lemma AddedStaysInRange(ships: int, amount: int, capacity: int)
    requires 0 <= ships <= capacity && amount >= 0
    ensures ships <= Added(ships, amount, capacity) <= capacity
  {
  }

  /** Removing a non-negative amount keeps an in-range garrison in range and never gains ships. */
  lemma RemovedStaysInRange(ships: int, amount: int, capacity: int)
    requires 0 <= ships <= capacity && amount >= 0
    ensures 0 <= Removed(ships, amount) <= ships
  {
  }

  /** `addShips(0)` is the identity only up to the clamp: an overfull planet drops to its capacity. */
  lemma AddZero(ships: int, capacity: int)
    ensures ships <= capacity ==> Added(ships, 0, capacity) == ships
    ensures ships > capacity ==> Added(ships, 0, capacity) == capacity
  {
  }

  /** `removeShips(0)` leaves a non-negative garrison as it is. */
  lemma RemoveZero(ships: int)
    requires ships >= 0
    ensures Removed(ships, 0) == ships
  {
  }

  class Planet {
    const id: int
    const planetType: PlanetType
    const radius: nat
    const capacity: nat
    /** Position; planets never move. */
    const x: int
    const y: int
    var owner: Owner
    var ships: int

    /** A new planet of the given type: neutral, empty, radius and capacity from its type. */
    constructor (x: int, y: int, planetType: PlanetType, id: int)
      ensures this.x == x && this.y == y && this.planetType == planetType && this.id == id
      ensures radius == RadiusOf(planetType) && capacity == CapacityOf(planetType)
      ensures owner == Neutral && ships == 0
    {
      this.id := id;
      this.planetType := planetType;
      this.x := x;
      this.y := y;
      radius := RadiusOf(planetType);
      capacity := CapacityOf(planetType);
      owner := Neutral;
      ships := 0;
    }

    function Held(): Garrison
      reads this
    {
      Garrison(owner, ships)
    }

    predicate InRange()
      reads this
    {
      0 <= ships <= capacity
    }

    method SetOwner(owner: Owner)
      modifies this
      ensures this.owner == owner && ships == old(ships)
    {
      this.owner := owner;
    }

    method AddShips(amount: int)
      modifies this
      ensures ships == Added(old(ships), amount, capacity) && owner == old(owner)
      ensures ships <= capacity
      ensures old(InRange()) && amount >= 0 ==> InRange()
    {
      ships := Added(ships, amount, capacity);
    }

    method RemoveShips(amount: int)
      modifies this
      ensures ships == Removed(old(ships), amount) && owner == old(owner)
      ensures ships >= 0
      ensures old(InRange()) && amount >= 0 ==> InRange()
    {
      ships := Removed(ships, amount);
    }
  }
}
