/** What an arriving fleet does to its target planet. */
module Combat {
  import opened Planets

  /**
   * The target's garrison after a fleet of `shipCount` ships owned by `fleetOwner`
   * arrives at a planet holding `g` with the given capacity.
   */
  function Resolve(g: Garrison, capacity: int, fleetOwner: Owner, shipCount: int): (r: Garrison)
    ensures r.owner == g.owner || r.owner == fleetOwner
    ensures r.owner != g.owner <==> g.owner != fleetOwner && (g.owner == Neutral || shipCount > g.ships)
    ensures g.ships >= 0 && shipCount >= 0 && capacity >= 0 ==> r.ships >= 0
  {
    if g.owner == fleetOwner then
      Garrison(g.owner, Added(g.ships, shipCount, capacity))
    else if g.owner == Neutral then
      Garrison(fleetOwner, Added(g.ships, shipCount, capacity))
    else if shipCount > g.ships then
      Garrison(fleetOwner, shipCount - g.ships)
    else
      Garrison(g.owner, Removed(g.ships, shipCount))
  }

  /** A fleet landing on its own side's planet or on a neutral one adds its ships up to the capacity. */
  lemma PeacefulArrival(g: Garrison, capacity: int, fleetOwner: Owner, shipCount: int)
    requires g.owner == fleetOwner || g.owner == Neutral
    requires 0 <= g.ships <= capacity && shipCount >= 0
    ensures Resolve(g, capacity, fleetOwner, shipCount).owner == fleetOwner
    ensures g.ships <= Resolve(g, capacity, fleetOwner, shipCount).ships <= capacity
  {
  }

  /** A battle is attrition: the larger side keeps the difference, and a tie goes to the defender. */
  lemma BattleIsAttrition(g: Garrison, capacity: int, fleetOwner: Owner, shipCount: int)
    requires g.owner != Neutral && g.owner != fleetOwner
    requires g.ships >= 0 && shipCount >= 0
    ensures var r := Resolve(g, capacity, fleetOwner, shipCount);
      r.owner == (if shipCount > g.ships then fleetOwner else g.owner) &&
      r.ships == (if shipCount > g.ships then shipCount - g.ships else g.ships - shipCount)
  {
  }

  /** Outcomes worked by hand: capture of a neutral planet, win, loss and tie. */
  lemma CombatExamples()
    ensures Resolve(Garrison(Neutral, 0), 50, Player, 15) == Garrison(Player, 15)
    ensures Resolve(Garrison(Ai, 10), 50, Player, 15) == Garrison(Player, 5)
    ensures Resolve(Garrison(Ai, 10), 50, Player, 5) == Garrison(Ai, 5)
    ensures Resolve(Garrison(Ai, 10), 20, Player, 10) == Garrison(Ai, 0)
  {
  }

  /**
   * The winner's garrison skips the capacity clamp: a fleet of 100 taking a small
   * enemy planet (capacity 20) leaves 100 ships on it.
   */
  lemma ConquestCanExceedCapacity()
    ensures Resolve(Garrison(Ai, 0), CapacityOf(Small), Player, 100).ships > CapacityOf(Small)
  {
  }

  /** Apart from a conquest by force, an in-range garrison stays in range. */
  lemma ResolveKeepsRangeUnlessConquest(g: Garrison, capacity: int, fleetOwner: Owner, shipCount: int)
    requires 0 <= g.ships <= capacity && shipCount >= 0
    requires !(g.owner != Neutral && g.owner != fleetOwner && shipCount > g.ships)
    ensures 0 <= Resolve(g, capacity, fleetOwner, shipCount).ships <= capacity
  {
  }
}
