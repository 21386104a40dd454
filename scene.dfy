/**
 * The game scene: planets, fleets in flight, the player's selection and the
 * terminal game-over flag, with the input handler and the timer and frame ticks.
 */
module GameScenes {
  import opened Optional
  import opened Seqs
  import opened Planets
  import opened Fleets
  import opened Combat
  import opened Rules

  /** Types of the planets in creation order: three big, four medium, four small. */
  const PlanetTypes: seq<PlanetType> :=
    [Big, Big, Big, Medium, Medium, Medium, Medium, Small, Small, Small, Small]
  /** Garrison of each side's starting planet. */
  const StartShips: int := 10
  /** The pointer handler's initial `minDist`: no planet farther than this is picked. */
  const NoPickDistance: nat := 10000

  function TypesOf(ps: seq<Planet>): seq<PlanetType> {
    seq(|ps|, i requires 0 <= i < |ps| => ps[i].planetType)
  }

  function OwnersOf(ps: seq<Planet>): seq<Owner>
    reads ps
  {
    seq(|ps|, i requires 0 <= i < |ps| reads ps => ps[i].owner)
  }

  function ShipsOf(ps: seq<Planet>): seq<int>
    reads ps
  {
    seq(|ps|, i requires 0 <= i < |ps| reads ps => ps[i].ships)
  }

  function FleetOwnersOf(fs: seq<Fleet>): seq<Owner> {
    seq(|fs|, i requires 0 <= i < |fs| => fs[i].owner)
  }

  /** Index of the player's starting planet: the first small one. */
  const PlayerStart: nat := 7
  /** Index of the AI's starting planet: the second small one. */
  const AiStart: nat := 8

  /** The small planets are the last four, so the starts are planets 7 and 8. */
  lemma SmallPlanetIndices(t: seq<PlanetType>)
    requires t == PlanetTypes
    ensures IndicesOf(t, Small) == [7, 8, 9, 10]
  {
    assert Small !in t[..7];
    assert IndicesOf(t[..7], Small) == [];
    IndicesOfPrefix(t, Small, 7);
    assert IndicesOf(t[..8], Small) == [7];
    IndicesOfPrefix(t, Small, 8);
    assert IndicesOf(t[..9], Small) == [7, 8];
    IndicesOfPrefix(t, Small, 9);
    assert IndicesOf(t[..10], Small) == [7, 8, 9];
    IndicesOfPrefix(t, Small, 10);
    assert t[..11] == t;
  }

  /**
   * The pointer at (px, py) is strictly within 2.5 radii of `p`'s centre. A click on the
   * centre is near, and a near planet is well inside the handler's initial `minDist`.
   */
  predicate Near(p: Planet, px: int, py: int)
    ensures px == p.x && py == p.y && p.radius > 0 ==> Near(p, px, py)
    ensures Near(p, px, py) && p.radius == RadiusOf(p.planetType) ==>
      DistSq(px, py, p.x, p.y) < NoPickDistance * NoPickDistance
  {
    4 * DistSq(px, py, p.x, p.y) < 25 * (p.radius * p.radius)
  }

  /** Which fleets of `fs` are within the arrival distance of their targets. */
  ghost function ArrivalFlags(fs: seq<Fleet>): (r: seq<bool>)
    reads fs
    ensures |r| == |fs|
  {
    seq(|fs|, i requires 0 <= i < |fs| reads fs => fs[i].Arrived())
  }

  /** Garrisons after `f` is resolved against its target. */
  function Step(m: map<Planet, Garrison>, f: Fleet): (r: map<Planet, Garrison>)
    requires f.target in m
    ensures r.Keys == m.Keys
    ensures r[f.target] == Resolve(m[f.target], f.target.capacity, f.owner, f.shipCount)
    ensures forall p :: p in m && p != f.target ==> r[p] == m[p]
  {
    m[f.target := Resolve(m[f.target], f.target.capacity, f.owner, f.shipCount)]
  }

  /** Garrisons after the fleets of `arrivals` are resolved, first to last. */
  function Apply(m: map<Planet, Garrison>, arrivals: seq<Fleet>): (r: map<Planet, Garrison>)
    requires forall f :: f in arrivals ==> f.target in m
    ensures r.Keys == m.Keys
  {
    if arrivals == [] then m
    else Step(Apply(m, arrivals[..|arrivals| - 1]), arrivals[|arrivals| - 1])
  }

  /** The fleets of `fs` whose flag is set, last to first: the order `update` resolves them in. */
  function ArrivalOrder(fs: seq<Fleet>, flags: seq<bool>): (r: seq<Fleet>)
    requires |flags| == |fs|
    ensures forall f :: f in r ==> f in fs
  {
    Reverse(Chosen(fs, flags))
  }

  /** Unfolding `ArrivalOrder` at position `i`: a flagged `fs[i]` is resolved after the fleets behind it. */
  lemma ArrivalOrderAt(fs: seq<Fleet>, flags: seq<bool>, i: nat)
    requires |flags| == |fs| && i < |fs|
    ensures ArrivalOrder(fs[i..], flags[i..]) ==
      ArrivalOrder(fs[i + 1..], flags[i + 1..]) + (if flags[i] then [fs[i]] else [])
    ensures forall f :: f in ArrivalOrder(fs[i..], flags[i..]) ==> f in fs
  {
    KeepChosenAt(fs, flags, i);
    var chosen := if flags[i] then [fs[i]] else [];
    ReverseAppend(chosen, Chosen(fs[i + 1..], flags[i + 1..]));
    assert Reverse(chosen) == chosen;
    forall f | f in ArrivalOrder(fs[i..], flags[i..]) ensures f in fs {
      assert f in fs[i..];
    }
  }

  /**
   * One turn of `update`'s backward loop, on values: with the fleets after `i`
   * already handled (`cur` in flight, garrisons `g`), fleet `i` moving on or
   * arriving leaves the fleets from `i` on handled.
   */
  lemma UpdateTurn(fs0: seq<Fleet>, flags: seq<bool>, start: map<Planet, Garrison>, i: nat,
                   cur: seq<Fleet>, g: map<Planet, Garrison>)
    requires |flags| == |fs0| && i < |fs0|
    requires forall f :: f in fs0 ==> f.target in start
    requires cur == fs0[..i + 1] + Keep(fs0[i + 1..], flags[i + 1..])
    requires g == Apply(start, ArrivalOrder(fs0[i + 1..], flags[i + 1..]))
    ensures i < |cur| && cur[i] == fs0[i]
    ensures flags[i] ==>
      cur[..i] + cur[i + 1..] == fs0[..i] + Keep(fs0[i..], flags[i..]) &&
      Step(g, fs0[i]) == Apply(start, ArrivalOrder(fs0[i..], flags[i..]))
    ensures !flags[i] ==>
      cur == fs0[..i] + Keep(fs0[i..], flags[i..]) &&
      g == Apply(start, ArrivalOrder(fs0[i..], flags[i..]))
  {
    KeepFromBack(fs0, flags, i, cur);
    ArrivalOrderAt(fs0, flags, i);
    var done := ArrivalOrder(fs0[i + 1..], flags[i + 1..]);
    if flags[i] {
      ApplySnoc(start, done, fs0[i]);
    } else {
      assert done + [] == done;
    }
  }

  /** Resolving one more arrival is one more step of the fold. */
  lemma ApplySnoc(m: map<Planet, Garrison>, arrivals: seq<Fleet>, f: Fleet)
    requires forall g :: g in arrivals ==> g.target in m
    requires f.target in m
    ensures Apply(m, arrivals + [f]) == Step(Apply(m, arrivals), f)
  {
    assert (arrivals + [f])[..|arrivals|] == arrivals;
  }

  /**
   * `f` is a fleet of `count` ships of `owner` launched from `source` towards `target`,
   * still at the source's position.
   */
  ghost predicate Launched(f: Fleet, source: Planet, target: Planet, count: int, owner: Owner)
    reads f
  {
    f.source == source && f.target == target && f.shipCount == count && f.owner == owner &&
    f.speed == Speed && f.x == source.x && f.y == source.y
  }

  /** The AI fleets `fs` carry out the launches of `plan` over planets `ps` with garrisons `ships`. */
  ghost predicate CarriesOut(fs: seq<Fleet>, plan: seq<Launch>, ps: seq<Planet>, ships: seq<int>)
    reads fs
  {
    |fs| == |plan| &&
    forall j :: 0 <= j < |plan| ==>
      plan[j].source < |ps| && plan[j].source < |ships| && plan[j].target < |ps| &&
      Launched(fs[j], ps[plan[j].source], ps[plan[j].target], ships[plan[j].source], Ai)
  }

  lemma CarriesOutAppend(fs: seq<Fleet>, plan: seq<Launch>, ps: seq<Planet>, ships: seq<int>,
                         f: seq<Fleet>, l: seq<Launch>)
    requires CarriesOut(fs, plan, ps, ships) && CarriesOut(f, l, ps, ships)
    ensures CarriesOut(fs + f, plan + l, ps, ships)
  {
    forall j | 0 <= j < |plan + l|
      ensures (plan + l)[j].source < |ps| && (plan + l)[j].source < |ships| && (plan + l)[j].target < |ps| &&
        Launched((fs + f)[j], ps[(plan + l)[j].source], ps[(plan + l)[j].target], ships[(plan + l)[j].source], Ai)
    {
      if j >= |plan| {
        assert (plan + l)[j] == l[j - |plan|] && (fs + f)[j] == f[j - |plan|];
      }
    }
  }

  /** `createPlanets`: one new neutral, empty planet per type, at the given positions. */
  method CreatePlanets(positions: seq<(int, int)>) returns (ps: seq<Planet>)
    requires |positions| == |PlanetTypes|
    ensures |ps| == |PlanetTypes| && Distinct(ps)
    ensures forall k :: 0 <= k < |ps| ==>
      fresh(ps[k]) && ps[k].planetType == PlanetTypes[k] && ps[k].id == k &&
      ps[k].x == positions[k].0 && ps[k].y == positions[k].1 &&
      ps[k].radius == RadiusOf(PlanetTypes[k]) && ps[k].capacity == CapacityOf(PlanetTypes[k]) &&
      ps[k].Held() == Garrison(Neutral, 0)
  {
    ps := [];
    for i := 0 to |PlanetTypes|
      invariant |ps| == i && Distinct(ps)
      invariant forall k :: 0 <= k < i ==>
        fresh(ps[k]) && ps[k].planetType == PlanetTypes[k] && ps[k].id == k &&
        ps[k].x == positions[k].0 && ps[k].y == positions[k].1 &&
        ps[k].radius == RadiusOf(PlanetTypes[k]) && ps[k].capacity == CapacityOf(PlanetTypes[k]) &&
        ps[k].Held() == Garrison(Neutral, 0)
    {
      var p := new Planet(positions[i].0, positions[i].1, PlanetTypes[i], i);
      ps := ps + [p];
    }
  }

  /** The start assignment: the first small planet goes to the player, the second to the AI. */
  method AssignStarts(ps: seq<Planet>)
    requires Distinct(ps)
    modifies ps
    ensures var small := IndicesOf(TypesOf(ps), Small);
      forall i :: 0 <= i < |ps| ==>
        ps[i].Held() ==
          if |small| > 0 && i == small[0] then Garrison(Player, StartShips)
          else if |small| > 1 && i == small[1] then Garrison(Ai, StartShips)
          else old(ps[i].Held())
  {
    var small := IndicesOf(TypesOf(ps), Small);
    if |small| > 0 {
      var start := ps[small[0]];
      start.SetOwner(Player);
      start.ships := StartShips;
      if |small| > 1 {
        var aiStart := ps[small[1]];
        aiStart.SetOwner(Ai);
        aiStart.ships := StartShips;
      }
    }
  }

  /** The planets at scene start: `createPlanets` followed by `assignStartingPlanets`. */
  method StartPlanets(positions: seq<(int, int)>) returns (ps: seq<Planet>)
    requires |positions| == |PlanetTypes|
    ensures |ps| == |PlanetTypes| && Distinct(ps)
    ensures forall i :: 0 <= i < |ps| ==> fresh(ps[i])
    ensures forall i :: 0 <= i < |ps| ==>
      ps[i].planetType == PlanetTypes[i] && ps[i].id == i && ps[i].x == positions[i].0 && ps[i].y == positions[i].1
    ensures forall p :: p in ps ==>
      p.radius == RadiusOf(p.planetType) && p.capacity == CapacityOf(p.planetType) && p.ships >= 0
    ensures forall i :: 0 <= i < |ps| ==>
      ps[i].Held() ==
        if i == PlayerStart then Garrison(Player, StartShips)
        else if i == AiStart then Garrison(Ai, StartShips)
        else Garrison(Neutral, 0)
  {
    ps := CreatePlanets(positions);
    assert TypesOf(ps) == PlanetTypes;
    SmallPlanetIndices(TypesOf(ps));
    AssignStarts(ps);
  }

  class Scene {
    /** The planets, created once at the start and never replaced. */
    const planets: seq<Planet>
    /** Fleets in flight, oldest first. */
    var fleets: seq<Fleet>
    var selectedPlanet: Planet?
    var gameOver: bool
    /** The result shown once the game is over. */
    var result: Option<GameResult>

    ghost predicate Valid()
      reads this, planets
    {
      Distinct(planets) && Distinct(fleets) &&
      (forall p :: p in planets ==>
        p.radius == RadiusOf(p.planetType) && p.capacity == CapacityOf(p.planetType) && p.ships >= 0) &&
      (forall f :: f in fleets ==>
        f.source in planets && f.target in planets && f.owner != Neutral && f.shipCount >= 1) &&
      (selectedPlanet != null ==> selectedPlanet in planets) &&
      (gameOver <==> result.Some?)
    }

    /** Owner and ships of every planet. */
    ghost function Garrisons(): map<Planet, Garrison>
      reads planets
    {
      map p | p in planets :: p.Held()
    }

    /** Planet `k` is the one the pointer handler picks for a click at (px, py). */
    ghost predicate IsPick(k: int, px: int, py: int) {
      0 <= k < |planets| && Near(planets[k], px, py) &&
      (forall j :: 0 <= j < |planets| && Near(planets[j], px, py) ==>
        DistSq(px, py, planets[k].x, planets[k].y) <= DistSq(px, py, planets[j].x, planets[j].y)) &&
      (forall j :: 0 <= j < k && Near(planets[j], px, py) ==>
        DistSq(px, py, planets[k].x, planets[k].y) < DistSq(px, py, planets[j].x, planets[j].y))
    }

    /**
     * The fleet list after `sendFleet(source, target)`: unchanged when the source has no
     * ship, otherwise extended by one new fleet carrying all of them.
     */
    twostate predicate Dispatched(source: Planet, target: Planet)
      reads this, fleets
    {
      if old(source.ships) < 1 then
        fleets == old(fleets)
      else
        |fleets| == |old(fleets)| + 1 && fleets[..|old(fleets)|] == old(fleets) &&
        Launched(fleets[|old(fleets)|], source, target, old(source.ships), old(source.owner)) &&
        fresh(fleets[|old(fleets)|])
    }

    /** The effect of `sendFleet(source, target)` on the fleets and the garrisons. */
    twostate predicate Sent(source: Planet, target: Planet)
      reads this, fleets, planets
    {
      Dispatched(source, target) &&
      if old(source.ships) < 1 then
        Garrisons() == old(Garrisons())
      else
        Garrisons() == old(Garrisons())[source := Garrison(old(source.owner), Removed(old(source.ships), old(source.ships)))]
    }

    /** The effect of `handlePlanetClick(planet)` on a running game. */
    twostate predicate ClickEffect(planet: Planet)
      reads this, fleets, planets, planet
    {
      var sel := old(selectedPlanet);
      if sel == null then
        selectedPlanet == (if planet.owner == Player then planet else null) &&
        fleets == old(fleets) && Garrisons() == old(Garrisons())
      else if sel == planet then
        selectedPlanet == null && fleets == old(fleets) && Garrisons() == old(Garrisons())
      else if old(sel.owner) == Player then
        selectedPlanet == null && Sent(sel, planet)
      else
        selectedPlanet == (if planet.owner == Player then planet else null) &&
        fleets == old(fleets) && Garrisons() == old(Garrisons())
    }

    /**
     * Scene start on the given planet positions (the random layout is not modelled):
     * eleven planets in `PlanetTypes` order; the first small planet becomes the
     * player's and the second the AI's, each with ten ships.
     */
    constructor (positions: seq<(int, int)>)
      requires |positions| == |PlanetTypes|
      ensures Valid()
      ensures |planets| == |PlanetTypes|
      ensures forall i :: 0 <= i < |planets| ==>
        fresh(planets[i]) && planets[i].planetType == PlanetTypes[i] && planets[i].id == i &&
        planets[i].x == positions[i].0 && planets[i].y == positions[i].1
      ensures forall i :: 0 <= i < |planets| ==>
        planets[i].Held() ==
          if i == PlayerStart then Garrison(Player, StartShips)
          else if i == AiStart then Garrison(Ai, StartShips)
          else Garrison(Neutral, 0)
      ensures fleets == [] && selectedPlanet == null && !gameOver && result == None
    {
      var ps := StartPlanets(positions);
      planets := ps;
      fleets := [];
      selectedPlanet := null;
      gameOver := false;
      result := None;
    }

    /** The pointer handler's search: the nearest planet within tolerance, earliest on ties. */
    method PickPlanet(px: int, py: int) returns (closest: Option<nat>)
      requires Valid()
      ensures closest.Some? ==> IsPick(closest.value, px, py)
      ensures closest.None? <==> forall k :: 0 <= k < |planets| ==> !Near(planets[k], px, py)
    {
      closest := None;
      var minDist := NoPickDistance * NoPickDistance;
      for k := 0 to |planets|
        invariant closest.None? ==>
          minDist == NoPickDistance * NoPickDistance &&
          forall j :: 0 <= j < k ==> !Near(planets[j], px, py)
        invariant closest.Some? ==>
          closest.value < k && Near(planets[closest.value], px, py) &&
          minDist == DistSq(px, py, planets[closest.value].x, planets[closest.value].y) &&
          (forall j :: 0 <= j < k && Near(planets[j], px, py) ==>
            minDist <= DistSq(px, py, planets[j].x, planets[j].y)) &&
          (forall j :: 0 <= j < closest.value && Near(planets[j], px, py) ==>
            minDist < DistSq(px, py, planets[j].x, planets[j].y))
      {
        var p := planets[k];
        var dist := DistSq(px, py, p.x, p.y);
        if 4 * dist < 25 * (p.radius * p.radius) {
          if dist < minDist {
            minDist := dist;
            closest := Some(k);
          }
        }
      }
    }

    /** `pointerdown`: click the picked planet, or clear the selection on empty space. */
    method PointerDown(px: int, py: int)
      requires Valid()
      modifies this, planets
      ensures Valid()
      ensures gameOver == old(gameOver) && result == old(result)
      ensures old(gameOver) ==>
        selectedPlanet == old(selectedPlanet) && fleets == old(fleets) && Garrisons() == old(Garrisons())
      ensures !old(gameOver) && (forall k :: 0 <= k < |planets| ==> !Near(planets[k], px, py)) ==>
        selectedPlanet == null && fleets == old(fleets) && Garrisons() == old(Garrisons())
      ensures !old(gameOver) ==> forall k :: IsPick(k, px, py) ==> ClickEffect(planets[k])
      ensures !old(gameOver) ==> selectedPlanet == null || selectedPlanet.owner == Player
    {
      if gameOver {
        return;
      }
      var closest := PickPlanet(px, py);
      if closest.Some? {
        forall k | IsPick(k, px, py) ensures k == closest.value {
          PickIsUnique(k, closest.value, px, py);
        }
        HandlePlanetClick(planets[closest.value]);
      } else {
        selectedPlanet := null;
      }
    }

    /** At most one planet is the pick. */
    lemma PickIsUnique(k: int, k': int, px: int, py: int)
      requires IsPick(k, px, py) && IsPick(k', px, py)
      ensures k == k'
    {
    }

    /** `handlePlanetClick`: select, deselect, or dispatch from the selection and deselect. */
    method HandlePlanetClick(planet: Planet)
      requires Valid() && planet in planets
      modifies this, planets
      ensures Valid()
      ensures gameOver == old(gameOver) && result == old(result)
      ensures old(gameOver) ==>
        selectedPlanet == old(selectedPlanet) && fleets == old(fleets) && Garrisons() == old(Garrisons())
      ensures !old(gameOver) ==> ClickEffect(planet)
      ensures !old(gameOver) ==> selectedPlanet == null || selectedPlanet.owner == Player
    {
      if gameOver {
        return;
      }
      if selectedPlanet != null {
        if selectedPlanet == planet {
          selectedPlanet := null;
        } else if selectedPlanet.owner == Player {
          SendFleet(selectedPlanet, planet);
          selectedPlanet := null;
        } else {
          if planet.owner == Player {
            selectedPlanet := planet;
          } else {
            selectedPlanet := null;
          }
        }
      } else if planet.owner == Player {
        selectedPlanet := planet;
      }
    }

    /** `sendFleet`: launch every whole ship of `source` as one new fleet. */
    method SendFleet(source: Planet, target: Planet)
      requires Valid() && source in planets && target in planets
      requires source.owner != Neutral
      modifies this, source
      ensures Valid()
      ensures Dispatched(source, target)
      ensures source.owner == old(source.owner)
      ensures source.ships == if old(source.ships) < 1 then old(source.ships) else 0
      ensures selectedPlanet == old(selectedPlanet) && gameOver == old(gameOver) && result == old(result)
    {
      if source.ships < 1 {
        return;
      }
      // Math.floor is the identity on the model's integer counts.
      var shipsToSend := source.ships;
      source.RemoveShips(shipsToSend);
      var fleet := new Fleet(source, target, shipsToSend);
      fleets := fleets + [fleet];
      assert fleets[..|old(fleets)|] == old(fleets);
    }

    /** Production tick: every owned planet gains two ships, up to its capacity. */
    method ProduceShips()
      requires Valid()
      modifies planets
      ensures Valid()
      ensures forall i :: 0 <= i < |planets| ==>
        planets[i].Held() ==
          if old(gameOver) then old(planets[i].Held())
          else Produced(old(planets[i].Held()), planets[i].capacity)
    {
      if gameOver {
        return;
      }
      for i := 0 to |planets|
        invariant Valid()
        invariant forall k :: 0 <= k < i ==>
          planets[k].Held() == Produced(old(planets[k].Held()), planets[k].capacity)
        invariant forall k :: i <= k < |planets| ==> planets[k].Held() == old(planets[k].Held())
      {
        var p := planets[i];
        if p.owner > 0 {
          p.AddShips(ProductionAmount);
        }
      }
    }

    /** AI tick: every AI planet holding more than ten ships sends all of them at a chosen target. */
    method UpdateAI(rolls: seq<Roll>)
      requires Valid() && |rolls| == |planets|
      modifies this, planets
      ensures Valid()
      ensures selectedPlanet == old(selectedPlanet) && gameOver == old(gameOver) && result == old(result)
      ensures old(gameOver) ==> fleets == old(fleets) && Garrisons() == old(Garrisons())
      ensures !old(gameOver) ==>
        var ships := old(ShipsOf(planets));
        var plan := AiPlan(old(OwnersOf(planets)), ships, rolls);
        |old(fleets)| <= |fleets| && fleets[..|old(fleets)|] == old(fleets) &&
        CarriesOut(fleets[|old(fleets)|..], plan, planets, ships) &&
        OwnersOf(planets) == old(OwnersOf(planets)) &&
        ShipsOf(planets) == AfterLaunches(ships, plan)
    {
      if gameOver {
        return;
      }
      ghost var owners := OwnersOf(planets);
      ghost var ships := ShipsOf(planets);
      ghost var fleets0 := fleets;
      assert AfterLaunches(ships, []) == ships;
      for i := 0 to |planets|
        invariant Valid()
        invariant selectedPlanet == old(selectedPlanet) && gameOver == old(gameOver) && result == old(result)
        invariant OwnersOf(planets) == owners
        invariant |fleets0| <= |fleets| && fleets[..|fleets0|] == fleets0
        invariant CarriesOut(fleets[|fleets0|..], AiPlan(owners, ships[..i], rolls[..i]), planets, ships)
        invariant ShipsOf(planets) == AfterLaunches(ships, AiPlan(owners, ships[..i], rolls[..i]))
      {
        AiStep(i, rolls, owners, ships, fleets0);
      }
      assert ships[..|planets|] == ships && rolls[..|planets|] == rolls;
    }

    /**
     * The loop body of `updateAI` at planet `i`: the fleets launched so far carry out
     * the plan of the planets before `i`, and planet `i`'s turn extends it by one.
     */
    method AiStep(i: nat, rolls: seq<Roll>, ghost owners: seq<Owner>, ghost ships: seq<int>, ghost fleets0: seq<Fleet>)
      requires Valid() && i < |planets| == |ships| == |rolls| == |owners|
      requires OwnersOf(planets) == owners
      requires |fleets0| <= |fleets| && fleets[..|fleets0|] == fleets0
      requires CarriesOut(fleets[|fleets0|..], AiPlan(owners, ships[..i], rolls[..i]), planets, ships)
      requires ShipsOf(planets) == AfterLaunches(ships, AiPlan(owners, ships[..i], rolls[..i]))
      modifies this, planets[i]
      ensures Valid()
      ensures selectedPlanet == old(selectedPlanet) && gameOver == old(gameOver) && result == old(result)
      ensures OwnersOf(planets) == owners
      ensures |fleets0| <= |fleets| && fleets[..|fleets0|] == fleets0
      ensures CarriesOut(fleets[|fleets0|..], AiPlan(owners, ships[..i + 1], rolls[..i + 1]), planets, ships)
      ensures ShipsOf(planets) == AfterLaunches(ships, AiPlan(owners, ships[..i + 1], rolls[..i + 1]))
    {
      AiPlanStep(owners, ships, rolls, i);
      ghost var plan := AiPlan(owners, ships[..i], rolls[..i]);
      ghost var next := LaunchFrom(owners, i, ships[i], rolls[i]);
      ghost var before := fleets;
      AiTurn(i, rolls[i], ships);
      SuffixOfExtension(fleets, before, |fleets0|);
      CarriesOutAppend(before[|fleets0|..], plan, planets, ships, fleets[|before|..], next);
    }

    /** One planet's turn in `updateAI`: an AI planet above the threshold attacks the chosen target. */
    method AiTurn(i: nat, roll: Roll, ghost ships: seq<int>)
      requires Valid() && i < |planets| == |ships| && planets[i].ships == ships[i]
      modifies this, planets[i]
      ensures Valid()
      ensures selectedPlanet == old(selectedPlanet) && gameOver == old(gameOver) && result == old(result)
      ensures OwnersOf(planets) == old(OwnersOf(planets))
      ensures var next := LaunchFrom(old(OwnersOf(planets)), i, ships[i], roll);
        |old(fleets)| <= |fleets| && fleets[..|old(fleets)|] == old(fleets) &&
        CarriesOut(fleets[|old(fleets)|..], next, planets, ships) &&
        (forall j :: |old(fleets)| <= j < |fleets| ==> fresh(fleets[j])) &&
        ShipsOf(planets) == old(ShipsOf(planets))[i := if |next| == 1 then 0 else ships[i]]
    {
      var next := LaunchFrom(OwnersOf(planets), i, planets[i].ships, roll);
      if |next| == 1 {
        ghost var before := fleets;
        SendFleet(planets[i], planets[next[0].target]);
        assert fleets[|before|..] == [fleets[|before|]];
      }
    }

    /**
     * One frame: every fleet, last to first, either arrives, is resolved and is
     * spliced out of the list, or moves on.
     */
    method Update()
      requires Valid()
      modifies this, planets, fleets
      ensures Valid()
      ensures selectedPlanet == old(selectedPlanet) && gameOver == old(gameOver) && result == old(result)
      ensures old(gameOver) ==> fleets == old(fleets) && unchanged(fleets) && Garrisons() == old(Garrisons())
      ensures !old(gameOver) ==> fleets == Keep(old(fleets), old(ArrivalFlags(fleets)))
      ensures !old(gameOver) ==>
        Garrisons() == Apply(old(Garrisons()), ArrivalOrder(old(fleets), old(ArrivalFlags(fleets))))
    {
      if gameOver {
        return;
      }
      ghost var fleets0: seq<Fleet> := fleets;
      ghost var flags: seq<bool> := ArrivalFlags(fleets);
      ghost var start := Garrisons();
      var i := |fleets|;
      while i > 0
        invariant 0 <= i <= |fleets0|
        invariant Valid()
        invariant selectedPlanet == old(selectedPlanet) && gameOver == old(gameOver) && result == old(result)
        invariant fleets == fleets0[..i] + Keep(fleets0[i..], flags[i..])
        invariant Garrisons() == Apply(start, ArrivalOrder(fleets0[i..], flags[i..]))
        invariant forall j :: 0 <= j < i ==> fleets0[j].Arrived() == flags[j]
      {
        i := i - 1;
        UpdateStep(i, fleets0, flags, start);
      }
      assert fleets0[0..] == fleets0 && flags[0..] == flags;
    }

    /**
     * The loop body of `update` at position `i`: the fleets after `i` are already
     * handled, and handling fleet `i` extends the splice and the fold by one.
     */
    method UpdateStep(i: nat, ghost fleets0: seq<Fleet>, ghost flags: seq<bool>, ghost start: map<Planet, Garrison>)
      requires Valid() && i < |fleets0| == |flags| && Distinct(fleets0)
      requires forall f :: f in fleets0 ==> f.target in start
      requires fleets == fleets0[..i + 1] + Keep(fleets0[i + 1..], flags[i + 1..])
      requires Garrisons() == Apply(start, ArrivalOrder(fleets0[i + 1..], flags[i + 1..]))
      requires forall j :: 0 <= j <= i ==> fleets0[j].Arrived() == flags[j]
      modifies this, fleets0[i], fleets0[i].target
      ensures Valid()
      ensures selectedPlanet == old(selectedPlanet) && gameOver == old(gameOver) && result == old(result)
      ensures fleets == fleets0[..i] + Keep(fleets0[i..], flags[i..])
      ensures Garrisons() == Apply(start, ArrivalOrder(fleets0[i..], flags[i..]))
      ensures forall j :: 0 <= j < i ==> fleets0[j].Arrived() == flags[j]
    {
      UpdateTurn(fleets0, flags, start, i, fleets, Garrisons());
      var arrived := AdvanceFleet(i);
      forall j | 0 <= j < i
        ensures fleets0[j].Arrived() == flags[j]
      {
        assert fleets0[j] != fleets0[i];
      }
    }

    /** One fleet's turn in `update`: it moves on, or it arrives, is resolved and leaves the list. */
    method AdvanceFleet(i: nat) returns (arrived: bool)
      requires Valid() && i < |fleets|
      modifies this, fleets[i], fleets[i].target
      ensures Valid()
      ensures selectedPlanet == old(selectedPlanet) && gameOver == old(gameOver) && result == old(result)
      ensures arrived == old(fleets[i].Arrived())
      ensures arrived ==>
        fleets == old(fleets[..i] + fleets[i + 1..]) && Garrisons() == Step(old(Garrisons()), old(fleets[i]))
      ensures !arrived ==> fleets == old(fleets) && Garrisons() == old(Garrisons())
    {
      var fleet := fleets[i];
      arrived := fleet.Update();
      if arrived {
        Arrive(i);
      }
    }

    /** An arrived fleet at position `i` is resolved against its target and spliced out of the list. */
    method Arrive(i: nat)
      requires Valid() && i < |fleets|
      modifies this, fleets[i].target
      ensures Valid()
      ensures selectedPlanet == old(selectedPlanet) && gameOver == old(gameOver) && result == old(result)
      ensures fleets == old(fleets[..i] + fleets[i + 1..])
      ensures Garrisons() == Step(old(Garrisons()), old(fleets[i]))
    {
      var fleet := fleets[i];
      ghost var resolved := Resolve(fleet.target.Held(), fleet.target.capacity, fleet.owner, fleet.shipCount);
      HandleArrival(fleet);
      assert fleet.target.Held() == resolved;
      DistinctRemove(fleets, i);
      fleets := fleets[..i] + fleets[i + 1..];
    }

    /** The game-over check. */
    method CheckGameOver()
      requires Valid()
      modifies this
      ensures Valid()
      ensures fleets == old(fleets) && selectedPlanet == old(selectedPlanet)
      ensures old(gameOver) ==> gameOver && result == old(result)
      ensures !old(gameOver) ==> result == Verdict(OwnersOf(planets), FleetOwnersOf(fleets))
    {
      if gameOver {
        return;
      }
      var planetOwners := OwnersOf(planets);
      var fleetOwners := FleetOwnersOf(fleets);
      var outcome: Option<GameResult> := None;
      if Count(planetOwners, Player) == 0 && Count(fleetOwners, Player) == 0 {
        outcome := Some(Defeat);
      } else if Count(planetOwners, Ai) == 0 && Count(fleetOwners, Ai) == 0 {
        outcome := Some(Victory);
      }
      if outcome.Some? {
        gameOver := true;
        result := outcome;
      }
    }

    /** Resolves an arrived fleet against its target. */
    method HandleArrival(fleet: Fleet)
      requires Valid() && fleet in fleets
      modifies fleet.target
      ensures Valid()
      ensures fleet.target.Held() ==
        Resolve(old(fleet.target.Held()), fleet.target.capacity, fleet.owner, fleet.shipCount)
    {
      var target := fleet.target;
      if target.owner == fleet.owner {
        target.AddShips(fleet.shipCount);
      } else if target.owner == Neutral {
        target.SetOwner(fleet.owner);
        target.AddShips(fleet.shipCount);
      } else if fleet.shipCount > target.ships {
        var remaining := fleet.shipCount - target.ships;
        target.SetOwner(fleet.owner);
        target.ships := remaining;
      } else {
        target.RemoveShips(fleet.shipCount);
      }
    }
  }
}
