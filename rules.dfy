/**
 * The value-level rules of the game scene: the `filter(...).length` counts of the
 * game-over check, production, and the AI's choice of targets.
 */
module Rules {
  import opened Optional
  import opened Planets

  /** Ships every owned planet gains per production tick. */
  const ProductionAmount: int := 2
  /** An AI planet attacks only with strictly more ships than this. */
  const AiThreshold: int := 10

  datatype GameResult = Victory | Defeat

  /** How many entries of `s` equal `v`. */
  function Count<T(==)>(s: seq<T>, v: T): (n: nat)
    ensures n <= |s|
  {
    if s == [] then 0 else Count(s[..|s| - 1], v) + (if s[|s| - 1] == v then 1 else 0)
  }

  lemma {:induction false} CountZeroIff<T>(s: seq<T>, v: T)
    ensures Count(s, v) == 0 <==> v !in s
  {
    if s != [] {
      CountZeroIff(s[..|s| - 1], v);
      assert s == s[..|s| - 1] + [s[|s| - 1]];
    }
  }

  /** The positions of `s` holding `v`, in increasing order: the indices `filter` keeps. */
  function IndicesOf<T(==)>(s: seq<T>, v: T): (r: seq<nat>)
    ensures |r| == Count(s, v)
    ensures forall j :: 0 <= j < |r| ==> r[j] < |s| && s[r[j]] == v
    ensures forall j, j' :: 0 <= j < j' < |r| ==> r[j] < r[j']
    ensures |r| > 0 <==> v in s
  {
    if s == [] then []
    else IndicesOf(s[..|s| - 1], v) + (if s[|s| - 1] == v then [|s| - 1] else [])
  }

  /** Extending the prefix by one position adds that position exactly when it holds `v`. */
  lemma IndicesOfPrefix<T>(s: seq<T>, v: T, k: int)
    requires 0 <= k < |s|
    ensures IndicesOf(s[..k + 1], v) == IndicesOf(s[..k], v) + (if s[k] == v then [k] else [])
  {
    assert s[..k + 1][..k] == s[..k];
  }

  /** Every position holding `v` is among `IndicesOf(s, v)`. */
  lemma {:induction false} IndicesOfComplete<T>(s: seq<T>, v: T, k: int)
    requires 0 <= k < |s| && s[k] == v
    ensures k in IndicesOf(s, v)
  {
    var n := |s| - 1;
    if k < n {
      IndicesOfComplete(s[..n], v, k);
    }
  }

  /**
   * The game-over check on the owners of the planets and of the fleets in flight:
   * defeat when the player has neither, otherwise victory when the AI has neither.
   */
  function Verdict(planetOwners: seq<Owner>, fleetOwners: seq<Owner>): (r: Option<GameResult>)
    ensures r == Some(Defeat) <==> Player !in planetOwners && Player !in fleetOwners
    ensures r == Some(Victory) <==>
      (Player in planetOwners || Player in fleetOwners) && Ai !in planetOwners && Ai !in fleetOwners
  {
    CountZeroIff(planetOwners, Player);
    CountZeroIff(fleetOwners, Player);
    CountZeroIff(planetOwners, Ai);
    CountZeroIff(fleetOwners, Ai);
    if Count(planetOwners, Player) == 0 && Count(fleetOwners, Player) == 0 then Some(Defeat)
    else if Count(planetOwners, Ai) == 0 && Count(fleetOwners, Ai) == 0 then Some(Victory)
    else None
  }

  /** A production tick on one planet: owned planets gain ships up to their capacity. */
  function Produced(g: Garrison, capacity: int): (r: Garrison)
    ensures r.owner == g.owner
    ensures g.owner == Neutral ==> r == g
    ensures g.owner != Neutral && 0 <= g.ships <= capacity ==> g.ships <= r.ships <= capacity
    ensures g.owner != Neutral && g.ships + ProductionAmount <= capacity ==> r.ships == g.ships + ProductionAmount
  {
    if g.owner > 0 then Garrison(g.owner, Added(g.ships, ProductionAmount, capacity)) else g
  }

  /**
   * The random draws behind one AI decision: `coin` is the outcome of
   * `Math.random() < 0.7`, `pick` selects an index among the candidates.
   */
  datatype Roll = Roll(coin: bool, pick: nat)

  /** Picks one of `candidates` by `pick`. */
  function PickOne(candidates: seq<nat>, pick: nat): (c: nat)
    requires |candidates| > 0
    ensures c in candidates
  {
    candidates[pick % |candidates|]
  }

  /**
   * The AI's target for one of its planets, as an index into `owners`: a neutral planet
   * when the coin says so and one exists, else a player planet, else a neutral one.
   */
  function ChooseTarget(owners: seq<Owner>, roll: Roll): (t: Option<nat>)
    ensures t.Some? <==> Neutral in owners || Player in owners
    ensures t.Some? ==> t.value < |owners| && owners[t.value] != Ai
    ensures t.Some? && roll.coin && Neutral in owners ==> owners[t.value] == Neutral
    ensures t.Some? && !(roll.coin && Neutral in owners) && Player in owners ==> owners[t.value] == Player
    ensures t.Some? && Player !in owners ==> owners[t.value] == Neutral
  {
    var neutralTargets := IndicesOf(owners, Neutral);
    var playerTargets := IndicesOf(owners, Player);
    if |neutralTargets| > 0 && roll.coin then Some(PickOne(neutralTargets, roll.pick))
    else if |playerTargets| > 0 then Some(PickOne(playerTargets, roll.pick))
    else if |neutralTargets| > 0 then Some(PickOne(neutralTargets, roll.pick))
    else None
  }

  /** One AI launch: all ships of planet `source` go to planet `target`. */
  datatype Launch = Launch(source: nat, target: nat)

  /** Planet `k` launches in `plan`. */
  predicate LaunchesFrom(plan: seq<Launch>, k: nat) {
    exists j :: 0 <= j < |plan| && plan[j].source == k
  }

  /** An AI planet may attack: it belongs to the AI and holds more than the threshold. */
  predicate MayAttack(owner: Owner, ships: int)
    ensures MayAttack(owner, ships) ==> owner != Neutral && owner != Player && ships >= AiThreshold + 1
  {
    owner == Ai && ships > AiThreshold
  }

  /**
   * The launches of one AI tick over planets `0 .. |ships| - 1`, given every planet's
   * owner, those planets' garrisons and one roll per planet.
   */
  function AiPlan(owners: seq<Owner>, ships: seq<int>, rolls: seq<Roll>): (plan: seq<Launch>)
    requires |ships| == |rolls| <= |owners|
    ensures forall j :: 0 <= j < |plan| ==>
      plan[j].source < |ships| && MayAttack(owners[plan[j].source], ships[plan[j].source]) &&
      plan[j].target < |owners| && owners[plan[j].target] != Ai
    ensures forall j, j' :: 0 <= j < j' < |plan| ==> plan[j].source < plan[j'].source
  {
    if ships == [] then []
    else
      var n := |ships| - 1;
      AiPlan(owners, ships[..n], rolls[..n]) + LaunchFrom(owners, n, ships[n], rolls[n])
  }

  /** The launch, if any, of planet `n` holding `ships` ships. */
  function LaunchFrom(owners: seq<Owner>, n: nat, ships: int, roll: Roll): (l: seq<Launch>)
    requires n < |owners|
    ensures |l| <= 1
    ensures forall j :: 0 <= j < |l| ==> l[j].source == n && l[j].target < |owners| && owners[l[j].target] != Ai
    ensures |l| == 1 <==> MayAttack(owners[n], ships) && (Neutral in owners || Player in owners)
  {
    if MayAttack(owners[n], ships) then
      match ChooseTarget(owners, roll)
      case Some(t) => [Launch(n, t)]
      case None => []
    else []
  }

  /** Every planet that may attack launches exactly when some target exists; no other planet launches. */
  lemma {:induction false} AiPlanSources(owners: seq<Owner>, ships: seq<int>, rolls: seq<Roll>, k: nat)
    requires |ships| == |rolls| <= |owners| && k < |ships|
    ensures LaunchesFrom(AiPlan(owners, ships, rolls), k) <==>
      MayAttack(owners[k], ships[k]) && (Neutral in owners || Player in owners)
  {
    var n := |ships| - 1;
    var earlier := AiPlan(owners, ships[..n], rolls[..n]);
    var last := LaunchFrom(owners, n, ships[n], rolls[n]);
    assert AiPlan(owners, ships, rolls) == earlier + last;
    LaunchesFromAppend(earlier, last, n, k);
    if k < n {
      AiPlanSources(owners, ships[..n], rolls[..n], k);
      assert ships[..n][k] == ships[k];
    }
  }

  /** Garrisons after the launches of `plan`: every launching planet is emptied. */
  function AfterLaunches(ships: seq<int>, plan: seq<Launch>): (r: seq<int>)
    ensures |r| == |ships|
  {
    seq(|ships|, k requires 0 <= k < |ships| => if LaunchesFrom(plan, k) then 0 else ships[k])
  }

  /**
   * One more planet extends the plan by that planet's launch; the planet still holds
   * its garrison before its turn, and its turn changes only its own garrison.
   */
  lemma AiPlanStep(owners: seq<Owner>, ships: seq<int>, rolls: seq<Roll>, i: nat)
    requires |ships| == |rolls| == |owners| && i < |ships|
    ensures var plan := AiPlan(owners, ships[..i], rolls[..i]);
      var next := LaunchFrom(owners, i, ships[i], rolls[i]);
      AiPlan(owners, ships[..i + 1], rolls[..i + 1]) == plan + next &&
      AfterLaunches(ships, plan)[i] == ships[i] &&
      AfterLaunches(ships, plan + next) == AfterLaunches(ships, plan)[i := if |next| == 1 then 0 else ships[i]]
  {
    var plan := AiPlan(owners, ships[..i], rolls[..i]);
    var next := LaunchFrom(owners, i, ships[i], rolls[i]);
    assert ships[..i + 1][..i] == ships[..i] && rolls[..i + 1][..i] == rolls[..i];
    var before, after := AfterLaunches(ships, plan), AfterLaunches(ships, plan + next);
    forall k | 0 <= k < |ships|
      ensures after[k] == before[i := if |next| == 1 then 0 else ships[i]][k]
    {
      if k <= i {
        LaunchesFromAppend(plan, next, i, k);
      } else {
        LaunchesFromAppend(plan, next, i, i);
        NoLaunchBeyond(plan, i, k);
        NoLaunchBeyond(plan + next, i + 1, k);
      }
    }
    NoLaunchBeyond(plan, i, i);
  }

  /** A plan whose sources are all below `i` launches from no planet at or above `i`. */
  lemma NoLaunchBeyond(plan: seq<Launch>, i: nat, k: nat)
    requires forall j :: 0 <= j < |plan| ==> plan[j].source < i
    requires i <= k
    ensures !LaunchesFrom(plan, k)
  {
  }

  lemma LaunchesFromAppend(plan: seq<Launch>, next: seq<Launch>, i: nat, k: nat)
    requires forall j :: 0 <= j < |plan| ==> plan[j].source < i
    requires |next| <= 1 && forall j :: 0 <= j < |next| ==> next[j].source == i
    requires k <= i
    ensures k < i ==> (LaunchesFrom(plan + next, k) <==> LaunchesFrom(plan, k))
    ensures k == i ==> (LaunchesFrom(plan + next, i) <==> |next| == 1)
  {
    if LaunchesFrom(plan + next, k) {
      var j :| 0 <= j < |plan + next| && (plan + next)[j].source == k;
      if j < |plan| {
        assert plan[j].source == k;
      }
    }
    if LaunchesFrom(plan, k) {
      var j :| 0 <= j < |plan| && plan[j].source == k;
      assert (plan + next)[j].source == k;
    }
    if k == i && |next| == 1 {
      assert (plan + next)[|plan|].source == i;
    }
  }

  /** With no neutral or player planet left, the AI launches nothing. */
  lemma {:induction false} NoTargetNoLaunch(owners: seq<Owner>, ships: seq<int>, rolls: seq<Roll>)
    requires |ships| == |rolls| <= |owners|
    requires Neutral !in owners && Player !in owners
    ensures AiPlan(owners, ships, rolls) == []
  {
    if ships != [] {
      var n := |ships| - 1;
      NoTargetNoLaunch(owners, ships[..n], rolls[..n]);
    }
  }
}
