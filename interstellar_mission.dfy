/** The class InterstellarMission of interstellar_mission.py: the memoised explicit-stack search
    of `_solve_iterative`, proved to do what the iterations of InterstellarSpec do. The loop is
    bounded by a number of iterations (fuel), and the random shuffle is a parameter. */
module InterstellarMission {
  import opened Grid
  import opened InterstellarSpec

  class InterstellarMission {
    /** The map data load_map_from_json stores; it is not changed by the search. */
    const mission: Mission
    /** `max_solutions`, 1 after __init__. */
    const maxSolutions: nat
    var solutions: seq<seq<StepInfo>>
    /** `_visited_states`: memo key -> energy. */
    var visitedStates: map<Key, int>
    var searchInProgress: bool

    /** __init__ once load_map_from_json has read the map (interstellar_mission.py:11-30). */
    constructor (m: Mission)
      ensures mission == m && maxSolutions == 1
      ensures solutions == [] && visitedStates == map[] && !searchInProgress
    {
      mission := m;
      maxSolutions := 1;
      solutions := [];
      visitedStates := map[];
      searchInProgress := false;
    }

    /** `_get_adjacent_cells`: the in-bounds neighbours, in the order Right, Left, Down, Up. */
    method GetAdjacentCells(r: int, c: int) returns (adj: seq<Cell>)
      ensures adj == AdjacentCells(mission, (r, c))
      ensures forall q :: q in adj <==> InBounds(mission.rows, mission.cols, q) && Adjacent((r, c), q)
    {
      adj := [];
      var k := 0;
      while k < 4
        invariant 0 <= k <= 4
        invariant adj == AdjacentBelow(mission, (r, c), k)
      {
        var (dr, dc) := Moves[k];
        var nr, nc := r + dr, c + dc;
        if 0 <= nr < mission.rows && 0 <= nc < mission.cols {
          adj := adj + [(nr, nc)];
        }
        k := k + 1;
      }
      AdjacentCellsExactly(mission, (r, c));
    }

    /** The giant star's loop over the shuffled neighbours: the first black hole met is removed. */
    method DestroyOne(order: seq<Cell>, bh: set<Cell>) returns (bh': set<Cell>)
      ensures bh' == Destroyed(order, bh)
      ensures bh' <= bh && |bh - bh'| <= 1
    {
      bh' := bh;
      var i := 0;
      while i < |order|
        invariant 0 <= i <= |order|
        invariant Destroyed(order, bh) == Destroyed(order[i..], bh)
      {
        if order[i] in bh' {
          bh' := bh' - {order[i]};
          break;
        }
        assert order[i..][1..] == order[i + 1..];
        i := i + 1;
      }
      DestroyedFirst(order, bh);
      if bh' != bh {
        assert bh - bh' == {order[i]};
      }
    }

    /** The pushes of one iteration: the wormhole exit when its id is unused, then the standard
        moves Right, Left, Down, Up that pass their checks (interstellar_mission.py:203-254). */
    method PushSuccessors(stack: seq<Entry>, pos: Cell, energy: int, path: seq<StepInfo>, bh: set<Cell>, used: set<string>)
      returns (stack': seq<Entry>)
      requires WellFormed(mission)
      ensures stack' == stack + Successors(mission, pos, energy, path, bh, used)
    {
      stack' := stack;
      if pos in mission.wormholes {
        var wh := mission.wormholes[pos];
        if wh.id !in used {
          var used' := used + {wh.id};
          stack' := stack' + [Entry(wh.exit, energy, path + [StepInfo(wh.exit, energy, Placeholder, bh, used')], bh, used')];
        }
      }
      ghost var wormhole := WormholeSuccessor(mission, pos, energy, path, bh, used);
      assert stack' == stack + wormhole;
      var k := 0;
      while k < 4
        invariant 0 <= k <= 4
        invariant stack' == stack + wormhole + MovesBelow(mission, pos, energy, path, bh, used, k)
      {
        stack' := PushMove(stack', Shift(pos, Moves[k]), energy, path, bh, used);
        k := k + 1;
      }
      assert stack + wormhole + MovesBelow(mission, pos, energy, path, bh, used, 4) ==
        stack + (wormhole + MovesBelow(mission, pos, energy, path, bh, used, 4));
    }

    /** One standard move onto q with its checks: bounds, current black holes, the minimum charge
        against the energy before the move, and the energy left after the cost
        (interstellar_mission.py:233-268). */
    method PushMove(stack: seq<Entry>, q: Cell, energy: int, path: seq<StepInfo>, bh: set<Cell>, used: set<string>)
      returns (stack': seq<Entry>)
      requires WellFormed(mission)
      ensures stack' == stack + MoveTo(mission, q, energy, path, bh, used)
    {
      stack' := stack;
      if !(0 <= q.0 < mission.rows && 0 <= q.1 < mission.cols) {
        return;
      }
      if q in bh {
        return;
      }
      if q in mission.requiredCharge && energy < mission.requiredCharge[q] {
        return;
      }
      var cost := mission.costs[q.0][q.1];
      if q in mission.recharge {
        cost := 0;
      }
      var left := energy - cost;
      if left < 0 {
        return;
      }
      stack' := stack' + [Entry(q, left, path + [StepInfo(q, energy, Placeholder, bh, used)], bh, used)];
    }

    /** `_solve_iterative`, for at most fuel iterations; shuffle stands for random.shuffle. */
    method SolveIterative(shuffle: Shuffle, fuel: nat)
      requires WellFormed(mission)
      modifies this
      ensures var r := Run(mission, shuffle, maxSolutions, Machine([Start(mission)], old(visitedStates), old(solutions), 0), fuel);
        visitedStates == r.memo && solutions == r.solutions
      ensures searchInProgress == old(searchInProgress)
    {
      var stack := [Start(mission)];
      var pops := 0;
      ghost var goal := Run(mission, shuffle, maxSolutions, Machine(stack, visitedStates, solutions, 0), fuel);
      ghost var left: nat := fuel;
      while |stack| > 0 && |solutions| < maxSolutions && pops < fuel
        invariant pops + left == fuel
        invariant Run(mission, shuffle, maxSolutions, Machine(stack, visitedStates, solutions, pops), left) == goal
        invariant searchInProgress == old(searchInProgress)
        decreases left
      {
        ghost var next := Advance(mission, shuffle, maxSolutions, Machine(stack, visitedStates, solutions, pops));
        assert Run(mission, shuffle, maxSolutions, next, left - 1) == goal;
        left := left - 1;
        stack := Iteration(shuffle, stack, pops);
        pops := pops + 1;
      }
    }

    /** One iteration of the loop of `_solve_iterative` (interstellar_mission.py:143-268): pop an entry,
        apply its cell's effects, prune it against the memo or record it, store a solution at the
        destination, and push the successors unless the solution cap is reached. */
    method Iteration(shuffle: Shuffle, stack: seq<Entry>, pops: nat) returns (stack': seq<Entry>)
      requires WellFormed(mission) && |stack| > 0
      modifies this
      ensures Machine(stack', visitedStates, solutions, pops + 1) ==
        Advance(mission, shuffle, maxSolutions, Machine(stack, old(visitedStates), old(solutions), pops))
      ensures searchInProgress == old(searchInProgress)
    {
      var e := stack[|stack| - 1];
      stack' := stack[..|stack| - 1];
      var energy, bh, path := Arrive(e, shuffle, pops);
      var key := Key(e.pos, energy, bh, e.used);
      if key in visitedStates && visitedStates[key] >= energy {
        return;
      }
      visitedStates := visitedStates[key := energy];
      if e.pos == mission.destination {
        solutions := solutions + [path];
        if |solutions| >= maxSolutions {
          return;
        }
      }
      stack' := PushSuccessors(stack', e.pos, energy, path, bh, e.used);
    }

    /** The effects of arriving at the popped entry's cell: the recharge, the giant star's
        destruction, and the update of the path's last step (interstellar_mission.py:145-187). */
    method Arrive(e: Entry, shuffle: Shuffle, pops: nat) returns (energy: int, bh: set<Cell>, path: seq<StepInfo>)
      ensures energy == ArrivalEnergy(mission, e) && bh == ArrivalBlackHoles(mission, shuffle, pops, e)
      ensures path == UpdateLast(e.path, energy, bh, e.used)
    {
      energy := e.energy;
      if e.pos in mission.recharge {
        energy := e.energy * mission.recharge[e.pos];
      }
      bh := e.blackHoles;
      if e.pos in mission.giantStars {
        var adj := GetAdjacentCells(e.pos.0, e.pos.1);
        bh := DestroyOne(shuffle(pops, adj), bh);
      }
      path := e.path;
      if |path| > 0 {
        path := path[..|path| - 1] + [path[|path| - 1].(energyAfter := energy, blackHoles := bh, usedWormholes := e.used)];
      }
    }

    /** `solve`: clears the solutions and the memo, then searches. */
    method Solve(shuffle: Shuffle, fuel: nat)
      requires WellFormed(mission)
      modifies this
      ensures var r := Run(mission, shuffle, maxSolutions, Machine([Start(mission)], map[], [], 0), fuel);
        visitedStates == r.memo && solutions == r.solutions
      ensures |solutions| <= maxSolutions
      ensures forall p :: p in solutions ==> SolutionShape(mission, p)
      ensures forall k :: k in visitedStates ==> visitedStates[k] == k.energy
      ensures !searchInProgress
    {
      searchInProgress := true;
      solutions := [];
      visitedStates := map[];
      SolveIterative(shuffle, fuel);
      searchInProgress := false;
      var start := Machine([Start(mission)], map[], [], 0);
      RunCapped(mission, shuffle, maxSolutions, [], start, fuel);
      RunShaped(mission, shuffle, maxSolutions, start, fuel);
      RunMemo(mission, shuffle, maxSolutions, start, fuel);
    }
  }
}
