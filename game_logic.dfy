/** The class GameLogic of game_logic.py: the explicit-stack depth-first search of `solve`,
    proved to return what the search of GameSpec returns. */
module GameLogic {
  import opened Grid
  import opened GameSpec

  class GameLogic {
    /** The map data read in __init__; it is not changed afterwards. */
    const world: World
    var solutionPath: seq<Cell>
    var solutionEnergyLevels: seq<int>

    /** __init__ once the map data has been read from the loader (game_logic.py:15-40). */
    constructor (w: World)
      ensures world == w && solutionPath == [] && solutionEnergyLevels == []
    {
      world := w;
      solutionPath := [];
      solutionEnergyLevels := [];
    }

    /** The neighbours of a giant star at p that are valid, black holes and not yet removed on the
        branch, in move order. */
    method AdjacentActiveBlackHoles(p: Cell, removed: set<Cell>) returns (adj: seq<Cell>)
      ensures adj == StarCandidates(world, p, removed)
      ensures forall q :: q in adj <==> IsValid(world, q) && q in world.blackHoles && q !in removed && Adjacent(p, q)
    {
      adj := [];
      var k := 0;
      while k < 4
        invariant 0 <= k <= 4
        invariant adj == CandidatesBelow(world, p, removed, k)
      {
        var q := Shift(p, Moves[k]);
        if IsValid(world, q) && q in world.blackHoles && q !in removed {
          adj := adj + [q];
        }
        k := k + 1;
      }
      forall q {
        CandidateRemovable(world, p, removed, q);
      }
    }

    /** Appends the four moves from t's cell in reversed move order, so that Right is popped first. */
    method PushMoves(stack: seq<Frame>, t: Frame) returns (stack': seq<Frame>)
      ensures stack' == stack + MovesFrom(t)
      ensures |stack'| == |stack| + 4 && stack'[|stack'| - 1].pos == Shift(t.pos, (0, 1))
    {
      stack' := stack;
      var k := 3;
      while k >= 0
        invariant -1 <= k <= 3
        invariant stack' == stack + MovesFrom(t)[..3 - k]
      {
        stack' := stack' + [Toward(t, Moves[k])];
        k := k - 1;
      }
    }

    /** The body of the `while stack` loop for one popped entry f: the checks, the wormhole jump,
        the destination check and the pushes (game_logic.py:77-223). */
    method Visit(stack: seq<Frame>, f: Frame) returns (stack': seq<Frame>, r: Outcome)
      requires WellFormed(world)
      ensures Expand(world, f).Drop? ==> stack' == stack && r == NoPath
      ensures Expand(world, f).Found? ==> r == Solution(Expand(world, f).path, Expand(world, f).log)
      ensures Expand(world, f).Push? ==> stack' == stack + Expand(world, f).children && r == NoPath
    {
      stack' := stack;
      r := NoPath;
      var pos := f.pos;
      if !IsValid(world, pos) {
        return;
      }
      if pos in world.minCharge && f.energy < world.minCharge[pos] {
        return;
      }
      if pos in f.visited {
        return;
      }
      var isUnconsumedEntry := pos in world.wormholes && pos !in f.consumed;
      if !isUnconsumedEntry {
        if pos in world.blackHoles && pos !in f.removed {
          return;
        }
      }
      var afterCost := f.energy - CellCost(world, pos);
      if pos !in world.recharge && afterCost < 0 {
        return;
      }
      var path := f.path + [pos];
      var visited := f.visited + {pos};
      var energy := afterCost;
      if pos in world.recharge {
        energy := f.energy * world.recharge[pos];
      }
      var log := f.log + [energy];
      if pos in world.wormholes && pos !in f.consumed {
        var (exit, wormholeCost) := world.wormholes[pos];
        var left := energy - wormholeCost;
        if left < 0 {
          return;
        }
        stack' := stack' + [Frame(exit, left, path, visited, f.consumed + {pos}, f.removed, log)];
        return;
      }
      if pos == world.end {
        r := Solution(path, log);
        return;
      }
      stack' := Explore(stack', Frame(pos, energy, path, visited, f.consumed, f.removed, log));
    }

    /** The pushes from an entered cell that is neither a wormhole entry nor the destination
        (game_logic.py:164-223). */
    method Explore(stack: seq<Frame>, t: Frame) returns (stack': seq<Frame>)
      ensures stack' == stack + Spread(world, t)
    {
      stack' := stack;
      if t.pos in world.giantStars {
        var adj := AdjacentActiveBlackHoles(t.pos, t.removed);
        if |adj| > 0 {
          stack' := PushStarBatches(stack', t, adj);
          return;
        }
      }
      stack' := PushMoves(stack', t);
    }

    /** For each black hole of adj in order, the four moves with that black hole removed
        (game_logic.py:186-205). */
    method PushStarBatches(stack: seq<Frame>, t: Frame, adj: seq<Cell>) returns (stack': seq<Frame>)
      ensures stack' == stack + StarChildren(t, adj)
    {
      stack' := stack;
      var i := 0;
      while i < |adj|
        invariant 0 <= i <= |adj|
        invariant stack' == stack + StarChildren(t, adj[..i])
      {
        stack' := PushMoves(stack', t.(removed := t.removed + {adj[i]}));
        assert adj[..i + 1][..i] == adj[..i];
        i := i + 1;
      }
      assert adj[..|adj|] == adj;
    }

    /** `solve`: pops entries until one reaches the destination or the stack is empty. */
    method Solve() returns (r: Outcome)
      requires WellFormed(world)
      modifies this
      ensures r == Search(world, Root(world))
      ensures r.Solution? ==> ValidSolution(world, r.path, r.log)
      ensures r.Solution? ==> solutionPath == r.path && solutionEnergyLevels == r.log
      ensures r.NoPath? ==> solutionPath == [] && solutionEnergyLevels == []
    {
      solutionPath := [];
      solutionEnergyLevels := [];
      var stack := [Root(world)];
      assert stack[..0] == [];
      while |stack| > 0
        invariant SearchStack(world, stack) == Search(world, Root(world))
        invariant solutionPath == [] && solutionEnergyLevels == []
        decreases Weight(world, stack)
      {
        var f := stack[|stack| - 1];
        var rest := stack[..|stack| - 1];
        var found;
        stack, found := Visit(rest, f);
        if found.Solution? {
          solutionPath := found.path;
          solutionEnergyLevels := found.log;
          SolveSound(world);
          return found;
        }
        if Expand(world, f).Push? {
          var cs := Expand(world, f).children;
          SearchStackAppend(world, rest, cs);
          ChildrenLighter(world, f);
          WeightAppend(world, rest, cs);
        }
      }
      r := NoPath;
    }
  }
}
