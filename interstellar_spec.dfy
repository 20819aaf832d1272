/** The search of InterstellarMission._solve_iterative (interstellar_mission.py), as functions on
    immutable values: what one iteration of its loop does to the stack, the memo dictionary and
    the stored solutions (Advance), and the loop itself bounded by a number of iterations (Run). */
module InterstellarSpec {
  import opened Grid

  /** A wormhole entry's record: its id and its exit. */
  datatype Wormhole = Wormhole(id: string, exit: Cell)

  /** The map data load_map_from_json stores on the mission (interstellar_mission.py:47-71). */
  datatype Mission = Mission(
    rows: int,
    cols: int,
    origin: Cell,
    destination: Cell,
    initialEnergy: int,
    baseBlackHoles: set<Cell>,
    giantStars: set<Cell>,
    wormholes: map<Cell, Wormhole>,    // entry -> record
    recharge: map<Cell, int>,          // recharge zone -> multiplier
    requiredCharge: map<Cell, int>,    // cell -> energy needed before moving onto it
    costs: seq<seq<int>>)              // initial_energy_matrix

  /** The cost matrix has rows x cols entries. */
  predicate WellFormed(m: Mission)
  {
    |m.costs| == m.rows && forall i :: 0 <= i < |m.costs| ==> |m.costs[i]| == m.cols
  }

  /** One step of a path: coords, energy_before_move, energy_after_action, black_holes_state and
      used_wormholes_state (the action text is not modelled). */
  datatype StepInfo = StepInfo(
    coords: Cell,
    energyBefore: int,
    energyAfter: int,
    blackHoles: set<Cell>,
    usedWormholes: set<string>)

  /** The value a pushed step carries in energy_after_action until its entry is popped. */
  const Placeholder: int := -1

  /** One stack entry: (r, c, energy upon arrival, path taken, black holes, used wormhole ids). */
  datatype Entry = Entry(pos: Cell, energy: int, path: seq<StepInfo>, blackHoles: set<Cell>, used: set<string>)

  /** A memo key: (r, c, energy after the cell's effects, black holes, used wormhole ids). */
  datatype Key = Key(pos: Cell, energy: int, blackHoles: set<Cell>, used: set<string>)

  /** The in-bounds neighbours among the first n moves, in move order. */
  function AdjacentBelow(m: Mission, p: Cell, n: nat): (r: seq<Cell>)
    requires n <= 4
    ensures |r| <= n
  {
    if n == 0 then []
    else
      var q := Shift(p, Moves[n - 1]);
      AdjacentBelow(m, p, n - 1) + (if InBounds(m.rows, m.cols, q) then [q] else [])
  }

  /** `_get_adjacent_cells`. */
  function AdjacentCells(m: Mission, p: Cell): seq<Cell>
  {
    AdjacentBelow(m, p, 4)
  }

  /** The random order the giant star scans its neighbours in, injected: step n of the search and
      the list to shuffle give the shuffled list. */
  type Shuffle = (nat, seq<Cell>) -> seq<Cell>

  /** The injected shuffle only reorders its input. */
  ghost predicate Permutes(shuffle: Shuffle)
  {
    forall n, s :: multiset(shuffle(n, s)) == multiset(s)
  }

  /** The giant star's loop: the first cell of order that is a black hole is removed, and nothing else.
      No black hole appears, and at most one, a cell of the order, disappears. */
  function Destroyed(order: seq<Cell>, bh: set<Cell>): (r: set<Cell>)
    ensures r <= bh
    ensures r == bh || exists q :: q in order && q in bh && r == bh - {q}
  {
    if |order| == 0 then bh
    else if order[0] in bh then bh - {order[0]}
    else
      var r := Destroyed(order[1..], bh);
      assert forall q :: q in order[1..] ==> q in order;
      r
  }

  /** The energy after arriving at e.pos: multiplied on a recharge zone (interstellar_mission.py:151-154).
      A non-negative energy stays non-negative under a non-negative multiplier, and a multiplier of at
      least 1 never lowers it. */
  function ArrivalEnergy(m: Mission, e: Entry): (r: int)
    ensures e.energy >= 0 && (e.pos in m.recharge ==> m.recharge[e.pos] >= 0) ==> r >= 0
    ensures e.energy >= 0 && (e.pos in m.recharge ==> m.recharge[e.pos] >= 1) ==> r >= e.energy
  {
    if e.pos in m.recharge then e.energy * m.recharge[e.pos] else e.energy
  }

  /** The black holes after the cell's effects: a giant star destroys one of them (interstellar_mission.py:157-168).
      Arriving never adds a black hole and removes at most one. */
  function ArrivalBlackHoles(m: Mission, shuffle: Shuffle, n: nat, e: Entry): (r: set<Cell>)
    ensures r <= e.blackHoles
    ensures r == e.blackHoles || exists q :: q in e.blackHoles && r == e.blackHoles - {q}
  {
    if e.pos in m.giantStars then Destroyed(shuffle(n, AdjacentCells(m, e.pos)), e.blackHoles) else e.blackHoles
  }

  /** The update of the last step's record in place (interstellar_mission.py:178-187). */
  function UpdateLast(path: seq<StepInfo>, energy: int, bh: set<Cell>, used: set<string>): (r: seq<StepInfo>)
    ensures |r| == |path|
    ensures forall i :: 0 <= i < |path| ==> r[i].coords == path[i].coords
  {
    if |path| == 0 then path
    else path[..|path| - 1] + [path[|path| - 1].(energyAfter := energy, blackHoles := bh, usedWormholes := used)]
  }

  /** The cost of moving onto q: nothing on a recharge zone, the matrix entry elsewhere. */
  function MoveCost(m: Mission, q: Cell): int
    requires WellFormed(m) && InBounds(m.rows, m.cols, q)
  {
    if q in m.recharge then 0 else m.costs[q.0][q.1]
  }

  /** The conditions a standard move onto q must meet (interstellar_mission.py:236-254). */
  predicate MoveAllowed(m: Mission, q: Cell, energy: int, bh: set<Cell>)
    requires WellFormed(m)
  {
    InBounds(m.rows, m.cols, q)
    && q !in bh
    && !(q in m.requiredCharge && energy < m.requiredCharge[q])
    && energy - MoveCost(m, q) >= 0
  }

  /** The entries pushed for the first n standard moves, in move order. */
  function MovesBelow(m: Mission, pos: Cell, energy: int, path: seq<StepInfo>, bh: set<Cell>, used: set<string>, n: nat): (r: seq<Entry>)
    requires WellFormed(m) && n <= 4
    ensures |r| <= n
  {
    if n == 0 then []
    else MovesBelow(m, pos, energy, path, bh, used, n - 1) + MoveTo(m, Shift(pos, Moves[n - 1]), energy, path, bh, used)
  }

  /** The entry pushed for a standard move onto q, if the move passes its checks: at most one entry,
      at q, with a non-negative energy and one more step, recorded at q. */
  function MoveTo(m: Mission, q: Cell, energy: int, path: seq<StepInfo>, bh: set<Cell>, used: set<string>): (r: seq<Entry>)
    requires WellFormed(m)
    ensures |r| <= 1
    ensures forall c :: c in r ==> c.pos == q && c.energy >= 0 && |c.path| == |path| + 1 && c.path[|path|].coords == q
  {
    if MoveAllowed(m, q, energy, bh) then
      [Entry(q, energy - MoveCost(m, q), path + [StepInfo(q, energy, Placeholder, bh, used)], bh, used)]
    else []
  }

  /** The wormhole exit entry, when pos is an entry whose id is unused on the branch (interstellar_mission.py:204-227). */
  function WormholeSuccessor(m: Mission, pos: Cell, energy: int, path: seq<StepInfo>, bh: set<Cell>, used: set<string>): seq<Entry>
  {
    if pos in m.wormholes && m.wormholes[pos].id !in used then
      var wh := m.wormholes[pos];
      var used' := used + {wh.id};
      [Entry(wh.exit, energy, path + [StepInfo(wh.exit, energy, Placeholder, bh, used')], bh, used')]
    else []
  }

  /** Everything pushed from a cell, in append order: the wormhole exit, then Right, Left, Down, Up;
      at most five entries. */
  function Successors(m: Mission, pos: Cell, energy: int, path: seq<StepInfo>, bh: set<Cell>, used: set<string>): (r: seq<Entry>)
    requires WellFormed(m)
    ensures |r| <= 5
  {
    WormholeSuccessor(m, pos, energy, path, bh, used) + MovesBelow(m, pos, energy, path, bh, used, |Moves|)
  }

  /** The search's state between iterations: the stack, `_visited_states`, `solutions` and the
      number of iterations so far (which the injected shuffle may depend on). */
  datatype Machine = Machine(stack: seq<Entry>, memo: map<Key, int>, solutions: seq<seq<StepInfo>>, pops: nat)

  /** The entry the stack starts with: the origin with the initial energy and the base black holes;
      its path is well shaped. */
  function Start(m: Mission): (e: Entry)
    ensures EntryShape(m, e)
  {
    Entry(m.origin, m.initialEnergy, [StepInfo(m.origin, m.initialEnergy, Placeholder, m.baseBlackHoles, {})], m.baseBlackHoles, {})
  }

  /** The memo key of an entry after its cell's effects. */
  function KeyOf(m: Mission, shuffle: Shuffle, n: nat, e: Entry): Key
  {
    Key(e.pos, ArrivalEnergy(m, e), ArrivalBlackHoles(m, shuffle, n, e), e.used)
  }

  /** One iteration of `while stack and len(self.solutions) < self.max_solutions` (interstellar_mission.py:143-254). */
  function Advance(m: Mission, shuffle: Shuffle, maxSolutions: int, s: Machine): (s': Machine)
    requires WellFormed(m) && |s.stack| > 0
    ensures s'.pops == s.pops + 1
  {
    var e := s.stack[|s.stack| - 1];
    var rest := s.stack[..|s.stack| - 1];
    var energy := ArrivalEnergy(m, e);
    var bh := ArrivalBlackHoles(m, shuffle, s.pops, e);
    var path := UpdateLast(e.path, energy, bh, e.used);
    var key := Key(e.pos, energy, bh, e.used);
    if key in s.memo && s.memo[key] >= energy then Machine(rest, s.memo, s.solutions, s.pops + 1)
    else
      var memo := s.memo[key := energy];
      var solutions := if e.pos == m.destination then s.solutions + [path] else s.solutions;
      if e.pos == m.destination && |solutions| >= maxSolutions then Machine(rest, memo, solutions, s.pops + 1)
      else Machine(rest + Successors(m, e.pos, energy, path, bh, e.used), memo, solutions, s.pops + 1)
  }

  /** The loop, for at most fuel iterations: it counts at most fuel pops, and it stops only when the
      stack is empty, the solution cap is reached or the fuel is spent. */
  function Run(m: Mission, shuffle: Shuffle, maxSolutions: int, s: Machine, fuel: nat): (r: Machine)
    requires WellFormed(m)
    ensures s.pops <= r.pops <= s.pops + fuel
    ensures |r.stack| == 0 || |r.solutions| >= maxSolutions || r.pops == s.pops + fuel
    decreases fuel
  {
    if fuel == 0 || |s.stack| == 0 || |s.solutions| >= maxSolutions then s
    else Run(m, shuffle, maxSolutions, Advance(m, shuffle, maxSolutions, s), fuel - 1)
  }

  // ----- neighbours, giant stars, successors -----

  lemma {:induction false} AdjacentBelowMembers(m: Mission, p: Cell, n: nat, q: Cell)
    requires n <= 4
    ensures q in AdjacentBelow(m, p, n) <==>
      InBounds(m.rows, m.cols, q) && exists k :: 0 <= k < n && q == Shift(p, Moves[k])
  {
    if n > 0 {
      AdjacentBelowMembers(m, p, n - 1, q);
    }
  }

  /** `_get_adjacent_cells` returns exactly the in-bounds orthogonal neighbours, each once. */
  lemma AdjacentCellsExactly(m: Mission, p: Cell)
    ensures forall q :: q in AdjacentCells(m, p) <==> InBounds(m.rows, m.cols, q) && Adjacent(p, q)
    ensures forall i, j :: 0 <= i < j < |AdjacentCells(m, p)| ==> AdjacentCells(m, p)[i] != AdjacentCells(m, p)[j]
  {
    forall q
      ensures q in AdjacentCells(m, p) <==> InBounds(m.rows, m.cols, q) && Adjacent(p, q)
    {
      AdjacentBelowMembers(m, p, 4, q);
      MovesAdjacent(p, q);
    }
    AdjacentBelowDistinct(m, p, 4);
  }

  lemma {:induction false} AdjacentBelowDistinct(m: Mission, p: Cell, n: nat)
    requires n <= 4
    ensures forall i, j :: 0 <= i < j < |AdjacentBelow(m, p, n)| ==> AdjacentBelow(m, p, n)[i] != AdjacentBelow(m, p, n)[j]
  {
    if n > 0 {
      AdjacentBelowDistinct(m, p, n - 1);
      var q := Shift(p, Moves[n - 1]);
      MovesAdjacent(p, q);
      AdjacentBelowMembers(m, p, n - 1, q);
    }
  }

  /** The giant star's loop removes the first black hole of the order, or nothing when there is none. */
  lemma {:induction false} DestroyedFirst(order: seq<Cell>, bh: set<Cell>)
    ensures (forall q :: q in order ==> q !in bh) ==> Destroyed(order, bh) == bh
    ensures (exists q :: q in order && q in bh) ==>
      exists i :: 0 <= i < |order| && order[i] in bh && (forall j :: 0 <= j < i ==> order[j] !in bh) &&
        Destroyed(order, bh) == bh - {order[i]}
  {
    if |order| > 0 && order[0] !in bh {
      DestroyedFirst(order[1..], bh);
      if exists q :: q in order && q in bh {
        var q :| q in order && q in bh;
        assert q in order[1..];
        var i :| 0 <= i < |order[1..]| && order[1..][i] in bh && (forall j :: 0 <= j < i ==> order[1..][j] !in bh) &&
          Destroyed(order[1..], bh) == bh - {order[1..][i]};
        assert order[i + 1] == order[1..][i];
        forall j | 0 <= j < i + 1
          ensures order[j] !in bh
        {
          if j > 0 {
            assert order[j] == order[1..][j - 1];
          }
        }
      }
    } else if |order| > 0 {
      assert order[0] in bh;
    }
  }

  /** A giant star removes at most one black hole, which is an in-bounds neighbour; it removes one
      whenever some neighbour is still a black hole; elsewhere the set is unchanged. */
  lemma GiantStarEffect(m: Mission, shuffle: Shuffle, n: nat, e: Entry)
    requires Permutes(shuffle)
    ensures var after := ArrivalBlackHoles(m, shuffle, n, e);
      after == e.blackHoles ||
      exists q :: q in e.blackHoles && InBounds(m.rows, m.cols, q) && Adjacent(e.pos, q) && after == e.blackHoles - {q}
    ensures e.pos !in m.giantStars ==> ArrivalBlackHoles(m, shuffle, n, e) == e.blackHoles
    ensures e.pos in m.giantStars && (exists q :: q in e.blackHoles && InBounds(m.rows, m.cols, q) && Adjacent(e.pos, q)) ==>
      ArrivalBlackHoles(m, shuffle, n, e) != e.blackHoles
  {
    if e.pos in m.giantStars {
      var adj := AdjacentCells(m, e.pos);
      var order := shuffle(n, adj);
      assert multiset(order) == multiset(adj);
      AdjacentCellsExactly(m, e.pos);
      forall q | q in order
        ensures q in adj
      {
        assert q in multiset(order);
      }
      forall q | q in adj
        ensures q in order
      {
        assert q in multiset(adj);
      }
      DestroyedFirst(order, e.blackHoles);
    }
  }

  /** Every pushed move goes one step from pos, passes its checks and carries the energy after
      the cost and a step with the placeholder energy. */
  lemma {:induction false} MovesBelowSound(m: Mission, pos: Cell, energy: int, path: seq<StepInfo>, bh: set<Cell>, used: set<string>, n: nat)
    requires WellFormed(m) && n <= 4
    ensures forall c :: c in MovesBelow(m, pos, energy, path, bh, used, n) ==>
      (exists k :: 0 <= k < n && c.pos == Shift(pos, Moves[k])) && MoveAllowed(m, c.pos, energy, bh) &&
      c == Entry(c.pos, energy - MoveCost(m, c.pos), path + [StepInfo(c.pos, energy, Placeholder, bh, used)], bh, used)
  {
    if n > 0 {
      MovesBelowSound(m, pos, energy, path, bh, used, n - 1);
      var prev := MovesBelow(m, pos, energy, path, bh, used, n - 1);
      var last := MoveTo(m, Shift(pos, Moves[n - 1]), energy, path, bh, used);
      assert MovesBelow(m, pos, energy, path, bh, used, n) == prev + last;
      forall c | c in last
        ensures c.pos == Shift(pos, Moves[n - 1]) && MoveAllowed(m, c.pos, energy, bh)
        ensures c == Entry(c.pos, energy - MoveCost(m, c.pos), path + [StepInfo(c.pos, energy, Placeholder, bh, used)], bh, used)
      {
      }
    }
  }

  /** Every move that passes its checks is pushed. */
  lemma {:induction false} MovesBelowComplete(m: Mission, pos: Cell, energy: int, path: seq<StepInfo>, bh: set<Cell>, used: set<string>, n: nat)
    requires WellFormed(m) && n <= 4
    ensures forall k :: 0 <= k < n && MoveAllowed(m, Shift(pos, Moves[k]), energy, bh) ==>
      exists c :: c in MovesBelow(m, pos, energy, path, bh, used, n) && c.pos == Shift(pos, Moves[k])
  {
    if n > 0 {
      MovesBelowComplete(m, pos, energy, path, bh, used, n - 1);
      var prev := MovesBelow(m, pos, energy, path, bh, used, n - 1);
      var last := MoveTo(m, Shift(pos, Moves[n - 1]), energy, path, bh, used);
      var all := MovesBelow(m, pos, energy, path, bh, used, n);
      assert all == prev + last;
      forall k | 0 <= k < n && MoveAllowed(m, Shift(pos, Moves[k]), energy, bh)
        ensures exists c :: c in all && c.pos == Shift(pos, Moves[k])
      {
        if k < n - 1 {
          var c :| c in prev && c.pos == Shift(pos, Moves[k]);
          assert c in all;
        } else {
          assert last[0] in all;
        }
      }
    }
  }

  /** A standard successor is pushed for exactly the neighbours that are in bounds, not a current
      black hole, not gated above the energy before the move, and leave non-negative energy after
      their cost; a recharge-zone neighbour is entered for free. */
  lemma StandardSuccessors(m: Mission, pos: Cell, energy: int, path: seq<StepInfo>, bh: set<Cell>, used: set<string>)
    requires WellFormed(m)
    ensures forall c :: c in MovesBelow(m, pos, energy, path, bh, used, 4) ==>
      Adjacent(pos, c.pos) && InBounds(m.rows, m.cols, c.pos) && c.pos !in bh &&
      (c.pos in m.requiredCharge ==> energy >= m.requiredCharge[c.pos]) &&
      c.energy >= 0 && c.energy == energy - MoveCost(m, c.pos) &&
      (c.pos in m.recharge ==> c.energy == energy)
    ensures forall q :: Adjacent(pos, q) && MoveAllowed(m, q, energy, bh) ==>
      exists c :: c in MovesBelow(m, pos, energy, path, bh, used, 4) && c.pos == q
  {
    MovesBelowSound(m, pos, energy, path, bh, used, 4);
    MovesBelowComplete(m, pos, energy, path, bh, used, 4);
    forall c | c in MovesBelow(m, pos, energy, path, bh, used, 4)
      ensures Adjacent(pos, c.pos)
    {
      MovesAdjacent(pos, c.pos);
    }
    forall q | Adjacent(pos, q) && MoveAllowed(m, q, energy, bh)
      ensures exists c :: c in MovesBelow(m, pos, energy, path, bh, used, 4) && c.pos == q
    {
      MovesAdjacent(pos, q);
    }
  }

  /** The wormhole exit is pushed only when the entry's id is unused on the branch; it keeps the
      energy, adds the id, and the standard moves from the entry are pushed after it all the same. */
  lemma WormholeTravel(m: Mission, pos: Cell, energy: int, path: seq<StepInfo>, bh: set<Cell>, used: set<string>)
    requires WellFormed(m)
    ensures var ws := WormholeSuccessor(m, pos, energy, path, bh, used);
      |ws| == (if pos in m.wormholes && m.wormholes[pos].id !in used then 1 else 0)
    ensures var ws := WormholeSuccessor(m, pos, energy, path, bh, used);
      |ws| == 1 ==> (ws[0].pos == m.wormholes[pos].exit && ws[0].energy == energy &&
        ws[0].used == used + {m.wormholes[pos].id} && ws[0].blackHoles == bh)
    ensures var ws := WormholeSuccessor(m, pos, energy, path, bh, used);
      Successors(m, pos, energy, path, bh, used)[|ws|..] == MovesBelow(m, pos, energy, path, bh, used, 4)
  {
  }

  // ----- the memo dictionary -----

  /** Every memo entry records the energy that is part of its own key. */
  ghost predicate MemoInv(s: Machine)
  {
    forall k :: k in s.memo ==> s.memo[k] == k.energy
  }

  /** An iteration records the popped entry's key, forgets no key, and when the key was already
      recorded it only pops: a state key is expanded at most once. */
  lemma AdvanceMemo(m: Mission, shuffle: Shuffle, maxSolutions: int, s: Machine)
    requires WellFormed(m) && |s.stack| > 0 && MemoInv(s)
    ensures var s' := Advance(m, shuffle, maxSolutions, s);
      MemoInv(s') && s.memo.Keys <= s'.memo.Keys &&
      KeyOf(m, shuffle, s.pops, s.stack[|s.stack| - 1]) in s'.memo
    ensures KeyOf(m, shuffle, s.pops, s.stack[|s.stack| - 1]) in s.memo ==>
      Advance(m, shuffle, maxSolutions, s) == Machine(s.stack[..|s.stack| - 1], s.memo, s.solutions, s.pops + 1)
  {
  }

  lemma {:induction false} RunMemo(m: Mission, shuffle: Shuffle, maxSolutions: int, s: Machine, fuel: nat)
    requires WellFormed(m) && MemoInv(s)
    ensures MemoInv(Run(m, shuffle, maxSolutions, s, fuel))
    ensures s.memo.Keys <= Run(m, shuffle, maxSolutions, s, fuel).memo.Keys
    decreases fuel
  {
    if !(fuel == 0 || |s.stack| == 0 || |s.solutions| >= maxSolutions) {
      AdvanceMemo(m, shuffle, maxSolutions, s);
      RunMemo(m, shuffle, maxSolutions, Advance(m, shuffle, maxSolutions, s), fuel - 1);
    }
  }

  // ----- the solution cap -----

  /** An iteration appends at most one solution, and none once the cap is reached; when its append
      reaches the cap, nothing is pushed and the loop ends. */
  lemma AdvanceCap(m: Mission, shuffle: Shuffle, maxSolutions: int, s: Machine, fuel: nat)
    requires WellFormed(m) && |s.stack| > 0 && |s.solutions| < maxSolutions
    ensures var s' := Advance(m, shuffle, maxSolutions, s);
      s'.solutions == s.solutions || (|s'.solutions| == |s.solutions| + 1 && s'.solutions[..|s.solutions|] == s.solutions)
    ensures var s' := Advance(m, shuffle, maxSolutions, s);
      |s'.solutions| >= maxSolutions ==>
        s'.stack == s.stack[..|s.stack| - 1] && Run(m, shuffle, maxSolutions, s', fuel) == s'
  {
  }

  /** The solutions found so far are `before` followed by at most maxSolutions - |before| more. */
  ghost predicate Extends(before: seq<seq<StepInfo>>, maxSolutions: int, s: Machine)
  {
    before <= s.solutions && |s.solutions| <= maxSolutions
  }

  /** An iteration below the cap keeps the solutions found so far and stays within the cap. */
  lemma AdvanceSolutions(m: Mission, shuffle: Shuffle, maxSolutions: int, before: seq<seq<StepInfo>>, s: Machine)
    requires WellFormed(m) && |s.stack| > 0 && |s.solutions| < maxSolutions && Extends(before, maxSolutions, s)
    ensures Extends(before, maxSolutions, Advance(m, shuffle, maxSolutions, s))
  {
  }

  /** `len(self.solutions)` never exceeds `max_solutions`, and solutions are only appended. */
  lemma {:induction false} RunCapped(m: Mission, shuffle: Shuffle, maxSolutions: int, before: seq<seq<StepInfo>>, s: Machine, fuel: nat)
    requires WellFormed(m) && Extends(before, maxSolutions, s)
    ensures Extends(before, maxSolutions, Run(m, shuffle, maxSolutions, s, fuel))
    decreases fuel
  {
    if !(fuel == 0 || |s.stack| == 0 || |s.solutions| >= maxSolutions) {
      AdvanceSolutions(m, shuffle, maxSolutions, before, s);
      RunCapped(m, shuffle, maxSolutions, before, Advance(m, shuffle, maxSolutions, s), fuel - 1);
    }
  }

  // ----- the shape of paths and solutions -----

  /** An entry's path starts at the origin and ends at the entry's cell. */
  ghost predicate EntryShape(m: Mission, e: Entry)
  {
    |e.path| >= 1 && e.path[0].coords == m.origin && e.path[|e.path| - 1].coords == e.pos
  }

  /** A stored solution's first step is at the origin and its last at the destination. */
  ghost predicate SolutionShape(m: Mission, p: seq<StepInfo>)
  {
    |p| >= 1 && p[0].coords == m.origin && p[|p| - 1].coords == m.destination
  }

  ghost predicate Shaped(m: Mission, s: Machine)
  {
    (forall e :: e in s.stack ==> EntryShape(m, e)) && forall p :: p in s.solutions ==> SolutionShape(m, p)
  }

  lemma SuccessorsShaped(m: Mission, e: Entry, energy: int, bh: set<Cell>, path: seq<StepInfo>)
    requires WellFormed(m) && EntryShape(m, e) && path == UpdateLast(e.path, energy, bh, e.used)
    ensures forall c :: c in Successors(m, e.pos, energy, path, bh, e.used) ==> EntryShape(m, c)
  {
    MovesBelowSound(m, e.pos, energy, path, bh, e.used, 4);
    forall c | c in Successors(m, e.pos, energy, path, bh, e.used)
      ensures EntryShape(m, c)
    {
      assert c.path[0] == path[0];
    }
  }

  lemma AdvanceShaped(m: Mission, shuffle: Shuffle, maxSolutions: int, s: Machine)
    requires WellFormed(m) && |s.stack| > 0 && Shaped(m, s)
    ensures Shaped(m, Advance(m, shuffle, maxSolutions, s))
  {
    var e := s.stack[|s.stack| - 1];
    var energy := ArrivalEnergy(m, e);
    var bh := ArrivalBlackHoles(m, shuffle, s.pops, e);
    var path := UpdateLast(e.path, energy, bh, e.used);
    assert e in s.stack;
    SuccessorsShaped(m, e, energy, bh, path);
    assert forall c :: c in s.stack[..|s.stack| - 1] ==> c in s.stack;
  }

  /** Every stored solution starts at the origin and ends at the destination. */
  lemma {:induction false} RunShaped(m: Mission, shuffle: Shuffle, maxSolutions: int, s: Machine, fuel: nat)
    requires WellFormed(m) && Shaped(m, s)
    ensures Shaped(m, Run(m, shuffle, maxSolutions, s, fuel))
    decreases fuel
  {
    if !(fuel == 0 || |s.stack| == 0 || |s.solutions| >= maxSolutions) {
      AdvanceShaped(m, shuffle, maxSolutions, s);
      RunShaped(m, shuffle, maxSolutions, Advance(m, shuffle, maxSolutions, s), fuel - 1);
    }
  }

  /** On arrival, a recharge zone multiplies the energy and the last step records the result. */
  lemma ArrivalRecorded(m: Mission, shuffle: Shuffle, n: nat, e: Entry)
    requires |e.path| >= 1
    ensures e.pos in m.recharge ==> ArrivalEnergy(m, e) == e.energy * m.recharge[e.pos]
    ensures e.pos !in m.recharge ==> ArrivalEnergy(m, e) == e.energy
    ensures var path := UpdateLast(e.path, ArrivalEnergy(m, e), ArrivalBlackHoles(m, shuffle, n, e), e.used);
      path[..|path| - 1] == e.path[..|e.path| - 1] && path[|path| - 1].energyAfter == ArrivalEnergy(m, e)
  {
  }
}
