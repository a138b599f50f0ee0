/** Routes over the dungeon map. */
module Route {
  import opened Common

  const WALL := '#'

  type Cell = (int, int)

  datatype Door = Door(x: int, y: int, open: bool)

  datatype Enemy = Enemy(x: int, y: int, hp: int)

  datatype Level = Level(width: int, height: int, rows: seq<string>, doors: seq<Door>, enemies: seq<Enemy>)

  datatype Dir = North | South | East | West

  /** `STEPS`, in the order the search tries them. */
  const STEPS: seq<Dir> := [North, South, East, West]

  function Moved(c: Cell, d: Dir): Cell {
    match d
    case North => (c.0, c.1 - 1)
    case South => (c.0, c.1 + 1)
    case East => (c.0 + 1, c.1)
    case West => (c.0 - 1, c.1)
  }

  /** The map has a row for every y below its height. */
  predicate RowsComplete(l: Level) {
    l.height <= |l.rows|
  }

  function Tile(l: Level, c: Cell): char
    requires RowsComplete(l)
  {
    if c.0 < 0 || c.1 < 0 || c.0 >= l.width || c.1 >= l.height then WALL
    else if c.0 < |l.rows[c.1]| then l.rows[c.1][c.0]
    else WALL
  }

  predicate DoorShut(l: Level, c: Cell) {
    exists i | 0 <= i < |l.doors| :: (l.doors[i].x, l.doors[i].y) == c && !l.doors[i].open
  }

  predicate EnemyAt(l: Level, c: Cell) {
    exists i | 0 <= i < |l.enemies| :: (l.enemies[i].x, l.enemies[i].y) == c && l.enemies[i].hp > 0
  }

  predicate Passable(l: Level, c: Cell)
    requires RowsComplete(l)
  {
    Tile(l, c) != WALL && !DoorShut(l, c) && !EnemyAt(l, c)
  }

  // ---------------------------------------------------------------- routes

  /** Where a route ends. */
  function End(start: Cell, route: seq<Dir>): Cell {
    if route == [] then start else Moved(End(start, route[..|route| - 1]), route[|route| - 1])
  }

  /** Every cell a route steps onto is passable; the start need not be. */
  predicate Walkable(l: Level, start: Cell, route: seq<Dir>)
    requires RowsComplete(l)
  {
    route == [] || (Walkable(l, start, route[..|route| - 1]) && Passable(l, End(start, route)))
  }

  /** A cell of the map that is no wall, has no shut door and no living enemy. */
  predicate Free(l: Level, x: int, y: int)
    requires RowsComplete(l)
  {
    && 0 <= x < l.width && 0 <= y < l.height && x < |l.rows[y]| && l.rows[y][x] != '#'
    && (forall i | 0 <= i < |l.doors| :: l.doors[i].x == x && l.doors[i].y == y ==> l.doors[i].open)
    && forall i | 0 <= i < |l.enemies| :: l.enemies[i].x == x && l.enemies[i].y == y ==> l.enemies[i].hp <= 0
  }

  /** Where a route leads, by its steps each way; y grows southwards. */
  lemma {:induction false} EndExactly(start: Cell, route: seq<Dir>)
    ensures End(start, route) == (start.0 + multiset(route)[East] - multiset(route)[West],
                                  start.1 + multiset(route)[South] - multiset(route)[North])
    decreases route
  {
    if route != [] {
      var init, d := route[..|route| - 1], route[|route| - 1];
      EndExactly(start, init);
      assert route == init + [d];
      assert multiset(route) == multiset(init) + multiset{d};
    }
  }

  lemma PassableExactly(l: Level, c: Cell)
    requires RowsComplete(l)
    ensures Passable(l, c) <==> Free(l, c.0, c.1)
  {
    forall i | 0 <= i < |l.doors|
      ensures (l.doors[i].x, l.doors[i].y) == c <==> l.doors[i].x == c.0 && l.doors[i].y == c.1
    {
    }
    forall i | 0 <= i < |l.enemies|
      ensures (l.enemies[i].x, l.enemies[i].y) == c <==> l.enemies[i].x == c.0 && l.enemies[i].y == c.1
    {
    }
  }

  /** A route is walkable exactly when each of its steps ends on a free cell. */
  lemma {:induction false} WalkableExactly(l: Level, start: Cell, route: seq<Dir>)
    requires RowsComplete(l)
    ensures Walkable(l, start, route) <==>
            forall k | 1 <= k <= |route| :: var c := End(start, route[..k]); Free(l, c.0, c.1)
    decreases route
  {
    hide Free;
    hide Passable;
    if route != [] {
      var m := |route| - 1;
      WalkableExactly(l, start, route[..m]);
      PassableExactly(l, End(start, route));
      assert route[..|route|] == route;
      assert forall k | 1 <= k <= m :: route[..m][..k] == route[..k];
      if Walkable(l, start, route) {
        forall k | 1 <= k <= |route|
          ensures var c := End(start, route[..k]); Free(l, c.0, c.1)
        {
          if k < |route| { assert route[..m][..k] == route[..k]; }
        }
      }
      if forall k | 1 <= k <= |route| :: (var c := End(start, route[..k]); Free(l, c.0, c.1)) {
        forall k | 1 <= k <= m
          ensures var c := End(start, route[..m][..k]); Free(l, c.0, c.1)
        {
          assert route[..m][..k] == route[..k];
        }
        assert var c := End(start, route[..|route|]); Free(l, c.0, c.1);
      }
    }
  }

  lemma Extend(l: Level, start: Cell, route: seq<Dir>, d: Dir)
    requires RowsComplete(l)
    ensures End(start, route + [d]) == Moved(End(start, route), d)
    ensures Walkable(l, start, route + [d]) <==> Walkable(l, start, route) && Passable(l, Moved(End(start, route), d))
  {
    assert (route + [d])[..|route|] == route;
  }

  /** A walkable route of at most `n` steps leads from start to `c`. */
  ghost predicate Within(l: Level, start: Cell, c: Cell, n: nat)
    requires RowsComplete(l)
  {
    exists route :: Walkable(l, start, route) && End(start, route) == c && |route| <= n
  }

  /** A cell within n + 1 steps is the start or one step from a cell within n steps. */
  lemma LastStep(l: Level, start: Cell, c: Cell, n: nat) returns (d: Dir, from: Cell)
    requires RowsComplete(l) && Within(l, start, c, n + 1) && c != start
    ensures Within(l, start, from, n) && c == Moved(from, d) && Passable(l, c)
  {
    var route :| Walkable(l, start, route) && End(start, route) == c && |route| <= n + 1;
    var init := route[..|route| - 1];
    d, from := route[|route| - 1], End(start, init);
    assert Walkable(l, start, init) && |init| <= n;
  }

  /** Every passable cell lies on the map. */
  function MapCells(l: Level): set<Cell> {
    set x, y | 0 <= x < l.width && 0 <= y < l.height :: (x, y)
  }

  lemma PassableOnMap(l: Level, c: Cell)
    requires RowsComplete(l) && Passable(l, c)
    ensures c in MapCells(l)
  {
    assert 0 <= c.0 < l.width && 0 <= c.1 < l.height;
    assert c == (c.0, c.1);
  }

  // ---------------------------------------------------------------- the search

  datatype Entry = Entry(at: Cell, route: seq<Dir>)

  /** The queue holds seen cells with shortest routes, in order of length, over at most two lengths. */
  ghost predicate QueueOk(l: Level, start: Cell, seen: set<Cell>, queue: seq<Entry>)
    requires RowsComplete(l)
  {
    && (forall i | 0 <= i < |queue| :: EntryOk(l, start, seen, queue[i]))
    && (forall i, j | 0 <= i <= j < |queue| :: |queue[i].route| <= |queue[j].route| <= |queue[i].route| + 1)
  }

  ghost predicate EntryOk(l: Level, start: Cell, seen: set<Cell>, e: Entry)
    requires RowsComplete(l)
  {
    && Walkable(l, start, e.route) && End(start, e.route) == e.at && e.at in seen
    && (e.route != [] ==> !Within(l, start, e.at, |e.route| - 1))
  }

  /** All neighbours of `c` that the first `k` steps reach and that can be walked on have been seen. */
  ghost predicate Expanded(l: Level, seen: set<Cell>, c: Cell, k: nat)
    requires RowsComplete(l) && k <= |STEPS|
  {
    forall i | 0 <= i < k :: Passable(l, Moved(c, STEPS[i])) ==> Moved(c, STEPS[i]) in seen
  }

  ghost predicate Queued(queue: seq<Entry>, c: Cell) {
    exists i :: 0 <= i < |queue| && queue[i].at == c
  }

  /** Every seen cell is waiting in the queue or fully expanded. */
  ghost predicate Frontier(l: Level, seen: set<Cell>, queue: seq<Entry>)
    requires RowsComplete(l)
  {
    forall c | c in seen :: Queued(queue, c) || Expanded(l, seen, c, |STEPS|)
  }

  /** Every cell within `n` steps has been seen. */
  ghost predicate Covered(l: Level, start: Cell, seen: set<Cell>, n: nat)
    requires RowsComplete(l)
  {
    forall c | Within(l, start, c, n) :: c in seen
  }

  lemma StepIndex(d: Dir) returns (i: nat)
    ensures i < |STEPS| && STEPS[i] == d
  {
    i := match d case North => 0 case South => 1 case East => 2 case West => 3;
  }

  /** When everything waiting is `n + 1` steps out, everything within `n + 1` steps has been seen. */
  lemma CoverMore(l: Level, start: Cell, seen: set<Cell>, queue: seq<Entry>, n: nat)
    requires RowsComplete(l) && start in seen && Covered(l, start, seen, n) && Frontier(l, seen, queue) &&
             QueueOk(l, start, seen, queue)
    requires forall i | 0 <= i < |queue| :: |queue[i].route| >= n + 1
    ensures Covered(l, start, seen, n + 1)
  {
    hide Passable;
    hide Walkable;
    forall c | Within(l, start, c, n + 1)
      ensures c in seen
    {
      if c != start {
        var d, from := LastStep(l, start, c, n);
        assert from in seen;
        forall i | 0 <= i < |queue|
          ensures queue[i].at != from
        {
          assert EntryOk(l, start, seen, queue[i]);
          NotNearer(l, start, queue[i].at, n, |queue[i].route| - 1);
        }
        var i := StepIndex(d);
        assert Expanded(l, seen, from, |STEPS|);
      }
    }
  }

  lemma NotNearer(l: Level, start: Cell, c: Cell, m: nat, n: nat)
    requires RowsComplete(l) && !Within(l, start, c, n) && m <= n
    ensures !Within(l, start, c, m)
  {
  }

  /** With nothing waiting, whatever can be reached has been seen. */
  lemma {:induction false} Exhausted(l: Level, start: Cell, seen: set<Cell>, route: seq<Dir>)
    requires RowsComplete(l) && start in seen && Frontier(l, seen, []) && Walkable(l, start, route)
    ensures End(start, route) in seen
    decreases route
  {
    if route != [] {
      var init := route[..|route| - 1];
      Exhausted(l, start, seen, init);
      var from := End(start, init);
      assert !Queued([], from);
      var i := StepIndex(route[|route| - 1]);
      assert Expanded(l, seen, from, |STEPS|);
    }
  }

  /** A shortest route to one of the goals. */
  ghost predicate Shortest(l: Level, start: Cell, goals: set<Cell>, route: seq<Dir>)
    requires RowsComplete(l)
  {
    && Walkable(l, start, route) && End(start, route) in goals
    && forall other | Walkable(l, start, other) && End(start, other) in goals :: |route| <= |other|
  }

  ghost predicate Reachable(l: Level, start: Cell, goals: set<Cell>)
    requires RowsComplete(l)
  {
    exists route :: Walkable(l, start, route) && End(start, route) in goals
  }

  function GoalSet(goals: seq<Cell>): set<Cell> {
    set i | 0 <= i < |goals| :: goals[i]
  }

  /** Everything the search keeps between two dequeues. */
  ghost predicate SearchOk(l: Level, start: Cell, goals: set<Cell>, seen: set<Cell>, queue: seq<Entry>)
    requires RowsComplete(l)
  {
    && start in seen && seen !! goals && seen <= MapCells(l) + {start}
    && QueueOk(l, start, seen, queue) && Frontier(l, seen, queue)
    && (queue != [] ==> Covered(l, start, seen, |queue[0].route|))
  }

  /** The same while the dequeued `e` has tried its first `k` steps. */
  ghost predicate Expanding(l: Level, start: Cell, goals: set<Cell>, seen: set<Cell>, queue: seq<Entry>, e: Entry,
                            k: nat)
    requires RowsComplete(l) && k <= |STEPS|
  {
    && start in seen && seen !! goals && seen <= MapCells(l) + {start}
    && QueueOk(l, start, seen, [e] + queue)
    && (forall c | c in seen :: c == e.at || Queued(queue, c) || Expanded(l, seen, c, |STEPS|))
    && Expanded(l, seen, e.at, k)
    && Covered(l, start, seen, |e.route|)
  }

  lemma Begin(l: Level, start: Cell, goals: set<Cell>)
    requires RowsComplete(l) && start !in goals
    ensures SearchOk(l, start, goals, {start}, [Entry(start, [])])
  {
    hide Passable;
    var queue := [Entry(start, [])];
    assert queue[0].at == start;
    assert Queued(queue, start);
    forall c | Within(l, start, c, 0)
      ensures c == start
    {
      var route :| Walkable(l, start, route) && End(start, route) == c && |route| <= 0;
      assert route == [];
    }
  }

  lemma Dequeue(l: Level, start: Cell, goals: set<Cell>, seen: set<Cell>, queue: seq<Entry>)
    requires RowsComplete(l) && SearchOk(l, start, goals, seen, queue) && queue != []
    ensures Expanding(l, start, goals, seen, queue[1..], queue[0], 0)
  {
    hide Passable;
    hide EntryOk;
    hide Covered;
    hide MapCells;
    assert [queue[0]] + queue[1..] == queue;
    forall c | c in seen
      ensures c == queue[0].at || Queued(queue[1..], c) || Expanded(l, seen, c, |STEPS|)
    {
      if Queued(queue, c) && c != queue[0].at {
        var i :| 0 <= i < |queue| && queue[i].at == c;
        assert queue[1..][i - 1].at == c;
      }
    }
  }

  /** A step onto a seen cell or into an obstacle changes nothing. */
  lemma SkipStep(l: Level, start: Cell, goals: set<Cell>, seen: set<Cell>, queue: seq<Entry>, e: Entry, k: nat)
    requires RowsComplete(l) && k < |STEPS| && Expanding(l, start, goals, seen, queue, e, k)
    requires Moved(e.at, STEPS[k]) in seen || !Passable(l, Moved(e.at, STEPS[k]))
    ensures Expanding(l, start, goals, seen, queue, e, k + 1)
  {
    hide Passable;
    hide QueueOk;
    hide Covered;
    hide MapCells;
    hide Queued;
  }

  lemma EntryGrows(l: Level, start: Cell, seen: set<Cell>, more: set<Cell>, e: Entry)
    requires RowsComplete(l) && EntryOk(l, start, seen, e) && seen <= more
    ensures EntryOk(l, start, more, e)
  {
  }

  lemma ExpandedGrows(l: Level, seen: set<Cell>, more: set<Cell>, c: Cell, k: nat)
    requires RowsComplete(l) && k <= |STEPS| && Expanded(l, seen, c, k) && seen <= more
    ensures Expanded(l, more, c, k)
  {
  }

  /** The new cell's entry carries a shortest route. */
  lemma NewEntryOk(l: Level, start: Cell, seen: set<Cell>, e: Entry, d: Dir)
    requires RowsComplete(l) && EntryOk(l, start, seen, e) && Covered(l, start, seen, |e.route|)
    requires Moved(e.at, d) !in seen && Passable(l, Moved(e.at, d))
    ensures EntryOk(l, start, seen + {Moved(e.at, d)}, Entry(Moved(e.at, d), e.route + [d]))
  {
    hide Passable;
    Extend(l, start, e.route, d);
    assert !Within(l, start, Moved(e.at, d), |e.route|);
  }

  /** The queue stays in order when an entry one step longer than its head joins at the end. */
  lemma QueueGrows(l: Level, start: Cell, seen: set<Cell>, more: set<Cell>, queue: seq<Entry>, last: Entry)
    requires RowsComplete(l) && queue != [] && QueueOk(l, start, seen, queue) && seen <= more
    requires EntryOk(l, start, more, last) && |last.route| == |queue[0].route| + 1
    ensures QueueOk(l, start, more, queue + [last])
  {
    hide Passable;
    forall i | 0 <= i < |queue|
      ensures EntryOk(l, start, more, queue[i])
    {
      EntryGrows(l, start, seen, more, queue[i]);
    }
    hide EntryOk;
    forall i | 0 <= i < |queue|
      ensures |queue[i].route| <= |last.route| <= |queue[i].route| + 1
    {
      assert |queue[0].route| <= |queue[i].route| <= |queue[0].route| + 1;
    }
  }

  /** A seen cell stays waiting or expanded when `c` joins the queue. */
  lemma FrontierGrows(l: Level, seen: set<Cell>, queue: seq<Entry>, last: Entry, x: Cell)
    requires RowsComplete(l) && (Queued(queue, x) || Expanded(l, seen, x, |STEPS|))
    ensures Queued(queue + [last], x) || Expanded(l, seen + {last.at}, x, |STEPS|)
  {
    hide Passable;
    hide Moved;
    if Queued(queue, x) {
      var i :| 0 <= i < |queue| && queue[i].at == x;
      assert (queue + [last])[i].at == x;
    } else {
      ExpandedGrows(l, seen, seen + {last.at}, x, |STEPS|);
    }
  }

  lemma LastQueued(queue: seq<Entry>, last: Entry)
    ensures Queued(queue + [last], last.at)
  {
    assert (queue + [last])[|queue|] == last;
  }

  lemma HeadOk(l: Level, start: Cell, seen: set<Cell>, queue: seq<Entry>)
    requires RowsComplete(l) && queue != [] && QueueOk(l, start, seen, queue)
    ensures EntryOk(l, start, seen, queue[0])
  {
  }

  lemma ExpandedOneMore(l: Level, seen: set<Cell>, c: Cell, k: nat)
    requires RowsComplete(l) && k < |STEPS| && Expanded(l, seen, c, k) && Moved(c, STEPS[k]) in seen
    ensures Expanded(l, seen, c, k + 1)
  {
    hide Passable;
    hide Moved;
  }

  /** A step onto a new cell that is no goal: it joins the queue with a shortest route. */
  lemma PushStep(l: Level, start: Cell, goals: set<Cell>, seen: set<Cell>, queue: seq<Entry>, e: Entry, k: nat)
    requires RowsComplete(l) && k < |STEPS| && Expanding(l, start, goals, seen, queue, e, k)
    requires var c := Moved(e.at, STEPS[k]); c !in seen && Passable(l, c) && c !in goals
    ensures var c := Moved(e.at, STEPS[k]);
            Expanding(l, start, goals, seen + {c}, queue + [Entry(c, e.route + [STEPS[k]])], e, k + 1)
  {
    hide Passable;
    hide MapCells;
    hide EntryOk;
    hide QueueOk;
    hide Queued;
    hide Expanded;
    hide Moved;
    var c, d := Moved(e.at, STEPS[k]), STEPS[k];
    var last := Entry(c, e.route + [d]);
    var seen', queue' := seen + {c}, queue + [last];
    PassableOnMap(l, c);
    HeadOk(l, start, seen, [e] + queue);
    NewEntryOk(l, start, seen, e, d);
    QueueGrows(l, start, seen, seen', [e] + queue, last);
    assert [e] + queue' == ([e] + queue) + [last];
    LastQueued(queue, last);
    forall x | x in seen'
      ensures x == e.at || Queued(queue', x) || Expanded(l, seen', x, |STEPS|)
    {
      if x != c && x != e.at { FrontierGrows(l, seen, queue, last, x); }
    }
    ExpandedGrows(l, seen, seen', e.at, k);
    ExpandedOneMore(l, seen', e.at, k);
  }

  /** A step onto a goal closes a shortest route. */
  lemma GoalStep(l: Level, start: Cell, goals: set<Cell>, seen: set<Cell>, queue: seq<Entry>, e: Entry, k: nat)
    requires RowsComplete(l) && k < |STEPS| && Expanding(l, start, goals, seen, queue, e, k)
    requires Passable(l, Moved(e.at, STEPS[k])) && Moved(e.at, STEPS[k]) in goals
    ensures Shortest(l, start, goals, e.route + [STEPS[k]])
  {
    hide Passable;
    hide MapCells;
    assert EntryOk(l, start, seen, ([e] + queue)[0]);
    Extend(l, start, e.route, STEPS[k]);
    forall other | Walkable(l, start, other) && End(start, other) in goals
      ensures |e.route| + 1 <= |other|
    {
      if |other| <= |e.route| {
        assert Within(l, start, End(start, other), |e.route|);
      }
    }
  }

  /** A fully expanded entry leaves the search in order. */
  lemma Finished(l: Level, start: Cell, goals: set<Cell>, seen: set<Cell>, queue: seq<Entry>, e: Entry)
    requires RowsComplete(l) && Expanding(l, start, goals, seen, queue, e, |STEPS|)
    ensures SearchOk(l, start, goals, seen, queue)
  {
    hide Passable;
    hide EntryOk;
    hide MapCells;
    hide Within;
    var all := [e] + queue;
    assert forall i | 0 <= i < |queue| :: queue[i] == all[i + 1];
    assert QueueOk(l, start, seen, queue);
    assert Frontier(l, seen, queue);
    if queue != [] {
      assert |all[0].route| <= |all[1].route| <= |all[0].route| + 1;
      if |queue[0].route| == |e.route| + 1 {
        CoverMore(l, start, seen, queue, |e.route|);
      }
    }
  }

  lemma NoneLeft(l: Level, start: Cell, goals: set<Cell>, seen: set<Cell>)
    requires RowsComplete(l) && SearchOk(l, start, goals, seen, [])
    ensures !Reachable(l, start, goals)
  {
    hide Passable;
    hide Walkable;
    if Reachable(l, start, goals) {
      var route :| Walkable(l, start, route) && End(start, route) in goals;
      Exhausted(l, start, seen, route);
      assert false;
    }
  }

  lemma NoGoals(l: Level, start: Cell, goals: seq<Cell>)
    requires RowsComplete(l) && goals == []
    ensures start !in GoalSet(goals) && !Reachable(l, start, GoalSet(goals))
  {
  }

  lemma AtGoal(l: Level, start: Cell, goals: set<Cell>)
    requires RowsComplete(l) && start in goals
    ensures Shortest(l, start, goals, [])
  {
  }

  lemma ShortestReaches(l: Level, start: Cell, goals: set<Cell>, route: seq<Dir>)
    requires RowsComplete(l) && Shortest(l, start, goals, route)
    ensures Reachable(l, start, goals)
  {
  }

  lemma SeenWithin(l: Level, start: Cell, goals: set<Cell>, seen: set<Cell>, queue: seq<Entry>)
    requires RowsComplete(l) && SearchOk(l, start, goals, seen, queue)
    ensures seen <= MapCells(l) + {start}
  {
  }

  lemma SmallerRest(u: set<Cell>, seen: set<Cell>, more: set<Cell>)
    requires seen < more <= u
    ensures |u - more| < |u - seen|
  {
    assert u - seen == (u - more) + (more - seen);
    assert more - seen != {};
  }

  /** `_path`: a shortest route to a goal; [] exactly at a goal; None exactly when no goal can be reached. */
  method Path(l: Level, start: Cell, goals: seq<Cell>) returns (r: Option<seq<Dir>>)
    requires RowsComplete(l)
    ensures r.Some? ==> Shortest(l, start, GoalSet(goals), r.value)
    ensures r.None? <==> !Reachable(l, start, GoalSet(goals))
    ensures r == Some([]) <==> start in GoalSet(goals)
  {
    hide *;
    if |goals| == 0 {
      NoGoals(l, start, goals);
      return None;
    }
    var goalSet := GoalSet(goals);
    if start in goalSet {
      AtGoal(l, start, goalSet);
      ShortestReaches(l, start, goalSet, []);
      return Some([]);
    }
    var seen := {start};
    var queue := [Entry(start, [])];
    Begin(l, start, goalSet);
    while queue != []
      invariant SearchOk(l, start, goalSet, seen, queue)
      decreases |MapCells(l) + {start} - seen|, |queue|
    {
      var e := queue[0];
      Dequeue(l, start, goalSet, seen, queue);
      SeenWithin(l, start, goalSet, seen, queue);
      queue := queue[1..];
      ghost var seen0, queue0 := seen, queue;
      var k := 0;
      while k < |STEPS|
        invariant 0 <= k <= |STEPS|
        invariant Expanding(l, start, goalSet, seen, queue, e, k)
        invariant seen0 <= seen && (seen == seen0 ==> queue == queue0)
      {
        var next := Moved(e.at, STEPS[k]);
        if next in seen || !Passable(l, next) {
          SkipStep(l, start, goalSet, seen, queue, e, k);
        } else if next in goalSet {
          GoalStep(l, start, goalSet, seen, queue, e, k);
          ShortestReaches(l, start, goalSet, e.route + [STEPS[k]]);
          return Some(e.route + [STEPS[k]]);
        } else {
          PushStep(l, start, goalSet, seen, queue, e, k);
          seen := seen + {next};
          queue := queue + [Entry(next, e.route + [STEPS[k]])];
        }
        k := k + 1;
      }
      Finished(l, start, goalSet, seen, queue, e);
      SeenWithin(l, start, goalSet, seen, queue);
      if seen != seen0 {
        SmallerRest(MapCells(l) + {start}, seen0, seen);
      }
    }
    NoneLeft(l, start, goalSet, seen);
    return None;
  }
}
