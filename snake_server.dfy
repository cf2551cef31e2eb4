/** The authoritative snake server of snake-server-backend/server.js: one
    20 x 20 grid, one food cell, and a tick that visits the players in key
    order and, for each, moves the head one cell, deletes the player on a
    wall, self or other-body hit, and otherwise grows on food or pops the
    tail. Collisions are checked against the players map as it stands at
    that point of the loop: players visited earlier have already moved or
    been deleted. */
module SnakeServer {
  import opened SnakeCore

  /** The head a player would move to this tick. */
  function NextHead(p: Player): Cell
    requires |p.snake| > 0
  {
    Step(p.snake[0], p.direction)
  }

  /** Some other player in the map, as it is now, has a body cell on `head`. */
  predicate HitsOther(players: map<Id, Player>, id: Id, head: Cell) {
    exists other :: other in players && other != id && head in players[other].snake
  }

  /** The three deletion conditions, checked in this order by the source. */
  predicate Dies(w: World, id: Id)
    requires WellFormed(w) && id in w.players
  {
    var p := w.players[id];
    var head := NextHead(p);
    !InGrid(head) || head in p.snake || HitsOther(w.players, id, head)
  }

  /** One iteration of the tick loop for key `id`. `draw` is the cell
      `randomFood()` returns if this player eats. */
  function Advance(w: World, id: Id, draw: Cell): (r: World)
    requires WellFormed(w)
    ensures WellFormed(r)
  {
    if id !in w.players then w
    else if Dies(w, id) then Remove(w, id)
    else
      var p := w.players[id];
      var head := NextHead(p);
      var ate := head == w.food;
      World(w.players[id := Grow(p, head, ate)], w.order, if ate then draw else w.food)
  }

  /** The first `n` iterations of the tick loop over the key list `ids`;
      the player visited at position `k` uses `draws[k]` if it eats. */
  function Run(w: World, ids: seq<Id>, draws: seq<Cell>, n: nat): (r: World)
    requires WellFormed(w) && n <= |ids| <= |draws|
    ensures WellFormed(r)
    decreases n
  {
    if n == 0 then w else Advance(Run(w, ids, draws, n - 1), ids[n - 1], draws[n - 1])
  }

  /** A whole tick: the loop over the keys present when it starts. */
  function AfterTick(w: World, draws: seq<Cell>): (r: World)
    requires WellFormed(w) && |w.order| <= |draws|
  {
    Run(w, w.order, draws, |w.order|)
  }

  /** Consecutive body cells share a side. */
  ghost predicate Connected(s: seq<Cell>) {
    forall i :: 0 <= i < |s| - 1 ==> Adjacent(s[i], s[i + 1])
  }

  /** What the server keeps true of every player between ticks. */
  ghost predicate PlayerInv(p: Player) {
    && p.score >= 0
    && |p.snake| == p.score + 1
    && IsDirection(p.direction)
    && (forall i :: 0 <= i < |p.snake| ==> InGrid(p.snake[i]))
    && NoDuplicates(p.snake)
    && Connected(p.snake)
  }

  ghost predicate Inv(w: World) {
    && WellFormed(w)
    && InGrid(w.food)
    && (forall id :: id in w.players ==> PlayerInv(w.players[id]))
  }

  ghost predicate AllInGrid(draws: seq<Cell>) {
    forall k :: 0 <= k < |draws| ==> InGrid(draws[k])
  }

  /** `after` is `before` after one survived move: the head moved by one cell,
      the old body follows it, and either the tail was popped or the
      player ate and scored. */
  ghost predicate Moved(before: Player, after: Player)
    requires |before.snake| > 0
  {
    after == Grow(before, NextHead(before), true) || after == Grow(before, NextHead(before), false)
  }

  /** A survivor's new body keeps every property of `PlayerInv`. */
  lemma {:induction false} GrowKeepsPlayerInv(p: Player, ate: bool)
    requires PlayerInv(p)
    requires InGrid(NextHead(p)) && NextHead(p) !in p.snake
    ensures PlayerInv(Grow(p, NextHead(p), ate))
  {
    var head := NextHead(p);
    var q := Grow(p, head, ate);
    assert Adjacent(head, p.snake[0]);
    forall i | 0 <= i < |q.snake| ensures InGrid(q.snake[i]) {
      if i > 0 { assert q.snake[i] == p.snake[i - 1]; }
    }
    forall i, j | 0 <= i < j < |q.snake| ensures q.snake[i] != q.snake[j] {
      assert q.snake[j] == p.snake[j - 1];
      if i > 0 { assert q.snake[i] == p.snake[i - 1]; }
    }
    forall i | 0 <= i < |q.snake| - 1 ensures Adjacent(q.snake[i], q.snake[i + 1]) {
      if i > 0 { assert q.snake[i] == p.snake[i - 1] && q.snake[i + 1] == p.snake[i]; }
    }
  }

  /** One iteration keeps the invariant, provided the redrawn food is on
      the grid, as `randomFood()` guarantees. */
  lemma {:induction false} AdvanceKeepsInv(w: World, id: Id, draw: Cell)
    requires Inv(w) && InGrid(draw)
    ensures Inv(Advance(w, id, draw))
  {
    if id in w.players && !Dies(w, id) {
      var p := w.players[id];
      GrowKeepsPlayerInv(p, NextHead(p) == w.food);
    }
  }

  /** Every player outcome of one iteration: only the visited player's
      record can change; it is deleted exactly when one of the three
      collision conditions holds; otherwise it has moved, its score rose
      by one exactly when its new head was the food, and only then was the
      food redrawn. */
  lemma AdvanceOutcome(w: World, id: Id, draw: Cell)
    requires WellFormed(w) && id in w.players
    ensures var r := Advance(w, id, draw);
      && r.players.Keys <= w.players.Keys
      && (forall other :: other in r.players && other != id ==> r.players[other] == w.players[other])
      && (id !in r.players <==> Dies(w, id))
      && (Dies(w, id) ==> r.food == w.food && r.players.Keys == w.players.Keys - {id} && r.order == Without(w.order, id))
      && (id in r.players ==>
            var p, q := w.players[id], r.players[id];
            && Moved(p, q)
            && q.snake[0] == NextHead(p)
            && (q.score == p.score + 1 <==> NextHead(p) == w.food)
            && (r.food != w.food ==> NextHead(p) == w.food && r.food == draw)
            && (NextHead(p) == w.food ==> r.food == draw)
            && r.order == w.order)
  {
  }

  /** A tick keeps the invariant: bodies stay on the grid, without repeated
      cells, connected, and one cell longer than the score. */
  lemma {:induction false} RunKeepsInv(w: World, ids: seq<Id>, draws: seq<Cell>, n: nat)
    requires Inv(w) && n <= |ids| <= |draws| && AllInGrid(draws)
    ensures Inv(Run(w, ids, draws, n))
    decreases n
  {
    if n > 0 {
      RunKeepsInv(w, ids, draws, n - 1);
      AdvanceKeepsInv(Run(w, ids, draws, n - 1), ids[n - 1], draws[n - 1]);
    }
  }

  lemma TickKeepsInv(w: World, draws: seq<Cell>)
    requires Inv(w) && |w.order| <= |draws| && AllInGrid(draws)
    ensures Inv(AfterTick(w, draws))
  {
    RunKeepsInv(w, w.order, draws, |w.order|);
  }

  /** Across the first `n` iterations, no key is added, a player not yet
      visited is unchanged, and a visited survivor has moved exactly once. */
  lemma {:induction false} RunRecord(w: World, ids: seq<Id>, draws: seq<Cell>, n: nat, id: Id)
    requires WellFormed(w) && NoDuplicates(ids) && n <= |ids| <= |draws|
    ensures var r := Run(w, ids, draws, n);
      && (id in r.players ==> id in w.players)
      && (id in r.players && id !in ids[..n] ==> r.players[id] == w.players[id])
      && (id in r.players && id in ids[..n] ==> Moved(w.players[id], r.players[id]))
    decreases n
  {
    if n > 0 {
      RunRecord(w, ids, draws, n - 1, id);
      var prev := Run(w, ids, draws, n - 1);
      var x := ids[n - 1];
      assert ids[..n] == ids[..n - 1] + [x];
      if x in prev.players {
        AdvanceOutcome(prev, x, draws[n - 1]);
      }
      if x == id {
        assert id !in ids[..n - 1];
      }
    }
  }

  /** A tick never adds a player, never lowers a score, and moves every
      survivor by exactly one step from where it stood when the tick began. */
  lemma TickSurvivors(w: World, draws: seq<Cell>, id: Id)
    requires WellFormed(w) && |w.order| <= |draws|
    requires id in AfterTick(w, draws).players
    ensures id in w.players
    ensures Moved(w.players[id], AfterTick(w, draws).players[id])
    ensures AfterTick(w, draws).players[id].score >= w.players[id].score
  {
    RunRecord(w, w.order, draws, |w.order|, id);
    assert w.order[..|w.order|] == w.order;
  }

  /** The self check runs before the pop, so a head landing on the
      current tail cell, which would have been vacated this tick, still
      counts as a self hit. */
  lemma SelfHitIncludesTail(w: World, id: Id, draw: Cell)
    requires WellFormed(w) && id in w.players
    requires NextHead(w.players[id]) == w.players[id].snake[|w.players[id].snake| - 1]
    ensures id !in Advance(w, id, draw).players
  {
  }

  /** `move` accepts the reverse of the current direction. For a body of
      two cells or more, whose second cell is adjacent to the head, the
      reversed step lands on that cell and deletes the player at once. */
  lemma ReverseKills(w: World, id: Id, draw: Cell)
    requires WellFormed(w) && id in w.players && |w.players[id].snake| >= 2
    requires NextHead(w.players[id]) == w.players[id].snake[1]
    ensures id !in Advance(w, id, draw).players
  {
    assert w.players[id].snake[1] in w.players[id].snake;
  }

  /** A one-cell body has nothing behind its head: the reversed step just
      moves it, as for any other direction. */
  lemma ReverseSparesNewPlayer(draw: Cell)
    ensures var w := World(map[A := Player([Cell(5, 5)], ArrowLeft, "#f00", 0)], [A], Cell(0, 0));
      A in Advance(w, A, draw).players
  {
    var w := World(map[A := Player([Cell(5, 5)], ArrowLeft, "#f00", 0)], [A], Cell(0, 0));
    assert NoDuplicates(w.order);
    assert !HitsOther(w.players, A, Cell(4, 5));
    assert !Dies(w, A);
  }

  // Two players on row 5 heading right, with A just ahead of B.
  const A := "a"
  const B := "b"
  const Ahead := Player([Cell(5, 5)], ArrowRight, "#f00", 0)
  const Behind := Player([Cell(4, 5)], ArrowRight, "#0f0", 0)
  // A player at (6,5) heading left, towards the cell `Behind` moves to.
  const Facing := Player([Cell(6, 5)], ArrowLeft, "#00f", 0)

  lemma RunStep(w: World, ids: seq<Id>, draws: seq<Cell>, n: nat)
    requires WellFormed(w) && n < |ids| <= |draws|
    ensures Run(w, ids, draws, n + 1) == Advance(Run(w, ids, draws, n), ids[n], draws[n])
  {
  }

  /** A tick over two keys is two iterations. */
  lemma TwoVisits(w: World, draws: seq<Cell>)
    requires WellFormed(w) && |w.order| == 2 && |draws| >= 2
    ensures AfterTick(w, draws) == Advance(Advance(w, w.order[0], draws[0]), w.order[1], draws[1])
  {
    assert Run(w, w.order, draws, 0) == w;
  }

  /** There is no frozen frame. Visited first, A moves off (5,5) before B
      moves onto it, and both survive, although B's head lands on a cell
      of A's body as it was when the tick began. */
  lemma LeaderMovesFirst(draws: seq<Cell>)
    requires |draws| >= 2
    ensures var w := World(map[A := Ahead, B := Behind], [A, B], Cell(0, 0));
      AfterTick(w, draws).players.Keys == {A, B}
  {
    var w := World(map[A := Ahead, B := Behind], [A, B], Cell(0, 0));
    assert NoDuplicates(w.order);
    TwoVisits(w, draws);
    var m := Advance(w, A, draws[0]);
    LeaderVisit(w, draws[0]);
    LeaderFollowerVisit(m, draws[1]);
  }

  lemma LeaderVisit(w: World, draw: Cell)
    requires w == World(map[A := Ahead, B := Behind], [A, B], Cell(0, 0))
    requires WellFormed(w)
    ensures Advance(w, A, draw).players == map[A := Ahead.(snake := [Cell(6, 5)]), B := Behind]
  {
    assert !HitsOther(w.players, A, Cell(6, 5));
    assert !Dies(w, A);
  }

  lemma LeaderFollowerVisit(m: World, draw: Cell)
    requires WellFormed(m) && m.players == map[A := Ahead.(snake := [Cell(6, 5)]), B := Behind]
    ensures Advance(m, B, draw).players.Keys == {A, B}
  {
    assert !HitsOther(m.players, B, Cell(5, 5));
    assert !Dies(m, B);
    AdvanceOutcome(m, B, draw);
  }

  /** The same two players with B visited first: B runs into A, which has
      not moved yet, and is deleted; A then moves freely. So the key order
      decides who collides. */
  lemma FollowerMovesFirst(draws: seq<Cell>)
    requires |draws| >= 2
    ensures var w := World(map[A := Ahead, B := Behind], [B, A], Cell(0, 0));
      AfterTick(w, draws).players.Keys == {A}
  {
    var w := World(map[A := Ahead, B := Behind], [B, A], Cell(0, 0));
    assert NoDuplicates(w.order);
    TwoVisits(w, draws);
    var m := Advance(w, B, draws[0]);
    FollowerVisit(w, draws[0]);
    AloneVisit(m, draws[1]);
  }

  lemma FollowerVisit(w: World, draw: Cell)
    requires w == World(map[A := Ahead, B := Behind], [B, A], Cell(0, 0))
    requires WellFormed(w)
    ensures Advance(w, B, draw).players == map[A := Ahead]
  {
    assert Cell(5, 5) in w.players[A].snake;
    assert Dies(w, B);
  }

  lemma AloneVisit(m: World, draw: Cell)
    requires WellFormed(m) && m.players == map[A := Ahead]
    ensures Advance(m, A, draw).players.Keys == {A}
  {
    assert !HitsOther(m.players, A, Cell(6, 5));
    assert !Dies(m, A);
    AdvanceOutcome(m, A, draw);
  }

  /** Two heads that aim at the same cell in the same tick: the player
      visited first takes the cell and survives, the second is deleted. */
  lemma SameTargetOnlyLaterDies(draws: seq<Cell>)
    requires |draws| >= 2
    ensures var w := World(map[A := Behind, B := Facing], [A, B], Cell(0, 0));
      AfterTick(w, draws).players.Keys == {A}
  {
    var w := World(map[A := Behind, B := Facing], [A, B], Cell(0, 0));
    assert NoDuplicates(w.order);
    TwoVisits(w, draws);
    var m := Advance(w, A, draws[0]);
    FirstToCellVisit(w, draws[0]);
    SecondToCellVisit(m, draws[1]);
  }

  lemma FirstToCellVisit(w: World, draw: Cell)
    requires w == World(map[A := Behind, B := Facing], [A, B], Cell(0, 0))
    requires WellFormed(w)
    ensures Advance(w, A, draw).players == map[A := Behind.(snake := [Cell(5, 5)]), B := Facing]
  {
    assert !HitsOther(w.players, A, Cell(5, 5));
    assert !Dies(w, A);
  }

  lemma SecondToCellVisit(m: World, draw: Cell)
    requires WellFormed(m) && m.players == map[A := Behind.(snake := [Cell(5, 5)]), B := Facing]
    ensures Advance(m, B, draw).players.Keys == {A}
  {
    assert Cell(5, 5) in m.players[A].snake;
    assert Dies(m, B);
    AdvanceOutcome(m, B, draw);
  }

  /** The running server: the module-level `players` map with its key
      order, and `food`. */
  class Server {
    var players: map<Id, Player>
    var order: seq<Id>
    var food: Cell

    function State(): World
      reads this
    {
      World(players, order, food)
    }

    ghost predicate Valid()
      reads this
    {
      Inv(State())
    }

    /** Start-up: no players, `food = randomFood()`. */
    constructor (initialFood: Cell)
      requires InGrid(initialFood)
      ensures Valid() && State() == Initial(initialFood)
    {
      players, order, food := map[], [], initialFood;
    }

    /** The `connection` handler. */
    method Connect(id: Id, color: string)
      requires Valid()
      modifies this
      ensures Valid() && State() == SnakeCore.Connect(old(State()), id, color)
    {
      if id !in players {
        order := order + [id];
      }
      players := players[id := NewPlayer(color)];
    }

    /** The `move` handler: only the four arrow strings are stored, a
        reverse direction included. For a player already deleted by a
        death the source dereferences `undefined` and throws; `thrown`
        reports that, and nothing changes. */
    method Move(id: Id, dir: string) returns (thrown: bool)
      requires Valid()
      modifies this
      ensures Valid()
      ensures thrown <==> IsDirection(dir) && id !in old(players)
      ensures IsDirection(dir) && id in old(players) ==>
        players == old(players)[id := old(players)[id].(direction := dir)]
      ensures !IsDirection(dir) || thrown ==> players == old(players)
      ensures order == old(order) && food == old(food)
    {
      thrown := false;
      if IsDirection(dir) {
        if id in players {
          players := players[id := players[id].(direction := dir)];
        } else {
          thrown := true;
        }
      }
    }

    /** The `disconnect` handler. */
    method Disconnect(id: Id)
      requires Valid()
      modifies this
      ensures Valid() && State() == Remove(old(State()), id)
    {
      players := players - {id};
      order := Without(order, id);
    }

    /** The inner loop over the other keys, stopping at the first body
        that holds `head`. */
    method CollidesWithOther(id: Id, head: Cell) returns (collided: bool)
      requires Valid()
      ensures collided == HitsOther(players, id, head)
    {
      collided := false;
      var j := 0;
      while j < |order|
        invariant 0 <= j <= |order|
        invariant forall k :: 0 <= k < j && order[k] != id ==> head !in players[order[k]].snake
      {
        var other := order[j];
        if other != id && head in players[other].snake {
          collided := true;
          break;
        }
        j := j + 1;
      }
      if !collided {
        forall other | other in players && other != id
          ensures head !in players[other].snake
        {
          var k :| 0 <= k < |order| && order[k] == other;
        }
      }
    }

    /** One pass of the `for (let id in players)` loop: the wall, self
        and other-player checks, each deleting the player, then the move. */
    method Visit(id: Id, draw: Cell)
      requires Valid() && InGrid(draw)
      modifies this
      ensures Valid() && State() == Advance(old(State()), id, draw)
    {
      AdvanceKeepsInv(State(), id, draw);
      if id !in players {
        return;
      }
      var player := players[id];
      var head := Step(player.snake[0], player.direction);
      var dies := !InGrid(head) || head in player.snake;
      if !dies {
        dies := CollidesWithOther(id, head);
      }
      if dies {
        Drop(id);
      } else {
        MoveHead(id, head, draw);
      }
    }

    /** `delete players[id]`. */
    method Drop(id: Id)
      requires WellFormed(State())
      modifies this
      ensures State() == Remove(old(State()), id)
    {
      players, order := players - {id}, Without(order, id);
    }

    /** `unshift` of the new head, then `score++` and a new food cell, or
        `pop` of the tail. */
    method MoveHead(id: Id, head: Cell, draw: Cell)
      requires id in players && |players[id].snake| > 0
      modifies this
      ensures var ate := head == old(food);
        State() == World(old(players)[id := Grow(old(players)[id], head, ate)], old(order), if ate then draw else old(food))
    {
      var player := players[id];
      var body := [head] + player.snake;
      if head == food {
        players := players[id := player.(snake := body, score := player.score + 1)];
        food := draw;
      } else {
        players := players[id := player.(snake := body[..|body| - 1])];
      }
    }

    /** The body of the `setInterval` callback. `draws[k]` is what
        `randomFood()` returns if the player visited at position `k` eats. */
    method Tick(draws: seq<Cell>)
      requires Valid() && |order| <= |draws| && AllInGrid(draws)
      modifies this
      ensures Valid() && State() == AfterTick(old(State()), draws)
    {
      ghost var start := State();
      var ids := order;
      var i := 0;
      while i < |ids|
        invariant 0 <= i <= |ids|
        invariant Valid()
        invariant State() == Run(start, ids, draws, i)
      {
        assert InGrid(draws[i]);
        RunStep(start, ids, draws, i);
        Visit(ids[i], draws[i]);
        i := i + 1;
      }
    }
  }
}
