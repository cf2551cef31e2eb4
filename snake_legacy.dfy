/** The older snake server of snake-server-backend/Node.js: the same state
    as server.js, but `move` stores any value and the tick has no wall,
    self or other-player checks. Food starts at (10,10). */
module SnakeLegacy {
  import opened SnakeCore

  /** One iteration of the tick loop: prepend the stepped head, then eat
      (and redraw the food from `draw`) or pop. The source reads
      `players[id]` unguarded; during a tick every visited key is present
      (`VisitedKeysPresent`), so the absent case never arises there. */
  function Advance(w: World, id: Id, draw: Cell): (r: World)
    requires WellFormed(w)
    ensures WellFormed(r)
  {
    if id !in w.players then w
    else
      var p := w.players[id];
      var head := Step(p.snake[0], p.direction);
      var ate := head == w.food;
      World(w.players[id := Grow(p, head, ate)], w.order, if ate then draw else w.food)
  }

  /** The first `n` iterations over `ids`; the player visited at position
      `k` uses `draws[k]` if it eats. */
  function Run(w: World, ids: seq<Id>, draws: seq<Cell>, n: nat): (r: World)
    requires WellFormed(w) && n <= |ids| <= |draws|
    ensures WellFormed(r)
    decreases n
  {
    if n == 0 then w else Advance(Run(w, ids, draws, n - 1), ids[n - 1], draws[n - 1])
  }

  lemma RunStep(w: World, ids: seq<Id>, draws: seq<Cell>, n: nat)
    requires WellFormed(w) && n < |ids| <= |draws|
    ensures Run(w, ids, draws, n + 1) == Advance(Run(w, ids, draws, n), ids[n], draws[n])
  {
  }

  /** Nothing is deleted during a tick, so each key of the list the loop
      walks is still present when its turn comes: the unguarded
      `players[id]` never reads a missing player. */
  lemma VisitedKeysPresent(w: World, draws: seq<Cell>, n: nat)
    requires WellFormed(w) && n < |w.order| <= |draws|
    ensures w.order[n] in Run(w, w.order, draws, n).players
  {
    RunKeepsKeys(w, w.order, draws, n);
  }

  /** The loop only ever replaces records: the keys and their order stay
      as they were. */
  lemma {:induction false} RunKeepsKeys(w: World, ids: seq<Id>, draws: seq<Cell>, n: nat)
    requires WellFormed(w) && n <= |ids| <= |draws|
    ensures Run(w, ids, draws, n).players.Keys == w.players.Keys
    ensures Run(w, ids, draws, n).order == w.order
    decreases n
  {
    if n > 0 {
      RunKeepsKeys(w, ids, draws, n - 1);
    }
  }

  /** A whole tick over the keys present when it starts. */
  function AfterTick(w: World, draws: seq<Cell>): (r: World)
    requires WellFormed(w) && |w.order| <= |draws|
  {
    Run(w, w.order, draws, |w.order|)
  }

  /** Between ticks: bodies are one cell longer than the score and the
      food is on the grid. Bodies themselves may leave the grid and repeat
      cells: nothing in this server stops them. */
  ghost predicate Inv(w: World) {
    && WellFormed(w)
    && InGrid(w.food)
    && (forall id :: id in w.players ==> w.players[id].score >= 0 && |w.players[id].snake| == w.players[id].score + 1)
  }

  ghost predicate AllInGrid(draws: seq<Cell>) {
    forall k :: 0 <= k < |draws| ==> InGrid(draws[k])
  }

  /** A tick keeps the length/score invariant and the food on the grid,
      and never adds nor removes a player nor reorders the keys. */
  lemma {:induction false} RunKeepsInv(w: World, ids: seq<Id>, draws: seq<Cell>, n: nat)
    requires Inv(w) && n <= |ids| <= |draws| && AllInGrid(draws)
    ensures Inv(Run(w, ids, draws, n))
    decreases n
  {
    if n > 0 {
      RunKeepsInv(w, ids, draws, n - 1);
      AdvanceKeepsInv(Run(w, ids, draws, n - 1), ids[n - 1], draws[n - 1]);
    }
  }

  lemma AdvanceKeepsInv(w: World, id: Id, draw: Cell)
    requires Inv(w) && InGrid(draw)
    ensures Inv(Advance(w, id, draw))
  {
    var r := Advance(w, id, draw);
    forall other | other in r.players
      ensures r.players[other].score >= 0 && |r.players[other].snake| == r.players[other].score + 1
    {
      if other != id || id !in w.players { assert r.players[other] == w.players[other]; }
    }
  }

  lemma TickKeepsInv(w: World, draws: seq<Cell>)
    requires Inv(w) && |w.order| <= |draws| && AllInGrid(draws)
    ensures Inv(AfterTick(w, draws))
    ensures AfterTick(w, draws).players.Keys == w.players.Keys
    ensures AfterTick(w, draws).order == w.order
  {
    RunKeepsInv(w, w.order, draws, |w.order|);
    RunKeepsKeys(w, w.order, draws, |w.order|);
  }

  /** Within one iteration: the score rises by one exactly when the head
      lands on the food, which is then redrawn from `draw`; otherwise the
      length and the food stay as they were. An unrecognised direction
      leaves the head in place, so the body starts with the old head
      twice. */
  lemma AdvanceOutcome(w: World, id: Id, draw: Cell)
    requires WellFormed(w) && id in w.players
    ensures var r, p := Advance(w, id, draw), w.players[id];
      var q, head := r.players[id], Step(p.snake[0], p.direction);
      && q.snake[0] == head
      && (head == w.food ==> q.score == p.score + 1 && |q.snake| == |p.snake| + 1 && r.food == draw)
      && (head != w.food ==> q.score == p.score && |q.snake| == |p.snake| && r.food == w.food)
      && (!IsDirection(p.direction) && |q.snake| >= 2 ==> q.snake[0] == q.snake[1])
      && (forall other :: other in w.players && other != id ==> r.players[other] == w.players[other])
  {
  }

  /** Food is shared and redrawn mid-tick: a player visited later in the
      same tick is checked against the new food cell. Here A eats at
      (6,5), the food moves to (5,6), and B, stepping onto (5,6), eats as
      well. */
  lemma LaterPlayerSeesNewFood(draws: seq<Cell>)
    requires |draws| >= 2 && draws[0] == Cell(5, 6)
    ensures var w := World(map["a" := Player([Cell(5, 5)], ArrowRight, "", 0),
                                "b" := Player([Cell(5, 7)], ArrowUp, "", 0)],
                            ["a", "b"], Cell(6, 5));
      var r := AfterTick(w, draws);
      r.players["a"].score == 1 && r.players["b"].score == 1 && r.food == draws[1]
  {
    var w := World(map["a" := Player([Cell(5, 5)], ArrowRight, "", 0),
                        "b" := Player([Cell(5, 7)], ArrowUp, "", 0)],
                    ["a", "b"], Cell(6, 5));
    assert NoDuplicates(w.order);
    assert Run(w, w.order, draws, 0) == w;
    var m := Advance(w, "a", draws[0]);
    assert m.food == Cell(5, 6);
    assert Run(w, w.order, draws, 1) == m;
  }

  /** The running Node.js server. */
  class LegacyServer {
    var players: map<Id, Player>
    var order: seq<Id>
    var food: Cell

    function State(): World
      reads this
    {
      World(players, order, food)
    }

    ghost predicate Valid()
      reads this
    {
      Inv(State())
    }

    /** Start-up: no players, food at (10,10). */
    constructor ()
      ensures Valid() && State() == Initial(Cell(10, 10))
    {
      players, order, food := map[], [], Cell(10, 10);
    }

    /** The `connection` handler. */
    method Connect(id: Id, color: string)
      requires Valid()
      modifies this
      ensures Valid() && State() == SnakeCore.Connect(old(State()), id, color)
    {
      if id !in players {
        order := order + [id];
      }
      players := players[id := NewPlayer(color)];
    }

    /** The `move` handler stores whatever it is given. It dereferences
        `players[socket.id]` unguarded; `thrown` reports the TypeError for
        an id with no player, and then nothing changes. */
    method Move(id: Id, dir: string) returns (thrown: bool)
      requires Valid()
      modifies this
      ensures Valid()
      ensures thrown <==> id !in old(players)
      ensures !thrown ==> players == old(players)[id := old(players)[id].(direction := dir)]
      ensures thrown ==> players == old(players)
      ensures order == old(order) && food == old(food)
    {
      thrown := id !in players;
      if !thrown {
        players := players[id := players[id].(direction := dir)];
      }
    }

    /** The `disconnect` handler. */
    method Disconnect(id: Id)
      requires Valid()
      modifies this
      ensures Valid() && State() == Remove(old(State()), id)
    {
      players := players - {id};
      order := Without(order, id);
    }

    /** One pass of the `for (let id in players)` loop. */
    method Visit(id: Id, draw: Cell)
      requires WellFormed(State()) && id in players
      modifies this
      ensures State() == Advance(old(State()), id, draw)
    {
      var player := players[id];
      var head := Step(player.snake[0], player.direction);
      var body := [head] + player.snake;
      if head == food {
        players := players[id := player.(snake := body, score := player.score + 1)];
        food := draw;
      } else {
        players := players[id := player.(snake := body[..|body| - 1])];
      }
    }

    /** The body of the `setInterval` callback. */
    method Tick(draws: seq<Cell>)
      requires Valid() && |order| <= |draws| && AllInGrid(draws)
      modifies this
      ensures Valid() && State() == AfterTick(old(State()), draws)
    {
      TickKeepsInv(State(), draws);
      VisitAll(draws);
    }

    /** The `for (let id in players)` loop itself. */
    method VisitAll(draws: seq<Cell>)
      requires WellFormed(State()) && |order| <= |draws|
      modifies this
      ensures State() == AfterTick(old(State()), draws)
    {
      ghost var start := State();
      var ids := order;
      var i := 0;
      while i < |ids|
        invariant 0 <= i <= |ids|
        invariant State() == Run(start, ids, draws, i)
      {
        RunStep(start, ids, draws, i);
        VisitedKeysPresent(start, draws, i);
        Visit(ids[i], draws[i]);
        i := i + 1;
      }
    }
  }
}
