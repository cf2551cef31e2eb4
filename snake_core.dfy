/** Shared state shape of the two snake servers (server.js and Node.js):
    grid cells, the per-socket player record, the players map together
    with its key order, and the connect/disconnect handlers, which are
    identical in both servers. */
module SnakeCore {

  /** A grid cell `{x, y}`. */
  datatype Cell = Cell(x: int, y: int)

  /** A socket id. */
  type Id = string

  /** The record stored in `players[socket.id]`. `snake[0]` is the head.
      The colour is an opaque string drawn at random on connection. */
  datatype Player = Player(snake: seq<Cell>, direction: string, color: string, score: int)

  /** The module-level state: `players` and `food`. `order` is the
      order in which `for (let id in players)` visits the keys: socket ids
      are never array-index strings, so it is insertion order. */
  datatype World = World(players: map<Id, Player>, order: seq<Id>, food: Cell)

  /** Both servers use a fixed 20 x 20 grid. */
  const GridSize := 20

  const ArrowUp := "ArrowUp"
  const ArrowDown := "ArrowDown"
  const ArrowLeft := "ArrowLeft"
  const ArrowRight := "ArrowRight"

  /** The four direction strings the servers recognise. */
  predicate IsDirection(dir: string) {
    dir == ArrowUp || dir == ArrowDown || dir == ArrowLeft || dir == ArrowRight
  }

  predicate InGrid(c: Cell) {
    0 <= c.x < GridSize && 0 <= c.y < GridSize
  }

  /** Two cells that share a side. */
  predicate Adjacent(a: Cell, b: Cell) {
    (a.x == b.x && (a.y == b.y + 1 || a.y + 1 == b.y)) ||
    (a.y == b.y && (a.x == b.x + 1 || a.x + 1 == b.x))
  }

  /** The unit vector of a direction. */
  function Dx(dir: string): int {
    if dir == ArrowLeft then -1 else if dir == ArrowRight then 1 else 0
  }

  function Dy(dir: string): int {
    if dir == ArrowUp then -1 else if dir == ArrowDown then 1 else 0
  }

  /** The candidate head: a copy of the old head with one coordinate
      moved by the stored direction. The four `if`s of the source test
      one string each, so at most one of them fires. */
  function Step(head: Cell, dir: string): (r: Cell)
    ensures IsDirection(dir) <==> Adjacent(head, r)
    ensures !IsDirection(dir) ==> r == head
    ensures dir == ArrowUp || dir == ArrowDown ==> r.x == head.x
    ensures dir == ArrowLeft || dir == ArrowRight ==> r.y == head.y
    ensures dir == ArrowUp ==> r == Cell(head.x, head.y - 1)
    ensures dir == ArrowDown ==> r == Cell(head.x, head.y + 1)
    ensures dir == ArrowLeft ==> r == Cell(head.x - 1, head.y)
    ensures dir == ArrowRight ==> r == Cell(head.x + 1, head.y)
  {
    Cell(head.x + Dx(dir), head.y + Dy(dir))
  }

  /** The record a new connection gets. */
  function NewPlayer(color: string): (p: Player)
    ensures |p.snake| == 1 && p.score == 0 && IsDirection(p.direction)
    ensures p.snake == [Cell(5, 5)] && p.direction == ArrowRight && p.color == color
  {
    Player([Cell(5, 5)], ArrowRight, color, 0)
  }

  /** The update of a player that survives the tick: `unshift(head)`,
      then on food `score++` and keep the tail, otherwise `pop()`. */
  function Grow(p: Player, head: Cell, ate: bool): (r: Player)
    requires |p.snake| > 0
    ensures |r.snake| == |p.snake| + (if ate then 1 else 0)
    ensures r.snake[0] == head
    ensures r.snake[1..] == if ate then p.snake else p.snake[..|p.snake| - 1]
    ensures r.score == p.score + (if ate then 1 else 0)
    ensures r.direction == p.direction && r.color == p.color
  {
    var body := [head] + p.snake;
    if ate then p.(snake := body, score := p.score + 1)
    else p.(snake := body[..|body| - 1])
  }

  predicate NoDuplicates<T(==)>(s: seq<T>) {
    forall i, j :: 0 <= i < j < |s| ==> s[i] != s[j]
  }

  /** The key order without `id`, as `delete players[id]` leaves it. */
  function Without(s: seq<Id>, id: Id): (r: seq<Id>)
    ensures forall x :: x in r <==> x in s && x != id
    ensures |r| <= |s|
    ensures id !in s ==> r == s
    ensures NoDuplicates(s) ==> NoDuplicates(r)
  {
    if s == [] then []
    else if s[0] == id then Without(s[1..], id)
    else
      var rest := Without(s[1..], id);
      assert NoDuplicates(s) ==> s[0] !in s[1..] && s[0] !in rest;
      assert forall k :: 0 < k < |[s[0]] + rest| ==> ([s[0]] + rest)[k] == rest[k - 1];
      [s[0]] + rest
  }

  /** `delete` keeps the other keys in their for-in order: the key order
      loses exactly the one position that held `id`. */
  lemma {:induction false} WithoutKeepsOrder(s: seq<Id>, id: Id)
    requires id in s && NoDuplicates(s)
    ensures exists k :: 0 <= k < |s| && s[k] == id && Without(s, id) == s[..k] + s[k + 1..]
  {
    if s[0] == id {
      WithoutAtHead(s, id);
    } else {
      var t := s[1..];
      TailFacts(s, id);
      WithoutKeepsOrder(t, id);
      var k :| 0 <= k < |t| && t[k] == id && Without(t, id) == t[..k] + t[k + 1..];
      WithoutPastHead(s, id, k);
    }
  }

  lemma WithoutAtHead(s: seq<Id>, id: Id)
    requires s != [] && s[0] == id && NoDuplicates(s)
    ensures Without(s, id) == s[..0] + s[1..]
  {
    var t := s[1..];
    assert id !in t by {
      forall j | 0 <= j < |t| ensures t[j] != id { assert t[j] == s[j + 1]; }
    }
  }

  lemma TailFacts(s: seq<Id>, id: Id)
    requires id in s && s[0] != id && NoDuplicates(s)
    ensures id in s[1..] && NoDuplicates(s[1..])
  {
    var t := s[1..];
    assert NoDuplicates(t) by {
      forall i, j | 0 <= i < j < |t| ensures t[i] != t[j] { assert t[i] == s[i + 1] && t[j] == s[j + 1]; }
    }
  }

  lemma WithoutPastHead(s: seq<Id>, id: Id, k: nat)
    requires s != [] && s[0] != id && k < |s| - 1 && s[1..][k] == id
    requires Without(s[1..], id) == s[1..][..k] + s[1..][k + 1..]
    ensures s[k + 1] == id && Without(s, id) == s[..k + 1] + s[k + 2..]
  {
    var t := s[1..];
    assert Without(s, id) == [s[0]] + Without(t, id);
    assert s[..k + 1] == [s[0]] + t[..k];
    assert s[k + 2..] == t[k + 1..];
  }

  /** The shape every reachable state has: the order lists each key once,
      and every body has a head. */
  ghost predicate WellFormed(w: World) {
    && NoDuplicates(w.order)
    && (forall id :: id in w.order <==> id in w.players)
    && (forall id :: id in w.players ==> |w.players[id].snake| > 0)
  }

  /** `players[socket.id] = {...}`: assigning to an existing key keeps
      its place in the key order; a new key goes to the end. */
  function Connect(w: World, id: Id, color: string): (r: World)
    requires WellFormed(w)
    ensures WellFormed(r)
    ensures r.players.Keys == w.players.Keys + {id}
    ensures r.players[id] == NewPlayer(color)
    ensures forall other :: other in w.players && other != id ==> r.players[other] == w.players[other]
    ensures id !in w.players ==> r.order == w.order + [id]
    ensures id in w.players ==> r.order == w.order
    ensures r.food == w.food
  {
    var order := if id in w.players then w.order else w.order + [id];
    assert forall x :: x in order <==> x in w.order || x == id;
    World(w.players[id := NewPlayer(color)], order, w.food)
  }

  /** `delete players[id]`: removes exactly that key, if present. */
  function Remove(w: World, id: Id): (r: World)
    requires WellFormed(w)
    ensures WellFormed(r)
    ensures r.players.Keys == w.players.Keys - {id}
    ensures forall other :: other in r.players ==> r.players[other] == w.players[other]
    ensures r.order == Without(w.order, id)
    ensures r.food == w.food
  {
    World(w.players - {id}, Without(w.order, id), w.food)
  }

  /** The state right after the server starts. */
  function Initial(food: Cell): (w: World)
    ensures WellFormed(w) && w.players == map[] && w.food == food
  {
    World(map[], [], food)
  }
}
