/** The small string and boolean logic of the snake browser client,
    snake-server-backend/game.js: username normalisation, HTML escaping,
    the scoreboard status label, the respawn-popup condition, the timer
    clamp and the merge of configuration messages into the client's
    `gridSize` and `wrapEdges`. */
module SnakeClient {

  datatype Option<T> = None | Some(value: T)

  /** The JavaScript values a message field can hold. `Number` covers the
      finite numbers; NaN and the infinities are not modelled. */
  datatype JsValue = Undefined | Null | Boolean(b: bool) | Number(n: real) | Str(s: string) | Object

  /** JavaScript truthiness. */
  predicate Truthy(v: JsValue) {
    match v
    case Undefined => false
    case Null => false
    case Boolean(b) => b
    case Number(n) => n != 0.0
    case Str(s) => s != ""
    case Object => true
  }

  // ---------------------------------------------------------------------
  // Username normalisation

  /** The code points `String.prototype.trim` removes: WhiteSpace
      (TAB, VT, FF, ZWNBSP and the Zs category) and LineTerminator. */
  predicate IsJsSpace(c: char) {
    || c == '\t' || c == '\n' || c == '\U{000B}' || c == '\U{000C}' || c == '\r'
    || c == ' ' || c == '\U{00A0}' || c == '\U{1680}' || ('\U{2000}' <= c <= '\U{200A}')
    || c == '\U{2028}' || c == '\U{2029}' || c == '\U{202F}' || c == '\U{205F}'
    || c == '\U{3000}' || c == '\U{FEFF}'
  }

  predicate AllSpace(s: string) {
    forall i :: 0 <= i < |s| ==> IsJsSpace(s[i])
  }

  function TrimStart(s: string): (r: string)
    ensures |r| <= |s| && r == s[|s| - |r|..]
    ensures AllSpace(s[..|s| - |r|])
    ensures r == [] || !IsJsSpace(r[0])
  {
    if s == [] || !IsJsSpace(s[0]) then s
    else
      var r := TrimStart(s[1..]);
      assert s[..|s| - |r|] == [s[0]] + s[1..][..|s[1..]| - |r|];
      r
  }

  function TrimEnd(s: string): (r: string)
    ensures |r| <= |s| && r == s[..|r|]
    ensures AllSpace(s[|r|..])
    ensures r == [] || !IsJsSpace(r[|r| - 1])
  {
    if s == [] || !IsJsSpace(s[|s| - 1]) then s
    else
      var r := TrimEnd(s[..|s| - 1]);
      assert s[|r|..] == s[..|s| - 1][|r|..] + [s[|s| - 1]];
      r
  }

  /** `r` is the infix of `s` from `i` on, the characters around it are
      all white space, and `r` neither starts nor ends with white space. */
  ghost predicate TrimmedAt(s: string, i: int, r: string) {
    && 0 <= i && i + |r| <= |s| && r == s[i..i + |r|]
    && AllSpace(s[..i]) && AllSpace(s[i + |r|..])
    && (r == [] || (!IsJsSpace(r[0]) && !IsJsSpace(r[|r| - 1])))
  }

  /** `String.prototype.trim`: the longest infix that neither starts nor
      ends with white space, cut out from between two all-space ends. */
  function Trim(s: string): (r: string)
    ensures TrimmedAt(s, |s| - |TrimStart(s)|, r)
    ensures r == [] <==> AllSpace(s)
  {
    TrimFacts(s);
    TrimEnd(TrimStart(s))
  }

  lemma {:induction false} TrimFacts(s: string)
    ensures TrimmedAt(s, |s| - |TrimStart(s)|, TrimEnd(TrimStart(s)))
    ensures TrimEnd(TrimStart(s)) == [] <==> AllSpace(s)
  {
    var t := TrimStart(s);
    var r := TrimEnd(t);
    TrimInfix(s, t, r);
    TrimEmpty(s, t, r);
    TrimNonEmpty(s, t, r);
  }

  lemma {:induction false} TrimNonEmpty(s: string, t: string, r: string)
    requires t == TrimStart(s) && r == TrimEnd(t)
    ensures r != [] ==> !AllSpace(s)
  {
    if r != [] {
      TrimInfix(s, t, r);
      var i := |s| - |t|;
      assert s[i] == r[0];
    }
  }

  lemma {:induction false} TrimInfix(s: string, t: string, r: string)
    requires t == TrimStart(s) && r == TrimEnd(t)
    ensures TrimmedAt(s, |s| - |t|, r)
  {
    var i := |s| - |t|;
    assert t == s[i..];
    assert r == t[..|r|];
    assert s[i + |r|..] == t[|r|..];
    assert r != [] ==> r[0] == t[0];
  }

  lemma {:induction false} TrimEmpty(s: string, t: string, r: string)
    requires t == TrimStart(s) && r == TrimEnd(t)
    ensures r == [] ==> AllSpace(s)
  {
    var i := |s| - |t|;
    assert t == s[i..];
    if r == [] {
      assert AllSpace(t);
      forall k | 0 <= k < |s| ensures IsJsSpace(s[k]) {
        if k < i { assert s[k] == s[..i][k]; } else { assert s[k] == t[k - i]; }
      }
    }
  }

  lemma {:induction false} TrimIdempotent(s: string)
    ensures Trim(Trim(s)) == Trim(s)
  {
    var r := Trim(s);
    assert TrimStart(r) == r;
    assert TrimEnd(r) == r;
  }

  function Min(a: int, b: int): int {
    if a < b then a else b
  }

  /** `(value || "").trim().slice(0, 32)`, and `None` where `saveUsername`
      returns early because the result is empty. */
  function NormalizeUsername(input: string): (r: Option<string>)
    ensures r == None <==> AllSpace(input)
    ensures r.Some? ==> 0 < |r.value| <= 32 && |r.value| <= |Trim(input)| && r.value == Trim(input)[..|r.value|]
    ensures r.Some? ==> !IsJsSpace(r.value[0])
    ensures |Trim(input)| <= 32 && r.Some? ==> r.value == Trim(input)
    ensures |Trim(input)| > 32 ==> r.Some? && |r.value| == 32
  {
    var name := Trim(input);
    var cut := name[..Min(32, |name|)];
    if cut == [] then None else Some(cut)
  }

  /** The slice comes after the trim, so a name whose trimmed form is
      longer than 32 characters and has white space at position 31 is
      stored with that white space at its end; normalising the stored
      name again trims it off: normalising is not idempotent. */
  lemma TruncatedNameMayEndInSpace(input: string)
    requires |Trim(input)| > 32 && IsJsSpace(Trim(input)[31])
    ensures NormalizeUsername(input).Some?
    ensures IsJsSpace(NormalizeUsername(input).value[31])
    ensures NormalizeUsername(NormalizeUsername(input).value) != NormalizeUsername(input)
  {
    var saved := NormalizeUsername(input).value;
    assert saved == Trim(input)[..32];
    assert !AllSpace(saved) by { assert !IsJsSpace(saved[0]); }
    var again := NormalizeUsername(saved);
    assert again.Some? && again.value == Trim(saved);
    assert again.value[|again.value| - 1] != saved[31];
  }

  // ---------------------------------------------------------------------
  // HTML escaping

  /** `s.replace(/c/g, rep)` for a one-character pattern `c`. */
  function ReplaceAll(s: string, c: char, rep: string): string {
    if s == [] then []
    else (if s[0] == c then rep else [s[0]]) + ReplaceAll(s[1..], c, rep)
  }

  /** `escapeHtml`: three global replacements, `&` first. */
  function EscapeHtml(s: string): string {
    ReplaceAll(ReplaceAll(ReplaceAll(s, '&', "&amp;"), '<', "&lt;"), '>', "&gt;")
  }

  /** What each character becomes. */
  function EscapeChar(c: char): string {
    if c == '&' then "&amp;" else if c == '<' then "&lt;" else if c == '>' then "&gt;" else [c]
  }

  /** The reference definition: escape character by character. */
  function EscapeEach(s: string): string {
    if s == [] then [] else EscapeChar(s[0]) + EscapeEach(s[1..])
  }

  lemma {:induction false} ReplaceAllAppend(a: string, b: string, c: char, rep: string)
    ensures ReplaceAll(a + b, c, rep) == ReplaceAll(a, c, rep) + ReplaceAll(b, c, rep)
  {
    if a == [] {
      assert a + b == b;
    } else {
      assert (a + b)[0] == a[0] && (a + b)[1..] == a[1..] + b;
      ReplaceAllAppend(a[1..], b, c, rep);
    }
  }

  lemma {:induction false} ReplaceAllAbsent(s: string, c: char, rep: string)
    requires c !in s
    ensures ReplaceAll(s, c, rep) == s
  {
    if s != [] {
      assert s[0] != c && s == [s[0]] + s[1..];
      ReplaceAllAbsent(s[1..], c, rep);
    }
  }

  lemma ReplaceAllOne(x: char, c: char, rep: string)
    ensures ReplaceAll([x], c, rep) == if x == c then rep else [x]
  {
    assert [x][1..] == [];
  }

  /** The three passes on a one-character string. */
  lemma EscapeOne(x: char)
    ensures EscapeHtml([x]) == EscapeChar(x)
  {
    ReplaceAllOne(x, '&', "&amp;");
    if x == '&' {
      ReplaceAllAbsent("&amp;", '<', "&lt;");
      ReplaceAllAbsent("&amp;", '>', "&gt;");
    } else {
      ReplaceAllOne(x, '<', "&lt;");
      if x == '<' {
        ReplaceAllAbsent("&lt;", '>', "&gt;");
      } else {
        ReplaceAllOne(x, '>', "&gt;");
      }
    }
  }

  /** Each pass distributes over concatenation, so the three do too. */
  lemma EscapeHtmlAppend(a: string, b: string)
    ensures EscapeHtml(a + b) == EscapeHtml(a) + EscapeHtml(b)
  {
    ReplaceAllAppend(a, b, '&', "&amp;");
    var a1, b1 := ReplaceAll(a, '&', "&amp;"), ReplaceAll(b, '&', "&amp;");
    ReplaceAllAppend(a1, b1, '<', "&lt;");
    var a2, b2 := ReplaceAll(a1, '<', "&lt;"), ReplaceAll(b1, '<', "&lt;");
    ReplaceAllAppend(a2, b2, '>', "&gt;");
  }

  /** Replacing `&` first means no entity the later passes insert is
      escaped again: the three passes equal one per-character pass. */
  lemma {:induction false} EscapeHtmlIsPerCharacter(s: string)
    ensures EscapeHtml(s) == EscapeEach(s)
  {
    if s != [] {
      assert s == [s[0]] + s[1..];
      EscapeHtmlAppend([s[0]], s[1..]);
      EscapeOne(s[0]);
      EscapeHtmlIsPerCharacter(s[1..]);
    }
  }

  /** Decoding of the three entities `escapeHtml` produces. */
  function Unescape(s: string): string {
    if s == [] then []
    else if |s| >= 5 && s[..5] == "&amp;" then "&" + Unescape(s[5..])
    else if |s| >= 4 && s[..4] == "&lt;" then "<" + Unescape(s[4..])
    else if |s| >= 4 && s[..4] == "&gt;" then ">" + Unescape(s[4..])
    else [s[0]] + Unescape(s[1..])
  }

  lemma {:induction false} UnescapeEscapeEach(s: string)
    ensures Unescape(EscapeEach(s)) == s
  {
    if s != [] {
      var x, rest := s[0], EscapeEach(s[1..]);
      var e := EscapeChar(x) + rest;
      assert e == EscapeEach(s);
      assert e[|EscapeChar(x)|..] == rest;
      UnescapeEscapeEach(s[1..]);
      if x == '&' {
        assert e[..5] == "&amp;";
        assert Unescape(e) == "&" + Unescape(rest);
      } else if x == '<' {
        assert e[..4] == "&lt;" && e[1] == 'l';
        assert Unescape(e) == "<" + Unescape(rest);
      } else if x == '>' {
        assert e[..4] == "&gt;" && e[1] == 'g';
        assert Unescape(e) == ">" + Unescape(rest);
      } else {
        assert e[0] == x && e[1..] == rest;
        assert Unescape(e) == [x] + Unescape(rest);
      }
      assert s == [x] + s[1..];
    }
  }

  /** Escaping loses nothing: decoding the entities gives the input back,
      so each `&`, `<` and `>` is escaped exactly once. */
  lemma EscapeHtmlRoundTrip(s: string)
    ensures Unescape(EscapeHtml(s)) == s
  {
    EscapeHtmlIsPerCharacter(s);
    UnescapeEscapeEach(s);
  }

  lemma {:induction false} EscapeEachFacts(s: string)
    ensures '<' !in EscapeEach(s) && '>' !in EscapeEach(s)
    ensures ('&' !in s && '<' !in s && '>' !in s) ==> EscapeEach(s) == s
  {
    if s != [] {
      EscapeEachFacts(s[1..]);
      assert s == [s[0]] + s[1..];
    }
  }

  /** The output of `escapeHtml` holds no `<` and no `>`, and a string
      without `&`, `<` and `>` comes out unchanged. */
  lemma EscapeHtmlSafe(s: string)
    ensures '<' !in EscapeHtml(s) && '>' !in EscapeHtml(s)
    ensures ('&' !in s && '<' !in s && '>' !in s) ==> EscapeHtml(s) == s
  {
    EscapeHtmlIsPerCharacter(s);
    EscapeEachFacts(s);
  }

  // ---------------------------------------------------------------------
  // Scoreboard, popup, timer

  /** The fields of a player in a `state` message that the client reads
      for its labels. A name is absent or a string. */
  datatype PlayerView = PlayerView(name: Option<string>, alive: JsValue, spectator: JsValue)

  const Spectating := " (Spectator)"
  const Down := " (Down)"

  /** `p.spectator ? " (Spectator)" : p.alive ? "" : " (Down)"`. */
  function StatusLabel(p: PlayerView): (r: string)
    ensures Truthy(p.spectator) ==> r == Spectating
    ensures !Truthy(p.spectator) && Truthy(p.alive) ==> r == ""
    ensures !Truthy(p.spectator) && !Truthy(p.alive) ==> r == Down
  {
    if Truthy(p.spectator) then Spectating else if Truthy(p.alive) then "" else Down
  }

  /** `escapeHtml(p.name || "Anonymous")`. */
  function DisplayName(p: PlayerView): (r: string)
    ensures r != []
    ensures '<' !in r && '>' !in r
    ensures (p.name == None || p.name == Some("")) ==> r == Anonymous
    ensures p.name.Some? && p.name.value != "" ==> r == EscapeHtml(p.name.value) && Unescape(r) == p.name.value
  {
    var shown := if p.name.Some? && p.name.value != "" then p.name.value else Anonymous;
    EscapeHtmlRoundTrip(shown);
    EscapeHtmlNonEmpty(shown);
    EscapeHtmlSafe(shown);
    AnonymousUnescaped();
    EscapeHtml(shown)
  }

  const Anonymous := "Anonymous"

  lemma AnonymousUnescaped()
    ensures EscapeHtml(Anonymous) == Anonymous
  {
    assert '&' !in Anonymous && '<' !in Anonymous && '>' !in Anonymous;
    EscapeHtmlSafe(Anonymous);
  }

  lemma EscapeHtmlNonEmpty(s: string)
    requires s != []
    ensures EscapeHtml(s) != []
  {
    EscapeHtmlIsPerCharacter(s);
    assert EscapeEach(s) == EscapeChar(s[0]) + EscapeEach(s[1..]);
  }

  /** `me && !me.alive && !me.spectator`, with `me = state.players[socket.id]`. */
  predicate PopupShown(players: map<string, PlayerView>, self: string) {
    self in players && !Truthy(players[self].alive) && !Truthy(players[self].spectator)
  }

  /** The popup appears exactly when the client's own scoreboard line
      reads " (Down)". */
  lemma PopupIffDown(players: map<string, PlayerView>, self: string)
    ensures PopupShown(players, self) <==> self in players && StatusLabel(players[self]) == Down
  {
    assert Spectating != Down by { assert |Spectating| != |Down|; }
    assert "" != Down;
  }

  /** `Math.max(0, Math.floor((matchEndTime - Date.now()) / 1000))`, times
      in milliseconds. A missing `matchEndTime` makes the difference NaN,
      and `Math.max(0, NaN)` is NaN: that is `None`. */
  function SecondsLeft(matchEndTime: Option<int>, now: int): (r: Option<int>)
    ensures r.None? <==> matchEndTime.None?
    ensures r.Some? ==> r.value >= 0
    ensures r.Some? && matchEndTime.value - now >= 0 ==>
      r.value * 1000 <= matchEndTime.value - now < (r.value + 1) * 1000
    ensures r.Some? && matchEndTime.value - now < 1000 ==> r.value == 0
  {
    match matchEndTime
    case None => None
    case Some(end) =>
      // For a positive divisor Dafny's `/` rounds down, like Math.floor.
      var secs := (end - now) / 1000;
      Some(if secs < 0 then 0 else secs)
  }

  // ---------------------------------------------------------------------
  // Configuration held by the client

  /** `gridSize` and `wrapEdges` keep their types under the typed handlers. */
  predicate WellTyped(gridSize: JsValue, wrapEdges: JsValue) {
    gridSize.Number? && wrapEdges.Boolean?
  }

  /** `if (typeof given === "number") current = given`. */
  function TakeNumber(current: JsValue, given: JsValue): (r: JsValue)
    ensures given.Number? ==> r == given
    ensures !given.Number? ==> r == current
    ensures current.Number? ==> r.Number?
  {
    if given.Number? then given else current
  }

  /** `if (typeof given === "boolean") current = given`. */
  function TakeBoolean(current: JsValue, given: JsValue): (r: JsValue)
    ensures given.Boolean? ==> r == given
    ensures !given.Boolean? ==> r == current
    ensures current.Boolean? ==> r.Boolean?
  {
    if given.Boolean? then given else current
  }

  /** `given ?? current`. */
  function Nullish(current: JsValue, given: JsValue): (r: JsValue)
    ensures given.Undefined? || given.Null? ==> r == current
    ensures !(given.Undefined? || given.Null?) ==> r == given
  {
    if given.Undefined? || given.Null? then current else given
  }

  /** Unlike the typed handlers, the `state` handler takes any non-nullish
      value: a string `gridSize` replaces a number. */
  lemma NullishMayBreakType()
    ensures WellTyped(Number(20.0), Boolean(false))
    ensures !WellTyped(Nullish(Number(20.0), Str("big")), Nullish(Boolean(false), Undefined))
  {
  }

  /** The client's module variables. `tileSize`, the form inputs and the
      canvas are display state and are not modelled. */
  class Client {
    var username: string
    var gridSize: JsValue
    var wrapEdges: JsValue

    /** Page load: `localStorage.getItem("snakeUsername") || ""`,
        `gridSize = 20`, `wrapEdges = false`. */
    constructor (stored: Option<string>)
      ensures username == (if stored.Some? then stored.value else "")
      ensures gridSize == Number(20.0) && wrapEdges == Boolean(false)
      ensures WellTyped(gridSize, wrapEdges)
    {
      username := if stored.Some? then stored.value else "";
      gridSize, wrapEdges := Number(20.0), Boolean(false);
    }

    /** `saveUsername`: `saved` is the name written to local storage and
        emitted as `setUsername`; `None` when the handler returns early. */
    method SaveUsername(input: string) returns (saved: Option<string>)
      modifies this`username
      ensures saved == NormalizeUsername(input)
      ensures username == if saved.Some? then saved.value else old(username)
    {
      var name := Trim(input);
      name := name[..Min(32, |name|)];
      if name == [] {
        return None;
      }
      username := name;
      saved := Some(name);
    }

    /** The `configUpdated` handler. */
    method ConfigUpdated(givenGridSize: JsValue, givenWrapEdges: JsValue)
      modifies this`gridSize, this`wrapEdges
      ensures gridSize == TakeNumber(old(gridSize), givenGridSize)
      ensures wrapEdges == TakeBoolean(old(wrapEdges), givenWrapEdges)
      ensures old(WellTyped(gridSize, wrapEdges)) ==> WellTyped(gridSize, wrapEdges)
    {
      if givenGridSize.Number? {
        gridSize := givenGridSize;
      }
      if givenWrapEdges.Boolean? {
        wrapEdges := givenWrapEdges;
      }
    }

    /** The configuration part of the `newMatch` handler, which repeats
        the checks of `configUpdated`. */
    method NewMatch(givenGridSize: JsValue, givenWrapEdges: JsValue)
      modifies this`gridSize, this`wrapEdges
      ensures gridSize == TakeNumber(old(gridSize), givenGridSize)
      ensures wrapEdges == TakeBoolean(old(wrapEdges), givenWrapEdges)
      ensures old(WellTyped(gridSize, wrapEdges)) ==> WellTyped(gridSize, wrapEdges)
    {
      if givenGridSize.Number? {
        gridSize := givenGridSize;
      }
      if givenWrapEdges.Boolean? {
        wrapEdges := givenWrapEdges;
      }
    }

    /** The configuration part of the `state` handler:
        `gridSize = state.gridSize ?? gridSize`, likewise `wrapEdges`. */
    method OnState(givenGridSize: JsValue, givenWrapEdges: JsValue)
      modifies this`gridSize, this`wrapEdges
      ensures gridSize == Nullish(old(gridSize), givenGridSize)
      ensures wrapEdges == Nullish(old(wrapEdges), givenWrapEdges)
    {
      if !(givenGridSize.Undefined? || givenGridSize.Null?) {
        gridSize := givenGridSize;
      }
      if !(givenWrapEdges.Undefined? || givenWrapEdges.Null?) {
        wrapEdges := givenWrapEdges;
      }
    }
  }
}
