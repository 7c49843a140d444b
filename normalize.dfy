/**
 * The pure part of the per-game handler in bot.py: reading the move list and
 * the status out of a payload, and deciding whose turn it is.
 */
module Normalize {
  import opened Wrappers
  import opened Payload

  /** `d.get("moves", "") or ""`: the moves entry when it is truthy, else "". */
  function MovesField(d: map<string, Json>): (v: Json)
    ensures Truthy(v) ==> "moves" in d && v == d["moves"]
    ensures !Truthy(v) ==> v == JStr("")
    ensures "moves" in d && Truthy(d["moves"]) ==> v == d["moves"]
  {
    if "moves" in d && Truthy(d["moves"]) then d["moves"] else JStr("")
  }

  /** The nested `state` object of a payload dict, when it is itself a dict. */
  function NestedState(d: map<string, Json>): (r: Option<map<string, Json>>)
    ensures r.Some? <==> "state" in d && d["state"].JObj?
    ensures r.Some? ==> r.value == d["state"].fields
  {
    if "state" in d && d["state"].JObj? then Some(d["state"].fields) else None
  }

  /**
   * `_parse_moves_from_state`: the raw move value of a payload, checked in
   * this order: falsy payload, top-level `moves`, nested `state` dict,
   * `gameFull` envelope, raw string, anything else.
   */
  function ParseMoves(p: Json): (v: Json)
  {
    if !Truthy(p) then JStr("")
    else match p
      case JObj(d) =>
        if "moves" in d then MovesField(d)
        else if NestedState(d).Some? then MovesField(NestedState(d).value)
        else if Get(d, "type") == JStr("gameFull") && Get(d, "state").JObj? then
          MovesField(Get(d, "state").fields)
        else JStr("")
      case JStr(_) => p
      case _ => JStr("")
  }

  /**
   * The same resolution without the `gameFull` branch: the reference the
   * redundancy lemma compares against.
   */
  function ParseMovesDirect(p: Json): (v: Json) {
    match p
    case JObj(d) =>
      if "moves" in d then MovesField(d)
      else if NestedState(d).Some? then MovesField(NestedState(d).value)
      else JStr("")
    case JStr(_) => p
    case _ => JStr("")
  }

  /**
   * `moves_str.split() if moves_str else []`: the move list, or `None` when
   * the value is truthy but not a string (Python's `.split()` then raises).
   */
  function MoveList(v: Json): (r: Option<seq<string>>)
    ensures !Truthy(v) ==> r == Some([])
    ensures v.JStr? ==> r == Some(Split(v.s))
    ensures r.None? <==> Truthy(v) && !v.JStr?
  {
    if !Truthy(v) then Some([]) else if v.JStr? then Some(Split(v.s)) else None
  }

  /** The status a streamed payload carries (bot.py:72-78); `JNull` when none. */
  function StreamStatus(p: Json): (st: Json)
  {
    match p
    case JObj(d) =>
      if NestedState(d).Some? then Get(NestedState(d).value, "status") else Get(d, "status")
    case _ => JNull
  }

  /** `status and status != "started"`: the session must stop. */
  predicate GameOver(status: Json) {
    Truthy(status) && status != JStr("started")
  }

  /** The side to move after `count` plies: white starts and sides alternate. */
  function SideToMove(count: nat): (c: string)
    ensures c == "white" <==> count % 2 == 0
    ensures c == "black" <==> count % 2 == 1
  {
    if count % 2 == 0 then "white" else "black"
  }

  /** The guard of bot.py:88 and bot.py:129. */
  predicate ShouldAct(myColor: string, last: int, count: nat) {
    SideToMove(count) == myColor && last != count
  }

  // ---------------------------------------------------------------------
  // Properties of the normaliser

  /** A top-level `moves` key wins, even over a nested `state` dict. */
  lemma DirectMovesWin(d: map<string, Json>)
    requires "moves" in d
    ensures ParseMoves(JObj(d)) == (if Truthy(d["moves"]) then d["moves"] else JStr(""))
  {
  }

  /** Without a top-level `moves`, a nested `state` dict supplies them. */
  lemma NestedMovesNext(d: map<string, Json>)
    requires "moves" !in d && "state" in d && d["state"].JObj?
    ensures ParseMoves(JObj(d)) == MovesField(d["state"].fields)
  {
  }

  /** A dict with neither source of moves yields "". */
  lemma NoMovesSourceGivesEmpty(d: map<string, Json>)
    requires "moves" !in d && !("state" in d && d["state"].JObj?)
    ensures ParseMoves(JObj(d)) == JStr("")
  {
  }

  /** The `gameFull` branch of bot.py:38 never decides the result. */
  lemma GameFullBranchRedundant(p: Json)
    ensures ParseMoves(p) == ParseMovesDirect(p)
  {
    if p.JObj? {
      var d := p.fields;
      if "moves" !in d && NestedState(d).None? {
        assert !Get(d, "state").JObj?;
      }
    }
  }

  /** Non-dict payloads: falsy gives "", a string itself, anything else "". */
  lemma NonDictPayloads(p: Json)
    requires !p.JObj?
    ensures !Truthy(p) ==> ParseMoves(p) == JStr("")
    ensures p.JStr? ==> ParseMoves(p) == p
    ensures !p.JStr? ==> ParseMoves(p) == JStr("")
  {
  }

  /** Whatever the payload, the parsed value is "" or a truthy value found in it. */
  lemma ParsedValueOrigin(p: Json)
    ensures var v := ParseMoves(p);
      || v == JStr("")
      || (Truthy(v) && v == p && p.JStr?)
      || (Truthy(v) && p.JObj? && "moves" in p.fields && v == p.fields["moves"])
      || (Truthy(v) && p.JObj? && NestedState(p.fields).Some? && v == NestedState(p.fields).value["moves"])
  {
    GameFullBranchRedundant(p);
  }

  /** With a nested `state` dict the status is read there only, never at top level. */
  lemma NestedStatusOnly(d: map<string, Json>)
    requires "state" in d && d["state"].JObj?
    ensures StreamStatus(JObj(d)) == Get(d["state"].fields, "status")
  {
  }

  /** Without a nested `state` dict the top-level `status` is used. */
  lemma TopLevelStatusOtherwise(d: map<string, Json>)
    requires !("state" in d && d["state"].JObj?)
    ensures StreamStatus(JObj(d)) == Get(d, "status")
  {
  }

  /** A non-dict payload has no status, so it never ends the game. */
  lemma NonDictHasNoStatus(p: Json)
    requires !p.JObj?
    ensures StreamStatus(p) == JNull && !GameOver(StreamStatus(p))
  {
  }

  /** A missing, empty or "started" status lets the session go on; any other truthy value stops it. */
  lemma GameOverCases(status: Json)
    ensures status == JNull || status == JStr("") || status == JStr("started") ==> !GameOver(status)
    ensures status.JStr? && status.s != "" && status.s != "started" ==> GameOver(status)
  {
  }

  /** The move count the service's own space-joined list produces. */
  lemma MoveCountOfJoinedList(moves: seq<string>)
    requires forall i :: 0 <= i < |moves| ==> IsToken(moves[i])
    ensures var v := ParseMoves(JObj(map["moves" := JStr(Join(moves))]));
      MoveList(v) == Some(moves)
  {
    var j := Join(moves);
    var d := map["moves" := JStr(j)];
    SplitJoin(moves);
    assert Truthy(JObj(d)) by { assert "moves" in d; }
    if moves == [] {
      assert ParseMoves(JObj(d)) == JStr("");
    } else {
      assert j != "";
      assert ParseMoves(JObj(d)) == JStr(j);
    }
  }

  /**
   * The three dict shapes carrying the same moves and status (flat, nested,
   * `gameFull` envelope) normalise alike.
   */
  lemma ShapesAgree(moves: Json, status: Json)
    ensures var inner := map["moves" := moves, "status" := status];
      var flat := JObj(inner);
      var nested := JObj(map["state" := JObj(inner)]);
      var envelope := JObj(map["type" := JStr("gameFull"), "state" := JObj(inner)]);
      && ParseMoves(flat) == ParseMoves(nested) == ParseMoves(envelope)
      && StreamStatus(flat) == StreamStatus(nested) == StreamStatus(envelope) == status
  {
    var inner := map["moves" := moves, "status" := status];
    var nested := map["state" := JObj(inner)];
    var envelope := map["type" := JStr("gameFull"), "state" := JObj(inner)];
    assert "moves" in inner && "state" in nested && "state" in envelope;
    assert "moves" !in nested && "moves" !in envelope;
    assert nested["state"] == envelope["state"] == JObj(inner);
    assert ParseMoves(JObj(nested)) == MovesField(inner);
    assert ParseMoves(JObj(envelope)) == MovesField(inner);
  }

  /** Sides alternate from one ply to the next. */
  lemma SidesAlternate(count: nat)
    ensures SideToMove(count) != SideToMove(count + 1)
  {
  }
}
