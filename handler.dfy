/**
 * `handle_game` in bot.py: one game's session. A stream phase, then a poll
 * phase, both feeding snapshots through the same turn check and sharing one
 * counter, `last_processed_moves_count`, which remembers the move count of
 * the last successful submission.
 *
 * The collaborators are inputs: each snapshot comes with the engine's reply
 * and with the outcome `make_move` would have for it; the export fetches of
 * the poll loop are a finite sequence of results.
 */
module Handler {
  import opened Wrappers
  import opened Payload
  import opened Normalize

  /** What `get_best_move` does: returns a move (possibly None or "") or raises. */
  datatype EngineReply = Chose(move: Option<string>) | EngineRaised

  /** How `client.bots.make_move` ends. */
  datatype Submission = Accepted | ResponseError | OtherError

  /** How `client.games.export` ends. */
  datatype Fetch = Exported(game: Json) | ExportResponseError | ExportRaised

  /** What the dispatch block (bot.py:88-100, 129-139) did with a snapshot. */
  datatype Fate =
    | Waited              // not our turn, or this count already handled
    | NoMove              // the engine gave a falsy move
    | Sent(move: string)  // make_move returned normally
    | Rejected(move: string)  // make_move raised ResponseError; logged
    | Raised              // the engine or make_move raised something else

  /** What processing one snapshot came to. */
  datatype Step =
    | Over                         // status truthy and not "started": break
    | Handled(count: nat, fate: Fate)
    | Unreadable                   // an exception before the turn check
    | FetchFailed                  // export raised ResponseError: break

  datatype StreamItem = StreamItem(payload: Json, engine: EngineReply, submit: Submission)
  datatype PollItem = PollItem(fetch: Fetch, engine: EngineReply, submit: Submission)

  /**
   * How the poll phase stops: a finished game, a failed export, an exception
   * caught by the handler's outer `try`, or not yet (the fetches given ran out).
   */
  datatype PollEnd = Ended | ExportFailed | Crashed | StillPolling

  /** Python's `if move:` on the engine's reply. */
  predicate HasMove(m: Option<string>) {
    m.Some? && m.value != ""
  }

  /** The dispatch block for a snapshot with `count` moves, given the counter `last`. */
  function Attempt(myColor: string, last: int, count: nat, engine: EngineReply, submit: Submission): (f: Fate) {
    if !ShouldAct(myColor, last, count) then Waited
    else match engine
      case EngineRaised => Raised
      case Chose(m) =>
        if !HasMove(m) then NoMove
        else match submit
          case Accepted => Sent(m.value)
          case ResponseError => Rejected(m.value)
          case OtherError => Raised
  }

  /** One streamed payload (bot.py:67-100): moves are split before the status is looked at. */
  function StreamStepOf(myColor: string, last: int, p: Json, engine: EngineReply, submit: Submission): (step: Step) {
    match MoveList(ParseMoves(p))
    case None => Unreadable
    case Some(moves) =>
      if GameOver(StreamStatus(p)) then Over
      else Handled(|moves|, Attempt(myColor, last, |moves|, engine, submit))
  }

  /** One export fetch (bot.py:112-139): the status is looked at before the moves. */
  function PollStepOf(myColor: string, last: int, fetch: Fetch, engine: EngineReply, submit: Submission): (step: Step) {
    match fetch
    case ExportResponseError => FetchFailed
    case ExportRaised => Unreadable
    case Exported(g) =>
      if !g.JObj? then Unreadable
      else if GameOver(Get(g.fields, "status")) then Over
      else match MoveList(MovesField(g.fields))
        case None => Unreadable
        case Some(moves) => Handled(|moves|, Attempt(myColor, last, |moves|, engine, submit))
  }

  /** The counter after a step: it moves only on a successful submission. */
  function NextCounter(last: int, step: Step): (next: int) {
    if step.Handled? && step.fate.Sent? then step.count else last
  }

  /** The step let an exception out of the snapshot's processing. */
  predicate Escapes(step: Step) {
    step.Unreadable? || (step.Handled? && step.fate.Raised?)
  }

  /** The counter and whether the game ended, after the stream delivered `items`. */
  function StreamRun(myColor: string, last: int, items: seq<StreamItem>): (r: (int, bool))
    decreases |items|
  {
    if items == [] then (last, false)
    else
      var step := StreamStepOf(myColor, last, items[0].payload, items[0].engine, items[0].submit);
      if step.Over? then (last, true)
      else StreamRun(myColor, NextCounter(last, step), items[1..])
  }

  /** The counter and how the poll loop stopped, after the fetches `items`. */
  function PollRun(myColor: string, last: int, items: seq<PollItem>): (r: (int, PollEnd))
    decreases |items|
  {
    if items == [] then (last, StillPolling)
    else
      var step := PollStepOf(myColor, last, items[0].fetch, items[0].engine, items[0].submit);
      if step.Over? then (last, Ended)
      else if step.FetchFailed? then (last, ExportFailed)
      else if Escapes(step) then (last, Crashed)
      else PollRun(myColor, NextCounter(last, step), items[1..])
  }

  // ---------------------------------------------------------------------
  // Histories of a session, kept as ghost state

  ghost predicate NoAdjacentRepeat(s: seq<int>) {
    forall i :: 0 < i < |s| ==> s[i - 1] != s[i]
  }

  ghost predicate NonDecreasing(s: seq<int>) {
    forall i :: 0 < i < |s| ==> s[i - 1] <= s[i]
  }

  ghost predicate Increasing(s: seq<int>) {
    forall i :: 0 < i < |s| ==> s[i - 1] < s[i]
  }

  ghost predicate Distinct(s: seq<int>) {
    forall i, j :: 0 <= i < j < |s| ==> s[i] != s[j]
  }

  lemma {:induction false} IncreasingOrdered(s: seq<int>, i: nat, j: nat)
    requires Increasing(s) && i < j < |s|
    ensures s[i] < s[j]
    decreases j - i
  {
    if i + 1 < j {
      IncreasingOrdered(s, i + 1, j);
    }
  }

  /** An increasing history repeats no value anywhere. */
  lemma IncreasingDistinct(s: seq<int>)
    requires Increasing(s)
    ensures Distinct(s)
  {
    forall i, j | 0 <= i < j < |s| ensures s[i] != s[j] {
      IncreasingOrdered(s, i, j);
    }
  }

  /**
   * The counter is the count of the last successful submission (-1 before
   * any); no two successive submissions share a count; and while the counts
   * delivered never go down, the submitted counts strictly go up.
   */
  ghost predicate Consistent(last: int, sent: seq<nat>, seen: seq<nat>) {
    && last == (if sent == [] then -1 else sent[|sent| - 1])
    && NoAdjacentRepeat(sent)
    && (NonDecreasing(seen) ==>
          Increasing(sent) && (sent != [] ==> seen != [] && sent[|sent| - 1] <= seen[|seen| - 1]))
  }

  /** One turn check at count `c`, which submits only at a count other than the counter, keeps the histories consistent. */
  lemma TurnCheckKeepsConsistent(last: int, sent: seq<nat>, seen: seq<nat>, c: nat, send: bool)
    requires Consistent(last, sent, seen)
    requires send ==> last != c
    ensures Consistent(if send then c else last, if send then sent + [c] else sent, seen + [c])
  {
    var sent' := if send then sent + [c] else sent;
    var seen' := seen + [c];
    assert forall i :: 0 <= i < |sent| ==> sent'[i] == sent[i];
    assert forall i :: 0 <= i < |seen| ==> seen'[i] == seen[i];
    if NonDecreasing(seen') {
      assert NonDecreasing(seen) by {
        forall i | 0 < i < |seen| ensures seen[i - 1] <= seen[i] {
          assert seen'[i - 1] == seen[i - 1] && seen'[i] == seen[i];
        }
      }
      if seen != [] {
        assert seen'[|seen| - 1] <= seen'[|seen|];
      }
    }
  }

  /** The counts a step reached the turn check with. */
  function SeenBy(step: Step): (counts: seq<nat>) {
    if step.Handled? then [step.count] else []
  }

  /** The counts a step successfully submitted at. */
  function SentBy(step: Step): (counts: seq<nat>) {
    if step.Handled? && step.fate.Sent? then [step.count] else []
  }

  /** The counts that reached the turn check while the stream delivered `items` (the same recursion as `StreamRun`). */
  function StreamSeen(myColor: string, last: int, items: seq<StreamItem>): (counts: seq<nat>)
    decreases |items|
  {
    if items == [] then []
    else
      var step := StreamStepOf(myColor, last, items[0].payload, items[0].engine, items[0].submit);
      if step.Over? then []
      else SeenBy(step) + StreamSeen(myColor, NextCounter(last, step), items[1..])
  }

  /** The counts successfully submitted at while the stream delivered `items`. */
  function StreamSent(myColor: string, last: int, items: seq<StreamItem>): (counts: seq<nat>)
    decreases |items|
  {
    if items == [] then []
    else
      var step := StreamStepOf(myColor, last, items[0].payload, items[0].engine, items[0].submit);
      if step.Over? then []
      else SentBy(step) + StreamSent(myColor, NextCounter(last, step), items[1..])
  }

  /** The counts that reached the turn check during the fetches `items` (the same recursion as `PollRun`). */
  function PollSeen(myColor: string, last: int, items: seq<PollItem>): (counts: seq<nat>)
    decreases |items|
  {
    if items == [] then []
    else
      var step := PollStepOf(myColor, last, items[0].fetch, items[0].engine, items[0].submit);
      if step.Over? || step.FetchFailed? then []
      else if Escapes(step) then SeenBy(step)
      else SeenBy(step) + PollSeen(myColor, NextCounter(last, step), items[1..])
  }

  /** The counts successfully submitted at during the fetches `items`. */
  function PollSent(myColor: string, last: int, items: seq<PollItem>): (counts: seq<nat>)
    decreases |items|
  {
    if items == [] then []
    else
      var step := PollStepOf(myColor, last, items[0].fetch, items[0].engine, items[0].submit);
      if step.Over? || step.FetchFailed? then []
      else if Escapes(step) then SentBy(step)
      else SentBy(step) + PollSent(myColor, NextCounter(last, step), items[1..])
  }

  /** The counter the poll phase starts from: the stream phase's, or -1 without a stream. */
  function PollStart(myColor: string, stream: Option<seq<StreamItem>>): (last: int) {
    if stream.Some? then StreamRun(myColor, -1, stream.value).0 else -1
  }

  /** The counts that reached the turn check over a whole session. */
  function SessionSeen(myColor: string, stream: Option<seq<StreamItem>>, polls: seq<PollItem>): (counts: seq<nat>) {
    (if stream.Some? then StreamSeen(myColor, -1, stream.value) else [])
      + PollSeen(myColor, PollStart(myColor, stream), polls)
  }

  /** The counts successfully submitted at over a whole session, in order. */
  function SessionSent(myColor: string, stream: Option<seq<StreamItem>>, polls: seq<PollItem>): (counts: seq<nat>) {
    (if stream.Some? then StreamSent(myColor, -1, stream.value) else [])
      + PollSent(myColor, PollStart(myColor, stream), polls)
  }

  /** One step, of either phase, keeps the counter and the histories consistent. */
  lemma StepConsistent(last: int, sent: seq<nat>, seen: seq<nat>, step: Step)
    requires Consistent(last, sent, seen)
    requires step.Handled? && step.fate.Sent? ==> last != step.count
    ensures Consistent(NextCounter(last, step), sent + SentBy(step), seen + SeenBy(step))
  {
    if step.Handled? {
      TurnCheckKeepsConsistent(last, sent, seen, step.count, step.fate.Sent?);
    } else {
      assert sent + SentBy(step) == sent && seen + SeenBy(step) == seen;
    }
  }

  /** A step submits only at a count other than the counter it started from. */
  lemma SentAtNewCount(myColor: string, last: int, count: nat, engine: EngineReply, submit: Submission)
    ensures Attempt(myColor, last, count, engine, submit).Sent? ==> last != count
  {
  }

  /** One streamed item, then the rest: how `StreamRun`, `StreamSeen` and `StreamSent` unfold. */
  lemma StreamUnfold(myColor: string, last: int, items: seq<StreamItem>)
    requires items != []
    ensures var step := StreamStepOf(myColor, last, items[0].payload, items[0].engine, items[0].submit);
      && (step.Handled? && step.fate.Sent? ==> last != step.count)
      && (step.Over? ==> StreamSeen(myColor, last, items) == [] && StreamSent(myColor, last, items) == []
                         && StreamRun(myColor, last, items).0 == last)
      && (!step.Over? ==>
            && StreamRun(myColor, last, items) == StreamRun(myColor, NextCounter(last, step), items[1..])
            && StreamSeen(myColor, last, items) == SeenBy(step) + StreamSeen(myColor, NextCounter(last, step), items[1..])
            && StreamSent(myColor, last, items) == SentBy(step) + StreamSent(myColor, NextCounter(last, step), items[1..]))
  {
    var step := StreamStepOf(myColor, last, items[0].payload, items[0].engine, items[0].submit);
    if step.Handled? {
      SentAtNewCount(myColor, last, step.count, items[0].engine, items[0].submit);
    }
  }

  /** One fetch, then the rest: how `PollRun`, `PollSeen` and `PollSent` unfold. */
  lemma PollUnfold(myColor: string, last: int, items: seq<PollItem>)
    requires items != []
    ensures var step := PollStepOf(myColor, last, items[0].fetch, items[0].engine, items[0].submit);
      && (step.Handled? && step.fate.Sent? ==> last != step.count)
      && (step.Over? || step.FetchFailed? ==> PollSeen(myColor, last, items) == [] && PollSent(myColor, last, items) == []
                                              && PollRun(myColor, last, items).0 == last)
      && (!(step.Over? || step.FetchFailed?) && Escapes(step) ==>
            && PollSeen(myColor, last, items) == SeenBy(step) && PollSent(myColor, last, items) == SentBy(step)
            && PollRun(myColor, last, items).0 == NextCounter(last, step))
      && (!(step.Over? || step.FetchFailed? || Escapes(step)) ==>
            && PollRun(myColor, last, items) == PollRun(myColor, NextCounter(last, step), items[1..])
            && PollSeen(myColor, last, items) == SeenBy(step) + PollSeen(myColor, NextCounter(last, step), items[1..])
            && PollSent(myColor, last, items) == SentBy(step) + PollSent(myColor, NextCounter(last, step), items[1..]))
  {
    var step := PollStepOf(myColor, last, items[0].fetch, items[0].engine, items[0].submit);
    if step.Handled? {
      SentAtNewCount(myColor, last, step.count, items[0].engine, items[0].submit);
    }
  }

  /** The stream phase keeps the counter equal to the last submitted count, and the histories consistent. */
  lemma {:induction false} StreamRunConsistent(myColor: string, last: int, sent: seq<nat>, seen: seq<nat>, items: seq<StreamItem>)
    requires Consistent(last, sent, seen)
    ensures Consistent(StreamRun(myColor, last, items).0,
                       sent + StreamSent(myColor, last, items), seen + StreamSeen(myColor, last, items))
    decreases |items|
  {
    if items == [] {
      assert sent + [] == sent && seen + [] == seen;
    } else {
      StreamUnfold(myColor, last, items);
      var step := StreamStepOf(myColor, last, items[0].payload, items[0].engine, items[0].submit);
      if step.Over? {
        assert sent + [] == sent && seen + [] == seen;
      } else {
        var next := NextCounter(last, step);
        var sent', seen' := sent + SentBy(step), seen + SeenBy(step);
        StepConsistent(last, sent, seen, step);
        StreamRunConsistent(myColor, next, sent', seen', items[1..]);
        ConcatAssoc(sent, SentBy(step), StreamSent(myColor, next, items[1..]));
        ConcatAssoc(seen, SeenBy(step), StreamSeen(myColor, next, items[1..]));
      }
    }
  }

  /** The same for the poll phase, however it stops. */
  lemma {:induction false} PollRunConsistent(myColor: string, last: int, sent: seq<nat>, seen: seq<nat>, items: seq<PollItem>)
    requires Consistent(last, sent, seen)
    ensures Consistent(PollRun(myColor, last, items).0,
                       sent + PollSent(myColor, last, items), seen + PollSeen(myColor, last, items))
    decreases |items|
  {
    if items == [] {
      assert sent + [] == sent && seen + [] == seen;
    } else {
      PollUnfold(myColor, last, items);
      var step := PollStepOf(myColor, last, items[0].fetch, items[0].engine, items[0].submit);
      if step.Over? || step.FetchFailed? {
        assert sent + [] == sent && seen + [] == seen;
      } else if Escapes(step) {
        StepConsistent(last, sent, seen, step);
      } else {
        var next := NextCounter(last, step);
        var sent', seen' := sent + SentBy(step), seen + SeenBy(step);
        StepConsistent(last, sent, seen, step);
        PollRunConsistent(myColor, next, sent', seen', items[1..]);
        assert PollSent(myColor, last, items) == SentBy(step) + PollSent(myColor, next, items[1..]);
        assert PollSeen(myColor, last, items) == SeenBy(step) + PollSeen(myColor, next, items[1..]);
        ConcatAssoc(sent, SentBy(step), PollSent(myColor, next, items[1..]));
        ConcatAssoc(seen, SeenBy(step), PollSeen(myColor, next, items[1..]));
      }
    }
  }

  /**
   * Over a whole session: the final counter is the last count submitted at
   * (-1 when nothing was submitted), no two successive submissions share a
   * count, and while the delivered counts never go down no count is
   * submitted at twice.
   */
  lemma SessionSubmitsOncePerCount(myColor: string, stream: Option<seq<StreamItem>>, polls: seq<PollItem>)
    ensures var sent := SessionSent(myColor, stream, polls);
      && PollRun(myColor, PollStart(myColor, stream), polls).0 == (if sent == [] then -1 else sent[|sent| - 1])
      && NoAdjacentRepeat(sent)
      && (NonDecreasing(SessionSeen(myColor, stream, polls)) ==> Distinct(sent))
  {
    var start := PollStart(myColor, stream);
    var streamSent: seq<nat> := if stream.Some? then StreamSent(myColor, -1, stream.value) else [];
    var streamSeen: seq<nat> := if stream.Some? then StreamSeen(myColor, -1, stream.value) else [];
    assert Consistent(start, streamSent, streamSeen) by {
      if stream.Some? {
        StreamRunConsistent(myColor, -1, [], [], stream.value);
        assert [] + streamSent == streamSent && [] + streamSeen == streamSeen;
      }
    }
    PollRunConsistent(myColor, start, streamSent, streamSeen, polls);
    var sent := SessionSent(myColor, stream, polls);
    var seen := SessionSeen(myColor, stream, polls);
    assert sent == streamSent + PollSent(myColor, start, polls);
    assert seen == streamSeen + PollSeen(myColor, start, polls);
    assert Consistent(PollRun(myColor, start, polls).0, sent, seen);
    if NonDecreasing(seen) {
      IncreasingDistinct(sent);
    }
  }


  /** The state of one game's handler. */
  class GameHandler {
    const gameId: string
    const myColor: string
    /** `last_processed_moves_count`: -1 until the first successful submission. */
    var lastProcessed: int
    /** The move counts of the successful submissions so far, in order. */
    ghost var sent: seq<nat>
    /** The move counts of the snapshots that reached the turn check, in order. */
    ghost var seen: seq<nat>

    ghost predicate Valid()
      reads this
    {
      Consistent(lastProcessed, sent, seen)
    }

    /** bot.py:53: a handler starts with the counter at -1. */
    constructor (gameId: string, myColor: string)
      ensures Valid()
      ensures this.gameId == gameId && this.myColor == myColor
      ensures lastProcessed == -1 && sent == [] && seen == []
    {
      this.gameId := gameId;
      this.myColor := myColor;
      lastProcessed := -1;
      sent := [];
      seen := [];
    }

    /** The dispatch block for a snapshot with `count` moves. */
    method TryMove(count: nat, engine: EngineReply, submit: Submission) returns (fate: Fate)
      requires Valid()
      modifies this
      ensures Valid()
      ensures fate == Attempt(myColor, old(lastProcessed), count, engine, submit)
      ensures lastProcessed == (if fate.Sent? then count else old(lastProcessed))
      ensures seen == old(seen) + [count]
      ensures sent == old(sent) + (if fate.Sent? then [count] else [])
    {
      TurnCheckKeepsConsistent(lastProcessed, sent, seen, count, ShouldAct(myColor, lastProcessed, count)
        && engine.Chose? && HasMove(engine.move) && submit == Accepted);
      seen := seen + [count];
      fate := Waited;
      if SideToMove(count) == myColor && lastProcessed != count {
        match engine {
          case EngineRaised =>
            fate := Raised;
          case Chose(move) =>
            if move.Some? && move.value != "" {
              match submit {
                case Accepted =>
                  // the counter moves only once make_move has returned normally
                  lastProcessed := count;
                  sent := sent + [count];
                  fate := Sent(move.value);
                case ResponseError =>
                  fate := Rejected(move.value);
                case OtherError =>
                  fate := Raised;
              }
            } else {
              fate := NoMove;
            }
        }
      }
    }

    /** One payload from the game-state stream. */
    method StreamStep(p: Json, engine: EngineReply, submit: Submission) returns (step: Step)
      requires Valid()
      modifies this
      ensures Valid()
      ensures step == StreamStepOf(myColor, old(lastProcessed), p, engine, submit)
      ensures lastProcessed == NextCounter(old(lastProcessed), step)
      ensures seen == old(seen) + SeenBy(step) && sent == old(sent) + SentBy(step)
    {
      var moves := MoveList(ParseMoves(p));
      if moves.None? {
        return Unreadable;
      }
      if GameOver(StreamStatus(p)) {
        return Over;
      }
      var fate := TryMove(|moves.value|, engine, submit);
      step := Handled(|moves.value|, fate);
    }

    /** One round of the poll loop. */
    method PollStep(fetch: Fetch, engine: EngineReply, submit: Submission) returns (step: Step)
      requires Valid()
      modifies this
      ensures Valid()
      ensures step == PollStepOf(myColor, old(lastProcessed), fetch, engine, submit)
      ensures lastProcessed == NextCounter(old(lastProcessed), step)
      ensures seen == old(seen) + SeenBy(step) && sent == old(sent) + SentBy(step)
    {
      match fetch {
        case ExportResponseError =>
          return FetchFailed;
        case ExportRaised =>
          return Unreadable;
        case Exported(g) =>
          if !g.JObj? {
            return Unreadable;
          }
          if GameOver(Get(g.fields, "status")) {
            return Over;
          }
          var moves := MoveList(MovesField(g.fields));
          if moves.None? {
            return Unreadable;
          }
          var fate := TryMove(|moves.value|, engine, submit);
          step := Handled(|moves.value|, fate);
      }
    }

    /**
     * The `for state in stream` loop: a per-item exception is logged and the
     * loop goes on; a finished game breaks out of it.
     */
    method StreamPhase(items: seq<StreamItem>) returns (ended: bool)
      requires Valid()
      modifies this
      ensures Valid()
      ensures (lastProcessed, ended) == StreamRun(myColor, old(lastProcessed), items)
      ensures seen == old(seen) + StreamSeen(myColor, old(lastProcessed), items)
      ensures sent == old(sent) + StreamSent(myColor, old(lastProcessed), items)
    {
      ended := false;
      var i := 0;
      while i < |items|
        invariant 0 <= i <= |items|
        invariant Valid()
        invariant StreamRun(myColor, lastProcessed, items[i..]) == StreamRun(myColor, old(lastProcessed), items)
        invariant seen + StreamSeen(myColor, lastProcessed, items[i..]) == old(seen) + StreamSeen(myColor, old(lastProcessed), items)
        invariant sent + StreamSent(myColor, lastProcessed, items[i..]) == old(sent) + StreamSent(myColor, old(lastProcessed), items)
      {
        ghost var last, seen0, sent0 := lastProcessed, seen, sent;
        var step := StreamStep(items[i].payload, items[i].engine, items[i].submit);
        assert items[i..][0] == items[i] && items[i..][1..] == items[i + 1..];
        StreamUnfold(myColor, last, items[i..]);
        if step.Over? {
          ended := true;
          break;
        }
        ConcatAssoc(seen0, SeenBy(step), StreamSeen(myColor, lastProcessed, items[i + 1..]));
        ConcatAssoc(sent0, SentBy(step), StreamSent(myColor, lastProcessed, items[i + 1..]));
        i := i + 1;
      }
    }

    /**
     * The `while True` poll loop: it stops on a finished game, on a failed
     * export and on any exception, which the handler's outer `try` catches.
     */
    method PollPhase(items: seq<PollItem>) returns (end: PollEnd)
      requires Valid()
      modifies this
      ensures Valid()
      ensures (lastProcessed, end) == PollRun(myColor, old(lastProcessed), items)
      ensures seen == old(seen) + PollSeen(myColor, old(lastProcessed), items)
      ensures sent == old(sent) + PollSent(myColor, old(lastProcessed), items)
    {
      end := StillPolling;
      var i := 0;
      while i < |items|
        invariant 0 <= i <= |items|
        invariant Valid()
        invariant PollRun(myColor, lastProcessed, items[i..]) == PollRun(myColor, old(lastProcessed), items)
        invariant end == StillPolling
        invariant seen + PollSeen(myColor, lastProcessed, items[i..]) == old(seen) + PollSeen(myColor, old(lastProcessed), items)
        invariant sent + PollSent(myColor, lastProcessed, items[i..]) == old(sent) + PollSent(myColor, old(lastProcessed), items)
      {
        ghost var last, seen0, sent0 := lastProcessed, seen, sent;
        var step := PollStep(items[i].fetch, items[i].engine, items[i].submit);
        assert items[i..][0] == items[i] && items[i..][1..] == items[i + 1..];
        PollUnfold(myColor, last, items[i..]);
        if step.Over? {
          end := Ended;
          break;
        } else if step.FetchFailed? {
          end := ExportFailed;
          break;
        } else if Escapes(step) {
          end := Crashed;
          break;
        }
        ConcatAssoc(seen0, SeenBy(step), PollSeen(myColor, lastProcessed, items[i + 1..]));
        ConcatAssoc(sent0, SentBy(step), PollSent(myColor, lastProcessed, items[i + 1..]));
        i := i + 1;
      }
    }
  }

  /**
   * `handle_game`: the stream phase when the stream could be opened, then
   * the poll phase however the stream phase ended, on the same counter.
   */
  method HandleGame(gameId: string, myColor: string, stream: Option<seq<StreamItem>>, polls: seq<PollItem>)
    returns (h: GameHandler, end: PollEnd)
    ensures fresh(h) && h.Valid() && h.gameId == gameId && h.myColor == myColor
    ensures (h.lastProcessed, end) == PollRun(myColor, PollStart(myColor, stream), polls)
    ensures h.seen == SessionSeen(myColor, stream, polls) && h.sent == SessionSent(myColor, stream, polls)
    ensures NoAdjacentRepeat(h.sent)
    ensures NonDecreasing(h.seen) ==> Distinct(h.sent)
  {
    h := new GameHandler(gameId, myColor);
    ghost var streamSeen: seq<nat>, streamSent: seq<nat> := [], [];
    if stream.Some? {
      var _ := h.StreamPhase(stream.value);
      streamSeen, streamSent := StreamSeen(myColor, -1, stream.value), StreamSent(myColor, -1, stream.value);
      assert [] + streamSeen == streamSeen && [] + streamSent == streamSent;
    }
    assert h.lastProcessed == PollStart(myColor, stream);
    assert h.seen == streamSeen && h.sent == streamSent;
    end := h.PollPhase(polls);
    assert h.seen == SessionSeen(myColor, stream, polls) && h.sent == SessionSent(myColor, stream, polls);
    if NonDecreasing(h.seen) {
      IncreasingDistinct(h.sent);
    }
  }

  // ---------------------------------------------------------------------
  // Properties of the turn check and the counter

  /** A submission happens exactly when it is our turn, the count is new, the engine gives a move and make_move succeeds. */
  lemma SentExactlyWhen(myColor: string, last: int, count: nat, engine: EngineReply, submit: Submission)
    ensures Attempt(myColor, last, count, engine, submit).Sent? <==>
      && SideToMove(count) == myColor && last != count
      && engine.Chose? && HasMove(engine.move) && submit == Accepted
  {
  }

  /** Off turn, or at the handled count, neither the engine nor make_move is used. */
  lemma WaitingIgnoresCollaborators(myColor: string, last: int, count: nat,
                                    e1: EngineReply, s1: Submission, e2: EngineReply, s2: Submission)
    requires !ShouldAct(myColor, last, count)
    ensures Attempt(myColor, last, count, e1, s1) == Attempt(myColor, last, count, e2, s2) == Waited
  {
  }

  /** The counter takes the snapshot's count after a successful submission and is unchanged by every other step. */
  lemma CounterUpdate(last: int, step: Step)
    ensures NextCounter(last, step) != last ==> step.Handled? && step.fate.Sent? && NextCounter(last, step) == step.count
    ensures step.Handled? && step.fate.Sent? ==> NextCounter(last, step) == step.count
  {
  }

  /** A streamed snapshot that was submitted, delivered again, submits nothing, whatever the collaborators say. */
  lemma StreamRedeliveryIdle(myColor: string, last: int, p: Json,
                             e: EngineReply, s: Submission, e2: EngineReply, s2: Submission)
    requires StreamStepOf(myColor, last, p, e, s).Handled?
    requires StreamStepOf(myColor, last, p, e, s).fate.Sent?
    ensures var step := StreamStepOf(myColor, last, p, e, s);
      StreamStepOf(myColor, NextCounter(last, step), p, e2, s2) == Handled(step.count, Waited)
  {
  }

  /** The same for a fetched snapshot. */
  lemma PollRedeliveryIdle(myColor: string, last: int, f: Fetch,
                           e: EngineReply, s: Submission, e2: EngineReply, s2: Submission)
    requires PollStepOf(myColor, last, f, e, s).Handled?
    requires PollStepOf(myColor, last, f, e, s).fate.Sent?
    ensures var step := PollStepOf(myColor, last, f, e, s);
      PollStepOf(myColor, NextCounter(last, step), f, e2, s2) == Handled(step.count, Waited)
  {
  }

  /**
   * A rejected submission (ResponseError) leaves the count unhandled: the
   * same snapshot, delivered again, asks the engine and submits again.
   */
  lemma RejectedIsRetried(myColor: string, last: int, p: Json, e: EngineReply, s: Submission)
    requires StreamStepOf(myColor, last, p, e, s).Handled?
    requires StreamStepOf(myColor, last, p, e, s).fate.Rejected?
    ensures var step := StreamStepOf(myColor, last, p, e, s);
      && NextCounter(last, step) == last
      && StreamStepOf(myColor, last, p, e, Accepted) == Handled(step.count, Sent(step.fate.move))
  {
  }

  /** A finished game stops the stream phase before the engine or make_move are involved. */
  lemma StreamGameOverShortCircuit(myColor: string, last: int, p: Json,
                                   e1: EngineReply, s1: Submission, e2: EngineReply, s2: Submission)
    requires MoveList(ParseMoves(p)).Some? && GameOver(StreamStatus(p))
    ensures StreamStepOf(myColor, last, p, e1, s1) == StreamStepOf(myColor, last, p, e2, s2) == Over
  {
  }

  /** In the poll phase a finished game stops the loop even before the moves are read. */
  lemma PollGameOverShortCircuit(myColor: string, last: int, d: map<string, Json>,
                                 e1: EngineReply, s1: Submission, e2: EngineReply, s2: Submission)
    requires GameOver(Get(d, "status"))
    ensures PollStepOf(myColor, last, Exported(JObj(d)), e1, s1) == PollStepOf(myColor, last, Exported(JObj(d)), e2, s2) == Over
  {
  }

  /** For a flat dict with readable moves, a streamed and a fetched snapshot are processed alike. */
  lemma FlatPayloadSameInBothPhases(myColor: string, last: int, d: map<string, Json>, e: EngineReply, s: Submission)
    requires NestedState(d).None?
    requires MoveList(MovesField(d)).Some?
    ensures StreamStepOf(myColor, last, JObj(d), e, s) == PollStepOf(myColor, last, Exported(JObj(d)), e, s)
  {
    GameFullBranchRedundant(JObj(d));
    assert ParseMoves(JObj(d)) == MovesField(d);
  }

  /**
   * The two phases check moves and status in opposite orders: a finished
   * game whose `moves` is not a string ends the poll loop but is an item
   * error in the stream loop.
   */
  lemma PhasesOrderChecksDifferently(myColor: string, last: int, e: EngineReply, s: Submission)
    ensures var d := map["moves" := JInt(1), "status" := JStr("mate")];
      && StreamStepOf(myColor, last, JObj(d), e, s) == Unreadable
      && PollStepOf(myColor, last, Exported(JObj(d)), e, s) == Over
  {
    var d := map["moves" := JInt(1), "status" := JStr("mate")];
    assert "moves" in d && d["moves"] == JInt(1);
    assert ParseMoves(JObj(d)) == JInt(1);
    assert Get(d, "status") == JStr("mate");
  }

  /** The opening snapshot, with no move played. */
  lemma OpeningSteps()
    ensures var start := JObj(map["moves" := JStr("")]);
      && StreamStepOf("white", -1, start, Chose(Some("e2e4")), Accepted) == Handled(0, Sent("e2e4"))
      && StreamStepOf("white", 0, start, Chose(Some("e2e4")), Accepted) == Handled(0, Waited)
  {
    var start := JObj(map["moves" := JStr("")]);
    assert ParseMoves(start) == JStr("") && MoveList(ParseMoves(start)) == Some([]);
    assert StreamStatus(start) == JNull;
    assert SideToMove(0) == "white";
  }

  /**
   * The counter remembers only the last submission: the opening snapshot,
   * delivered late after the count-2 submission, is submitted at again.
   */
  lemma StaleSnapshotResent()
    ensures var start := JObj(map["moves" := JStr("")]);
      && StreamStepOf("white", -1, start, Chose(Some("e2e4")), Accepted) == Handled(0, Sent("e2e4"))
      && StreamStepOf("white", 2, start, Chose(Some("e2e4")), Accepted) == Handled(0, Sent("e2e4"))
  {
    var start := JObj(map["moves" := JStr("")]);
    assert ParseMoves(start) == JStr("") && MoveList(ParseMoves(start)) == Some([]);
    assert StreamStatus(start) == JNull;
    assert SideToMove(0) == "white";
  }

  lemma SplitOneMove()
    ensures Split("e2e4") == ["e2e4"]
  {
    assert !IsSpace('e') && !IsSpace('2') && !IsSpace('4');
    assert Word("4") == "4" by { assert "4"[1..] == ""; }
    assert Word("e4") == "e4" by { assert "e4"[1..] == "4"; }
    assert Word("2e4") == "2e4" by { assert "2e4"[1..] == "e4"; }
    assert Word("e2e4") == "e2e4" by { assert "e2e4"[1..] == "2e4"; }
    assert "e2e4"[4..] == "";
  }

  /** The raw string "e2e4": one move played, black to move. */
  lemma OneMoveSteps()
    ensures StreamStepOf("black", -1, JStr("e2e4"), Chose(Some("e7e5")), ResponseError) == Handled(1, Rejected("e7e5"))
    ensures StreamStepOf("black", -1, JStr("e2e4"), Chose(Some("e7e5")), Accepted) == Handled(1, Sent("e7e5"))
  {
    SplitOneMove();
    assert MoveList(ParseMoves(JStr("e2e4"))) == Some(["e2e4"]) && StreamStatus(JStr("e2e4")) == JNull;
    assert SideToMove(1) == "black" && ShouldAct("black", -1, 1);
  }

  lemma FetchedOneMove()
    ensures var fetched := map["moves" := JStr("e2e4"), "status" := JStr("started")];
      PollStepOf("black", 1, Exported(JObj(fetched)), Chose(Some("e7e5")), Accepted) == Handled(1, Waited)
  {
    var fetched := map["moves" := JStr("e2e4"), "status" := JStr("started")];
    assert "moves" != "status" by { assert "moves"[0] != "status"[0]; }
    assert Get(fetched, "status") == JStr("started");
    assert MovesField(fetched) == JStr("e2e4");
    SplitOneMove();
  }
}
