# Turn dispatch of a game bot, and two array exercises, in Dafny

This project models three sequential pieces of one repository.

- `bot.py` runs one handler per game. It reads the game state from a stream,
  then from a poll loop. Each snapshot is turned into a move count and a
  status. The handler picks the side to move from the parity of the count. It
  submits at most one engine move per move count, using the counter
  `last_processed_moves_count`.
- `answer_question_1_with_c_language.h` averages a list after removing every
  occurrence of its minimum and of its maximum.
- `answer_question_2_with_c_language.h` computes the best profit of one
  purchase followed by one later sale.

## Layout

- `wrappers.dfy` (`Wrappers`): `Option`.
- `payload.dfy` (`Payload`): the decoded-JSON value `Json` a payload can
  be. It writes out Python's truthiness, `dict.get` and `str.split()`. The
  separator set of `str.split()` is Python's whitespace set.
- `normalize.dfy` (`Normalize`): `_parse_moves_from_state`, the status
  extraction, the end-of-game test, the parity rule and the turn guard, all
  as functions. Lemmas state the precedence of the payload shapes.
- `handler.dfy` (`Handler`): the dispatch block and one step per snapshot,
  first as functions (`Attempt`, `StreamStepOf`, `PollStepOf`), then run by
  the class `GameHandler`. The class holds the counter `lastProcessed`. Its
  methods `TryMove`, `StreamStep`, `PollStep`, `StreamPhase` and `PollPhase`
  are proved against those functions. `HandleGame` runs the stream phase,
  then the poll phase, on one counter. Two ghost histories record the counts
  that reached the turn check (`seen`) and the counts submitted successfully
  (`sent`). The loop methods fix them exactly: at the end they are
  `SessionSeen` and `SessionSent`, pure functions of the inputs. The class
  invariant says no two successive submissions share a count. It also says
  that while the delivered counts never go down, the submitted counts
  strictly go up, so none is submitted twice. `SessionSubmitsOncePerCount`
  proves the same about the pure functions directly.
- `sequences.dfy` (`Sequences`): `Min`, `Max`, `Sum`.
- `trimmed_mean.dfy` (`TrimmedMean`): the two scans of question 1 and its
  closing branch, as methods on an `array<int>`.
- `max_profit.dfy` (`MaxProfit`): the running-minimum scan of question 2, as
  a method on an `array<int>`.

## Inputs standing for collaborators

- The engine's reply for each snapshot is an input. It is
  `Chose(Option<string>)` or `EngineRaised`. `None` and `""` both count as
  "no move", as with Python's `if move:`.
- The outcome of `make_move` for each snapshot is an input: `Accepted`,
  `ResponseError` or `OtherError`.
- The stream is `None` when it could not be opened. Otherwise it is the
  finite sequence of items it delivered before it ended or broke. Both kinds
  of end lead to the poll phase.
- Each round of the poll loop is one `Fetch` input: the exported game,
  `ExportResponseError` or `ExportRaised`.

## Behaviour worth knowing (the model follows the code)

- A submission that raises `ResponseError` does not set the counter (bot.py:95-98).
  The same snapshot delivered again is tried again (`Handler.RejectedIsRetried`).
- When a streamed payload has a dict `state`, its status comes only from that
  dict, with no fallback to the top-level `status` (bot.py:75-78).
- A finished game in the stream phase only leaves the `for` loop
  (bot.py:80-82). The poll phase runs afterwards anyhow (bot.py:110).
- The stream phase splits the moves before it looks at the status. The poll
  phase looks at the status first. The same payload can therefore end one
  loop and be an item error in the other (`Handler.PhasesOrderChecksDifferently`).
- In the poll phase, an exception other than a failed export leaves the loop
  and ends the handler (bot.py:141-142). This covers a non-dict export, a
  non-string `moves`, an engine failure and a non-`ResponseError` submission
  failure. In the stream phase the same exceptions are logged and the loop
  continues (bot.py:102-104).
- The counter remembers only the last submitted count. "Once per count"
  therefore holds between successive submissions. It holds globally only
  while delivered counts never decrease (`Handler.HandleGame`).

## Model

| member | source | states |
|---|---|---|
| `Payload.Split` | bot.py:68 | `str.split()` yields only non-empty, separator-free pieces, at most one per character |
| `Payload.SplitToken` | bot.py:68 | a string without separators splits into exactly itself |
| `Payload.SplitAtSpace` | bot.py:68 | any separator cuts a string into two parts that split independently; with `SplitToken` this fixes the split of every string, with leading, trailing and repeated separators |
| `Payload.SplitJoin` | bot.py:68-69 | splitting a space-joined list of moves gives back exactly that list, so the move count is the number of moves |
| `Normalize.SideToMove` | bot.py:85 | white moves exactly when the count is even, black exactly when it is odd |
| `Normalize.SidesAlternate` | bot.py:85 | consecutive counts have different sides to move |
| `Normalize.DirectMovesWin` | bot.py:32-33 | a top-level `moves` key decides the result, even when a nested `state` dict is present; a falsy value gives `""` |
| `Normalize.NestedMovesNext` | bot.py:35-36 | without a top-level `moves`, a nested `state` dict supplies the moves |
| `Normalize.NoMovesSourceGivesEmpty` | bot.py:38-41 | a dict with neither source of moves yields `""` |
| `Normalize.GameFullBranchRedundant` | bot.py:35-39 | removing the `gameFull` branch changes no result |
| `Normalize.NonDictPayloads` | bot.py:27-28 | a falsy payload gives `""`, a non-empty string is returned unchanged, any other non-dict gives `""` (also lines 42-44) |
| `Normalize.ParsedValueOrigin` | bot.py:22-44 | the result is `""`, the raw string itself, the top-level `moves`, or the nested `state`'s `moves` |
| `Normalize.NestedStatusOnly` | bot.py:75-76 | with a dict `state`, the status is read only from the nested dict |
| `Normalize.TopLevelStatusOtherwise` | bot.py:77-78 | without a dict `state`, the status is the top-level `status` |
| `Normalize.NonDictHasNoStatus` | bot.py:72-73 | a non-dict payload has no status and never ends the game |
| `Normalize.GameOverCases` | bot.py:80 | a missing, empty or `"started"` status continues; any other non-empty string status stops |
| `Normalize.MoveCountOfJoinedList` | bot.py:67-69 | a payload whose `moves` is the space-joined list of k moves yields exactly those k moves, k = 0 (the opening position) included |
| `Normalize.ShapesAgree` | bot.py:30-39 | flat, nested and `gameFull` payloads with the same moves and status give the same moves and status |
| `Handler.SentExactlyWhen` | bot.py:88-95 | a submission succeeds exactly when it is our side's turn, the count differs from the counter, the engine gives a move and `make_move` returns |
| `Handler.WaitingIgnoresCollaborators` | bot.py:88 | off turn, or at the handled count, the outcome does not depend on the engine or on `make_move` |
| `Handler.CounterUpdate` | bot.py:95 | the counter changes only on a successful submission, and then becomes the snapshot's count |
| `Handler.StreamRedeliveryIdle` | bot.py:88-95 | a streamed snapshot that was submitted, delivered again right after (before any other submission), submits nothing, whatever the collaborators answer |
| `Handler.PollRedeliveryIdle` | bot.py:129-135 | a fetched snapshot that was submitted, fetched again right after (before any other submission), submits nothing, whatever the collaborators answer |
| `Handler.RejectedIsRetried` | bot.py:92-98 | after `ResponseError` the counter is unchanged, and the same snapshot is eligible again |
| `Handler.StreamGameOverShortCircuit` | bot.py:80-82 | a readable payload with a finished status ends the stream phase, whatever the engine and `make_move` would answer |
| `Handler.PollGameOverShortCircuit` | bot.py:118-121 | a fetched game with a finished status ends the poll loop before the moves are read |
| `Handler.FlatPayloadSameInBothPhases` | bot.py:64-139 | a flat dict with readable moves is processed identically by a stream step and a poll step |
| `Handler.PhasesOrderChecksDifferently` | bot.py:67-82 | a finished game whose `moves` is not a string is an item error in the stream phase and ends the poll loop (also lines 118-125) |
| `Handler.IncreasingDistinct` | bot.py:88 | an increasing history of submitted counts holds no count twice |
| `Handler.SentAtNewCount` | bot.py:88 | a submission only happens at a count other than the counter |
| `Handler.StepConsistent` | bot.py:88-95 | one step of either loop keeps the counter equal to the last submitted count, and keeps the history invariant |
| `Handler.StreamRunConsistent` | bot.py:64-104 | over any sequence of streamed items, the final counter is the last count in `StreamSent`, and the histories stay consistent |
| `Handler.PollRunConsistent` | bot.py:111-140 | the same over any sequence of fetches, whichever way the poll loop stops |
| `Handler.SessionSubmitsOncePerCount` | bot.py:53-142 | over a whole session (stream then poll), the final counter is the last count submitted at (-1 if none); no two successive submissions share a count; with non-decreasing delivered counts no count is submitted at twice |
| `Handler.TurnCheckKeepsConsistent` | bot.py:88-95 | one turn check that submits only at a count other than the counter keeps the counter equal to the last submitted count, and keeps the history invariant |
| `Handler.GameHandler.constructor` | bot.py:53 | a handler starts with the counter at -1 and empty histories |
| `Handler.GameHandler.TryMove` | bot.py:88-100 | the dispatch block gives `Attempt`'s outcome; the counter and `sent` change only on success; the invariant is kept |
| `Handler.GameHandler.StreamStep` | bot.py:65-104 | one streamed payload gives `StreamStepOf`'s outcome, with the matching counter and history updates |
| `Handler.GameHandler.PollStep` | bot.py:112-139 | one export round gives `PollStepOf`'s outcome, with the matching counter and history updates |
| `Handler.GameHandler.StreamPhase` | bot.py:61-108 | the stream loop ends with `StreamRun`'s counter, stopping early only on a finished game; it appends exactly `StreamSeen` to the counts checked and `StreamSent` to the counts submitted |
| `Handler.GameHandler.PollPhase` | bot.py:110-142 | the poll loop ends with `PollRun`'s counter and reason for stopping; it appends exactly `PollSeen` and `PollSent` to the two histories |
| `Handler.HandleGame` | bot.py:47-144 | the poll phase always runs, starting from the stream phase's counter (-1 without a stream); the handler's histories are exactly `SessionSeen` and `SessionSent` of the inputs; successive submissions never share a count, and with non-decreasing deliveries no count is submitted twice |
| `Handler.OpeningSteps` | bot.py:85-95 | with no move played, white submits and the counter becomes 0; a second delivery submits nothing |
| `Handler.OneMoveSteps` | bot.py:88-98 | after one move black is to move; a `ResponseError` is reported as rejected, and a later success as sent |
| `Handler.StaleSnapshotResent` | bot.py:88-95 | the counter holds only the last submission: an opening snapshot delivered late, after a submission at count 2, is submitted at again |
| `Handler.FetchedOneMove` | bot.py:118-135 | a fetched game at the count the counter already holds submits nothing |
| `TrimmedMean.Kept` | answer_question_1_with_c_language.h:24-30 | what is kept is no longer than the list and holds neither bound |
| `TrimmedMean.MinMax` | answer_question_1_with_c_language.h:17-21 | the two results bound every element; for a non-empty list they are its minimum and maximum (so they occur in it); for an empty list they stay `INT_MAX` and `INT_MIN` |
| `TrimmedMean.SumExcluding` | answer_question_1_with_c_language.h:24-30 | `count` is the number of elements equal to neither bound, and `sum` is their sum |
| `TrimmedMean.TrimmedAverage` | answer_question_1_with_c_language.h:17-36 | the error is reported exactly when nothing is left (always for an empty list); otherwise the reported sum and count are those of the trimmed list |
| `TrimmedMean.KeptOccurrences` | answer_question_1_with_c_language.h:26 | every occurrence of either bound is removed, and every other value keeps all its occurrences |
| `TrimmedMean.KeptEmptyIff` | answer_question_1_with_c_language.h:26-33 | nothing is kept exactly when every element equals one of the bounds |
| `TrimmedMean.KeptLength` | answer_question_1_with_c_language.h:24-30 | for distinct bounds, the kept count plus the occurrences of both bounds is the length |
| `TrimmedMean.TrimmedBound` | answer_question_1_with_c_language.h:24-30 | with a distinct minimum and maximum, at most n - 2 elements remain |
| `TrimmedMean.AllEqualLeavesNothing` | answer_question_1_with_c_language.h:33-36 | a list of equal elements takes the error branch |
| `TrimmedMean.NothingLeftIff` | answer_question_1_with_c_language.h:33-36 | the error branch is taken exactly when every element is the minimum or the maximum |
| `MaxProfit.BestProfit` | answer_question_2_with_c_language.h:16-27 | the result is never negative, bounds `prices[k] - prices[j]` for every j < k, and is 0 or attained by some j < k |
| `MaxProfit.BestProfitUnique` | answer_question_2_with_c_language.h:19-27 | the best profit is unique |
| `MaxProfit.SingleDayZero` | answer_question_2_with_c_language.h:16-19 | one day of prices gives profit 0 |
| `MaxProfit.NonIncreasingZero` | answer_question_2_with_c_language.h:19-27 | prices that never rise give profit 0 |

## Left out

- The game-service client is not modelled: the token session, `stream_game_state`,
  `export`, `make_move`, `accept_challenge` and `stream_incoming_events`.
  Their results are inputs.
- `main`'s event loop (bot.py:147-168) and its thread per game are not
  modelled. They are I/O and concurrency around a type switch.
- `time.sleep`, `print`, `traceback` and `config` are left out. They only
  affect timing and logging.
- The engine is not modelled: the reply is an input. bot.py calls
  `get_best_move` without binding that name (it imports only `Engine`). The
  engine module is not part of this model, so an engine that raises is one of
  the inputs.
- The poll loop's `while True` is modelled over a finite sequence of fetch
  results. `StillPolling` means the sequence ran out.
- `Json` numbers are integers. Floating-point payload values are not modelled.
- The colour is a plain string, so a missing colour is any string other than
  `"white"` or `"black"`. Such a handler never moves, as in the code.
- `scanf`, `printf`, the EOF-driven outer loop and the variable-length array
  of both C files are not modelled. Each body is a method on a filled array.
- `TrimmedMean.TrimmedAverage`: reports the integer sum and count, not the
  float quotient printed with `%.2f`.
- `TrimmedMean.SumExcluding`: the sum is an unbounded integer. C `int`
  overflow, which is undefined behaviour, is not modelled.
- `MaxProfit.BestProfit`: differences are unbounded integers, so C `int`
  overflow is not modelled. The method requires at least one price because
  the code reads `prices[0]` unconditionally.
