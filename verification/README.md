# Room state machine of x51-server, in Dafny

This project models the game-room logic of the x51 game server. The model has two layers.

- **The generic room** (`RoomState`, file `room_state.dfy`). It admits players up to
  `maxPlayers` and removes them by socket id. It re-derives `ready` whenever the player
  count equals `minPlayers`. It starts a game only from `ready`. The lifecycle is
  `notReady → ready → inProgress → done`.
- **Tic-tac-toe on top of it** (`XORoomState`, file `xo_room_state.dfy`, with the board in
  `xo_board.dfy`). The board has nine slots `"0-0"` … `"2-2"`. There is a current-turn field.
  The X and O roles go to players in join order. `move` checks status, turn, occupancy
  and role. Win detection scans eight fixed triples, and a full board is a draw.
  `reset` works only from `done`.

Each mutating method of the source becomes a pure function from the room to a
`Step(ok, state)`. `ok` is the boolean the method returns and `state` is the room after the
call. `removePlayer` returns nothing, so its model returns the new room directly. The
random first-turn draw of `start` becomes a parameter `pick`. It takes any value
`Math.floor(Math.random() * n)` can produce: an index of the player list, or 0 when the
list is empty.

`xo_properties.dfy` holds properties of single operations and of whole sequences of operations:
- a consistency invariant that every operation keeps;
- permanence of roles;
- turn passing;
- a move fills exactly one slot;
- the status never returns to `notReady`.

`xo_scenarios.dfy` holds worked games: a refused third joiner, an out-of-turn move, a
top-row win and a nine-move draw. It also holds lemmas that exhibit less obvious
consequences of the code:

- Readiness is re-derived on every join and leave, whatever the status, so it can become
  `ready` more than once. A player who leaves a running or finished game and rejoins puts
  the room back to `ready` (`XOScenarios.RejoinMakesReady`).
- After such a rejoin a finished game keeps its recorded `result` while being `ready`
  (`XOScenarios.ResultOutlivesDone`).
- A draw is recorded as `DRAW` in `result` (`XOScenarios.DrawingMove`).
- Leaving does not move the current-turn field, so it can name a disconnected player
  (`XOScenarios.TurnHolderLeaves`).
- Role assignment in `addPlayer` uses JavaScript truthiness, while `move` compares roles
  strictly. An X role held by the empty socket id counts as unset and passes to the next
  joiner (`XOScenarios.EmptyIdLosesRole`). So roles are permanent only for non-empty ids
  (`XOProperties.RolesPermanent`).
- Admission does not compare socket ids. One connection joining twice holds both roles, so
  `playerX` and `playerO` can be equal (`XOScenarios.SameIdHoldsBothRoles`).

## Model

| member | source | states |
|---|---|---|
| RoomState.NewRoom | src/RoomState.ts:12-21 | a fresh room has no players, is `notReady`, and keeps the given minimum and maximum player counts |
| RoomState.IsReady | src/RoomState.ts:23-29 | reports true exactly when the player count equals `minPlayers`, and then the status is `ready` whatever it was before; otherwise nothing changes |
| RoomState.Start | src/RoomState.ts:39-45 | succeeds exactly from `ready` and then the status is `inProgress`; a refused start changes nothing |
| RoomState.AddPlayer | src/RoomState.ts:31-54 | succeeds exactly when the count is below `maxPlayers`. On success the player is appended after the unchanged earlier players, and the status is `ready` if the new count equals `minPlayers`, else unchanged. A refusal changes nothing |
| RoomState.Without | src/RoomState.ts:56-59 | the kept players are exactly those whose socket id differs from the removed one; nothing is added; an absent id leaves the list as it was |
| RoomState.RemovePlayer | src/RoomState.ts:56-61 | removes exactly the players with that socket id (none if absent): the new list is the order-preserving filter `Without`. The status is then `ready` if the remaining count equals `minPlayers`, else unchanged |
| RoomState.WithoutAppend | src/RoomState.ts:56-59 | removal distributes over concatenation, so the kept players stay in their original order |
| RoomState.WithoutIdempotent | src/RoomState.ts:56-59 | removing the same id twice removes nothing more |
| RoomState.AddThenRemove | src/RoomState.ts:47-61 | a player whose socket id is new joins and then leaves by that id, and the player list is restored |
| RoomState.CapacityPreserved | src/RoomState.ts:31-54 | from a room within capacity, no sequence of joins, leaves and starts exceeds `maxPlayers` |
| RoomState.NeverBackToNotReady | src/RoomState.ts:14-61 | once a room has left `notReady`, no sequence of joins, leaves and starts returns it there |
| XOBoard.FirstWin | src/XORoomState.ts:80-88 | no mark is found exactly when no triple is uniformly X or O; a found mark belongs to a uniform triple with no decided triple before it |
| XOBoard.WinnerIsFirstLine | src/XORoomState.ts:28-39 | the reported winner is `m` if and only if some triple of the fixed list is uniformly `m` and every earlier triple is undecided |
| XOBoard.WinnerNoneIff | src/XORoomState.ts:80-88 | there is no winner exactly when neither mark fills any of the eight triples |
| XOBoard.CountFilled | src/XORoomState.ts:91 | the count of marked slots never exceeds the number of slots counted, and equals it exactly when all of them hold a mark |
| XOBoard.CountNineIffFull | src/XORoomState.ts:91 | the whole-board count reaches nine exactly when every slot holds a mark |
| XOBoard.CountFilledPlace | src/XORoomState.ts:91 | marking one empty slot raises the count by exactly one |
| XOBoard.WinningSlotsAreLines | src/XORoomState.ts:28-39 | each of the eight triples is three distinct slots on one row, one column or one of the two diagonals |
| XOBoard.LinesAreWinningSlots | src/XORoomState.ts:28-39 | conversely, every three distinct slots on one row, column or diagonal lie on one of the eight triples, so no way to win is missed |
| XOBoard.SingleLineWins | src/XORoomState.ts:28-39 | a board holding only one triple filled with `m` has `m` as its winner |
| XOBoard.WinnerNoneUnrolled | src/XORoomState.ts:28-39 | no winner exactly when none of the eight named triples is decided |
| XORoomState.New | src/XORoomState.ts:41-56 | a fresh room takes exactly two players, has no players, is `notReady`, has an empty board and no result, roles or turn |
| XORoomState.AddPlayer | src/XORoomState.ts:58-67 | admission as in the generic room. On success the joiner gets X if X is unset, else O if O is unset. A role already held by a non-empty id is kept. A refusal changes nothing |
| XORoomState.RemovePlayer | src/RoomState.ts:56-61 | the generic removal; board, turn, roles and result stay as they were |
| XORoomState.Start | src/XORoomState.ts:69-76 | succeeds exactly from `ready`. Then the status is `inProgress` and the turn holder is the player at the drawn index `pick`, or none when nobody is connected. Players, player bounds, board, roles and result stay. A refusal changes nothing |
| XORoomState.IsFinished | src/XORoomState.ts:78-96 | before the game starts: false, no change. Otherwise true exactly when a triple is uniform or the board is full. Then the status is `done` and the result is the first winning triple's mark, or `DRAW` when there is none and the board is full. False leaves the room unchanged |
| XORoomState.Reset | src/XORoomState.ts:98-116 | succeeds exactly from `done`, leaving an empty board, no result and status `ready`, with players, roles and turn unchanged; otherwise nothing changes |
| XORoomState.FindOther | src/XORoomState.ts:124-126 | none exactly when every player has the sender's id; otherwise the first player with a different id |
| XORoomState.Move | src/XORoomState.ts:118-140 | succeeds exactly when the game is in progress, the sender holds the turn, the slot is empty and the sender holds a role; a refusal changes nothing. On success only the target slot changes, to X for the X holder and O otherwise; the turn passes to the first connected player with another id, or none. The status is then `done` exactly when the new board has a uniform triple or is full, and the result becomes the first winning triple's mark, else `DRAW` on a full board, else stays. Players, player bounds and roles stay |
| XOProperties.Pick | src/XORoomState.ts:71-73 | the drawn index lies within the player list, or is 0 for an empty list |
| XOProperties.NewIsConsistent | src/XORoomState.ts:41-56 | a fresh room satisfies the room invariant |
| XOProperties.MoveKeepsLines | src/XORoomState.ts:118-137 | a successful move keeps every uniform triple uniform |
| XOProperties.StepKeepsConsistent | src/XORoomState.ts:58-140 | every operation keeps the invariant. The invariant: two-player bounds; an untouched board in `notReady`; a result in `done`; a recorded win backed by a filled triple; a recorded draw backed by a full board with no triple; O assigned only after X |
| XOProperties.RunKeepsConsistent | src/XORoomState.ts:58-140 | every room reached from a consistent one by any sequence of operations is consistent |
| XOProperties.RolesPermanent | src/XORoomState.ts:58-67 | a role held by a non-empty id is never reassigned by any sequence of operations, resets included |
| XOProperties.AnyPlayerCanStart | src/XORoomState.ts:71-73 | in a `ready` room every connected player gets the first turn for some index the random draw can produce |
| XOProperties.TurnPasses | src/XORoomState.ts:124-126 | with two players of different ids, in either order, a successful move by either hands the turn to the other player |
| XOProperties.MoveFillsOneSlot | src/XORoomState.ts:118-129 | a successful move targets an empty slot and raises the number of marked slots by exactly one |
| XOProperties.NeverBackToNotReady | src/XORoomState.ts:69-116 | once a tic-tac-toe room has left `notReady`, no sequence of operations returns it there |
| XOScenarios.ThirdJoinerRefused | src/XORoomState.ts:58-60 | after two joins the room is `ready`, and a third joiner is refused with no change |
| XOScenarios.OutOfTurnMoveRefused | src/XORoomState.ts:120 | a move by the player not holding the turn is refused and the board stays |
| XOScenarios.QuietMove | src/XORoomState.ts:122-129 | a legal move that completes no triple and leaves the board not full writes the mover's mark and passes the turn to the other player |
| XOScenarios.WinningMove | src/XORoomState.ts:122-129 | a legal move that completes a triple finishes the game with the first winning triple's mark |
| XOScenarios.DrawingMove | src/XORoomState.ts:91-95 | a legal move that fills the board without completing a triple is accepted, finishes the game and records `DRAW` |
| XOScenarios.TopRowWins | src/XORoomState.ts:118-140 | X playing "0-0", "0-1", "0-2" against O's "1-0", "1-1" makes five accepted moves and ends `done` with X the winner |
| XOScenarios.DoneRefusesMoves | src/XORoomState.ts:119 | a finished game refuses every move and stays as it was |
| XOScenarios.SingleLineFinishes | src/XORoomState.ts:80-90 | in a running game, a board holding only one triple filled with `m` finishes with `m` as the winner |
| XOScenarios.FullBoardDraws | src/XORoomState.ts:91-95 | in a running game, any full board with no uniform triple finishes the game as `DRAW` |
| XOScenarios.DrawnBoardDraws | src/XORoomState.ts:91-95 | the drawn game's full board, which has no uniform triple, finishes a running game as `DRAW` |
| XOScenarios.PartOfDrawNoWinner | src/XORoomState.ts:28-39 | any board whose marks all agree with the drawn board has no winner |
| XOScenarios.NineMovesDraw | src/XORoomState.ts:118-140 | X playing "0-0", "1-1", "2-0", "1-2", "2-1" against O's "0-1", "0-2", "1-0", "2-2" makes nine accepted moves and ends `done` with `DRAW` |
| XOScenarios.RejoinMakesReady | src/RoomState.ts:47-61 | a player leaving a running game and rejoining puts the room back to `ready` |
| XOScenarios.ResultOutlivesDone | src/RoomState.ts:47-61 | a game won by X whose O holder leaves and rejoins is `ready` yet still records the win, and both roles stay with their holders |
| XOScenarios.TurnHolderLeaves | src/RoomState.ts:56-61 | when the turn holder leaves, the current-turn field still names that player |
| XOScenarios.EmptyIdLosesRole | src/XORoomState.ts:61-62 | an X role held by the empty id passes to the next joiner |
| XOScenarios.SameIdHoldsBothRoles | src/XORoomState.ts:58-67 | the same connection joining twice fills the room and holds both roles |

## Left out

- XOProperties.RolesPermanent: stated only for roles held by a non-empty socket id. The
  role assignment uses JavaScript truthiness, and an empty id really is overwritten
  (`XOScenarios.EmptyIdLosesRole`).
- `serialize` (src/RoomState.ts:63-65) returns the room itself; the datatype value is its own snapshot.
- The uniformity of `Math.random` is not modelled. `start` takes the drawn index as a parameter.
- `null` and `undefined` slot contents are both `None`. Nothing in the code tells them apart,
  since the occupancy check and `compact` treat both as empty.
- `move` is modelled for the nine slot names only. The parameter's TypeScript type limits it
  to them. An untyped caller passing another key is not modelled.
- Player `nickname` is carried but never read by the room logic.
- The registry that binds rooms to socket groups and broadcasts state is not modelled. The
  bootstrap in src/index.ts only relays chat messages and holds no room registry.
- GraphQL resolvers, controllers, schema, ORM entities and token helpers are not modelled.
  They are database and network plumbing with no room logic.
- `minPlayers`/`maxPlayers` are mathematical integers. JavaScript numbers are doubles, but
  player counts never reach the range where that differs.
