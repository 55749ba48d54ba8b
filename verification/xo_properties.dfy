/** Properties of the tic-tac-toe room across operations: the consistency
    invariant every operation keeps, permanence of roles, turn passing,
    and how a move changes the board. */
module XOProperties {
  import opened Common
  import opened RoomState
  import opened XOBoard
  import opened XORoomState

  /** Everything a caller can do to a tic-tac-toe room. `Begin` carries an
      arbitrary draw, reduced to an index as `Math.floor(Math.random() * n)`
      would produce one. */
  datatype XOOp =
    | Join(player: Player)
    | Leave(id: string)
    | Begin(draw: nat)
    | Play(slot: Slot, sender: string)
    | Check
    | Restart

  function Pick(draw: nat, n: nat): (i: nat)
    ensures n == 0 ==> i == 0
    ensures n > 0 ==> i < n
  {
    if n == 0 then 0 else draw % n
  }

  function Apply(x: XORoom, op: XOOp): XORoom {
    match op
    case Join(p) => XORoomState.AddPlayer(x, p).state
    case Leave(id) => XORoomState.RemovePlayer(x, id)
    case Begin(draw) => XORoomState.Start(x, Pick(draw, |x.room.players|)).state
    case Play(slot, sender) => Move(x, slot, sender).state
    case Check => IsFinished(x).state
    case Restart => Reset(x).state
  }

  function Run(x: XORoom, ops: seq<XOOp>): XORoom
    decreases |ops|
  {
    if |ops| == 0 then x else Run(Apply(x, ops[0]), ops[1..])
  }

  /** The facts about a tic-tac-toe room that hold from construction on. */
  ghost predicate Consistent(x: XORoom) {
    && x.room.minPlayers == 2 && x.room.maxPlayers == 2
    && |x.room.players| <= 2
    && (x.room.status == NotReady ==> IsEmpty(x.slots) && x.result.None?)
    && (x.room.status == Done ==> x.result.Some?)
    && (forall m :: x.result == Some(Win(m)) ==> HasLine(x.slots, m))
    && (x.result == Some(Draw) ==> Full(x.slots) && !HasLine(x.slots, X) && !HasLine(x.slots, O))
    && (x.playerO.Some? ==> Truthy(x.playerX))
  }

  lemma NewIsConsistent()
    ensures Consistent(New())
  {
  }

  /** A successful move only adds a mark, so every uniform triple stays uniform. */
  lemma MoveKeepsLines(x: XORoom, slot: Slot, id: string, m: Mark)
    requires MoveAllowed(x, slot, id) && HasLine(x.slots, m)
    ensures HasLine(Move(x, slot, id).state.slots, m)
  {
  }

  lemma StepKeepsConsistent(x: XORoom, op: XOOp)
    requires Consistent(x)
    ensures Consistent(Apply(x, op))
  {
  }

  /** Every room reached from a consistent one is consistent; in particular
      every room reached from a fresh one. */
  lemma {:induction false} RunKeepsConsistent(x: XORoom, ops: seq<XOOp>)
    requires Consistent(x)
    ensures Consistent(Run(x, ops))
    decreases |ops|
  {
    if |ops| > 0 {
      StepKeepsConsistent(x, ops[0]);
      RunKeepsConsistent(Apply(x, ops[0]), ops[1..]);
    }
  }

  /** A role held by a non-empty socket id is never reassigned, by any
      sequence of operations, resets included. */
  lemma {:induction false} RolesPermanent(x: XORoom, ops: seq<XOOp>)
    ensures Truthy(x.playerX) ==> Run(x, ops).playerX == x.playerX
    ensures Truthy(x.playerO) ==> Run(x, ops).playerO == x.playerO
    decreases |ops|
  {
    if |ops| > 0 {
      RolesPermanent(Apply(x, ops[0]), ops[1..]);
    }
  }

  /** The random draw at the start favours nobody's list position: every
      connected player is handed the first turn by some admissible draw. */
  lemma AnyPlayerCanStart(x: XORoom, p: Player)
    requires x.room.status == Ready && p in x.room.players
    ensures exists pick: nat :: ValidPick(x, pick) && XORoomState.Start(x, pick).state.currentTurn == Some(p)
  {
    var i :| 0 <= i < |x.room.players| && x.room.players[i] == p;
    assert ValidPick(x, i) && XORoomState.Start(x, i).state.currentTurn == Some(p);
  }

  /** With two connected players of different ids, a successful move by
      either of them hands the turn to the other one, whichever is listed
      first. */
  lemma TurnPasses(x: XORoom, slot: Slot, a: Player, b: Player)
    requires (x.room.players == [a, b] || x.room.players == [b, a]) && a.socketID != b.socketID
    requires Move(x, slot, a.socketID).ok
    ensures Move(x, slot, a.socketID).state.currentTurn == Some(b)
  {
    assert FindOther([a, b], a.socketID) == Some(b);
    assert FindOther([b, a], a.socketID) == Some(b);
  }

  /** A successful move fills exactly one previously empty slot. */
  lemma MoveFillsOneSlot(x: XORoom, slot: Slot, id: string)
    requires MoveAllowed(x, slot, id)
    ensures Move(x, slot, id).ok
    ensures CountFilled(Move(x, slot, id).state.slots, AllSlots)
         == CountFilled(x.slots, AllSlots) + 1
  {
    var b' := Move(x, slot, id).state.slots;
    assert b' == x.slots[slot := Some(MarkOf(x, id))];
    AllSlotsComplete(slot);
    AllSlotsDistinct();
    CountFilledPlace(x.slots, AllSlots, slot, MarkOf(x, id));
  }

  /** Once started, no sequence of operations returns a tic-tac-toe room
      to `NotReady`: every status the game writes is `Ready`, `InProgress`
      or `Done`. */
  lemma {:induction false} NeverBackToNotReady(x: XORoom, ops: seq<XOOp>)
    requires x.room.status != NotReady
    ensures Run(x, ops).room.status != NotReady
    decreases |ops|
  {
    if |ops| > 0 {
      NeverBackToNotReady(Apply(x, ops[0]), ops[1..]);
    }
  }
}
