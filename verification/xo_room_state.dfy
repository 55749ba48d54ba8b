/** Tic-tac-toe on top of the generic room: two players, X and O roles
    assigned by join order, a current-turn field, move validation, win and draw
    detection, and reset. */
module XORoomState {
  import opened Common
  import opened RoomState
  import opened XOBoard

  /** The recorded outcome: "X", "O" or "DRAW". */
  datatype Outcome = Win(mark: Mark) | Draw

  /** A tic-tac-toe room: the generic room state plus the game payload
      (board and current turn), the socket ids holding each role and the
      outcome. */
  datatype XORoom = XORoom(
    room: Room,
    slots: Board,
    currentTurn: Option<Player>,
    playerX: Option<string>,
    playerO: Option<string>,
    result: Option<Outcome>)

  /** JavaScript truthiness of an optional socket id: unset and the empty
      string are both falsy. */
  predicate Truthy(id: Option<string>) {
    id.Some? && id.value != ""
  }

  /** A fresh room: exactly two players, empty board, nothing assigned. */
  function New(): (x: XORoom)
    ensures x.room.minPlayers == 2 && x.room.maxPlayers == 2
    ensures x.room.players == [] && x.room.status == NotReady
    ensures IsEmpty(x.slots)
    ensures x.result.None? && x.playerX.None? && x.playerO.None? && x.currentTurn.None?
  {
    XORoom(NewRoom(2, 2), EmptyBoard, None, None, None, None)
  }

  /** Admits `p` as the generic room does; on success the joiner takes the
      X role if it is not held, else the O role if that is not held. */
  function AddPlayer(x: XORoom, p: Player): (res: Step<XORoom>)
    ensures res.ok <==> |x.room.players| < x.room.maxPlayers
    ensures !res.ok ==> res.state == x
    ensures res.ok ==> res.state.room == RoomState.AddPlayer(x.room, p).state
    ensures res.ok && !Truthy(x.playerX) ==>
      res.state.playerX == Some(p.socketID) && res.state.playerO == x.playerO
    ensures res.ok && Truthy(x.playerX) ==> res.state.playerX == x.playerX
    ensures res.ok && Truthy(x.playerX) && !Truthy(x.playerO) ==> res.state.playerO == Some(p.socketID)
    ensures res.ok && Truthy(x.playerX) && Truthy(x.playerO) ==> res.state.playerO == x.playerO
    ensures res.state.slots == x.slots && res.state.currentTurn == x.currentTurn
    ensures res.state.result == x.result
  {
    var base := RoomState.AddPlayer(x.room, p);
    if !base.ok then Step(false, x)
    else
      var joined := x.(room := base.state);
      if !Truthy(x.playerX) then Step(true, joined.(playerX := Some(p.socketID)))
      else if !Truthy(x.playerO) then Step(true, joined.(playerO := Some(p.socketID)))
      else Step(true, joined)
  }

  /** Inherited unchanged from the generic room: the payload, the roles and
      the current-turn field are left as they are, even when the turn holder is
      the one who leaves. */
  function RemovePlayer(x: XORoom, id: string): (x': XORoom)
    ensures x'.room == RoomState.RemovePlayer(x.room, id)
    ensures x'.slots == x.slots && x'.currentTurn == x.currentTurn && x'.result == x.result
    ensures x'.playerX == x.playerX && x'.playerO == x.playerO
  {
    x.(room := RoomState.RemovePlayer(x.room, id))
  }

  /** Whether `pick` is a value `Math.floor(Math.random() * n)` can take for
      `n` players: an index of the list, or 0 when the list is empty. */
  predicate ValidPick(x: XORoom, pick: nat) {
    pick < |x.room.players| || pick == 0
  }

  /** Starts the game from `Ready`, handing the first turn to the player at
      the randomly drawn index `pick` (none when nobody is connected). */
  function Start(x: XORoom, pick: nat): (res: Step<XORoom>)
    requires ValidPick(x, pick)
    ensures res.ok <==> x.room.status == Ready
    ensures !res.ok ==> res.state == x
    ensures res.ok ==> res.state.room.status == InProgress
    ensures res.ok && |x.room.players| > 0 ==>
      res.state.currentTurn.Some? && res.state.currentTurn.value in x.room.players
    ensures res.ok && pick < |x.room.players| ==> res.state.currentTurn == Some(x.room.players[pick])
    ensures res.ok && |x.room.players| == 0 ==> res.state.currentTurn.None?
    ensures res.state.room.players == x.room.players
    ensures res.state.room.minPlayers == x.room.minPlayers && res.state.room.maxPlayers == x.room.maxPlayers
    ensures res.state.slots == x.slots && res.state.result == x.result
    ensures res.state.playerX == x.playerX && res.state.playerO == x.playerO
  {
    if x.room.status != Ready then Step(false, x)
    else
      var players := x.room.players;
      var turn := if pick < |players| then Some(players[pick]) else None;
      Step(true, x.(room := x.room.(status := InProgress), currentTurn := turn))
  }

  /** Decides whether the game is over. Before the game has started it
      answers false. Otherwise the first uniformly marked winning triple
      records its mark and finishes the game; failing that, a full board
      finishes the game as a draw; failing that, the game goes on. */
  function IsFinished(x: XORoom): (res: Step<XORoom>)
    ensures x.room.status in {NotReady, Ready} ==> !res.ok && res.state == x
    ensures x.room.status in {InProgress, Done} ==>
      (res.ok <==> HasLine(x.slots, X) || HasLine(x.slots, O) || Full(x.slots))
    ensures !res.ok ==> res.state == x
    ensures res.ok ==> res.state == x.(room := x.room.(status := Done), result := res.state.result)
    ensures res.ok && Winner(x.slots).Some? ==> res.state.result == Some(Win(Winner(x.slots).value))
    ensures res.ok && Winner(x.slots).None? ==> res.state.result == Some(Draw) && Full(x.slots)
  {
    if x.room.status == NotReady || x.room.status == Ready then Step(false, x)
    else
      CountNineIffFull(x.slots);
      var w := Winner(x.slots);
      if w.Some? then
        Step(true, x.(room := x.room.(status := Done), result := Some(Win(w.value))))
      else if CountFilled(x.slots, AllSlots) < 9 then Step(false, x)
      else Step(true, x.(room := x.room.(status := Done), result := Some(Draw)))
  }

  /** Returns a finished room to `Ready` with an empty board and no outcome;
      players, roles and the current-turn field stay. */
  function Reset(x: XORoom): (res: Step<XORoom>)
    ensures res.ok <==> x.room.status == Done
    ensures !res.ok ==> res.state == x
    ensures res.ok ==>
      && IsEmpty(res.state.slots)
      && res.state.result.None?
      && res.state.room == x.room.(status := Ready)
      && res.state.playerX == x.playerX && res.state.playerO == x.playerO
      && res.state.currentTurn == x.currentTurn
  {
    if x.room.status == Done then
      Step(true, x.(slots := EmptyBoard, result := None, room := x.room.(status := Ready)))
    else Step(false, x)
  }

  /** The first player of `ps` whose socket id is not `id`. */
  function FindOther(ps: seq<Player>, id: string): (r: Option<Player>)
    ensures r.None? <==> forall i :: 0 <= i < |ps| ==> ps[i].socketID == id
    ensures r.Some? ==>
      exists i :: 0 <= i < |ps| && ps[i] == r.value && r.value.socketID != id
        && forall j :: 0 <= j < i ==> ps[j].socketID == id
  {
    if |ps| == 0 then None
    else if ps[0].socketID != id then Some(ps[0])
    else
      var r := FindOther(ps[1..], id);
      assert forall i :: 1 <= i < |ps| ==> ps[i] == ps[1..][i - 1];
      if r.Some? then
        ghost var k :| 0 <= k < |ps| - 1 && ps[1..][k] == r.value && r.value.socketID != id
          && forall j :: 0 <= j < k ==> ps[1..][j].socketID == id;
        assert ps[k + 1] == r.value;
        r
      else r
  }

  /** The checks `move` makes, in order; a move is accepted exactly when all hold. */
  predicate MoveAllowed(x: XORoom, slot: Slot, id: string) {
    && x.room.status == InProgress
    && x.currentTurn.Some? && x.currentTurn.value.socketID == id
    && Get(x.slots, slot).None?
    && (x.playerX == Some(id) || x.playerO == Some(id))
  }

  /** The mark a role holder writes: X when the sender holds the X role. */
  function MarkOf(x: XORoom, id: string): Mark {
    if x.playerX == Some(id) then X else O
  }

  /** The board after the sender's mark is written into `slot`. */
  function Placed(x: XORoom, slot: Slot, id: string): Board {
    x.slots[slot := Some(MarkOf(x, id))]
  }

  /** Plays `slot` for the sender `id`: writes the sender's mark, passes the
      turn to the first other connected player and re-derives the outcome.
      Refused, with nothing changed, unless the game is in progress, the
      sender holds the turn, the slot is empty and the sender holds a role. */
  function Move(x: XORoom, slot: Slot, id: string): (res: Step<XORoom>)
    ensures res.ok <==> MoveAllowed(x, slot, id)
    ensures !res.ok ==> res.state == x
    ensures res.ok ==>
      && Get(res.state.slots, slot) == Some(MarkOf(x, id))
      && (forall s: Slot :: s != slot ==> Get(res.state.slots, s) == Get(x.slots, s))
    ensures res.ok ==>
      res.state.currentTurn.None? ||
      (res.state.currentTurn.value in x.room.players && res.state.currentTurn.value.socketID != id)
    ensures res.ok ==> res.state.currentTurn == FindOther(x.room.players, id)
    ensures res.ok ==> res.state.room.status in {InProgress, Done}
    ensures res.ok ==>
      (res.state.room.status == Done <==>
        HasLine(Placed(x, slot, id), X) || HasLine(Placed(x, slot, id), O) || Full(Placed(x, slot, id)))
    ensures res.ok ==>
      (res.state.result ==
        if Winner(Placed(x, slot, id)).Some? then Some(Win(Winner(Placed(x, slot, id)).value))
        else if Full(Placed(x, slot, id)) then Some(Draw)
        else x.result)
    ensures res.state.room.players == x.room.players
    ensures res.state.room.minPlayers == x.room.minPlayers && res.state.room.maxPlayers == x.room.maxPlayers
    ensures res.state.playerX == x.playerX && res.state.playerO == x.playerO
  {
    if x.room.status != InProgress then Step(false, x)
    else if x.currentTurn.None? || x.currentTurn.value.socketID != id then Step(false, x)
    else if Get(x.slots, slot).Some? then Step(false, x)
    else if x.playerX == Some(id) then
      var played := x.(slots := x.slots[slot := Some(X)],
                       currentTurn := FindOther(x.room.players, id));
      Step(true, IsFinished(played).state)
    else if x.playerO == Some(id) then
      var played := x.(slots := x.slots[slot := Some(O)],
                       currentTurn := FindOther(x.room.players, id));
      Step(true, IsFinished(played).state)
    else Step(false, x)
  }
}
