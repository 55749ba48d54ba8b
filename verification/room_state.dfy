/** The generic room lifecycle: players are admitted up to a maximum,
    removed by socket id, and the room becomes `Ready` whenever the number
    of connected players equals the minimum. */
module RoomState {
  import opened Common

  /** A connection in a room; its identity is the socket id. */
  datatype Player = Player(socketID: string, nickname: Option<string>)

  datatype Status = NotReady | Ready | InProgress | Done

  /** The state shared by every game: the connected players in join order,
      the lifecycle status and the player bounds fixed at construction. */
  datatype Room = Room(players: seq<Player>, status: Status, minPlayers: int, maxPlayers: int)

  /** A room as constructed: nobody connected, not ready. */
  function NewRoom(minPlayers: int, maxPlayers: int): (r: Room)
    ensures r.players == [] && r.status == NotReady
    ensures r.minPlayers == minPlayers && r.maxPlayers == maxPlayers
  {
    Room([], NotReady, minPlayers, maxPlayers)
  }

  /** Re-derives readiness: when the player count equals the minimum the
      room becomes `Ready` (whatever its status was), otherwise nothing
      changes. */
  function IsReady(r: Room): (res: Step<Room>)
    ensures res.ok <==> |r.players| == r.minPlayers
    ensures res.state.players == r.players
    ensures res.state.minPlayers == r.minPlayers && res.state.maxPlayers == r.maxPlayers
    ensures res.state.status == (if res.ok then Ready else r.status)
  {
    if |r.players| == r.minPlayers then Step(true, r.(status := Ready)) else Step(false, r)
  }

  predicate IsJoinable(r: Room) {
    |r.players| < r.maxPlayers
  }

  /** Starting is allowed from `Ready` only. */
  function Start(r: Room): (res: Step<Room>)
    ensures res.ok <==> r.status == Ready
    ensures res.ok ==> res.state == r.(status := InProgress)
    ensures !res.ok ==> res.state == r
  {
    if r.status == Ready then Step(true, r.(status := InProgress)) else Step(false, r)
  }

  /** Appends `p` when there is room for it, then re-derives readiness. */
  function AddPlayer(r: Room, p: Player): (res: Step<Room>)
    ensures res.ok <==> |r.players| < r.maxPlayers
    ensures !res.ok ==> res.state == r
    ensures res.ok ==>
      && |res.state.players| == |r.players| + 1
      && res.state.players[..|r.players|] == r.players
      && res.state.players[|r.players|] == p
    ensures res.ok ==>
      res.state.status == (if |r.players| + 1 == r.minPlayers then Ready else r.status)
    ensures res.state.minPlayers == r.minPlayers && res.state.maxPlayers == r.maxPlayers
  {
    if IsJoinable(r) then
      Step(true, IsReady(r.(players := r.players + [p])).state)
    else
      Step(false, r)
  }

  /** The players of `ps` whose socket id differs from `id`, in their
      original order. */
  function Without(ps: seq<Player>, id: string): (qs: seq<Player>)
    ensures |qs| <= |ps|
    ensures forall q :: q in qs <==> q in ps && q.socketID != id
    ensures (forall i :: 0 <= i < |ps| ==> ps[i].socketID != id) ==> qs == ps
  {
    if |ps| == 0 then []
    else if ps[0].socketID != id then [ps[0]] + Without(ps[1..], id)
    else Without(ps[1..], id)
  }

  /** Removes every player with socket id `id` (none if absent), then
      re-derives readiness. TypeScript `removePlayer` returns nothing. */
  function RemovePlayer(r: Room, id: string): (r': Room)
    ensures r'.players == Without(r.players, id)
    ensures forall q :: q in r'.players <==> q in r.players && q.socketID != id
    ensures |r'.players| <= |r.players|
    ensures (forall i :: 0 <= i < |r.players| ==> r.players[i].socketID != id) ==> r'.players == r.players
    ensures r'.status == (if |r'.players| == r.minPlayers then Ready else r.status)
    ensures r'.minPlayers == r.minPlayers && r'.maxPlayers == r.maxPlayers
  {
    IsReady(r.(players := Without(r.players, id))).state
  }

  /** Filtering distributes over concatenation; together with the one-player
      case this pins `Without` down as an order-preserving filter. */
  lemma {:induction false} WithoutAppend(ps: seq<Player>, qs: seq<Player>, id: string)
    ensures Without(ps + qs, id) == Without(ps, id) + Without(qs, id)
    decreases |ps|
  {
    if |ps| == 0 {
      assert ps + qs == qs;
    } else {
      assert (ps + qs)[1..] == ps[1..] + qs;
      WithoutAppend(ps[1..], qs, id);
    }
  }

  /** Removing the same id twice removes nothing more. */
  lemma WithoutIdempotent(ps: seq<Player>, id: string)
    ensures Without(Without(ps, id), id) == Without(ps, id)
  {
  }

  /** Round trip: a player who joins and then leaves by its own socket id
      restores the player list, provided no one else shared that id. */
  lemma AddThenRemove(r: Room, p: Player)
    requires |r.players| < r.maxPlayers
    requires forall i :: 0 <= i < |r.players| ==> r.players[i].socketID != p.socketID
    ensures RemovePlayer(AddPlayer(r, p).state, p.socketID).players == r.players
  {
    var added := AddPlayer(r, p).state;
    assert added.players == r.players + [p];
    WithoutAppend(r.players, [p], p.socketID);
  }

  /** The operations a caller can issue on a bare room. */
  datatype RoomOp = Add(player: Player) | Remove(id: string) | Begin

  function Apply(r: Room, op: RoomOp): Room {
    match op
    case Add(p) => AddPlayer(r, p).state
    case Remove(id) => RemovePlayer(r, id)
    case Begin => Start(r).state
  }

  function Run(r: Room, ops: seq<RoomOp>): Room
    decreases |ops|
  {
    if |ops| == 0 then r else Run(Apply(r, ops[0]), ops[1..])
  }

  /** No sequence of operations pushes the player count past the maximum. */
  lemma {:induction false} CapacityPreserved(r: Room, ops: seq<RoomOp>)
    requires |r.players| <= r.maxPlayers
    ensures |Run(r, ops).players| <= r.maxPlayers
    ensures Run(r, ops).maxPlayers == r.maxPlayers
    decreases |ops|
  {
    if |ops| > 0 {
      CapacityPreserved(Apply(r, ops[0]), ops[1..]);
    }
  }

  /** Once a room has left `NotReady`, no sequence of operations returns it there. */
  lemma {:induction false} NeverBackToNotReady(r: Room, ops: seq<RoomOp>)
    requires r.status != NotReady
    ensures Run(r, ops).status != NotReady
    decreases |ops|
  {
    if |ops| > 0 {
      NeverBackToNotReady(Apply(r, ops[0]), ops[1..]);
    }
  }
}
