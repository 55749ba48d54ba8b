/** Worked games on a fresh tic-tac-toe room, and lemmas exhibiting the
    less obvious consequences of the room's code. */
module XOScenarios {
  import opened Common
  import opened RoomState
  import opened XOBoard
  import opened XORoomState

  const Alice := Player("a", None)
  const Bob := Player("b", None)

  /** Both players joined (Alice first, so Alice holds X) and the game
      started with Alice to play. */
  function Started(): (x: XORoom)
    ensures x.room.status == InProgress
    ensures x.room.players == [Alice, Bob]
    ensures x.currentTurn == Some(Alice)
    ensures x.playerX == Some("a") && x.playerO == Some("b")
    ensures x.slots == EmptyBoard && x.result.None?
  {
    var one := XORoomState.AddPlayer(New(), Alice).state;
    var two := XORoomState.AddPlayer(one, Bob).state;
    XORoomState.Start(two, 0).state
  }

  /** A third connection is turned away and changes nothing. */
  lemma ThirdJoinerRefused(p: Player)
    ensures var two := XORoomState.AddPlayer(XORoomState.AddPlayer(New(), Alice).state, Bob).state;
      var res := XORoomState.AddPlayer(two, p);
      !res.ok && res.state == two && two.room.status == Ready
  {
  }

  /** A move by the player who does not hold the turn is refused and the
      board stays as it was. */
  lemma OutOfTurnMoveRefused(slot: Slot)
    ensures var res := Move(Started(), slot, "b");
      !res.ok && res.state.slots == Started().slots
  {
  }

  /** A legal move that neither completes a triple nor fills the board
      writes the mover's mark and passes the turn to the other player. */
  lemma QuietMove(x: XORoom, slot: Slot, p: Player, q: Player)
    requires (x.room.players == [p, q] || x.room.players == [q, p]) && p.socketID != q.socketID
    requires MoveAllowed(x, slot, p.socketID)
    requires Winner(Placed(x, slot, p.socketID)).None?
    requires !Full(Placed(x, slot, p.socketID))
    ensures Move(x, slot, p.socketID)
         == Step(true, x.(slots := Placed(x, slot, p.socketID), currentTurn := Some(q)))
  {
    assert FindOther(x.room.players, p.socketID) == Some(q);
  }

  /** While "0-2", "1-2", "2-0", "2-1" and "2-2" are all empty, every
      triple has an empty slot, so there is no winner. */
  lemma NoWinnerWhileOpen(b: Board)
    requires Get(b, S02).None? && Get(b, S12).None? && Get(b, S20).None?
    requires Get(b, S21).None? && Get(b, S22).None?
    ensures Winner(b).None?
    ensures !Full(b)
  {
    WinnerNoneUnrolled(b);
  }

  /** A legal move that completes a triple finishes the game, won by the
      mover's mark when the completed triple is the first in scan order. */
  lemma WinningMove(x: XORoom, slot: Slot, id: string)
    requires MoveAllowed(x, slot, id)
    requires Winner(x.slots[slot := Some(MarkOf(x, id))]).Some?
    ensures Move(x, slot, id).ok
    ensures Move(x, slot, id).state.room.status == Done
    ensures Move(x, slot, id).state.result
         == Some(Win(Winner(x.slots[slot := Some(MarkOf(x, id))]).value))
  {
  }

  /** The top-row game after its first `n` moves (X "0-0", O "1-0",
      X "0-1", O "1-1"), for `n` up to four. */
  function TopRowAfter(n: nat): XORoom
    requires n <= 4
  {
    var x0 := Started();
    if n == 0 then x0
    else if n == 1 then x0.(slots := EmptyBoard[S00 := Some(X)], currentTurn := Some(Bob))
    else if n == 2 then x0.(slots := EmptyBoard[S00 := Some(X)][S10 := Some(O)], currentTurn := Some(Alice))
    else if n == 3 then
      x0.(slots := EmptyBoard[S00 := Some(X)][S10 := Some(O)][S01 := Some(X)], currentTurn := Some(Bob))
    else
      x0.(slots := EmptyBoard[S00 := Some(X)][S10 := Some(O)][S01 := Some(X)][S11 := Some(O)],
          currentTurn := Some(Alice))
  }

  lemma TopRowMove1()
    ensures Move(TopRowAfter(0), S00, "a") == Step(true, TopRowAfter(1))
  {
    NoWinnerWhileOpen(TopRowAfter(1).slots);
    QuietMove(TopRowAfter(0), S00, Alice, Bob);
  }

  lemma TopRowMove2()
    ensures Move(TopRowAfter(1), S10, "b") == Step(true, TopRowAfter(2))
  {
    NoWinnerWhileOpen(TopRowAfter(2).slots);
    QuietMove(TopRowAfter(1), S10, Bob, Alice);
  }

  lemma TopRowMove3()
    ensures Move(TopRowAfter(2), S01, "a") == Step(true, TopRowAfter(3))
  {
    NoWinnerWhileOpen(TopRowAfter(3).slots);
    QuietMove(TopRowAfter(2), S01, Alice, Bob);
  }

  lemma TopRowMove4()
    ensures Move(TopRowAfter(3), S11, "b") == Step(true, TopRowAfter(4))
  {
    NoWinnerWhileOpen(TopRowAfter(4).slots);
    QuietMove(TopRowAfter(3), S11, Bob, Alice);
  }

  lemma TopRowMove5()
    ensures var x5 := Move(TopRowAfter(4), S02, "a");
      x5.ok && x5.state.room.status == Done && x5.state.result == Some(Win(X))
  {
    var x4 := TopRowAfter(4);
    var b5 := x4.slots[S02 := Some(X)];
    assert FirstLine(b5, 0, X);
    WinnerIsFirstLine(b5, X);
    assert MarkOf(x4, "a") == X;
    WinningMove(x4, S02, "a");
  }

  /** A legal move that fills the last empty slot without completing a
      triple finishes the game as a draw. */
  lemma DrawingMove(x: XORoom, slot: Slot, id: string)
    requires MoveAllowed(x, slot, id)
    requires Full(Placed(x, slot, id)) && Winner(Placed(x, slot, id)).None?
    ensures Move(x, slot, id).ok
    ensures Move(x, slot, id).state.room.status == Done
    ensures Move(x, slot, id).state.result == Some(Draw)
  {
  }

  /** X takes the whole top row while O plays "1-0" and "1-1": X wins. */
  lemma TopRowWins()
    ensures var x1 := Move(Started(), S00, "a");
      var x2 := Move(x1.state, S10, "b");
      var x3 := Move(x2.state, S01, "a");
      var x4 := Move(x3.state, S11, "b");
      var x5 := Move(x4.state, S02, "a");
      && x1.ok && x2.ok && x3.ok && x4.ok && x5.ok
      && x5.state.room.status == Done
      && x5.state.result == Some(Win(X))
  {
    TopRowMove1();
    TopRowMove2();
    TopRowMove3();
    TopRowMove4();
    TopRowMove5();
  }

  /** A finished game refuses every further move. */
  lemma DoneRefusesMoves(x: XORoom, slot: Slot, id: string)
    requires x.room.status == Done
    ensures !Move(x, slot, id).ok && Move(x, slot, id).state == x
  {
  }

  /** Filling one winning triple with a mark, and nothing else, finishes a
      running game with that mark as the winner. */
  lemma SingleLineFinishes(x: XORoom, i: int, m: Mark)
    requires x.room.status == InProgress
    requires 0 <= i < |WinningSlots| && OnlyLine(x.slots, i, m)
    ensures IsFinished(x).ok
    ensures IsFinished(x).state.room.status == Done
    ensures IsFinished(x).state.result == Some(Win(m))
  {
    SingleLineWins(x.slots, i, m);
  }

  /** The board of the drawn game: X on "0-0", "1-1", "2-0", "1-2", "2-1"
      and O on "0-1", "0-2", "1-0", "2-2". */
  const DrawnBoard: Board :=
    map[S00 := Some(X), S01 := Some(O), S02 := Some(O),
        S10 := Some(O), S11 := Some(X), S12 := Some(X),
        S20 := Some(X), S21 := Some(X), S22 := Some(O)]

  lemma DrawnBoardHasNoWinner()
    ensures Winner(DrawnBoard).None?
  {
    var b := DrawnBoard;
    assert !Decided(b, Triple(S00, S01, S02));
    assert !Decided(b, Triple(S10, S11, S12));
    assert !Decided(b, Triple(S20, S21, S22));
    assert !Decided(b, Triple(S00, S10, S20));
    assert !Decided(b, Triple(S01, S11, S21));
    assert !Decided(b, Triple(S02, S12, S22));
    assert !Decided(b, Triple(S00, S11, S22));
    assert !Decided(b, Triple(S02, S11, S20));
    WinnerNoneUnrolled(b);
  }

  lemma DrawnBoardIsFull()
    ensures Full(DrawnBoard)
  {
    forall s: Slot ensures Get(DrawnBoard, s).Some? {
      match s
      case S00 => case S01 => case S02 =>
      case S10 => case S11 => case S12 =>
      case S20 => case S21 => case S22 =>
    }
  }

  /** In a running game, any full board with no uniform triple finishes the
      game as a draw. */
  lemma FullBoardDraws(x: XORoom)
    requires x.room.status == InProgress && Full(x.slots) && Winner(x.slots).None?
    ensures IsFinished(x).ok
    ensures IsFinished(x).state.room.status == Done
    ensures IsFinished(x).state.result == Some(Draw)
  {
  }

  /** Such boards exist: the drawn game's full board finishes as a draw. */
  lemma DrawnBoardDraws(x: XORoom)
    requires x.room.status == InProgress && x.slots == DrawnBoard
    ensures IsFinished(x).ok
    ensures IsFinished(x).state.room.status == Done
    ensures IsFinished(x).state.result == Some(Draw)
  {
    DrawnBoardHasNoWinner();
    DrawnBoardIsFull();
    FullBoardDraws(x);
  }

  /** Slot `s` of `b` is empty or holds what the drawn board holds there. */
  predicate AgreesWithDraw(b: Board, s: Slot) {
    Get(b, s).None? || Get(b, s) == Get(DrawnBoard, s)
  }

  /** A triple undecided on the drawn board stays undecided on a board that
      agrees with it on the triple's slots. */
  lemma AgreeingTripleUndecided(b: Board, t: Triple)
    requires AgreesWithDraw(b, t.a) && AgreesWithDraw(b, t.b) && AgreesWithDraw(b, t.c)
    requires !Decided(DrawnBoard, t)
    ensures !Decided(b, t)
  {
  }

  /** A board whose marks all agree with `DrawnBoard` has no winner. */
  lemma PartOfDrawNoWinner(b: Board)
    requires AgreesWithDraw(b, S00) && AgreesWithDraw(b, S01) && AgreesWithDraw(b, S02)
    requires AgreesWithDraw(b, S10) && AgreesWithDraw(b, S11) && AgreesWithDraw(b, S12)
    requires AgreesWithDraw(b, S20) && AgreesWithDraw(b, S21) && AgreesWithDraw(b, S22)
    ensures Winner(b).None?
  {
    DrawnBoardHasNoWinner();
    WinnerNoneUnrolled(DrawnBoard);
    AgreeingTripleUndecided(b, Triple(S00, S01, S02));
    AgreeingTripleUndecided(b, Triple(S10, S11, S12));
    AgreeingTripleUndecided(b, Triple(S20, S21, S22));
    AgreeingTripleUndecided(b, Triple(S00, S10, S20));
    AgreeingTripleUndecided(b, Triple(S01, S11, S21));
    AgreeingTripleUndecided(b, Triple(S02, S12, S22));
    AgreeingTripleUndecided(b, Triple(S00, S11, S22));
    AgreeingTripleUndecided(b, Triple(S02, S11, S20));
    WinnerNoneUnrolled(b);
  }

  /** The drawn game with board `b` and `turn` to play. */
  function DrawGameAt(b: Board, turn: Player): XORoom {
    Started().(slots := b, currentTurn := Some(turn))
  }

  /** The boards of the drawn game after each of its first eight moves: X
      plays "0-0", "1-1", "2-0", "1-2", "2-1" and O plays "0-1", "0-2",
      "1-0", "2-2", alternating from X. */
  const DrawBoard1: Board := EmptyBoard[S00 := Some(X)]
  const DrawBoard2: Board := DrawBoard1[S01 := Some(O)]
  const DrawBoard3: Board := DrawBoard2[S11 := Some(X)]
  const DrawBoard4: Board := DrawBoard3[S02 := Some(O)]
  const DrawBoard5: Board := DrawBoard4[S20 := Some(X)]
  const DrawBoard6: Board := DrawBoard5[S10 := Some(O)]
  const DrawBoard7: Board := DrawBoard6[S12 := Some(X)]
  const DrawBoard8: Board := DrawBoard7[S22 := Some(O)]

  lemma DrawGameMove1()
    ensures Move(DrawGameAt(EmptyBoard, Alice), S00, "a") == Step(true, DrawGameAt(DrawBoard1, Bob))
  {
    PartOfDrawNoWinner(DrawBoard1);
    assert Get(DrawBoard1, S21).None?;
    QuietMove(DrawGameAt(EmptyBoard, Alice), S00, Alice, Bob);
  }

  lemma DrawGameMove2()
    ensures Move(DrawGameAt(DrawBoard1, Bob), S01, "b") == Step(true, DrawGameAt(DrawBoard2, Alice))
  {
    PartOfDrawNoWinner(DrawBoard2);
    assert Get(DrawBoard2, S21).None?;
    QuietMove(DrawGameAt(DrawBoard1, Bob), S01, Bob, Alice);
  }

  lemma DrawGameMove3()
    ensures Move(DrawGameAt(DrawBoard2, Alice), S11, "a") == Step(true, DrawGameAt(DrawBoard3, Bob))
  {
    PartOfDrawNoWinner(DrawBoard3);
    assert Get(DrawBoard3, S21).None?;
    QuietMove(DrawGameAt(DrawBoard2, Alice), S11, Alice, Bob);
  }

  lemma DrawGameMove4()
    ensures Move(DrawGameAt(DrawBoard3, Bob), S02, "b") == Step(true, DrawGameAt(DrawBoard4, Alice))
  {
    PartOfDrawNoWinner(DrawBoard4);
    assert Get(DrawBoard4, S21).None?;
    QuietMove(DrawGameAt(DrawBoard3, Bob), S02, Bob, Alice);
  }

  lemma DrawGameMove5()
    ensures Move(DrawGameAt(DrawBoard4, Alice), S20, "a") == Step(true, DrawGameAt(DrawBoard5, Bob))
  {
    PartOfDrawNoWinner(DrawBoard5);
    assert Get(DrawBoard5, S21).None?;
    QuietMove(DrawGameAt(DrawBoard4, Alice), S20, Alice, Bob);
  }

  lemma DrawGameMove6()
    ensures Move(DrawGameAt(DrawBoard5, Bob), S10, "b") == Step(true, DrawGameAt(DrawBoard6, Alice))
  {
    PartOfDrawNoWinner(DrawBoard6);
    assert Get(DrawBoard6, S21).None?;
    QuietMove(DrawGameAt(DrawBoard5, Bob), S10, Bob, Alice);
  }

  lemma DrawGameMove7()
    ensures Move(DrawGameAt(DrawBoard6, Alice), S12, "a") == Step(true, DrawGameAt(DrawBoard7, Bob))
  {
    PartOfDrawNoWinner(DrawBoard7);
    assert Get(DrawBoard7, S21).None?;
    QuietMove(DrawGameAt(DrawBoard6, Alice), S12, Alice, Bob);
  }

  lemma DrawGameMove8()
    ensures Move(DrawGameAt(DrawBoard7, Bob), S22, "b") == Step(true, DrawGameAt(DrawBoard8, Alice))
  {
    PartOfDrawNoWinner(DrawBoard8);
    assert Get(DrawBoard8, S21).None?;
    QuietMove(DrawGameAt(DrawBoard7, Bob), S22, Bob, Alice);
  }

  /** The drawn game's board after its ninth move. */
  const DrawBoard9: Board := DrawBoard8[S21 := Some(X)]

  lemma DrawBoard9IsFull()
    ensures Full(DrawBoard9)
  {
    forall s: Slot ensures Get(DrawBoard9, s).Some? {
      match s
      case S00 => case S01 => case S02 =>
      case S10 => case S11 => case S12 =>
      case S20 => case S21 => case S22 =>
    }
  }

  lemma DrawGameMove9()
    ensures var x9 := Move(DrawGameAt(DrawBoard8, Alice), S21, "a");
      x9.ok && x9.state.room.status == Done && x9.state.result == Some(Draw)
  {
    PartOfDrawNoWinner(DrawBoard9);
    DrawBoard9IsFull();
    assert MarkOf(DrawGameAt(DrawBoard8, Alice), "a") == X;
    DrawingMove(DrawGameAt(DrawBoard8, Alice), S21, "a");
  }

  /** The nine alternating moves of the drawn game are all accepted, and the
      last one finishes the game as a draw. */
  lemma NineMovesDraw()
    ensures var x1 := Move(Started(), S00, "a");
      var x2 := Move(x1.state, S01, "b");
      var x3 := Move(x2.state, S11, "a");
      var x4 := Move(x3.state, S02, "b");
      var x5 := Move(x4.state, S20, "a");
      var x6 := Move(x5.state, S10, "b");
      var x7 := Move(x6.state, S12, "a");
      var x8 := Move(x7.state, S22, "b");
      var x9 := Move(x8.state, S21, "a");
      && x1.ok && x2.ok && x3.ok && x4.ok && x5.ok && x6.ok && x7.ok && x8.ok && x9.ok
      && x9.state.room.status == Done
      && x9.state.result == Some(Draw)
  {
    assert Started() == DrawGameAt(EmptyBoard, Alice);
    DrawGameMove1();
    DrawGameMove2();
    DrawGameMove3();
    DrawGameMove4();
    DrawGameMove5();
    DrawGameMove6();
    DrawGameMove7();
    DrawGameMove8();
    DrawGameMove9();
  }

  /** Readiness is re-derived on every membership change whatever the
      status: a player leaving a running game and joining again puts the
      room back to `Ready`. */
  lemma RejoinMakesReady()
    ensures var left := XORoomState.RemovePlayer(Started(), "b");
      var back := XORoomState.AddPlayer(left, Bob);
      left.room.status == InProgress && back.ok && back.state.room.status == Ready
  {
  }

  /** The outcome survives such a rejoin: a won game whose loser leaves and
      comes back is `Ready` yet still records the win. */
  lemma ResultOutlivesDone(x: XORoom)
    requires x.room.status == Done && x.result == Some(Win(X))
    requires x.playerX == Some("a") && x.playerO == Some("b")
    requires x.room.players == [Alice, Bob] && x.room.minPlayers == 2 && x.room.maxPlayers == 2
    ensures var back := XORoomState.AddPlayer(XORoomState.RemovePlayer(x, "b"), Bob).state;
      && back.room.status == Ready && back.result == Some(Win(X))
      && back.playerX == Some("a") && back.playerO == Some("b")
  {
  }

  /** Leaving does not move the turn: the current-turn field can name a player
      who is no longer connected. */
  lemma TurnHolderLeaves()
    ensures var left := XORoomState.RemovePlayer(Started(), "a");
      left.currentTurn == Some(Alice) && Alice !in left.room.players
  {
  }

  /** Role assignment uses JavaScript truthiness: an X role held by the empty
      socket id counts as unset and passes to the next joiner. */
  lemma EmptyIdLosesRole(x: XORoom)
    requires x.playerX == Some("") && |x.room.players| < x.room.maxPlayers
    ensures XORoomState.AddPlayer(x, Bob).state.playerX == Some("b")
  {
  }

  /** Admission does not compare socket ids: the same connection joining
      twice fills the room and holds both roles. */
  lemma SameIdHoldsBothRoles()
    ensures var once := XORoomState.AddPlayer(New(), Alice);
      var twice := XORoomState.AddPlayer(once.state, Alice);
      && once.ok && twice.ok
      && twice.state.playerX == Some("a") && twice.state.playerO == Some("a")
      && twice.state.room.status == Ready
  {
  }
}
