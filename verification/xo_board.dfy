/** The tic-tac-toe board: nine named slots, each empty or holding a mark,
    the eight winning triples and the counts the game uses to decide a
    finish. */
module XOBoard {
  import opened Common

  datatype Mark = X | O

  /** The slot names "0-0" … "2-2": row, then column. */
  datatype Slot = S00 | S01 | S02 | S10 | S11 | S12 | S20 | S21 | S22 {
    function Row(): int {
      match this
      case S00 | S01 | S02 => 0
      case S10 | S11 | S12 => 1
      case S20 | S21 | S22 => 2
    }
    function Col(): int {
      match this
      case S00 | S10 | S20 => 0
      case S01 | S11 | S21 => 1
      case S02 | S12 | S22 => 2
    }
  }

  /** Every slot, in the order the board object lists them. */
  const AllSlots: seq<Slot> := [S00, S01, S02, S10, S11, S12, S20, S21, S22]

  /** The board object: slot name to content. A slot the map does not hold
      reads as empty, as a missing key of the TypeScript `gameState.slots` object reads
      `undefined`; `None` stands for both `null` and `undefined`. */
  type Board = map<Slot, Option<Mark>>

  function Get(b: Board, s: Slot): Option<Mark> {
    if s in b then b[s] else None
  }

  /** The board the constructor and `reset` install: every slot `null`. */
  const EmptyBoard: Board :=
    map[S00 := None, S01 := None, S02 := None, S10 := None, S11 := None,
        S12 := None, S20 := None, S21 := None, S22 := None]

  predicate IsEmpty(b: Board) {
    forall s: Slot :: Get(b, s) == None
  }

  lemma EmptyBoardIsEmpty()
    ensures IsEmpty(EmptyBoard)
  {
  }

  datatype Triple = Triple(a: Slot, b: Slot, c: Slot)

  /** The eight winning triples, in the order the game scans them: rows,
      columns, then the two diagonals. */
  const WinningSlots: seq<Triple> := [
    Triple(S00, S01, S02),
    Triple(S10, S11, S12),
    Triple(S20, S21, S22),
    Triple(S00, S10, S20),
    Triple(S01, S11, S21),
    Triple(S02, S12, S22),
    Triple(S00, S11, S22),
    Triple(S02, S11, S20)
  ]

  /** All three slots of `t` hold `m`. */
  predicate Uniform(b: Board, t: Triple, m: Mark) {
    Get(b, t.a) == Some(m) && Get(b, t.b) == Some(m) && Get(b, t.c) == Some(m)
  }

  predicate Decided(b: Board, t: Triple) {
    Uniform(b, t, X) || Uniform(b, t, O)
  }

  /** The mark of the first triple of `lines` that is uniformly marked, if any. */
  function FirstWin(b: Board, lines: seq<Triple>): (r: Option<Mark>)
    ensures r.None? <==> forall i :: 0 <= i < |lines| ==> !Decided(b, lines[i])
    ensures r.Some? ==>
      exists i :: 0 <= i < |lines| && Uniform(b, lines[i], r.value)
        && forall j :: 0 <= j < i ==> !Decided(b, lines[j])
  {
    if |lines| == 0 then None
    else if Uniform(b, lines[0], X) then Some(X)
    else if Uniform(b, lines[0], O) then Some(O)
    else
      var r := FirstWin(b, lines[1..]);
      assert forall i :: 1 <= i < |lines| ==> lines[i] == lines[1..][i - 1];
      if r.Some? then
        ghost var k :| 0 <= k < |lines| - 1 && Uniform(b, lines[1..][k], r.value)
          && forall j :: 0 <= j < k ==> !Decided(b, lines[1..][j]);
        assert Uniform(b, lines[k + 1], r.value);
        r
      else r
  }

  /** The winning mark the game reports for `b`: the first uniform triple
      in scan order. */
  function Winner(b: Board): Option<Mark> {
    FirstWin(b, WinningSlots)
  }

  /** Some winning triple is uniformly `m`. */
  ghost predicate HasLine(b: Board, m: Mark) {
    exists i :: 0 <= i < |WinningSlots| && Uniform(b, WinningSlots[i], m)
  }

  /** How many of `slots` hold a mark: `compact(Object.values(slots)).length`
      when `slots` lists the whole board. */
  function CountFilled(b: Board, slots: seq<Slot>): (n: nat)
    ensures n <= |slots|
    ensures n == |slots| <==> forall i :: 0 <= i < |slots| ==> Get(b, slots[i]).Some?
  {
    if |slots| == 0 then 0
    else
      var rest := CountFilled(b, slots[1..]);
      assert forall i :: 1 <= i < |slots| ==> slots[i] == slots[1..][i - 1];
      (if Get(b, slots[0]).Some? then 1 else 0) + rest
  }

  /** Every slot holds a mark. */
  predicate Full(b: Board) {
    forall s: Slot :: Get(b, s).Some?
  }

  lemma AllSlotsComplete(s: Slot)
    ensures s in AllSlots
  {
  }

  lemma AllSlotsDistinct()
    ensures NoDuplicates(AllSlots)
  {
  }

  /** Counting the marks of the whole board reaches nine exactly when the
      board is full. */
  lemma CountNineIffFull(b: Board)
    ensures CountFilled(b, AllSlots) == 9 <==> Full(b)
  {
    if CountFilled(b, AllSlots) == 9 {
      forall s: Slot ensures Get(b, s).Some? {
        AllSlotsComplete(s);
      }
    }
  }

  /** The eight triples are geometric lines: three distinct slots sharing a
      row, a column, the main diagonal or the anti-diagonal. */
  ghost predicate IsLine(t: Triple) {
    && t.a != t.b && t.b != t.c && t.a != t.c
    && (|| (t.a.Row() == t.b.Row() == t.c.Row())
        || (t.a.Col() == t.b.Col() == t.c.Col())
        || (t.a.Row() == t.a.Col() && t.b.Row() == t.b.Col() && t.c.Row() == t.c.Col())
        || (t.a.Row() + t.a.Col() == 2 && t.b.Row() + t.b.Col() == 2 && t.c.Row() + t.c.Col() == 2))
  }

  lemma WinningSlotsAreLines()
    ensures forall i :: 0 <= i < |WinningSlots| ==> IsLine(WinningSlots[i])
  {
  }

  /** Slot `s` is one of the three slots of `u`. */
  ghost predicate OnTriple(s: Slot, u: Triple) {
    s == u.a || s == u.b || s == u.c
  }

  /** Every slot of `t` lies on `u`. */
  ghost predicate Covers(u: Triple, t: Triple) {
    OnTriple(t.a, u) && OnTriple(t.b, u) && OnTriple(t.c, u)
  }

  /** Triple `i` is row `i` for the first three, column `i - 3` for the next
      three, then the main diagonal and the anti-diagonal. */
  lemma SlotOnWinningTriple(s: Slot, i: int)
    requires 0 <= i < |WinningSlots|
    requires i < 3 ==> s.Row() == i
    requires 3 <= i < 6 ==> s.Col() == i - 3
    requires i == 6 ==> s.Row() == s.Col()
    requires i == 7 ==> s.Row() + s.Col() == 2
    ensures OnTriple(s, WinningSlots[i])
  {
    match s
    case S00 => case S01 => case S02 =>
    case S10 => case S11 => case S12 =>
    case S20 => case S21 => case S22 =>
  }

  /** Conversely, every geometric line is one of the eight triples, so the
      scan misses no way to win. */
  lemma LinesAreWinningSlots(t: Triple)
    requires IsLine(t)
    ensures exists i :: 0 <= i < |WinningSlots| && Covers(WinningSlots[i], t)
  {
    var i :=
      if t.a.Row() == t.b.Row() == t.c.Row() then t.a.Row()
      else if t.a.Col() == t.b.Col() == t.c.Col() then 3 + t.a.Col()
      else if t.a.Row() == t.a.Col() && t.b.Row() == t.b.Col() && t.c.Row() == t.c.Col() then 6
      else 7;
    SlotOnWinningTriple(t.a, i);
    SlotOnWinningTriple(t.b, i);
    SlotOnWinningTriple(t.c, i);
  }

  /** Triple `i` is uniformly `m` and no triple before it is decided. */
  ghost predicate FirstLine(b: Board, i: int, m: Mark) {
    && 0 <= i < |WinningSlots|
    && Uniform(b, WinningSlots[i], m)
    && forall j :: 0 <= j < i ==> !Decided(b, WinningSlots[j])
  }

  /** `Winner` is the mark of the first decided triple in scan order, and
      only that: both directions. */
  lemma WinnerIsFirstLine(b: Board, m: Mark)
    ensures Winner(b) == Some(m) <==> exists i :: FirstLine(b, i, m)
  {
    var w := Winner(b);
    if w.Some? {
      var k :| 0 <= k < |WinningSlots| && Uniform(b, WinningSlots[k], w.value)
        && forall j :: 0 <= j < k ==> !Decided(b, WinningSlots[j]);
      assert FirstLine(b, k, w.value);
      assert Decided(b, WinningSlots[k]) by {
        if w.value == X {} else {}
      }
      if i :| FirstLine(b, i, m) {
        assert Decided(b, WinningSlots[i]) by {
          if m == X {} else {}
        }
        assert i == k;
      }
    } else {
      assert forall i :: !FirstLine(b, i, m) by {
        forall i | FirstLine(b, i, m) ensures false {
          assert Decided(b, WinningSlots[i]) by {
            if m == X {} else {}
          }
        }
      }
    }
  }

  /** No winner is reported exactly when no triple is uniformly marked. */
  lemma WinnerNoneIff(b: Board)
    ensures Winner(b).None? <==> !HasLine(b, X) && !HasLine(b, O)
  {
  }

  /** Each slot occurs at most once in `slots`. */
  predicate NoDuplicates(slots: seq<Slot>) {
    forall i, j :: 0 <= i < j < |slots| ==> slots[i] != slots[j]
  }

  /** Writing a slot outside `slots` does not change their count. */
  lemma {:induction false} CountFilledOutside(b: Board, slots: seq<Slot>, s: Slot, v: Option<Mark>)
    requires s !in slots
    ensures CountFilled(b[s := v], slots) == CountFilled(b, slots)
    decreases |slots|
  {
    if |slots| > 0 {
      CountFilledOutside(b, slots[1..], s, v);
    }
  }

  /** Marking one empty slot of a duplicate-free list raises its count by one. */
  lemma {:induction false} CountFilledPlace(b: Board, slots: seq<Slot>, s: Slot, m: Mark)
    requires NoDuplicates(slots) && s in slots && Get(b, s).None?
    ensures CountFilled(b[s := Some(m)], slots) == CountFilled(b, slots) + 1
    decreases |slots|
  {
    if slots[0] == s {
      assert s !in slots[1..];
      CountFilledOutside(b, slots[1..], s, Some(m));
    } else {
      CountFilledPlace(b, slots[1..], s, m);
    }
  }

  /** A board whose only marks are `m` on winning triple `i`. */
  ghost predicate OnlyLine(b: Board, i: int, m: Mark)
    requires 0 <= i < |WinningSlots|
  {
    var t := WinningSlots[i];
    forall s: Slot :: Get(b, s) == (if s == t.a || s == t.b || s == t.c then Some(m) else None)
  }

  /** Filling one winning triple with `m` and nothing else makes `m` the winner. */
  lemma SingleLineWins(b: Board, i: int, m: Mark)
    requires 0 <= i < |WinningSlots| && OnlyLine(b, i, m)
    ensures Winner(b) == Some(m)
  {
  }

  /** The scan written out triple by triple: no winner exactly when none
      of the eight triples is decided. */
  lemma WinnerNoneUnrolled(b: Board)
    ensures Winner(b).None? <==>
      && !Decided(b, Triple(S00, S01, S02)) && !Decided(b, Triple(S10, S11, S12))
      && !Decided(b, Triple(S20, S21, S22)) && !Decided(b, Triple(S00, S10, S20))
      && !Decided(b, Triple(S01, S11, S21)) && !Decided(b, Triple(S02, S12, S22))
      && !Decided(b, Triple(S00, S11, S22)) && !Decided(b, Triple(S02, S11, S20))
  {
    assert WinningSlots[0] == Triple(S00, S01, S02);
    assert WinningSlots[1] == Triple(S10, S11, S12);
    assert WinningSlots[2] == Triple(S20, S21, S22);
    assert WinningSlots[3] == Triple(S00, S10, S20);
    assert WinningSlots[4] == Triple(S01, S11, S21);
    assert WinningSlots[5] == Triple(S02, S12, S22);
    assert WinningSlots[6] == Triple(S00, S11, S22);
    assert WinningSlots[7] == Triple(S02, S11, S20);
  }
}
