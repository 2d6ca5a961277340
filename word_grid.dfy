/**
 * The board view (components/common/WordGrid.tsx): a drag becomes a straight
 * line of cells, a released selection is compared with the unfound words
 * after sorting both by row, then column, and the sets of found and of all
 * word cells drive the highlighting.
 */
module WordGrid {
  import opened Wrappers
  import opened Types

  // ================================================================ getLineCoords

  function Sign(x: int): int
  {
    if x > 0 then 1 else if x < 0 then -1 else 0
  }

  function Abs(x: int): nat
  {
    if x < 0 then -x else x
  }

  function Max(a: int, b: int): int
  {
    if a < b then b else a
  }

  lemma AbsTimesSign(x: int)
    ensures Abs(x) * Sign(x) == x
  {
  }

  /** A drag along a row, along a column, or along a 45-degree diagonal, of at least one step. */
  predicate Straight(start: Coord, end: Coord)
    ensures Straight(start, end) <==>
      (start != end
       && (start.row == end.row || start.col == end.col
           || end.row - start.row == end.col - start.col || end.row - start.row == start.col - end.col))
  {
    var dx, dy := end.row - start.row, end.col - start.col;
    (dx != 0 && dy == 0) || (dy != 0 && dx == 0) || (Abs(dx) == Abs(dy) && dx != 0)
  }

  /**
   * The cells getLineCoords returns: a straight drag gives every cell from
   * start to end, one step of (sign drow, sign dcol) at a time; anything else,
   * including start = end, gives the start cell alone.
   */
  function Line(start: Coord, end: Coord): (cs: seq<Coord>)
    ensures Straight(start, end) ==>
      |cs| == Max(Abs(end.row - start.row), Abs(end.col - start.col)) + 1
      && cs[0] == start && cs[|cs| - 1] == end
      && forall i :: 0 <= i < |cs| - 1 ==>
           cs[i + 1] == Coord(cs[i].row + Sign(end.row - start.row), cs[i].col + Sign(end.col - start.col))
    ensures !Straight(start, end) ==> cs == [start]
  {
    var dx, dy := end.row - start.row, end.col - start.col;
    var sx, sy := Sign(dx), Sign(dy);
    AbsTimesSign(dx);
    AbsTimesSign(dy);
    if dx != 0 && dy == 0 then
      seq(Abs(dx) + 1, i => Coord(start.row + i * sx, start.col))
    else if dy != 0 && dx == 0 then
      seq(Abs(dy) + 1, i => Coord(start.row, start.col + i * sy))
    else if Abs(dx) == Abs(dy) && dx != 0 then
      seq(Abs(dx) + 1, i => Coord(start.row + i * sx, start.col + i * sy))
    else
      [start]
  }

  /** getLineCoords: three push loops, one per kind of straight line. */
  method GetLineCoords(start: Coord, end: Coord) returns (coords: seq<Coord>)
    ensures coords == Line(start, end)
  {
    coords := [];
    var x0, y0 := start.row, start.col;
    var dx, dy := end.row - x0, end.col - y0;
    var sx, sy := Sign(dx), Sign(dy);
    if dx != 0 && dy == 0 {
      var i := 0;
      while i <= Abs(dx)
        invariant 0 <= i <= Abs(dx) + 1
        invariant |coords| == i
        invariant forall j :: 0 <= j < i ==> coords[j] == Coord(x0 + j * sx, y0)
      {
        coords := coords + [Coord(x0 + i * sx, y0)];
        i := i + 1;
      }
      return;
    }
    if dy != 0 && dx == 0 {
      var i := 0;
      while i <= Abs(dy)
        invariant 0 <= i <= Abs(dy) + 1
        invariant |coords| == i
        invariant forall j :: 0 <= j < i ==> coords[j] == Coord(x0, y0 + j * sy)
      {
        coords := coords + [Coord(x0, y0 + i * sy)];
        i := i + 1;
      }
      return;
    }
    if Abs(dx) == Abs(dy) && dx != 0 {
      var i := 0;
      while i <= Abs(dx)
        invariant 0 <= i <= Abs(dx) + 1
        invariant |coords| == i
        invariant forall j :: 0 <= j < i ==> coords[j] == Coord(x0 + j * sx, y0 + j * sy)
      {
        coords := coords + [Coord(x0 + i * sx, y0 + i * sy)];
        i := i + 1;
      }
      return;
    }
    return [start];
  }

  // ================================================================ the row-then-column order

  /** The sort comparator `a.row !== b.row ? a.row - b.row : a.col - b.col`. */
  function Compare(a: Coord, b: Coord): (order: int)
    ensures order < 0 <==> a.row < b.row || (a.row == b.row && a.col < b.col)
    ensures order == 0 <==> a == b
  {
    if a.row != b.row then a.row - b.row else a.col - b.col
  }

  lemma CompareIsTotalOrder(a: Coord, b: Coord, c: Coord)
    ensures Compare(a, b) == 0 <==> a == b
    ensures Compare(a, b) <= 0 || Compare(b, a) <= 0
    ensures Compare(a, b) <= 0 && Compare(b, c) <= 0 ==> Compare(a, c) <= 0
  {
  }

  predicate Sorted(s: seq<Coord>)
  {
    forall i, j :: 0 <= i < j < |s| ==> Compare(s[i], s[j]) <= 0
  }

  function Insert(x: Coord, s: seq<Coord>): (r: seq<Coord>)
    ensures |r| == |s| + 1
  {
    if s == [] || Compare(x, s[0]) <= 0 then [x] + s else [s[0]] + Insert(x, s[1..])
  }

  /** Inserting adds exactly the one cell. */
  lemma {:induction false} InsertSameCells(x: Coord, s: seq<Coord>)
    ensures multiset(Insert(x, s)) == multiset(s) + multiset{x}
  {
    if s != [] && Compare(x, s[0]) > 0 {
      assert s == [s[0]] + s[1..];
      InsertSameCells(x, s[1..]);
    }
  }

  /**
   * The array sort run with the comparator. Any sorting algorithm gives this
   * result: the comparator is a total order in which only equal cells tie
   * (SortedIsUnique).
   */
  function Sort(s: seq<Coord>): (r: seq<Coord>)
    ensures |r| == |s|
    ensures multiset(r) == multiset(s)
  {
    if s == [] then []
    else
      assert s == [s[0]] + s[1..];
      InsertSameCells(s[0], Sort(s[1..]));
      Insert(s[0], Sort(s[1..]))
  }

  lemma SortedCons(h: Coord, t: seq<Coord>)
    requires Sorted(t)
    requires forall j :: 0 <= j < |t| ==> Compare(h, t[j]) <= 0
    ensures Sorted([h] + t)
  {
    var r := [h] + t;
    forall i, j | 0 <= i < j < |r|
      ensures Compare(r[i], r[j]) <= 0
    {
      if i > 0 {
        assert r[i] == t[i - 1] && r[j] == t[j - 1];
      }
    }
  }

  /** The first cell of a sorted sequence comes no later than any of its cells. */
  lemma SortedHeadIsLeast(a: seq<Coord>, y: Coord)
    requires Sorted(a) && y in multiset(a)
    ensures Compare(a[0], y) <= 0
  {
    var i :| 0 <= i < |a| && a[i] == y;
    if i == 0 {
      CompareIsTotalOrder(y, y, y);
    }
  }

  lemma {:induction false} InsertSorted(x: Coord, s: seq<Coord>)
    requires Sorted(s)
    ensures Sorted(Insert(x, s)) && multiset(Insert(x, s)) == multiset(s) + multiset{x}
  {
    if s == [] || Compare(x, s[0]) <= 0 {
      forall j | 0 <= j < |s|
        ensures Compare(x, s[j]) <= 0
      {
        if j > 0 {
          CompareIsTotalOrder(x, s[0], s[j]);
        }
      }
      SortedCons(x, s);
    } else {
      assert s == [s[0]] + s[1..];
      InsertSorted(x, s[1..]);
      var t := Insert(x, s[1..]);
      forall j | 0 <= j < |t|
        ensures Compare(s[0], t[j]) <= 0
      {
        assert t[j] in multiset(t);
        if t[j] == x {
          CompareIsTotalOrder(s[0], x, x);
        } else {
          assert t[j] in multiset(s[1..]);
          assert t[j] in multiset(s);
          SortedHeadIsLeast(s, t[j]);
        }
      }
      SortedCons(s[0], t);
    }
  }

  /** Sorting yields the selection's own cells, in row-then-column order. */
  lemma {:induction false} SortIsSortedPermutation(s: seq<Coord>)
    ensures Sorted(Sort(s)) && multiset(Sort(s)) == multiset(s)
  {
    if s != [] {
      SortIsSortedPermutation(s[1..]);
      InsertSorted(s[0], Sort(s[1..]));
      assert s == [s[0]] + s[1..];
    }
  }

  /** Two sorted sequences with the same cells are equal. */
  lemma {:induction false} SortedIsUnique(a: seq<Coord>, b: seq<Coord>)
    requires Sorted(a) && Sorted(b) && multiset(a) == multiset(b)
    ensures a == b
  {
    if a != [] {
      assert a[0] in multiset(a);
      assert b != [];
      assert b[0] in multiset(b);
      SortedHeadIsLeast(a, b[0]);
      SortedHeadIsLeast(b, a[0]);
      CompareIsTotalOrder(a[0], b[0], a[0]);
      assert a == [a[0]] + a[1..];
      assert b == [b[0]] + b[1..];
      assert multiset(a[1..]) == multiset(a) - multiset{a[0]};
      assert multiset(b[1..]) == multiset(b) - multiset{b[0]};
      SortedIsUnique(a[1..], b[1..]);
    }
  }

  /** The sorted order depends only on which cells were selected, not on the order they were visited. */
  lemma SortDependsOnCellsOnly(a: seq<Coord>, b: seq<Coord>)
    requires multiset(a) == multiset(b)
    ensures Sort(a) == Sort(b)
  {
    SortIsSortedPermutation(a);
    SortIsSortedPermutation(b);
    SortedIsUnique(Sort(a), Sort(b));
  }

  // ================================================================ matching a released selection

  /** Word w is the one the selection picks: not found yet, as long as the selection, on the same cells. */
  predicate Matches(w: WordLocation, sel: seq<Coord>)
  {
    !w.found && |w.text| == |sel| && Sort(sel) == Sort(WordCells(w))
  }

  /** A selection matches a word exactly when the word is unfound and the selection covers its cells once each, in any order. */
  lemma MatchesSameCells(w: WordLocation, sel: seq<Coord>)
    ensures Matches(w, sel) <==> !w.found && |w.text| == |sel| && multiset(sel) == multiset(WordCells(w))
  {
    if !w.found && |w.text| == |sel| && multiset(sel) == multiset(WordCells(w)) {
      SortDependsOnCellsOnly(sel, WordCells(w));
    }
  }

  /** The first word from index k on that the selection matches. */
  function FirstMatch(words: seq<WordLocation>, sel: seq<Coord>, k: nat): (m: Option<nat>)
    requires k <= |words|
    ensures m.Some? ==>
      k <= m.value < |words| && Matches(words[m.value], sel)
      && forall j :: k <= j < m.value ==> !Matches(words[j], sel)
    ensures m.None? ==> forall j :: k <= j < |words| ==> !Matches(words[j], sel)
    decreases |words| - k
  {
    if k == |words| then None
    else if Matches(words[k], sel) then Some(k)
    else FirstMatch(words, sel, k + 1)
  }

  /** The loop's exit facts: the first match is the word it stopped at, or there is none. */
  lemma FirstMatchAt(words: seq<WordLocation>, sel: seq<Coord>, i: nat)
    requires i <= |words| && forall j :: 0 <= j < i ==> !Matches(words[j], sel)
    ensures i < |words| && Matches(words[i], sel) ==> FirstMatch(words, sel, 0) == Some(i)
    ensures i == |words| ==> FirstMatch(words, sel, 0) == None
  {
  }

  /**
   * The matching loop of handlePointerUp: skip found words and words of
   * another length, compare sorted cells, stop at the first match.
   */
  method FindMatch(words: seq<WordLocation>, selected: seq<Coord>) returns (reported: Option<string>)
    ensures reported.Some? <==> FirstMatch(words, selected, 0).Some?
    ensures reported.Some? ==> reported.value == words[FirstMatch(words, selected, 0).value].text
  {
    var sortedSelected := Sort(selected);
    var matchFound := false;
    reported := None;
    var i := 0;
    while i < |words|
      invariant 0 <= i <= |words|
      invariant !matchFound && reported == None
      invariant forall j :: 0 <= j < i ==> !Matches(words[j], selected)
    {
      var word := words[i];
      if word.found || |word.text| != |sortedSelected| {
        i := i + 1;
        continue;
      }
      var sortedWordCoords := Sort(WordCells(word));
      if sortedSelected == sortedWordCoords {
        FirstMatchAt(words, selected, i);
        reported := Some(word.text);
        matchFound := true;
        break;
      }
      i := i + 1;
    }
    if reported.None? {
      FirstMatchAt(words, selected, i);
    }
  }

  function Reverse(s: seq<Coord>): (r: seq<Coord>)
    ensures |r| == |s| && forall i :: 0 <= i < |s| ==> r[i] == s[|s| - 1 - i]
  {
    if s == [] then [] else Reverse(s[1..]) + [s[0]]
  }

  lemma {:induction false} ReverseSameCells(s: seq<Coord>)
    ensures multiset(Reverse(s)) == multiset(s)
  {
    if s != [] {
      ReverseSameCells(s[1..]);
      assert s == [s[0]] + s[1..];
    }
  }

  /**
   * A drag over an unfound word's cells, in any order, reports a word: that
   * one, or an earlier one in the list lying on the same cells.
   */
  lemma SelectingAWordReportsIt(words: seq<WordLocation>, i: nat, sel: seq<Coord>)
    requires i < |words| && !words[i].found
    requires multiset(sel) == multiset(WordCells(words[i]))
    ensures FirstMatch(words, sel, 0).Some? && FirstMatch(words, sel, 0).value <= i
    ensures Sort(sel) == Sort(WordCells(words[FirstMatch(words, sel, 0).value]))
  {
    SortDependsOnCellsOnly(sel, WordCells(words[i]));
    assert |sel| == |multiset(sel)|;
    assert Matches(words[i], sel);
  }

  /** A drag from the first to the last letter of a straight word selects exactly its cells; the reverse drag, the same cells backwards. */
  lemma DragAlongWord(w: WordLocation)
    requires |w.text| >= 2
    ensures Line(WordCells(w)[0], WordCells(w)[|w.text| - 1]) == WordCells(w)
    ensures Line(WordCells(w)[|w.text| - 1], WordCells(w)[0]) == Reverse(WordCells(w))
  {
    var cells := WordCells(w);
    var n := |w.text|;
    var first, last := cells[0], cells[n - 1];
    assert Straight(first, last);
    assert Straight(last, first);
    var fwd := Line(first, last);
    var bwd := Line(last, first);
    assert |fwd| == n && |bwd| == n;
    forall i | 0 <= i < n
      ensures fwd[i] == cells[i] && bwd[i] == cells[n - 1 - i]
    {
      match w.direction
      case Horizontal =>
      case Vertical =>
      case Diagonal =>
    }
  }

  /** Reversing the drag reports the same word. */
  lemma EitherDirectionSameReport(words: seq<WordLocation>, w: WordLocation)
    requires |w.text| >= 2
    ensures FirstMatch(words, Line(WordCells(w)[0], WordCells(w)[|w.text| - 1]), 0)
         == FirstMatch(words, Line(WordCells(w)[|w.text| - 1], WordCells(w)[0]), 0)
  {
    DragAlongWord(w);
    ReverseSameCells(WordCells(w));
    SortDependsOnCellsOnly(WordCells(w), Reverse(WordCells(w)));
    var a := Line(WordCells(w)[0], WordCells(w)[|w.text| - 1]);
    var b := Line(WordCells(w)[|w.text| - 1], WordCells(w)[0]);
    assert forall x :: Matches(x, a) == Matches(x, b);
    SameMatchesSameFirst(words, a, b, 0);
  }

  lemma {:induction false} SameMatchesSameFirst(words: seq<WordLocation>, a: seq<Coord>, b: seq<Coord>, k: nat)
    requires k <= |words|
    requires forall x :: Matches(x, a) == Matches(x, b)
    ensures FirstMatch(words, a, k) == FirstMatch(words, b, k)
    decreases |words| - k
  {
    if k < |words| {
      SameMatchesSameFirst(words, a, b, k + 1);
    }
  }

  // ================================================================ foundCells / allWordCells

  /** The cells of one word, as a set. */
  function WordCellSet(w: WordLocation): (cells: set<Coord>)
    ensures forall i :: 0 <= i < |w.text| ==> PathCell(w.startRow, w.startCol, w.direction, i) in cells
    ensures forall p :: p in cells ==> exists i :: 0 <= i < |w.text| && p == PathCell(w.startRow, w.startCol, w.direction, i)
  {
    set i | 0 <= i < |w.text| :: PathCell(w.startRow, w.startCol, w.direction, i)
  }

  /** The cells of the words (only the found ones when onlyFound holds), as a set. */
  function CoveredCells(words: seq<WordLocation>, onlyFound: bool): (cells: set<Coord>)
    ensures forall p :: p in cells <==>
      exists k :: 0 <= k < |words| && (words[k].found || !onlyFound) && p in WordCellSet(words[k])
  {
    if words == [] then {}
    else
      var w := words[|words| - 1];
      CoveredCells(words[..|words| - 1], onlyFound) + (if w.found || !onlyFound then WordCellSet(w) else {})
  }

  /** The inner loop of the memoised sets: add the cell of every letter of one word. */
  method AddWordCells(cellSet: set<Coord>, word: WordLocation) returns (cells: set<Coord>)
    ensures cells == cellSet + WordCellSet(word)
  {
    cells := cellSet;
    var i := 0;
    while i < |word.text|
      invariant 0 <= i <= |word.text|
      invariant cells == cellSet + set j | 0 <= j < i :: PathCell(word.startRow, word.startCol, word.direction, j)
    {
      var r, c := word.startRow, word.startCol;
      if word.direction == Horizontal {
        c := c + i;
      } else if word.direction == Vertical {
        r := r + i;
      } else if word.direction == Diagonal {
        r, c := r + i, c + i;
      }
      assert Coord(r, c) == PathCell(word.startRow, word.startCol, word.direction, i);
      assert (set j | 0 <= j < i + 1 :: PathCell(word.startRow, word.startCol, word.direction, j))
          == (set j | 0 <= j < i :: PathCell(word.startRow, word.startCol, word.direction, j))
             + {PathCell(word.startRow, word.startCol, word.direction, i)};
      cells := cells + {Coord(r, c)};
      i := i + 1;
    }
  }

  /**
   * The two memoised sets: for each word (each found word for foundCells),
   * for each letter, add the cell.
   */
  method CollectCells(words: seq<WordLocation>, onlyFound: bool) returns (cellSet: set<Coord>)
    ensures cellSet == CoveredCells(words, onlyFound)
  {
    cellSet := {};
    var k := 0;
    while k < |words|
      invariant 0 <= k <= |words|
      invariant cellSet == CoveredCells(words[..k], onlyFound)
    {
      var word := words[k];
      assert words[..k + 1][..k] == words[..k];
      if word.found || !onlyFound {
        cellSet := AddWordCells(cellSet, word);
      }
      k := k + 1;
    }
    assert words[..|words|] == words;
  }

  /** Every found cell is a word cell. */
  lemma FoundCellsAreWordCells(words: seq<WordLocation>)
    ensures CoveredCells(words, true) <= CoveredCells(words, false)
  {
  }

  // ================================================================ the selection state

  /** The `turnResult` prop: the outcome of the last submitted word, or none. */
  datatype TurnResult = TurnSuccess | TurnFail

  /** The board's selection state: the highlighted cells, the cells of a failed attempt, and whether a drag is on. */
  class Selection {
    var selected: seq<Coord>
    var failed: seq<Coord>
    var selecting: bool

    constructor ()
      ensures selected == [] && failed == [] && !selecting
    {
      selected, failed, selecting := [], [], false;
    }

    /** handlePointerDown: only during an active turn; the drag starts at the pressed cell. */
    method PointerDown(isTurnActive: bool, row: int, col: int)
      modifies this
      ensures !isTurnActive ==> selected == old(selected) && selecting == old(selecting)
      ensures isTurnActive ==> selected == [Coord(row, col)] && selecting
      ensures failed == old(failed)
    {
      if !isTurnActive {
        return;
      }
      selecting := true;
      selected := [Coord(row, col)];
    }

    /** handlePointerMove: while dragging, the selection is the line from the first selected cell to this one. */
    method PointerMove(row: int, col: int)
      modifies this
      ensures old(selecting) && old(selected) != [] ==>
        selected == Line(old(selected)[0], Coord(row, col)) && selected[0] == old(selected)[0]
      ensures !(old(selecting) && old(selected) != []) ==> selected == old(selected)
      ensures selecting == old(selecting) && failed == old(failed)
    {
      if !selecting {
        return;
      }
      if selected == [] {
        return;
      }
      var startCell := selected[0];
      var lineCoords := GetLineCoords(startCell, Coord(row, col));
      selected := lineCoords;
    }

    /**
     * handlePointerUp: ends the drag. Fewer than 2 cells report nothing and
     * clear the selection; otherwise the first matching word is reported and
     * the selection kept, or, with no match, the selection becomes the failed
     * selection and is cleared.
     */
    method PointerUp(words: seq<WordLocation>) returns (reported: Option<string>)
      modifies this
      ensures !old(selecting) ==> reported == None && selected == old(selected) && failed == old(failed) && !selecting
      ensures old(selecting) && |old(selected)| < 2 ==>
        reported == None && selected == [] && failed == old(failed) && !selecting
      ensures old(selecting) && |old(selected)| >= 2 ==>
        !selecting
        && (reported.Some? <==> FirstMatch(words, old(selected), 0).Some?)
        && (reported.Some? ==> reported.value == words[FirstMatch(words, old(selected), 0).value].text
                               && selected == old(selected) && failed == old(failed))
        && (reported.None? ==> failed == old(selected) && selected == [])
    {
      if !selecting {
        return None;
      }
      selecting := false;
      if |selected| < 2 {
        selected := [];
        return None;
      }
      reported := FindMatch(words, selected);
      if reported.None? {
        failed := selected;
        selected := [];
      }
    }

    /** The turnResult effect: the selection is cleared when the result goes back to none. */
    method TurnResultChanged(turnResult: Option<TurnResult>)
      modifies this
      ensures turnResult.None? ==> selected == []
      ensures turnResult.Some? ==> selected == old(selected)
      ensures failed == old(failed) && selecting == old(selecting)
    {
      if turnResult.None? {
        selected := [];
      }
    }
  }
}
