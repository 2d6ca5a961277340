/**
 * The puzzle generator (services/gameService.ts): words are written into a
 * GRID_SIZE x GRID_SIZE grid of cells, each word tried at up to MAX_ATTEMPTS
 * random positions; two words may share a cell only where their letters
 * agree; a word that fits nowhere is dropped; empty cells are then filled
 * with random letters.
 *
 * Randomness is an oracle: for each word a sequence of draws (direction and
 * start cell, each within the range `Math.floor(Math.random() * n)` can
 * produce) and, for the fill, one letter of ALPHABET per cell.
 *
 * The first half is the specification on grid values (`Grid`); the second
 * half is the source's in-place algorithm on an `array2<Cell>`, proved to
 * compute exactly what the specification says.
 */
module GameService {
  import opened Wrappers
  import opened Types

  const MAX_ATTEMPTS: nat := 100
  const ALPHABET: string := "ABCDEFGHIJKLMNOPQRSTUVWXYZ"

  /** The 20 themes a puzzle can be generated for. */
  const THEMES: seq<string> := [
    "Space Exploration", "Ancient Mythology", "Ocean Life", "Cooking & Baking",
    "Famous Artists", "World Capitals", "Fantasy Creatures", "Computer Science",
    "Musical Instruments", "Sports & Athletics", "Movie Genres", "Literary Classics",
    "Weather & Climate", "In the Garden", "Types of Vehicles", "Everyday Electronics",
    "Fruits & Vegetables", "Office Supplies", "Astronomy", "Chemistry Terms"
  ]

  type Grid = seq<seq<Cell>>

  datatype GenError =
    | Shortfall(supplied: nat, required: int)  // fewer words supplied than requested
    | OffGridAccess(word: string)              // canPlace read a cell outside the grid (a TypeError in the source)

  /** One random attempt of placeWord: a direction and a start cell. */
  datatype Draw = Draw(direction: Direction, row: int, col: int)

  /** What canPlace finds: the word fits, a differing letter is in the way, or the path leaves the grid. */
  datatype Fit = Fits | Clash | OffGrid

  datatype PlaceOutcome = Placed(loc: WordLocation) | NotPlaced | Crashed

  /** The grid and the words placed so far. */
  datatype Layout = Layout(grid: Grid, placed: seq<WordLocation>)

  // ================================================================ grid values

  predicate IsGrid(g: Grid)
  {
    |g| == GRID_SIZE && forall r :: 0 <= r < |g| ==> |g[r]| == GRID_SIZE
  }

  predicate InGrid(p: Coord)
  {
    0 <= p.row < GRID_SIZE && 0 <= p.col < GRID_SIZE
  }

  function At(g: Grid, p: Coord): Cell
    requires IsGrid(g) && InGrid(p)
  {
    g[p.row][p.col]
  }

  /** JavaScript truthiness of `cell.partOfWord`: present and not the empty string. */
  predicate Owned(c: Cell)
  {
    c.partOfWord.Some? && c.partOfWord.value != ""
  }

  function EmptyGrid(): (g: Grid)
    ensures IsGrid(g)
  {
    seq(GRID_SIZE, _ => seq(GRID_SIZE, _ => Cell("", None)))
  }

  /** Two grids with the same cells are the same grid. */
  lemma SameGrid(a: Grid, b: Grid)
    requires IsGrid(a) && IsGrid(b)
    requires forall r, c :: 0 <= r < GRID_SIZE && 0 <= c < GRID_SIZE ==> a[r][c] == b[r][c]
    ensures a == b
  {
    forall r | 0 <= r < GRID_SIZE
      ensures a[r] == b[r]
    {
      assert |a[r]| == |b[r]|;
    }
  }

  // ================================================================ canPlace

  /** Cell i of the path is usable: inside the grid, and unowned or already holding word[i]. */
  predicate Compatible(word: string, row: int, col: int, d: Direction, g: Grid, i: int)
    requires IsGrid(g) && 0 <= i < |word|
  {
    var p := PathCell(row, col, d, i);
    InGrid(p) && (!Owned(At(g, p)) || At(g, p).letter == [word[i]])
  }

  /** canPlace's loop from index i on: the first cell off the grid, or the first clash, decides. */
  function CheckFrom(word: string, row: int, col: int, d: Direction, g: Grid, i: nat): (f: Fit)
    requires IsGrid(g) && i <= |word|
    ensures f == Fits ==> forall k :: i <= k < |word| ==> Compatible(word, row, col, d, g, k)
    decreases |word| - i
  {
    if i == |word| then Fits
    else
      var p := PathCell(row, col, d, i);
      if !InGrid(p) then OffGrid
      else if Owned(At(g, p)) && At(g, p).letter != [word[i]] then Clash
      else CheckFrom(word, row, col, d, g, i + 1)
  }

  function Check(word: string, row: int, col: int, d: Direction, g: Grid): (f: Fit)
    requires IsGrid(g)
    ensures f == Fits ==> forall k :: 0 <= k < |word| ==> Compatible(word, row, col, d, g, k)
  {
    CheckFrom(word, row, col, d, g, 0)
  }

  lemma {:induction false} CheckFromFits(word: string, row: int, col: int, d: Direction, g: Grid, i: nat)
    requires IsGrid(g) && i <= |word|
    ensures CheckFrom(word, row, col, d, g, i) == Fits
            <==> forall k :: i <= k < |word| ==> Compatible(word, row, col, d, g, k)
    decreases |word| - i
  {
    if i < |word| {
      CheckFromFits(word, row, col, d, g, i + 1);
      assert (forall k :: i <= k < |word| ==> Compatible(word, row, col, d, g, k))
        <==> Compatible(word, row, col, d, g, i) && forall k :: i + 1 <= k < |word| ==> Compatible(word, row, col, d, g, k);
    }
  }

  /** canPlace accepts a path exactly when every cell on it is inside the grid and compatible. */
  lemma CheckFitsIff(word: string, row: int, col: int, d: Direction, g: Grid)
    requires IsGrid(g)
    ensures Check(word, row, col, d, g) == Fits
            <==> forall k :: 0 <= k < |word| ==> Compatible(word, row, col, d, g, k)
  {
    CheckFromFits(word, row, col, d, g, 0);
  }

  lemma {:induction false} CheckFromStaysOnGrid(word: string, row: int, col: int, d: Direction, g: Grid, i: nat)
    requires IsGrid(g) && i <= |word|
    requires forall k :: 0 <= k < |word| ==> InGrid(PathCell(row, col, d, k))
    ensures CheckFrom(word, row, col, d, g, i) != OffGrid
    decreases |word| - i
  {
    if i < |word| {
      CheckFromStaysOnGrid(word, row, col, d, g, i + 1);
    }
  }

  // ================================================================ the random draws

  /** The values `Math.floor(Math.random() * n)` can take (for n <= 0 the product lies in (n, 0]). */
  predicate InDrawRange(x: int, n: int)
  {
    if n > 0 then 0 <= x < n else n <= x <= 0
  }

  function RowSpan(d: Direction, len: int): int
  {
    if d == Horizontal then GRID_SIZE else GRID_SIZE - len + 1
  }

  function ColSpan(d: Direction, len: int): int
  {
    if d == Vertical then GRID_SIZE else GRID_SIZE - len + 1
  }

  /** A draw placeWord can make for this word. */
  predicate Drawable(word: string, dr: Draw)
  {
    InDrawRange(dr.row, RowSpan(dr.direction, |word|)) && InDrawRange(dr.col, ColSpan(dr.direction, |word|))
  }

  /** For a word no longer than the grid, every drawn start keeps the whole path inside the grid. */
  lemma DrawnPathStaysOnGrid(word: string, dr: Draw, g: Grid)
    requires IsGrid(g) && |word| <= GRID_SIZE && Drawable(word, dr)
    ensures forall k :: 0 <= k < |word| ==> InGrid(PathCell(dr.row, dr.col, dr.direction, k))
    ensures Check(word, dr.row, dr.col, dr.direction, g) != OffGrid
  {
    CheckFromStaysOnGrid(word, dr.row, dr.col, dr.direction, g, 0);
  }

  // ================================================================ writing a word

  /** The letter index at which a word's path passes through p, if it does. */
  function PathIndex(word: string, row: int, col: int, d: Direction, p: Coord): (ix: Option<nat>)
    ensures ix.Some? ==> ix.value < |word| && PathCell(row, col, d, ix.value) == p
    ensures ix.None? ==> forall i :: 0 <= i < |word| ==> PathCell(row, col, d, i) != p
  {
    var i := match d
      case Horizontal => p.col - col
      case Vertical => p.row - row
      case Diagonal => p.row - row;
    if 0 <= i < |word| && PathCell(row, col, d, i) == p then Some(i) else None
  }

  lemma PathIndexOfPathCell(word: string, row: int, col: int, d: Direction, i: int)
    requires 0 <= i < |word|
    ensures PathIndex(word, row, col, d, PathCell(row, col, d, i)) == Some(i)
  {
  }

  /** The grid after placeWord's write loop: each path cell holds word[i] and is owned by word; no other cell changes. */
  function Write(g: Grid, word: string, row: int, col: int, d: Direction): (g': Grid)
    requires IsGrid(g)
    ensures IsGrid(g')
    ensures forall r, c :: 0 <= r < GRID_SIZE && 0 <= c < GRID_SIZE && PathIndex(word, row, col, d, Coord(r, c)).None? ==>
      g'[r][c] == g[r][c]
    ensures forall i :: 0 <= i < |word| && InGrid(PathCell(row, col, d, i)) ==>
      At(g', PathCell(row, col, d, i)) == Cell([word[i]], Some(word))
  {
    seq(GRID_SIZE, (r: int) requires 0 <= r < GRID_SIZE =>
      seq(GRID_SIZE, (c: int) requires 0 <= c < GRID_SIZE =>
        match PathIndex(word, row, col, d, Coord(r, c))
        case Some(i) => Cell([word[i]], Some(word))
        case None => g[r][c]))
  }

  /** Word w can be read out of g: every letter is on the grid, in place, and in an owned cell. */
  predicate ReadsAt(g: Grid, w: WordLocation)
    requires IsGrid(g)
  {
    forall i :: 0 <= i < |w.text| ==>
      InGrid(PathCell(w.startRow, w.startCol, w.direction, i))
      && At(g, PathCell(w.startRow, w.startCol, w.direction, i)).letter == [w.text[i]]
      && Owned(At(g, PathCell(w.startRow, w.startCol, w.direction, i)))
  }

  function Location(word: string, dr: Draw): (loc: WordLocation)
  {
    WordLocation(word, dr.row, dr.col, dr.direction, false, None)
  }

  /** A placement canPlace accepted leaves every earlier word readable, and makes the new one readable. */
  lemma WriteKeepsWords(g: Grid, word: string, dr: Draw, w: WordLocation)
    requires IsGrid(g)
    requires Check(word, dr.row, dr.col, dr.direction, g) == Fits
    ensures ReadsAt(Write(g, word, dr.row, dr.col, dr.direction), Location(word, dr))
    ensures ReadsAt(g, w) ==> ReadsAt(Write(g, word, dr.row, dr.col, dr.direction), w)
  {
    var g' := Write(g, word, dr.row, dr.col, dr.direction);
    CheckFitsIff(word, dr.row, dr.col, dr.direction, g);
    forall i | 0 <= i < |word|
      ensures InGrid(PathCell(dr.row, dr.col, dr.direction, i))
      ensures At(g', PathCell(dr.row, dr.col, dr.direction, i)) == Cell([word[i]], Some(word))
    {
      assert Compatible(word, dr.row, dr.col, dr.direction, g, i);
      PathIndexOfPathCell(word, dr.row, dr.col, dr.direction, i);
    }
    if ReadsAt(g, w) {
      forall i | 0 <= i < |w.text|
        ensures At(g', PathCell(w.startRow, w.startCol, w.direction, i)).letter == [w.text[i]]
        ensures Owned(At(g', PathCell(w.startRow, w.startCol, w.direction, i)))
      {
        var p := PathCell(w.startRow, w.startCol, w.direction, i);
        var ix := PathIndex(word, dr.row, dr.col, dr.direction, p);
        if ix.Some? {
          assert Compatible(word, dr.row, dr.col, dr.direction, g, ix.value);
        }
      }
    }
  }

  // ================================================================ placeWord

  /** placeWord from attempt k on: the first draw that fits places the word; a draw off the grid throws. */
  function TryFrom(word: string, g: Grid, draws: seq<Draw>, k: nat): (outcome: PlaceOutcome)
    requires IsGrid(g) && |draws| >= MAX_ATTEMPTS && k <= MAX_ATTEMPTS
    ensures outcome.Placed? ==>
      outcome.loc.text == word && !outcome.loc.found && outcome.loc.foundBy == None
      && Check(word, outcome.loc.startRow, outcome.loc.startCol, outcome.loc.direction, g) == Fits
    decreases MAX_ATTEMPTS - k
  {
    if k == MAX_ATTEMPTS then NotPlaced
    else
      match Check(word, draws[k].row, draws[k].col, draws[k].direction, g)
      case Fits => Placed(Location(word, draws[k]))
      case OffGrid => Crashed
      case Clash => TryFrom(word, g, draws, k + 1)
  }

  /** The grid after placeWord returned the outcome: written on success, untouched otherwise. */
  function AfterPlace(g: Grid, outcome: PlaceOutcome): (g': Grid)
    requires IsGrid(g)
    ensures IsGrid(g')
  {
    match outcome
    case Placed(loc) => Write(g, loc.text, loc.startRow, loc.startCol, loc.direction)
    case _ => g
  }

  /**
   * What placeWord's outcome means: a placed word sits at the first of at most
   * MAX_ATTEMPTS draws that fits, is not found and has no finder; it is dropped
   * only when every attempt clashes; it throws only at a draw whose path leaves
   * the grid, after clashes only.
   */
  lemma {:induction false} TryFromMeaning(word: string, g: Grid, draws: seq<Draw>, k: nat)
    requires IsGrid(g) && |draws| >= MAX_ATTEMPTS && k <= MAX_ATTEMPTS
    ensures TryFrom(word, g, draws, k).Placed? ==>
      exists j :: k <= j < MAX_ATTEMPTS
        && TryFrom(word, g, draws, k).loc == Location(word, draws[j])
        && Check(word, draws[j].row, draws[j].col, draws[j].direction, g) == Fits
        && forall j' :: k <= j' < j ==> Check(word, draws[j'].row, draws[j'].col, draws[j'].direction, g) == Clash
    ensures TryFrom(word, g, draws, k).NotPlaced? <==>
      forall j :: k <= j < MAX_ATTEMPTS ==> Check(word, draws[j].row, draws[j].col, draws[j].direction, g) == Clash
    ensures TryFrom(word, g, draws, k).Crashed? ==>
      exists j :: k <= j < MAX_ATTEMPTS
        && Check(word, draws[j].row, draws[j].col, draws[j].direction, g) == OffGrid
    decreases MAX_ATTEMPTS - k
  {
    if k < MAX_ATTEMPTS {
      TryFromMeaning(word, g, draws, k + 1);
      var fit := Check(word, draws[k].row, draws[k].col, draws[k].direction, g);
      if fit == Clash && TryFrom(word, g, draws, k).Placed? {
        var j :| k + 1 <= j < MAX_ATTEMPTS
          && TryFrom(word, g, draws, k + 1).loc == Location(word, draws[j])
          && Check(word, draws[j].row, draws[j].col, draws[j].direction, g) == Fits
          && forall j' :: k + 1 <= j' < j ==> Check(word, draws[j'].row, draws[j'].col, draws[j'].direction, g) == Clash;
        assert forall j' :: k <= j' < j ==> Check(word, draws[j'].row, draws[j'].col, draws[j'].direction, g) == Clash;
      }
    }
  }

  /** When no draw leaves the grid, placeWord never throws. */
  lemma {:induction false} TryFromNoCrash(word: string, g: Grid, draws: seq<Draw>, k: nat)
    requires IsGrid(g) && |draws| >= MAX_ATTEMPTS && k <= MAX_ATTEMPTS
    requires |word| <= GRID_SIZE
    requires forall j :: 0 <= j < MAX_ATTEMPTS ==> Drawable(word, draws[j])
    ensures !TryFrom(word, g, draws, k).Crashed?
    decreases MAX_ATTEMPTS - k
  {
    if k < MAX_ATTEMPTS {
      DrawnPathStaysOnGrid(word, draws[k], g);
      TryFromNoCrash(word, g, draws, k + 1);
    }
  }

  /** placeWord's outcome and grid change together keep every earlier word readable and add the new one. */
  lemma PlaceKeepsWords(word: string, g: Grid, draws: seq<Draw>, w: WordLocation)
    requires IsGrid(g) && |draws| >= MAX_ATTEMPTS
    ensures ReadsAt(g, w) ==> ReadsAt(AfterPlace(g, TryFrom(word, g, draws, 0)), w)
    ensures TryFrom(word, g, draws, 0).Placed? ==>
      ReadsAt(AfterPlace(g, TryFrom(word, g, draws, 0)), TryFrom(word, g, draws, 0).loc)
  {
    TryFromMeaning(word, g, draws, 0);
    var outcome := TryFrom(word, g, draws, 0);
    if outcome.Placed? {
      var j :| 0 <= j < MAX_ATTEMPTS
        && outcome.loc == Location(word, draws[j])
        && Check(word, draws[j].row, draws[j].col, draws[j].direction, g) == Fits
        && forall j' :: 0 <= j' < j ==> Check(word, draws[j'].row, draws[j'].col, draws[j'].direction, g) == Clash;
      WriteKeepsWords(g, word, draws[j], w);
    }
  }

  // ================================================================ createGrid

  /** The oracle for createGrid: at least MAX_ATTEMPTS draws per word, each one placeWord could make. */
  predicate DrawOracle(words: seq<string>, draws: seq<seq<Draw>>)
  {
    |draws| == |words|
    && forall k :: 0 <= k < |draws| ==>
         |draws[k]| >= MAX_ATTEMPTS && forall j :: 0 <= j < |draws[k]| ==> Drawable(words[k], draws[k][j])
  }

  /** The oracle for the fill: one letter of ALPHABET per cell. */
  predicate FillOracle(fill: seq<seq<char>>)
  {
    |fill| == GRID_SIZE
    && forall r :: 0 <= r < GRID_SIZE ==>
         |fill[r]| == GRID_SIZE && forall c :: 0 <= c < GRID_SIZE ==> fill[r][c] in ALPHABET
  }

  /** createGrid's placement loop from word k on, starting from layout l; the first word that throws ends it. */
  function PlaceFrom(words: seq<string>, draws: seq<seq<Draw>>, k: nat, l: Layout): (res: Result<Layout, GenError>)
    requires DrawOracle(words, draws) && k <= |words| && IsGrid(l.grid)
    ensures res.Success? ==> IsGrid(res.value.grid)
    ensures res.Success? ==>
      |l.placed| <= |res.value.placed| <= |l.placed| + |words| - k && res.value.placed[..|l.placed|] == l.placed
    ensures res.Failure? ==> res.error.OffGridAccess? && res.error.word in words[k..]
    decreases |words| - k
  {
    if k == |words| then Success(l)
    else
      match Step(words[k], l, draws[k])
      case Failure(e) => Failure(e)
      case Success(l') => PlaceFrom(words, draws, k + 1, l')
  }

  /** One iteration of createGrid's loop: a placed word is appended, a dropped one skipped, a throw ends the loop. */
  function Step(word: string, l: Layout, draws: seq<Draw>): (res: Result<Layout, GenError>)
    requires IsGrid(l.grid) && |draws| >= MAX_ATTEMPTS
    ensures res.Success? ==> IsGrid(res.value.grid)
    ensures res.Failure? <==> TryFrom(word, l.grid, draws, 0).Crashed?
    ensures res.Failure? ==> res.error == OffGridAccess(word)
    ensures res.Success? ==> |l.placed| <= |res.value.placed| <= |l.placed| + 1 && res.value.placed[..|l.placed|] == l.placed
  {
    match TryFrom(word, l.grid, draws, 0)
    case Crashed => Failure(OffGridAccess(word))
    case NotPlaced => Success(l)
    case Placed(loc) => Success(Layout(AfterPlace(l.grid, Placed(loc)), l.placed + [loc]))
  }

  /** The grid after the fill loop: every empty cell gets its oracle letter, nothing else changes. */
  function Fill(g: Grid, fill: seq<seq<char>>): (g': Grid)
    requires IsGrid(g) && FillOracle(fill)
    ensures IsGrid(g')
    ensures forall r, c :: 0 <= r < GRID_SIZE && 0 <= c < GRID_SIZE ==>
      g'[r][c].letter != "" && (g[r][c].letter != "" ==> g'[r][c] == g[r][c])
  {
    seq(GRID_SIZE, (r: int) requires 0 <= r < GRID_SIZE =>
      seq(GRID_SIZE, (c: int) requires 0 <= c < GRID_SIZE =>
        if g[r][c].letter == "" then g[r][c].(letter := [fill[r][c]]) else g[r][c]))
  }

  function CreateGridSpec(words: seq<string>, draws: seq<seq<Draw>>, fill: seq<seq<char>>): (r: Result<GridData, GenError>)
    requires DrawOracle(words, draws) && FillOracle(fill)
    ensures r.Success? ==> IsGrid(r.value.grid) && |r.value.words| <= |words|
    ensures r.Failure? ==> r.error.OffGridAccess? && r.error.word in words
  {
    match PlaceFrom(words, draws, 0, Layout(EmptyGrid(), []))
    case Failure(e) => Failure(e)
    case Success(l) => Success(GridData(Fill(l.grid, fill), l.placed))
  }

  // ---------------------------------------------------------------- what createGrid guarantees

  function Texts(ws: seq<WordLocation>): (ts: seq<string>)
    ensures |ts| == |ws|
    ensures forall i :: 0 <= i < |ws| ==> ts[i] == ws[i].text
  {
    seq(|ws|, i requires 0 <= i < |ws| => ws[i].text)
  }

  /** a can be obtained from b by deleting elements, keeping the order. */
  predicate IsSubsequence(a: seq<string>, b: seq<string>)
    decreases |b|
  {
    a == []
    || (b != [] && ((a[|a| - 1] == b[|b| - 1] && IsSubsequence(a[..|a| - 1], b[..|b| - 1]))
                    || IsSubsequence(a, b[..|b| - 1])))
  }

  /**
   * For each word from k on, up to the first one whose placeWord throws:
   * whether placeWord returned a location for it, tried on the grid that the
   * earlier iterations of the loop left behind.
   */
  function Kept(words: seq<string>, draws: seq<seq<Draw>>, k: nat, l: Layout): (kept: seq<bool>)
    requires DrawOracle(words, draws) && k <= |words| && IsGrid(l.grid)
    ensures |kept| <= |words| - k
    decreases |words| - k
  {
    if k == |words| then []
    else
      match Step(words[k], l, draws[k])
      case Failure(_) => []
      case Success(l') => [TryFrom(words[k], l.grid, draws[k], 0).Placed?] + Kept(words, draws, k + 1, l')
  }

  /** The elements of ws whose flag is set, in order. */
  function Select(ws: seq<string>, flags: seq<bool>): (sel: seq<string>)
    requires |flags| == |ws|
    ensures |sel| <= |ws|
  {
    if ws == [] then [] else (if flags[0] then [ws[0]] else []) + Select(ws[1..], flags[1..])
  }

  /** Every letter of the word is one ALPHABET can produce (the sanitised shape the word supplier delivers). */
  predicate UpperWord(w: string)
  {
    forall i :: 0 <= i < |w| ==> w[i] in ALPHABET
  }

  /** Every cell's letter is empty or a single ALPHABET letter. */
  predicate LettersFromAlphabet(g: Grid)
    requires IsGrid(g)
  {
    forall r, c :: 0 <= r < GRID_SIZE && 0 <= c < GRID_SIZE ==>
      g[r][c].letter == "" || (|g[r][c].letter| == 1 && g[r][c].letter[0] in ALPHABET)
  }

  /** The invariant of createGrid's placement loop. */
  predicate LayoutInvariant(words: seq<string>, n: nat, l: Layout)
    requires n <= |words|
  {
    IsGrid(l.grid)
    && (forall w :: w in l.placed ==> ReadsAt(l.grid, w) && !w.found && w.foundBy == None)
    && IsSubsequence(Texts(l.placed), words[..n])
    && ((forall k :: 0 <= k < |words| ==> UpperWord(words[k])) ==> LettersFromAlphabet(l.grid))
  }

  lemma WriteLetters(g: Grid, word: string, row: int, col: int, d: Direction)
    requires IsGrid(g) && LettersFromAlphabet(g) && UpperWord(word)
    ensures LettersFromAlphabet(Write(g, word, row, col, d))
  {
    var g': Grid := Write(g, word, row, col, d);
    forall r: int, c: int | 0 <= r < GRID_SIZE && 0 <= c < GRID_SIZE
      ensures g'[r][c].letter == "" || (|g'[r][c].letter| == 1 && g'[r][c].letter[0] in ALPHABET)
    {
      var ix := PathIndex(word, row, col, d, Coord(r, c));
      if ix.Some? {
        assert word[ix.value] in ALPHABET;
      }
    }
  }

  /** One placement step keeps every earlier word readable and unfound, and adds the new one so. */
  lemma StepKeepsWords(word: string, l: Layout, draws: seq<Draw>)
    requires IsGrid(l.grid) && |draws| >= MAX_ATTEMPTS
    requires forall w :: w in l.placed ==> ReadsAt(l.grid, w) && !w.found && w.foundBy == None
    ensures Step(word, l, draws).Success? ==>
      var l' := Step(word, l, draws).value;
      forall w :: w in l'.placed ==> ReadsAt(l'.grid, w) && !w.found && w.foundBy == None
  {
    var outcome := TryFrom(word, l.grid, draws, 0);
    if Step(word, l, draws).Success? {
      var l' := Step(word, l, draws).value;
      forall w | w in l.placed
        ensures ReadsAt(l'.grid, w)
      {
        PlaceKeepsWords(word, l.grid, draws, w);
      }
      if outcome.Placed? {
        PlaceKeepsWords(word, l.grid, draws, outcome.loc);
        TryFromMeaning(word, l.grid, draws, 0);
      }
    }
  }

  /** One placement step appends the word it was given exactly when placeWord returned a location for it. */
  lemma StepTexts(word: string, l: Layout, draws: seq<Draw>)
    requires IsGrid(l.grid) && |draws| >= MAX_ATTEMPTS
    ensures Step(word, l, draws).Success? ==>
      Texts(Step(word, l, draws).value.placed)
        == Texts(l.placed) + (if TryFrom(word, l.grid, draws, 0).Placed? then [word] else [])
  {
    TryFromMeaning(word, l.grid, draws, 0);
    var outcome := TryFrom(word, l.grid, draws, 0);
    if outcome.Placed? {
      assert Texts(l.placed + [outcome.loc]) == Texts(l.placed) + [word];
    }
  }

  /** One placement step of a sanitised word keeps every letter in ALPHABET. */
  lemma StepLetters(word: string, l: Layout, draws: seq<Draw>)
    requires IsGrid(l.grid) && |draws| >= MAX_ATTEMPTS
    requires LettersFromAlphabet(l.grid) && UpperWord(word)
    ensures Step(word, l, draws).Success? ==> LettersFromAlphabet(Step(word, l, draws).value.grid)
  {
    TryFromMeaning(word, l.grid, draws, 0);
    var outcome := TryFrom(word, l.grid, draws, 0);
    if outcome.Placed? {
      WriteLetters(l.grid, word, outcome.loc.startRow, outcome.loc.startCol, outcome.loc.direction);
    }
  }

  lemma SubsequenceExtend(a: seq<string>, b: seq<string>, x: string)
    requires IsSubsequence(a, b)
    ensures IsSubsequence(a, b + [x]) && IsSubsequence(a + [x], b + [x])
  {
    assert (b + [x])[..|b|] == b;
    assert (a + [x])[..|a|] == a;
  }

  /**
   * From any layout meeting the loop invariant after k words: every placed
   * word still reads correctly, has found = false and no finder, the placed
   * words are the input words in order with some dropped, and sanitised
   * words leave only ALPHABET letters.
   */
  lemma {:induction false} PlaceFromInvariant(words: seq<string>, draws: seq<seq<Draw>>, k: nat, l: Layout)
    requires DrawOracle(words, draws) && k <= |words| && LayoutInvariant(words, k, l)
    ensures PlaceFrom(words, draws, k, l).Success? ==> LayoutInvariant(words, |words|, PlaceFrom(words, draws, k, l).value)
    decreases |words| - k
  {
    if k < |words| && Step(words[k], l, draws[k]).Success? {
      var word := words[k];
      var l' := Step(word, l, draws[k]).value;
      assert words[..k + 1] == words[..k] + [word];
      StepKeepsWords(word, l, draws[k]);
      StepTexts(word, l, draws[k]);
      SubsequenceExtend(Texts(l.placed), words[..k], word);
      if forall i :: 0 <= i < |words| ==> UpperWord(words[i]) {
        StepLetters(word, l, draws[k]);
      }
      assert LayoutInvariant(words, k + 1, l');
      PlaceFromInvariant(words, draws, k + 1, l');
    }
  }

  /**
   * Over the whole loop, the placed texts grow by exactly the words for which
   * placeWord returned a location, in input order, and every word gets its turn.
   */
  lemma {:induction false} PlaceFromKept(words: seq<string>, draws: seq<seq<Draw>>, k: nat, l: Layout)
    requires DrawOracle(words, draws) && k <= |words| && IsGrid(l.grid)
    ensures PlaceFrom(words, draws, k, l).Success? ==>
      |Kept(words, draws, k, l)| == |words| - k
      && Texts(PlaceFrom(words, draws, k, l).value.placed) == Texts(l.placed) + Select(words[k..], Kept(words, draws, k, l))
    decreases |words| - k
  {
    if k < |words| && Step(words[k], l, draws[k]).Success? {
      var l' := Step(words[k], l, draws[k]).value;
      StepTexts(words[k], l, draws[k]);
      PlaceFromKept(words, draws, k + 1, l');
      assert words[k..][1..] == words[k + 1..];
    }
  }

  /** Words no longer than the grid never make createGrid throw. */
  lemma {:induction false} ShortWordsNeverThrow(words: seq<string>, draws: seq<seq<Draw>>, k: nat, l: Layout)
    requires DrawOracle(words, draws) && k <= |words| && IsGrid(l.grid)
    requires forall i :: 0 <= i < |words| ==> |words[i]| <= GRID_SIZE
    ensures PlaceFrom(words, draws, k, l).Success?
    decreases |words| - k
  {
    if k < |words| {
      TryFromNoCrash(words[k], l.grid, draws[k], 0);
      ShortWordsNeverThrow(words, draws, k + 1, Step(words[k], l, draws[k]).value);
    }
  }

  /** The fill writes only empty cells, leaves no cell empty and keeps every placed word readable. */
  lemma FillMeaning(g: Grid, fill: seq<seq<char>>, w: WordLocation)
    requires IsGrid(g) && FillOracle(fill)
    ensures forall r, c :: 0 <= r < GRID_SIZE && 0 <= c < GRID_SIZE ==>
      Fill(g, fill)[r][c].letter != ""
      && Fill(g, fill)[r][c].partOfWord == g[r][c].partOfWord
      && (Fill(g, fill)[r][c] != g[r][c] ==> g[r][c].letter == "")
    ensures ReadsAt(g, w) ==> ReadsAt(Fill(g, fill), w)
    ensures LettersFromAlphabet(g) ==> LettersFromAlphabet(Fill(g, fill))
  {
  }

  /**
   * A generated puzzle: every placed word reads correctly in the final grid
   * and is not yet found, no cell is empty, the placed words are an in-order
   * subsequence of the input, and a sanitised word list yields a grid of
   * ALPHABET letters only. Words no longer than the grid always succeed.
   */
  lemma GeneratedPuzzle(words: seq<string>, draws: seq<seq<Draw>>, fill: seq<seq<char>>)
    requires DrawOracle(words, draws) && FillOracle(fill)
    ensures (forall k :: 0 <= k < |words| ==> |words[k]| <= GRID_SIZE) ==> CreateGridSpec(words, draws, fill).Success?
    ensures CreateGridSpec(words, draws, fill).Success? ==>
      var gd := CreateGridSpec(words, draws, fill).value;
      IsGrid(gd.grid)
      && (forall w :: w in gd.words ==> ReadsAt(gd.grid, w) && !w.found && w.foundBy == None)
      && (forall r, c :: 0 <= r < GRID_SIZE && 0 <= c < GRID_SIZE ==> gd.grid[r][c].letter != "")
      && IsSubsequence(Texts(gd.words), words)
      && |Kept(words, draws, 0, Layout(EmptyGrid(), []))| == |words|
      && Texts(gd.words) == Select(words, Kept(words, draws, 0, Layout(EmptyGrid(), [])))
      && ((forall k :: 0 <= k < |words| ==> UpperWord(words[k])) ==>
            forall r, c :: 0 <= r < GRID_SIZE && 0 <= c < GRID_SIZE ==>
              |gd.grid[r][c].letter| == 1 && gd.grid[r][c].letter[0] in ALPHABET)
  {
    var start := Layout(EmptyGrid(), []);
    if forall k :: 0 <= k < |words| ==> |words[k]| <= GRID_SIZE {
      ShortWordsNeverThrow(words, draws, 0, start);
    }
    assert Texts([]) == [];
    PlaceFromInvariant(words, draws, 0, start);
    PlaceFromKept(words, draws, 0, start);
    assert words[0..] == words;
    if PlaceFrom(words, draws, 0, start).Success? {
      var l := PlaceFrom(words, draws, 0, start).value;
      assert words[..|words|] == words;
      forall w | w in l.placed
        ensures ReadsAt(Fill(l.grid, fill), w)
      {
        FillMeaning(l.grid, fill, w);
      }
      FillMeaning(l.grid, fill, Location("", Draw(Horizontal, 0, 0)));
    }
  }

  /** Two placed words of a generated puzzle that cross carry the same letter there. */
  lemma CrossingLettersAgree(words: seq<string>, draws: seq<seq<Draw>>, fill: seq<seq<char>>,
                             w1: WordLocation, w2: WordLocation, i: nat, j: nat)
    requires DrawOracle(words, draws) && FillOracle(fill)
    requires CreateGridSpec(words, draws, fill).Success?
    requires w1 in CreateGridSpec(words, draws, fill).value.words
    requires w2 in CreateGridSpec(words, draws, fill).value.words
    requires i < |w1.text| && j < |w2.text|
    requires PathCell(w1.startRow, w1.startCol, w1.direction, i) == PathCell(w2.startRow, w2.startCol, w2.direction, j)
    ensures w1.text[i] == w2.text[j]
  {
    GeneratedPuzzle(words, draws, fill);
    var g := CreateGridSpec(words, draws, fill).value.grid;
    assert At(g, PathCell(w1.startRow, w1.startCol, w1.direction, i)).letter == [w1.text[i]];
    assert At(g, PathCell(w2.startRow, w2.startCol, w2.direction, j)).letter == [w2.text[j]];
  }

  /** generateWordsAndGrid: fewer words than requested is an error; otherwise createGrid runs. */
  function GenerateSpec(totalWords: int, words: seq<string>, draws: seq<seq<Draw>>, fill: seq<seq<char>>): (r: Result<GridData, GenError>)
    requires DrawOracle(words, draws) && FillOracle(fill)
    ensures (r.Failure? && r.error.Shortfall?) <==> |words| < totalWords
    ensures r.Success? ==> totalWords <= |words| && |r.value.words| <= |words|
  {
    if |words| < totalWords then Failure(Shortfall(|words|, totalWords))
    else CreateGridSpec(words, draws, fill)
  }

  // ================================================================ the in-place algorithm

  /** The value of an array grid. */
  function Rows(a: array2<Cell>): (g: Grid)
    reads a
    ensures |g| == a.Length0
    ensures forall r :: 0 <= r < a.Length0 ==> |g[r]| == a.Length1
    ensures forall r, c :: 0 <= r < a.Length0 && 0 <= c < a.Length1 ==> g[r][c] == a[r, c]
  {
    seq(a.Length0, (r: int) requires 0 <= r < a.Length0 reads a =>
      seq(a.Length1, (c: int) requires 0 <= c < a.Length1 reads a => a[r, c]))
  }

  /** canPlace: walks the path, failing at the first clash (and throwing at the first cell off the grid). */
  method CanPlace(word: string, row: int, col: int, d: Direction, grid: array2<Cell>) returns (fit: Fit)
    requires grid.Length0 == GRID_SIZE && grid.Length1 == GRID_SIZE
    ensures fit == Check(word, row, col, d, Rows(grid))
  {
    var i := 0;
    while i < |word|
      invariant 0 <= i <= |word|
      invariant Check(word, row, col, d, Rows(grid)) == CheckFrom(word, row, col, d, Rows(grid), i)
    {
      var r, c := row, col;
      if d == Horizontal {
        c := c + i;
      } else if d == Vertical {
        r := r + i;
      } else if d == Diagonal {
        r, c := r + i, c + i;
      }
      if !(0 <= r < GRID_SIZE && 0 <= c < GRID_SIZE) {
        return OffGrid;
      }
      if Owned(grid[r, c]) && grid[r, c].letter != [word[i]] {
        return Clash;
      }
      i := i + 1;
    }
    return Fits;
  }

  /** Cell (r, c) after the write loop's first n iterations. */
  function PartlyWritten(g: Grid, word: string, row: int, col: int, d: Direction, n: int, r: int, c: int): Cell
    requires IsGrid(g) && 0 <= r < GRID_SIZE && 0 <= c < GRID_SIZE
  {
    match PathIndex(word, row, col, d, Coord(r, c))
    case Some(j) => if j < n then Cell([word[j]], Some(word)) else g[r][c]
    case None => g[r][c]
  }

  /** Iteration n of the write loop changes exactly path cell n. */
  lemma PartlyWrittenStep(g: Grid, word: string, row: int, col: int, d: Direction, n: int)
    requires IsGrid(g) && 0 <= n < |word| && InGrid(PathCell(row, col, d, n))
    ensures forall r, c :: 0 <= r < GRID_SIZE && 0 <= c < GRID_SIZE ==>
      PartlyWritten(g, word, row, col, d, n + 1, r, c)
        == if Coord(r, c) == PathCell(row, col, d, n) then Cell([word[n]], Some(word))
           else PartlyWritten(g, word, row, col, d, n, r, c)
  {
    PathIndexOfPathCell(word, row, col, d, n);
  }

  /** placeWord's write loop: `grid[r][c] = { letter: word[i], partOfWord: word }` along the path. */
  method WriteWord(word: string, row: int, col: int, d: Direction, grid: array2<Cell>)
    requires grid.Length0 == GRID_SIZE && grid.Length1 == GRID_SIZE
    requires forall i :: 0 <= i < |word| ==> InGrid(PathCell(row, col, d, i))
    modifies grid
    ensures Rows(grid) == Write(old(Rows(grid)), word, row, col, d)
  {
    ghost var g0 := Rows(grid);
    var i := 0;
    while i < |word|
      invariant 0 <= i <= |word|
      invariant forall r, c :: 0 <= r < GRID_SIZE && 0 <= c < GRID_SIZE ==>
        grid[r, c] == PartlyWritten(g0, word, row, col, d, i, r, c)
    {
      var p := PathCell(row, col, d, i);
      PartlyWrittenStep(g0, word, row, col, d, i);
      grid[p.row, p.col] := Cell([word[i]], Some(word));
      i := i + 1;
    }
    SameGrid(Rows(grid), Write(g0, word, row, col, d));
  }

  /** placeWord: up to MAX_ATTEMPTS draws; the first that fits is written and returned. */
  method PlaceWord(word: string, grid: array2<Cell>, draws: seq<Draw>) returns (outcome: PlaceOutcome)
    requires grid.Length0 == GRID_SIZE && grid.Length1 == GRID_SIZE
    requires |draws| >= MAX_ATTEMPTS
    modifies grid
    ensures outcome == TryFrom(word, old(Rows(grid)), draws, 0)
    ensures Rows(grid) == AfterPlace(old(Rows(grid)), outcome)
  {
    ghost var g0 := Rows(grid);
    var attempts := 0;
    while attempts < MAX_ATTEMPTS
      invariant 0 <= attempts <= MAX_ATTEMPTS
      invariant Rows(grid) == g0
      invariant TryFrom(word, g0, draws, 0) == TryFrom(word, g0, draws, attempts)
    {
      var dr := draws[attempts];
      var fit := CanPlace(word, dr.row, dr.col, dr.direction, grid);
      if fit == Fits {
        CheckFitsIff(word, dr.row, dr.col, dr.direction, g0);
        forall i | 0 <= i < |word|
          ensures InGrid(PathCell(dr.row, dr.col, dr.direction, i))
        {
          assert Compatible(word, dr.row, dr.col, dr.direction, g0, i);
        }
        WriteWord(word, dr.row, dr.col, dr.direction, grid);
        return Placed(Location(word, dr));
      } else if fit == OffGrid {
        return Crashed;
      }
      attempts := attempts + 1;
    }
    return NotPlaced;
  }

  /** createGrid's fill loop: every cell whose letter is empty gets a random letter. */
  method FillEmptyCells(grid: array2<Cell>, fill: seq<seq<char>>)
    requires grid.Length0 == GRID_SIZE && grid.Length1 == GRID_SIZE && FillOracle(fill)
    modifies grid
    ensures Rows(grid) == Fill(old(Rows(grid)), fill)
  {
    ghost var g1 := Rows(grid);
    var r := 0;
    while r < GRID_SIZE
      invariant 0 <= r <= GRID_SIZE
      invariant forall i, j :: 0 <= i < GRID_SIZE && 0 <= j < GRID_SIZE ==>
        grid[i, j] == if i < r then Fill(g1, fill)[i][j] else g1[i][j]
    {
      var c := 0;
      while c < GRID_SIZE
        invariant 0 <= c <= GRID_SIZE
        invariant forall i, j :: 0 <= i < GRID_SIZE && 0 <= j < GRID_SIZE ==>
          grid[i, j] == if i < r || (i == r && j < c) then Fill(g1, fill)[i][j] else g1[i][j]
      {
        if grid[r, c].letter == "" {
          grid[r, c] := grid[r, c].(letter := [fill[r][c]]);
        }
        c := c + 1;
      }
      r := r + 1;
    }
    SameGrid(Rows(grid), Fill(g1, fill));
  }

  /** The grid createGrid starts from: GRID_SIZE rows of empty, unowned cells. */
  method NewEmptyGrid() returns (grid: array2<Cell>)
    ensures fresh(grid) && grid.Length0 == GRID_SIZE && grid.Length1 == GRID_SIZE
    ensures Rows(grid) == EmptyGrid()
  {
    grid := new Cell[GRID_SIZE, GRID_SIZE]((r, c) => Cell("", None));
    SameGrid(Rows(grid), EmptyGrid());
  }

  /** createGrid's placement loop: each word in turn goes through placeWord; a placed word is pushed. */
  method PlaceAll(words: seq<string>, draws: seq<seq<Draw>>, grid: array2<Cell>)
    returns (res: Result<seq<WordLocation>, GenError>)
    requires DrawOracle(words, draws)
    requires grid.Length0 == GRID_SIZE && grid.Length1 == GRID_SIZE
    modifies grid
    ensures res.Failure? ==> PlaceFrom(words, draws, 0, Layout(old(Rows(grid)), [])) == Failure(res.error)
    ensures res.Success? ==> PlaceFrom(words, draws, 0, Layout(old(Rows(grid)), [])) == Success(Layout(Rows(grid), res.value))
  {
    ghost var target := PlaceFrom(words, draws, 0, Layout(Rows(grid), []));
    var placed: seq<WordLocation> := [];
    var k := 0;
    while k < |words|
      invariant 0 <= k <= |words|
      invariant PlaceFrom(words, draws, k, Layout(Rows(grid), placed)) == target
    {
      var outcome := PlaceWord(words[k], grid, draws[k]);
      if outcome.Crashed? {
        return Failure(OffGridAccess(words[k]));
      } else if outcome.Placed? {
        placed := placed + [outcome.loc];
      }
      k := k + 1;
    }
    return Success(placed);
  }

  /** createGrid: place every word in turn on an empty grid, then fill the empty cells. */
  method CreateGrid(words: seq<string>, draws: seq<seq<Draw>>, fill: seq<seq<char>>)
    returns (res: Result<GridData, GenError>)
    requires DrawOracle(words, draws) && FillOracle(fill)
    ensures res == CreateGridSpec(words, draws, fill)
  {
    var grid := NewEmptyGrid();
    var placed := PlaceAll(words, draws, grid);
    if placed.Failure? {
      return Failure(placed.error);
    }
    FillEmptyCells(grid, fill);
    return Success(GridData(Rows(grid), placed.value));
  }

  /** generateWordsAndGrid, after the word supplier returned `words`. */
  method GenerateWordsAndGrid(totalWords: int, words: seq<string>, draws: seq<seq<Draw>>, fill: seq<seq<char>>)
    returns (res: Result<GridData, GenError>)
    requires DrawOracle(words, draws) && FillOracle(fill)
    ensures |words| < totalWords ==> res == Failure(Shortfall(|words|, totalWords))
    ensures |words| >= totalWords ==> res == CreateGridSpec(words, draws, fill)
  {
    if |words| < totalWords {
      return Failure(Shortfall(|words|, totalWords));
    }
    res := CreateGrid(words, draws, fill);
  }
}
