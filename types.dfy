/**
 * The records of the word-search contest (types.ts) and its constants
 * (constants.ts), transcribed as datatypes and constants.
 */
module Types {
  import opened Wrappers

  // ---------------------------------------------------------------- constants

  const TURN_DURATION: int := 60
  const BONUS_TIME_THRESHOLD: int := 30
  const BONUS_TIME_AWARD: int := 5
  const HINT_COST: int := 10
  const GRID_SIZE: int := 10

  const PVP_WORDS_TO_WIN: int := 2
  const PVP_TOTAL_WORDS_IN_PUZZLE: int := 4
  const PVC_WORDS_TO_WIN: int := 5
  const PVC_TOTAL_WORDS_IN_PUZZLE: int := 10

  // ---------------------------------------------------------------- enums

  datatype GameState =
    | MainMenu | Profile | Leaderboard | ModeSelection | GameRooms | Lobby
    | CoinFlip | InGame | GameOver | ThemeVoting | WinnerCelebration

  /** In the source `PlayerVsPlayer` is the enum value 0 and `PlayerVsComputer` is 1. */
  datatype GameMode = PlayerVsPlayer | PlayerVsComputer

  datatype Difficulty = Easy | Medium | Hard

  datatype Direction = Horizontal | Vertical | Diagonal

  // ---------------------------------------------------------------- records

  /** A registered user; an absent `isAI` is `false`. */
  datatype User = User(id: string, name: string, avatar: string,
                       wins: int, losses: int, totalBonuses: int, isAI: bool)

  /** A user inside a running game: the user's fields plus the per-game counters. */
  datatype Player = Player(id: string, name: string, avatar: string,
                           wins: int, losses: int, totalBonuses: int, isAI: bool,
                           score: int, bonusTime: int, bonusesEarned: int)

  datatype RoomStatus = Waiting | Full

  datatype Room = Room(id: string, host: User, guest: Option<User>, status: RoomStatus)

  datatype ChatMessage = ChatMessage(userId: string, userName: string, message: string)

  /** A grid cell: its letter ("" while empty) and the word that last wrote it. */
  datatype Cell = Cell(letter: string, partOfWord: Option<string>)

  datatype WordLocation = WordLocation(text: string, startRow: int, startCol: int,
                                       direction: Direction, found: bool,
                                       foundBy: Option<string>)

  datatype GridData = GridData(grid: seq<seq<Cell>>, words: seq<WordLocation>)

  datatype Coord = Coord(row: int, col: int)

  /** The AI opponents, one per difficulty. */
  function AiOpponent(d: Difficulty): (u: User)
    ensures u.isAI && u.wins == 0 && u.losses == 0 && u.totalBonuses == 0
  {
    match d
    case Easy => User("ai_easy", "Recruit", "deadeye", 0, 0, 0, true)
    case Medium => User("ai_medium", "Veteran", "boomer", 0, 0, 0, true)
    case Hard => User("ai_hard", "Commando", "sgt_stealth", 0, 0, 0, true)
  }

  /** The player record a user enters a game with (`{ ...user, score: 0, bonusTime: 0, bonusesEarned: 0 }`). */
  function AsPlayer(u: User): Player
  {
    Player(u.id, u.name, u.avatar, u.wins, u.losses, u.totalBonuses, u.isAI, 0, 0, 0)
  }

  /**
   * Cell i of a word that starts at (row, col): one step right, down, or
   * down-right per letter. The generator, the placed-word cells and the
   * selection matcher all use this formula.
   */
  function PathCell(row: int, col: int, d: Direction, i: int): Coord
  {
    match d
    case Horizontal => Coord(row, col + i)
    case Vertical => Coord(row + i, col)
    case Diagonal => Coord(row + i, col + i)
  }

  /** The cells a placed word covers, in letter order. */
  function WordCells(w: WordLocation): (cells: seq<Coord>)
    ensures |cells| == |w.text|
    ensures forall i :: 0 <= i < |cells| ==> cells[i] == PathCell(w.startRow, w.startCol, w.direction, i)
  {
    seq(|w.text|, i => PathCell(w.startRow, w.startCol, w.direction, i))
  }
}
