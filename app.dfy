/**
 * The match coordination of the application shell (App.tsx): what each
 * handler does to the shared state (screen, mode, players, puzzle, winner,
 * chat, rematch requests, first mover), which messages it sends over the
 * link and when it records statistics.
 *
 * The first half gives each handler as a function from the state before to
 * a Step (the state after, the messages to send, the statistics to record);
 * the lemmas state the coordination rules. The second half is the App
 * class, whose fields are the shell's state and whose methods are proved
 * to do what those functions say. The outcome of the asynchronous puzzle
 * generation is a parameter.
 */
module App {
  import opened Wrappers
  import opened Types
  import opened P2PService
  import AuthService
  import GameBoard

  // ================================================================ the state

  datatype AppState = AppState(
    gameState: GameState,
    gameMode: Option<GameMode>,
    players: seq<Player>,
    gridData: Option<GridData>,
    winner: Option<Player>,
    error: Option<string>,
    messages: seq<ChatMessage>,
    firstPlayerIndex: int,
    wordsToWin: int,
    currentUser: Option<User>,
    rematchRequests: seq<string>)

  const INITIAL: AppState := AppState(ModeSelection, None, [], None, None, None, [], 0, PVP_WORDS_TO_WIN, None, [])

  /** A game's result for the statistics table. */
  datatype StatsUpdate = StatsUpdate(winner: Player, loser: Player)

  /**
   * What a handler does: the new state, the messages it hands to the link,
   * the statistics it records, and what it asked the puzzle generator for
   * (if it started a game).
   */
  datatype Step = Step(next: AppState, outgoing: seq<P2PMessage>, stats: Option<StatsUpdate>, request: Option<PuzzleRequest>)

  /** A call `generateWordsAndGrid(totalWords, theme)`; an absent theme is `undefined`. */
  datatype PuzzleRequest = PuzzleRequest(totalWords: int, theme: Option<string>)

  function Stay(s: AppState): Step
  {
    Step(s, [], None, None)
  }

  /** How the puzzle generation ended: a grid, or a thrown Error (with its message) or other value. */
  datatype Thrown = ThrownError(message: string) | ThrownValue

  // ================================================================ rules

  /** `{ ...p, score: 0, bonusTime: 0, bonusesEarned: 0 }` for every player. */
  function ResetScores(players: seq<Player>): (reset: seq<Player>)
    ensures |reset| == |players|
    ensures forall i :: 0 <= i < |players| ==>
      reset[i] == players[i].(score := 0, bonusTime := 0, bonusesEarned := 0)
  {
    seq(|players|, i requires 0 <= i < |players| => players[i].(score := 0, bonusTime := 0, bonusesEarned := 0))
  }

  /** The state every fresh match starts from: the given puzzle, first mover and target, nothing left of the last match. */
  function MatchStart(s: AppState, grid: GridData, firstPlayer: int, wordsToWin: int): (t: AppState)
    ensures t.gameState == InGame && t.gridData == Some(grid) && t.winner == None
    ensures t.messages == [] && t.rematchRequests == []
    ensures |t.players| == |s.players|
    ensures forall i :: 0 <= i < |s.players| ==>
      t.players[i].score == 0 && t.players[i].bonusTime == 0 && t.players[i].bonusesEarned == 0
      && t.players[i].id == s.players[i].id && t.players[i].name == s.players[i].name && t.players[i].isAI == s.players[i].isAI
    ensures t.gameMode == s.gameMode && t.currentUser == s.currentUser && t.error == s.error
  {
    s.(gridData := Some(grid), firstPlayerIndex := firstPlayer, wordsToWin := wordsToWin,
       winner := None, messages := [], rematchRequests := [],
       players := ResetScores(s.players), gameState := InGame)
  }

  /** `prev.includes(id) ? prev : [...prev, id]`. */
  function AddRequest(requests: seq<string>, id: string): (after: seq<string>)
    ensures id in after
    ensures after == requests || after == requests + [id]
  {
    if id in requests then requests else requests + [id]
  }

  predicate NoDuplicates(s: seq<string>)
  {
    forall i, j :: 0 <= i < j < |s| ==> s[i] != s[j]
  }

  /** Requests stay free of duplicates, and asking twice is asking once. */
  lemma AddRequestOnce(requests: seq<string>, id: string)
    requires NoDuplicates(requests)
    ensures NoDuplicates(AddRequest(requests, id))
    ensures AddRequest(AddRequest(requests, id), id) == AddRequest(requests, id)
  {
  }

  /** The id the REMATCH_REQUEST handler credits: the first player who is not the current user. */
  function OpponentId(players: seq<Player>, currentUser: Option<User>): (id: Option<string>)
    ensures id.Some? ==> exists i :: 0 <= i < |players| && players[i].id == id.value
    ensures id.Some? && currentUser.Some? ==> id.value != currentUser.value.id
    ensures currentUser.None? ==> (id.Some? <==> players != []) && (id.Some? ==> id.value == players[0].id)
    ensures currentUser.Some? ==>
      (id.None? <==> forall i :: 0 <= i < |players| ==> players[i].id == currentUser.value.id)
    ensures id.Some? && currentUser.Some? ==>
      exists k :: 0 <= k < |players| && players[k].id == id.value
                  && forall j :: 0 <= j < k ==> players[j].id == currentUser.value.id
  {
    match currentUser
    case None => if players == [] then None else Some(players[0].id)
    case Some(u) =>
      match GameBoard.FirstOther(players, u.id)
      case None => None
      case Some(p) => Some(p.id)
  }

  /** The value of the GameMode enum: PlayerVsPlayer is 0. */
  function ModeValue(m: GameMode): int
  {
    match m
    case PlayerVsPlayer => 0
    case PlayerVsComputer => 1
  }

  /**
   * startNewGame's guard as written, `!gameMode || (gameMode === PlayerVsPlayer && !isHost)`:
   * `!gameMode` also holds for PlayerVsPlayer, whose value 0 is falsy.
   */
  predicate StartBlockedAsWritten(mode: Option<GameMode>, isHost: bool)
    ensures StartBlockedAsWritten(mode, isHost) <==> mode != Some(PlayerVsComputer)
  {
    var falsy := mode.None? || ModeValue(mode.value) == 0;
    falsy || (mode == Some(PlayerVsPlayer) && !isHost)
  }

  /** As written, a host of a match between two people can never start it. */
  lemma PvpHostNeverStarts()
    ensures StartBlockedAsWritten(Some(PlayerVsPlayer), true)
  {
  }

  /** The guard as intended: no mode chosen, or a guest of a match between two people. */
  predicate StartBlocked(mode: Option<GameMode>, isHost: bool)
    ensures !StartBlocked(mode, isHost) <==> mode == Some(PlayerVsComputer) || (mode == Some(PlayerVsPlayer) && isHost)
  {
    assert mode.Some? ==> mode.value.PlayerVsComputer? || mode.value.PlayerVsPlayer?;
    mode.None? || (mode == Some(PlayerVsPlayer) && !isHost)
  }

  /** The two guards disagree exactly for the host of a match between two people. */
  lemma GuardsDisagreeOnlyForPvpHost(mode: Option<GameMode>, isHost: bool)
    ensures StartBlockedAsWritten(mode, isHost) != StartBlocked(mode, isHost)
      <==> mode == Some(PlayerVsPlayer) && isHost
    ensures !StartBlocked(Some(PlayerVsComputer), isHost) && !StartBlocked(Some(PlayerVsPlayer), true)
  {
  }

  /** The message the failure branch of startNewGame means to show. */
  function FailureMessage(t: Thrown): string
  {
    match t
    case ThrownError(m) => "Failed to start game: " + m
    case ThrownValue => "An unknown error occurred."
  }

  /** A React state update of the error slot; updates in one handler apply in call order. */
  function LastError(start: Option<string>, updates: seq<Option<string>>): (e: Option<string>)
    ensures updates != [] ==> e == updates[|updates| - 1]
    ensures updates == [] ==> e == start
  {
    if updates == [] then start else updates[|updates| - 1]
  }

  /**
   * The failure branch as written: `setError(message)` and then
   * `handleNavigate(Lobby)`, which itself calls `setError(null)`.
   */
  function FailureErrorAsWritten(before: Option<string>, t: Thrown): (e: Option<string>)
    ensures e.None?
  {
    LastError(before, [None, Some(FailureMessage(t)), None])
  }

  /** As written, the failure message is overwritten at once and never shown. */
  lemma FailureMessageLost(before: Option<string>, t: Thrown)
    ensures FailureErrorAsWritten(before, t) == None
  {
  }

  /** The failure branch corrected: navigate to the lobby first, then show the message. */
  function FailureError(before: Option<string>, t: Thrown): (e: Option<string>)
    ensures e == Some(FailureMessage(t))
  {
    LastError(before, [None, None, Some(FailureMessage(t))])
  }

  lemma FailureMessageShown(before: Option<string>, t: Thrown)
    ensures FailureError(before, t) == Some(FailureMessage(t))
    ensures t.ThrownError? ==> FailureError(before, t).value == "Failed to start game: " + t.message
  {
  }

  function WordsToWinFor(mode: GameMode): int
  {
    if mode == PlayerVsComputer then PVC_WORDS_TO_WIN else PVP_WORDS_TO_WIN
  }

  /** The number of words the puzzle is generated with. */
  function PuzzleWordsFor(mode: GameMode): int
  {
    if mode == PlayerVsComputer then PVC_TOTAL_WORDS_IN_PUZZLE else PVP_TOTAL_WORDS_IN_PUZZLE
  }

  /** JavaScript's `%`: the remainder takes the sign of the dividend. */
  function JsRemainder(a: int, b: int): (r: int)
    requires b != 0
    ensures a >= 0 ==> r == a % (if b < 0 then -b else b)
  {
    var m := (if a < 0 then -a else a) % (if b < 0 then -b else b);
    if a < 0 then -m else m
  }

  /** The first mover of the next match: player 0 against the computer, otherwise the other player. */
  function NextFirstPlayer(mode: Option<GameMode>, firstPlayer: int): (next: int)
    ensures mode == Some(PlayerVsComputer) ==> next == 0
    ensures mode != Some(PlayerVsComputer) && firstPlayer >= 0 ==> next == (firstPlayer + 1) % 2
  {
    if mode == Some(PlayerVsComputer) then 0 else JsRemainder(firstPlayer + 1, 2)
  }

  /** Between two people the first move alternates, and two rematches later it is back where it was. */
  lemma FirstMoverAlternates(mode: Option<GameMode>, firstPlayer: int)
    requires mode != Some(PlayerVsComputer) && (firstPlayer == 0 || firstPlayer == 1)
    ensures NextFirstPlayer(mode, firstPlayer) == 1 - firstPlayer
    ensures NextFirstPlayer(mode, NextFirstPlayer(mode, firstPlayer)) == firstPlayer
  {
  }

  // ================================================================ handlers as functions

  /**
   * startNewGame (with the corrected guard): the target follows the mode;
   * a generated puzzle starts the match, and between two people the host
   * sends it to the guest; a failure returns to the lobby with its message.
   */
  function StartNewGameStep(s: AppState, firstPlayer: int, theme: Option<string>, isHost: bool,
                            generated: Result<GridData, Thrown>): (t: Step)
    ensures t.stats == None
    ensures t.next.gameMode == s.gameMode && t.next.currentUser == s.currentUser
    ensures t.request.Some? <==> !StartBlocked(s.gameMode, isHost)
    ensures t.request.Some? ==> t.request.value.theme == theme
    ensures t.outgoing != [] <==> s.gameMode == Some(PlayerVsPlayer) && isHost && generated.Success?
  {
    if StartBlocked(s.gameMode, isHost) then Stay(s)
    else
      var mode := s.gameMode.value;
      var target := WordsToWinFor(mode);
      var s1 := s.(error := None, wordsToWin := target);
      var request := Some(PuzzleRequest(PuzzleWordsFor(mode), theme));
      match generated
      case Failure(t) => Step(s1.(gameState := Lobby, error := FailureError(None, t)), [], None, request)
      case Success(grid) =>
        Step(MatchStart(s1, grid, firstPlayer, target),
             if mode == PlayerVsComputer then [] else [StartGame(firstPlayer, grid, target)], None, request)
  }

  /** handleThemeSelected: against the computer, or as host, start the next match; a guest asks the host to. */
  function ThemeSelectedStep(s: AppState, theme: string, isHost: bool, generated: Result<GridData, Thrown>): (t: Step)
    ensures t.stats == None
    ensures t.next.gameMode == s.gameMode && t.next.currentUser == s.currentUser
    ensures t.request.Some? <==> s.gameMode == Some(PlayerVsComputer) || (s.gameMode == Some(PlayerVsPlayer) && isHost)
    ensures t.request.Some? ==> t.request.value.theme == Some(theme)
  {
    if s.gameMode == Some(PlayerVsComputer) || isHost then
      StartNewGameStep(s, NextFirstPlayer(s.gameMode, s.firstPlayerIndex), Some(theme), isHost, generated)
    else
      Step(s, [RematchAccepted(theme)], None, None)
  }

  /** handleFlipComplete: only the host starts the game. */
  function FlipCompleteStep(s: AppState, firstPlayer: int, isHost: bool, generated: Result<GridData, Thrown>): (t: Step)
    ensures !isHost ==> t.next == s && t.outgoing == [] && t.request == None
    ensures t.request.Some? <==> isHost && s.gameMode.Some?
    ensures t.request.Some? ==> t.request.value.theme == None
  {
    if isHost then StartNewGameStep(s, firstPlayer, None, isHost, generated) else Stay(s)
  }

  /** handleP2PData. */
  function ReceiveDataStep(s: AppState, msg: P2PMessage, isHost: bool, generated: Result<GridData, Thrown>): (t: Step)
    ensures t.stats == None
    ensures t.next.gameMode == s.gameMode && t.next.currentUser == s.currentUser
    ensures !msg.RematchAccepted? ==> t.outgoing == [] && t.request == None
    ensures msg.RematchAccepted? && isHost && s.gameMode.Some? ==>
      t.request.Some? && t.request.value.theme == Some(msg.theme)
  {
    match msg
    case StartGame(firstPlayer, grid, target) => Stay(MatchStart(s, grid, firstPlayer, target))
    case GameStateUpdate(players, grid, _, _, _) => Stay(s.(players := players, gridData := Some(grid)))
    case GameOverMessage(winner, finalPlayers) =>
      Stay(s.(winner := Some(winner), players := finalPlayers, gameState := WinnerCelebration))
    case ChatMessageSent(chat) => Stay(s.(messages := s.messages + [chat]))
    case RematchRequest =>
      var id := OpponentId(s.players, s.currentUser);
      if id.None? || id.value == "" then Stay(s)
      else Stay(s.(rematchRequests := AddRequest(s.rematchRequests, id.value)))
    case RematchAccepted(theme) => ThemeSelectedStep(s, theme, isHost, generated)
    case _ => Stay(s)
  }

  /** handleRematchRequest: a new request is recorded and the host tells the guest. */
  function RequestRematchStep(s: AppState, playerId: string, isHost: bool): (t: Step)
    ensures t.next == s.(rematchRequests := AddRequest(s.rematchRequests, playerId))
    ensures t.outgoing != [] ==> isHost && t.outgoing == [RematchRequest]
    ensures t.stats == None && t.request == None
  {
    if playerId in s.rematchRequests then Stay(s)
    else Step(s.(rematchRequests := s.rematchRequests + [playerId]), if isHost then [RematchRequest] else [], None, None)
  }

  /** The effect on rematch requests: two requests from two players move to theme voting. */
  function RematchEffect(s: AppState): (t: AppState)
    ensures t == s.(gameState := t.gameState, error := t.error)
    ensures t != s ==> |s.rematchRequests| == 2 && |s.players| == 2
  {
    if |s.rematchRequests| == 2 && |s.players| == 2 then s.(error := None, gameState := ThemeVoting) else s
  }

  /** handleGameOver: show the winner, broadcast as host, and record statistics for two people. */
  function GameOverStep(s: AppState, winning: Player, finalPlayers: seq<Player>, isHost: bool): (t: Step)
    ensures t.next == s.(winner := Some(winning), players := finalPlayers, error := None, gameState := WinnerCelebration)
    ensures t.outgoing != [] ==> t.outgoing == [GameOverMessage(winning, finalPlayers)]
    ensures t.request == None
  {
    var loser := GameBoard.FirstOther(finalPlayers, winning.id);
    Step(s.(winner := Some(winning), players := finalPlayers, error := None, gameState := WinnerCelebration),
         if isHost then [GameOverMessage(winning, finalPlayers)] else [],
         if loser.Some? && !winning.isAI && !loser.value.isAI then Some(StatsUpdate(winning, loser.value)) else None,
         None)
  }

  /** handleSendMessage: the message is appended, and sent over the link only between two people. */
  function SendChatStep(s: AppState, message: string, user: Player): (t: Step)
    ensures t.next == s.(messages := t.next.messages)
    ensures t.stats == None && t.request == None
    ensures forall m :: m in t.outgoing ==> m == ChatMessageSent(ChatMessage(user.id, user.name, message))
  {
    var chat := ChatMessage(user.id, user.name, message);
    Step(s.(messages := s.messages + [chat]),
         if s.gameMode == Some(PlayerVsPlayer) then [ChatMessageSent(chat)] else [], None, None)
  }

  // ================================================================ coordination properties

  /**
   * START_GAME takes the puzzle, first mover and target from the payload,
   * clears winner, chat and rematch requests, and zeroes every player's
   * per-game counters while keeping who they are.
   */
  lemma StartGameResets(s: AppState, firstPlayer: int, grid: GridData, target: int,
                        isHost: bool, generated: Result<GridData, Thrown>)
    ensures var t := ReceiveDataStep(s, StartGame(firstPlayer, grid, target), isHost, generated);
      var n := t.next;
      t.outgoing == [] && t.stats == None
      && n.gridData == Some(grid) && n.firstPlayerIndex == firstPlayer && n.wordsToWin == target
      && n.winner == None && n.messages == [] && n.rematchRequests == [] && n.gameState == InGame
      && |n.players| == |s.players|
      && (forall i :: 0 <= i < |s.players| ==>
            n.players[i].score == 0 && n.players[i].bonusTime == 0 && n.players[i].bonusesEarned == 0
            && n.players[i].id == s.players[i].id && n.players[i].wins == s.players[i].wins
            && n.players[i].isAI == s.players[i].isAI)
      && n.gameMode == s.gameMode && n.currentUser == s.currentUser
  {
  }

  /** REMATCH_REQUEST credits the opponent at most once: a repeated message changes nothing. */
  lemma RematchRequestOnce(s: AppState, isHost: bool, generated: Result<GridData, Thrown>)
    requires NoDuplicates(s.rematchRequests)
    ensures var once := ReceiveDataStep(s, RematchRequest, isHost, generated).next;
      NoDuplicates(once.rematchRequests)
      && ReceiveDataStep(once, RematchRequest, isHost, generated).next == once
  {
    var id := OpponentId(s.players, s.currentUser);
    if id.Some? && id.value != "" {
      AddRequestOnce(s.rematchRequests, id.value);
    }
  }

  /** handleRematchRequest is idempotent per player, and only the first request goes over the link. */
  lemma RequestRematchIdempotent(s: AppState, playerId: string, isHost: bool)
    ensures var once := RequestRematchStep(s, playerId, isHost);
      var twice := RequestRematchStep(once.next, playerId, isHost);
      twice.next == once.next && twice.outgoing == []
      && playerId in once.next.rematchRequests
      && (once.outgoing != [] <==> isHost && playerId !in s.rematchRequests)
  {
  }

  /** Theme voting begins exactly when two requests and two players are present. */
  lemma RematchEffectRule(s: AppState)
    ensures RematchEffect(s).gameState == ThemeVoting <==>
      (|s.rematchRequests| == 2 && |s.players| == 2) || s.gameState == ThemeVoting
    ensures !(|s.rematchRequests| == 2 && |s.players| == 2) ==> RematchEffect(s) == s
  {
  }

  /** Both players asking for a rematch, from no requests, leads to theme voting. */
  lemma BothRequestsStartVoting(s: AppState, a: string, b: string, isHost: bool)
    requires |s.players| == 2 && s.rematchRequests == [] && a != b
    ensures var one := RequestRematchStep(s, a, isHost).next;
      RematchEffect(one) == one
      && RematchEffect(RequestRematchStep(one, b, isHost).next).gameState == ThemeVoting
  {
  }

  /**
   * After a theme is chosen: against the computer player 0 moves first; a
   * host of a match between two people hands the first move to the other
   * player; a guest changes nothing and sends REMATCH_ACCEPTED.
   */
  lemma ThemeSelectedRule(s: AppState, theme: string, isHost: bool, grid: GridData)
    ensures var t := ThemeSelectedStep(s, theme, isHost, Success(grid));
      (s.gameMode == Some(PlayerVsComputer) ==>
            t.next.firstPlayerIndex == 0 && t.outgoing == []
            && t.request == Some(PuzzleRequest(PVC_TOTAL_WORDS_IN_PUZZLE, Some(theme))))
      && (s.gameMode == Some(PlayerVsPlayer) && isHost ==>
            t.next.firstPlayerIndex == JsRemainder(s.firstPlayerIndex + 1, 2)
            && t.outgoing == [StartGame(t.next.firstPlayerIndex, grid, PVP_WORDS_TO_WIN)]
            && t.request == Some(PuzzleRequest(PVP_TOTAL_WORDS_IN_PUZZLE, Some(theme))))
      && (s.gameMode != Some(PlayerVsComputer) && !isHost ==>
            t.next == s && t.outgoing == [RematchAccepted(theme)] && t.request == None)
  {
  }

  /**
   * A started game takes its target and puzzle size from the mode (5 of 10
   * words against the computer, 2 of 4 between two people); a new game is
   * not started without a mode or by a guest.
   */
  lemma StartNewGameRule(s: AppState, firstPlayer: int, theme: Option<string>, isHost: bool, generated: Result<GridData, Thrown>)
    ensures var t := StartNewGameStep(s, firstPlayer, theme, isHost, generated);
      (StartBlocked(s.gameMode, isHost) ==> t == Stay(s))
      && (!StartBlocked(s.gameMode, isHost) ==>
            t.next.wordsToWin == (if s.gameMode == Some(PlayerVsComputer) then PVC_WORDS_TO_WIN else PVP_WORDS_TO_WIN)
            && t.request == Some(PuzzleRequest(if s.gameMode == Some(PlayerVsComputer) then PVC_TOTAL_WORDS_IN_PUZZLE
                                               else PVP_TOTAL_WORDS_IN_PUZZLE, theme))
            && (generated.Success? ==> t.next.gameState == InGame && t.next.firstPlayerIndex == firstPlayer
                                       && t.next.gridData == Some(generated.value))
            && (generated.Failure? ==> t.next.gameState == Lobby && t.next.error.Some?))
  {
  }

  /**
   * Statistics are recorded exactly when the final players include someone
   * other than the winner and neither the winner nor that loser is the
   * computer; only the host broadcasts GAME_OVER.
   */
  lemma StatsOnlyBetweenPeople(s: AppState, winning: Player, finalPlayers: seq<Player>, isHost: bool)
    ensures var t := GameOverStep(s, winning, finalPlayers, isHost);
      (t.stats.Some? ==> !t.stats.value.winner.isAI && !t.stats.value.loser.isAI
                         && t.stats.value.winner == winning
                         && t.stats.value.loser in finalPlayers && t.stats.value.loser.id != winning.id)
      && (winning.isAI ==> t.stats.None?)
      && (t.outgoing != [] <==> isHost)
      && t.next.winner == Some(winning) && t.next.gameState == WinnerCelebration
  {
  }

  /** A forfeit in a match of two people records the forfeiting player's loss. */
  lemma ForfeitRecordsLoss(s: AppState, me: Player, opponent: Player, user: User, isHost: bool)
    requires me.id == user.id && opponent.id != user.id && !me.isAI && !opponent.isAI
    ensures var f := GameBoard.Forfeit([me, opponent], user, true);
      f.Some? && GameOverStep(s, f.value.winner, f.value.finalPlayers, isHost).stats == Some(StatsUpdate(opponent, me))
  {
    GameBoard.ForfeitInTwoPlayerMatch(me, opponent, user);
    assert GameBoard.FirstOther([me, opponent], opponent.id) == Some(me);
  }

  /** Chat messages are appended at the end, and go over the link only between two people. */
  lemma ChatRule(s: AppState, message: string, user: Player, isHost: bool, generated: Result<GridData, Thrown>)
    ensures var t := SendChatStep(s, message, user);
      t.next.messages == s.messages + [ChatMessage(user.id, user.name, message)]
      && (t.outgoing != [] <==> s.gameMode == Some(PlayerVsPlayer))
    ensures forall chat :: ReceiveDataStep(s, ChatMessageSent(chat), isHost, generated).next.messages == s.messages + [chat]
  {
  }

  // ================================================================ the shell

  /** What the link actually sends of the messages handed to it. */
  function Transmitted(connection: Option<Connection>, msgs: seq<P2PMessage>): seq<P2PMessage>
  {
    if connection.Some? && connection.value.open then msgs else []
  }

  class AppShell {
    const link: Link
    const accounts: AuthService.UserTable
    var gameState: GameState
    var gameMode: Option<GameMode>
    var players: seq<Player>
    var gridData: Option<GridData>
    var winner: Option<Player>
    var error: Option<string>
    var messages: seq<ChatMessage>
    var firstPlayerIndex: int
    var wordsToWin: int
    var currentUser: Option<User>
    var rematchRequests: seq<string>

    function State(): AppState
      reads this
    {
      AppState(gameState, gameMode, players, gridData, winner, error, messages,
               firstPlayerIndex, wordsToWin, currentUser, rematchRequests)
    }

    constructor (link: Link, accounts: AuthService.UserTable)
      ensures this.link == link && this.accounts == accounts && State() == INITIAL
    {
      this.link := link;
      this.accounts := accounts;
      gameState := ModeSelection;
      gameMode := None;
      players := [];
      gridData := None;
      winner := None;
      error := None;
      messages := [];
      firstPlayerIndex := 0;
      wordsToWin := PVP_WORDS_TO_WIN;
      currentUser := None;
      rematchRequests := [];
    }

    /** Hands at most one message to the link. */
    method Send(msgs: seq<P2PMessage>)
      requires |msgs| <= 1
      modifies link
      ensures link.sent == old(link.sent) + Transmitted(old(link.connection), msgs)
      ensures link.peer == old(link.peer) && link.connection == old(link.connection)
      ensures link.isHost == old(link.isHost) && link.peerId == old(link.peerId)
    {
      if msgs != [] {
        var _ := link.SendMessage(msgs[0]);
      }
    }

    method BeginMatch(grid: GridData, firstPlayer: int, target: int)
      modifies this
      ensures State() == MatchStart(old(State()), grid, firstPlayer, target)
    {
      ghost var before := State();
      gridData := Some(grid);
      firstPlayerIndex := firstPlayer;
      wordsToWin := target;
      winner := None;
      messages := [];
      rematchRequests := [];
      players := ResetScores(players);
      gameState := InGame;
      assert State() == before.(gridData := Some(grid), firstPlayerIndex := firstPlayer, wordsToWin := target,
                                winner := None, messages := [], rematchRequests := [],
                                players := ResetScores(before.players), gameState := InGame);
    }

    method StartNewGame(firstPlayer: int, theme: Option<string>, generated: Result<GridData, Thrown>)
      returns (request: Option<PuzzleRequest>)
      modifies this, link
      ensures var t := StartNewGameStep(old(State()), firstPlayer, theme, old(link.isHost), generated);
        State() == t.next && link.sent == old(link.sent) + Transmitted(old(link.connection), t.outgoing)
        && request == t.request
      ensures link.isHost == old(link.isHost) && link.connection == old(link.connection)
    {
      if StartBlocked(gameMode, link.isHost) {
        return None;
      }
      var isPvc := gameMode == Some(PlayerVsComputer);
      var target := if isPvc then PVC_WORDS_TO_WIN else PVP_WORDS_TO_WIN;
      error := None;
      wordsToWin := target;
      request := Some(PuzzleRequest(if isPvc then PVC_TOTAL_WORDS_IN_PUZZLE else PVP_TOTAL_WORDS_IN_PUZZLE, theme));
      if generated.Failure? {
        gameState := Lobby;
        error := FailureError(None, generated.error);
        return;
      }
      if !isPvc {
        Send([StartGame(firstPlayer, generated.value, target)]);
      }
      BeginMatch(generated.value, firstPlayer, target);
    }

    method HandleThemeSelected(theme: string, generated: Result<GridData, Thrown>) returns (request: Option<PuzzleRequest>)
      modifies this, link
      ensures var t := ThemeSelectedStep(old(State()), theme, old(link.isHost), generated);
        State() == t.next && link.sent == old(link.sent) + Transmitted(old(link.connection), t.outgoing)
        && request == t.request
      ensures link.isHost == old(link.isHost) && link.connection == old(link.connection)
    {
      if gameMode == Some(PlayerVsComputer) || link.isHost {
        var next := NextFirstPlayer(gameMode, firstPlayerIndex);
        request := StartNewGame(next, Some(theme), generated);
      } else {
        Send([RematchAccepted(theme)]);
        request := None;
      }
    }

    method HandleFlipComplete(firstPlayer: int, generated: Result<GridData, Thrown>) returns (request: Option<PuzzleRequest>)
      modifies this, link
      ensures var t := FlipCompleteStep(old(State()), firstPlayer, old(link.isHost), generated);
        State() == t.next && link.sent == old(link.sent) + Transmitted(old(link.connection), t.outgoing)
        && request == t.request
    {
      request := None;
      if link.isHost {
        request := StartNewGame(firstPlayer, None, generated);
      }
    }

    method HandleP2PData(msg: P2PMessage, generated: Result<GridData, Thrown>) returns (request: Option<PuzzleRequest>)
      modifies this, link
      ensures var t := ReceiveDataStep(old(State()), msg, old(link.isHost), generated);
        State() == t.next && link.sent == old(link.sent) + Transmitted(old(link.connection), t.outgoing)
        && request == t.request
    {
      request := None;
      match msg {
        case StartGame(firstPlayer, grid, target) =>
          BeginMatch(grid, firstPlayer, target);
        case GameStateUpdate(ps, grid, _, _, _) =>
          players := ps;
          gridData := Some(grid);
        case GameOverMessage(w, finalPlayers) =>
          winner := Some(w);
          players := finalPlayers;
          gameState := WinnerCelebration;
        case ChatMessageSent(chat) =>
          messages := messages + [chat];
        case RematchRequest =>
          var id := OpponentId(players, currentUser);
          if id.Some? && id.value != "" && id.value !in rematchRequests {
            rematchRequests := rematchRequests + [id.value];
          }
        case RematchAccepted(theme) =>
          request := HandleThemeSelected(theme, generated);
        case _ =>
      }
    }

    method HandleRematchRequest(playerId: string)
      modifies this, link
      ensures var t := RequestRematchStep(old(State()), playerId, old(link.isHost));
        State() == t.next && link.sent == old(link.sent) + Transmitted(old(link.connection), t.outgoing)
    {
      if playerId in rematchRequests {
        return;
      }
      rematchRequests := rematchRequests + [playerId];
      if link.isHost {
        Send([RematchRequest]);
      }
    }

    /** The effect that runs whenever the rematch requests or the players change. */
    method RematchRequestsChanged()
      modifies this
      ensures State() == RematchEffect(old(State()))
    {
      if |rematchRequests| == 2 && |players| == 2 {
        error := None;
        gameState := ThemeVoting;
      }
    }

    method HandleGameOver(winning: Player, finalPlayers: seq<Player>)
      modifies this, link, accounts
      ensures var t := GameOverStep(old(State()), winning, finalPlayers, old(link.isHost));
        State() == t.next && link.sent == old(link.sent) + Transmitted(old(link.connection), t.outgoing)
        && accounts.users == (if t.stats.Some?
                              then AuthService.StatsAfter(old(accounts.users), t.stats.value.winner, t.stats.value.loser)
                              else old(accounts.users))
    {
      winner := Some(winning);
      players := finalPlayers;
      error := None;
      gameState := WinnerCelebration;
      if link.isHost {
        Send([GameOverMessage(winning, finalPlayers)]);
      }
      var loser := GameBoard.FirstOther(finalPlayers, winning.id);
      if loser.Some? && !winning.isAI && !loser.value.isAI {
        accounts.UpdateStats(winning, loser.value);
      }
    }

    method HandleSendMessage(message: string, user: Player)
      modifies this, link
      ensures var t := SendChatStep(old(State()), message, user);
        State() == t.next && link.sent == old(link.sent) + Transmitted(old(link.connection), t.outgoing)
    {
      var chat := ChatMessage(user.id, user.name, message);
      messages := messages + [chat];
      if gameMode == Some(PlayerVsPlayer) {
        Send([ChatMessageSent(chat)]);
      }
    }
  }
}
