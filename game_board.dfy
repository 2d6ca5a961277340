/**
 * The match screen's permissions (components/GameBoardScreen.tsx): whose
 * turn it is, who may drag on the grid, spend bonus time or chat, and what
 * a forfeit reports. The turn itself arrives from outside; only the
 * spectator toggle is the screen's own state, and it is a parameter here.
 */
module GameBoard {
  import opened Wrappers
  import opened Types
  import PlayerInfo

  datatype TurnType = Normal | Steal

  /** `players[currentPlayerIndex]`, undefined outside the list. */
  function CurrentPlayer(players: seq<Player>, index: int): (p: Option<Player>)
    ensures p.Some? <==> 0 <= index < |players|
    ensures p.Some? ==> p.value == players[index]
  {
    if 0 <= index < |players| then Some(players[index]) else None
  }

  /** `currentPlayer?.id === currentUser.id`. */
  function IsMyTurn(players: seq<Player>, index: int, me: User): (mine: bool)
    ensures mine <==> 0 <= index < |players| && players[index].id == me.id
  {
    match CurrentPlayer(players, index)
    case None => false
    case Some(p) => p.id == me.id
  }

  /** `isSpectatorView || (currentPlayer && currentPlayer.isAI)`. */
  function IsSpectatorOrAI(spectatorView: bool, players: seq<Player>, index: int): (watching: bool)
    ensures watching <==> spectatorView || (0 <= index < |players| && players[index].isAI)
  {
    spectatorView || match CurrentPlayer(players, index) case None => false case Some(p) => p.isAI
  }

  /** The grid takes drags exactly on my active turn with the spectator view off. */
  function GridInteractive(players: seq<Player>, index: int, me: User, isTurnActive: bool, spectatorView: bool): (on: bool)
    ensures on <==> 0 <= index < |players| && players[index].id == me.id && isTurnActive && !spectatorView
  {
    IsMyTurn(players, index, me) && isTurnActive && !spectatorView
  }

  /** The bonus button shows on my active turn of the normal kind. */
  function BonusVisible(players: seq<Player>, index: int, me: User, isTurnActive: bool, turn: TurnType): (shown: bool)
    ensures shown <==> 0 <= index < |players| && players[index].id == me.id && isTurnActive && turn == Normal
  {
    IsMyTurn(players, index, me) && isTurnActive && turn == Normal
  }

  /** A shown bonus button is disabled while less than one award of bonus time is banked: no whole token on the panel. */
  function BonusDisabled(players: seq<Player>, index: int): (off: bool)
    requires 0 <= index < |players|
    ensures off <==> PlayerInfo.BonusTokens(players[index].bonusTime) < 1
  {
    players[index].bonusTime < BONUS_TIME_AWARD
  }

  /** Chat is locked outside an active turn, in spectator view, and on the computer's turn. */
  function ChatLocked(players: seq<Player>, index: int, isTurnActive: bool, spectatorView: bool): (locked: bool)
    ensures locked <==> !isTurnActive || spectatorView || (0 <= index < |players| && players[index].isAI)
  {
    !isTurnActive || IsSpectatorOrAI(spectatorView, players, index)
  }

  /** The computer's turn always locks the chat; otherwise it is open on any active turn without spectator view. */
  lemma ChatRules(players: seq<Player>, index: int, isTurnActive: bool, spectatorView: bool)
    requires 0 <= index < |players|
    ensures players[index].isAI ==> ChatLocked(players, index, isTurnActive, spectatorView)
    ensures !players[index].isAI && isTurnActive && !spectatorView ==> !ChatLocked(players, index, isTurnActive, spectatorView)
  {
  }

  /** On a turn where the grid takes my drags, the chat is locked only if the current player is flagged as the computer. */
  lemma InteractiveMeansChatOpen(players: seq<Player>, index: int, me: User, isTurnActive: bool, spectatorView: bool)
    requires GridInteractive(players, index, me, isTurnActive, spectatorView)
    ensures ChatLocked(players, index, isTurnActive, spectatorView) <==> players[index].isAI
  {
  }

  /** `players.find(p => p.id !== currentUser.id)`. */
  function FirstOther(players: seq<Player>, id: string): (other: Option<Player>)
    ensures other.Some? ==> other.value in players && other.value.id != id
    ensures other.Some? ==> exists k :: 0 <= k < |players| && players[k] == other.value
                                      && forall j :: 0 <= j < k ==> players[j].id == id
    ensures other.None? <==> forall i :: 0 <= i < |players| ==> players[i].id == id
  {
    if players == [] then None
    else if players[0].id != id then Some(players[0])
    else FirstOther(players[1..], id)
  }

  /** A confirmed forfeit: the game is over, won by the first player who is not me, with the players unchanged. */
  datatype ForfeitReport = ForfeitReport(winner: Player, finalPlayers: seq<Player>)

  function Forfeit(players: seq<Player>, me: User, confirmed: bool): (r: Option<ForfeitReport>)
    ensures r.Some? ==> confirmed && r.value.finalPlayers == players
                        && r.value.winner in players && r.value.winner.id != me.id
    ensures confirmed && (exists i :: 0 <= i < |players| && players[i].id != me.id) ==> r.Some?
  {
    if !confirmed then None
    else match FirstOther(players, me.id)
      case None => None
      case Some(w) => Some(ForfeitReport(w, players))
  }

  /** In a match of two, forfeiting hands the win to the opponent, who is the other player. */
  lemma ForfeitInTwoPlayerMatch(me: Player, opponent: Player, user: User)
    requires me.id == user.id && opponent.id != user.id
    ensures Forfeit([me, opponent], user, true) == Some(ForfeitReport(opponent, [me, opponent]))
    ensures Forfeit([opponent, me], user, true) == Some(ForfeitReport(opponent, [opponent, me]))
  {
    assert [me, opponent][1..] == [opponent];
    assert FirstOther([opponent], user.id) == Some(opponent);
  }
}
