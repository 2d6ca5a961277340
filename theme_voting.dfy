/**
 * The rematch theme vote (components/ThemeVotingScreen.tsx): three themes
 * are offered, each player votes once, a computer opponent votes by itself,
 * and once two votes are in a theme is chosen. The shuffle, the computer's
 * pick and the tie-break are the random choices, passed in as values.
 */
module ThemeVoting {
  import opened Wrappers
  import opened Types
  import GameService

  const OFFERED: nat := 3

  /** The themes are pairwise different. */
  lemma ThemesDistinct()
    ensures forall i, j :: 0 <= i < j < |GameService.THEMES| ==> GameService.THEMES[i] != GameService.THEMES[j]
  {
  }

  /** An order a shuffle of n entries can produce: each index below n exactly once. */
  predicate IsPermutation(order: seq<nat>, n: nat)
  {
    |order| == n
    && (forall i :: 0 <= i < n ==> order[i] < n)
    && (forall i, j :: 0 <= i < j < n ==> order[i] != order[j])
  }

  /** `getRandomThemes`: the first three themes of a shuffled copy of THEMES, as three different themes. */
  function OfferedThemes(order: seq<nat>): (themes: seq<string>)
    requires IsPermutation(order, |GameService.THEMES|)
    ensures |themes| == OFFERED
    ensures forall i :: 0 <= i < |themes| ==> themes[i] in GameService.THEMES
    ensures forall i, j :: 0 <= i < j < |themes| ==> themes[i] != themes[j]
  {
    ThemesDistinct();
    var shuffled := seq(|order|, i requires 0 <= i < |order| => GameService.THEMES[order[i]]);
    shuffled[..OFFERED]
  }

  /** `votes[playerId]` is truthy: a non-empty vote is recorded. */
  predicate HasVoted(votes: map<string, string>, playerId: string)
    ensures HasVoted(votes, playerId) ==> Lookup(votes, playerId).Some? && Lookup(votes, playerId).value != ""
    ensures playerId !in votes ==> !HasVoted(votes, playerId)
  {
    playerId in votes && votes[playerId] != ""
  }

  /** handleVote: a player who has voted keeps that vote; otherwise the vote is recorded. */
  function Vote(votes: map<string, string>, playerId: string, theme: string): (after: map<string, string>)
    ensures forall id :: id != playerId ==> (id in after <==> id in votes)
    ensures forall id :: id in votes && id != playerId ==> after[id] == votes[id]
  {
    if HasVoted(votes, playerId) then votes else votes[playerId := theme]
  }

  /** A second vote by the same player is ignored: the first one stands. */
  lemma FirstVoteStands(votes: map<string, string>, playerId: string, first: string, second: string)
    requires first != ""
    ensures var once := Vote(votes, playerId, first);
      HasVoted(once, playerId) ==> Vote(once, playerId, second) == once
    ensures !HasVoted(votes, playerId) ==> Vote(Vote(votes, playerId, first), playerId, second)[playerId] == first
  {
  }

  /** `players.find(p => p.isAI)`. */
  function FirstAi(players: seq<Player>): (ai: Option<Player>)
    ensures ai.Some? ==> ai.value in players && ai.value.isAI
    ensures ai.Some? ==> exists k :: 0 <= k < |players| && players[k] == ai.value
                                   && forall j :: 0 <= j < k ==> !players[j].isAI
    ensures ai.None? <==> forall i :: 0 <= i < |players| ==> !players[i].isAI
  {
    if players == [] then None
    else if players[0].isAI then Some(players[0])
    else FirstAi(players[1..])
  }

  /** The computer's vote: once, for the offered theme it picked, and only if it has not voted. */
  function AiVoted(votes: map<string, string>, players: seq<Player>, themes: seq<string>, pick: nat): (after: map<string, string>)
    requires pick < |themes|
    ensures FirstAi(players).None? ==> after == votes
    ensures forall id :: HasVoted(votes, id) ==> id in after && after[id] == votes[id]
    ensures forall id :: id in after && (id !in votes || after[id] != votes[id]) ==>
      FirstAi(players).Some? && id == FirstAi(players).value.id && after[id] == themes[pick]
  {
    match FirstAi(players)
    case None => votes
    case Some(ai) => if HasVoted(votes, ai.id) then votes else Vote(votes, ai.id, themes[pick])
  }

  /** Every recorded vote is for one of the offered themes. */
  predicate VotesOffered(votes: map<string, string>, themes: seq<string>)
  {
    forall id :: id in votes ==> votes[id] in themes
  }

  /** The computer votes only once, whatever it would pick the next time, and only for an offered theme. */
  lemma AiVotesOnceForOfferedTheme(votes: map<string, string>, players: seq<Player>, themes: seq<string>,
                                   pick: nat, later: nat)
    requires pick < |themes| && later < |themes|
    requires forall i :: 0 <= i < |themes| ==> themes[i] != ""
    requires VotesOffered(votes, themes)
    ensures var once := AiVoted(votes, players, themes, pick);
      AiVoted(once, players, themes, later) == once && VotesOffered(once, themes)
  {
  }

  /** The vote outcome: still waiting, or the chosen theme (None when a player's vote is missing). */
  datatype Resolution = Pending | Chosen(theme: Option<string>)

  function Lookup(votes: map<string, string>, id: string): Option<string>
  {
    if id in votes then Some(votes[id]) else None
  }

  /**
   * The resolution effect: once exactly two votes are recorded, equal votes
   * give that theme and differing votes the first or the second player's
   * vote, as the coin `pickFirst` says.
   */
  function Resolve(votes: map<string, string>, first: Player, second: Player, pickFirst: bool): (r: Resolution)
    ensures r.Chosen? <==> |votes| == 2
  {
    if |votes| != 2 then Pending
    else
      var v1 := Lookup(votes, first.id);
      var v2 := Lookup(votes, second.id);
      Chosen(if v1 == v2 || pickFirst then v1 else v2)
  }

  /**
   * When the two votes are the two players': equal votes choose that theme,
   * differing votes one of the two, and either way an offered theme.
   */
  lemma ResolveTwoVotes(votes: map<string, string>, first: Player, second: Player, pickFirst: bool,
                        themes: seq<string>)
    requires first.id != second.id && votes.Keys == {first.id, second.id}
    requires VotesOffered(votes, themes)
    ensures var r := Resolve(votes, first, second, pickFirst);
      r.Chosen? && r.theme.Some?
      && (votes[first.id] == votes[second.id] ==> r.theme.value == votes[first.id])
      && (r.theme.value == votes[first.id] || r.theme.value == votes[second.id])
      && r.theme.value in themes
  {
    assert |votes.Keys| == 2;
    assert |votes| == |votes.Keys|;
  }

  class VotingScreen {
    const players: seq<Player>
    const themes: seq<string>
    var votes: map<string, string>

    /** The screen renders only with two players; the themes are drawn once, at mount. */
    constructor (players: seq<Player>, order: seq<nat>)
      requires |players| >= 2
      requires IsPermutation(order, |GameService.THEMES|)
      ensures this.players == players && themes == OfferedThemes(order) && votes == map[]
    {
      this.players := players;
      themes := OfferedThemes(order);
      votes := map[];
    }

    /** handleVote. */
    method CastVote(playerId: string, theme: string)
      modifies this
      ensures votes == Vote(old(votes), playerId, theme)
      ensures old(VotesOffered(votes, themes)) && theme in themes ==> VotesOffered(votes, themes)
    {
      if HasVoted(votes, playerId) {
        return;
      }
      votes := votes[playerId := theme];
    }

    /** The computer's voting effect, with `pick` the index `Math.floor(Math.random() * themes.length)` drew. */
    method AiVote(pick: nat)
      requires pick < |themes|
      modifies this
      ensures votes == AiVoted(old(votes), players, themes, pick)
      ensures old(VotesOffered(votes, themes)) ==> VotesOffered(votes, themes)
    {
      var ai := FirstAi(players);
      if ai.Some? && !HasVoted(votes, ai.value.id) {
        CastVote(ai.value.id, themes[pick]);
      }
    }

    /** The resolution effect, with `pickFirst` the tie-break `Math.random() < 0.5`. */
    method Outcome(pickFirst: bool) returns (r: Resolution)
      requires |players| >= 2
      ensures r.Chosen? <==> |votes| == 2
      ensures r == Resolve(votes, players[0], players[1], pickFirst)
    {
      if |votes| != 2 {
        return Pending;
      }
      var v1 := Lookup(votes, players[0].id);
      var v2 := Lookup(votes, players[1].id);
      if v1 == v2 {
        return Chosen(v1);
      }
      return Chosen(if pickFirst then v1 else v2);
    }
  }
}
