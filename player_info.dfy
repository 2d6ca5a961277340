/**
 * The player panel (components/common/PlayerInfo.tsx): everything it shows
 * is derived from the player and the puzzle's word list.
 */
module PlayerInfo {
  import opened Wrappers
  import opened Types

  /** `words.filter(w => w.foundBy === playerId)`, in puzzle order. */
  function FoundWords(words: seq<WordLocation>, playerId: string): (found: seq<WordLocation>)
    ensures |found| <= |words|
    ensures forall i :: 0 <= i < |found| ==> found[i] in words && found[i].foundBy == Some(playerId)
    ensures forall i :: 0 <= i < |words| && words[i].foundBy == Some(playerId) ==> words[i] in found
    decreases |words|
  {
    if words == [] then []
    else
      var rest := FoundWords(words[1..], playerId);
      if words[0].foundBy == Some(playerId) then [words[0]] + rest else rest
  }

  /** The score: how many words this player found. */
  function Score(words: seq<WordLocation>, playerId: string): (score: nat)
    ensures score <= |words|
  {
    |FoundWords(words, playerId)|
  }

  /** The filter works word by word, so the score adds up over any split of the list. */
  lemma {:induction false} FoundWordsOfConcat(a: seq<WordLocation>, b: seq<WordLocation>, playerId: string)
    ensures FoundWords(a + b, playerId) == FoundWords(a, playerId) + FoundWords(b, playerId)
    ensures Score(a + b, playerId) == Score(a, playerId) + Score(b, playerId)
  {
    if a == [] {
      assert a + b == b;
    } else {
      assert (a + b)[1..] == a[1..] + b;
      FoundWordsOfConcat(a[1..], b, playerId);
    }
  }

  /** A single word scores one for its finder and nothing for anyone else. */
  lemma ScoreOfOneWord(w: WordLocation, playerId: string)
    ensures Score([w], playerId) == if w.foundBy == Some(playerId) then 1 else 0
  {
    assert [w][1..] == [];
  }

  /** Two different players never found more words between them than the puzzle has. */
  lemma {:induction false} ScoresShareTheWords(words: seq<WordLocation>, a: string, b: string)
    requires a != b
    ensures Score(words, a) + Score(words, b) <= |words|
  {
    if words != [] {
      ScoresShareTheWords(words[1..], a, b);
    }
  }

  /** The score row: one dot per word needed to win (none for a non-positive count), dot i filled iff i < score. */
  function ScoreDots(wordsToWin: int, score: nat): (dots: seq<bool>)
    ensures |dots| == if wordsToWin > 0 then wordsToWin else 0
    ensures forall i :: 0 <= i < |dots| ==> (dots[i] <==> i < score)
  {
    seq(if wordsToWin > 0 then wordsToWin else 0, i => i < score)
  }

  /** Once the score reaches the target every dot is filled. */
  lemma DotsFullAtTarget(wordsToWin: int, score: nat)
    requires 0 < wordsToWin <= score
    ensures forall i :: 0 <= i < |ScoreDots(wordsToWin, score)| ==> ScoreDots(wordsToWin, score)[i]
  {
  }

  /** `Math.floor(bonusTime / BONUS_TIME_AWARD)`: the whole bonus chunks banked. */
  function BonusTokens(bonusTime: int): (tokens: int)
    ensures tokens * BONUS_TIME_AWARD <= bonusTime < (tokens + 1) * BONUS_TIME_AWARD
  {
    bonusTime / BONUS_TIME_AWARD
  }

  /** Spending one chunk removes exactly one token. */
  lemma SpendingOneChunk(bonusTime: int)
    ensures BonusTokens(bonusTime - BONUS_TIME_AWARD) == BonusTokens(bonusTime) - 1
  {
    var t := BonusTokens(bonusTime);
    var u := BonusTokens(bonusTime - BONUS_TIME_AWARD);
    assert u * BONUS_TIME_AWARD <= bonusTime - BONUS_TIME_AWARD < (u + 1) * BONUS_TIME_AWARD;
    assert (u + 1) * BONUS_TIME_AWARD <= bonusTime < (u + 2) * BONUS_TIME_AWARD;
    assert t * BONUS_TIME_AWARD <= bonusTime < (t + 1) * BONUS_TIME_AWARD;
  }

  /** The bonus panel shows only on the current player's panel, and never for the computer. */
  function ShowBonusPanel(isCurrent: bool, player: Player): (shown: bool)
    ensures shown ==> isCurrent && !player.isAI
    ensures isCurrent && !player.isAI ==> shown
  {
    isCurrent && !player.isAI
  }

  /** The empty-state line of the found-word list. */
  function ShowNoWordsYet(words: seq<WordLocation>, playerId: string): (shown: bool)
    ensures shown <==> FoundWords(words, playerId) == []
  {
    Score(words, playerId) == 0
  }
}
