/**
 * The coin flip that decides who moves first in a match between two people
 * (components/CoinFlipScreen.tsx). The host calls the coin, tosses it and
 * broadcasts the result; when a result arrives the screen shows it after an
 * animation, and the host then starts the game with the winner's index.
 * The toss is a parameter; the animation delays are collapsed into steps.
 */
module CoinFlip {
  import opened Wrappers
  import opened P2PService

  /** Player 1 (the host, who calls) moves first exactly when the call matches the toss. */
  function WinnerIndex(call: Coin, toss: Coin): (w: int)
    ensures w == 0 || w == 1
    ensures w == 0 <==> call == toss
  {
    if call == toss then 0 else 1
  }

  /** What handleFlip broadcasts: nothing while a flip is running or on the guest's screen. */
  function FlipBroadcast(isFlipping: bool, isHost: bool, call: Coin, toss: Coin): (m: Option<P2PMessage>)
    ensures m.None? <==> isFlipping || !isHost
    ensures m.Some? ==> m.value.CoinFlipResult? && m.value.result == toss && m.value.player1Call == call
                        && (m.value.winnerIndex == 0 <==> call == toss)
  {
    if isFlipping || !isHost then None
    else Some(CoinFlipResult(toss, WinnerIndex(call, toss), call))
  }

  /** The screen's state. */
  datatype FlipView = FlipView(isFlipping: bool, result: Option<Coin>, winnerIndex: Option<int>,
                               player1Call: Option<Coin>)

  const INITIAL: FlipView := FlipView(false, None, None, None)

  /** A received result, at once: the call is shown and the coin spins. */
  function Reveal(v: FlipView, msg: P2PMessage): (w: FlipView)
    ensures w.result == v.result && w.winnerIndex == v.winnerIndex
    ensures msg.CoinFlipResult? ==> w.isFlipping && w.player1Call == Some(msg.player1Call)
    ensures !msg.CoinFlipResult? ==> w == v
  {
    if msg.CoinFlipResult? then v.(player1Call := Some(msg.player1Call), isFlipping := true) else v
  }

  /** A received result, after the animation: the outcome is shown and the coin stops. */
  function Settle(v: FlipView, msg: P2PMessage): (w: FlipView)
    ensures w.player1Call == v.player1Call
    ensures msg.CoinFlipResult? ==> !w.isFlipping && w.result == Some(msg.result) && w.winnerIndex == Some(msg.winnerIndex)
    ensures !msg.CoinFlipResult? ==> w == v
  {
    if msg.CoinFlipResult? then v.(result := Some(msg.result), winnerIndex := Some(msg.winnerIndex), isFlipping := false)
    else v
  }

  /** Only the host proceeds from a received result, with the payload's winner index. */
  function Proceeds(isHost: bool, msg: P2PMessage): (start: Option<int>)
    ensures start.Some? <==> isHost && msg.CoinFlipResult?
    ensures start.Some? ==> start == Some(msg.winnerIndex)
  {
    if isHost && msg.CoinFlipResult? then Some(msg.winnerIndex) else None
  }

  /** A screen handling the messages that reach it, in order; the first index it proceeds with starts the game. */
  function Handle(v: FlipView, isHost: bool, inbox: seq<P2PMessage>, started: Option<int>): (h: (FlipView, Option<int>))
    ensures started.Some? ==> h.1 == started
    ensures h.1.Some? && started.None? ==>
      isHost && exists i :: 0 <= i < |inbox| && inbox[i].CoinFlipResult? && h.1 == Some(inbox[i].winnerIndex)
    ensures (forall i :: 0 <= i < |inbox| ==> !inbox[i].CoinFlipResult?) ==> h == (v, started)
    decreases |inbox|
  {
    if inbox == [] then (v, started)
    else
      var msg := inbox[0];
      var next := if started.Some? then started else Proceeds(isHost, msg);
      Handle(Settle(Reveal(v, msg), msg), isHost, inbox[1..], next)
  }

  /** Both screens after the host's call and the messages that reach each of them. */
  datatype Round = Round(host: FlipView, guest: FlipView, hostStarts: Option<int>, guestStarts: Option<int>)

  function Exchange(hostInbox: seq<P2PMessage>, guestInbox: seq<P2PMessage>): Round
  {
    var (h, hs) := Handle(INITIAL, true, hostInbox, None);
    var (g, gs) := Handle(INITIAL, false, guestInbox, None);
    Round(h, g, hs, gs)
  }

  /**
   * The flip as written: the host only sends the result, and a connection
   * delivers a message to the other end alone, so the host's own screen
   * never handles it.
   */
  function RoundAsWritten(call: Coin, toss: Coin): Round
  {
    var sent := FlipBroadcast(false, true, call, toss).value;
    Exchange([], [sent])
  }

  /** As written, the guest sees the result but nobody starts the game. */
  lemma FlipNeverStartsGame(call: Coin, toss: Coin)
    ensures var r := RoundAsWritten(call, toss);
      r.hostStarts == None && r.guestStarts == None
      && r.guest.result == Some(toss) && r.host.result == None
  {
  }

  /** The flip corrected: the host handles its own broadcast as well. */
  function RoundCorrected(call: Coin, toss: Coin): Round
  {
    var sent := FlipBroadcast(false, true, call, toss).value;
    Exchange([sent], [sent])
  }

  /** Corrected, the host starts the game with player 1 first exactly when the call matched, and both screens agree. */
  lemma FlipStartsGame(call: Coin, toss: Coin)
    ensures var r := RoundCorrected(call, toss);
      r.hostStarts.Some? && (r.hostStarts.value == 0 <==> call == toss)
      && r.guestStarts == None
      && r.host == r.guest && r.host.result == Some(toss) && r.host.player1Call == Some(call)
  {
  }

  class CoinFlipScreen {
    const isHost: bool
    var isFlipping: bool
    var result: Option<Coin>
    var winnerIndex: Option<int>
    var player1Call: Option<Coin>

    function View(): FlipView
      reads this
    {
      FlipView(isFlipping, result, winnerIndex, player1Call)
    }

    constructor (isHost: bool)
      ensures this.isHost == isHost && View() == INITIAL
    {
      this.isHost := isHost;
      isFlipping := false;
      result := None;
      winnerIndex := None;
      player1Call := None;
    }

    /**
     * handleFlip, corrected as in RoundCorrected: the host tosses, broadcasts
     * the outcome and starts showing it on its own screen too.
     */
    method HandleFlip(call: Coin, toss: Coin) returns (broadcast: Option<P2PMessage>)
      modifies this
      ensures broadcast == FlipBroadcast(old(isFlipping), isHost, call, toss)
      ensures broadcast.None? ==> View() == old(View())
      ensures broadcast.Some? ==> View() == Reveal(old(View()), broadcast.value)
    {
      if isFlipping || !isHost {
        return None;
      }
      var msg := CoinFlipResult(toss, WinnerIndex(call, toss), call);
      broadcast := Some(msg);
      DataReceived(msg);
    }

    /** The data handler, at once: a result shows the call and spins the coin; other messages are ignored. */
    method DataReceived(msg: P2PMessage)
      modifies this
      ensures View() == Reveal(old(View()), msg)
    {
      if msg.CoinFlipResult? {
        player1Call := Some(msg.player1Call);
        isFlipping := true;
      }
    }

    /** The data handler, after the animation: the result is shown, and the host proceeds. */
    method AnimationDone(msg: P2PMessage) returns (start: Option<int>)
      modifies this
      ensures View() == Settle(old(View()), msg)
      ensures start == Proceeds(isHost, msg)
    {
      if msg.CoinFlipResult? {
        result := Some(msg.result);
        winnerIndex := Some(msg.winnerIndex);
        isFlipping := false;
        if isHost {
          return Some(msg.winnerIndex);
        }
      }
      return None;
    }
  }
}
