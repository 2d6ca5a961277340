/**
 * The peer-to-peer link (services/p2pService.ts): a per-event listener
 * registry, and the fields the link keeps about its peer and connection.
 * PeerJS itself is outside the model: its callbacks are methods the
 * environment calls, and a connection is a value that says whether it is open.
 */
module P2PService {
  import opened Wrappers
  import opened Types

  // ---------------------------------------------------------------- messages

  datatype Coin = Heads | Tails

  /** The messages the two browsers exchange. */
  datatype P2PMessage =
    | StartGame(firstPlayerIndex: int, gridData: GridData, wordsToWin: int)
    | GameStateUpdate(players: seq<Player>, gridData: GridData, currentPlayerIndex: int,
                      stealTurn: bool, timeLeft: int)
    | GameOverMessage(winner: Player, finalPlayers: seq<Player>)
    | ChatMessageSent(chat: ChatMessage)
    | SelectWord(word: string)
    | UseBonus
    | Forfeit
    | RematchRequest
    | RematchAccepted(theme: string)
    | CoinFlipResult(result: Coin, winnerIndex: int, player1Call: Coin)

  // ---------------------------------------------------------------- listener registry

  datatype ServiceEvent = PeerIdGenerated | ConnectionOpen | ConnectionClosed | DataReceived | ErrorRaised

  /** A listener, identified as JavaScript identifies functions: by reference. */
  type ListenerId = nat

  /** The function `on` hands back: calling it unsubscribes that listener from that event. */
  datatype Unsubscribe = Unsubscribe(event: ServiceEvent, listener: ListenerId)

  /** `list.filter(l => l !== listener)`. */
  function Without(list: seq<ListenerId>, listener: ListenerId): (kept: seq<ListenerId>)
    ensures listener !in kept
    ensures forall x :: x in kept ==> x in list
    ensures |kept| <= |list|
  {
    if list == [] then []
    else if list[0] == listener then Without(list[1..], listener)
    else [list[0]] + Without(list[1..], listener)
  }

  /** Filtering works piece by piece, so the remaining listeners keep their order. */
  lemma {:induction false} WithoutDistributes(a: seq<ListenerId>, b: seq<ListenerId>, listener: ListenerId)
    ensures Without(a + b, listener) == Without(a, listener) + Without(b, listener)
  {
    if a == [] {
      assert a + b == b;
    } else {
      assert (a + b)[1..] == a[1..] + b;
      WithoutDistributes(a[1..], b, listener);
    }
  }

  /** Every other listener stays, as many times as it was registered. */
  lemma {:induction false} WithoutKeepsOthers(list: seq<ListenerId>, listener: ListenerId, other: ListenerId)
    requires other != listener
    ensures multiset(Without(list, listener))[other] == multiset(list)[other]
  {
    if list != [] {
      WithoutKeepsOthers(list[1..], listener, other);
      assert list == [list[0]] + list[1..];
    }
  }

  /** Removing a listener that is not registered changes nothing. */
  lemma {:induction false} WithoutAbsent(list: seq<ListenerId>, listener: ListenerId)
    requires listener !in list
    ensures Without(list, listener) == list
  {
    if list != [] {
      WithoutAbsent(list[1..], listener);
      assert list == [list[0]] + list[1..];
    }
  }

  /** Subscribing and then unsubscribing a new listener restores the list. */
  lemma OnThenOff(list: seq<ListenerId>, listener: ListenerId)
    requires listener !in list
    ensures Without(list + [listener], listener) == list
  {
    WithoutDistributes(list, [listener], listener);
    WithoutAbsent(list, listener);
    assert Without([listener], listener) == [];
  }

  class EventEmitter {
    var listeners: map<ServiceEvent, seq<ListenerId>>

    constructor ()
      ensures listeners == map[]
    {
      listeners := map[];
    }

    /** The listeners of an event; an event nobody subscribed to has none. */
    function ListenersOf(event: ServiceEvent): (list: seq<ListenerId>)
      reads this
      ensures event !in listeners ==> list == []
      ensures event in listeners ==> list == listeners[event]
    {
      if event in listeners then listeners[event] else []
    }

    /** on: append the listener to that event's list; the result undoes it. */
    method On(event: ServiceEvent, listener: ListenerId) returns (unsubscribe: Unsubscribe)
      modifies this
      ensures listeners == old(listeners)[event := old(ListenersOf(event)) + [listener]]
      ensures unsubscribe == Unsubscribe(event, listener)
    {
      if event !in listeners {
        listeners := listeners[event := []];
      }
      listeners := listeners[event := listeners[event] + [listener]];
      return Unsubscribe(event, listener);
    }

    /** off: drop every registration of the listener for that event; no list, no change. */
    method Off(event: ServiceEvent, listener: ListenerId)
      modifies this
      ensures event !in old(listeners) ==> listeners == old(listeners)
      ensures event in old(listeners) ==>
        listeners == old(listeners)[event := Without(old(listeners)[event], listener)]
    {
      if event !in listeners {
        return;
      }
      listeners := listeners[event := Without(listeners[event], listener)];
    }

    /** Calling the function `on` returned. */
    method RunUnsubscribe(unsubscribe: Unsubscribe)
      modifies this
      ensures unsubscribe.event !in old(listeners) ==> listeners == old(listeners)
      ensures unsubscribe.event in old(listeners) ==>
        listeners == old(listeners)[unsubscribe.event :=
          Without(old(listeners)[unsubscribe.event], unsubscribe.listener)]
    {
      Off(unsubscribe.event, unsubscribe.listener);
    }

    /** emit: the listeners called, in registration order; none for an event without a list. */
    method Emit(event: ServiceEvent) returns (called: seq<ListenerId>)
      ensures called == ListenersOf(event)
    {
      if event !in listeners {
        return [];
      }
      called := [];
      var list := listeners[event];
      var i := 0;
      while i < |list|
        invariant 0 <= i <= |list|
        invariant called == list[..i]
      {
        called := called + [list[i]];
        i := i + 1;
      }
    }
  }

  // ---------------------------------------------------------------- the link

  /** A data connection: the remote peer it leads to, and whether it is open. */
  datatype Connection = Connection(remote: string, open: bool)

  /** A PeerJS peer object, by the handle it was created with. */
  type PeerHandle = nat

  class Link {
    const events: EventEmitter
    var peer: Option<PeerHandle>
    var connection: Option<Connection>
    var isHost: bool
    var peerId: Option<string>
    /** What `connection.send` has been given, oldest first. */
    var sent: seq<P2PMessage>

    constructor ()
      ensures fresh(events) && events.listeners == map[]
      ensures peer == None && connection == None && !isHost && peerId == None && sent == []
    {
      events := new EventEmitter();
      peer := None;
      connection := None;
      isHost := false;
      peerId := None;
      sent := [];
    }

    /** initializeAsHost: this side hosts, on a new peer. */
    method InitializeAsHost(newPeer: PeerHandle)
      modifies this
      ensures isHost && peer == Some(newPeer)
      ensures connection == old(connection) && peerId == old(peerId) && sent == old(sent)
    {
      isHost := true;
      peer := Some(newPeer);
    }

    /** The host peer's 'open' callback: remember the id and announce it. */
    method HostPeerOpened(id: string) returns (notified: seq<ListenerId>)
      modifies this
      ensures peerId == Some(id)
      ensures peer == old(peer) && connection == old(connection) && isHost == old(isHost) && sent == old(sent)
      ensures notified == events.ListenersOf(PeerIdGenerated)
    {
      peerId := Some(id);
      notified := events.Emit(PeerIdGenerated);
    }

    /**
     * The host peer's 'connection' callback: a host that already has a
     * connection turns the newcomer away and keeps its own; otherwise the
     * newcomer becomes the connection and 'connection-open' is announced.
     */
    method IncomingConnection(conn: Connection) returns (accepted: bool, notified: seq<ListenerId>)
      modifies this
      ensures accepted <==> old(connection).None?
      ensures accepted ==> connection == Some(conn) && notified == events.ListenersOf(ConnectionOpen)
      ensures !accepted ==> connection == old(connection) && notified == []
      ensures peer == old(peer) && isHost == old(isHost) && peerId == old(peerId) && sent == old(sent)
    {
      if connection.Some? {
        return false, [];
      }
      connection := Some(conn);
      notified := events.Emit(ConnectionOpen);
      return true, notified;
    }

    /** initializeAsGuestAndConnect: this side is the guest, on a new peer with no id yet. */
    method InitializeAsGuest(newPeer: PeerHandle)
      modifies this
      ensures !isHost && peer == Some(newPeer) && peerId == None
      ensures connection == old(connection) && sent == old(sent)
    {
      isHost := false;
      peer := Some(newPeer);
      peerId := None;
    }

    /** The guest peer's 'open' callback: connect to the host, unless the peer is gone. */
    method GuestPeerOpened(toHost: Connection)
      modifies this
      ensures connection == if old(peer).Some? then Some(toHost) else old(connection)
      ensures peer == old(peer) && isHost == old(isHost) && peerId == old(peerId) && sent == old(sent)
    {
      if peer.None? {
        return;
      }
      connection := Some(toHost);
    }

    /** The connection's 'close' callback: forget the connection and announce it. */
    method ConnectionClosedByPeer() returns (notified: seq<ListenerId>)
      modifies this
      ensures connection == None && notified == events.ListenersOf(ConnectionClosed)
      ensures peer == old(peer) && isHost == old(isHost) && peerId == old(peerId) && sent == old(sent)
    {
      connection := None;
      notified := events.Emit(ConnectionClosed);
    }

    /** sendMessage: sends only over a connection that exists and is open. */
    method SendMessage(msg: P2PMessage) returns (delivered: bool)
      modifies this
      ensures delivered <==> old(connection).Some? && old(connection).value.open
      ensures sent == if delivered then old(sent) + [msg] else old(sent)
      ensures peer == old(peer) && connection == old(connection) && isHost == old(isHost) && peerId == old(peerId)
    {
      delivered := connection.Some? && connection.value.open;
      if delivered {
        sent := sent + [msg];
      }
    }

    /** disconnect: drop the peer, the connection and the id; the host flag stays. */
    method Disconnect()
      modifies this
      ensures peer == None && connection == None && peerId == None
      ensures isHost == old(isHost) && sent == old(sent)
    {
      peer := None;
      connection := None;
      peerId := None;
    }
  }
}
