/**
 * The live-quote stream of src/hooks/useWebSocketQuote.ts: one lazily created socket shared by
 * the whole page, and any number of consumers (one per mounted hook activation), each of which
 * registers its own quote/connect/disconnect handlers and sends its own subscribe and
 * unsubscribe frames, with no reference counting.
 */
module QuoteStream {
  import opened Wrappers
  import opened Text

  /** A server-to-client `quote` event payload. */
  datatype Quote = Quote(provider: string, symbol: string, price: real, change: Option<real>, changePercent: Option<real>, timestamp: int)

  /** A client-to-server control frame. */
  datatype Frame =
    | Subscribe(symbol: string, provider: string, intervalMs: int)
    | Unsubscribe(symbol: string, provider: string)

  /** A consumer's handler accepts a quote whose symbol equals its own ignoring case; the provider is not compared. */
  predicate Matches(subscribed: string, q: Quote)
  {
    EqualsIgnoreCase(q.symbol, subscribed)
  }

  /** Upper-casing on the consumer side makes "aapl" events reach an "AAPL" consumer and vice versa. */
  lemma MatchesIgnoresCase(subscribed: string, q: Quote)
    ensures Matches(subscribed, q) <==> Matches(ToUpper(subscribed), q.(symbol := ToLower(q.symbol)))
  {
    assert forall i :: 0 <= i < |q.symbol| ==> UpperChar(LowerChar(q.symbol[i])) == UpperChar(q.symbol[i]);
    assert forall i :: 0 <= i < |subscribed| ==> UpperChar(UpperChar(subscribed[i])) == UpperChar(subscribed[i]);
    assert ToUpper(ToLower(q.symbol)) == ToUpper(q.symbol);
    assert ToUpper(ToUpper(subscribed)) == ToUpper(subscribed);
  }

  /** The client socket: its connection flag, the frames it emitted, and the registered handlers by event. */
  class Socket {
    var connected: bool
    /** Set once the client itself called `disconnect()`. */
    var closed: bool
    var frames: seq<Frame>
    var quoteListeners: set<QuoteConsumer>
    var connectListeners: set<QuoteConsumer>
    var disconnectListeners: set<QuoteConsumer>

    /** A new socket has not connected yet and has no handlers. */
    constructor ()
      ensures !connected && !closed && frames == []
      ensures quoteListeners == {} && connectListeners == {} && disconnectListeners == {}
    {
      connected, closed, frames := false, false, [];
      quoteListeners, connectListeners, disconnectListeners := {}, {}, {};
    }

    method Emit(f: Frame)
      modifies this`frames
      ensures frames == old(frames) + [f]
    {
      frames := frames + [f];
    }

    /** `socket.disconnect()` by the client. */
    method Disconnect()
      modifies this`connected, this`closed
      ensures !connected && closed
    {
      connected, closed := false, true;
    }

    /** A `quote` event: every registered quote handler runs; only consumers of that symbol change. */
    method ReceiveQuote(q: Quote)
      modifies quoteListeners
      ensures forall c :: c in quoteListeners ==>
        if Matches(c.symbol, q) then c.quote == Some(q) && c.error == None
        else c.quote == old(c.quote) && c.error == old(c.error)
      ensures forall c :: c in quoteListeners ==> c.isConnected == old(c.isConnected) && c.socket == old(c.socket)
    {
      var pending := quoteListeners;
      while pending != {}
        invariant pending <= quoteListeners
        invariant forall c :: c in quoteListeners && c !in pending ==>
          if Matches(c.symbol, q) then c.quote == Some(q) && c.error == None
          else c.quote == old(c.quote) && c.error == old(c.error)
        invariant forall c :: c in pending ==> c.quote == old(c.quote) && c.error == old(c.error)
        invariant forall c :: c in quoteListeners ==> c.isConnected == old(c.isConnected) && c.socket == old(c.socket)
        decreases pending
      {
        var c :| c in pending;
        c.HandleQuote(q);
        pending := pending - {c};
      }
    }

    /** A `connect` event: the socket is connected and every connect handler records it. */
    method ReceiveConnect()
      modifies this`connected, connectListeners
      ensures connected
      ensures forall c :: c in connectListeners ==> c.isConnected
      ensures forall c :: c in connectListeners ==> c.quote == old(c.quote) && c.error == old(c.error) && c.socket == old(c.socket)
    {
      connected := true;
      var pending := connectListeners;
      while pending != {}
        invariant pending <= connectListeners && connected
        invariant forall c :: c in connectListeners && c !in pending ==> c.isConnected
        invariant forall c :: c in connectListeners ==> c.quote == old(c.quote) && c.error == old(c.error) && c.socket == old(c.socket)
        decreases pending
      {
        var c :| c in pending;
        c.HandleConnect();
        pending := pending - {c};
      }
    }

    /** A `disconnect` event: the socket is down and every disconnect handler records it. */
    method ReceiveDisconnect()
      modifies this`connected, disconnectListeners
      ensures !connected
      ensures forall c :: c in disconnectListeners ==> !c.isConnected
      ensures forall c :: c in disconnectListeners ==> c.quote == old(c.quote) && c.error == old(c.error) && c.socket == old(c.socket)
    {
      connected := false;
      var pending := disconnectListeners;
      while pending != {}
        invariant pending <= disconnectListeners && !connected
        invariant forall c :: c in disconnectListeners && c !in pending ==> !c.isConnected
        invariant forall c :: c in disconnectListeners ==> c.quote == old(c.quote) && c.error == old(c.error) && c.socket == old(c.socket)
        decreases pending
      {
        var c :| c in pending;
        c.HandleDisconnect();
        pending := pending - {c};
      }
    }
  }

  /** The module-level `globalSocket` and `getSocket()`. */
  class SocketHub {
    var globalSocket: Socket?
    /** Every socket this hub has ever opened. */
    ghost var sockets: set<Socket>

    /** At most one socket ever exists, and it is the global one. */
    ghost predicate Valid()
      reads this
    {
      if globalSocket == null then sockets == {} else sockets == {globalSocket}
    }

    constructor ()
      ensures Valid() && globalSocket == null
    {
      globalSocket := null;
      sockets := {};
    }

    /** Create the socket only when there is none yet; later calls return the same instance. */
    method GetSocket() returns (s: Socket)
      requires Valid()
      modifies this
      ensures Valid() && globalSocket == s && sockets == old(sockets) + {s} == {s}
      ensures old(globalSocket) != null ==> s == old(globalSocket)
      ensures old(globalSocket) == null ==>
        (fresh(s) && !s.connected && !s.closed && s.frames == []
         && s.quoteListeners == {} && s.connectListeners == {} && s.disconnectListeners == {})
    {
      if globalSocket == null {
        globalSocket := new Socket();
        sockets := sockets + {globalSocket};
      }
      s := globalSocket;
    }
  }

  /** One activation of `useWebSocketQuote({symbol, provider, enabled, intervalMs})` and its state. */
  class QuoteConsumer {
    const symbol: string
    const provider: string
    const enabled: bool
    const intervalMs: int
    var quote: Option<Quote>
    var error: Option<string>
    var isConnected: bool
    /** The socket the effect registered on, while it is registered. */
    var socket: Socket?

    constructor (symbol: string, provider: string := "alpha", enabled: bool := true, intervalMs: int := 10000)
      ensures this.symbol == symbol && this.provider == provider && this.enabled == enabled && this.intervalMs == intervalMs
      ensures quote == None && error == None && !isConnected && socket == null
    {
      this.symbol, this.provider, this.enabled, this.intervalMs := symbol, provider, enabled, intervalMs;
      quote, error, isConnected, socket := None, None, false, null;
    }

    method HandleQuote(q: Quote)
      modifies this`quote, this`error
      ensures Matches(symbol, q) ==> quote == Some(q) && error == None
      ensures !Matches(symbol, q) ==> quote == old(quote) && error == old(error)
    {
      if ToUpper(q.symbol) == ToUpper(symbol) {
        quote := Some(q);
        error := None;
      }
    }

    method HandleConnect()
      modifies this`isConnected
      ensures isConnected
    {
      isConnected := true;
    }

    method HandleDisconnect()
      modifies this`isConnected
      ensures !isConnected
    {
      isConnected := false;
    }

    /**
     * The effect body: nothing when disabled or without a symbol; otherwise take the shared
     * socket, copy its connection flag, register the three handlers and emit this consumer's own
     * subscribe frame.
     */
    method Activate(hub: SocketHub)
      requires hub.Valid() && socket == null
      modifies this, hub, hub.globalSocket
      ensures hub.Valid()
      ensures !enabled || symbol == [] ==>
        && socket == null && unchanged(this, hub)
        && (hub.globalSocket == null || unchanged(hub.globalSocket))
      ensures enabled && symbol != [] ==>
        && socket != null && socket == hub.globalSocket
        && (old(hub.globalSocket) != null ==> socket == old(hub.globalSocket) && unchanged(socket`connected, socket`closed))
        && (old(hub.globalSocket) == null ==> fresh(socket) && !socket.connected && !socket.closed)
        && isConnected == socket.connected
        && socket.frames == old(if hub.globalSocket == null then [] else hub.globalSocket.frames)
                            + [Subscribe(ToUpper(symbol), provider, intervalMs)]
        && socket.quoteListeners == old(if hub.globalSocket == null then {} else hub.globalSocket.quoteListeners) + {this}
        && socket.connectListeners == old(if hub.globalSocket == null then {} else hub.globalSocket.connectListeners) + {this}
        && socket.disconnectListeners == old(if hub.globalSocket == null then {} else hub.globalSocket.disconnectListeners) + {this}
        && quote == old(quote) && error == old(error)
    {
      if !enabled || symbol == [] {
        return;
      }
      var s := hub.GetSocket();
      isConnected := s.connected;
      s.quoteListeners := s.quoteListeners + {this};
      s.connectListeners := s.connectListeners + {this};
      s.disconnectListeners := s.disconnectListeners + {this};
      s.Emit(Subscribe(ToUpper(symbol), provider, intervalMs));
      socket := s;
    }

    /**
     * The effect cleanup: one unsubscribe frame for this consumer, its three handlers removed,
     * and the shared socket left connected as it was.
     */
    method Cleanup()
      modifies this, socket
      ensures socket == null && quote == old(quote) && error == old(error) && isConnected == old(isConnected)
      ensures old(socket) != null ==>
        var s := old(socket);
        && s.frames == old(s.frames) + [Unsubscribe(ToUpper(symbol), provider)]
        && s.quoteListeners == old(s.quoteListeners) - {this}
        && s.connectListeners == old(s.connectListeners) - {this}
        && s.disconnectListeners == old(s.disconnectListeners) - {this}
        && s.connected == old(s.connected) && s.closed == old(s.closed)
    {
      if socket != null {
        var s := socket;
        s.Emit(Unsubscribe(ToUpper(symbol), provider));
        s.quoteListeners := s.quoteListeners - {this};
        s.connectListeners := s.connectListeners - {this};
        s.disconnectListeners := s.disconnectListeners - {this};
        socket := null;
      }
    }
  }

  /**
   * Two widgets watching AAPL and one watching MSFT share one socket and each send their own
   * subscribe frame; one AAPL event reaches both AAPL consumers. After one AAPL consumer cleans up,
   * an AAPL event reaches only the other, and MSFT events still flow over the same open socket.
   */
  method SharedSocketScenario(q: Quote, m: Quote) returns (s: Socket, a1: QuoteConsumer, a2: QuoteConsumer, ms: QuoteConsumer)
    requires q.symbol == "aapl" && m.symbol == "MSFT"
    ensures s.frames == [Subscribe("AAPL", "alpha", 10000), Subscribe("AAPL", "alpha", 10000),
                         Subscribe("MSFT", "finnhub", 10000), Unsubscribe("AAPL", "alpha")]
    ensures !s.closed && s.quoteListeners == {a2, ms} && a1.socket == null && a2.socket == s == ms.socket
    ensures a1.quote == Some(q) && a2.quote == Some(q.(price := q.price + 1.0)) && ms.quote == Some(m)
  {
    var hub := new SocketHub();
    a1 := new QuoteConsumer("AAPL");
    a2 := new QuoteConsumer("AAPL");
    ms := new QuoteConsumer("msft", "finnhub");
    assert ToUpper("AAPL") == "AAPL" && ToUpper("msft") == "MSFT";
    a1.Activate(hub);
    assert fresh(a1.socket);
    a2.Activate(hub);
    ms.Activate(hub);
    s := hub.globalSocket;
    assert s == a1.socket == a2.socket == ms.socket && hub.sockets == {s};
    assert s.frames == [Subscribe("AAPL", "alpha", 10000), Subscribe("AAPL", "alpha", 10000), Subscribe("MSFT", "finnhub", 10000)];
    assert s.quoteListeners == {a1, a2, ms};

    assert Matches("AAPL", q) && !Matches("msft", q) && Matches("msft", m) && !Matches("AAPL", m);
    s.ReceiveQuote(q);
    assert a1.quote == Some(q) && a2.quote == Some(q) && ms.quote == None;

    assert |s.frames| == 3 && a1.socket == s;
    a1.Cleanup();
    assert s.frames[3] == Unsubscribe("AAPL", "alpha") && !s.closed;
    assert s.quoteListeners == {a2, ms};
    var q2 := q.(price := q.price + 1.0);
    assert Matches("AAPL", q2);
    s.ReceiveQuote(q2);
    assert a1.quote == Some(q) && a2.quote == Some(q2);
    s.ReceiveQuote(m);
    assert ms.quote == Some(m) && a2.quote == Some(q2);
  }
}
