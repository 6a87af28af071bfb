/**
 * The hook of src/hooks/useStockSocket.ts: a socket of its own held in `socketRef`, the
 * `connected`/`error` flags and a `quotes` record keyed by the symbol exactly as each payload
 * carries it, updated by the socket's event handlers.
 */
module StockSocket {
  import opened Wrappers
  import opened Text
  import opened QuoteStream

  /** `quotes[symbol.toUpperCase()] || null`. */
  function LookupQuote(quotes: map<string, Quote>, symbol: string): (r: Option<Quote>)
    ensures r.Some? <==> ToUpper(symbol) in quotes
    ensures r.Some? ==> r.value == quotes[ToUpper(symbol)]
  {
    if ToUpper(symbol) in quotes then Some(quotes[ToUpper(symbol)]) else None
  }

  /** A payload stored under an upper-case symbol is found by that symbol in any case. */
  lemma StoredQuoteFound(quotes: map<string, Quote>, p: Quote, symbol: string)
    requires NoLower(p.symbol) && EqualsIgnoreCase(symbol, p.symbol)
    ensures LookupQuote(quotes[p.symbol := p], symbol) == Some(p)
  {
    ToUpperFixesUpper(p.symbol);
  }

  /**
   * A payload whose symbol has a lower-case letter is stored under that exact key, which
   * `getQuote` never looks up: storing it changes no lookup.
   */
  lemma LowerCasePayloadUnreachable(quotes: map<string, Quote>, p: Quote, symbol: string)
    requires !NoLower(p.symbol)
    ensures LookupQuote(quotes[p.symbol := p], symbol) == LookupQuote(quotes, symbol)
  {
    assert ToUpper(symbol) != p.symbol;
  }

  class StockSocketHook {
    const url: string
    const autoConnect: bool
    var socketRef: Socket?
    var connected: bool
    var quotes: map<string, Quote>
    var error: Option<string>

    constructor (url: string := "http://localhost:4001", autoConnect: bool := true)
      ensures this.url == url && this.autoConnect == autoConnect
      ensures socketRef == null && !connected && quotes == map[] && error == None
    {
      this.url, this.autoConnect := url, autoConnect;
      socketRef, connected, quotes, error := null, false, map[], None;
    }

    /** The effect: with `autoConnect`, open a new socket and hold it. */
    method Mount()
      modifies this`socketRef
      ensures autoConnect ==> socketRef != null && fresh(socketRef) && socketRef.frames == [] && !socketRef.closed
      ensures !autoConnect ==> socketRef == old(socketRef)
    {
      if !autoConnect {
        return;
      }
      var socket := new Socket();
      socketRef := socket;
    }

    /** `connect`: connected, and any earlier error cleared. */
    method OnConnect()
      modifies this`connected, this`error
      ensures connected && error == None
    {
      connected := true;
      error := None;
    }

    /** `disconnect`: not connected; the error is kept. */
    method OnDisconnect()
      modifies this`connected
      ensures !connected
    {
      connected := false;
    }

    /** `quote`: the payload replaces the entry under its own symbol; every other entry stays. */
    method OnQuote(payload: Quote)
      modifies this`quotes
      ensures quotes == old(quotes)[payload.symbol := payload]
      ensures forall k :: k != payload.symbol ==> (k in quotes <==> k in old(quotes)) && (k in quotes ==> quotes[k] == old(quotes)[k])
    {
      quotes := quotes[payload.symbol := payload];
    }

    /** `error`: the error's message, or "Socket.IO error" when it has none (an empty message counts as none). */
    method OnError(message: string)
      modifies this`error
      ensures error == Some(if message == [] then "Socket.IO error" else message)
    {
      error := Some(if message == [] then "Socket.IO error" else message);
    }

    /** `connect_error`: "Connection failed: " and the message. */
    method OnConnectError(message: string)
      modifies this`error
      ensures error == Some("Connection failed: " + message)
    {
      error := Some("Connection failed: " + message);
    }

    /** Emit `{symbol, provider, intervalMs}` as given (not upper-cased), or nothing without a socket. */
    method Subscribe(symbol: string, provider: string := "alpha", intervalMs: int := 10000)
      modifies socketRef
      ensures socketRef != null ==> socketRef.frames == old(socketRef.frames) + [QuoteStream.Subscribe(symbol, provider, intervalMs)]
      ensures socketRef != null ==> unchanged(socketRef`connected, socketRef`closed)
    {
      if socketRef == null {
        return;
      }
      socketRef.Emit(QuoteStream.Subscribe(symbol, provider, intervalMs));
    }

    /** Emit `{symbol, provider}`, or nothing without a socket. */
    method Unsubscribe(symbol: string, provider: string := "alpha")
      modifies socketRef
      ensures socketRef != null ==> socketRef.frames == old(socketRef.frames) + [QuoteStream.Unsubscribe(symbol, provider)]
      ensures socketRef != null ==> unchanged(socketRef`connected, socketRef`closed)
    {
      if socketRef == null {
        return;
      }
      socketRef.Emit(QuoteStream.Unsubscribe(symbol, provider));
    }

    /** `getQuote(symbol)`. */
    function GetQuote(symbol: string): Option<Quote>
      reads this
    {
      LookupQuote(quotes, symbol)
    }

    /** The effect cleanup: disconnect the socket and drop the reference. */
    method Cleanup()
      modifies this`socketRef, socketRef
      ensures socketRef == null
      ensures old(socketRef) != null ==> old(socketRef).closed && !old(socketRef).connected && old(socketRef).frames == old(socketRef.frames)
    {
      if socketRef != null {
        socketRef.Disconnect();
        socketRef := null;
      }
    }
  }

  /** After cleanup, subscribe and unsubscribe emit nothing: the closed socket's frames stay as they were. */
  method SubscribeAfterCleanup(hook: StockSocketHook) returns (s: QuoteStream.Socket)
    requires hook.autoConnect
    modifies hook
    ensures hook.socketRef == null && s.closed && !s.connected
    ensures s.frames == [QuoteStream.Subscribe("aapl", "alpha", 10000)]
  {
    hook.Mount();
    s := hook.socketRef;
    hook.Subscribe("aapl");
    assert s.frames == [QuoteStream.Subscribe("aapl", "alpha", 10000)];
    hook.Cleanup();
    hook.Subscribe("MSFT", "finnhub", 5000);
    hook.Unsubscribe("aapl");
    assert s.frames == [QuoteStream.Subscribe("aapl", "alpha", 10000)] && s.closed;
  }
}
