/* A model of the reconnecting "friendly" WebSocket wrapper.
 *
 * The browser WebSocket, the timer and the page's `location` are abstracted:
 * a socket is identified by its generation number (1 for the first handle,
 * one more for every later `connect`), what is sent over a socket is logged
 * as a Frame, a scheduled `setTimeout` is a pending delay consumed by
 * FireRetry, and the page's protocol and host are passed in as a Location.
 * Message handlers are opaque identifiers; whether a handler throws is a
 * caller-supplied predicate.
 */
module Websocket {

  datatype Option<T> = None | Some(value: T)

  /** The data carried by a message event or handed to `send`. */
  type Payload = string

  /** An opaque message handler (a JavaScript callback). */
  type HandlerId = nat

  /** The parts of the page's `location` that the wrapper reads. */
  datatype Location = Location(protocol: string, host: string)

  /** The constructor's options object; None stands for an absent key. */
  datatype Options = Options(path: Option<string>, url: Option<string>)

  /** How a call ends: normally, with a TypeError thrown by the wrapper's own
      code, or with the InvalidStateError a socket still connecting throws on
      `send`. */
  datatype Status = Returned | TypeError | InvalidStateError

  /** The `readyState` of the current socket (CLOSING is folded into Closed). */
  datatype ReadyState = Connecting | Open | Closed

  /** One call of a message handler during dispatch, and whether it threw. */
  datatype Invocation = Invocation(handler: HandlerId, data: Payload, threw: bool)

  /** A payload handed to the `send` of the socket with the given generation. */
  datatype Frame = Frame(socket: nat, payload: Payload)

  const Greeting: Payload := "Hello Server!"
  const RetryDelay: nat := 2000
  const DefaultPath: string := "/"
  const MessageKind: string := "message"

  /** Keys that `type in this._listeners` also finds, on Object.prototype;
      none of their values has an `add` method. */
  const InheritedKeys: set<string> := {
    "constructor", "hasOwnProperty", "isPrototypeOf", "propertyIsEnumerable",
    "toLocaleString", "toString", "valueOf", "__proto__",
    "__defineGetter__", "__defineSetter__", "__lookupGetter__", "__lookupSetter__"
  }

  // ---------------------------------------------------------------------
  // Address derivation

  function Scheme(protocol: string): (s: string)
  {
    if protocol == "https:" then "wss://" else "ws://"
  }

  /** The address `connect` opens: scheme, page host and configured path. */
  function Address(loc: Location, path: string): (r: string)
    ensures loc.protocol == "https:" ==> r == "wss://" + loc.host + path
    ensures loc.protocol != "https:" ==> r == "ws://" + loc.host + path
  {
    Scheme(loc.protocol) + loc.host + path
  }

  /** Reads an address back: whether it is secure, and what follows the scheme. */
  function SplitAddress(a: string): (r: Option<(bool, string)>)
  {
    if "wss://" <= a then Some((true, a[6..]))
    else if "ws://" <= a then Some((false, a[5..]))
    else None
  }

  /** The secure scheme is chosen exactly when the page protocol is "https:",
      and host and path follow the scheme unchanged. */
  lemma AddressRoundTrip(loc: Location, path: string)
    ensures SplitAddress(Address(loc, path)) == Some((loc.protocol == "https:", loc.host + path))
  {
    var a := Address(loc, path);
    if loc.protocol == "https:" {
      assert a == "wss://" + (loc.host + path);
      assert "wss://" <= a;
    } else {
      assert a == "ws://" + (loc.host + path);
      assert a[2] == ':' && "wss://"[2] == 's';
      assert !("wss://" <= a);
      assert "ws://" <= a;
    }
  }

  /** Two paths give the same address on the same page only if they are equal. */
  lemma AddressDeterminesPath(loc: Location, p: string, q: string)
    requires Address(loc, p) == Address(loc, q)
    ensures p == q
  {
    var prefix := Scheme(loc.protocol) + loc.host;
    assert Address(loc, p) == prefix + p && Address(loc, q) == prefix + q;
    assert p == (prefix + p)[|prefix|..];
    assert q == (prefix + q)[|prefix|..];
  }

  // ---------------------------------------------------------------------
  // The listener registry: a JavaScript Set, kept in insertion order

  predicate NoDup(s: seq<HandlerId>)
  {
    forall i, j :: 0 <= i < j < |s| ==> s[i] != s[j]
  }

  /** `Set.prototype.add`: appends a handler not yet present, else nothing. */
  function Add(reg: seq<HandlerId>, h: HandlerId): (r: seq<HandlerId>)
    ensures NoDup(reg) ==> NoDup(r)
    ensures reg <= r && |r| <= |reg| + 1
    ensures forall x :: x in r <==> x in reg || x == h
  {
    if h in reg then reg else reg + [h]
  }

  /** Registering the same handler twice has the effect of registering it once. */
  lemma AddIdempotent(reg: seq<HandlerId>, h: HandlerId)
    ensures Add(Add(reg, h), h) == Add(reg, h)
  {
  }

  /** In a sequence without duplicates every element occurs exactly once. */
  lemma {:induction false} NoDupCount(s: seq<HandlerId>, h: HandlerId)
    requires NoDup(s)
    ensures multiset(s)[h] == if h in s then 1 else 0
  {
    if s != [] {
      var init, last := s[..|s| - 1], s[|s| - 1];
      assert s == init + [last];
      assert NoDup(init);
      NoDupCount(init, h);
      assert multiset(s) == multiset(init) + multiset{last};
      assert last !in init by {
        forall i | 0 <= i < |init| ensures init[i] != last {
          assert s[i] == init[i];
        }
      }
    }
  }

  // ---------------------------------------------------------------------
  // Message fan-out

  /** The calls one message event makes: `forEach` over the registry, each
      handler called with the event's data inside its own try/catch. */
  function Dispatch(handlers: seq<HandlerId>, data: Payload, throws: HandlerId -> bool): (r: seq<Invocation>)
    ensures |r| == |handlers|
  {
    if handlers == [] then []
    else
      var h := handlers[|handlers| - 1];
      Dispatch(handlers[..|handlers| - 1], data, throws) + [Invocation(h, data, throws(h))]
  }

  /** The handlers called, in call order. */
  function Invoked(trace: seq<Invocation>): seq<HandlerId>
  {
    seq(|trace|, k requires 0 <= k < |trace| => trace[k].handler)
  }

  /** The k-th call goes to the k-th registered handler, with the event data. */
  lemma {:induction false} DispatchAt(handlers: seq<HandlerId>, data: Payload, throws: HandlerId -> bool, k: nat)
    requires k < |handlers|
    ensures Dispatch(handlers, data, throws)[k] == Invocation(handlers[k], data, throws(handlers[k]))
  {
    var init := handlers[..|handlers| - 1];
    if k < |init| {
      DispatchAt(init, data, throws, k);
    }
  }

  /** Isolation: whichever handlers throw, every registered handler is called,
      in registry order, with the event data. */
  lemma DispatchCallsEveryHandler(handlers: seq<HandlerId>, data: Payload, throws: HandlerId -> bool)
    ensures Invoked(Dispatch(handlers, data, throws)) == handlers
    ensures forall k :: 0 <= k < |handlers| ==> Dispatch(handlers, data, throws)[k].data == data
  {
    forall k | 0 <= k < |handlers|
      ensures Dispatch(handlers, data, throws)[k] == Invocation(handlers[k], data, throws(handlers[k]))
    {
      DispatchAt(handlers, data, throws, k);
    }
  }

  /** Over a registry without duplicates each handler is called exactly once
      per message, and unregistered ones never. */
  lemma DispatchOnce(handlers: seq<HandlerId>, data: Payload, throws: HandlerId -> bool, h: HandlerId)
    requires NoDup(handlers)
    ensures multiset(Invoked(Dispatch(handlers, data, throws)))[h] == if h in handlers then 1 else 0
  {
    DispatchCallsEveryHandler(handlers, data, throws);
    NoDupCount(handlers, h);
  }

  /** A handler registered twice is still called once per message. */
  lemma RegisterTwiceCalledOnce(reg: seq<HandlerId>, h: HandlerId, data: Payload, throws: HandlerId -> bool)
    requires NoDup(reg)
    ensures multiset(Invoked(Dispatch(Add(Add(reg, h), h), data, throws)))[h] == 1
  {
    AddIdempotent(reg, h);
    DispatchOnce(Add(reg, h), data, throws, h);
  }

  // ---------------------------------------------------------------------
  // The send log

  /** The first payload sent on socket `g`, if anything was sent on it. */
  function FirstOn(sent: seq<Frame>, g: nat): (r: Option<Payload>)
    ensures r.None? <==> forall f :: f in sent ==> f.socket != g
    ensures r.Some? ==> Frame(g, r.value) in sent
  {
    if sent == [] then None
    else if sent[0].socket == g then Some(sent[0].payload)
    else FirstOn(sent[1..], g)
  }

  /** Appending a frame changes the first payload of its own socket only, and
      only when nothing had been sent on that socket before. */
  lemma {:induction false} FirstOnAppend(sent: seq<Frame>, f: Frame, g: nat)
    ensures FirstOn(sent + [f], g) ==
      if FirstOn(sent, g).Some? then FirstOn(sent, g)
      else if f.socket == g then Some(f.payload)
      else None
  {
    if sent != [] {
      assert (sent + [f])[1..] == sent[1..] + [f];
      FirstOnAppend(sent[1..], f, g);
    }
  }

  /** On every socket, the greeting went out before anything else. */
  ghost predicate GreetedFirst(sent: seq<Frame>)
  {
    forall g :: FirstOn(sent, g).Some? ==> FirstOn(sent, g).value == Greeting
  }

  // ---------------------------------------------------------------------
  // The wrapper

  class FriendlyWebSocket {
    var path: string
    var url: Option<string>           // stored, never read by Connect
    var target: string                // the address the current socket was opened to
    var socketGen: nat                // how many sockets have been opened
    var connected: bool
    var readyState: ReadyState        // the current socket's readyState
    var listeners: seq<HandlerId>     // _listeners.message, in insertion order
    var sent: seq<Frame>              // every payload handed to a socket's send
    var pendingRetries: seq<nat>      // delays of scheduled, not yet fired, reconnects

    /** Sends go only to sockets already opened; nothing is sent on the
        current socket while it connects; an open socket has been greeted and
        the wrapper knows it is connected; a closed one leaves it disconnected;
        and on every socket the greeting is the first payload. */
    ghost predicate Valid()
      reads this
    {
      NoDup(listeners) &&
      (forall d :: d in pendingRetries ==> d == RetryDelay) &&
      (forall f :: f in sent ==> f.socket <= socketGen) &&
      (readyState == Connecting ==> FirstOn(sent, socketGen) == None) &&
      (readyState == Open ==> connected && FirstOn(sent, socketGen) == Some(Greeting)) &&
      (readyState == Closed ==> !connected) &&
      GreetedFirst(sent)
    }

    /** Appending a frame keeps the greeting first on every socket, provided
        its socket has been greeted or the frame is the greeting itself. */
    lemma AppendKeepsGreetedFirst(f: Frame)
      requires GreetedFirst(sent)
      requires FirstOn(sent, f.socket) == Some(Greeting) || f.payload == Greeting
      ensures GreetedFirst(sent + [f])
    {
      forall g | FirstOn(sent + [f], g).Some?
        ensures FirstOn(sent + [f], g).value == Greeting
      {
        FirstOnAppend(sent, f, g);
      }
    }

    /** Stores the options, opens the first socket, then clears `connected`
        and the registry (in that order, as the source does). */
    constructor (options: Options, loc: Location)
      ensures Valid()
      ensures path == (if options.path.Some? then options.path.value else DefaultPath)
      ensures url == options.url
      ensures target == Address(loc, path)
      ensures socketGen == 1 && !connected && readyState == Connecting
      ensures listeners == [] && sent == [] && pendingRetries == []
    {
      path := if options.path.Some? then options.path.value else DefaultPath;
      url := options.url;
      target := "";
      socketGen := 0;
      connected := false;
      readyState := Closed;
      listeners := [];
      sent := [];
      pendingRetries := [];
      new;
      Connect(loc);
      connected := false;
      listeners := [];
    }

    /** Opens a new socket to the derived address, replacing the current one;
        the explicit `url` plays no part and `connected` is left alone. */
    method Connect(loc: Location)
      requires Valid()
      modifies this`socketGen, this`target, this`readyState
      ensures Valid()
      ensures socketGen == old(socketGen) + 1 && readyState == Connecting
      ensures target == Address(loc, path)
    {
      socketGen := socketGen + 1;
      target := Address(loc, path);
      readyState := Connecting;
    }

    /** The open reaction: mark connected and greet over the current socket. */
    method OnOpen()
      requires Valid()
      requires readyState == Connecting
      modifies this`connected, this`sent, this`readyState
      ensures Valid()
      ensures connected && readyState == Open
      ensures sent == old(sent) + [Frame(socketGen, Greeting)]
      ensures FirstOn(sent, socketGen) == Some(Greeting)
    {
      readyState := Open;
      connected := true;
      var f := Frame(socketGen, Greeting);
      FirstOnAppend(sent, f, socketGen);
      AppendKeepsGreetedFirst(f);
      sent := sent + [f];
    }

    /** The close reaction: mark disconnected and schedule one reconnect. */
    method OnClose()
      requires Valid()
      requires readyState != Closed
      modifies this`connected, this`pendingRetries, this`readyState
      ensures Valid()
      ensures !connected && readyState == Closed
      ensures pendingRetries == old(pendingRetries) + [RetryDelay]
    {
      readyState := Closed;
      connected := false;
      pendingRetries := pendingRetries + [RetryDelay];
    }

    /** The earliest scheduled reconnect fires: it waited RetryDelay and calls
        Connect, leaving `connected` and the registry as they were. */
    method FireRetry(loc: Location) returns (delay: nat)
      requires Valid()
      requires pendingRetries != []
      modifies this`pendingRetries, this`socketGen, this`target, this`readyState
      ensures Valid()
      ensures delay == RetryDelay
      ensures pendingRetries == old(pendingRetries)[1..]
      ensures socketGen == old(socketGen) + 1 && readyState == Connecting
      ensures target == Address(loc, path)
    {
      delay := pendingRetries[0];
      assert delay in pendingRetries;
      assert forall d :: d in pendingRetries[1..] ==> d in pendingRetries;
      pendingRetries := pendingRetries[1..];
      Connect(loc);
    }

    /** The message reaction: calls every registered handler with `data`,
        catching what each throws; it changes no field. */
    method OnMessage(data: Payload, throws: HandlerId -> bool) returns (trace: seq<Invocation>)
      ensures trace == Dispatch(listeners, data, throws)
    {
      var handlers := listeners;
      trace := [];
      var i := 0;
      while i < |handlers|
        invariant 0 <= i <= |handlers|
        invariant trace == Dispatch(handlers[..i], data, throws)
      {
        var h := handlers[i];
        var threw := throws(h);
        trace := trace + [Invocation(h, data, threw)];
        assert handlers[..i + 1][..i] == handlers[..i];
        i := i + 1;
      }
      assert handlers[..i] == handlers;
    }

    /** `on`: adds to the message registry; an inherited Object.prototype key
        throws a TypeError; any other kind is ignored. */
    method On(kind: string, handler: HandlerId) returns (status: Status)
      requires Valid()
      modifies this`listeners
      ensures Valid()
      ensures status == TypeError <==> kind in InheritedKeys
      ensures listeners == if kind == MessageKind then Add(old(listeners), handler) else old(listeners)
    {
      if kind == MessageKind {
        listeners := Add(listeners, handler);
        status := Returned;
      } else if kind in InheritedKeys {
        status := TypeError;
      } else {
        status := Returned;
      }
    }

    /** `off`: for "message" it reaches an undefined registry and throws a
        TypeError; for any other kind it does nothing. It never changes state. */
    method Off(kind: string, handler: HandlerId) returns (status: Status)
      ensures status == TypeError <==> kind == MessageKind
    {
      if kind == MessageKind {
        status := TypeError;
      } else {
        status := Returned;
      }
    }

    /** `send`: forwards the payload unchanged to the current socket while
        connected, and drops it silently otherwise. A socket still connecting
        (reachable only by calling `connect` while connected) throws. */
    method Send(message: Payload) returns (status: Status)
      requires Valid()
      modifies this`sent
      ensures Valid()
      ensures status == InvalidStateError <==> connected && readyState == Connecting
      ensures status != TypeError
      ensures sent == if connected && readyState == Open then old(sent) + [Frame(socketGen, message)] else old(sent)
    {
      status := Returned;
      if connected {
        if readyState == Connecting {
          status := InvalidStateError;
        } else {
          var f := Frame(socketGen, message);
          AppendKeepsGreetedFirst(f);
          sent := sent + [f];
        }
      }
    }
  }

  /** A client on an insecure page: the address ignores `url`, a double
      registration leaves one handler, and a send before the open is dropped. */
  method RegisterTwice(host: string, h: HandlerId)
  {
    var ws := new FriendlyWebSocket(Options(Some("/ws"), Some("wss://example.com/x")), Location("http:", host));
    assert ws.target == "ws://" + host + "/ws";
    var s := ws.On(MessageKind, h);
    s := ws.On(MessageKind, h);
    assert ws.listeners == [h];
    s := ws.Send("early");
    assert s == Returned && ws.sent == [];
    ws.OnOpen();
    assert ws.sent == [Frame(1, Greeting)];
  }

  /** A throwing handler is called and caught; `off` cannot remove it. */
  method ReceiveAndRemove(h: HandlerId)
  {
    var ws := new FriendlyWebSocket(Options(None, None), Location("https:", "example.com"));
    var s := ws.On(MessageKind, h);
    var trace := ws.OnMessage("hi", _ => true);
    DispatchAt([h], "hi", _ => true, 0);
    assert trace == [Invocation(h, "hi", true)];
    s := ws.Off(MessageKind, h);
    assert s == TypeError && ws.listeners == [h];
  }

  /** A kind found on Object.prototype makes `on` throw and registers nothing. */
  method InheritedKind(h: HandlerId)
  {
    var ws := new FriendlyWebSocket(Options(None, None), Location("https:", "example.com"));
    var s := ws.On("toString", h);
    assert s == TypeError && ws.listeners == [];
  }

  /** A client through one close and reconnect: the send while closed is
      dropped, the retry waits 2000 ms and opens socket 2, whose open greets
      again before the next send goes through. */
  method Reconnect(host: string)
  {
    var ws := new FriendlyWebSocket(Options(None, None), Location("http:", host));
    ws.OnOpen();
    ws.OnClose();
    assert !ws.connected && ws.pendingRetries == [RetryDelay];
    var s := ws.Send("lost");
    assert s == Returned && ws.sent == [Frame(1, Greeting)];

    var d := ws.FireRetry(Location("https:", host));
    assert d == 2000 && ws.socketGen == 2 && !ws.connected && ws.pendingRetries == [];
    assert ws.target == "wss://" + host + "/";
    ws.OnOpen();
    s := ws.Send("again");
    assert ws.sent == [Frame(1, Greeting), Frame(2, Greeting), Frame(2, "again")];
  }

  /** Calling `connect` directly while connected leaves `connected` set on a
      socket that is still connecting: `send` then throws and sends nothing,
      and the new socket's open greets it before anything else goes out. */
  method ConnectWhileConnected(host: string)
  {
    var ws := new FriendlyWebSocket(Options(None, None), Location("http:", host));
    ws.OnOpen();
    ws.Connect(Location("http:", host));
    assert ws.connected && ws.readyState == Connecting && ws.socketGen == 2;
    var s := ws.Send("too soon");
    assert s == InvalidStateError && ws.sent == [Frame(1, Greeting)];
    ws.OnOpen();
    s := ws.Send("now");
    assert s == Returned && ws.sent == [Frame(1, Greeting), Frame(2, Greeting), Frame(2, "now")];
  }
}
