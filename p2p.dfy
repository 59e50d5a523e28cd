/** The remote-mode peer session manager: one peer registration and at most one data
    connection per process, three callback slots, and the promises handed to callers.

    The PeerJS library is abstract here. A peer or connection is known by a serial number;
    the transport's `open` flag of every connection is the map `links`. What the library
    reports (a peer registered, an incoming connection, a connection opened or closed, data,
    an error, the 5000 ms join timer) arrives as a call of one of the event methods
    below, made by the environment for the live peer. */
module P2P {
  import opened Types
  import Text

  const Prefix := "SIMUCHAT-"

  /** The host's room code: `Math.floor(1000 + Math.random() * 9000).toString()`, with the
      integer draw supplied. */
  function ShortCode(draw: int): (code: string)
    requires 1000 <= draw <= 9999
    ensures |code| == 4 && Text.AllDigits(code) && Text.DecimalValue(code) == draw
  {
    Text.DecimalStringLength(draw, 4);
    Text.DecimalString(draw)
  }

  /** The broker-level identifier of a room: the fixed prefix followed by the code. */
  function PeerId(code: string): (id: string)
    ensures |id| == |Prefix| + |code|
    ensures id[..|Prefix|] == Prefix && id[|Prefix|..] == code
  {
    Prefix + code
  }

  /** Host and joiner map codes the same way, and distinct draws give distinct identifiers. */
  lemma HostPeerIdInjective(d1: int, d2: int)
    requires 1000 <= d1 <= 9999 && 1000 <= d2 <= 9999
    ensures PeerId(ShortCode(d1)) == PeerId(ShortCode(d2)) <==> d1 == d2
  {
    if PeerId(ShortCode(d1)) == PeerId(ShortCode(d2)) {
      assert ShortCode(d1) == PeerId(ShortCode(d1))[|Prefix|..];
    }
  }

  datatype Role = Host(code: string) | Joiner(target: string)

  /** A peer created by this module; `id` is None for the joiner's anonymous peer, `promise`
      is the promise its creating call returned. */
  datatype Peer = Peer(serial: nat, id: Option<string>, role: Role, promise: nat, registered: bool)

  /** The closures the application registers in the callback slots. */
  datatype Callback =
    | ChatData          // ChatScreen's receiver dispatch
    | ChatClosed        // ChatScreen's remote-close notice
    | SetupIgnoreData   // SetupScreen's `() => {}`
    | SetupAutoStart    // SetupScreen's host auto-start

  datatype Failure = PeerError(detail: string) | ConnectionError(detail: string) | Timeout

  /** A promise as its caller observes it. The host's resolves with the room code, the
      joiner's with no value. */
  datatype Cell = Pending | Resolved(code: Option<string>) | Rejected(reason: Failure)

  /** A call a screen makes into this module, as the screen records it. */
  datatype Request =
    | HostRoom                   // initializeHost
    | JoinRoom(code: string)     // joinSession
    | Send(msg: P2PMessage)      // sendMessageP2P
    | Register(data: Callback, connect: Option<Callback>, close: Option<Callback>)  // setP2PCallbacks
    | Close                      // closeP2P

  /** What the module does to the outside world, in order. */
  datatype Effect =
    | DestroyPeer(peer: nat)
    | CloseLink(link: nat)
    | Transmit(link: nat, msg: P2PMessage)
    | Warn
    | InvokeConnect(cb: Callback)
    | InvokeData(cb: Callback, msg: P2PMessage)
    | InvokeClose(cb: Callback)

  /** Every promise that was settled in `before` is still settled the same way in `after`. */
  ghost predicate SettledKept(before: seq<Cell>, after: seq<Cell>) {
    |before| <= |after| && forall j :: 0 <= j < |before| && !before[j].Pending? ==> after[j] == before[j]
  }

  /** `resolve`/`reject` of promise i: only a pending promise takes the outcome. */
  function Settle(ps: seq<Cell>, i: nat, outcome: Cell): (r: seq<Cell>)
    requires i < |ps| && !outcome.Pending?
    ensures |r| == |ps| && SettledKept(ps, r)
    ensures forall j :: 0 <= j < |ps| && j != i ==> r[j] == ps[j]
    ensures ps[i].Pending? ==> r[i] == outcome
  {
    if ps[i].Pending? then ps[i := outcome] else ps
  }

  /** Settling twice keeps the first outcome: a reject after a resolve has no effect. */
  lemma SettleOnce(ps: seq<Cell>, i: nat, first: Cell, second: Cell)
    requires i < |ps| && ps[i].Pending? && !first.Pending? && !second.Pending?
    ensures Settle(Settle(ps, i, first), i, second)[i] == first
  {
  }

  function DestroyEffect(p: Option<Peer>): seq<Effect> {
    if p.Some? then [DestroyPeer(p.value.serial)] else []
  }

  function CloseEffect(c: Option<nat>): seq<Effect> {
    if c.Some? then [CloseLink(c.value)] else []
  }

  function ClosedLinks(links: map<nat, bool>, c: Option<nat>): map<nat, bool> {
    if c.Some? && c.value in links then links[c.value := false] else links
  }

  class PeerService {
    var peer: Option<Peer>
    var conn: Option<nat>
    var outbound: Option<nat>       // the joiner's connection to the host, before it opens
    var onData: Option<Callback>
    var onConnect: Option<Callback>
    var onClose: Option<Callback>
    var links: map<nat, bool>       // every connection created so far, with its open flag
    var attached: set<nat>          // connections that received data/close handlers
    var promises: seq<Cell>
    var timers: seq<nat>            // armed join timers, by the promise each may reject
    var nextSerial: nat
    var effects: seq<Effect>

    ghost predicate Valid()
      reads this
    {
      && (forall s :: s in links ==> s < nextSerial)
      && attached <= links.Keys
      && (peer.Some? ==> peer.value.serial < nextSerial && peer.value.promise < |promises|)
      && (conn.Some? ==> conn.value in attached)
      && (outbound.Some? ==>
            outbound.value in links && outbound.value !in attached &&
            peer.Some? && peer.value.role.Joiner? && peer.value.registered)
      && (forall t :: 0 <= t < |timers| ==> timers[t] < |promises|)
    }

    /** `conn && conn.open`. */
    predicate ConnOpen()
      reads this
    {
      conn.Some? && conn.value in links && links[conn.value]
    }

    constructor ()
      ensures Valid()
      ensures peer.None? && conn.None? && outbound.None?
      ensures onData.None? && onConnect.None? && onClose.None?
      ensures links == map[] && attached == {} && promises == [] && timers == [] && effects == []
    {
      peer, conn, outbound := None, None, None;
      onData, onConnect, onClose := None, None, None;
      links, attached := map[], {};
      promises, timers := [], [];
      nextSerial := 0;
      effects := [];
    }

    /** `initializeHost`: destroys the previous peer, registers `SIMUCHAT-<code>` and returns
        a pending promise for the code. */
    method InitializeHost(draw: int) returns (p: nat)
      requires Valid() && 1000 <= draw <= 9999
      modifies this
      ensures Valid()
      ensures p == |old(promises)| && promises == old(promises) + [Pending]
      ensures peer == Some(Peer(old(nextSerial), Some(PeerId(ShortCode(draw))), Host(ShortCode(draw)), p, false))
      ensures outbound.None? && nextSerial == old(nextSerial) + 1
      ensures effects == old(effects) + DestroyEffect(old(peer))
      ensures unchanged(this`conn, this`links, this`attached, this`timers)
      ensures unchanged(this`onData, this`onConnect, this`onClose)
    {
      var code := ShortCode(draw);
      effects := effects + DestroyEffect(peer);
      p := |promises|;
      promises := promises + [Pending];
      peer := Some(Peer(nextSerial, Some(PeerId(code)), Host(code), p, false));
      nextSerial := nextSerial + 1;
      outbound := None;
    }

    /** `joinSession`: destroys the previous peer and registers an anonymous one that will
        connect to `SIMUCHAT-<code>` once it is open. */
    method JoinSession(code: string) returns (p: nat)
      requires Valid()
      modifies this
      ensures Valid()
      ensures p == |old(promises)| && promises == old(promises) + [Pending]
      ensures peer == Some(Peer(old(nextSerial), None, Joiner(PeerId(code)), p, false))
      ensures outbound.None? && nextSerial == old(nextSerial) + 1
      ensures effects == old(effects) + DestroyEffect(old(peer))
      ensures unchanged(this`conn, this`links, this`attached, this`timers)
      ensures unchanged(this`onData, this`onConnect, this`onClose)
    {
      effects := effects + DestroyEffect(peer);
      p := |promises|;
      promises := promises + [Pending];
      peer := Some(Peer(nextSerial, None, Joiner(PeerId(code)), p, false));
      nextSerial := nextSerial + 1;
      outbound := None;
    }

    /** `setupConnection`: closes the previous connection, makes `s` the only one, installs
        its data/close handlers and calls the connect slot once if it is set. */
    method SetupConnection(s: nat)
      requires Valid() && s in links && outbound != Some(s)
      modifies this
      ensures Valid()
      ensures conn == Some(s) && attached == old(attached) + {s}
      ensures links == ClosedLinks(old(links), old(conn))
      ensures effects == old(effects) + CloseEffect(old(conn)) +
                         (if onConnect.Some? then [InvokeConnect(onConnect.value)] else [])
      ensures unchanged(this`peer, this`outbound, this`promises, this`timers, this`nextSerial)
      ensures unchanged(this`onData, this`onConnect, this`onClose)
    {
      effects := effects + CloseEffect(conn);
      links := ClosedLinks(links, conn);
      conn := Some(s);
      attached := attached + {s};
      if onConnect.Some? {
        effects := effects + [InvokeConnect(onConnect.value)];
      }
    }

    /** `sendMessageP2P`: transmits on the connection only when it is present and open;
        otherwise only a warning is logged. */
    method SendMessageP2P(msg: P2PMessage)
      requires Valid()
      modifies this
      ensures Valid()
      ensures effects == old(effects) + (if ConnOpen() then [Transmit(conn.value, msg)] else [Warn])
      ensures unchanged(this`peer, this`conn, this`outbound, this`links, this`attached)
      ensures unchanged(this`promises, this`timers, this`nextSerial)
      ensures unchanged(this`onData, this`onConnect, this`onClose)
    {
      if ConnOpen() {
        effects := effects + [Transmit(conn.value, msg)];
      } else {
        effects := effects + [Warn];
      }
    }

    /** `setP2PCallbacks`: always replaces the data slot; an omitted connect or close
        callback leaves that slot as it was. */
    method SetP2PCallbacks(data: Callback, connect: Option<Callback>, close: Option<Callback>)
      requires Valid()
      modifies this
      ensures Valid()
      ensures onData == Some(data)
      ensures onConnect == if connect.Some? then connect else old(onConnect)
      ensures onClose == if close.Some? then close else old(onClose)
      ensures unchanged(this`peer, this`conn, this`outbound, this`links, this`attached)
      ensures unchanged(this`promises, this`timers, this`nextSerial, this`effects)
    {
      onData := Some(data);
      if connect.Some? { onConnect := connect; }
      if close.Some? { onClose := close; }
    }

    /** `closeP2P`: closes the connection and destroys the peer if present; afterwards both
        are absent, whatever the state before. */
    method CloseP2P()
      requires Valid()
      modifies this
      ensures Valid()
      ensures peer.None? && conn.None? && outbound.None?
      ensures effects == old(effects) + CloseEffect(old(conn)) + DestroyEffect(old(peer))
      ensures links == ClosedLinks(old(links), old(conn))
      ensures old(peer).None? && old(conn).None? ==> effects == old(effects) && links == old(links)
      ensures unchanged(this`attached, this`promises, this`timers, this`nextSerial)
      ensures unchanged(this`onData, this`onConnect, this`onClose)
    {
      effects := effects + CloseEffect(conn);
      links := ClosedLinks(links, conn);
      effects := effects + DestroyEffect(peer);
      peer := None;
      conn := None;
      outbound := None;
    }

    // ------------------------------------------------------------ events from the environment

    /** The live peer's 'open' event. The host resolves its promise with the code; the joiner
        opens a connection to the host and arms the 5000 ms timer. */
    method PeerOpened()
      requires Valid() && peer.Some? && !peer.value.registered
      modifies this
      ensures Valid()
      ensures peer == Some(old(peer).value.(registered := true))
      ensures old(peer).value.role.Host? ==>
                && promises == Settle(old(promises), old(peer).value.promise, Resolved(Some(old(peer).value.role.code)))
                && unchanged(this`outbound, this`links, this`timers, this`nextSerial)
      ensures old(peer).value.role.Joiner? ==>
                && outbound == Some(old(nextSerial)) && nextSerial == old(nextSerial) + 1
                && links == old(links)[old(nextSerial) := false]
                && timers == old(timers) + [old(peer).value.promise]
                && promises == old(promises)
      ensures unchanged(this`conn, this`attached, this`effects)
      ensures unchanged(this`onData, this`onConnect, this`onClose)
    {
      var p := peer.value;
      peer := Some(p.(registered := true));
      if p.role.Host? {
        promises := Settle(promises, p.promise, Resolved(Some(p.role.code)));
      } else {
        var s := nextSerial;
        nextSerial := nextSerial + 1;
        links := links[s := false];
        outbound := Some(s);
        timers := timers + [p.promise];
      }
    }

    /** The live peer's 'error' event rejects the promise of the call that created it. */
    method PeerFailed(detail: string)
      requires Valid() && peer.Some?
      modifies this
      ensures Valid()
      ensures promises == Settle(old(promises), old(peer).value.promise, Rejected(PeerError(detail)))
      ensures unchanged(this`peer, this`conn, this`outbound, this`links, this`attached)
      ensures unchanged(this`timers, this`nextSerial, this`effects)
      ensures unchanged(this`onData, this`onConnect, this`onClose)
    {
      promises := Settle(promises, peer.value.promise, Rejected(PeerError(detail)));
    }

    /** The hosting peer's 'connection' event: each incoming connection goes through
        setupConnection, so a second one replaces the first. */
    method IncomingConnection(open: bool) returns (s: nat)
      requires Valid() && peer.Some? && peer.value.role.Host? && peer.value.registered
      modifies this
      ensures Valid()
      ensures s == old(nextSerial) && nextSerial == s + 1
      ensures conn == Some(s) && attached == old(attached) + {s}
      ensures links == ClosedLinks(old(links), old(conn))[s := open]
      ensures effects == old(effects) + CloseEffect(old(conn)) +
                         (if onConnect.Some? then [InvokeConnect(onConnect.value)] else [])
      ensures unchanged(this`peer, this`outbound, this`promises, this`timers)
      ensures unchanged(this`onData, this`onConnect, this`onClose)
    {
      s := nextSerial;
      nextSerial := nextSerial + 1;
      links := links[s := open];
      assert ClosedLinks(old(links), conn)[s := open] == ClosedLinks(links, conn);
      SetupConnection(s);
    }

    /** The joiner's connection reports 'open': it goes through setupConnection and the
        join promise resolves. */
    method OutboundOpened()
      requires Valid() && outbound.Some?
      modifies this
      ensures Valid()
      ensures var s := old(outbound).value;
              && conn == Some(s) && attached == old(attached) + {s}
              && links == ClosedLinks(old(links), old(conn))[s := true]
      ensures outbound.None?
      ensures effects == old(effects) + CloseEffect(old(conn)) +
                         (if onConnect.Some? then [InvokeConnect(onConnect.value)] else [])
      ensures promises == Settle(old(promises), old(peer).value.promise, Resolved(None))
      ensures unchanged(this`peer, this`timers, this`nextSerial)
      ensures unchanged(this`onData, this`onConnect, this`onClose)
    {
      var s := outbound.value;
      outbound := None;
      links := links[s := true];
      assert ClosedLinks(old(links), conn)[s := true] == ClosedLinks(links, conn);
      SetupConnection(s);
      promises := Settle(promises, peer.value.promise, Resolved(None));
    }

    /** The joiner's connection reports 'error': the join promise is rejected. */
    method OutboundFailed(detail: string)
      requires Valid() && outbound.Some?
      modifies this
      ensures Valid()
      ensures outbound.None?
      ensures promises == Settle(old(promises), old(peer).value.promise, Rejected(ConnectionError(detail)))
      ensures unchanged(this`peer, this`conn, this`links, this`attached, this`timers)
      ensures unchanged(this`nextSerial, this`effects)
      ensures unchanged(this`onData, this`onConnect, this`onClose)
    {
      outbound := None;
      promises := Settle(promises, peer.value.promise, Rejected(ConnectionError(detail)));
    }

    /** Armed join timer number t fires after 5000 ms: it rejects its promise only when the
        connection is absent or not open, and a settled promise stays as it was. */
    method TimerFired(t: nat)
      requires Valid() && t < |timers|
      modifies this
      ensures Valid()
      ensures timers == old(timers)[..t] + old(timers)[t + 1..]
      ensures promises == if ConnOpen() then old(promises)
                          else Settle(old(promises), old(timers)[t], Rejected(Timeout))
      ensures SettledKept(old(promises), promises)
      ensures unchanged(this`peer, this`conn, this`outbound, this`links, this`attached)
      ensures unchanged(this`nextSerial, this`effects)
      ensures unchanged(this`onData, this`onConnect, this`onClose)
    {
      if !ConnOpen() {
        promises := Settle(promises, timers[t], Rejected(Timeout));
      }
      timers := timers[..t] + timers[t + 1..];
    }

    /** An incoming connection's transport becomes open. */
    method LinkOpened(s: nat)
      requires Valid() && s in links && outbound != Some(s)
      modifies this
      ensures Valid()
      ensures links == old(links)[s := true]
      ensures unchanged(this`peer, this`conn, this`outbound, this`attached, this`promises)
      ensures unchanged(this`timers, this`nextSerial, this`effects)
      ensures unchanged(this`onData, this`onConnect, this`onClose)
    {
      links := links[s := true];
    }

    /** A connection's 'close' event: the transport is no longer open and, if the connection
        went through setupConnection, the close slot as it is now is called. The `conn`
        reference itself is kept. */
    method LinkClosed(s: nat)
      requires Valid() && s in links
      modifies this
      ensures Valid()
      ensures links == old(links)[s := false]
      ensures effects == old(effects) +
                         (if s in attached && onClose.Some? then [InvokeClose(onClose.value)] else [])
      ensures unchanged(this`peer, this`conn, this`outbound, this`attached, this`promises)
      ensures unchanged(this`timers, this`nextSerial)
      ensures unchanged(this`onData, this`onConnect, this`onClose)
    {
      links := links[s := false];
      if s in attached && onClose.Some? {
        effects := effects + [InvokeClose(onClose.value)];
      }
    }

    /** A connection's 'data' event: handed to the data slot as it is now. */
    method DataArrived(s: nat, msg: P2PMessage)
      requires Valid() && s in links && links[s]
      modifies this
      ensures Valid()
      ensures effects == old(effects) +
                         (if s in attached && onData.Some? then [InvokeData(onData.value, msg)] else [])
      ensures unchanged(this`peer, this`conn, this`outbound, this`links, this`attached)
      ensures unchanged(this`promises, this`timers, this`nextSerial)
      ensures unchanged(this`onData, this`onConnect, this`onClose)
    {
      if s in attached && onData.Some? {
        effects := effects + [InvokeData(onData.value, msg)];
      }
    }
  }

  // ------------------------------------------------------------ scenarios

  /** The host side of a room: the code is registered, the partner connects, the setup
      screen's auto-start fires, and a handshake goes out on the connection. */
  method HostScenario(draw: int, profile: UserProfile)
    requires 1000 <= draw <= 9999
  {
    var host := new PeerService();
    var p := host.InitializeHost(draw);
    host.SetP2PCallbacks(SetupIgnoreData, Some(SetupAutoStart), None);
    host.PeerOpened();
    assert host.promises[p] == Resolved(Some(ShortCode(draw)));
    var s := host.IncomingConnection(true);
    assert host.effects == [InvokeConnect(SetupAutoStart)];
    host.SetP2PCallbacks(ChatData, None, Some(ChatClosed));
    assert host.onConnect == Some(SetupAutoStart);
    host.SendMessageP2P(Handshake(profile));
    assert host.effects == [InvokeConnect(SetupAutoStart), Transmit(s, Handshake(profile))];
  }

  /** The end of a room: data reaches the chat's slot, the partner leaves, a later send is
      dropped with a warning, and closing twice is harmless. */
  method HostTeardownScenario(draw: int)
    requires 1000 <= draw <= 9999
  {
    var host := new PeerService();
    var p := host.InitializeHost(draw);
    host.PeerOpened();
    var s := host.IncomingConnection(true);
    host.SetP2PCallbacks(ChatData, None, Some(ChatClosed));
    assert host.effects == [];
    host.DataArrived(s, Typing(true));
    assert host.effects == [InvokeData(ChatData, Typing(true))];
    host.LinkClosed(s);
    host.SendMessageP2P(Typing(false));
    assert host.effects[1..] == [InvokeClose(ChatClosed), Warn];
    host.CloseP2P();
    var before := host.effects;
    host.CloseP2P();
    assert host.effects == before && host.peer.None? && host.conn.None?;
  }

  /** A join to a code nobody hosts is rejected by its timer; a join whose connection opened
      first stays resolved when its timer fires. */
  method JoinScenario() {
    var joiner := new PeerService();
    var p := joiner.JoinSession("0000");
    joiner.PeerOpened();
    joiner.TimerFired(0);
    assert joiner.promises[p] == Rejected(Timeout);

    var q := joiner.JoinSession("4821");
    joiner.PeerOpened();
    joiner.OutboundOpened();
    assert joiner.promises[q] == Resolved(None);
    joiner.TimerFired(0);
    assert joiner.promises[q] == Resolved(None);
  }
}
