/** The connection to a backend server: it reconnects, proves who it is, and watches for silence. */
module Backend {
  const MIN_REQUEST_KEEP_ALIVE_TIMEOUT: nat := 60000
  const MIN_KEEP_ALIVE_TIMEOUT: nat := 65000
  const MIN_CONNECTION_TIMEOUT: nat := 5000
  const MIN_RECONNECT_TIMEOUT: nat := 3000

  datatype Phase = Unspecified | SetupReady | Connecting | Connected | Challenging | Ready | Closing

  /** What the connection does to its TCP object and to its owner. */
  datatype Act =
    | Setup
    | TcpInit(at: nat, ok: bool)
    | TcpClean
    | Accepted
    | Delivered(command: nat)
    | KeepAliveRequested(at: nat)

  datatype Connection = Connection(
    phase: Phase, now: nat, start: nat, lastRequest: nat, lastKeepAlive: nat, tcp: bool, acts: seq<Act>)

  const NEW: Connection := Connection(Unspecified, 0, 0, 0, 0, false, [])

  /** The TCP object is initialised. */
  predicate HasTcp(p: Phase) {
    p.Connecting? || p.Connected? || p.Challenging? || p.Ready? || p.Closing?
  }

  predicate Handshaking(p: Phase) {
    p.Connecting? || p.Connected? || p.Challenging?
  }

  function AfterInit(c: Connection): Connection {
    c.(phase := SetupReady, start := 0, lastRequest := 0, lastKeepAlive := 0, acts := c.acts + [Setup])
  }

  function CleanTcp(c: Connection): Connection {
    c.(tcp := false, acts := c.acts + [TcpClean])
  }

  function AfterClean(c: Connection): Connection {
    (if HasTcp(c.phase) then CleanTcp(c) else c).(phase := Unspecified)
  }

  /** A new attempt, unless the last one is too recent; `ok` is whether the TCP object can be initialised. */
  function Reconnect(c: Connection, ok: bool): Connection {
    if c.now - c.start < MIN_RECONNECT_TIMEOUT then c
    else
      var d := c.(lastRequest := 0, lastKeepAlive := 0, start := c.now, acts := c.acts + [TcpInit(c.now, ok)]);
      if ok then d.(phase := Connecting, tcp := true) else d
  }

  function CheckAndReconnect(c: Connection, ok: bool): Connection {
    var d := if c.phase.Closing? then CleanTcp(c).(phase := SetupReady) else c;
    if d.phase.SetupReady? then Reconnect(d, ok) else d
  }

  function AfterTick(before: Connection, now: nat, ok: bool): Connection {
    var c := before.(now := now);
    if c.phase.Ready? then
      if now - c.lastKeepAlive >= MIN_KEEP_ALIVE_TIMEOUT then CheckAndReconnect(c.(phase := Closing), ok)
      else if now - c.lastRequest >= MIN_REQUEST_KEEP_ALIVE_TIMEOUT then
        c.(lastRequest := now, acts := c.acts + [KeepAliveRequested(now)])
      else c
    else if Handshaking(c.phase) && now - c.start >= MIN_CONNECTION_TIMEOUT then
      CheckAndReconnect(c.(phase := Closing), ok)
    else CheckAndReconnect(c, ok)
  }

  /** The challenge is posted at once. */
  function AfterConnected(c: Connection): Connection {
    c.(phase := Challenging)
  }

  function AfterPeerClose(c: Connection): Connection {
    c.(phase := Closing)
  }

  function AfterKeepAlive(c: Connection): Connection {
    c.(lastKeepAlive := c.now)
  }

  const CHALLENGE_RESP: nat := 1

  datatype PacketResult = PacketResult(c: Connection, ok: bool)

  /** `OnPacket`; `readable` is whether a challenge response can be read, `taken` what the owner says. */
  function AfterPacket(c: Connection, command: nat, readable: bool, taken: bool): PacketResult {
    if c.phase.Ready? then PacketResult(c.(acts := c.acts + [Delivered(command)]), taken)
    else if command != CHALLENGE_RESP || !c.phase.Challenging? || !readable then PacketResult(c, false)
    else
      PacketResult(c.(phase := Ready, lastRequest := c.now, lastKeepAlive := c.now, acts := c.acts + [Accepted]), taken)
  }

  // ---------------------------------------------------------------------------------------
  // Runs
  // ---------------------------------------------------------------------------------------

  datatype Event =
    | Initialise
    | Finalise
    | Ticked(now: nat, ok: bool)
    | TcpConnected
    | TcpClosed
    | KeepAlive
    | Packet(command: nat, readable: bool, taken: bool)

  /** Time does not run backwards, the TCP object calls back only while it is initialised, and it says
      that it is connected once, and first. An event that is not possible changes nothing. */
  function Step(c: Connection, e: Event): Connection {
    match e
    case Initialise => if c.phase.Unspecified? then AfterInit(c) else c
    case Finalise => AfterClean(c)
    case Ticked(now, ok) => if c.phase.Unspecified? || now < c.now then c else AfterTick(c, now, ok)
    case TcpConnected => if c.tcp && c.phase.Connecting? then AfterConnected(c) else c
    case TcpClosed => if c.tcp then AfterPeerClose(c) else c
    case KeepAlive => if c.tcp then AfterKeepAlive(c) else c
    case Packet(command, readable, taken) => if c.tcp then AfterPacket(c, command, readable, taken).c else c
  }

  function Run(c: Connection, events: seq<Event>): Connection
    decreases |events|
  {
    if events == [] then c else Run(Step(c, events[0]), events[1..])
  }

  /** The TCP object is initialised after these acts. */
  function Alive(acts: seq<Act>): bool {
    if acts == [] then false else
      var a := acts[|acts| - 1];
      if a.TcpInit? && a.ok then true else if a.TcpClean? then false else Alive(acts[..|acts| - 1])
  }

  /** The challenge was accepted on the present TCP connection. */
  function Trusted(acts: seq<Act>): bool {
    if acts == [] then false else
      var a := acts[|acts| - 1];
      if a.Accepted? then true else if a.TcpClean? || a.TcpInit? then false else Trusted(acts[..|acts| - 1])
  }

  /** When the last attempt was made, or the time from which the first one is counted. */
  function LastAttempt(acts: seq<Act>): nat {
    if acts == [] then 0 else
      var a := acts[|acts| - 1];
      if a.TcpInit? then a.at else if a.Setup? then 0 else LastAttempt(acts[..|acts| - 1])
  }

  predicate ActFits(before: seq<Act>, a: Act) {
    match a
    case TcpInit(at, _) => !Alive(before) && LastAttempt(before) + MIN_RECONNECT_TIMEOUT <= at
    case TcpClean => Alive(before)
    case Delivered(_) => Alive(before) && Trusted(before)
    case Accepted => Alive(before) && !Trusted(before)
    case _ => true
  }

  ghost predicate ActsFit(acts: seq<Act>) {
    forall k :: 0 <= k < |acts| ==> ActFits(acts[..k], acts[k])
  }

  ghost predicate Inv(c: Connection) {
    && c.tcp == HasTcp(c.phase) && c.tcp == Alive(c.acts)
    && (c.phase.Ready? ==> Trusted(c.acts))
    && (Handshaking(c.phase) ==> !Trusted(c.acts))
    && (!c.phase.Unspecified? ==> c.start == LastAttempt(c.acts) && c.start <= c.now)
    && c.lastKeepAlive <= c.now && c.lastRequest <= c.now
    && ActsFit(c.acts)
  }

  lemma ActAdded(acts: seq<Act>, a: Act)
    requires ActsFit(acts) && ActFits(acts, a)
    ensures ActsFit(acts + [a]) && (acts + [a])[..|acts|] == acts
  {
    var more := acts + [a];
    assert more[..|acts|] == acts;
    forall k | 0 <= k < |more| ensures ActFits(more[..k], more[k]) {
      if k < |acts| { assert more[..k] == acts[..k]; }
    }
  }

  lemma ReconnectKeepsInv(c: Connection, ok: bool)
    requires Inv(c) && c.phase.SetupReady?
    ensures var d := Reconnect(c, ok);
      Inv(d) && d.now == c.now && (d.phase.SetupReady? || (d.phase.Connecting? && d.start == d.now))
  {
    if c.now - c.start >= MIN_RECONNECT_TIMEOUT { ActAdded(c.acts, TcpInit(c.now, ok)); }
  }

  lemma CloseKeepsInv(c: Connection)
    requires Inv(c) && c.phase.Closing?
    ensures Inv(CleanTcp(c).(phase := SetupReady)) && Inv(CleanTcp(c).(phase := Unspecified))
  {
    ActAdded(c.acts, TcpClean);
  }

  /** After a tick no handshake is older than five seconds, no ready link has been silent for 65 seconds,
      and a ready link asked for a sign of life within the last minute. */
  predicate Fresh(c: Connection) {
    && (Handshaking(c.phase) ==> c.now - c.start < MIN_CONNECTION_TIMEOUT)
    && (c.phase.Ready? ==>
      c.now - c.lastKeepAlive < MIN_KEEP_ALIVE_TIMEOUT && c.now - c.lastRequest < MIN_REQUEST_KEEP_ALIVE_TIMEOUT)
    && !c.phase.Closing?
  }

  lemma CheckKeepsInv(c: Connection, ok: bool)
    requires Inv(c) && !c.phase.Ready? && (Handshaking(c.phase) ==> c.now - c.start < MIN_CONNECTION_TIMEOUT)
    ensures Inv(CheckAndReconnect(c, ok)) && Fresh(CheckAndReconnect(c, ok))
  {
    hide ActsFit, LastAttempt;
    if c.phase.Closing? {
      CloseKeepsInv(c);
      ReconnectKeepsInv(CleanTcp(c).(phase := SetupReady), ok);
    } else if c.phase.SetupReady? {
      ReconnectKeepsInv(c, ok);
    }
  }

  lemma TickKeepsInv(c: Connection, now: nat, ok: bool)
    requires Inv(c) && !c.phase.Unspecified? && c.now <= now
    ensures Inv(AfterTick(c, now, ok)) && Fresh(AfterTick(c, now, ok))
  {
    hide CheckAndReconnect;
    var d := c.(now := now);
    if d.phase.Ready? {
      if now - d.lastKeepAlive >= MIN_KEEP_ALIVE_TIMEOUT {
        CheckKeepsInv(d.(phase := Closing), ok);
      } else if now - d.lastRequest >= MIN_REQUEST_KEEP_ALIVE_TIMEOUT {
        ActAdded(d.acts, KeepAliveRequested(now));
      }
    } else if Handshaking(d.phase) && now - d.start >= MIN_CONNECTION_TIMEOUT {
      CheckKeepsInv(d.(phase := Closing), ok);
    } else {
      CheckKeepsInv(d, ok);
    }
  }

  lemma PacketKeepsInv(c: Connection, command: nat, readable: bool, taken: bool)
    requires Inv(c) && c.tcp
    ensures Inv(AfterPacket(c, command, readable, taken).c)
  {
    hide ActsFit, LastAttempt;
    if c.phase.Ready? { ActAdded(c.acts, Delivered(command)); AddedUsual(c.acts, Delivered(command)); }
    if c.phase.Challenging? { ActAdded(c.acts, Accepted); AddedUsual(c.acts, Accepted); }
  }

  lemma AddedUsual(acts: seq<Act>, a: Act)
    requires a.Delivered? || a.Accepted? || a.KeepAliveRequested?
    ensures LastAttempt(acts + [a]) == LastAttempt(acts)
  {
    assert (acts + [a])[..|acts|] == acts;
  }

  lemma InitKeepsInv(c: Connection)
    requires Inv(c) && c.phase.Unspecified?
    ensures Inv(AfterInit(c))
  {
    ActAdded(c.acts, Setup);
    hide ActsFit;
  }

  lemma CleanKeepsInv(c: Connection)
    requires Inv(c)
    ensures Inv(AfterClean(c))
  {
    if HasTcp(c.phase) { CloseKeepsInv(c.(phase := Closing)); }
    hide ActsFit;
  }

  lemma StepKeepsInv(c: Connection, e: Event)
    requires Inv(c)
    ensures Inv(Step(c, e))
    ensures e.Ticked? && !c.phase.Unspecified? && c.now <= e.now ==> Fresh(Step(c, e))
  {
    hide AfterInit, AfterClean, AfterTick, AfterPacket, ActsFit, LastAttempt;
    match e
    case Initialise => if c.phase.Unspecified? { InitKeepsInv(c); }
    case Finalise => CleanKeepsInv(c);
    case Ticked(now, ok) => if !c.phase.Unspecified? && c.now <= now { TickKeepsInv(c, now, ok); }
    case Packet(command, readable, taken) => if c.tcp { PacketKeepsInv(c, command, readable, taken); }
    case _ =>
  }

  /** In every run the TCP object is initialised exactly from connecting to closing, it is initialised and
      cleaned in turns, attempts keep their distance, and packets reach the owner only on a connection
      whose challenge was accepted. */
  lemma {:induction false} RunKeepsInv(c: Connection, events: seq<Event>)
    requires Inv(c)
    ensures Inv(Run(c, events))
    decreases |events|
  {
    hide Inv, Step;
    if events != [] {
      StepKeepsInv(c, events[0]);
      RunKeepsInv(Step(c, events[0]), events[1..]);
    }
  }

  lemma StartInv()
    ensures Inv(NEW)
  {
  }

  // ---------------------------------------------------------------------------------------
  // What this says about the acts
  // ---------------------------------------------------------------------------------------

  lemma {:induction false} AttemptsApart(acts: seq<Act>, i: nat, n: nat)
    requires i < n <= |acts| && ActsFit(acts) && acts[i].TcpInit?
    requires forall k :: i < k < n ==> !acts[k].Setup?
    ensures acts[i].at <= LastAttempt(acts[..n])
    decreases n
  {
    assert acts[..n][..n - 1] == acts[..n - 1];
    if n > i + 1 {
      AttemptsApart(acts, i, n - 1);
      assert ActFits(acts[..n - 1], acts[n - 1]);
    }
  }

  lemma {:induction false} TrustHasReason(acts: seq<Act>) returns (a: nat)
    requires Trusted(acts)
    ensures a < |acts| && acts[a].Accepted? && forall k :: a < k < |acts| ==> !acts[k].TcpClean? && !acts[k].TcpInit?
  {
    var n := |acts| - 1;
    if acts[n].Accepted? { a := n; } else { a := TrustHasReason(acts[..n]); }
  }

  /** Two attempts of one set-up are at least three seconds apart, however they ended. */
  lemma AttemptsKeepDistance(events: seq<Event>, i: nat, j: nat)
    requires var acts := Run(NEW, events).acts;
      && i < j < |acts| && acts[i].TcpInit? && acts[j].TcpInit? && forall k :: i < k < j ==> !acts[k].Setup?
    ensures var acts := Run(NEW, events).acts; acts[i].at + MIN_RECONNECT_TIMEOUT <= acts[j].at
  {
    StartInv();
    RunKeepsInv(NEW, events);
    hide Run;
    var acts := Run(NEW, events).acts;
    AttemptsApart(acts, i, j);
    assert ActFits(acts[..j], acts[j]);
  }

  lemma RunOne(c: Connection, e: Event, rest: seq<Event>)
    ensures Run(c, [e] + rest) == Run(Step(c, e), rest)
  {
    assert ([e] + rest)[1..] == rest;
  }

  /** Setting up again forgets when the last attempt was made: for every time from 3 s on there is a run in
      which two attempts follow one another without any distance. */
  lemma SetUpForgetsDistance(t: nat, ok: bool)
    requires t >= MIN_RECONNECT_TIMEOUT
    ensures Run(NEW, [Initialise] +
      ([Ticked(t, true)] + ([Finalise] + ([Initialise] + ([Ticked(t, ok)] + []))))).acts ==
      [Setup, TcpInit(t, true), TcpClean, Setup, TcpInit(t, ok)]
  {
    var c1 := Step(NEW, Initialise);
    var c2 := Step(c1, Ticked(t, true));
    var c3 := Step(c2, Finalise);
    var c4 := Step(c3, Initialise);
    var c5 := Step(c4, Ticked(t, ok));
    assert c1.acts == [Setup] && c2.acts == [Setup, TcpInit(t, true)];
    assert c3.acts == [Setup, TcpInit(t, true), TcpClean] && c4.acts == [Setup, TcpInit(t, true), TcpClean, Setup];
    assert c5.acts == [Setup, TcpInit(t, true), TcpClean, Setup, TcpInit(t, ok)];
    hide Step;
    RunOne(c4, Ticked(t, ok), []);
    RunOne(c3, Initialise, [Ticked(t, ok)] + []);
    RunOne(c2, Finalise, [Initialise] + ([Ticked(t, ok)] + []));
    RunOne(c1, Ticked(t, true), [Finalise] + ([Initialise] + ([Ticked(t, ok)] + [])));
    RunOne(NEW, Initialise, [Ticked(t, true)] + ([Finalise] + ([Initialise] + ([Ticked(t, ok)] + []))));
  }

  /** A packet is delivered only after the challenge was accepted on the same TCP connection. */
  lemma DeliveredOnceTrusted(events: seq<Event>, k: nat)
    requires var acts := Run(NEW, events).acts; k < |acts| && acts[k].Delivered?
    ensures var acts := Run(NEW, events).acts;
      exists a :: 0 <= a < k && acts[a].Accepted? && forall i :: a < i < k ==> !acts[i].TcpClean? && !acts[i].TcpInit?
  {
    StartInv();
    RunKeepsInv(NEW, events);
    hide Run;
    var acts := Run(NEW, events).acts;
    assert ActFits(acts[..k], acts[k]);
    var a := TrustHasReason(acts[..k]);
    assert acts[..k][a] == acts[a];
    forall i | a < i < k ensures !acts[i].TcpClean? && !acts[i].TcpInit? { assert acts[..k][i] == acts[i]; }
  }

  // ---------------------------------------------------------------------------------------
  // The object
  // ---------------------------------------------------------------------------------------

  class BackendConnection {
    var phase: Phase
    var now: nat
    var connectionStart: nat
    var lastRequestKeepAlive: nat
    var lastKeepAlive: nat
    var tcp: bool
    ghost var acts: seq<Act>

    constructor ()
      ensures View() == NEW
    {
      phase, now, connectionStart, lastRequestKeepAlive, lastKeepAlive, tcp, acts := Unspecified, 0, 0, 0, 0, false, [];
    }

    ghost function View(): Connection
      reads this
    {
      Connection(phase, now, connectionStart, lastRequestKeepAlive, lastKeepAlive, tcp, acts)
    }

    method Init()
      requires phase.Unspecified?
      modifies this
      ensures View() == AfterInit(old(View()))
    {
      phase := SetupReady;
      connectionStart, lastRequestKeepAlive, lastKeepAlive := 0, 0, 0;
      acts := acts + [Setup];
    }

    method CleanConnection()
      requires tcp
      modifies this`tcp, this`acts
      ensures View() == CleanTcp(old(View()))
    {
      tcp := false;
      acts := acts + [TcpClean];
    }

    method Clean()
      requires Inv(View())
      modifies this
      ensures View() == AfterClean(old(View()))
    {
      if HasTcp(phase) { CleanConnection(); }
      phase := Unspecified;
    }

    /** One tick; the TCP object is initialised only while it is not, and cleaned only while it is. */
    method Tick(time: nat, ok: bool)
      requires Inv(View()) && !phase.Unspecified? && now <= time
      modifies this
      ensures View() == AfterTick(old(View()), time, ok) && Inv(View()) && Fresh(View())
    {
      TickKeepsInv(View(), time, ok);
      hide Inv, Fresh;
      now := time;
      if phase.Ready? {
        if now - lastKeepAlive < MIN_KEEP_ALIVE_TIMEOUT {
          if now - lastRequestKeepAlive >= MIN_REQUEST_KEEP_ALIVE_TIMEOUT {
            acts := acts + [KeepAliveRequested(now)];
            lastRequestKeepAlive := now;
          }
          return;
        }
        phase := Closing;
      } else if Handshaking(phase) {
        if now - connectionStart >= MIN_CONNECTION_TIMEOUT { phase := Closing; }
      }
      Reconnect(ok);
    }

    method Reconnect(ok: bool)
      requires phase.Closing? ==> tcp
      modifies this
      ensures View() == CheckAndReconnect(old(View()), ok)
    {
      if phase.Closing? {
        CleanConnection();
        phase := SetupReady;
      }
      if phase.SetupReady? {
        if now - connectionStart < MIN_RECONNECT_TIMEOUT { return; }
        lastRequestKeepAlive, lastKeepAlive := 0, 0;
        connectionStart := now;
        acts := acts + [TcpInit(now, ok)];
        if !ok { return; }
        tcp := true;
        phase := Connecting;
      }
    }

    method OnConnected()
      requires tcp && phase.Connecting?
      modifies this`phase
      ensures View() == AfterConnected(old(View()))
    {
      phase := Connected;
      phase := Challenging;
    }

    method OnPeerClose()
      requires tcp
      modifies this`phase
      ensures View() == AfterPeerClose(old(View()))
    {
      phase := Closing;
    }

    /** The branch of `OnData` for a packet that is a sign of life. */
    method OnKeepAlive()
      requires tcp
      modifies this`lastKeepAlive
      ensures View() == AfterKeepAlive(old(View()))
    {
      lastKeepAlive := now;
    }

    method OnPacket(command: nat, readable: bool, taken: bool) returns (ok: bool)
      modifies this
      ensures PacketResult(View(), ok) == AfterPacket(old(View()), command, readable, taken)
    {
      if phase.Ready? {
        acts := acts + [Delivered(command)];
        return taken;
      }
      if command != CHALLENGE_RESP || !phase.Challenging? || !readable { return false; }
      phase := Ready;
      lastRequestKeepAlive, lastKeepAlive := now, now;
      acts := acts + [Accepted];
      ok := taken;
    }
  }
}
