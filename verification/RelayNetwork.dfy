/** The protocol between an access server, a relay and the relay's devices, as a state machine whose
    steps are the message handlers. Links deliver in order; a device answers each DNS query once and
    reports a connection as established only after it was told to create it; apart from that devices,
    clients, the authentication service and the device selector are free. */
module RelayNetwork {
  import opened Lists

  type Bytes = seq<nat>

  const MAX_PAYLOAD_SIZE: nat := 4096
  const OVERFLOW_SIZE: nat := 1000
  /** The id under which the access server knows the relay. */
  const RELAY_ID: nat := 1

  // ---------------------------------------------------------------------------------------
  // The access server
  // ---------------------------------------------------------------------------------------

  datatype Phase =
    | Unknown
    | S5WaitForAuthInfo | S5WaitForAccountExchange | S5WaitForDeviceSelection | S5WaitForConnectionRequest
    | S5WaitForConnectionEstablish | S5ConnectionReady | S5WaitForConnectionClosed
    | HttpRawChallenge | HttpRawWaitForAccountExchange | HttpRawWaitForDeviceSelection
    | HttpRawWaitForConnectionEstablish | HttpRawReady | HttpRawClosed
    | HttpNormalChallenge | HttpNormalWaitForAccountExchange | HttpNormalWaitForDeviceSelection
    | HttpNormalWaitForConnectionEstablish | HttpNormalReady | HttpNormalClosed

  /** The value of the phase in the enumeration. */
  function Rank(p: Phase): nat {
    match p
    case Unknown => 0
    case S5WaitForAuthInfo => 1
    case S5WaitForAccountExchange => 2
    case S5WaitForDeviceSelection => 3
    case S5WaitForConnectionRequest => 4
    case S5WaitForConnectionEstablish => 5
    case S5ConnectionReady => 6
    case S5WaitForConnectionClosed => 7
    case HttpRawChallenge => 9
    case HttpRawWaitForAccountExchange => 10
    case HttpRawWaitForDeviceSelection => 11
    case HttpRawWaitForConnectionEstablish => 12
    case HttpRawReady => 13
    case HttpRawClosed => 14
    case HttpNormalChallenge => 15
    case HttpNormalWaitForAccountExchange => 16
    case HttpNormalWaitForDeviceSelection => 17
    case HttpNormalWaitForConnectionEstablish => 18
    case HttpNormalReady => 19
    case HttpNormalClosed => 20
  }

  /** No two phases have the same value, so a phase that does not get less stays or goes on. */
  lemma OneRankEach(p: Phase, q: Phase)
    ensures Rank(p) == Rank(q) <==> p == q
  {
  }

  datatype Branch = Undecided | Socks5 | HttpRaw | HttpNormal

  function BranchOf(p: Phase): Branch {
    var r := Rank(p);
    if r == 0 then Undecided else if r <= 7 then Socks5 else if r <= 14 then HttpRaw else HttpNormal
  }

  predicate WaitsForEstablish(p: Phase) {
    p.S5WaitForConnectionEstablish? || p.HttpRawWaitForConnectionEstablish? || p.HttpNormalWaitForConnectionEstablish?
  }

  predicate IsReady(p: Phase) {
    p.S5ConnectionReady? || p.HttpRawReady? || p.HttpNormalReady?
  }

  predicate IsClosed(p: Phase) {
    p.S5WaitForConnectionClosed? || p.HttpRawClosed? || p.HttpNormalClosed?
  }

  /** Where a client wants to go: an address if it gave one, a host name otherwise. */
  datatype Target = Target(address: Option<nat>, hostname: string, port: nat)

  /** `header` is the rebuilt header of a plain HTTP request, which is uploaded first. */
  datatype Conn = Conn(phase: Phase, relayId: nat, deviceId: nat, relaySideId: nat, target: Target, header: Bytes,
                       uploaded: nat, dumped: nat, reportedUpload: nat, reportedDumped: nat)

  const NEW_CONN := Conn(Unknown, 0, 0, 0, Target(None, "", 0), [], 0, 0, 0, 0)

  datatype ToRelay =
    | Create(deviceId: nat, proxySideId: nat, target: Target)
    | Push(proxySideId: nat, relaySideId: nat, payload: Bytes)
    | Transferred(proxySideId: nat, relaySideId: nat, uploaded: nat, dumped: nat)

  datatype ConnectionState = Unspecified | Established | UpdateTransfer | Closed

  datatype ToProxy =
    | Destroy(proxySideId: nat)
    | Notify(proxySideId: nat, relaySideId: nat, state: ConnectionState)
    | PushBack(proxySideId: nat, payload: Bytes)

  /** A complete message from a client, or data; what does not parse or is not complete changes no phase. */
  datatype Input =
    | Greeting(branch: Branch, target: Target)
    | Credentials(header: Bytes)
    | ConnectRequest(target: Target)
    | Data(bytes: Bytes)

  /** What happened to a connection, in order. */
  datatype Entry = Authorised(id: nat) | DeviceChosen(id: nat) | CreateSent(id: nat) | Ready(id: nat)
    | Posted(id: nat, payload: Bytes)

  /** What a handler of the access server does to one connection. */
  datatype Effect = Effect(conn: Conn, out: seq<ToRelay>, entries: seq<Entry>, crash: bool)

  function Nothing(conn: Conn): Effect {
    Effect(conn, [], [], false)
  }

  /** The upload cut into payloads of at most the maximal size. */
  function Chunks(data: Bytes): seq<Bytes>
    decreases |data|
  {
    if data == [] then []
    else if |data| <= MAX_PAYLOAD_SIZE then [data]
    else [data[..MAX_PAYLOAD_SIZE]] + Chunks(data[MAX_PAYLOAD_SIZE..])
  }

  function Pushes(id: nat, relaySideId: nat, chunks: seq<Bytes>): (r: seq<ToRelay>)
    ensures |r| == |chunks| && forall i :: 0 <= i < |r| ==> r[i] == Push(id, relaySideId, chunks[i])
  {
    seq(|chunks|, i requires 0 <= i < |chunks| => Push(id, relaySideId, chunks[i]))
  }

  function Posts(id: nat, chunks: seq<Bytes>): (r: seq<Entry>)
    ensures |r| == |chunks| && forall i :: 0 <= i < |r| ==> r[i] == Posted(id, chunks[i])
  {
    seq(|chunks|, i requires 0 <= i < |chunks| => Posted(id, chunks[i]))
  }

  /** `TryUpdateDataTransferSize`: totals are reported once enough has been transferred since the last report. */
  function Account(id: nat, conn: Conn, uploaded: nat, dumped: nat): Effect {
    var c := conn.(uploaded := conn.uploaded + uploaded, dumped := conn.dumped + dumped);
    if c.uploaded - c.reportedUpload < OVERFLOW_SIZE && c.dumped - c.reportedDumped < OVERFLOW_SIZE then Nothing(c)
    else if c.relayId != RELAY_ID then Nothing(c)
    else Effect(c.(reportedUpload := c.uploaded, reportedDumped := c.dumped),
                [Transferred(id, c.relaySideId, c.uploaded, c.dumped)], [], false)
  }

  /** The three upload handlers. */
  function Upload(id: nat, conn: Conn, data: Bytes): Effect {
    if conn.relayId != RELAY_ID then Nothing(conn) else
      var e := Account(id, conn, |data|, 0);
      Effect(e.conn, Pushes(id, conn.relaySideId, Chunks(data)) + e.out, Posts(id, Chunks(data)), false)
  }

  /** `OnOpenRemoteConnection`. */
  function OpenRemote(id: nat, conn: Conn, target: Target): Effect {
    if conn.relayId != RELAY_ID then Nothing(conn) else
      var phase := match conn.phase
        case S5WaitForConnectionRequest => S5WaitForConnectionEstablish
        case HttpRawWaitForDeviceSelection => HttpRawWaitForConnectionEstablish
        case HttpNormalWaitForDeviceSelection => HttpNormalWaitForConnectionEstablish
        case p => p;
      Effect(conn.(phase := phase), [Create(conn.deviceId, id, target)], [CreateSent(id)], false)
  }

  /** `OnData`, by phase. */
  function OnInput(id: nat, conn: Conn, input: Input): Effect {
    match conn.phase
    case Unknown =>
      if input.Greeting? && input.branch.Socks5? then Nothing(conn.(phase := S5WaitForAuthInfo))
      else if input.Greeting? && input.branch.HttpRaw? then
        Nothing(conn.(phase := HttpRawChallenge, target := input.target))
      else if input.Greeting? && input.branch.HttpNormal? then
        Nothing(conn.(phase := HttpNormalChallenge, target := input.target))
      else Nothing(conn)
    case S5WaitForAuthInfo =>
      if input.Credentials? then Nothing(conn.(phase := S5WaitForAccountExchange)) else Nothing(conn)
    case HttpRawChallenge =>
      if input.Credentials? then Nothing(conn.(phase := HttpRawWaitForAccountExchange)) else Nothing(conn)
    case HttpNormalChallenge =>
      if input.Credentials? then Nothing(conn.(phase := HttpNormalWaitForAccountExchange, header := input.header))
      else Nothing(conn)
    case S5WaitForConnectionRequest =>
      if input.ConnectRequest? then OpenRemote(id, conn, input.target) else Nothing(conn)
    case S5ConnectionReady => if input.Data? then Upload(id, conn, input.bytes) else Nothing(conn)
    case HttpRawReady => if input.Data? then Upload(id, conn, input.bytes) else Nothing(conn)
    case HttpNormalReady => if input.Data? then Upload(id, conn, input.bytes) else Nothing(conn)
    case _ => Nothing(conn)
  }

  /** `OnAuthResult`; `accepted` is false for a null result. */
  function OnAuthResult(id: nat, conn: Conn, accepted: bool): Effect {
    if !accepted then Nothing(conn)
    else match conn.phase
      case S5WaitForAccountExchange =>
        Effect(conn.(phase := S5WaitForDeviceSelection), [], [Authorised(id)], false)
      case HttpRawWaitForAccountExchange =>
        Effect(conn.(phase := HttpRawWaitForDeviceSelection), [], [Authorised(id)], false)
      case HttpNormalWaitForAccountExchange =>
        Effect(conn.(phase := HttpNormalWaitForDeviceSelection), [], [Authorised(id)], false)
      case _ => Nothing(conn)
  }

  function OnDeviceSelected(id: nat, conn: Conn, relayId: nat, deviceId: nat): Effect {
    match conn.phase
    case S5WaitForDeviceSelection =>
      if deviceId == 0 then Nothing(conn)
      else
        Effect(conn.(relayId := relayId, deviceId := deviceId, phase := S5WaitForConnectionRequest),
               [], [DeviceChosen(id)], false)
    case HttpRawWaitForDeviceSelection =>
      var e := OpenRemote(id, conn.(relayId := relayId, deviceId := deviceId), conn.target);
      e.(entries := [DeviceChosen(id)] + e.entries)
    case HttpNormalWaitForDeviceSelection =>
      var e := OpenRemote(id, conn.(relayId := relayId, deviceId := deviceId), conn.target);
      e.(entries := [DeviceChosen(id)] + e.entries)
    case _ => Nothing(conn)
  }

  /** `OnRelaySideConnectionStateChange`. While a connection waits to be established, any other state
      fails a runtime assertion. */
  function OnNotify(id: nat, conn: Conn, relaySideId: nat, state: ConnectionState): Effect {
    if WaitsForEstablish(conn.phase) then
      if !state.Established? then Effect(conn, [], [], true)
      else
        var c := conn.(relaySideId := relaySideId);
        match conn.phase
        case S5WaitForConnectionEstablish => Effect(c.(phase := S5ConnectionReady), [], [Ready(id)], false)
        case HttpRawWaitForConnectionEstablish => Effect(c.(phase := HttpRawReady), [], [Ready(id)], false)
        case _ =>
          var e := Upload(id, c.(phase := HttpNormalReady), c.header);
          e.(entries := [Ready(id)] + e.entries)
    else if conn.phase.S5ConnectionReady? && state.Closed? then Nothing(conn.(phase := S5WaitForConnectionClosed))
    else Nothing(conn)
  }

  function OnDestroy(conn: Conn): Effect {
    match conn.phase
    case S5WaitForConnectionEstablish => Nothing(conn.(phase := S5WaitForConnectionClosed))
    case S5ConnectionReady => Nothing(conn.(phase := S5WaitForConnectionClosed))
    case HttpRawWaitForConnectionEstablish => Nothing(conn.(phase := HttpRawClosed))
    case HttpRawReady => Nothing(conn.(phase := HttpRawClosed))
    case HttpNormalWaitForConnectionEstablish => Nothing(conn.(phase := HttpNormalClosed))
    case HttpNormalReady => Nothing(conn.(phase := HttpNormalClosed))
    case _ => Nothing(conn)
  }

  function OnPeerClose(conn: Conn): Effect {
    if conn.phase.S5ConnectionReady? then Nothing(conn.(phase := S5WaitForConnectionClosed)) else Nothing(conn)
  }

  /** `OnRelaySidePushData`: the whole message counts as transferred. */
  function OnPushBack(id: nat, conn: Conn, messageSize: nat): Effect {
    Account(id, conn, 0, messageSize)
  }

  // ---------------------------------------------------------------------------------------
  // Phases only move forward, within one branch
  // ---------------------------------------------------------------------------------------

  predicate Advances(p: Phase, q: Phase) {
    Rank(p) <= Rank(q) && (BranchOf(p).Undecided? || BranchOf(p) == BranchOf(q))
  }

  lemma UploadKeepsPhase(id: nat, conn: Conn, data: Bytes, dumped: nat)
    ensures Upload(id, conn, data).conn.phase == conn.phase
    ensures Account(id, conn, |data|, dumped).conn.phase == conn.phase
  {
  }

  /** No handler moves a phase back or into another branch. */
  lemma ClientHandlersAdvance(id: nat, conn: Conn, input: Input)
    ensures Advances(conn.phase, OnInput(id, conn, input).conn.phase)
    ensures Advances(conn.phase, OnPeerClose(conn).conn.phase)
  {
    hide Upload;
    if input.Data? { UploadKeepsPhase(id, conn, input.bytes, 0); }
  }

  lemma ServiceHandlersAdvance(id: nat, conn: Conn, accepted: bool, relayId: nat, deviceId: nat)
    ensures Advances(conn.phase, OnAuthResult(id, conn, accepted).conn.phase)
    ensures Advances(conn.phase, OnDeviceSelected(id, conn, relayId, deviceId).conn.phase)
  {
  }

  lemma RelayHandlersAdvance(id: nat, conn: Conn, relaySideId: nat, state: ConnectionState, size: nat)
    ensures Advances(conn.phase, OnNotify(id, conn, relaySideId, state).conn.phase)
    ensures Advances(conn.phase, OnDestroy(conn).conn.phase)
    ensures Advances(conn.phase, OnPushBack(id, conn, size).conn.phase)
  {
    hide Upload, Account;
    UploadKeepsPhase(id, conn.(relaySideId := relaySideId, phase := HttpNormalReady), conn.header, 0);
    UploadKeepsPhase(id, conn, [], size);
  }

  /** The runtime assertion fails exactly when a connection that waits to be established hears anything else. */
  lemma NotifyCrashesExactly(id: nat, conn: Conn, relaySideId: nat, state: ConnectionState)
    ensures OnNotify(id, conn, relaySideId, state).crash <==> WaitsForEstablish(conn.phase) && !state.Established?
  {
  }

  lemma {:induction false} ChunksJoin(data: Bytes)
    ensures Joined(Chunks(data)) == data
    ensures forall i :: 0 <= i < |Chunks(data)| ==> 0 < |Chunks(data)[i]| <= MAX_PAYLOAD_SIZE
    decreases |data|
  {
    if data == [] {
    } else if |data| <= MAX_PAYLOAD_SIZE {
      assert [data][1..] == [];
    } else {
      var rest := data[MAX_PAYLOAD_SIZE..];
      ChunksJoin(rest);
      var c := [data[..MAX_PAYLOAD_SIZE]] + Chunks(rest);
      assert c[1..] == Chunks(rest);
      assert data == data[..MAX_PAYLOAD_SIZE] + rest;
    }
  }

  function Joined(chunks: seq<Bytes>): Bytes {
    if chunks == [] then [] else chunks[0] + Joined(chunks[1..])
  }

  // ---------------------------------------------------------------------------------------
  // The relay
  // ---------------------------------------------------------------------------------------

  const PORT_RANGE: nat := 65536

  /** A relayed connection. `raw` is the union of the target's port, in its low 16 bits, and the id that
      the device gave the connection; `port` and `reported` record what was last meant to be in it. */
  datatype Context = Context(raw: nat, port: nat, reported: Option<nat>, proxySideId: nat, deviceId: nat)

  function WritePort(raw: nat, port: nat): nat
    requires port < PORT_RANGE
  {
    raw - raw % PORT_RANGE + port
  }

  function ReadPort(raw: nat): nat {
    raw % PORT_RANGE
  }

  datatype ToDeviceCtrl = CreateConnection(id: nat, address: nat, port: nat) | DnsQuery(id: nat, hostname: string)

  datatype ToDeviceData =
    | PostData(deviceSideId: nat, id: nat, payload: Bytes)
    | TransferState(deviceSideId: nat, id: nat, read: nat, written: nat)

  /** An address counts only if its first byte is not zero; otherwise it is None here. */
  datatype DnsResp = DnsResp(id: nat, ipv4: Option<nat>, ipv6: Option<nat>)

  datatype FromDevice = State(deviceSideId: nat, id: nat, state: ConnectionState) | PostBack(id: nat, payload: Bytes)

  /** A device as the relay knows it, and the links to and from it; `queries` and `created` are what
      the device has been asked and has not answered yet, and has been told to create. */
  datatype Device = Device(
    deleted: bool, ctrlIn: seq<ToDeviceCtrl>, ctrlOut: seq<DnsResp>, dataIn: seq<ToDeviceData>,
      dataOut: seq<FromDevice>,
    queries: set<nat>, created: set<nat>)

  const NEW_DEVICE := Device(false, [], [], [], [], {}, {})

  datatype Relay = Relay(contexts: map<nat, Context>, nextId: nat, capacity: nat, devices: map<nat, Device>)

  /** `GetDeviceById`: a device marked as deleted is not found, and the mark is never taken off. */
  predicate HasDevice(r: Relay, d: nat) {
    d in r.devices && !r.devices[d].deleted
  }

  datatype RelayEffect = RelayEffect(relay: Relay, out: seq<ToProxy>, ok: bool)

  function PostCtrl(r: Relay, d: nat, m: ToDeviceCtrl): Relay
    requires d in r.devices
  {
    r.(devices := r.devices[d := r.devices[d].(ctrlIn := r.devices[d].ctrlIn + [m])])
  }

  function PostDataLink(r: Relay, d: nat, m: ToDeviceData): Relay
    requires d in r.devices
  {
    r.(devices := r.devices[d := r.devices[d].(dataIn := r.devices[d].dataIn + [m])])
  }

  /** `OnProxyCreateConnection`; `garbage` is what a fresh context's union happens to hold. */
  function OnCreate(r: Relay, m: ToRelay, garbage: nat): RelayEffect
    requires m.Create?
  {
    if !HasDevice(r, m.deviceId) then RelayEffect(r, [Destroy(m.proxySideId)], true)
    else if |r.contexts| >= r.capacity then RelayEffect(r, [Notify(m.proxySideId, 0, Closed)], true)
    else
      var port := m.target.port % PORT_RANGE;
      var id := r.nextId;
      var c := Context(WritePort(garbage, port), port, None, m.proxySideId, m.deviceId);
      var r1 := r.(nextId := id + 1,
                   contexts := r.contexts[id := c]);
      if m.target.address.Some? then
        RelayEffect(PostCtrl(r1, m.deviceId, CreateConnection(id, m.target.address.value, port)), [], true)
      else if m.target.hostname != "" then
        RelayEffect(PostCtrl(r1, m.deviceId, DnsQuery(id, m.target.hostname)), [], true)
      else RelayEffect(r1, [], false)
  }

  /** `OnProxyPushData`. */
  function OnPush(r: Relay, m: ToRelay): Relay
    requires m.Push?
  {
    if m.relaySideId !in r.contexts then r else
      var c := r.contexts[m.relaySideId];
      if c.proxySideId != m.proxySideId || !HasDevice(r, c.deviceId) then r
      else PostDataLink(r, c.deviceId, PostData(c.raw, m.relaySideId, m.payload))
  }

  /** `OnProxyNotifyConnectionState`. */
  function OnTransferred(r: Relay, m: ToRelay): Relay
    requires m.Transferred?
  {
    if m.relaySideId !in r.contexts then r else
      var c := r.contexts[m.relaySideId];
      if !HasDevice(r, c.deviceId) then r
      else PostDataLink(r, c.deviceId, TransferState(c.raw, m.relaySideId, m.dumped, m.uploaded))
  }

  /** `OnProxyDestroyConnection`: the device that is told to destroy the connection, and the id it is told. */
  function OnProxyDestroy(r: Relay, x: nat): Option<(nat, nat)> {
    if x !in r.contexts || !HasDevice(r, r.contexts[x].deviceId) then None
    else Some((r.contexts[x].deviceId, r.contexts[x].raw))
  }

  /** `OnTerminalDnsQueryResp` from device `d`: IPv6 is preferred. */
  function OnDnsResp(r: Relay, d: nat, m: DnsResp): Relay
    requires d in r.devices
  {
    if m.id !in r.contexts then r else
      var port := ReadPort(r.contexts[m.id].raw);
      if m.ipv6.Some? then PostCtrl(r, d, CreateConnection(m.id, m.ipv6.value, port))
      else if m.ipv4.Some? then PostCtrl(r, d, CreateConnection(m.id, m.ipv4.value, port))
      else r
  }

  /** `OnTerminalTargetConnectionUpdate` and `OnTerminalPostData`. */
  function OnDeviceData(r: Relay, m: FromDevice): RelayEffect {
    if m.id !in r.contexts then RelayEffect(r, [], true) else
      var c := r.contexts[m.id];
      match m
      case State(deviceSideId, id, state) =>
        if state.Unspecified? then RelayEffect(r, [], false)
        else
          var c' := if state.Established? then c.(raw := deviceSideId, reported := Some(deviceSideId)) else c;
          RelayEffect(r.(contexts := r.contexts[id := c']), [Notify(c.proxySideId, id, state)], true)
      case PostBack(id, payload) => RelayEffect(r, [PushBack(c.proxySideId, payload)], true)
  }

  /** A message of a device is refused exactly if it is a report on a known connection that names no state. */
  lemma RefusedExactly(r: Relay, m: FromDevice)
    ensures OnDeviceData(r, m).ok <==> !(m.id in r.contexts && m.State? && m.state.Unspecified?)
  {
  }

  /** What is in the union is what was last meant to be in it. */
  predicate UnionSound(c: Context) {
    if c.reported.None? then ReadPort(c.raw) == c.port else c.raw == c.reported.value
  }

  lemma PortReadBack(raw: nat, port: nat)
    requires port < PORT_RANGE
    ensures ReadPort(WritePort(raw, port)) == port
  {
    var k := raw / PORT_RANGE;
    assert WritePort(raw, port) == k * PORT_RANGE + port;
  }
}
