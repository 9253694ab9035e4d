/** The handlers of the access server and of the relay as they are written: methods that change a
    connection, a context or a link in place. Each is proved against its step of the protocol. */
module RelayServices {
  import opened Lists
  import opened RelayNetwork

  /** Where an account's devices are to be. */
  datatype Region = Region(country: nat, state: nat, city: nat)

  /** The access server's link to the relay. */
  class RelayLink {
    var sent: seq<ToRelay>

    constructor ()
      ensures sent == []
    {
      sent := [];
    }

    method PostMessage(m: ToRelay)
      modifies this
      ensures sent == old(sent) + [m]
    {
      sent := sent + [m];
    }

    /** The relay takes the first message. */
    method TakeMessage() returns (m: ToRelay)
      requires sent != []
      modifies this
      ensures [m] + sent == old(sent)
    {
      m := sent[0];
      sent := sent[1..];
    }
  }

  /** A client's connection on the access server. */
  class ClientConnection {
    const id: nat
    var phase: Phase
    var relayId: nat
    var deviceId: nat
    var relaySideId: nat
    var target: Target
    var header: Bytes
    var uploaded: nat
    var dumped: nat
    var reportedUpload: nat
    var reportedDumped: nat
    var failed: bool  // a runtime assertion

    constructor (id: nat)
      ensures this.id == id && View() == NEW_CONN && !failed
    {
      this.id := id;
      phase, relayId, deviceId, relaySideId, target, header := Unknown, 0, 0, 0, Target(None, "", 0), [];
      uploaded, dumped, reportedUpload, reportedDumped, failed := 0, 0, 0, 0, false;
    }

    function View(): Conn
      reads this
    {
      Conn(phase, relayId, deviceId, relaySideId, target, header, uploaded, dumped, reportedUpload, reportedDumped)
    }

    /** This connection and the link after a handler. */
    twostate predicate Did(link: RelayLink, e: Effect)
      reads this, link
    {
      && failed == (old(failed) || e.crash)
      && View() == e.conn && link.sent == old(link.sent) + e.out
    }

    method TryUpdateDataTransferSize(link: RelayLink, uploadSize: nat, dumpedSize: nat)
      modifies this, link
      ensures Did(link, Account(id, old(View()), uploadSize, dumpedSize))
    {
      uploaded, dumped := uploaded + uploadSize, dumped + dumpedSize;
      if uploaded - reportedUpload < OVERFLOW_SIZE && dumped - reportedDumped < OVERFLOW_SIZE { return; }
      if relayId != RELAY_ID { return; }
      link.PostMessage(Transferred(id, relaySideId, uploaded, dumped));
      reportedUpload, reportedDumped := uploaded, dumped;
    }

    /** The loop of the three upload handlers. */
    method PostChunks(link: RelayLink, data: Bytes)
      modifies link
      ensures link.sent == old(link.sent) + Pushes(id, relaySideId, Chunks(data))
    {
      var pos := 0;
      while pos < |data|
        invariant 0 <= pos <= |data|
        invariant link.sent + Pushes(id, relaySideId, Chunks(data[pos..])) ==
          old(link.sent) + Pushes(id, relaySideId, Chunks(data))
      {
        var size := if |data| - pos < MAX_PAYLOAD_SIZE then |data| - pos else MAX_PAYLOAD_SIZE;
        ghost var before := link.sent;
        link.PostMessage(Push(id, relaySideId, data[pos..pos + size]));
        NextChunk(id, relaySideId, data[pos..], size);
        assert data[pos..][..size] == data[pos..pos + size] && data[pos..][size..] == data[pos + size..];
        pos := pos + size;
        PostedFirst(before, Push(id, relaySideId, data[pos - size..pos]), Pushes(id, relaySideId, Chunks(data[pos..])));
      }
    }

    method UploadData(link: RelayLink, data: Bytes)
      modifies this, link
      ensures Did(link, Upload(id, old(View()), data))
    {
      if relayId != RELAY_ID { return; }
      PostChunks(link, data);
      TryUpdateDataTransferSize(link, |data|, 0);
    }

    method OpenRemoteConnection(link: RelayLink, target: Target)
      modifies this, link
      ensures Did(link, OpenRemote(id, old(View()), target))
    {
      if relayId != RELAY_ID { return; }
      link.PostMessage(Create(deviceId, id, target));
      if phase.S5WaitForConnectionRequest? {
        phase := S5WaitForConnectionEstablish;
      } else if phase.HttpRawWaitForDeviceSelection? {
        phase := HttpRawWaitForConnectionEstablish;
      } else if phase.HttpNormalWaitForDeviceSelection? {
        phase := HttpNormalWaitForConnectionEstablish;
      }
    }

    /** `OnData`, by phase; the input is what the parsers of the branch have made of the data. */
    method OnData(link: RelayLink, input: Input)
      modifies this, link
      ensures Did(link, OnInput(id, old(View()), input))
    {
      hide Upload, OpenRemote;
      match phase
      case Unknown =>
        if !input.Greeting? { return; }
        if input.branch.Socks5? {
          phase := S5WaitForAuthInfo;
        } else if input.branch.HttpRaw? {
          target, phase := input.target, HttpRawChallenge;
        } else if input.branch.HttpNormal? {
          target, phase := input.target, HttpNormalChallenge;
        }
      case S5WaitForAuthInfo => if input.Credentials? { phase := S5WaitForAccountExchange; }
      case HttpRawChallenge => if input.Credentials? { phase := HttpRawWaitForAccountExchange; }
      case HttpNormalChallenge =>
        if input.Credentials? { header, phase := input.header, HttpNormalWaitForAccountExchange; }
      case S5WaitForConnectionRequest => if input.ConnectRequest? { OpenRemoteConnection(link, input.target); }
      case S5ConnectionReady => if input.Data? { UploadData(link, input.bytes); }
      case HttpRawReady => if input.Data? { UploadData(link, input.bytes); }
      case HttpNormalReady => if input.Data? { UploadData(link, input.bytes); }
      case _ =>
    }

    method OnPeerClose(link: RelayLink)
      modifies this
      ensures Did(link, RelayNetwork.OnPeerClose(old(View())))
    {
      if phase.S5ConnectionReady? { phase := S5WaitForConnectionClosed; }
    }

    /** What comes back goes to the client as it is; the size of the whole message is accounted for. */
    method OnRelaySidePushData(link: RelayLink, messageSize: nat)
      modifies this, link
      ensures Did(link, OnPushBack(id, old(View()), messageSize))
    {
      TryUpdateDataTransferSize(link, 0, messageSize);
    }

    /** The result is `None` for credentials that were not accepted. A device of the account's region is
        asked for exactly if the connection is authorised by it. */
    method OnAuthResult(link: RelayLink, result: Option<Region>) returns (request: Option<(nat, Region)>)
      modifies this
      ensures Did(link, RelayNetwork.OnAuthResult(id, old(View()), result.Some?))
      ensures request.Some? <==> Authorised(id) in RelayNetwork.OnAuthResult(id, old(View()), result.Some?).entries
      ensures request.Some? ==> result.Some? && request == Some((id, result.value))
    {
      request := None;
      if result.Some? {
        match phase
        case S5WaitForAccountExchange =>
          request := Some((id, result.value));
          phase := S5WaitForDeviceSelection;
        case HttpRawWaitForAccountExchange =>
          request := Some((id, result.value));
          phase := HttpRawWaitForDeviceSelection;
        case HttpNormalWaitForAccountExchange =>
          request := Some((id, result.value));
          phase := HttpNormalWaitForDeviceSelection;
        case _ =>
      }
    }

    method OnDeviceSelected(link: RelayLink, relay: nat, device: nat)
      modifies this, link
      ensures Did(link, RelayNetwork.OnDeviceSelected(id, old(View()), relay, device))
    {
      match phase
      case S5WaitForDeviceSelection =>
        if device == 0 { return; }
        relayId, deviceId := relay, device;
        phase := S5WaitForConnectionRequest;
      case HttpRawWaitForDeviceSelection =>
        relayId, deviceId := relay, device;
        OpenRemoteConnection(link, target);
      case HttpNormalWaitForDeviceSelection =>
        relayId, deviceId := relay, device;
        OpenRemoteConnection(link, target);
      case _ =>
    }

    method OnRelaySideConnectionStateChange(link: RelayLink, relaySide: nat, state: ConnectionState)
      modifies this, link
      ensures Did(link, OnNotify(id, old(View()), relaySide, state))
    {
      hide Upload;
      match phase
      case S5WaitForConnectionEstablish =>
        if !state.Established? { failed := true; return; }
        relaySideId := relaySide;
        phase := S5ConnectionReady;
      case S5ConnectionReady =>
        if state.Closed? { phase := S5WaitForConnectionClosed; }
      case HttpRawWaitForConnectionEstablish =>
        if !state.Established? { failed := true; return; }
        relaySideId := relaySide;
        phase := HttpRawReady;
      case HttpNormalWaitForConnectionEstablish =>
        if !state.Established? { failed := true; return; }
        relaySideId := relaySide;
        phase := HttpNormalReady;
        UploadKeepsUp(id, View(), header);
        UploadData(link, header);
      case _ =>
    }

    method OnDestroyConnection(link: RelayLink)
      modifies this
      ensures Did(link, OnDestroy(old(View())))
    {
      match phase
      case S5WaitForConnectionEstablish => phase := S5WaitForConnectionClosed;
      case S5ConnectionReady => phase := S5WaitForConnectionClosed;
      case HttpRawWaitForConnectionEstablish => phase := HttpRawClosed;
      case HttpRawReady => phase := HttpRawClosed;
      case HttpNormalWaitForConnectionEstablish => phase := HttpNormalClosed;
      case HttpNormalReady => phase := HttpNormalClosed;
      case _ =>
    }
  }

  lemma FirstChunk(rest: Bytes, size: nat)
    requires rest != [] && size == if |rest| < MAX_PAYLOAD_SIZE then |rest| else MAX_PAYLOAD_SIZE
    ensures Chunks(rest) == [rest[..size]] + Chunks(rest[size..])
  {
    if |rest| <= MAX_PAYLOAD_SIZE {
      assert rest[..size] == rest && rest[size..] == [];
    }
  }

  lemma FirstPush(id: nat, relaySideId: nat, chunk: Bytes, more: seq<Bytes>)
    ensures Pushes(id, relaySideId, [chunk] + more) == [Push(id, relaySideId, chunk)] + Pushes(id, relaySideId, more)
  {
    var all := [chunk] + more;
    assert all[0] == chunk && forall i :: 0 < i < |all| ==> all[i] == more[i - 1];
  }

  lemma NextChunk(id: nat, relaySideId: nat, rest: Bytes, size: nat)
    requires rest != [] && size == if |rest| < MAX_PAYLOAD_SIZE then |rest| else MAX_PAYLOAD_SIZE
    ensures Pushes(id, relaySideId, Chunks(rest)) ==
      [Push(id, relaySideId, rest[..size])] + Pushes(id, relaySideId, Chunks(rest[size..]))
  {
    hide Chunks, Pushes;
    FirstChunk(rest, size);
    FirstPush(id, relaySideId, rest[..size], Chunks(rest[size..]));
  }

  lemma PostedFirst(before: seq<ToRelay>, m: ToRelay, more: seq<ToRelay>)
    ensures before + ([m] + more) == (before + [m]) + more
  {
  }

  lemma UploadKeepsUp(id: nat, conn: Conn, data: Bytes)
    ensures !Upload(id, conn, data).crash
  {
  }

  /** The relay: contexts in an indexed pool that never gives an id twice, and its devices. */
  class DeviceRelayService {
    const capacity: nat
    var contexts: map<nat, Context>
    var nextId: nat
    var devices: map<nat, Device>

    constructor (capacity: nat)
      ensures this.capacity == capacity && View() == Relay(map[], 1, capacity, map[])
    {
      this.capacity := capacity;
      contexts, nextId, devices := map[], 1, map[];
    }

    function View(): Relay
      reads this
    {
      Relay(contexts, nextId, capacity, devices)
    }

    function GetDeviceById(d: nat): (r: Option<nat>)
      reads this
      ensures r == if HasDevice(View(), d) then Some(d) else None
    {
      if d in devices && !devices[d].deleted then Some(d) else None
    }

    method PostToCtrl(d: nat, m: ToDeviceCtrl)
      requires d in devices
      modifies this`devices
      ensures View() == PostCtrl(old(View()), d, m)
    {
      devices := devices[d := devices[d].(ctrlIn := devices[d].ctrlIn + [m])];
    }

    method PostToData(d: nat, m: ToDeviceData)
      requires d in devices
      modifies this`devices
      ensures View() == PostDataLink(old(View()), d, m)
    {
      devices := devices[d := devices[d].(dataIn := devices[d].dataIn + [m])];
    }

    method OnProxyCreateConnection(m: ToRelay, garbage: nat) returns (out: seq<ToProxy>, ok: bool)
      requires m.Create?
      modifies this
      ensures OnCreate(old(View()), m, garbage) == RelayEffect(View(), out, ok)
    {
      hide WritePort;
      if GetDeviceById(m.deviceId).None? { return [Destroy(m.proxySideId)], true; }
      if |contexts| >= capacity { return [Notify(m.proxySideId, 0, Closed)], true; }
      var id := nextId;
      var port := m.target.port % PORT_RANGE;
      nextId := nextId + 1;
      contexts := contexts[id := Context(WritePort(garbage, port), port, None, m.proxySideId, m.deviceId)];
      if m.target.address.Some? {
        PostToCtrl(m.deviceId, CreateConnection(id, m.target.address.value, port));
      } else if m.target.hostname != "" {
        PostToCtrl(m.deviceId, DnsQuery(id, m.target.hostname));
      } else {
        return [], false;
      }
      return [], true;
    }

    method OnProxyPushData(m: ToRelay)
      requires m.Push?
      modifies this`devices
      ensures View() == OnPush(old(View()), m)
    {
      if m.relaySideId !in contexts { return; }
      var c := contexts[m.relaySideId];
      if c.proxySideId != m.proxySideId { return; }
      if GetDeviceById(c.deviceId).None? { return; }
      PostToData(c.deviceId, PostData(c.raw, m.relaySideId, m.payload));
    }

    method OnProxyNotifyConnectionState(m: ToRelay)
      requires m.Transferred?
      modifies this`devices
      ensures View() == OnTransferred(old(View()), m)
    {
      if m.relaySideId !in contexts { return; }
      var c := contexts[m.relaySideId];
      if GetDeviceById(c.deviceId).None? { return; }
      PostToData(c.deviceId, TransferState(c.raw, m.relaySideId, m.dumped, m.uploaded));
    }

    method OnTerminalDnsQueryResp(d: nat, m: DnsResp)
      requires d in devices
      modifies this`devices
      ensures View() == OnDnsResp(old(View()), d, m)
    {
      if m.id !in contexts { return; }
      if m.ipv6.Some? {
        PostToCtrl(d, CreateConnection(m.id, m.ipv6.value, ReadPort(contexts[m.id].raw)));
      } else if m.ipv4.Some? {
        PostToCtrl(d, CreateConnection(m.id, m.ipv4.value, ReadPort(contexts[m.id].raw)));
      }
    }

    method OnTerminalData(m: FromDevice) returns (out: seq<ToProxy>, ok: bool)
      modifies this`contexts
      ensures OnDeviceData(old(View()), m) == RelayEffect(View(), out, ok)
    {
      if m.id !in contexts { return [], true; }
      var c := contexts[m.id];
      if m.PostBack? { return [PushBack(c.proxySideId, m.payload)], true; }
      if m.state.Unspecified? { return [], false; }
      if m.state.Established? {
        contexts := contexts[m.id := c.(raw := m.deviceSideId, reported := Some(m.deviceSideId))];
      }
      assert contexts[m.id := contexts[m.id]] == contexts;
      return [Notify(c.proxySideId, m.id, m.state)], true;
    }
  }
}
