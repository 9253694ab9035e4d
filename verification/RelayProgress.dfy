/** The protocol gets somewhere: in each branch, for each kind of target, there is a run in which a client that
    comes is connected to what it asked for. */
module RelayProgress {
  import opened Lists
  import opened RelayNetwork
  import opened RelayRuns
  import opened RelayInvariant
  import opened RelayCrashes

  function Greeted(b: Branch): Phase {
    match b
    case HttpRaw => HttpRawChallenge
    case HttpNormal => HttpNormalChallenge
    case _ => S5WaitForAuthInfo
  }

  function Accounting(b: Branch): Phase {
    match b
    case HttpRaw => HttpRawWaitForAccountExchange
    case HttpNormal => HttpNormalWaitForAccountExchange
    case _ => S5WaitForAccountExchange
  }

  function Selecting(b: Branch): Phase {
    match b
    case HttpRaw => HttpRawWaitForDeviceSelection
    case HttpNormal => HttpNormalWaitForDeviceSelection
    case _ => S5WaitForDeviceSelection
  }

  function Establishing(b: Branch): Phase {
    match b
    case HttpRaw => HttpRawWaitForConnectionEstablish
    case HttpNormal => HttpNormalWaitForConnectionEstablish
    case _ => S5WaitForConnectionEstablish
  }

  function Connected(b: Branch): Phase {
    match b
    case HttpRaw => HttpRawReady
    case HttpNormal => HttpNormalReady
    case _ => S5ConnectionReady
  }

  // ---------------------------------------------------------------------------------------
  // The client logs in
  // ---------------------------------------------------------------------------------------

  /** `t` is `s` with one more client connection, which is `c`. */
  ghost predicate Joined(s: Net, t: Net, c: Conn) {
    t == s.(conns := s.conns[s.nextConn := c], nextConn := s.nextConn + 1, sent := t.sent, log := t.log)
  }

  lemma Joins(s: Net)
    requires !s.crashed
    ensures Joined(s, Step(s, Connect), NEW_CONN)
  {
  }

  /** A handler that sends nothing. */
  lemma JoinedOn(s: Net, t: Net, c: Conn, e: Effect)
    requires Joined(s, t, c) && !e.crash && e.out == []
    ensures s.nextConn in t.conns && t.conns[s.nextConn] == c && Joined(s, Apply(t, s.nextConn, e), e.conn)
  {
    hide PostedBy;
    assert s.conns[s.nextConn := c][s.nextConn := e.conn] == s.conns[s.nextConn := e.conn];
    assert t.toRelay + [] == t.toRelay;
  }

  lemma JoinedSends(s: Net, t: Net, c: Conn, e: Effect, m: ToRelay)
    requires Joined(s, t, c) && !e.crash && e.out == [m] && s.toRelay == []
    ensures s.nextConn in t.conns && t.conns[s.nextConn] == c
    ensures Joined(s.(toRelay := [m]), Apply(t, s.nextConn, e), e.conn)
  {
    hide PostedBy;
    assert s.conns[s.nextConn := c][s.nextConn := e.conn] == s.conns[s.nextConn := e.conn];
    assert [] + [m] == [m];
  }

  /** The connection before it is selected a device: it remembers the target in the HTTP branches, and the
      header in that of plain requests. */
  function Applicant(b: Branch, phase: Phase, target: Target, header: Bytes): Conn {
    NEW_CONN.(phase := phase, target := if b.Socks5? then NEW_CONN.target else target,
              header := if b.HttpNormal? then header else [])
  }

  function LogsIn(id: nat, b: Branch, target: Target, header: Bytes): seq<Event> {
    [Connect] + ([Client(id, Greeting(b, target))] + ([Client(id, Credentials(header))] + ([Auth(id, true)] + [])))
  }

  lemma LoggedIn(s: Net, b: Branch, target: Target, header: Bytes)
    requires !s.crashed && !b.Undecided?
    ensures Joined(s, Run(s, LogsIn(s.nextConn, b, target, header)), Applicant(b, Selecting(b), target, header))
  {
    hide Joined, Apply, Run;
    var id := s.nextConn;
    var c1, c2 := Applicant(b, Greeted(b), target, []), Applicant(b, Accounting(b), target, header);
    var s1 := Step(s, Connect);
    Joins(s);
    Present(s, s1, NEW_CONN);
    var s2 := Step(s1, Client(id, Greeting(b, target)));
    JoinedOn(s, s1, NEW_CONN, OnInput(id, NEW_CONN, Greeting(b, target)));
    Present(s, s2, c1);
    var s3 := Step(s2, Client(id, Credentials(header)));
    JoinedOn(s, s2, c1, OnInput(id, c1, Credentials(header)));
    Present(s, s3, c2);
    var s4 := Step(s3, Auth(id, true));
    JoinedOn(s, s3, c2, OnAuthResult(id, c2, true));
    hide Step;
    RunNone(s4);
    RunOne(s3, Auth(id, true), []);
    RunOne(s2, Client(id, Credentials(header)), [Auth(id, true)] + []);
    RunOne(s1, Client(id, Greeting(b, target)), [Client(id, Credentials(header))] + ([Auth(id, true)] + []));
    RunOne(s, Connect,
           [Client(id, Greeting(b, target))] + ([Client(id, Credentials(header))] + ([Auth(id, true)] + [])));
  }

  lemma Present(s: Net, t: Net, c: Conn)
    requires Joined(s, t, c) && !s.crashed
    ensures !t.crashed && s.nextConn in t.conns && t.conns[s.nextConn] == c
  {
  }

  /** The connection once its create request is sent. */
  function Candidate(b: Branch, d: nat, target: Target, header: Bytes): Conn {
    Applicant(b, Establishing(b), target, header).(relayId := RELAY_ID, deviceId := d)
  }

  function Asks(id: nat, b: Branch, d: nat, target: Target): seq<Event> {
    [Select(id, RELAY_ID, d)] + if b.Socks5? then [Client(id, ConnectRequest(target))] else []
  }

  lemma HasAsked(s: Net, t: Net, b: Branch, d: nat, target: Target, header: Bytes)
    requires !s.crashed && !b.Undecided? && d != 0 && s.toRelay == []
    requires Joined(s, t, Applicant(b, Selecting(b), target, header))
    ensures Joined(s.(toRelay := [Create(d, s.nextConn, target)]), Run(t, Asks(s.nextConn, b, d, target)),
                   Candidate(b, d, target, header))
  {
    hide Joined, Apply, Run;
    var id := s.nextConn;
    var c := Applicant(b, Selecting(b), target, header);
    var e := OnDeviceSelected(id, c, RELAY_ID, d);
    var u := Step(t, Select(id, RELAY_ID, d));
    Present(s, t, c);
    if b.Socks5? {
      JoinedOn(s, t, c, e);
      Present(s, u, e.conn);
      JoinedSends(s, u, e.conn, OnInput(id, e.conn, ConnectRequest(target)), Create(d, id, target));
      RunNone(Step(u, Client(id, ConnectRequest(target))));
      RunOne(u, Client(id, ConnectRequest(target)), []);
      assert [Client(id, ConnectRequest(target))] + [] == [Client(id, ConnectRequest(target))];
      RunOne(t, Select(id, RELAY_ID, d), [Client(id, ConnectRequest(target))]);
    } else {
      JoinedSends(s, t, c, e, Create(d, id, target));
      RunNone(u);
      RunOne(t, Select(id, RELAY_ID, d), []);
    }
  }

  /** A SOCKS5 connection for which no device was found is not opened: until it is gone it stays as it is, and
      the relay is not asked. */
  lemma NoDeviceIsIgnored(s: Net, id: nat, relayId: nat)
    requires id in s.conns && s.conns[id].phase.S5WaitForDeviceSelection?
    ensures Step(s, Select(id, relayId, 0)).conns == s.conns && Step(s, Select(id, relayId, 0)).toRelay == s.toRelay
  {
    assert s.conns[id := s.conns[id]] == s.conns;
    assert s.toRelay + [] == s.toRelay;
  }

  // ---------------------------------------------------------------------------------------
  // Relay and device
  // ---------------------------------------------------------------------------------------

  /** The connection `c` of client `id` waits, and `v` is all that is under way for it. */
  ghost predicate Underway(t: Net, id: nat, c: Conn, d: nat, v: Device, x: nat, port: nat, told: seq<ToProxy>) {
    && !t.crashed && t.linkUp && t.toRelay == [] && t.toProxy == told
    && id in t.conns && t.conns[id] == c && d in t.relay.devices && t.relay.devices[d] == v
    && x in t.relay.contexts && t.relay.contexts[x].proxySideId == id && t.relay.contexts[x].deviceId == d
    && ReadPort(t.relay.contexts[x].raw) == port
  }

  /** Nothing is under way, the device is there, and the relay has room. */
  ghost predicate Idle(s: Net, d: nat) {
    && !s.crashed && s.linkUp && s.toRelay == [] && s.toProxy == []
    && HasDevice(s.relay, d) && |s.relay.contexts| < s.relay.capacity
    && s.relay.devices[d].ctrlIn == [] && s.relay.devices[d].ctrlOut == [] && s.relay.devices[d].dataOut == []
  }

  function OrderFor(x: nat, target: Target): ToDeviceCtrl {
    if target.address.Some? then CreateConnection(x, target.address.value, target.port % PORT_RANGE)
    else DnsQuery(x, target.hostname)
  }

  lemma CreateIsTaken(s: Net, t: Net, c: Conn, d: nat, target: Target, garbage: nat)
    requires Idle(s, d) && (target.address.Some? || target.hostname != "")
    requires Joined(s.(toRelay := [Create(d, s.nextConn, target)]), t, c)
    ensures var x := s.relay.nextId;
      Underway(Step(t, RelayReceives(garbage)), s.nextConn, c, d, s.relay.devices[d].(ctrlIn := [OrderFor(x, target)]),
               x, target.port % PORT_RANGE, [])
  {
    PortReadBack(garbage, target.port % PORT_RANGE);
    hide WritePort, ReadPort;
    assert [] + [OrderFor(s.relay.nextId, target)] == [OrderFor(s.relay.nextId, target)];
  }

  lemma OrderIsTaken(t: Net, id: nat, c: Conn, d: nat, v: Device, x: nat, port: nat)
    requires Underway(t, id, c, d, v, x, port, []) && |v.ctrlIn| == 1 && v.ctrlIn[0].id == x
    ensures Underway(Step(t, DeviceReceives(d)), id, c, d, Taken(v), x, port, [])
    ensures Taken(v).ctrlIn == [] && Taken(v).ctrlOut == v.ctrlOut && Taken(v).dataOut == v.dataOut
    ensures v.ctrlIn[0].CreateConnection? ==> x in Taken(v).created
    ensures v.ctrlIn[0].DnsQuery? ==> x in Taken(v).queries
  {
    hide ReadPort;
  }

  lemma NameIsResolved(t: Net, id: nat, c: Conn, d: nat, v: Device, x: nat, port: nat, answer: DnsResp)
    requires Underway(t, id, c, d, v, x, port, []) && x in v.queries && v.ctrlOut == [] && answer.id == x
    ensures Underway(Step(t, DeviceResolves(d, answer)), id, c, d,
                     v.(queries := v.queries - {x}, ctrlOut := [answer]), x, port, [])
  {
    hide ReadPort;
    assert [] + [answer] == [answer];
  }

  lemma AnswerIsTaken(t: Net, id: nat, c: Conn, d: nat, v: Device, x: nat, port: nat, address: nat)
    requires Underway(t, id, c, d, v, x, port, []) && v.ctrlIn == [] && |v.ctrlOut| == 1 && v.ctrlOut[0].id == x
    requires var a := v.ctrlOut[0]; a.ipv6 == Some(address) || (a.ipv6.None? && a.ipv4 == Some(address))
    ensures Underway(Step(t, RelayReceivesCtrl(d)), id, c, d,
                     v.(ctrlOut := [], ctrlIn := [CreateConnection(x, address, port)]), x, port, [])
  {
    hide ReadPort;
    assert [] + [CreateConnection(x, address, port)] == [CreateConnection(x, address, port)];
  }

  lemma ReportIsSent(t: Net, id: nat, c: Conn, d: nat, v: Device, x: nat, port: nat, m: FromDevice)
    requires Underway(t, id, c, d, v, x, port, []) && x in v.created && v.dataOut == [] && m.id == x
    ensures Underway(Step(t, DeviceReports(d, m)), id, c, d, v.(dataOut := [m]), x, port, [])
  {
    hide ReadPort;
    assert [] + [m] == [m];
  }

  /** The relay has heard of the device's connection, and the client is about to. */
  ghost predicate Reported(t: Net, id: nat, c: Conn, d: nat, x: nat, k: nat) {
    && !t.crashed && t.linkUp && t.toProxy == [Notify(id, x, Established)] && id in t.conns && t.conns[id] == c
    && IsConnectedBy(t.relay, id, d, x, k)
  }

  /** Relayed connection `x` belongs to the client, and device `d` has established it under the id `k`. */
  predicate IsConnectedBy(r: Relay, id: nat, d: nat, x: nat, k: nat) {
    && x in r.contexts && r.contexts[x].proxySideId == id && r.contexts[x].deviceId == d
    && r.contexts[x].reported == Some(k) && d in r.devices && x in r.devices[d].created
  }

  lemma ReportIsPassed(t: Net, id: nat, c: Conn, d: nat, v: Device, x: nat, port: nat, k: nat)
    requires Underway(t, id, c, d, v, x, port, []) && v.dataOut == [State(k, x, Established)] && x in v.created
    ensures Reported(Step(t, RelayReceivesData(d)), id, c, d, x, k)
  {
    hide ReadPort;
    assert [] + [Notify(id, x, Established)] == [Notify(id, x, Established)];
  }

  lemma UploadStays(id: nat, conn: Conn, data: Bytes)
    ensures var e := Upload(id, conn, data);
      !e.crash && e.conn.phase == conn.phase && e.conn.relaySideId == conn.relaySideId
        && e.conn.deviceId == conn.deviceId
  {
  }

  lemma NoticeIsHandled(id: nat, c: Conn, x: nat)
    requires WaitsForEstablish(c.phase)
    ensures var e := OnNotify(id, c, x, Established);
      && !e.crash && IsReady(e.conn.phase) && BranchOf(e.conn.phase) == BranchOf(c.phase)
      && e.conn.relaySideId == x && e.conn.deviceId == c.deviceId
  {
    hide Upload;
    UploadStays(id, c.(relaySideId := x, phase := HttpNormalReady), c.header);
  }

  lemma NoticeArrives(t: Net, id: nat, c: Conn, d: nat, x: nat, k: nat, size: nat)
    requires Reported(t, id, c, d, x, k) && WaitsForEstablish(c.phase)
    ensures var u := Step(t, ProxyReceives(size));
      && !u.crashed && u.toProxy == [] && u.relay == t.relay && id in u.conns && IsReady(u.conns[id].phase)
      && BranchOf(u.conns[id].phase) == BranchOf(c.phase) && u.conns[id].relaySideId == x
      && u.conns[id].deviceId == c.deviceId
  {
    NoticeIsHandled(id, c, x);
    hide OnNotify, IsReady, BranchOf, PostedBy;
  }

  // ---------------------------------------------------------------------------------------
  // From beginning to end
  // ---------------------------------------------------------------------------------------

  /** The device is told, resolves the name if it was told one, connects and reports; the client hears of it. */
  function Opens(d: nat, named: bool, answer: DnsResp, x: nat, k: nat): seq<Event> {
    (if named then [DeviceReceives(d)] + ([DeviceResolves(d, answer)] + [RelayReceivesCtrl(d)]) else [])
    + ([DeviceReceives(d)] + ([DeviceReports(d, State(k, x, Established))]
    + ([RelayReceivesData(d)] + ([ProxyReceives(0)] + []))))
  }

  /** Whatever client comes, whatever its branch: once it has given credentials, was accepted, got a device and
      asked for a target, and the device reports that it is connected, the client is ready; a name first
      has to be resolved to some address. */
  function Connects(s: Net, b: Branch, target: Target, header: Bytes, d: nat, answer: DnsResp, k: nat): seq<Event> {
    LogsIn(s.nextConn, b, target, header) + (Asks(s.nextConn, b, d, target)
    + ([RelayReceives(0)] + Opens(d, target.address.None?, answer, s.relay.nextId, k)))
  }

  lemma NameIsFound(t: Net, id: nat, c: Conn, d: nat, v: Device, x: nat, port: nat, answer: DnsResp)
    requires Underway(t, id, c, d, v, x, port, []) && |v.ctrlIn| == 1 && v.ctrlIn[0].id == x && v.ctrlIn[0].DnsQuery?
    requires v.ctrlOut == [] && v.dataOut == [] && answer.id == x && (answer.ipv4.Some? || answer.ipv6.Some?)
    ensures var u := Run(t, [DeviceReceives(d)] + ([DeviceResolves(d, answer)] + [RelayReceivesCtrl(d)]));
      exists w: Device ::
        && Underway(u, id, c, d, w, x, port, []) && w.ctrlOut == [] && w.dataOut == []
        && |w.ctrlIn| == 1 && w.ctrlIn[0].id == x && w.ctrlIn[0].CreateConnection?
  {
    hide Underway, Step, Run;
    var address := if answer.ipv6.Some? then answer.ipv6.value else answer.ipv4.value;
    OrderIsTaken(t, id, c, d, v, x, port);
    var v1, t1 := Taken(v), Step(t, DeviceReceives(d));
    NameIsResolved(t1, id, c, d, v1, x, port, answer);
    var v2, t2 := v1.(queries := v1.queries - {x}, ctrlOut := [answer]), Step(t1, DeviceResolves(d, answer));
    AnswerIsTaken(t2, id, c, d, v2, x, port, address);
    RunNone(Step(t2, RelayReceivesCtrl(d)));
    RunOne(t2, RelayReceivesCtrl(d), []);
    assert [RelayReceivesCtrl(d)] + [] == [RelayReceivesCtrl(d)];
    RunOne(t1, DeviceResolves(d, answer), [RelayReceivesCtrl(d)]);
    RunOne(t, DeviceReceives(d), [DeviceResolves(d, answer)] + [RelayReceivesCtrl(d)]);
    assert v2.(ctrlOut := [], ctrlIn := [CreateConnection(x, address, port)]).dataOut == [];
  }

  lemma DeviceConnects(t: Net, id: nat, c: Conn, d: nat, v: Device, x: nat, port: nat, k: nat)
    requires Underway(t, id, c, d, v, x, port, []) && v.dataOut == [] && WaitsForEstablish(c.phase)
    requires |v.ctrlIn| == 1 && v.ctrlIn[0].id == x && v.ctrlIn[0].CreateConnection?
    ensures var m := State(k, x, Established);
      var rest := [RelayReceivesData(d)] + ([ProxyReceives(0)] + []);
      var u := Run(t, [DeviceReceives(d)] + ([DeviceReports(d, m)] + rest));
      && !u.crashed && id in u.conns && IsReady(u.conns[id].phase)
      && BranchOf(u.conns[id].phase) == BranchOf(c.phase) && u.conns[id].relaySideId == x
      && u.conns[id].deviceId == c.deviceId && IsConnectedBy(u.relay, id, d, x, k)
  {
    hide Underway, Step, Run, Reported, IsReady, BranchOf, WaitsForEstablish;
    var m := State(k, x, Established);
    OrderIsTaken(t, id, c, d, v, x, port);
    var v1, t1 := Taken(v), Step(t, DeviceReceives(d));
    ReportIsSent(t1, id, c, d, v1, x, port, m);
    var v2, t2 := v1.(dataOut := [m]), Step(t1, DeviceReports(d, m));
    ReportIsPassed(t2, id, c, d, v2, x, port, k);
    var t3 := Step(t2, RelayReceivesData(d));
    NoticeArrives(t3, id, c, d, x, k, 0);
    IsPassedOn(t3, id, c, d, x, k);
    RunNone(Step(t3, ProxyReceives(0)));
    RunOne(t3, ProxyReceives(0), []);
    RunOne(t2, RelayReceivesData(d), [ProxyReceives(0)] + []);
    RunOne(t1, DeviceReports(d, m), [RelayReceivesData(d)] + ([ProxyReceives(0)] + []));
    RunOne(t, DeviceReceives(d), [DeviceReports(d, m)] + ([RelayReceivesData(d)] + ([ProxyReceives(0)] + [])));
  }

  lemma IsPassedOn(t: Net, id: nat, c: Conn, d: nat, x: nat, k: nat)
    requires Reported(t, id, c, d, x, k)
    ensures IsConnectedBy(t.relay, id, d, x, k)
  {
  }

  lemma DeviceOpens(t: Net, id: nat, c: Conn, d: nat, v: Device, x: nat, target: Target, answer: DnsResp, k: nat)
    requires Underway(t, id, c, d, v, x, target.port % PORT_RANGE, []) && WaitsForEstablish(c.phase)
    requires v.ctrlIn == [OrderFor(x, target)] && v.ctrlOut == [] && v.dataOut == []
    requires target.address.Some? || (answer.id == x && (answer.ipv4.Some? || answer.ipv6.Some?))
    ensures var u := Run(t, Opens(d, target.address.None?, answer, x, k));
      && !u.crashed && id in u.conns && IsReady(u.conns[id].phase)
      && BranchOf(u.conns[id].phase) == BranchOf(c.phase) && u.conns[id].relaySideId == x
      && u.conns[id].deviceId == c.deviceId && IsConnectedBy(u.relay, id, d, x, k)
  {
    hide Underway, Step, Run, IsReady, BranchOf, WaitsForEstablish;
    var port := target.port % PORT_RANGE;
    var rest := [DeviceReceives(d)] + ([DeviceReports(d, State(k, x, Established))]
                + ([RelayReceivesData(d)] + ([ProxyReceives(0)] + [])));
    if target.address.Some? {
      assert [] + rest == rest;
      DeviceConnects(t, id, c, d, v, x, port, k);
    } else {
      var name := [DeviceReceives(d)] + ([DeviceResolves(d, answer)] + [RelayReceivesCtrl(d)]);
      NameIsFound(t, id, c, d, v, x, port, answer);
      var w: Device :| Underway(Run(t, name), id, c, d, w, x, port, []) && w.ctrlOut == [] && w.dataOut == []
        && |w.ctrlIn| == 1 && w.ctrlIn[0].id == x && w.ctrlIn[0].CreateConnection?;
      RunAppend(t, name, rest);
      DeviceConnects(Run(t, name), id, c, d, w, x, port, k);
    }
  }

  /** In each of the three branches, for each kind of target, whatever the device calls the connection: from any
      state in which nothing is under way, and the relay has room, a client that comes gets ready, for the
      device that was selected and for the relayed connection that this device has established. */
  lemma ClientIsConnected(s: Net, b: Branch, target: Target, header: Bytes, d: nat, answer: DnsResp, k: nat)
    requires Idle(s, d) && d != 0 && !b.Undecided?
    requires target.address.Some? || (target.hostname != "" && answer.id == s.relay.nextId
             && (answer.ipv4.Some? || answer.ipv6.Some?))
    ensures var u, id := Run(s, Connects(s, b, target, header, d, answer, k)), s.nextConn;
      && !u.crashed && id in u.conns && IsReady(u.conns[id].phase) && BranchOf(u.conns[id].phase) == b
      && u.conns[id].deviceId == d && IsConnectedBy(u.relay, id, d, u.conns[id].relaySideId, k)
  {
    hide Idle, Underway, Run, LogsIn, Asks, Opens, IsConnectedBy, OrderFor, Candidate, IsReady, BranchOf;
    hide WaitsForEstablish;
    IdleParts(s, d);
    var id, x, c := s.nextConn, s.relay.nextId, Candidate(b, d, target, header);
    var first := LogsIn(id, b, target, header) + (Asks(id, b, d, target) + [RelayReceives(0)]);
    var opens := Opens(d, target.address.None?, answer, x, k);
    CandidateWaits(b, d, target, header);
    CreateArrives(s, b, target, header, d);
    DeviceOpens(Run(s, first), id, c, d, s.relay.devices[d].(ctrlIn := [OrderFor(x, target)]), x, target, answer, k);
    RunAppend(s, first, opens);
    assert LogsIn(id, b, target, header) + (Asks(id, b, d, target) + ([RelayReceives(0)] + opens)) == first + opens;
  }

  lemma CandidateWaits(b: Branch, d: nat, target: Target, header: Bytes)
    requires !b.Undecided?
    ensures var c := Candidate(b, d, target, header);
      WaitsForEstablish(c.phase) && BranchOf(c.phase) == b && c.deviceId == d
  {
  }

  lemma CreateArrives(s: Net, b: Branch, target: Target, header: Bytes, d: nat)
    requires Idle(s, d) && d in s.relay.devices && d != 0 && !b.Undecided?
    requires target.address.Some? || target.hostname != ""
    ensures var id, x := s.nextConn, s.relay.nextId;
      var first := LogsIn(id, b, target, header) + (Asks(id, b, d, target) + [RelayReceives(0)]);
      Underway(Run(s, first), id, Candidate(b, d, target, header), d,
               s.relay.devices[d].(ctrlIn := [OrderFor(x, target)]), x, target.port % PORT_RANGE, [])
  {
    hide Idle, Joined, Underway, Step, Run, LogsIn, Asks, OrderFor, Candidate, Applicant;
    IdleParts(s, d);
    var id := s.nextConn;
    var login, asks := LogsIn(id, b, target, header), Asks(id, b, d, target);
    var s1 := Run(s, login);
    LoggedIn(s, b, target, header);
    var s2 := Run(s1, asks);
    HasAsked(s, s1, b, d, target, header);
    CreateIsTaken(s, s2, Candidate(b, d, target, header), d, target, 0);
    RunNone(Step(s2, RelayReceives(0)));
    RunOne(s2, RelayReceives(0), []);
    assert [RelayReceives(0)] + [] == [RelayReceives(0)];
    RunAppend(s1, asks, [RelayReceives(0)]);
    RunAppend(s, login, asks + [RelayReceives(0)]);
  }

  lemma IdleParts(s: Net, d: nat)
    requires Idle(s, d)
    ensures !s.crashed && s.toRelay == [] && d in s.relay.devices
    ensures s.relay.devices[d].ctrlOut == [] && s.relay.devices[d].dataOut == []
  {
  }
}
