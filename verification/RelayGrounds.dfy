/** Where things come from: whatever the network does for a client or tells a device goes back to
    something that this very client, its service or this very device has said in the run. */
module RelayGrounds {
  import opened Lists
  import opened RelayNetwork
  import opened RelayRuns
  import opened RelayInvariant
  import opened RelayReturns

  // ---------------------------------------------------------------------------------------
  // What client connections rest on
  // ---------------------------------------------------------------------------------------

  /** Client connection `id` asked for the target: by its request, or with its first data. */
  predicate Asked(said: set<Event>, id: nat, target: Target) {
    || Client(id, ConnectRequest(target)) in said
    || Client(id, Greeting(HttpRaw, target)) in said
    || Client(id, Greeting(HttpNormal, target)) in said
  }

  /** How far a phase is: greeted, credentials given, accepted, device chosen, and beyond. */
  function Came(p: Phase): nat {
    match p
    case Unknown => 0
    case S5WaitForAuthInfo | HttpRawChallenge | HttpNormalChallenge => 1
    case S5WaitForAccountExchange | HttpRawWaitForAccountExchange | HttpNormalWaitForAccountExchange => 2
    case S5WaitForDeviceSelection | HttpRawWaitForDeviceSelection | HttpNormalWaitForDeviceSelection => 3
    case _ => 4
  }

  ghost predicate Greeted(said: set<Event>, id: nat, c: Conn) {
    var b := BranchOf(c.phase);
    if b.Socks5? then exists t :: Client(id, Greeting(b, t)) in said else Client(id, Greeting(b, c.target)) in said
  }

  ghost predicate GaveCredentials(said: set<Event>, id: nat, c: Conn) {
    if BranchOf(c.phase).HttpNormal? then Client(id, Credentials(c.header)) in said
    else exists h :: Client(id, Credentials(h)) in said
  }

  /** All that was said before the connection could be where it is. */
  ghost predicate ConnGrounded(said: set<Event>, id: nat, c: Conn) {
    && (Came(c.phase) >= 1 ==> Greeted(said, id, c))
    && (Came(c.phase) >= 2 ==> GaveCredentials(said, id, c))
    && (Came(c.phase) >= 3 ==> Auth(id, true) in said)
    && (Came(c.phase) >= 4 ==> Select(id, c.relayId, c.deviceId) in said)
  }

  /** The device of a create request was selected for the client, and the client asked for the target. */
  predicate AskGrounded(said: set<Event>, m: ToRelay) {
    m.Create? ==> Select(m.proxySideId, RELAY_ID, m.deviceId) in said && Asked(said, m.proxySideId, m.target)
  }

  ghost predicate AsksGrounded(said: set<Event>, q: seq<ToRelay>) {
    forall i :: 0 <= i < |q| ==> AskGrounded(said, q[i])
  }

  ghost predicate EffectGrounded(said: set<Event>, id: nat, e: Effect) {
    ConnGrounded(said, id, e.conn) && AsksGrounded(said, e.out)
  }

  /** Two states of a connection that rest on the same. */
  predicate SameGrounds(c: Conn, d: Conn) {
    c.phase == d.phase && c.relayId == d.relayId && c.deviceId == d.deviceId && c.target == d.target
    && c.header == d.header
  }

  lemma NoAsks(said: set<Event>, q: seq<ToRelay>)
    requires forall i :: 0 <= i < |q| ==> !q[i].Create?
    ensures AsksGrounded(said, q)
  {
  }

  lemma UploadAsksNothing(id: nat, conn: Conn, data: Bytes, size: nat)
    ensures SameGrounds(conn, Upload(id, conn, data).conn) && SameGrounds(conn, OnPushBack(id, conn, size).conn)
    ensures forall m :: m in Upload(id, conn, data).out || m in OnPushBack(id, conn, size).out ==> !m.Create?
  {
    hide Chunks;
  }

  lemma UploadGrounded(said: set<Event>, id: nat, conn: Conn, data: Bytes, size: nat)
    requires ConnGrounded(said, id, conn)
    ensures EffectGrounded(said, id, Upload(id, conn, data)) && EffectGrounded(said, id, OnPushBack(id, conn, size))
  {
    UploadAsksNothing(id, conn, data, size);
    hide Upload, OnPushBack;
    NoAsks(said, Upload(id, conn, data).out);
    NoAsks(said, OnPushBack(id, conn, size).out);
    hide AsksGrounded;
  }

  lemma OpenGrounded(said: set<Event>, id: nat, conn: Conn, target: Target)
    requires ConnGrounded(said, id, conn) && Came(conn.phase) >= 3
    requires Select(id, conn.relayId, conn.deviceId) in said && Asked(said, id, target)
    ensures EffectGrounded(said, id, OpenRemote(id, conn, target))
  {
    hide Greeted, GaveCredentials;
    GreetedSame(said, id, conn, OpenRemote(id, conn, target).conn);
  }

  /** Within a branch, greeting and credentials stay what they were. */
  lemma GreetedSame(said: set<Event>, id: nat, c: Conn, d: Conn)
    requires BranchOf(c.phase) == BranchOf(d.phase) && c.target == d.target && c.header == d.header
    ensures Greeted(said, id, c) ==> Greeted(said, id, d)
    ensures GaveCredentials(said, id, c) ==> GaveCredentials(said, id, d)
  {
    hide BranchOf;
  }

  lemma EarlyInputGrounded(said: set<Event>, id: nat, conn: Conn, input: Input)
    requires ConnGrounded(said, id, conn) && Client(id, input) in said && Came(conn.phase) <= 1
    ensures EffectGrounded(said, id, OnInput(id, conn, input))
  {
    if input.Greeting? { assert Client(id, Greeting(input.branch, input.target)) in said; }
    if input.Credentials? { assert Client(id, Credentials(input.header)) in said; }
  }

  lemma InputGrounded(said: set<Event>, id: nat, conn: Conn, input: Input)
    requires ConnGrounded(said, id, conn) && Client(id, input) in said
    ensures EffectGrounded(said, id, OnInput(id, conn, input))
  {
    if Came(conn.phase) <= 1 {
      EarlyInputGrounded(said, id, conn, input);
    } else {
      if input.Data? { UploadGrounded(said, id, conn, input.bytes, 0); }
      if input.ConnectRequest? && conn.phase.S5WaitForConnectionRequest? {
        OpenGrounded(said, id, conn, input.target);
      }
      hide Upload, OpenRemote, ConnGrounded;
    }
  }

  lemma AuthGrounded(said: set<Event>, id: nat, conn: Conn, accepted: bool)
    requires ConnGrounded(said, id, conn) && Auth(id, accepted) in said
    ensures EffectGrounded(said, id, OnAuthResult(id, conn, accepted))
  {
    GreetedSame(said, id, conn, OnAuthResult(id, conn, accepted).conn);
    hide Greeted, GaveCredentials;
  }

  lemma SelectGrounded(said: set<Event>, id: nat, conn: Conn, relayId: nat, deviceId: nat)
    requires ConnGrounded(said, id, conn) && Select(id, relayId, deviceId) in said
    ensures EffectGrounded(said, id, OnDeviceSelected(id, conn, relayId, deviceId))
  {
    var c := conn.(relayId := relayId, deviceId := deviceId);
    GreetedSame(said, id, conn, c);
    if conn.phase.S5WaitForDeviceSelection? {
      GreetedSame(said, id, conn, c.(phase := S5WaitForConnectionRequest));
      hide Greeted, GaveCredentials;
    } else if conn.phase.HttpRawWaitForDeviceSelection? || conn.phase.HttpNormalWaitForDeviceSelection? {
      assert Greeted(said, id, c);
      hide Greeted, GaveCredentials;
      OpenGrounded(said, id, c, conn.target);
      hide OpenRemote;
    }
  }

  lemma CloseGrounded(said: set<Event>, id: nat, conn: Conn)
    requires ConnGrounded(said, id, conn)
    ensures EffectGrounded(said, id, RelayNetwork.OnPeerClose(conn)) && EffectGrounded(said, id, OnDestroy(conn))
  {
    GreetedSame(said, id, conn, RelayNetwork.OnPeerClose(conn).conn);
    GreetedSame(said, id, conn, OnDestroy(conn).conn);
    hide Greeted, GaveCredentials;
  }

  lemma NoticeGrounded(said: set<Event>, id: nat, conn: Conn, r: nat, state: ConnectionState)
    requires ConnGrounded(said, id, conn)
    ensures EffectGrounded(said, id, OnNotify(id, conn, r, state))
  {
    var c := conn.(relaySideId := r, phase := HttpNormalReady);
    if conn.phase.HttpNormalWaitForConnectionEstablish? {
      GreetedSame(said, id, conn, c);
      hide Greeted, GaveCredentials;
      UploadGrounded(said, id, c, c.header, 0);
      hide Upload, ConnGrounded;
    } else {
      hide Upload;
      GreetedSame(said, id, conn, OnNotify(id, conn, r, state).conn);
      hide Greeted, GaveCredentials;
    }
  }

  // ---------------------------------------------------------------------------------------
  // What the relay and the devices rest on
  // ---------------------------------------------------------------------------------------

  /** Client connection `id` asked for the target, which has this port, and device `d` was selected for it. */
  predicate Wanted(said: set<Event>, id: nat, d: nat, port: nat, target: Target) {
    Select(id, RELAY_ID, d) in said && Asked(said, id, target) && port == target.port % PORT_RANGE
  }

  /** A target without an address has been asked for. */
  ghost predicate Nameless(said: set<Event>, id: nat, d: nat, port: nat, hostname: string) {
    exists t: Target :: Wanted(said, id, d, port, t) && t.address.None? && t.hostname == hostname && hostname != ""
  }

  /** The device gave this address for the name: its IPv6 address if it gave one, its IPv4 address otherwise. */
  ghost predicate GaveAddress(said: set<Event>, d: nat, x: nat, address: nat) {
    exists a: DnsResp :: DeviceResolves(d, a) in said && a.id == x
      && (a.ipv6 == Some(address) || (a.ipv6.None? && a.ipv4 == Some(address)))
  }

  /** The client asked for this address, or for a name that the device resolved to it. */
  ghost predicate Located(said: set<Event>, x: nat, id: nat, d: nat, port: nat, address: nat) {
    || (exists t: Target :: Wanted(said, id, d, port, t) && t.address == Some(address))
    || ((exists hostname :: Nameless(said, id, d, port, hostname)) && GaveAddress(said, d, x, address))
  }

  ghost predicate ContextGrounded(said: set<Event>, x: nat, c: Context) {
    && (exists t: Target :: Wanted(said, c.proxySideId, c.deviceId, c.port, t))
    && (c.reported.Some? ==> DeviceReports(c.deviceId, State(c.reported.value, x, Established)) in said)
  }

  /** What a device is told goes back to what the client of this relayed connection asked for. */
  ghost predicate CtrlGrounded(said: set<Event>, d: nat, contexts: map<nat, Context>, m: ToDeviceCtrl) {
    m.id in contexts && contexts[m.id].deviceId == d &&
      var c := contexts[m.id];
      match m
      case CreateConnection(x, address, port) =>
        port == c.port && Located(said, x, c.proxySideId, d, port, address)
      case DnsQuery(_, hostname) => Nameless(said, c.proxySideId, d, c.port, hostname)
  }

  /** A name is being resolved for relayed connection `x`. */
  ghost predicate Resolving(said: set<Event>, d: nat, contexts: map<nat, Context>, x: nat) {
    x in contexts && contexts[x].deviceId == d
    && exists hostname :: Nameless(said, contexts[x].proxySideId, d, contexts[x].port, hostname)
  }

  ghost predicate DeviceGrounded(said: set<Event>, d: nat, contexts: map<nat, Context>, v: Device) {
    && (forall i :: 0 <= i < |v.ctrlIn| ==> CtrlGrounded(said, d, contexts, v.ctrlIn[i]))
    && (forall x :: x in v.queries ==> Resolving(said, d, contexts, x))
    && (forall i :: 0 <= i < |v.ctrlOut| ==>
          Resolving(said, d, contexts, v.ctrlOut[i].id) && DeviceResolves(d, v.ctrlOut[i]) in said)
    && (forall i :: 0 <= i < |v.dataOut| ==> DeviceReports(d, v.dataOut[i]) in said)
    && (forall i :: 0 <= i < |v.dataIn| ==>
          DeviceReports(d, State(v.dataIn[i].deviceSideId, v.dataIn[i].id, Established)) in said)
  }

  ghost predicate RelayGrounded(said: set<Event>, r: Relay) {
    && (forall x :: x in r.contexts ==> ContextGrounded(said, x, r.contexts[x]))
    && (forall d :: d in r.devices ==> DeviceGrounded(said, d, r.contexts, r.devices[d]))
  }

  ghost predicate Grounded(said: set<Event>, s: Net) {
    && (forall id :: id in s.conns ==> ConnGrounded(said, id, s.conns[id]))
    && AsksGrounded(said, s.toRelay) && RelayGrounded(said, s.relay)
  }

  /** Contexts are added, or report something; whose they are and the port stay as they are. */
  ghost predicate Keeps(a: map<nat, Context>, b: map<nat, Context>) {
    forall x :: x in a ==>
      && x in b && b[x].proxySideId == a[x].proxySideId && b[x].deviceId == a[x].deviceId && b[x].port == a[x].port
  }

  lemma KeepsDevice(said: set<Event>, d: nat, a: map<nat, Context>, b: map<nat, Context>, v: Device)
    requires DeviceGrounded(said, d, a, v) && Keeps(a, b)
    ensures DeviceGrounded(said, d, b, v)
  {
    hide Nameless, Located;
  }

  lemma DeviceReplaced(said: set<Event>, s: Net, d: nat, w: Device)
    requires Grounded(said, s) && DeviceGrounded(said, d, s.relay.contexts, w)
    ensures Grounded(said, WithDevice(s, d, w))
  {
    hide DeviceGrounded, ContextGrounded, ConnGrounded, AsksGrounded;
  }

  lemma ContextChanged(said: set<Event>, s: Net, x: nat, c: Context, next: nat)
    requires Grounded(said, s) && ContextGrounded(said, x, c) && Keeps(s.relay.contexts, s.relay.contexts[x := c])
    ensures Grounded(said, s.(relay := s.relay.(contexts := s.relay.contexts[x := c], nextId := next)))
  {
    var b := s.relay.contexts[x := c];
    forall d | d in s.relay.devices ensures DeviceGrounded(said, d, b, s.relay.devices[d]) {
      KeepsDevice(said, d, s.relay.contexts, b, s.relay.devices[d]);
    }
    hide DeviceGrounded, ContextGrounded, ConnGrounded, AsksGrounded, Keeps;
  }

  /** Nothing rests on what is on its way to the access server. */
  lemma LinkMayChange(said: set<Event>, s: Net, q: seq<ToProxy>, up: bool)
    requires Grounded(said, s)
    ensures Grounded(said, s.(toProxy := q, linkUp := up))
  {
    hide RelayGrounded, ConnGrounded, AsksGrounded;
  }

  lemma DeviceIsGrounded(said: set<Event>, s: Net, d: nat)
    requires Grounded(said, s) && d in s.relay.devices
    ensures DeviceGrounded(said, d, s.relay.contexts, s.relay.devices[d])
  {
    hide DeviceGrounded, ContextGrounded, ConnGrounded, AsksGrounded;
  }

  // ---------------------------------------------------------------------------------------
  // Devices
  // ---------------------------------------------------------------------------------------

  lemma TakesOrder(said: set<Event>, d: nat, contexts: map<nat, Context>, v: Device)
    requires DeviceGrounded(said, d, contexts, v) && v.ctrlIn != []
    ensures DeviceGrounded(said, d, contexts, Taken(v))
  {
    hide Nameless, Located;
    if v.ctrlIn[0].DnsQuery? {
      assert Resolving(said, d, contexts, v.ctrlIn[0].id);
    }
    hide CtrlGrounded, Resolving;
  }

  lemma GivesAnswer(said: set<Event>, d: nat, contexts: map<nat, Context>, v: Device, answer: DnsResp)
    requires DeviceGrounded(said, d, contexts, v) && answer.id in v.queries && DeviceResolves(d, answer) in said
    ensures DeviceGrounded(said, d, contexts, Answered(v, answer))
  {
    hide CtrlGrounded, Resolving;
  }

  lemma SendsReport(said: set<Event>, d: nat, contexts: map<nat, Context>, v: Device, m: FromDevice)
    requires DeviceGrounded(said, d, contexts, v) && DeviceReports(d, m) in said
    ensures DeviceGrounded(said, d, contexts, v.(dataOut := v.dataOut + [m]))
  {
    hide CtrlGrounded, Resolving;
  }

  lemma NewGrounded(said: set<Event>, d: nat, contexts: map<nat, Context>)
    ensures DeviceGrounded(said, d, contexts, NEW_DEVICE)
  {
  }

  lemma DeletedGrounded(said: set<Event>, d: nat, contexts: map<nat, Context>, v: Device)
    requires DeviceGrounded(said, d, contexts, v)
    ensures DeviceGrounded(said, d, contexts, v.(deleted := true))
  {
    hide CtrlGrounded, Resolving;
  }

  lemma DeviceStepGrounded(said: set<Event>, s: Net, e: Event)
    requires Grounded(said, s) && e in said
    requires e.DeviceJoins? || e.DeviceDeleted? || e.DeviceReceives? || e.DeviceResolves? || e.DeviceReports?
    ensures Grounded(said, Step(s, e))
  {
    hide Grounded, WithDevice, DeviceGrounded;
    if e.d in s.relay.devices { DeviceIsGrounded(said, s, e.d); }
    match e
    case DeviceJoins(d) =>
      NewGrounded(said, d, s.relay.contexts);
      if d !in s.relay.devices { DeviceReplaced(said, s, d, NEW_DEVICE); }
    case DeviceDeleted(d) =>
      if d in s.relay.devices {
        DeletedGrounded(said, d, s.relay.contexts, s.relay.devices[d]);
        DeviceReplaced(said, s, d, s.relay.devices[d].(deleted := true));
      }
    case DeviceReceives(d) =>
      if d in s.relay.devices && s.relay.devices[d].ctrlIn != [] {
        TakesOrder(said, d, s.relay.contexts, s.relay.devices[d]);
        DeviceReplaced(said, s, d, Taken(s.relay.devices[d]));
      }
    case DeviceResolves(d, answer) =>
      if d in s.relay.devices && answer.id in s.relay.devices[d].queries {
        GivesAnswer(said, d, s.relay.contexts, s.relay.devices[d], answer);
        DeviceReplaced(said, s, d, Answered(s.relay.devices[d], answer));
      }
    case DeviceReports(d, m) =>
      if d in s.relay.devices && m.id in s.relay.devices[d].created {
        SendsReport(said, d, s.relay.contexts, s.relay.devices[d], m);
        DeviceReplaced(said, s, d, s.relay.devices[d].(dataOut := s.relay.devices[d].dataOut + [m]));
      }
  }

  // ---------------------------------------------------------------------------------------
  // The relay
  // ---------------------------------------------------------------------------------------

  /** The device is told the address that it gave, and the port that the client asked for. */
  lemma AnswerGrounded(said: set<Event>, d: nat, contexts: map<nat, Context>, v: Device)
    requires DeviceGrounded(said, d, contexts, v) && v.ctrlOut != []
    ensures DeviceGrounded(said, d, contexts, v.(ctrlOut := v.ctrlOut[1..]))
    ensures var a := v.ctrlOut[0];
      && a.id in contexts
      && (forall address ::
            a.ipv6 == Some(address) || (a.ipv6.None? && a.ipv4 == Some(address)) ==>
              CtrlGrounded(said, d, contexts, CreateConnection(a.id, address, contexts[a.id].port)))
  {
    hide Nameless, Wanted;
    var a := v.ctrlOut[0];
    assert Resolving(said, d, contexts, a.id) && DeviceResolves(d, a) in said;
  }

  lemma OneMoreOrder(said: set<Event>, d: nat, contexts: map<nat, Context>, v: Device, m: ToDeviceCtrl)
    requires DeviceGrounded(said, d, contexts, v) && CtrlGrounded(said, d, contexts, m)
    ensures DeviceGrounded(said, d, contexts, v.(ctrlIn := v.ctrlIn + [m]))
  {
    hide CtrlGrounded, Resolving;
  }

  lemma PortKnown(s: Net, d: nat)
    requires Inv(s) && d in s.relay.devices && s.relay.devices[d].ctrlOut != []
    ensures var x := s.relay.devices[d].ctrlOut[0].id;
      x in s.relay.contexts && ReadPort(s.relay.contexts[x].raw) == s.relay.contexts[x].port
  {
    DeviceFacts(s, d);
    CtrlFacts(d, s.relay.devices[d], s.relay.contexts);
    hide StagesAgree, PostsInOrder, ConnsAgree, MessagesAgree, NoticesAgree, CreatesAgree, DevicesAgree, SentAgrees;
    hide ReadPort, DeviceAgrees;
  }

  /** What the device is told for its answer: the IPv6 address if there is one, else the IPv4 address. */
  function ToldFor(a: DnsResp, port: nat): seq<ToDeviceCtrl> {
    if a.ipv6.Some? then [CreateConnection(a.id, a.ipv6.value, port)]
    else if a.ipv4.Some? then [CreateConnection(a.id, a.ipv4.value, port)] else []
  }

  lemma AnswerIsTold(s: Net, d: nat)
    requires Inv(s) && d in s.relay.devices && s.relay.devices[d].ctrlOut != []
    ensures var v := s.relay.devices[d];
      && v.ctrlOut[0].id in s.relay.contexts
      && Step(s, RelayReceivesCtrl(d)) ==
           WithDevice(s, d, Resolved(v, ToldFor(v.ctrlOut[0], s.relay.contexts[v.ctrlOut[0].id].port)))
  {
    hide Inv, ReadPort, Step, WithDevice, Resolved;
    PortKnown(s, d);
    var a := s.relay.devices[d].ctrlOut[0];
    ResolvedIsStep(s, d, ToldFor(a, s.relay.contexts[a.id].port));
  }

  lemma ToldGrounded(said: set<Event>, d: nat, contexts: map<nat, Context>, v: Device)
    requires DeviceGrounded(said, d, contexts, v) && v.ctrlOut != []
    ensures var a := v.ctrlOut[0];
      a.id in contexts && DeviceGrounded(said, d, contexts, Resolved(v, ToldFor(a, contexts[a.id].port)))
  {
    AnswerGrounded(said, d, contexts, v);
    hide DeviceGrounded, CtrlGrounded;
    var w, a := v.(ctrlOut := v.ctrlOut[1..]), v.ctrlOut[0];
    var told := ToldFor(a, contexts[a.id].port);
    if told == [] {
      assert v.ctrlIn + told == v.ctrlIn;
    } else {
      OneMoreOrder(said, d, contexts, w, told[0]);
    }
  }

  lemma ResolvingGrounded(said: set<Event>, s: Net, d: nat)
    requires Inv(s) && Grounded(said, s)
    ensures Grounded(said, Step(s, RelayReceivesCtrl(d)))
  {
    hide Inv, Grounded, WithDevice, DeviceGrounded, OnDnsResp, Resolved, ToldFor;
    if d in s.relay.devices && s.relay.devices[d].ctrlOut != [] {
      var v := s.relay.devices[d];
      DeviceIsGrounded(said, s, d);
      ToldGrounded(said, d, s.relay.contexts, v);
      AnswerIsTold(s, d);
      DeviceReplaced(said, s, d, Resolved(v, ToldFor(v.ctrlOut[0], s.relay.contexts[v.ctrlOut[0].id].port)));
    }
  }

  /** A report: the id that the device gave is remembered. */
  lemma ReportGrounded(said: set<Event>, s: Net, m: FromDevice)
    requires Grounded(said, s) && m.id in s.relay.contexts
    requires DeviceReports(s.relay.contexts[m.id].deviceId, m) in said
    ensures Grounded(said, s.(relay := OnDeviceData(s.relay, m).relay))
  {
    var x, c := m.id, s.relay.contexts[m.id];
    ContextIsGrounded(said, s, x);
    if m.State? && m.state.Established? {
      var c' := c.(raw := m.deviceSideId, reported := Some(m.deviceSideId));
      assert ContextGrounded(said, x, c') by {
        assert m == State(m.deviceSideId, x, Established);
        hide Grounded, Wanted;
      }
      hide Grounded, ContextGrounded;
      ContextChanged(said, s, x, c', s.relay.nextId);
    }
    assert s.relay.contexts[x := c] == s.relay.contexts;
  }

  lemma PassingIsStep(s: Net, d: nat)
    requires d in s.relay.devices && s.relay.devices[d].dataOut != []
    ensures var v := s.relay.devices[d];
      var t := WithDevice(s, d, v.(dataOut := v.dataOut[1..]));
      var f := OnDeviceData(t.relay, v.dataOut[0]);
      Step(s, RelayReceivesData(d)) == t.(relay := f.relay, toProxy := t.toProxy + f.out)
  {
    hide OnDeviceData, WithDevice;
  }

  lemma PassingGrounded(said: set<Event>, s: Net, d: nat)
    requires Inv(s) && Grounded(said, s) && d in s.relay.devices && s.relay.devices[d].dataOut != []
    ensures Grounded(said, Step(s, RelayReceivesData(d)))
  {
    hide Inv, Grounded, DeviceGrounded, OnDeviceData, Step;
    var v := s.relay.devices[d];
    HeadIsOwn(s, d);
    DeviceIsGrounded(said, s, d);
    HeadTaken(said, d, s.relay.contexts, v);
    var w := v.(dataOut := v.dataOut[1..]);
    DeviceReplaced(said, s, d, w);
    PassingIsStep(s, d);
    ReportGrounded(said, WithDevice(s, d, w), v.dataOut[0]);
    LinkMayChange(said, WithDevice(s, d, w).(relay := OnDeviceData(WithDevice(s, d, w).relay, v.dataOut[0]).relay),
                  Step(s, RelayReceivesData(d)).toProxy, s.linkUp);
  }

  lemma HeadTaken(said: set<Event>, d: nat, contexts: map<nat, Context>, v: Device)
    requires DeviceGrounded(said, d, contexts, v) && v.dataOut != []
    ensures DeviceReports(d, v.dataOut[0]) in said
    ensures DeviceGrounded(said, d, contexts, v.(dataOut := v.dataOut[1..]))
  {
    hide CtrlGrounded, Resolving;
  }

  // ---------------------------------------------------------------------------------------
  // Messages from the access server
  // ---------------------------------------------------------------------------------------

  lemma OneMoreMessage(said: set<Event>, d: nat, contexts: map<nat, Context>, v: Device, m: ToDeviceData)
    requires DeviceGrounded(said, d, contexts, v)
    requires DeviceReports(d, State(m.deviceSideId, m.id, Established)) in said
    ensures DeviceGrounded(said, d, contexts, v.(dataIn := v.dataIn + [m]))
  {
    hide CtrlGrounded, Resolving;
  }

  lemma ContextIsGrounded(said: set<Event>, s: Net, x: nat)
    requires Grounded(said, s) && x in s.relay.contexts
    ensures ContextGrounded(said, x, s.relay.contexts[x])
  {
    hide DeviceGrounded, ContextGrounded, ConnGrounded, AsksGrounded;
  }

  /** A message that reads the union finds in it what the device reported. */
  lemma ReadGrounded(said: set<Event>, s: Net)
    requires Inv(s) && Grounded(said, s) && s.toRelay != [] && !s.toRelay[0].Create?
    requires s.toRelay[0].relaySideId in s.relay.contexts
    ensures var x := s.toRelay[0].relaySideId;
      var c := s.relay.contexts[x];
      DeviceReports(c.deviceId, State(c.raw, x, Established)) in said
  {
    hide Inv, Grounded, MessagesAgree, CreatesAgree;
    var x := s.toRelay[0].relaySideId;
    HeadFacts(s);
    NonZero(s, x);
    ContextIsGrounded(said, s, x);
  }

  lemma MessageTaken(said: set<Event>, s: Net)
    requires Grounded(said, s) && s.toRelay != []
    ensures Grounded(said, s.(toRelay := s.toRelay[1..])) && AskGrounded(said, s.toRelay[0])
  {
    hide RelayGrounded, ConnGrounded, AskGrounded;
  }

  lemma DataGrounded(said: set<Event>, s: Net)
    requires Inv(s) && Grounded(said, s) && s.toRelay != []
    ensures var m, t := s.toRelay[0], s.(toRelay := s.toRelay[1..]);
      && (m.Push? ==> Grounded(said, t.(relay := OnPush(s.relay, m))))
      && (m.Transferred? ==> Grounded(said, t.(relay := OnTransferred(s.relay, m))))
  {
    hide Inv, Grounded, DeviceGrounded;
    var m, t := s.toRelay[0], s.(toRelay := s.toRelay[1..]);
    MessageTaken(said, s);
    if !m.Create? && m.relaySideId in s.relay.contexts {
      var x, c := m.relaySideId, s.relay.contexts[m.relaySideId];
      ReadGrounded(said, s);
      if HasDevice(s.relay, c.deviceId) {
        DeviceIsGrounded(said, s, c.deviceId);
        var p := if m.Push? then PostData(c.raw, x, m.payload) else TransferState(c.raw, x, m.dumped, m.uploaded);
        var v := s.relay.devices[c.deviceId];
        OneMoreMessage(said, c.deviceId, s.relay.contexts, v, p);
        DeviceReplaced(said, t, c.deviceId, v.(dataIn := v.dataIn + [p]));
      }
    }
  }

  lemma FirstOrderGrounded(said: set<Event>, contexts: map<nat, Context>, x: nat, m: ToRelay)
    requires m.Create? && AskGrounded(said, m) && x in contexts && contexts[x].reported.None?
    requires contexts[x].proxySideId == m.proxySideId && contexts[x].deviceId == m.deviceId
    requires contexts[x].port == m.target.port % PORT_RANGE
    ensures ContextGrounded(said, x, contexts[x])
    ensures m.target.address.Some? ==>
      CtrlGrounded(said, m.deviceId, contexts, CreateConnection(x, m.target.address.value, contexts[x].port))
    ensures m.target.address.None? && m.target.hostname != "" ==>
      CtrlGrounded(said, m.deviceId, contexts, DnsQuery(x, m.target.hostname))
  {
    assert Wanted(said, m.proxySideId, m.deviceId, contexts[x].port, m.target);
    hide Wanted;
  }

  /** A new context, and what its device is told about it. */
  lemma NewContextGrounded(said: set<Event>, s: Net, m: ToRelay, c: Context, told: seq<ToDeviceCtrl>)
    requires Grounded(said, s) && m.Create? && AskGrounded(said, m) && m.deviceId in s.relay.devices
    requires s.relay.nextId !in s.relay.contexts
    requires var port, x := m.target.port % PORT_RANGE, s.relay.nextId;
      && c.port == port && c.proxySideId == m.proxySideId && c.deviceId == m.deviceId && c.reported.None?
      && told == if m.target.address.Some? then [CreateConnection(x, m.target.address.value, port)]
                 else if m.target.hostname != "" then [DnsQuery(x, m.target.hostname)] else []
    ensures Grounded(said, s.(relay := Added(s.relay, m.deviceId, m.proxySideId, c, told)))
  {
    hide Grounded, DeviceGrounded, CtrlGrounded, ContextGrounded, AskGrounded;
    var x, d := s.relay.nextId, m.deviceId;
    var t := s.(relay := s.relay.(contexts := s.relay.contexts[x := c], nextId := x + 1));
    FirstOrderGrounded(said, t.relay.contexts, x, m);
    ContextChanged(said, s, x, c, x + 1);
    var v := t.relay.devices[d];
    DeviceIsGrounded(said, t, d);
    if told == [] {
      assert v.ctrlIn + told == v.ctrlIn;
    } else {
      OneMoreOrder(said, d, t.relay.contexts, v, told[0]);
    }
    DeviceReplaced(said, t, d, v.(ctrlIn := v.ctrlIn + told));
  }

  lemma CreateIsStep(s: Net, garbage: nat)
    requires s.linkUp && s.toRelay != [] && s.toRelay[0].Create?
    ensures var e := OnCreate(s.relay, s.toRelay[0], garbage);
      Step(s, RelayReceives(garbage)) ==
        s.(toRelay := s.toRelay[1..], relay := e.relay, toProxy := s.toProxy + e.out, linkUp := e.ok)
  {
    hide OnCreate;
  }

  lemma RefusalGrounded(said: set<Event>, s: Net, garbage: nat)
    requires Grounded(said, s) && s.toRelay != [] && s.toRelay[0].Create? && s.linkUp
    requires !HasDevice(s.relay, s.toRelay[0].deviceId) || |s.relay.contexts| >= s.relay.capacity
    ensures Grounded(said, Step(s, RelayReceives(garbage)))
  {
    hide Grounded, Step, WritePort;
    var m, t := s.toRelay[0], s.(toRelay := s.toRelay[1..]);
    MessageTaken(said, s);
    CreateIsStep(s, garbage);
    var e := OnCreate(s.relay, m, garbage);
    assert e.relay == s.relay;
    LinkMayChange(said, t, s.toProxy + e.out, e.ok);
  }

  lemma CreateGrounded(said: set<Event>, s: Net, garbage: nat)
    requires Inv(s) && Grounded(said, s) && s.toRelay != [] && s.toRelay[0].Create? && s.linkUp
    ensures Grounded(said, Step(s, RelayReceives(garbage)))
  {
    hide Inv, WritePort, Grounded, AskGrounded, Step, OnCreate, Added;
    NextIsNew(s);
    var m, t := s.toRelay[0], s.(toRelay := s.toRelay[1..]);
    MessageTaken(said, s);
    if HasDevice(s.relay, m.deviceId) && |s.relay.contexts| < s.relay.capacity {
      var port, x := m.target.port % PORT_RANGE, s.relay.nextId;
      var c := Context(WritePort(garbage, port), port, None, m.proxySideId, m.deviceId);
      var told := if m.target.address.Some? then [CreateConnection(x, m.target.address.value, port)]
                  else if m.target.hostname != "" then [DnsQuery(x, m.target.hostname)] else [];
      NewContextGrounded(said, t, m, c, told);
      CreateIsAdded(s, m, garbage, c, told);
      CreateIsStep(s, garbage);
      var u := t.(relay := Added(s.relay, m.deviceId, m.proxySideId, c, told));
      LinkMayChange(said, u, s.toProxy + [], told != []);
    } else {
      RefusalGrounded(said, s, garbage);
    }
  }

  lemma MessagesGrounded(said: set<Event>, s: Net, garbage: nat)
    requires Inv(s) && Grounded(said, s)
    ensures Grounded(said, Step(s, RelayReceives(garbage)))
  {
    hide Inv, Grounded, OnCreate, OnPush, OnTransferred, Step;
    if !s.linkUp || s.toRelay == [] {
      NoMessage(s, garbage);
    } else if s.toRelay[0].Create? {
      CreateGrounded(said, s, garbage);
    } else {
      DataGrounded(said, s);
      DataIsStep(s, garbage);
    }
  }

  // ---------------------------------------------------------------------------------------
  // Every step
  // ---------------------------------------------------------------------------------------

  lemma ConnIsGrounded(said: set<Event>, s: Net, id: nat)
    requires Grounded(said, s) && id in s.conns
    ensures ConnGrounded(said, id, s.conns[id])
  {
    hide RelayGrounded, ConnGrounded, AsksGrounded;
  }

  lemma ApplyGrounded(said: set<Event>, s: Net, id: nat, e: Effect)
    requires Grounded(said, s) && id in s.conns && EffectGrounded(said, id, e)
    ensures Grounded(said, Apply(s, id, e))
  {
    hide RelayGrounded, ConnGrounded, AskGrounded, PostedBy;
  }

  lemma ConnectGrounded(said: set<Event>, s: Net, id: nat)
    requires Grounded(said, s)
    ensures Grounded(said, Step(s, Connect)) && Grounded(said, Step(s, Cleanup(id)))
  {
    assert ConnGrounded(said, s.nextConn, NEW_CONN);
    hide RelayGrounded, ConnGrounded, AsksGrounded;
  }

  lemma ServicesGrounded(said: set<Event>, s: Net, e: Event)
    requires Grounded(said, s) && e in said && (e.Client? || e.PeerClose? || e.Auth? || e.Select?)
    ensures Grounded(said, Step(s, e))
  {
    hide Grounded, Apply, ConnGrounded, EffectGrounded, OnInput, OnAuthResult, OnDeviceSelected;
    hide RelayNetwork.OnPeerClose, OnDestroy;
    if e.id in s.conns {
      var conn := s.conns[e.id];
      ConnIsGrounded(said, s, e.id);
      match e
      case Client(id, input) =>
        InputGrounded(said, id, conn, input);
        ApplyGrounded(said, s, id, OnInput(id, conn, input));
      case PeerClose(id) =>
        CloseGrounded(said, id, conn);
        ApplyGrounded(said, s, id, RelayNetwork.OnPeerClose(conn));
      case Auth(id, accepted) =>
        AuthGrounded(said, id, conn, accepted);
        ApplyGrounded(said, s, id, OnAuthResult(id, conn, accepted));
      case Select(id, relayId, deviceId) =>
        SelectGrounded(said, id, conn, relayId, deviceId);
        ApplyGrounded(said, s, id, OnDeviceSelected(id, conn, relayId, deviceId));
    }
  }

  lemma ProxyGrounded(said: set<Event>, s: Net, size: nat)
    requires Grounded(said, s)
    ensures Grounded(said, Step(s, ProxyReceives(size)))
  {
    hide Grounded, Apply, ConnGrounded, EffectGrounded, OnNotify, OnPushBack, OnDestroy;
    if !s.crashed && s.toProxy != [] {
      var t, m := s.(toProxy := s.toProxy[1..]), s.toProxy[0];
      var id := m.proxySideId;
      LinkMayChange(said, s, t.toProxy, s.linkUp);
      if id in s.conns {
        var conn := s.conns[id];
        ConnIsGrounded(said, s, id);
        match m
        case Destroy(_) =>
          CloseGrounded(said, id, conn);
          ApplyGrounded(said, t, id, OnDestroy(conn));
        case Notify(_, r, state) =>
          NoticeGrounded(said, id, conn, r, state);
          ApplyGrounded(said, t, id, OnNotify(id, conn, r, state));
        case PushBack(_, _) =>
          UploadGrounded(said, id, conn, [], size);
          ApplyGrounded(said, t, id, OnPushBack(id, conn, size));
      }
    }
  }

  lemma StepGrounded(said: set<Event>, s: Net, e: Event)
    requires Inv(s) && Grounded(said, s) && e in said
    ensures Grounded(said, Step(s, e))
  {
    hide *;
    match e
    case Connect => ConnectGrounded(said, s, 0);
    case Cleanup(id) => ConnectGrounded(said, s, id);
    case Client(_, _) => ServicesGrounded(said, s, e);
    case PeerClose(_) => ServicesGrounded(said, s, e);
    case Auth(_, _) => ServicesGrounded(said, s, e);
    case Select(_, _, _) => ServicesGrounded(said, s, e);
    case ProxyReceives(size) => ProxyGrounded(said, s, size);
    case RelayReceives(garbage) => MessagesGrounded(said, s, garbage);
    case RelayReceivesCtrl(d) => ResolvingGrounded(said, s, d);
    case RelayReceivesData(d) => PassedGrounded(said, s, d);
    case _ => DeviceStepGrounded(said, s, e);
  }

  lemma PassedGrounded(said: set<Event>, s: Net, d: nat)
    requires Inv(s) && Grounded(said, s)
    ensures Grounded(said, Step(s, RelayReceivesData(d)))
  {
    hide Inv, Grounded, Step;
    if d in s.relay.devices && s.relay.devices[d].dataOut != [] {
      PassingGrounded(said, s, d);
    } else {
      NothingPassed(s, d);
    }
  }

  lemma {:induction false} RunGrounded(said: set<Event>, s: Net, events: seq<Event>)
    requires Inv(s) && Grounded(said, s) && forall e :: e in events ==> e in said
    ensures Inv(Run(s, events)) && Grounded(said, Run(s, events))
    decreases |events|
  {
    hide Inv, Step, Grounded;
    if events != [] {
      StepGrounded(said, s, events[0]);
      StepKeepsInv(s, events[0]);
      RunGrounded(said, Step(s, events[0]), events[1..]);
    }
  }

  function Said(events: seq<Event>): set<Event> {
    set e | e in events
  }

  lemma StartGrounded(said: set<Event>, capacity: nat)
    ensures Grounded(said, Start(capacity))
  {
  }

  lemma ReachableGrounded(capacity: nat, events: seq<Event>)
    ensures Inv(Run(Start(capacity), events)) && Grounded(Said(events), Run(Start(capacity), events))
  {
    hide Inv, Run, Start, Grounded;
    StartInv(capacity);
    StartGrounded(Said(events), capacity);
    RunGrounded(Said(events), Start(capacity), events);
  }

  // ---------------------------------------------------------------------------------------
  // Runs
  // ---------------------------------------------------------------------------------------

  /** In every run: whatever reaches a device on its data link names the connection by an id that this very
      device gave in an ESTABLISHED report on this very connection. */
  lemma DevicesHearTheirIds(capacity: nat, events: seq<Event>, d: nat, i: nat)
    requires var r := Run(Start(capacity), events).relay; d in r.devices && i < |r.devices[d].dataIn|
    ensures var m := Run(Start(capacity), events).relay.devices[d].dataIn[i];
      DeviceReports(d, State(m.deviceSideId, m.id, Established)) in events
  {
    ReachableGrounded(capacity, events);
    hide Inv, Run, Start, Grounded;
    DeviceIsGrounded(Said(events), Run(Start(capacity), events), d);
  }

  /** In every run: a device that is told to connect or to resolve a name was selected for the client of that
      relayed connection, and the client asked for this port and for this address or name; or else for a name
      to which this very device gave the address, its IPv6 address if it gave one. */
  lemma DevicesAreToldTargets(capacity: nat, events: seq<Event>, d: nat, i: nat)
    requires var r := Run(Start(capacity), events).relay; d in r.devices && i < |r.devices[d].ctrlIn|
    ensures var r := Run(Start(capacity), events).relay;
      var m := r.devices[d].ctrlIn[i];
      && m.id in r.contexts && r.contexts[m.id].deviceId == d
      && var id := r.contexts[m.id].proxySideId;
         match m
         case CreateConnection(x, address, port) => Located(Said(events), x, id, d, port, address)
         case DnsQuery(_, hostname) => exists port :: Nameless(Said(events), id, d, port, hostname)
  {
    ReachableGrounded(capacity, events);
    hide Inv, Run, Start, Grounded, Located, Nameless;
    DeviceIsGrounded(Said(events), Run(Start(capacity), events), d);
  }

  /** In every run: when the relay takes an answer off a device's link, it tells this device, last of all, to
      connect to the answer's IPv6 address or else to its IPv4 address, at the port of the target. Nobody is
      told anything for an answer without an address. */
  lemma AnswersAreTold(capacity: nat, events: seq<Event>, d: nat)
    requires var r := Run(Start(capacity), events).relay; d in r.devices && r.devices[d].ctrlOut != []
    ensures var s := Run(Start(capacity), events);
      var t, a, q := Step(s, RelayReceivesCtrl(d)), s.relay.devices[d].ctrlOut[0], s.relay.devices[d].ctrlIn;
      && a.id in s.relay.contexts && d in t.relay.devices
      && var port := s.relay.contexts[a.id].port;
      && (exists target :: Wanted(Said(events), s.relay.contexts[a.id].proxySideId, d, port, target))
      && t.relay.devices[d].ctrlIn ==
           if a.ipv6.Some? then q + [CreateConnection(a.id, a.ipv6.value, port)]
           else if a.ipv4.Some? then q + [CreateConnection(a.id, a.ipv4.value, port)] else q
  {
    hide Inv, Run, Start, Grounded, Step, Wanted;
    var s := Run(Start(capacity), events);
    ReachableGrounded(capacity, events);
    AnswerIsTold(s, d);
    OwnAnswer(s, d);
    ContextIsGrounded(Said(events), s, s.relay.devices[d].ctrlOut[0].id);
    var q := s.relay.devices[d].ctrlIn;
    assert q + [] == q;
  }

  lemma OwnAnswer(s: Net, d: nat)
    requires Inv(s) && d in s.relay.devices && s.relay.devices[d].ctrlOut != []
    ensures var x := s.relay.devices[d].ctrlOut[0].id; x in s.relay.contexts && s.relay.contexts[x].deviceId == d
  {
    DeviceFacts(s, d);
    CtrlFacts(d, s.relay.devices[d], s.relay.contexts);
    hide Inv, DeviceAgrees;
  }

  /** In every run: a client connection that waits for its target, is connected to it or was, has given
      credentials, was accepted by the service and got the device that was selected for it. */
  lemma ConnectionsAreEarned(capacity: nat, events: seq<Event>, id: nat)
    requires var s := Run(Start(capacity), events); id in s.conns && CreateDone(s.conns[id].phase)
    ensures var c := Run(Start(capacity), events).conns[id];
      && (exists h :: Client(id, Credentials(h)) in events && (BranchOf(c.phase).HttpNormal? ==> h == c.header))
      && Auth(id, true) in events && Select(id, c.relayId, c.deviceId) in events
  {
    ReachableGrounded(capacity, events);
    hide Inv, Run, Start, Grounded, Greeted;
    ConnIsGrounded(Said(events), Run(Start(capacity), events), id);
  }

  /** In every run: a connected client's relayed connection is on the device that was selected for the client,
      and this device has reported it as established. */
  lemma ReadyIsReported(capacity: nat, events: seq<Event>, id: nat)
    requires var s := Run(Start(capacity), events); id in s.conns && IsReady(s.conns[id].phase)
    ensures var s := Run(Start(capacity), events);
      var x := s.conns[id].relaySideId;
      && x in s.relay.contexts && s.relay.contexts[x].proxySideId == id
      && var d := s.relay.contexts[x].deviceId;
      Select(id, RELAY_ID, d) in events && exists k :: DeviceReports(d, State(k, x, Established)) in events
  {
    var s := Run(Start(capacity), events);
    ReachableGrounded(capacity, events);
    ReadyBelongs(s, id);
    hide Inv, Run, Start, Grounded, Asked;
    ContextIsGrounded(Said(events), s, s.conns[id].relaySideId);
  }

  lemma ReadyBelongs(s: Net, id: nat)
    requires Inv(s) && id in s.conns && IsReady(s.conns[id].phase)
    ensures Belongs(s.relay.contexts, s.conns[id].relaySideId, id)
  {
    hide StagesAgree, PostsInOrder, MessagesAgree, NoticesAgree, CreatesAgree, DevicesAgree, SentAgrees, ContextsAgree;
    hide Belongs;
  }
}
