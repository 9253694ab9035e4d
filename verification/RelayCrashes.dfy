/** Runs in which the access server fails its assertion on notices, for a relay of any capacity. */
module RelayCrashes {
  import opened Lists
  import opened RelayNetwork
  import opened RelayRuns
  import opened RelayInvariant

  const DEVICE: nat := 7
  const TARGET: Target := Target(Some(1), "", 80)

  lemma RunOne(s: Net, e: Event, rest: seq<Event>)
    ensures Run(s, [e] + rest) == Run(Step(s, e), rest)
  {
    assert ([e] + rest)[1..] == rest;
  }

  lemma {:induction false} RunAppend(s: Net, a: seq<Event>, b: seq<Event>)
    ensures Run(s, a + b) == Run(Run(s, a), b)
    decreases |a|
  {
    hide Step;
    if a == [] {
      assert a + b == b;
    } else {
      assert (a + b)[1..] == a[1..] + b;
      RunAppend(Step(s, a[0]), a[1..], b);
    }
  }

  /** From `s` on, at no time more than one client is connected. */
  predicate OneClient(s: Net, events: seq<Event>)
    decreases |events|
  {
    |s.conns| <= 1 && (events == [] || OneClient(Step(s, events[0]), events[1..]))
  }

  lemma OneClientOne(s: Net, e: Event, rest: seq<Event>)
    requires |s.conns| <= 1 && OneClient(Step(s, e), rest)
    ensures OneClient(s, [e] + rest)
  {
    assert ([e] + rest)[1..] == rest;
  }

  lemma {:induction false} OneClientAppend(s: Net, a: seq<Event>, b: seq<Event>)
    requires OneClient(s, a) && OneClient(Run(s, a), b)
    ensures OneClient(s, a + b)
    decreases |a|
  {
    hide Step;
    if a == [] {
      assert a + b == b;
    } else {
      assert (a + b)[1..] == a[1..] + b;
      OneClientAppend(Step(s, a[0]), a[1..], b);
    }
  }

  lemma OneClientNone(s: Net)
    requires |s.conns| <= 1
    ensures OneClient(s, [])
  {
  }

  /** Nothing is on its way between the servers, and the device is there. */
  ghost predicate Quiet(s: Net) {
    !s.crashed && s.linkUp && s.toRelay == [] && s.toProxy == [] && HasDevice(s.relay, DEVICE)
  }

  // ---------------------------------------------------------------------------------------
  // A client that logs in and asks for a target
  // ---------------------------------------------------------------------------------------

  /** `t` is `s` with one more client connection, in phase `phase`. */
  ghost predicate ClientIn(s: Net, t: Net, phase: Phase) {
    && t == s.(conns := t.conns, nextConn := s.nextConn + 1, sent := t.sent, log := t.log)
    && s.nextConn in t.conns && t.conns[s.nextConn].phase == phase
    && t.conns.Keys == s.conns.Keys + {s.nextConn}
  }

  lemma Greets(s: Net, t: Net)
    requires Quiet(s) && ClientIn(s, t, Unknown)
    ensures ClientIn(s, Step(t, Client(s.nextConn, Greeting(Socks5, TARGET))), S5WaitForAuthInfo)
  {
  }

  lemma GivesCredentials(s: Net, t: Net)
    requires Quiet(s) && ClientIn(s, t, S5WaitForAuthInfo)
    ensures ClientIn(s, Step(t, Client(s.nextConn, Credentials([]))), S5WaitForAccountExchange)
  {
  }

  lemma IsAccepted(s: Net, t: Net)
    requires Quiet(s) && ClientIn(s, t, S5WaitForAccountExchange)
    ensures ClientIn(s, Step(t, Auth(s.nextConn, true)), S5WaitForDeviceSelection)
  {
  }

  lemma GetsDevice(s: Net, t: Net)
    requires Quiet(s) && ClientIn(s, t, S5WaitForDeviceSelection)
    ensures var u := Step(t, Select(s.nextConn, RELAY_ID, DEVICE));
      ClientIn(s, u, S5WaitForConnectionRequest) && u.conns[s.nextConn].relayId == RELAY_ID
        && u.conns[s.nextConn].deviceId == DEVICE
  {
  }

  /** `t` is `s` with one more connection, which waits for its create request to be answered. */
  ghost predicate Waiting(s: Net, t: Net) {
    var id := s.nextConn;
    && t == s.(conns := t.conns, nextConn := id + 1, sent := t.sent, log := t.log,
      toRelay := [Create(DEVICE, id, TARGET)])
    && id in t.conns && t.conns[id].phase == S5WaitForConnectionEstablish
    && t.conns.Keys == s.conns.Keys + {id}
  }

  lemma AsksForTarget(s: Net, t: Net)
    requires Quiet(s) && ClientIn(s, t, S5WaitForConnectionRequest)
    requires t.conns[s.nextConn].relayId == RELAY_ID && t.conns[s.nextConn].deviceId == DEVICE
    ensures Waiting(s, Step(t, Client(s.nextConn, ConnectRequest(TARGET))))
  {
    assert [] + [Create(DEVICE, s.nextConn, TARGET)] == [Create(DEVICE, s.nextConn, TARGET)];
  }

  function Opening(id: nat): seq<Event> {
    [Connect] + ([Client(id, Greeting(Socks5, TARGET))] + ([Client(id, Credentials([]))] + ([Auth(id, true)]
      + ([Select(id, RELAY_ID, DEVICE)] + ([Client(id, ConnectRequest(TARGET))] + [])))))
  }

  lemma OneArrived(s: Net, t: Net, phase: Phase)
    requires s.conns == map[] && ClientIn(s, t, phase)
    ensures |t.conns| == 1
  {
    assert t.conns.Keys == {s.nextConn};
  }

  lemma OneWaits(s: Net, t: Net)
    requires s.conns == map[] && Waiting(s, t)
    ensures |t.conns| == 1
  {
    assert t.conns.Keys == {s.nextConn};
  }

  /** A client that opens a connection, while no other is there. */
  lemma Opens(s: Net)
    requires Quiet(s) && s.conns == map[]
    ensures Waiting(s, Run(s, Opening(s.nextConn))) && OneClient(s, Opening(s.nextConn))
  {
    hide Quiet, ClientIn, Waiting;
    var id := s.nextConn;
    var s1 := Step(s, Connect);
    Arrives(s);
    var s2 := Step(s1, Client(id, Greeting(Socks5, TARGET)));
    Greets(s, s1);
    var s3 := Step(s2, Client(id, Credentials([])));
    GivesCredentials(s, s2);
    var s4 := Step(s3, Auth(id, true));
    IsAccepted(s, s3);
    var s5 := Step(s4, Select(id, RELAY_ID, DEVICE));
    GetsDevice(s, s4);
    var s6 := Step(s5, Client(id, ConnectRequest(TARGET)));
    AsksForTarget(s, s5);
    OneArrived(s, s1, Unknown);
    OneArrived(s, s2, S5WaitForAuthInfo);
    OneArrived(s, s3, S5WaitForAccountExchange);
    OneArrived(s, s4, S5WaitForDeviceSelection);
    OneArrived(s, s5, S5WaitForConnectionRequest);
    OneWaits(s, s6);
    hide Step, Run, OneClient;
    var e6: seq<Event> := [Client(id, ConnectRequest(TARGET))] + [];
    var e5 := [Select(id, RELAY_ID, DEVICE)] + e6;
    var e4 := [Auth(id, true)] + e5;
    var e3 := [Client(id, Credentials([]))] + e4;
    var e2 := [Client(id, Greeting(Socks5, TARGET))] + e3;
    RunOne(s, Connect, e2);
    RunOne(s1, Client(id, Greeting(Socks5, TARGET)), e3);
    RunOne(s2, Client(id, Credentials([])), e4);
    RunOne(s3, Auth(id, true), e5);
    RunOne(s4, Select(id, RELAY_ID, DEVICE), e6);
    RunOne(s5, Client(id, ConnectRequest(TARGET)), []);
    RunNone(s6);
    OneClientNone(s6);
    OneClientOne(s5, Client(id, ConnectRequest(TARGET)), []);
    OneClientOne(s4, Select(id, RELAY_ID, DEVICE), e6);
    OneClientOne(s3, Auth(id, true), e5);
    OneClientOne(s2, Client(id, Credentials([])), e4);
    OneClientOne(s1, Client(id, Greeting(Socks5, TARGET)), e3);
    OneClientOne(s, Connect, e2);
  }

  lemma RunNone(s: Net)
    ensures Run(s, []) == s
  {
  }

  lemma Arrives(s: Net)
    requires Quiet(s)
    ensures ClientIn(s, Step(s, Connect), Unknown)
  {
  }

  // ---------------------------------------------------------------------------------------
  // A full relay
  // ---------------------------------------------------------------------------------------

  /** A relay with `n` contexts, which has served everybody so far, after all clients have left. */
  ghost predicate Serving(s: Net, n: nat, capacity: nat) {
    && Quiet(s) && s.nextConn == n + 1 && s.relay.capacity == capacity && s.conns == map[]
    && |s.relay.contexts| == n && forall x :: x in s.relay.contexts ==> x < s.relay.nextId
  }

  lemma OneMoreContext(s: Net, t: Net, n: nat, capacity: nat)
    requires Serving(s, n, capacity) && n < capacity && Waiting(s, t)
    ensures var u := Step(t, RelayReceives(0));
      u.conns == t.conns && Serving(u.(conns := map[]), n + 1, capacity)
  {
    hide WritePort;
    var r := s.relay;
    assert r.nextId !in r.contexts;
    assert t.relay == r && t.toRelay[1..] == [];
  }

  /** The client leaves, and its context stays. */
  lemma ClientLeaves(u: Net, id: nat)
    requires u.conns.Keys == {id} && !u.crashed
    ensures Step(u, Cleanup(id)) == u.(conns := map[])
  {
  }

  function Leaving(n: nat): seq<Event> {
    [RelayReceives(0)] + ([Cleanup(n)] + [])
  }

  /** `n` clients, one after the other: each opens a connection and leaves. */
  function Filling(n: nat): seq<Event> {
    if n == 0 then [DeviceJoins(DEVICE)] else Filling(n - 1) + (Opening(n) + Leaving(n))
  }

  lemma Leaves(s: Net, t: Net, n: nat, capacity: nat)
    requires n > 0 && Serving(s, n - 1, capacity) && n <= capacity && Waiting(s, t)
    ensures Serving(Run(t, Leaving(n)), n, capacity) && OneClient(t, Leaving(n))
  {
    var u := Step(t, RelayReceives(0));
    OneMoreContext(s, t, n - 1, capacity);
    OneWaits(s, t);
    ClientLeaves(u, n);
    var v := Step(u, Cleanup(n));
    hide Step, Run, OneClient;
    RunNone(v);
    RunOne(u, Cleanup(n), []);
    RunOne(t, RelayReceives(0), [Cleanup(n)] + []);
    OneClientNone(v);
    OneClientOne(u, Cleanup(n), []);
    OneClientOne(t, RelayReceives(0), [Cleanup(n)] + []);
  }

  lemma {:induction false} Fills(n: nat, capacity: nat)
    requires n <= capacity
    ensures Serving(Run(Start(capacity), Filling(n)), n, capacity) && OneClient(Start(capacity), Filling(n))
  {
    hide Serving, Opening, Leaving, Step, Waiting, OneClient;
    if n == 0 {
      FirstDevice(capacity);
    } else {
      Fills(n - 1, capacity);
      var s := Run(Start(capacity), Filling(n - 1));
      ServingFacts(s, n - 1, capacity);
      Opens(s);
      var t := Run(s, Opening(n));
      Leaves(s, t, n, capacity);
      RunAppend(s, Opening(n), Leaving(n));
      OneClientAppend(s, Opening(n), Leaving(n));
      RunAppend(Start(capacity), Filling(n - 1), Opening(n) + Leaving(n));
      OneClientAppend(Start(capacity), Filling(n - 1), Opening(n) + Leaving(n));
      hide Run;
    }
  }

  lemma FirstDevice(capacity: nat)
    ensures Serving(Run(Start(capacity), Filling(0)), 0, capacity) && OneClient(Start(capacity), Filling(0))
  {
    var s := Start(capacity);
    OneClientNone(Step(s, DeviceJoins(DEVICE)));
    OneClientOne(s, DeviceJoins(DEVICE), []);
    RunNone(Step(s, DeviceJoins(DEVICE)));
    assert [DeviceJoins(DEVICE)] == [DeviceJoins(DEVICE)] + [];
    RunOne(s, DeviceJoins(DEVICE), []);
  }

  lemma ServingFacts(s: Net, n: nat, capacity: nat)
    requires Serving(s, n, capacity)
    ensures Quiet(s) && s.nextConn == n + 1 && s.conns == map[]
  {
  }

  /** A relay that is full answers CLOSED, whatever state it is full in. */
  lemma FullRelayCloses(t: Net)
    requires !t.crashed && t.linkUp && t.toRelay != [] && t.toRelay[0].Create? && t.toProxy == []
    requires HasDevice(t.relay, t.toRelay[0].deviceId) && |t.relay.contexts| >= t.relay.capacity
    requires var id := t.toRelay[0].proxySideId; id in t.conns && WaitsForEstablish(t.conns[id].phase)
    ensures Run(t, [RelayReceives(0)] + ([ProxyReceives(0)] + [])).crashed
  {
    var u := Step(t, RelayReceives(0));
    assert u.toProxy == [Notify(t.toRelay[0].proxySideId, 0, Closed)];
    RunOne(u, ProxyReceives(0), []);
    RunOne(t, RelayReceives(0), [ProxyReceives(0)] + []);
  }

  lemma MissingDeviceAnswers(t: Net, garbage: nat)
    requires t.linkUp && t.toRelay != [] && t.toRelay[0].Create? && t.toProxy == []
    requires !HasDevice(t.relay, t.toRelay[0].deviceId)
    ensures Step(t, RelayReceives(garbage)) ==
      t.(toRelay := t.toRelay[1..], toProxy := [Destroy(t.toRelay[0].proxySideId)])
  {
  }

  lemma DestroyCloses(u: Net, id: nat, size: nat)
    requires !u.crashed && u.toProxy == [Destroy(id)] && id in u.conns && WaitsForEstablish(u.conns[id].phase)
    ensures var v := Step(u, ProxyReceives(size));
      && !v.crashed && v.linkUp == u.linkUp && v.relay == u.relay && v.toProxy == []
      && id in v.conns && IsClosed(v.conns[id].phase) && BranchOf(v.conns[id].phase) == BranchOf(u.conns[id].phase)
  {
  }

  /** A client whose device is not there, or was deleted, is closed and crashes nobody. */
  lemma MissingDeviceCloses(t: Net, garbage: nat, size: nat)
    requires !t.crashed && t.linkUp && t.toRelay != [] && t.toRelay[0].Create? && t.toProxy == []
    requires !HasDevice(t.relay, t.toRelay[0].deviceId)
    requires var id := t.toRelay[0].proxySideId; id in t.conns && WaitsForEstablish(t.conns[id].phase)
    ensures var v := Run(t, [RelayReceives(garbage)] + ([ProxyReceives(size)] + []));
      var id := t.toRelay[0].proxySideId;
      && !v.crashed && v.linkUp && v.relay == t.relay && v.toProxy == []
      && id in v.conns && IsClosed(v.conns[id].phase) && BranchOf(v.conns[id].phase) == BranchOf(t.conns[id].phase)
  {
    hide Run, Step, WaitsForEstablish, IsClosed, BranchOf;
    MissingDeviceAnswers(t, garbage);
    var u := Step(t, RelayReceives(garbage));
    DestroyCloses(u, t.toRelay[0].proxySideId, size);
    RunOne(u, ProxyReceives(size), []);
    RunOne(t, RelayReceives(garbage), [ProxyReceives(size)] + []);
    RunNone(Step(u, ProxyReceives(size)));
  }

  lemma ProxyKeepsClients(u: Net)
    ensures Step(u, ProxyReceives(0)).conns.Keys == u.conns.Keys
  {
    hide OnNotify, OnPushBack, OnDestroy;
  }

  lemma LastClient(s: Net, t: Net)
    requires s.conns == map[] && Waiting(s, t)
    ensures OneClient(t, [RelayReceives(0)] + ([ProxyReceives(0)] + []))
  {
    hide Step, OneClient, Waiting;
    OneWaits(s, t);
    var u := Step(t, RelayReceives(0));
    RemoteKeepsConns(t, RelayReceives(0));
    var v := Step(u, ProxyReceives(0));
    ProxyKeepsClients(u);
    KeysCount(v.conns, u.conns);
    OneClientNone(v);
    OneClientOne(u, ProxyReceives(0), []);
    OneClientOne(t, RelayReceives(0), [ProxyReceives(0)] + []);
  }

  lemma KeysCount(a: map<nat, Conn>, b: map<nat, Conn>)
    requires a.Keys == b.Keys
    ensures |a| == |b|
  {
    assert |a| == |a.Keys| && |b| == |b.Keys|;
  }

  /** For every capacity: once so many clients came, one after the other, each leaving before the next, the
      next client brings the access server down. At no time more than one client is connected. */
  lemma FullRelayCrashesProxy(capacity: nat)
    ensures var events := Filling(capacity)
      + (Opening(capacity + 1) + ([RelayReceives(0)] + ([ProxyReceives(0)] + [])));
      Run(Start(capacity), events).crashed && OneClient(Start(capacity), events)
  {
    hide Run, Step, Filling, Opening, OneClient;
    Fills(capacity, capacity);
    var s := Run(Start(capacity), Filling(capacity));
    Opens(s);
    var t := Run(s, Opening(capacity + 1));
    FullRelayCloses(t);
    LastClient(s, t);
    var last := [RelayReceives(0)] + ([ProxyReceives(0)] + []);
    RunAppend(s, Opening(capacity + 1), last);
    OneClientAppend(s, Opening(capacity + 1), last);
    RunAppend(Start(capacity), Filling(capacity), Opening(capacity + 1) + last);
    OneClientAppend(Start(capacity), Filling(capacity), Opening(capacity + 1) + last);
  }

  // ---------------------------------------------------------------------------------------
  // A device that cannot connect
  // ---------------------------------------------------------------------------------------

  const REFUSAL: seq<Event> :=
    [RelayReceives(0)] + ([DeviceReceives(DEVICE)] + ([DeviceReports(DEVICE, State(0, 1, Closed))]
      + ([RelayReceivesData(DEVICE)] + ([ProxyReceives(0)] + []))))

  /** The device of a fresh context, told to create the connection `x`, for the client connection `id`. */
  ghost predicate Asked(t: Net, x: nat, id: nat) {
    && !t.crashed && t.linkUp && t.toProxy == [] && id in t.conns && WaitsForEstablish(t.conns[id].phase)
    && x in t.relay.contexts && t.relay.contexts[x].proxySideId == id
    && DEVICE in t.relay.devices && t.relay.devices[DEVICE].dataOut == []
  }

  lemma RelayAsks(capacity: nat, t: Net)
    requires capacity > 0 && t.relay == Relay(map[], 1, capacity, map[DEVICE := NEW_DEVICE])
    requires !t.crashed && t.linkUp && t.toProxy == [] && t.toRelay == [Create(DEVICE, 1, TARGET)]
    requires 1 in t.conns && WaitsForEstablish(t.conns[1].phase)
    ensures var u := Step(t, RelayReceives(0));
      Asked(u, 1, 1) && u.relay.devices[DEVICE].ctrlIn == [CreateConnection(1, 1, 80)]
        && u.relay.devices[DEVICE].created == {}
  {
    hide WritePort;
    assert [] + [CreateConnection(1, 1, 80)] == [CreateConnection(1, 1, 80)];
  }

  lemma DeviceTakes(u: Net)
    requires Asked(u, 1, 1) && u.relay.devices[DEVICE].ctrlIn == [CreateConnection(1, 1, 80)]
    ensures Asked(Step(u, DeviceReceives(DEVICE)), 1, 1)
      && 1 in Step(u, DeviceReceives(DEVICE)).relay.devices[DEVICE].created
  {
  }

  lemma RefusalIsReported(v: Net)
    requires Asked(v, 1, 1) && 1 in v.relay.devices[DEVICE].created
    ensures var w := Step(v, DeviceReports(DEVICE, State(0, 1, Closed)));
      && w == v.(relay := w.relay) && 1 in w.relay.contexts && w.relay.contexts[1].proxySideId == 1
      && DEVICE in w.relay.devices && w.relay.devices[DEVICE].dataOut == [State(0, 1, Closed)]
  {
  }

  lemma RefusalIsForwarded(w: Net)
    requires w.toProxy == [] && 1 in w.relay.contexts && w.relay.contexts[1].proxySideId == 1
    requires DEVICE in w.relay.devices && w.relay.devices[DEVICE].dataOut == [State(0, 1, Closed)]
    ensures var y := Step(w, RelayReceivesData(DEVICE));
      y.toProxy == [Notify(1, 1, Closed)] && y.conns == w.conns && y.crashed == w.crashed
  {
  }

  lemma DeviceRefuses(v: Net)
    requires Asked(v, 1, 1) && 1 in v.relay.devices[DEVICE].created
    ensures Run(v,
      [DeviceReports(DEVICE, State(0, 1, Closed))] + ([RelayReceivesData(DEVICE)] + ([ProxyReceives(0)] + []))).crashed
  {
    var w := Step(v, DeviceReports(DEVICE, State(0, 1, Closed)));
    RefusalIsReported(v);
    var y := Step(w, RelayReceivesData(DEVICE));
    RefusalIsForwarded(w);
    assert Step(y, ProxyReceives(0)).crashed by { NotifyCrashesExactly(1, y.conns[1], 1, Closed); }
    hide Step;
    RunOne(y, ProxyReceives(0), []);
    RunNone(Step(y, ProxyReceives(0)));
    RunOne(w, RelayReceivesData(DEVICE), [ProxyReceives(0)] + []);
    RunOne(v, DeviceReports(DEVICE, State(0, 1, Closed)), [RelayReceivesData(DEVICE)] + ([ProxyReceives(0)] + []));
    hide Run;
  }

  /** For every relay with room: a device that reports CLOSED for its first connection brings the access
      server down. */
  lemma RefusalCrashesProxy(capacity: nat)
    requires capacity > 0
    ensures Run(Start(capacity), [DeviceJoins(DEVICE)] + (Opening(1) + REFUSAL)).crashed
  {
    var s := Step(Start(capacity), DeviceJoins(DEVICE));
    assert s.relay == Relay(map[], 1, capacity, map[DEVICE := NEW_DEVICE]);
    Opens(s);
    var t := Run(s, Opening(1));
    hide Run, Opening, Asked;
    RelayAsks(capacity, t);
    var u := Step(t, RelayReceives(0));
    DeviceTakes(u);
    var v := Step(u, DeviceReceives(DEVICE));
    DeviceRefuses(v);
    hide Step;
    var rest := [DeviceReports(DEVICE, State(0, 1, Closed))]
      + ([RelayReceivesData(DEVICE)] + ([ProxyReceives(0)] + []));
    RunOne(u, DeviceReceives(DEVICE), rest);
    RunOne(t, RelayReceives(0), [DeviceReceives(DEVICE)] + rest);
    RunAppend(s, Opening(1), REFUSAL);
    RunOne(Start(capacity), DeviceJoins(DEVICE), Opening(1) + REFUSAL);
  }
}
