/** The objects of access server and relay together, driven by the events of the network. */
module RelayObjects {
  import opened Lists
  import opened RelayNetwork
  import opened RelayRuns
  import opened RelayInvariant
  import opened RelayServices

  class Network {
    const link: RelayLink
    const relay: DeviceRelayService
    var conns: map<nat, ClientConnection>
    var nextConn: nat
    var crashed: bool
    var toProxy: seq<ToProxy>
    var linkUp: bool
    ghost var log: seq<Entry>
    ghost var sent: map<nat, Bytes>

    constructor (capacity: nat)
      ensures fresh(link) && fresh(relay) && conns == map[]
      ensures Valid() && View() == Start(capacity)
    {
      link := new RelayLink();
      relay := new DeviceRelayService(capacity);
      conns, nextConn, crashed, toProxy, linkUp := map[], 1, false, [], true;
      log, sent := [], map[];
    }

    ghost function Connections(): set<object>
      reads `conns
    {
      set id | id in conns :: conns[id]
    }

    ghost function ConnViews(): map<nat, Conn>
      reads `conns, Connections()
    {
      map id | id in conns :: conns[id].View()
    }

    ghost function View(): Net
      reads this, link, relay, Connections()
    {
      Net(ConnViews(), nextConn, crashed, relay.View(), link.sent, toProxy, linkUp, log, sent)
    }

    /** Each connection is found under its own id, and none has failed unless the access server has. */
    ghost predicate Valid()
      reads `conns, `crashed, Connections()
    {
      forall id :: id in conns ==> conns[id].id == id && (!crashed ==> !conns[id].failed)
    }

    /** Connections are the old ones, or new. */
    twostate predicate Kept()
      reads this
    {
      forall id :: id in conns ==> (id in old(conns) && conns[id] == old(conns[id])) || fresh(conns[id])
    }

    /** A handler has changed connection `i`, and its effect goes on record. */
    ghost method Conclude(s: Net, i: nat, e: Effect)
      requires s == View().(conns := s.conns, toRelay := s.toRelay) && !s.crashed && !e.crash
      requires i in conns && s.conns.Keys == conns.Keys && link.sent == s.toRelay + e.out
      requires conns[i].View() == e.conn && conns[i].id == i && !conns[i].failed
      requires forall j :: j in conns && j != i ==>
        conns[j].View() == s.conns[j] && conns[j].id == j && !conns[j].failed
      modifies `log, `sent
      ensures Valid() && View() == Apply(s, i, e)
    {
      hide PostedBy;
      OneChanged(s.conns, ConnViews(), i, e.conn);
      assert Valid() && ConnViews() == s.conns[i := e.conn];
      Record(e.entries, i);
    }

    ghost method Record(entries: seq<Entry>, i: nat)
      modifies `log, `sent
      ensures log == old(log) + entries
      ensures sent == old(sent)[i := (if i in old(sent) then old(sent)[i] else []) + PostedBy(entries, i)]
      ensures ConnViews() == old(ConnViews()) && (old(Valid()) ==> Valid()) && relay.View() == old(relay.View())
    {
      log := log + entries;
      sent := sent[i := (if i in sent then sent[i] else []) + PostedBy(entries, i)];
    }

    method OnClient(i: nat, input: Input)
      requires Valid()
      modifies `log, `sent, link, Connections()
      ensures Valid() && View() == Step(old(View()), Client(i, input))
    {
      hide OnInput, Apply, Step;
      HandlersApply(View(), i, input, false, 0, 0);
      if crashed || i !in conns { return; }
      ghost var s := View();
      var c := conns[i];
      ghost var e := RelayNetwork.OnInput(i, c.View(), input);
      InputDoesNotCrash(i, c.View(), input);
      c.OnData(link, input);
      forall j | j in conns && j != i
        ensures conns[j].View() == s.conns[j] && conns[j].id == j && !conns[j].failed
      {
        assert conns[j] != c;
      }
      Conclude(s, i, e);
    }

    method OnPeerClose(i: nat)
      requires Valid()
      modifies `log, `sent, Connections()
      ensures Valid() && View() == Step(old(View()), PeerClose(i))
    {
      hide RelayNetwork.OnPeerClose, Apply, Step;
      HandlersApply(View(), i, Credentials([]), false, 0, 0);
      if crashed || i !in conns { return; }
      ghost var s := View();
      var c := conns[i];
      ghost var e := RelayNetwork.OnPeerClose(c.View());
      CloseIsSilent(c.View());
      c.OnPeerClose(link);
      forall j | j in conns && j != i
        ensures conns[j].View() == s.conns[j] && conns[j].id == j && !conns[j].failed
      {
        assert conns[j] != c;
      }
      Conclude(s, i, e);
    }

    /** `result` is the region of an accepted account. */
    method OnAuth(i: nat, result: Option<Region>)
      requires Valid()
      modifies `log, `sent, Connections()
      ensures Valid() && View() == Step(old(View()), Auth(i, result.Some?))
    {
      hide OnAuthResult, Apply, Step;
      HandlersApply(View(), i, Credentials([]), result.Some?, 0, 0);
      if crashed || i !in conns { return; }
      ghost var s := View();
      var c := conns[i];
      ghost var e := RelayNetwork.OnAuthResult(i, c.View(), result.Some?);
      AuthIsSilent(i, c.View(), result.Some?);
      var request := c.OnAuthResult(link, result);
      forall j | j in conns && j != i
        ensures conns[j].View() == s.conns[j] && conns[j].id == j && !conns[j].failed
      {
        assert conns[j] != c;
      }
      Conclude(s, i, e);
    }

    method OnSelect(i: nat, relayId: nat, deviceId: nat)
      requires Valid()
      modifies `log, `sent, link, Connections()
      ensures Valid() && View() == Step(old(View()), Select(i, relayId, deviceId))
    {
      hide OnDeviceSelected, Apply, Step;
      HandlersApply(View(), i, Credentials([]), false, relayId, deviceId);
      if crashed || i !in conns { return; }
      ghost var s := View();
      var c := conns[i];
      ghost var e := RelayNetwork.OnDeviceSelected(i, c.View(), relayId, deviceId);
      SelectionDoesNotCrash(i, c.View(), relayId, deviceId);
      c.OnDeviceSelected(link, relayId, deviceId);
      forall j | j in conns && j != i
        ensures conns[j].View() == s.conns[j] && conns[j].id == j && !conns[j].failed
      {
        assert conns[j] != c;
      }
      Conclude(s, i, e);
    }

    /** `m` has been taken off the link from the relay; `size` is the size of the message. */
    method OnProxyMessage(m: ToProxy, size: nat)
      requires Valid() && !crashed
      modifies `crashed, `log, `sent, link, Connections()
      ensures Valid() && View() == ProxyHandles(old(View()), m, size)
    {
      hide OnNotify, OnDestroy, OnPushBack, Apply;
      var i := m.proxySideId;
      if i !in conns { return; }
      ghost var s := View();
      var c := conns[i];
      ghost var e := match m
        case Destroy(_) => OnDestroy(c.View())
        case Notify(_, r, state) => OnNotify(i, c.View(), r, state)
        case PushBack(_, _) => OnPushBack(i, c.View(), size);
      RelayMessagesCrash(i, c.View(), m, size);
      match m {
        case Destroy(_) => c.OnDestroyConnection(link);
        case Notify(_, r, state) => c.OnRelaySideConnectionStateChange(link, r, state);
        case PushBack(_, _) => c.OnRelaySidePushData(link, size);
      }
      forall j | j in conns && j != i
        ensures conns[j].View() == s.conns[j] && conns[j].id == j && !conns[j].failed
      {
        assert conns[j] != c;
      }
      if c.failed {
        Crash(s, i, e);
      } else {
        Conclude(s, i, e);
      }
    }

    /** A handler of connection `i` has failed its assertion, and has changed nothing else. */
    method Crash(ghost s: Net, i: nat, ghost e: Effect)
      requires s == View().(conns := s.conns, toRelay := s.toRelay) && e.crash
      requires i in conns && s.conns.Keys == conns.Keys && link.sent == s.toRelay && i in s.conns
      requires conns[i].View() == s.conns[i] && conns[i].id == i
      requires forall j :: j in conns && j != i ==> conns[j].View() == s.conns[j] && conns[j].id == j
      modifies `crashed
      ensures Valid() && View() == Apply(s, i, e)
    {
      OneChanged(s.conns, ConnViews(), i, s.conns[i]);
      assert s.conns[i := s.conns[i]] == s.conns;
      SetCrashed();
    }

    method SetCrashed()
      modifies `crashed
      ensures crashed && ConnViews() == old(ConnViews()) && relay.View() == old(relay.View())
    {
      crashed := true;
    }

    method ProxyReceives(size: nat)
      requires Valid()
      modifies `crashed, `log, `sent, `toProxy, link, Connections()
      ensures Valid() && View() == Step(old(View()), RelayRuns.ProxyReceives(size))
    {
      hide ProxyHandles;
      if crashed || toProxy == [] { return; }
      var m := TakeMessage();
      OnProxyMessage(m, size);
    }

    method TakeMessage() returns (m: ToProxy)
      requires toProxy != []
      modifies `toProxy
      ensures m == old(toProxy)[0] && View() == old(View()).(toProxy := old(toProxy)[1..])
      ensures old(Valid()) ==> Valid()
    {
      m := toProxy[0];
      toProxy := toProxy[1..];
    }

    method OnConnect()
      requires Valid()
      modifies `conns, `nextConn, `sent
      ensures Valid() && Kept() && View() == Step(old(View()), Connect)
    {
      hide Step;
      ghost var s := View();
      if crashed {
        NothingAfterCrash(s);
        return;
      }
      var c := new ClientConnection(nextConn);
      assert View() == s;
      AddConnection(c);
    }

    method AddConnection(c: ClientConnection)
      requires Valid() && !crashed && c.id == nextConn && c.View() == NEW_CONN && !c.failed
      modifies `conns, `nextConn, `sent
      ensures conns == old(conns)[old(nextConn) := c]
      ensures Valid() && View() == Step(old(View()), Connect)
    {
      Insert(c);
      sent := sent[nextConn := []];
      nextConn := nextConn + 1;
    }

    method Insert(c: ClientConnection)
      requires Valid() && c.id == nextConn && c.View() == NEW_CONN && !c.failed
      modifies `conns
      ensures conns == old(conns)[nextConn := c]
      ensures Valid() && ConnViews() == old(ConnViews())[nextConn := NEW_CONN]
    {
      ghost var before := ConnViews();
      conns := conns[nextConn := c];
      OneAdded(before, ConnViews(), nextConn);
    }

    method Cleanup(i: nat)
      requires Valid()
      modifies `conns
      ensures Valid() && Kept() && View() == Step(old(View()), RelayRuns.Cleanup(i))
    {
      if crashed { return; }
      conns := conns - {i};
      assert ConnViews() == old(ConnViews()) - {i};
    }

    method OnCreateRequest(m: ToRelay, garbage: nat)
      requires m.Create?
      modifies `toProxy, `linkUp, relay
      ensures View() == RelayHandles(old(View()), m, garbage)
    {
      hide OnCreate;
      var out, ok := relay.OnProxyCreateConnection(m, garbage);
      toProxy, linkUp := toProxy + out, ok;
    }

    method OnRelayMessage(m: ToRelay, garbage: nat)
      modifies `toProxy, `linkUp, relay
      ensures View() == RelayHandles(old(View()), m, garbage)
    {
      hide OnCreate, OnPush, OnTransferred;
      match m
      case Create(_, _, _) => OnCreateRequest(m, garbage);
      case Push(_, _, _) => relay.OnProxyPushData(m);
      case Transferred(_, _, _, _) => relay.OnProxyNotifyConnectionState(m);
    }

    method RelayReceives(garbage: nat)
      modifies `toProxy, `linkUp, link, relay
      ensures View() == Step(old(View()), RelayRuns.RelayReceives(garbage))
    {
      hide RelayHandles;
      if !linkUp || link.sent == [] { return; }
      ghost var s := View();
      var m := link.TakeMessage();
      assert link.sent == s.toRelay[1..] && m == s.toRelay[0];
      assert View() == s.(toRelay := s.toRelay[1..]);
      OnRelayMessage(m, garbage);
    }

    method SetDevice(d: nat, v: Device)
      modifies relay`devices
      ensures View() == WithDevice(old(View()), d, v) && relay.devices == old(relay.devices)[d := v]
    {
      relay.devices := relay.devices[d := v];
    }

    method RelayReceivesCtrl(d: nat)
      modifies relay
      ensures View() == Step(old(View()), RelayRuns.RelayReceivesCtrl(d))
    {
      hide OnDnsResp;
      if d !in relay.devices || relay.devices[d].ctrlOut == [] { return; }
      var v := relay.devices[d];
      SetDevice(d, v.(ctrlOut := v.ctrlOut[1..]));
      relay.OnTerminalDnsQueryResp(d, v.ctrlOut[0]);
    }

    method OnDeviceMessage(m: FromDevice)
      modifies `toProxy, relay
      ensures var f := OnDeviceData(old(relay.View()), m);
        View() == old(View()).(relay := f.relay, toProxy := old(toProxy) + f.out)
    {
      hide OnDeviceData;
      var out, ok := relay.OnTerminalData(m);
      toProxy := toProxy + out;
    }

    method RelayReceivesData(d: nat)
      modifies `toProxy, relay
      ensures View() == Step(old(View()), RelayRuns.RelayReceivesData(d))
    {
      hide OnDeviceData;
      if d !in relay.devices || relay.devices[d].dataOut == [] { return; }
      var v := relay.devices[d];
      SetDevice(d, v.(dataOut := v.dataOut[1..]));
      OnDeviceMessage(v.dataOut[0]);
    }

    /** The devices join, fall and act on their own. */
    method DeviceActs(e: Event)
      requires e.DeviceJoins? || e.DeviceDeleted? || e.DeviceReceives? || e.DeviceResolves? || e.DeviceReports?
      modifies relay
      ensures View() == Step(old(View()), e)
    {
      hide WithDevice;
      var devices := relay.devices;
      match e
      case DeviceJoins(d) => if d != 0 && d !in devices { SetDevice(d, NEW_DEVICE); }
      case DeviceDeleted(d) => if d in devices { SetDevice(d, devices[d].(deleted := true)); }
      case DeviceReceives(d) => if d in devices && devices[d].ctrlIn != [] { SetDevice(d, Taken(devices[d])); }
      case DeviceResolves(d, answer) =>
        if d in devices && answer.id in devices[d].queries { SetDevice(d, Answered(devices[d], answer)); }
      case DeviceReports(d, m) =>
        if d in devices && m.id in devices[d].created {
          SetDevice(d, devices[d].(dataOut := devices[d].dataOut + [m]));
        }
    }

    /** One event, at whichever object it happens; an account is of region `region`. */
    method Handle(e: Event, region: Region)
      requires Valid()
      modifies this, link, relay, Connections()
      ensures Valid() && Kept() && View() == Step(old(View()), e)
    {
      hide Step;
      match e
      case Connect => OnConnect();
      case Client(i, input) => OnClient(i, input);
      case PeerClose(i) => OnPeerClose(i);
      case Cleanup(i) => Cleanup(i);
      case Auth(i, accepted) => OnAuth(i, if accepted then Some(region) else None);
      case Select(i, relayId, deviceId) => OnSelect(i, relayId, deviceId);
      case RelayReceives(garbage) => RelayReceives(garbage);
      case ProxyReceives(size) => ProxyReceives(size);
      case RelayReceivesCtrl(d) => RelayReceivesCtrl(d);
      case RelayReceivesData(d) => RelayReceivesData(d);
      case _ => DeviceActs(e);
    }
  }

  /** Which steps are the effect of one handler on one connection. */
  lemma HandlersApply(s: Net, i: nat, input: Input, accepted: bool, relayId: nat, deviceId: nat)
    ensures Step(s, Client(i, input)) ==
      if s.crashed || i !in s.conns then s else Apply(s, i, OnInput(i, s.conns[i], input))
    ensures Step(s, PeerClose(i)) ==
      if s.crashed || i !in s.conns then s else Apply(s, i, OnPeerClose(s.conns[i]))
    ensures Step(s, Auth(i, accepted)) ==
      if s.crashed || i !in s.conns then s else Apply(s, i, OnAuthResult(i, s.conns[i], accepted))
    ensures Step(s, Select(i, relayId, deviceId)) ==
      if s.crashed || i !in s.conns then s else Apply(s, i, OnDeviceSelected(i, s.conns[i], relayId, deviceId))
  {
  }

  /** Only connection `i` has changed. */
  lemma OneChanged(before: map<nat, Conn>, after: map<nat, Conn>, i: nat, conn: Conn)
    requires after.Keys == before.Keys && i in after && after[i] == conn
    requires forall j :: j in after && j != i ==> after[j] == before[j]
    ensures after == before[i := conn]
  {
  }

  lemma OneAdded(before: map<nat, Conn>, after: map<nat, Conn>, i: nat)
    requires after.Keys == before.Keys + {i} && after[i] == NEW_CONN
    requires forall j :: j in before && j != i ==> after[j] == before[j]
    ensures after == before[i := NEW_CONN]
  {
  }

  /** Only notices make a handler fail, and then it does nothing. */
  lemma RelayMessagesCrash(id: nat, conn: Conn, m: ToProxy, size: nat)
    ensures !OnDestroy(conn).crash && !OnPushBack(id, conn, size).crash
    ensures m.Notify? && OnNotify(id, conn, m.relaySideId, m.state).crash ==>
      OnNotify(id, conn, m.relaySideId, m.state) == Effect(conn, [], [], true)
  {
    hide Account, Upload;
    if m.Notify? { NoticeCrash(id, conn, m.relaySideId, m.state); }
    hide OnNotify;
    PushBackDoesNotCrash(id, conn, size);
    hide OnPushBack;
  }

  lemma NoticeCrash(id: nat, conn: Conn, r: nat, state: ConnectionState)
    ensures OnNotify(id, conn, r, state).crash ==> OnNotify(id, conn, r, state) == Effect(conn, [], [], true)
  {
    if WaitsForEstablish(conn.phase) && state.Established? {
      UploadKeepsUp(id, conn.(relaySideId := r, phase := HttpNormalReady), conn.header);
    }
    hide Upload;
  }

  lemma PushBackDoesNotCrash(id: nat, conn: Conn, size: nat)
    ensures !OnPushBack(id, conn, size).crash
  {
  }

  lemma NothingAfterCrash(s: Net)
    requires s.crashed
    ensures Step(s, Connect) == s
  {
  }

  lemma InputDoesNotCrash(id: nat, conn: Conn, input: Input)
    ensures !OnInput(id, conn, input).crash
  {
  }

  lemma CloseIsSilent(conn: Conn)
    ensures var e := OnPeerClose(conn); !e.crash && e.out == []
  {
  }

  lemma AuthIsSilent(id: nat, conn: Conn, accepted: bool)
    ensures var e := OnAuthResult(id, conn, accepted); !e.crash && e.out == []
  {
  }

  lemma SelectionDoesNotCrash(id: nat, conn: Conn, relayId: nat, deviceId: nat)
    ensures !OnDeviceSelected(id, conn, relayId, deviceId).crash
  {
  }

  lemma {:induction false} RunSnoc(s: Net, events: seq<Event>, e: Event)
    ensures Run(s, events + [e]) == Step(Run(s, events), e)
    decreases |events|
  {
    hide Step;
    if events == [] {
      assert events + [e] == [e] && [e][1..] == [];
    } else {
      assert (events + [e])[1..] == events[1..] + [e];
      RunSnoc(Step(s, events[0]), events[1..], e);
    }
  }

  /** The objects, driven by the events of a run, end in exactly the state of the run: whatever is proved of
      runs of the network is true of access server and relay as they are written. */
  method Drive(capacity: nat, events: seq<Event>, region: Region) returns (net: Network)
    ensures fresh(net) && net.Valid() && net.View() == Run(Start(capacity), events)
  {
    hide Run, Step, Start;
    net := new Network(capacity);
    RunNothing(Start(capacity));
    assert events[..0] == [];
    for k := 0 to |events|
      invariant fresh(net) && fresh(net.link) && fresh(net.relay)
      invariant forall id :: id in net.conns ==> fresh(net.conns[id])
      invariant net.Valid() && net.View() == Run(Start(capacity), events[..k])
    {
      net.Handle(events[k], region);
      assert events[..k + 1] == events[..k] + [events[k]];
      RunSnoc(Start(capacity), events[..k], events[k]);
    }
    assert events[..|events|] == events;
  }

  lemma RunNothing(s: Net)
    ensures Run(s, []) == s
  {
  }
}
