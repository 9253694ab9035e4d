/** Runs of the network: what every reachable state has in common. */
module RelayRuns {
  import opened Lists
  import opened RelayNetwork

  /** `toRelay` and `toProxy` are the two directions of the link between access server and relay, which
      is up until a handler of the relay refuses a message; `log` is what happened to the clients'
      connections, `sent` what each of them has uploaded. */
  datatype Net = Net(
    conns: map<nat, Conn>, nextConn: nat, crashed: bool, relay: Relay,
    toRelay: seq<ToRelay>, toProxy: seq<ToProxy>, linkUp: bool, log: seq<Entry>, sent: map<nat, Bytes>)

  function Start(capacity: nat): Net {
    Net(map[], 1, false, Relay(map[], 1, capacity, map[]), [], [], true, [], map[])
  }

  datatype Event =
    | Connect
    | Client(id: nat, input: Input)
    | PeerClose(id: nat)
    | Cleanup(id: nat)
    | Auth(id: nat, accepted: bool)
    | Select(id: nat, relayId: nat, deviceId: nat)
    | RelayReceives(garbage: nat)
    | ProxyReceives(size: nat)
    | DeviceJoins(d: nat)
    | DeviceDeleted(d: nat)
    | DeviceReceives(d: nat)
    | DeviceResolves(d: nat, answer: DnsResp)
    | DeviceReports(d: nat, m: FromDevice)
    | RelayReceivesCtrl(d: nat)
    | RelayReceivesData(d: nat)

  /** All that the upload entries of one connection carry. */
  function PostedBy(entries: seq<Entry>, id: nat): Bytes {
    if entries == [] then []
    else (if entries[0].Posted? && entries[0].id == id then entries[0].payload else []) + PostedBy(entries[1..], id)
  }

  function Apply(s: Net, id: nat, e: Effect): Net
    requires id in s.conns
  {
    if e.crash then s.(crashed := true)
    else s.(conns := s.conns[id := e.conn], toRelay := s.toRelay + e.out, log := s.log + e.entries,
            sent := s.sent[id := (if id in s.sent then s.sent[id] else []) + PostedBy(e.entries, id)])
  }

  function WithDevice(s: Net, d: nat, v: Device): Net {
    s.(relay := s.relay.(devices := s.relay.devices[d := v]))
  }

  function RelayHandles(s: Net, m: ToRelay, garbage: nat): Net {
    match m
    case Create(_, _, _) =>
      var e := OnCreate(s.relay, m, garbage);
      s.(relay := e.relay, toProxy := s.toProxy + e.out, linkUp := e.ok)
    case Push(_, _, _) => s.(relay := OnPush(s.relay, m))
    case Transferred(_, _, _, _) => s.(relay := OnTransferred(s.relay, m))
  }

  function ProxyHandles(s: Net, m: ToProxy, size: nat): Net {
    var id := m.proxySideId;
    if id !in s.conns then s else
      match m
      case Destroy(_) => Apply(s, id, OnDestroy(s.conns[id]))
      case Notify(_, r, state) => Apply(s, id, OnNotify(id, s.conns[id], r, state))
      case PushBack(_, _) => Apply(s, id, OnPushBack(id, s.conns[id], size))
  }

  /** One step; an event that is not possible changes nothing. */
  function Step(s: Net, e: Event): Net {
    match e
    case Connect =>
      if s.crashed then s else
        s.(conns := s.conns[s.nextConn := NEW_CONN], nextConn := s.nextConn + 1, sent := s.sent[s.nextConn := []])
    case Client(id, input) => if s.crashed || id !in s.conns then s else Apply(s, id, OnInput(id, s.conns[id], input))
    case PeerClose(id) => if s.crashed || id !in s.conns then s else Apply(s, id, RelayNetwork.OnPeerClose(s.conns[id]))
    case Cleanup(id) => if s.crashed then s else s.(conns := s.conns - {id})
    case Auth(id, accepted) =>
      if s.crashed || id !in s.conns then s else Apply(s, id, OnAuthResult(id, s.conns[id], accepted))
    case Select(id, relayId, deviceId) =>
      if s.crashed || id !in s.conns then s else Apply(s, id, OnDeviceSelected(id, s.conns[id], relayId, deviceId))
    case RelayReceives(garbage) =>
      if !s.linkUp || s.toRelay == [] then s else RelayHandles(s.(toRelay := s.toRelay[1..]), s.toRelay[0], garbage)
    case ProxyReceives(size) =>
      if s.crashed || s.toProxy == [] then s else ProxyHandles(s.(toProxy := s.toProxy[1..]), s.toProxy[0], size)
    case DeviceJoins(d) => if d == 0 || d in s.relay.devices then s else WithDevice(s, d, NEW_DEVICE)
    case DeviceDeleted(d) => if d !in s.relay.devices then s else WithDevice(s, d, s.relay.devices[d].(deleted := true))
    case DeviceReceives(d) =>
      if d !in s.relay.devices || s.relay.devices[d].ctrlIn == [] then s else
        var v := s.relay.devices[d];
        var v' := v.(ctrlIn := v.ctrlIn[1..]);
        (match v.ctrlIn[0]
         case CreateConnection(id, _, _) => WithDevice(s, d, v'.(created := v.created + {id}))
         case DnsQuery(id, _) => WithDevice(s, d, v'.(queries := v.queries + {id})))
    case DeviceResolves(d, answer) =>
      if d !in s.relay.devices || answer.id !in s.relay.devices[d].queries then s else
        var v := s.relay.devices[d];
        WithDevice(s, d, v.(queries := v.queries - {answer.id}, ctrlOut := v.ctrlOut + [answer]))
    case DeviceReports(d, m) =>
      if d !in s.relay.devices || m.id !in s.relay.devices[d].created then s else
        WithDevice(s, d, s.relay.devices[d].(dataOut := s.relay.devices[d].dataOut + [m]))
    case RelayReceivesCtrl(d) =>
      if d !in s.relay.devices || s.relay.devices[d].ctrlOut == [] then s else
        var v := s.relay.devices[d];
        var t := WithDevice(s, d, v.(ctrlOut := v.ctrlOut[1..]));
        t.(relay := OnDnsResp(t.relay, d, v.ctrlOut[0]))
    case RelayReceivesData(d) =>
      if d !in s.relay.devices || s.relay.devices[d].dataOut == [] then s else
        var v := s.relay.devices[d];
        var t := WithDevice(s, d, v.(dataOut := v.dataOut[1..]));
        var f := OnDeviceData(t.relay, v.dataOut[0]);
        t.(relay := f.relay, toProxy := t.toProxy + f.out)
  }

  /** The relay or a device acts. */
  predicate IsRemote(e: Event) {
    e.RelayReceives? || e.DeviceJoins? || e.DeviceDeleted? || e.DeviceReceives? || e.DeviceResolves? || e.DeviceReports?
    || e.RelayReceivesCtrl? || e.RelayReceivesData?
  }

  ghost predicate SameConns(s: Net, t: Net) {
    t.conns == s.conns && t.nextConn == s.nextConn && t.sent == s.sent && t.log == s.log && t.crashed == s.crashed
  }

  lemma DevicesKeepConns(s: Net, d: nat, answer: DnsResp, m: FromDevice)
    ensures SameConns(s, Step(s, DeviceResolves(d, answer))) && SameConns(s, Step(s, DeviceReports(d, m)))
  {
  }

  lemma DeviceListKeepsConns(s: Net, d: nat)
    ensures SameConns(s, Step(s, DeviceJoins(d))) && SameConns(s, Step(s, DeviceDeleted(d)))
  {
  }

  lemma CommandsKeepConns(s: Net, d: nat)
    ensures SameConns(s, Step(s, DeviceReceives(d)))
  {
  }

  lemma RelayKeepsConns(s: Net, garbage: nat, d: nat)
    ensures SameConns(s, Step(s, RelayReceives(garbage)))
    ensures SameConns(s, Step(s, RelayReceivesCtrl(d))) && SameConns(s, Step(s, RelayReceivesData(d)))
  {
    hide OnCreate, OnPush, OnTransferred, OnDnsResp, OnDeviceData;
  }

  lemma RemoteKeepsConns(s: Net, e: Event)
    requires IsRemote(e)
    ensures SameConns(s, Step(s, e))
  {
    hide Step, SameConns;
    match e
    case RelayReceives(garbage) => RelayKeepsConns(s, garbage, 0);
    case RelayReceivesCtrl(d) => RelayKeepsConns(s, 0, d);
    case RelayReceivesData(d) => RelayKeepsConns(s, 0, d);
    case DeviceJoins(d) => DeviceListKeepsConns(s, d);
    case DeviceDeleted(d) => DeviceListKeepsConns(s, d);
    case DeviceReceives(d) => CommandsKeepConns(s, d);
    case DeviceResolves(d, answer) => DevicesKeepConns(s, d, answer, PostBack(0, []));
    case DeviceReports(d, m) => DevicesKeepConns(s, d, DnsResp(0, None, None), m);
  }

  lemma DataIsStep(s: Net, garbage: nat)
    requires s.linkUp && s.toRelay != [] && !s.toRelay[0].Create?
    ensures var m := s.toRelay[0];
      Step(s, RelayReceives(garbage)) ==
        s.(toRelay := s.toRelay[1..], relay := if m.Push? then OnPush(s.relay, m) else OnTransferred(s.relay, m))
  {
    hide OnPush, OnTransferred;
  }

  lemma NoMessage(s: Net, garbage: nat)
    requires !s.linkUp || s.toRelay == []
    ensures Step(s, RelayReceives(garbage)) == s
  {
  }

  lemma LocalKeepsRelay(s: Net, e: Event)
    requires !IsRemote(e)
    ensures Step(s, e).relay == s.relay
  {
    hide OnInput, OnAuthResult, OnDeviceSelected, OnNotify, OnPushBack, RelayNetwork.OnPeerClose, OnDestroy;
  }

  function Run(s: Net, events: seq<Event>): Net
    decreases |events|
  {
    if events == [] then s else Run(Step(s, events[0]), events[1..])
  }

  // ---------------------------------------------------------------------------------------
  // The invariant: the order of what happens to a connection
  // ---------------------------------------------------------------------------------------

  /** How far connection `id` has come: authorised, device chosen, create sent, established, in this order. */
  function Stage(log: seq<Entry>, id: nat): (r: nat)
    ensures r <= 4
  {
    if log == [] then 0 else
      var n := Stage(log[..|log| - 1], id);
      var e := log[|log| - 1];
      if e.id != id then n
      else match e
        case Authorised(_) => if n == 0 then 1 else n
        case DeviceChosen(_) => if n == 1 then 2 else n
        case CreateSent(_) => if n == 2 then 3 else n
        case Ready(_) => if n == 3 then 4 else n
        case Posted(_, _) => n
  }

  /** The stage that a phase presupposes. */
  function Needs(p: Phase): nat {
    if IsReady(p) then 4
    else if WaitsForEstablish(p) then 3
    else if p.S5WaitForConnectionRequest? then 2
    else if p.S5WaitForDeviceSelection? || p.HttpRawWaitForDeviceSelection? || p.HttpNormalWaitForDeviceSelection? then
      1
    else 0
  }

  ghost predicate StagesAgree(conns: map<nat, Conn>, log: seq<Entry>) {
    forall id :: id in conns ==> Needs(conns[id].phase) <= Stage(log, id)
  }

  /** Whatever is posted is posted by a connection that has come all the way. */
  ghost predicate PostsInOrder(log: seq<Entry>) {
    forall k :: 0 <= k < |log| && log[k].Posted? ==> Stage(log[..k], log[k].id) == 4
  }

  lemma StageStep(log: seq<Entry>, e: Entry, id: nat)
    ensures Stage(log, id) <= Stage(log + [e], id)
    ensures e == Authorised(id) ==> 1 <= Stage(log + [e], id)
    ensures e == DeviceChosen(id) && 1 <= Stage(log, id) ==> 2 <= Stage(log + [e], id)
    ensures e == CreateSent(id) && 2 <= Stage(log, id) ==> 3 <= Stage(log + [e], id)
    ensures e == Ready(id) && 3 <= Stage(log, id) ==> 4 <= Stage(log + [e], id)
    ensures e.Posted? ==> Stage(log + [e], id) == Stage(log, id)
  {
    assert (log + [e])[..|log|] == log;
  }

  lemma PostsStep(log: seq<Entry>, e: Entry)
    requires PostsInOrder(log) && (e.Posted? ==> Stage(log, e.id) == 4)
    ensures PostsInOrder(log + [e])
  {
    var more := log + [e];
    forall k | 0 <= k < |more| && more[k].Posted? ensures Stage(more[..k], more[k].id) == 4 {
      if k < |log| { assert more[..k] == log[..k]; } else { assert more[..k] == log; }
    }
  }

  lemma {:induction false} PostsOnly(log: seq<Entry>, id: nat, chunks: seq<Bytes>)
    requires PostsInOrder(log) && (chunks != [] ==> Stage(log, id) == 4)
    ensures PostsInOrder(log + Posts(id, chunks))
    ensures forall x :: Stage(log + Posts(id, chunks), x) == Stage(log, x)
    decreases |chunks|
  {
    var all := Posts(id, chunks);
    if chunks == [] {
      assert log + all == log;
    } else {
      var k := |chunks| - 1;
      PostsOnly(log, id, chunks[..k]);
      assert all == Posts(id, chunks[..k]) + [Posted(id, chunks[k])];
      assert log + all == (log + Posts(id, chunks[..k])) + [Posted(id, chunks[k])];
      PostsStep(log + Posts(id, chunks[..k]), Posted(id, chunks[k]));
      forall x ensures Stage(log + all, x) == Stage(log, x) {
        StageStep(log + Posts(id, chunks[..k]), Posted(id, chunks[k]), x);
      }
    }
  }

  // ---------------------------------------------------------------------------------------
  // The invariant: who talks about which relayed connection
  // ---------------------------------------------------------------------------------------

  /** `r` is a relayed connection of client connection `id`, and its device has established it. */
  ghost predicate Belongs(contexts: map<nat, Context>, r: nat, id: nat) {
    r in contexts && contexts[r].proxySideId == id && contexts[r].reported.Some?
  }

  ghost predicate ConnsAgree(conns: map<nat, Conn>, nextConn: nat, contexts: map<nat, Context>) {
    forall id :: id in conns ==>
      && 0 < id < nextConn
      && (conns[id].relaySideId != 0 ==> Belongs(contexts, conns[id].relaySideId, id))
      && (IsReady(conns[id].phase) ==> conns[id].relaySideId != 0)
  }

  ghost predicate MessageAgrees(m: ToRelay, nextConn: nat, contexts: map<nat, Context>) {
    && 0 < m.proxySideId < nextConn
    && (m.Push? ==> Belongs(contexts, m.relaySideId, m.proxySideId) && 0 < |m.payload| <= MAX_PAYLOAD_SIZE)
    && (m.Transferred? ==> m.relaySideId == 0 || Belongs(contexts, m.relaySideId, m.proxySideId))
  }

  ghost predicate MessagesAgree(q: seq<ToRelay>, nextConn: nat, contexts: map<nat, Context>) {
    forall i :: 0 <= i < |q| ==> MessageAgrees(q[i], nextConn, contexts)
  }

  ghost predicate NoticesAgree(q: seq<ToProxy>, contexts: map<nat, Context>) {
    forall i :: 0 <= i < |q| && q[i].Notify? && q[i].state.Established? ==>
      Belongs(contexts, q[i].relaySideId, q[i].proxySideId)
  }

  /** The create request of a connection has been sent. */
  predicate CreateDone(p: Phase) {
    WaitsForEstablish(p) || IsReady(p) || IsClosed(p)
  }

  ghost predicate CreateQueued(q: seq<ToRelay>, id: nat) {
    exists i :: 0 <= i < |q| && q[i].Create? && q[i].proxySideId == id
  }

  ghost predicate HasContext(contexts: map<nat, Context>, id: nat) {
    exists r :: r in contexts && contexts[r].proxySideId == id
  }

  /** A client connection is relayed at most once. */
  ghost predicate CreatesAgree(conns: map<nat, Conn>, q: seq<ToRelay>, contexts: map<nat, Context>) {
    && (forall i, j :: 0 <= i < j < |q| && q[i].Create? && q[j].Create? ==> q[i].proxySideId != q[j].proxySideId)
    && (forall i :: 0 <= i < |q| && q[i].Create? ==> !HasContext(contexts, q[i].proxySideId))
    && (forall r1, r2 :: r1 in contexts && r2 in contexts && r1 != r2 ==>
      contexts[r1].proxySideId != contexts[r2].proxySideId)
    && (forall id :: id in conns && (CreateQueued(q, id) || HasContext(contexts, id)) ==> CreateDone(conns[id].phase))
  }

  ghost predicate ContextsAgree(r: Relay, nextConn: nat) {
    && 0 < r.nextId
    && forall x :: x in r.contexts ==>
      && 0 < x < r.nextId && UnionSound(r.contexts[x])
      && r.contexts[x].deviceId in r.devices && 0 < r.contexts[x].proxySideId < nextConn
  }

  // ---------------------------------------------------------------------------------------
  // The invariant: resolving and creating
  // ---------------------------------------------------------------------------------------

  ghost predicate CreateIn(q: seq<ToDeviceCtrl>, x: nat) {
    exists i :: 0 <= i < |q| && q[i].CreateConnection? && q[i].id == x
  }

  ghost predicate RespIn(q: seq<DnsResp>, x: nat) {
    exists i :: 0 <= i < |q| && q[i].id == x
  }

  ghost predicate EstablishedAt(x: nat, d: nat, contexts: map<nat, Context>) {
    x in contexts && contexts[x].deviceId == d && contexts[x].reported.Some?
  }

  /** One device and the links to and from it. A name is being resolved in one place at a time, and
      while it is, nobody was told to create the connection; a device speaks only of connections that
      it was told to create. */
  ghost predicate DeviceAgrees(d: nat, v: Device, contexts: map<nat, Context>) {
    && (forall i :: 0 <= i < |v.ctrlIn| ==> v.ctrlIn[i].id in contexts && contexts[v.ctrlIn[i].id].deviceId == d)
    && (forall i, j :: 0 <= i < j < |v.ctrlIn| && v.ctrlIn[i].DnsQuery? ==> v.ctrlIn[i].id != v.ctrlIn[j].id)
    && (forall i, j :: 0 <= i < j < |v.ctrlIn| && v.ctrlIn[j].DnsQuery? ==> v.ctrlIn[i].id != v.ctrlIn[j].id)
    && (forall i :: 0 <= i < |v.ctrlIn| && v.ctrlIn[i].DnsQuery? ==>
          var x := v.ctrlIn[i].id;
          x !in v.queries && x !in v.created && !RespIn(v.ctrlOut, x) && contexts[x].reported.None?)
    && (forall x :: x in v.queries ==>
          && x in contexts && contexts[x].deviceId == d && contexts[x].reported.None?
          && x !in v.created && !RespIn(v.ctrlOut, x) && !CreateIn(v.ctrlIn, x))
    && (forall i :: 0 <= i < |v.ctrlOut| ==>
          var x := v.ctrlOut[i].id;
          && x in contexts && contexts[x].deviceId == d && contexts[x].reported.None?
          && x !in v.created && !CreateIn(v.ctrlIn, x))
    && (forall i, j :: 0 <= i < j < |v.ctrlOut| ==> v.ctrlOut[i].id != v.ctrlOut[j].id)
    && (forall x :: x in v.created ==> x in contexts && contexts[x].deviceId == d)
    && (forall i :: 0 <= i < |v.dataOut| ==> v.dataOut[i].id in v.created)
    && (forall x :: x in contexts && contexts[x].deviceId == d && contexts[x].reported.Some? ==> x in v.created)
    && (forall i :: 0 <= i < |v.dataIn| ==> EstablishedAt(v.dataIn[i].id, d, contexts))
    && (forall i :: 0 <= i < |v.dataIn| && v.dataIn[i].PostData? ==> 0 < |v.dataIn[i].payload| <= MAX_PAYLOAD_SIZE)
  }

  ghost predicate DevicesAgree(r: Relay) {
    forall d :: d in r.devices ==> DeviceAgrees(d, r.devices[d], r.contexts)
  }

  // ---------------------------------------------------------------------------------------
  // The invariant: the bytes
  // ---------------------------------------------------------------------------------------

  /** The bytes of relayed connection `r` still under way to the relay. */
  function Pending(q: seq<ToRelay>, r: nat): Bytes {
    if q == [] then [] else (if q[0].Push? && q[0].relaySideId == r then q[0].payload else []) + Pending(q[1..], r)
  }

  /** The bytes of relayed connection `r` that were passed on to the device. */
  function Delivered(q: seq<ToDeviceData>, r: nat): Bytes {
    if q == [] then []
    else Delivered(q[..|q| - 1], r) + if q[|q| - 1].PostData? && q[|q| - 1].id == r then q[|q| - 1].payload else []
  }

  /** What was delivered is the beginning of what was sent, and as long as device and link are there the
      rest is on its way. */
  ghost predicate FlowAgrees(r: Relay, x: nat, q: seq<ToRelay>, linkUp: bool, sent: Bytes)
    requires x in r.contexts && r.contexts[x].deviceId in r.devices
  {
    var d := r.contexts[x].deviceId;
    var got := Delivered(r.devices[d].dataIn, x);
    if linkUp && HasDevice(r, d) then got + Pending(q, x) == sent else got <= sent
  }

  ghost predicate SentAgrees(sent: map<nat, Bytes>, nextConn: nat, r: Relay, q: seq<ToRelay>, linkUp: bool) {
    && (forall id :: id in sent <==> 0 < id < nextConn)
    && (forall id :: id in sent && !HasContext(r.contexts, id) ==> sent[id] == [])
    && (forall x :: x in r.contexts ==>
          && r.contexts[x].deviceId in r.devices && r.contexts[x].proxySideId in sent
          && FlowAgrees(r, x, q, linkUp, sent[r.contexts[x].proxySideId]))
  }

  ghost predicate Inv(s: Net) {
    && 0 < s.nextConn
    && StagesAgree(s.conns, s.log) && PostsInOrder(s.log)
      && (forall k :: 0 <= k < |s.log| ==> 0 < s.log[k].id < s.nextConn)
    && ConnsAgree(s.conns, s.nextConn, s.relay.contexts)
    && MessagesAgree(s.toRelay, s.nextConn, s.relay.contexts)
    && NoticesAgree(s.toProxy, s.relay.contexts)
    && CreatesAgree(s.conns, s.toRelay, s.relay.contexts)
    && ContextsAgree(s.relay, s.nextConn)
    && DevicesAgree(s.relay)
    && SentAgrees(s.sent, s.nextConn, s.relay, s.toRelay, s.linkUp)
  }

  lemma StartInv(capacity: nat)
    ensures Inv(Start(capacity))
  {
  }
}
