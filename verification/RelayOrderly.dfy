/** Runs in which the access server's assertion on notices holds: the relay always has room, and a device
    reports a connection as established before it reports anything else about it. */
module RelayOrderly {
  import opened Lists
  import opened RelayNetwork
  import opened RelayRuns
  import opened RelaySteps
  import opened RelayInvariant
  import opened RelayTheorems

  // ---------------------------------------------------------------------------------------
  // Orderly runs
  // ---------------------------------------------------------------------------------------

  ghost predicate ReportedIn(q: seq<FromDevice>, x: nat) {
    exists i :: 0 <= i < |q| && q[i].State? && q[i].id == x
  }

  /** Device `d` has not reported anything about connection `x` yet. */
  ghost predicate Unreported(s: Net, d: nat, x: nat)
    requires d in s.relay.devices
  {
    x in s.relay.contexts && s.relay.contexts[x].reported.None? && !ReportedIn(s.relay.devices[d].dataOut, x)
  }

  ghost predicate Orderly(s: Net, e: Event) {
    match e
    case RelayReceives(_) =>
      s.linkUp && s.toRelay != [] && s.toRelay[0].Create? ==> |s.relay.contexts| < s.relay.capacity
    case DeviceReports(d, m) => m.State? && d in s.relay.devices && Unreported(s, d, m.id) ==> m.state.Established?
    case _ => true
  }

  ghost predicate OrderlyRun(s: Net, events: seq<Event>)
    decreases |events|
  {
    events == [] || (Orderly(s, events[0]) && OrderlyRun(Step(s, events[0]), events[1..]))
  }

  // ---------------------------------------------------------------------------------------
  // What they keep
  // ---------------------------------------------------------------------------------------

  ghost predicate NoticeAt(q: seq<ToProxy>, i: int, id: nat) {
    0 <= i < |q| && q[i].Notify? && q[i].proxySideId == id
  }

  ghost predicate EstablishedIn(q: seq<ToProxy>, id: nat, n: int) {
    exists j :: 0 <= j < n && NoticeAt(q, j, id) && q[j].state.Established?
  }

  /** Notices are about relayed connections. */
  ghost predicate NoticesRelayed(q: seq<ToProxy>, contexts: map<nat, Context>) {
    forall i, id :: NoticeAt(q, i, id) ==> HasContext(contexts, id)
  }

  /** The first notice about a connection that waits to be established says that it is. */
  ghost predicate FirstNotices(q: seq<ToProxy>, conns: map<nat, Conn>) {
    forall i, id :: NoticeAt(q, i, id) && id in conns && WaitsForEstablish(conns[id].phase) ==>
      EstablishedIn(q, id, i + 1)
  }

  /** If its device has established it, that notice is on its way. */
  ghost predicate NoticesComing(q: seq<ToProxy>, conns: map<nat, Conn>, contexts: map<nat, Context>) {
    forall id, x :: id in conns && WaitsForEstablish(conns[id].phase) && Belongs(contexts, x, id) ==>
      EstablishedIn(q, id, |q|)
  }

  ghost predicate EstablishedOut(q: seq<FromDevice>, x: nat, n: int) {
    exists j :: 0 <= j < n && j < |q| && q[j].State? && q[j].id == x && q[j].state.Established?
  }

  /** So does the first report about a connection of which the relay has heard nothing yet. */
  ghost predicate FirstReports(q: seq<FromDevice>, contexts: map<nat, Context>) {
    forall i :: 0 <= i < |q| && q[i].State? && q[i].id in contexts && contexts[q[i].id].reported.None? ==>
      EstablishedOut(q, q[i].id, i + 1)
  }

  ghost predicate ReportsAgree(r: Relay) {
    forall d :: d in r.devices ==> FirstReports(r.devices[d].dataOut, r.contexts)
  }

  ghost predicate InOrder(s: Net) {
    && !s.crashed
    && NoticesRelayed(s.toProxy, s.relay.contexts) && FirstNotices(s.toProxy, s.conns)
    && NoticesComing(s.toProxy, s.conns, s.relay.contexts) && ReportsAgree(s.relay)
  }

  // ---------------------------------------------------------------------------------------
  // Handlers of the access server
  // ---------------------------------------------------------------------------------------

  /** A connection begins to wait only when its create request is sent. */
  predicate WaitsAsBefore(before: Phase, after: Phase) {
    WaitsForEstablish(after) ==> WaitsForEstablish(before) || !CreateDone(before)
  }

  lemma ClientsWaitAsBefore(id: nat, conn: Conn, input: Input)
    ensures WaitsAsBefore(conn.phase, OnInput(id, conn, input).conn.phase)
    ensures WaitsAsBefore(conn.phase, RelayNetwork.OnPeerClose(conn).conn.phase)
  {
    hide Upload;
    if input.Data? { UploadKeepsPhase(id, conn, input.bytes, 0); }
  }

  lemma ServicesWaitAsBefore(id: nat, conn: Conn, accepted: bool, relayId: nat, deviceId: nat)
    ensures WaitsAsBefore(conn.phase, OnAuthResult(id, conn, accepted).conn.phase)
    ensures WaitsAsBefore(conn.phase, OnDeviceSelected(id, conn, relayId, deviceId).conn.phase)
  {
  }

  lemma Unrelayed(s: Net, id: nat)
    requires Inv(s) && id in s.conns && !CreateDone(s.conns[id].phase)
    ensures !HasContext(s.relay.contexts, id)
  {
    hide StagesAgree, PostsInOrder, ConnsAgree, MessagesAgree, NoticesAgree, ContextsAgree, DevicesAgree, SentAgrees;
    hide CreateQueued;
  }

  lemma BelongsIsRelayed(contexts: map<nat, Context>, x: nat, id: nat)
    requires Belongs(contexts, x, id)
    ensures HasContext(contexts, id)
  {
  }

  lemma ConnChangeKeepsOrder(q: seq<ToProxy>, conns: map<nat, Conn>, contexts: map<nat, Context>, id: nat, c: Conn)
    requires NoticesRelayed(q, contexts) && FirstNotices(q, conns) && NoticesComing(q, conns, contexts)
    requires WaitsForEstablish(c.phase) ==>
      (id in conns && WaitsForEstablish(conns[id].phase)) || !HasContext(contexts, id)
    ensures FirstNotices(q, conns[id := c]) && NoticesComing(q, conns[id := c], contexts)
  {
    hide NoticeAt, EstablishedIn, HasContext, Belongs;
    forall x | Belongs(contexts, x, id) ensures HasContext(contexts, id) { BelongsIsRelayed(contexts, x, id); }
  }

  lemma HandlerKeepsOrder(s: Net, id: nat, e: Effect)
    requires Inv(s) && InOrder(s) && id in s.conns && !e.crash
    requires WaitsAsBefore(s.conns[id].phase, e.conn.phase)
    ensures InOrder(Apply(s, id, e))
  {
    hide Inv, HasContext, ReportsAgree, NoticesRelayed, FirstNotices, NoticesComing;
    if !CreateDone(s.conns[id].phase) { Unrelayed(s, id); }
    ConnChangeKeepsOrder(s.toProxy, s.conns, s.relay.contexts, id, e.conn);
  }

  lemma ClientsKeepOrder(s: Net, id: nat, input: Input)
    requires Inv(s) && InOrder(s)
    ensures InOrder(Step(s, Client(id, input))) && InOrder(Step(s, PeerClose(id)))
  {
    hide Inv, InOrder, OnInput, RelayNetwork.OnPeerClose, OnDestroy, GoodEffect, GoodEntries, WaitsAsBefore;
    if !s.crashed && id in s.conns {
      var conn := s.conns[id];
      ClientsWaitAsBefore(id, conn, input);
      OnInputGood(id, conn, input);
      OnDestroyGood(id, conn);
      HandlerKeepsOrder(s, id, OnInput(id, conn, input));
      HandlerKeepsOrder(s, id, RelayNetwork.OnPeerClose(conn));
    }
  }

  lemma ServicesKeepOrder(s: Net, id: nat, accepted: bool, relayId: nat, deviceId: nat)
    requires Inv(s) && InOrder(s)
    ensures InOrder(Step(s, Auth(id, accepted))) && InOrder(Step(s, Select(id, relayId, deviceId)))
  {
    hide Inv, InOrder, OnAuthResult, OnDeviceSelected, GoodEffect, GoodEntries, WaitsAsBefore;
    if !s.crashed && id in s.conns {
      var conn := s.conns[id];
      ServicesWaitAsBefore(id, conn, accepted, relayId, deviceId);
      OnAuthResultGood(id, conn, accepted);
      OnDeviceSelectedGood(id, conn, relayId, deviceId);
      HandlerKeepsOrder(s, id, OnAuthResult(id, conn, accepted));
      HandlerKeepsOrder(s, id, OnDeviceSelected(id, conn, relayId, deviceId));
    }
  }

  lemma ConnsKeepOrder(s: Net, id: nat)
    requires InOrder(s)
    ensures InOrder(Step(s, Connect)) && InOrder(Step(s, Cleanup(id)))
  {
    hide HasContext, Belongs, EstablishedIn, ReportsAgree;
  }

  // ---------------------------------------------------------------------------------------
  // Notices
  // ---------------------------------------------------------------------------------------

  lemma TailNotices(q: seq<ToProxy>, i: int, id: nat)
    requires q != []
    ensures NoticeAt(q[1..], i, id) ==> NoticeAt(q, i + 1, id)
    ensures forall n ::
      0 <= n < |q| && EstablishedIn(q, id, n + 1) && !(NoticeAt(q, 0, id) && q[0].state.Established?) ==>
        EstablishedIn(q[1..], id, n)
  {
    forall n | 0 <= n < |q| && EstablishedIn(q, id, n + 1) && !(NoticeAt(q, 0, id) && q[0].state.Established?)
      ensures EstablishedIn(q[1..], id, n)
    {
      var j :| 0 <= j < n + 1 && NoticeAt(q, j, id) && q[j].state.Established?;
      assert NoticeAt(q[1..], j - 1, id) && q[1..][j - 1].state.Established?;
    }
  }

  /** The head of the notices is taken, and the connection that it establishes waits no longer. */
  lemma NoticeTakenInOrder(s: Net, conns: map<nat, Conn>)
    requires InOrder(s) && s.toProxy != []
    requires forall id :: id in conns && WaitsForEstablish(conns[id].phase) ==>
      && id in s.conns && WaitsForEstablish(s.conns[id].phase)
      && !(NoticeAt(s.toProxy, 0, id) && s.toProxy[0].state.Established?)
    ensures var q := s.toProxy[1..];
      NoticesRelayed(q, s.relay.contexts) && FirstNotices(q, conns) && NoticesComing(q, conns, s.relay.contexts)
  {
    hide HasContext, Belongs, ReportsAgree, EstablishedIn;
    var q := s.toProxy[1..];
    forall i, id | NoticeAt(q, i, id) ensures HasContext(s.relay.contexts, id) { TailNotices(s.toProxy, i, id); }
    forall i, id | NoticeAt(q, i, id) && id in conns && WaitsForEstablish(conns[id].phase)
      ensures EstablishedIn(q, id, i + 1)
    {
      TailNotices(s.toProxy, i, id);
      assert EstablishedIn(s.toProxy, id, i + 1 + 1);
    }
    forall id, x | id in conns && WaitsForEstablish(conns[id].phase) && Belongs(s.relay.contexts, x, id)
      ensures EstablishedIn(q, id, |q|)
    {
      TailNotices(s.toProxy, 0, id);
      assert EstablishedIn(s.toProxy, id, |q| + 1);
    }
  }

  lemma HeadIsEstablished(s: Net)
    requires InOrder(s) && s.toProxy != [] && s.toProxy[0].Notify?
    requires s.toProxy[0].proxySideId in s.conns && WaitsForEstablish(s.conns[s.toProxy[0].proxySideId].phase)
    ensures s.toProxy[0].state.Established?
  {
    var id := s.toProxy[0].proxySideId;
    assert NoticeAt(s.toProxy, 0, id);
    assert EstablishedIn(s.toProxy, id, 0 + 1);
  }

  lemma RelayWaitsAsBefore(id: nat, conn: Conn, r: nat, state: ConnectionState, size: nat)
    ensures WaitsForEstablish(OnNotify(id, conn, r, state).conn.phase) ==>
      WaitsForEstablish(conn.phase) && !state.Established?
    ensures WaitsForEstablish(OnDestroy(conn).conn.phase) ==> false
    ensures WaitsForEstablish(OnPushBack(id, conn, size).conn.phase) ==> WaitsForEstablish(conn.phase)
  {
    hide Upload, Account;
    UploadKeepsPhase(id, conn.(relaySideId := r, phase := HttpNormalReady), conn.header, 0);
    UploadKeepsPhase(id, conn, [], size);
  }

  /** What the head of the notices does to the connection that it is about. */
  lemma HeadHandled(s: Net, size: nat)
    requires InOrder(s) && s.toProxy != []
    ensures var t := Step(s, ProxyReceives(size));
      && t == s.(toProxy := s.toProxy[1..], conns := t.conns, toRelay := t.toRelay, log := t.log, sent := t.sent)
      && forall id :: id in t.conns && WaitsForEstablish(t.conns[id].phase) ==>
           && id in s.conns && WaitsForEstablish(s.conns[id].phase)
           && !(NoticeAt(s.toProxy, 0, id) && s.toProxy[0].state.Established?)
  {
    hide OnNotify, OnDestroy, OnPushBack, NoticesRelayed, NoticesComing, ReportsAgree, GoodEffect, GoodEntries;
    var m := s.toProxy[0];
    var id := m.proxySideId;
    if id in s.conns {
      var conn := s.conns[id];
      if m.Notify? && WaitsForEstablish(conn.phase) { HeadIsEstablished(s); }
      hide InOrder;
      var r, state := if m.Notify? then m.relaySideId else 0, if m.Notify? then m.state else Closed;
      NotifyCrashesExactly(id, conn, r, state);
      OnDestroyGood(id, conn);
      OnPushBackGood(id, conn, size);
      RelayWaitsAsBefore(id, conn, r, state, size);
    }
  }

  lemma ProxyKeepsOrder(s: Net, size: nat)
    requires InOrder(s)
    ensures InOrder(Step(s, ProxyReceives(size)))
  {
    if s.toProxy != [] {
      HeadHandled(s, size);
      NoticeTakenInOrder(s, Step(s, ProxyReceives(size)).conns);
      hide Step, NoticesRelayed, FirstNotices, NoticesComing, ReportsAgree;
    }
  }

  // ---------------------------------------------------------------------------------------
  // The relay and the devices
  // ---------------------------------------------------------------------------------------

  lemma EstablishedStays(a: seq<ToProxy>, b: seq<ToProxy>, id: nat, n: int, m: int)
    requires a <= b && n <= m
    ensures EstablishedIn(a, id, n) ==> EstablishedIn(b, id, m)
  {
    if EstablishedIn(a, id, n) {
      var j :| 0 <= j < n && NoticeAt(a, j, id) && a[j].state.Established?;
      assert NoticeAt(b, j, id) && b[j].state.Established?;
    }
  }

  /** Contexts may be added, devices may come, but no report is made or taken. */
  ghost predicate QuietChange(a: Relay, b: Relay) {
    && (forall x :: x in a.contexts ==> x in b.contexts && b.contexts[x] == a.contexts[x])
    && (forall x :: x in b.contexts && b.contexts[x].reported.Some? ==> x in a.contexts)
    && (forall d :: d in b.devices ==>
          (d in a.devices && b.devices[d].dataOut == a.devices[d].dataOut) || b.devices[d].dataOut == [])
  }

  lemma ContextsKeep(a: map<nat, Context>, b: map<nat, Context>)
    requires forall x :: x in a ==> x in b && b[x] == a[x]
    requires forall x :: x in b && b[x].reported.Some? ==> x in a
    ensures forall id :: HasContext(a, id) ==> HasContext(b, id)
    ensures forall x, id :: Belongs(b, x, id) ==> Belongs(a, x, id)
  {
    forall id | HasContext(a, id) ensures HasContext(b, id) {
      var x :| x in a && a[x].proxySideId == id;
      assert x in b && b[x].proxySideId == id;
    }
  }

  lemma MoreMessages(s: Net, out: seq<ToProxy>, b: map<nat, Context>)
    requires InOrder(s) && forall i :: 0 <= i < |out| ==> !out[i].Notify?
    requires forall id :: HasContext(s.relay.contexts, id) ==> HasContext(b, id)
    requires forall x, id :: Belongs(b, x, id) ==> Belongs(s.relay.contexts, x, id)
    ensures var q := s.toProxy + out; NoticesRelayed(q, b) && FirstNotices(q, s.conns) && NoticesComing(q, s.conns, b)
  {
    var p := s.toProxy + out;
    forall i, id | NoticeAt(p, i, id) ensures NoticeAt(s.toProxy, i, id) { }
    hide NoticeAt, HasContext, Belongs, EstablishedIn, ReportsAgree;
    forall i, id | NoticeAt(p, i, id) && id in s.conns && WaitsForEstablish(s.conns[id].phase)
      ensures EstablishedIn(p, id, i + 1)
    {
      EstablishedStays(s.toProxy, p, id, i + 1, i + 1);
    }
    forall id, x | id in s.conns && WaitsForEstablish(s.conns[id].phase) && Belongs(b, x, id)
      ensures EstablishedIn(p, id, |p|)
    {
      EstablishedStays(s.toProxy, p, id, |s.toProxy|, |p|);
    }
  }

  lemma QuietKeepsOrder(s: Net, r: Relay, out: seq<ToProxy>, q: seq<ToRelay>, linkUp: bool)
    requires Inv(s) && InOrder(s) && QuietChange(s.relay, r) && forall i :: 0 <= i < |out| ==> !out[i].Notify?
    ensures InOrder(s.(relay := r, toProxy := s.toProxy + out, toRelay := q, linkUp := linkUp))
  {
    hide Inv, NoticesRelayed, FirstNotices, NoticesComing, HasContext, Belongs, FirstReports;
    ContextsKeep(s.relay.contexts, r.contexts);
    MoreMessages(s, out, r.contexts);
    KnownReports(s);
    forall d | d in r.devices ensures FirstReports(r.devices[d].dataOut, r.contexts) {
      if r.devices[d].dataOut == [] {
        NoReports(r.contexts);
      } else {
        OtherReports(s.relay.devices[d].dataOut, s.relay.contexts, r.contexts);
      }
    }
  }

  lemma NoReports(contexts: map<nat, Context>)
    ensures FirstReports([], contexts)
  {
  }

  lemma KnownReports(s: Net)
    requires Inv(s)
    ensures forall d, i :: d in s.relay.devices && 0 <= i < |s.relay.devices[d].dataOut| ==>
      var x := s.relay.devices[d].dataOut[i].id; x in s.relay.contexts && s.relay.contexts[x].deviceId == d
    ensures s.relay.nextId !in s.relay.contexts
  {
    hide DeviceAgrees;
    forall d, i | d in s.relay.devices && 0 <= i < |s.relay.devices[d].dataOut|
      ensures var x := s.relay.devices[d].dataOut[i].id; x in s.relay.contexts && s.relay.contexts[x].deviceId == d
    {
      OneReport(d, s.relay.devices[d], s.relay.contexts, i);
    }
  }

  lemma OneReport(d: nat, v: Device, contexts: map<nat, Context>, i: nat)
    requires DeviceAgrees(d, v, contexts) && i < |v.dataOut|
    ensures v.dataOut[i].id in contexts && contexts[v.dataOut[i].id].deviceId == d
  {
    hide RespIn, CreateIn;
  }

  lemma CreateIsQuiet(r: Relay, m: ToRelay, garbage: nat)
    requires m.Create? && |r.contexts| < r.capacity && r.nextId !in r.contexts
    ensures var e := OnCreate(r, m, garbage);
      QuietChange(r, e.relay) && forall i :: 0 <= i < |e.out| ==> !e.out[i].Notify?
  {
    hide WritePort;
  }

  lemma MessagesAreQuiet(r: Relay, m: ToRelay)
    ensures m.Push? ==> QuietChange(r, OnPush(r, m))
    ensures m.Transferred? ==> QuietChange(r, OnTransferred(r, m))
  {
  }

  lemma RelayReceivesKeepsOrder(s: Net, garbage: nat)
    requires Inv(s) && InOrder(s) && Orderly(s, RelayReceives(garbage))
    ensures InOrder(Step(s, RelayReceives(garbage)))
  {
    hide Inv, InOrder, QuietChange, OnCreate, OnPush, OnTransferred;
    if s.linkUp && s.toRelay != [] {
      var m := s.toRelay[0];
      KnownReports(s);
      MessagesAreQuiet(s.relay, m);
      assert s.toProxy + [] == s.toProxy;
      match m
      case Create(_, _, _) =>
        CreateIsQuiet(s.relay, m, garbage);
        var e := OnCreate(s.relay, m, garbage);
        QuietKeepsOrder(s, e.relay, e.out, s.toRelay[1..], e.ok);
      case Push(_, _, _) => QuietKeepsOrder(s, OnPush(s.relay, m), [], s.toRelay[1..], s.linkUp);
      case Transferred(_, _, _, _) => QuietKeepsOrder(s, OnTransferred(s.relay, m), [], s.toRelay[1..], s.linkUp);
    }
  }

  lemma DeviceIsQuiet(s: Net, d: nat, v: Device)
    requires v.dataOut == [] || (d in s.relay.devices && v.dataOut == s.relay.devices[d].dataOut)
    ensures QuietChange(s.relay, WithDevice(s, d, v).relay)
  {
  }

  lemma DeviceChangeKeepsOrder(s: Net, d: nat, v: Device)
    requires Inv(s) && InOrder(s)
    requires v.dataOut == [] || (d in s.relay.devices && v.dataOut == s.relay.devices[d].dataOut)
    ensures InOrder(WithDevice(s, d, v))
  {
    hide Inv, InOrder, QuietChange;
    DeviceIsQuiet(s, d, v);
    QuietKeepsOrder(s, WithDevice(s, d, v).relay, [], s.toRelay, s.linkUp);
    assert s.toProxy + [] == s.toProxy;
  }

  /** Events of devices that leave their reports alone. */
  lemma QuietDevicesKeepOrder(s: Net, d: nat, answer: DnsResp)
    requires Inv(s) && InOrder(s)
    ensures InOrder(Step(s, DeviceJoins(d))) && InOrder(Step(s, DeviceDeleted(d)))
    ensures InOrder(Step(s, DeviceReceives(d))) && InOrder(Step(s, DeviceResolves(d, answer)))
  {
    hide Inv, InOrder;
    DeviceChangeKeepsOrder(s, d, NEW_DEVICE);
    if d in s.relay.devices {
      var v := s.relay.devices[d];
      DeviceChangeKeepsOrder(s, d, v.(deleted := true));
      DeviceChangeKeepsOrder(s, d, Answered(v, answer));
      if v.ctrlIn != [] { DeviceChangeKeepsOrder(s, d, Taken(v)); }
    }
  }

  lemma CtrlKeepsOrder(s: Net, d: nat)
    requires Inv(s) && InOrder(s)
    ensures InOrder(Step(s, RelayReceivesCtrl(d)))
  {
    hide Inv, InOrder, ReadPort, DeviceAgrees;
    if d in s.relay.devices && s.relay.devices[d].ctrlOut != [] {
      var v := s.relay.devices[d];
      DeviceFacts(s, d);
      CtrlFacts(d, v, s.relay.contexts);
      var m := v.ctrlOut[0];
      var port := ReadPort(s.relay.contexts[m.id].raw);
      var create := if m.ipv6.Some? then [CreateConnection(m.id, m.ipv6.value, port)]
                    else if m.ipv4.Some? then [CreateConnection(m.id, m.ipv4.value, port)] else [];
      ResolvedIsStep(s, d, create);
      DeviceChangeKeepsOrder(s, d, Resolved(v, create));
    }
  }

  lemma OutStays(q: seq<FromDevice>, m: FromDevice, x: nat, n: nat, k: nat)
    requires EstablishedOut(q, x, n) && n <= k
    ensures EstablishedOut(q + [m], x, k)
  {
    var j :| 0 <= j < n && j < |q| && q[j].State? && q[j].id == x && q[j].state.Established?;
    assert (q + [m])[j] == q[j];
  }

  /** What has been reported about first, was reported as established first. */
  lemma ReportedFirst(q: seq<FromDevice>, contexts: map<nat, Context>, x: nat)
    requires FirstReports(q, contexts) && ReportedIn(q, x) && x in contexts && contexts[x].reported.None?
    ensures EstablishedOut(q, x, |q|)
  {
    var k :| 0 <= k < |q| && q[k].State? && q[k].id == x;
    assert EstablishedOut(q, q[k].id, k + 1);
    var j :| 0 <= j < k + 1 && j < |q| && q[j].State? && q[j].id == x && q[j].state.Established?;
  }

  lemma LastOut(q: seq<FromDevice>, m: FromDevice)
    requires m.State? && m.state.Established?
    ensures EstablishedOut(q + [m], m.id, |q| + 1)
  {
    assert (q + [m])[|q|] == m;
  }

  lemma ReportAdded(q: seq<FromDevice>, m: FromDevice, contexts: map<nat, Context>)
    requires FirstReports(q, contexts)
    requires m.State? && m.id in contexts && contexts[m.id].reported.None? && !ReportedIn(q, m.id) ==>
      m.state.Established?
    ensures FirstReports(q + [m], contexts)
  {
    hide EstablishedOut, ReportedIn;
    var more := q + [m];
    forall i | 0 <= i < |more| && more[i].State? && more[i].id in contexts && contexts[more[i].id].reported.None?
      ensures EstablishedOut(more, more[i].id, i + 1)
    {
      if i < |q| {
        assert more[i] == q[i];
        OutStays(q, m, q[i].id, i + 1, i + 1);
      } else if ReportedIn(q, m.id) {
        ReportedFirst(q, contexts, m.id);
        OutStays(q, m, m.id, |q|, i + 1);
      } else {
        LastOut(q, m);
      }
    }
  }

  lemma ReportsKeepOrder(s: Net, d: nat, m: FromDevice)
    requires InOrder(s) && Orderly(s, DeviceReports(d, m))
    ensures InOrder(Step(s, DeviceReports(d, m)))
  {
    if d in s.relay.devices && m.id in s.relay.devices[d].created {
      ReportAdded(s.relay.devices[d].dataOut, m, s.relay.contexts);
      hide FirstReports, NoticesRelayed, FirstNotices, NoticesComing;
    }
  }

  lemma ReportTaken(q: seq<FromDevice>, a: map<nat, Context>, b: map<nat, Context>)
    requires q != [] && FirstReports(q, a)
    requires forall x :: x in b && b[x].reported.None? ==> x in a && a[x].reported.None?
    requires q[0].State? && q[0].state.Established? && q[0].id in b ==> b[q[0].id].reported.Some?
    ensures FirstReports(q[1..], b)
  {
    forall i | 0 <= i < |q| - 1 ensures q[1..][i] == q[i + 1] { }
    forall i | 0 <= i < |q| - 1 && q[1..][i].State? && q[1..][i].id in b && b[q[1..][i].id].reported.None?
      ensures EstablishedOut(q[1..], q[1..][i].id, i + 1)
    {
      var x := q[1..][i].id;
      assert q[i + 1].State? && EstablishedOut(q, x, i + 1 + 1);
      var j :| 0 <= j < i + 2 && j < |q| && q[j].State? && q[j].id == x && q[j].state.Established?;
      assert q[1..][j - 1] == q[j];
    }
  }

  lemma FirstReportIsEstablished(q: seq<FromDevice>, contexts: map<nat, Context>)
    requires FirstReports(q, contexts) && q != [] && q[0].State? && q[0].id in contexts
      && contexts[q[0].id].reported.None?
    ensures q[0].state.Established?
  {
    assert EstablishedOut(q, q[0].id, 0 + 1);
  }

  /** `b` is `a`, where the device may have established connection `x`. */
  ghost predicate HeardOf(a: map<nat, Context>, b: map<nat, Context>, x: nat, established: bool) {
    && (forall y :: y in b <==> y in a)
    && (forall y :: y in a ==>
      b[y].proxySideId == a[y].proxySideId && b[y].deviceId == a[y].deviceId && (y != x ==> b[y] == a[y]))
    && (if established then x in b && b[x].reported.Some? else b == a)
  }

  lemma HeardOfContexts(a: map<nat, Context>, b: map<nat, Context>, x: nat, established: bool)
    requires HeardOf(a, b, x, established) && x in a
    ensures forall id :: HasContext(a, id) ==> HasContext(b, id)
    ensures HasContext(b, a[x].proxySideId)
    ensures forall y, id :: Belongs(b, y, id) ==> Belongs(a, y, id) || (established && id == a[x].proxySideId)
  {
    forall id | HasContext(a, id) ensures HasContext(b, id) {
      var y :| y in a && a[y].proxySideId == id;
      assert y in b && b[y].proxySideId == id;
    }
    assert x in b && b[x].proxySideId == a[x].proxySideId;
  }

  lemma OldOrNew(p: seq<ToProxy>, m: ToProxy)
    requires m.Notify?
    ensures forall i, id :: NoticeAt(p + [m], i, id) ==> NoticeAt(p, i, id) || (i == |p| && id == m.proxySideId)
    ensures m.state.Established? ==> EstablishedIn(p + [m], m.proxySideId, |p| + 1)
  {
    if m.state.Established? {
      assert NoticeAt(p + [m], |p|, m.proxySideId) && (p + [m])[|p|].state.Established?;
    }
  }

  lemma NoticeAdded(s: Net, b: map<nat, Context>, x: nat, state: ConnectionState)
    requires InOrder(s) && x in s.relay.contexts && HeardOf(s.relay.contexts, b, x, state.Established?)
    requires !state.Established? ==> s.relay.contexts[x].reported.Some?
    ensures var q := s.toProxy + [Notify(s.relay.contexts[x].proxySideId, x, state)];
      NoticesRelayed(q, b) && FirstNotices(q, s.conns) && NoticesComing(q, s.conns, b)
  {
    var a, p := s.relay.contexts, s.toProxy;
    var id := a[x].proxySideId;
    var q := p + [Notify(id, x, state)];
    HeardOfContexts(a, b, x, state.Established?);
    OldOrNew(p, Notify(id, x, state));
    assert !state.Established? ==> Belongs(a, x, id);
    hide HeardOf, HasContext, EstablishedIn, NoticeAt, Belongs, ReportsAgree;
    forall i, j | NoticeAt(q, j, i) && i in s.conns && WaitsForEstablish(s.conns[i].phase)
      ensures EstablishedIn(q, i, j + 1)
    {
      if NoticeAt(p, j, i) {
        EstablishedStays(p, q, i, j + 1, j + 1);
      } else if !state.Established? {
        EstablishedStays(p, q, i, |p|, j + 1);
      }
    }
    forall i, y | i in s.conns && WaitsForEstablish(s.conns[i].phase) && Belongs(b, y, i)
      ensures EstablishedIn(q, i, |q|)
    {
      if Belongs(a, y, i) { EstablishedStays(p, q, i, |p|, |q|); }
    }
  }

  lemma ReportHeard(s: Net, d: nat, m: FromDevice)
    requires InOrder(s) && m.id in s.relay.contexts && m.State? && !m.state.Unspecified?
    requires s.relay.contexts[m.id].reported.None? ==> m.state.Established?
    ensures var f := OnDeviceData(s.relay, m);
      && NoticesRelayed(s.toProxy + f.out, f.relay.contexts) && FirstNotices(s.toProxy + f.out, s.conns)
      && NoticesComing(s.toProxy + f.out, s.conns, f.relay.contexts)
      && HeardOf(s.relay.contexts, f.relay.contexts, m.id, m.state.Established?) && f.relay.devices == s.relay.devices
  {
    hide InOrder, NoticesRelayed, FirstNotices, NoticesComing;
    var a := s.relay.contexts;
    assert a[m.id := a[m.id]] == a;
    NoticeAdded(s, OnDeviceData(s.relay, m).relay.contexts, m.id, m.state);
  }

  lemma NothingHeard(s: Net, m: FromDevice)
    requires InOrder(s) && (m.PostBack? || m.state.Unspecified?)
    ensures var f := OnDeviceData(s.relay, m);
      && NoticesRelayed(s.toProxy + f.out, f.relay.contexts) && FirstNotices(s.toProxy + f.out, s.conns)
      && NoticesComing(s.toProxy + f.out, s.conns, f.relay.contexts)
      && f.relay == s.relay
  {
    hide InOrder, NoticesRelayed, FirstNotices, NoticesComing, HasContext, Belongs;
    MoreMessages(s, OnDeviceData(s.relay, m).out, s.relay.contexts);
  }

  /** What is left of the reports once the first one of device `d` was heard. */
  lemma ReportsLeft(s: Net, d: nat, b: map<nat, Context>)
    requires Inv(s) && ReportsAgree(s.relay) && d in s.relay.devices && s.relay.devices[d].dataOut != []
    requires var m := s.relay.devices[d].dataOut[0];
      HeardOf(s.relay.contexts, b, m.id, m.State? && m.state.Established?)
    ensures FirstReports(s.relay.devices[d].dataOut[1..], b)
    ensures forall e :: e in s.relay.devices && e != d ==> FirstReports(s.relay.devices[e].dataOut, b)
  {
    KnownReports(s);
    hide Inv, FirstReports;
    ReportTaken(s.relay.devices[d].dataOut, s.relay.contexts, b);
    forall e | e in s.relay.devices && e != d ensures FirstReports(s.relay.devices[e].dataOut, b) {
      OtherReports(s.relay.devices[e].dataOut, s.relay.contexts, b);
    }
  }

  lemma DataStep(s: Net, d: nat)
    requires d in s.relay.devices && s.relay.devices[d].dataOut != []
    ensures var v := s.relay.devices[d];
      var f, t := OnDeviceData(s.relay, v.dataOut[0]), Step(s, RelayReceivesData(d));
      && t == s.(relay := t.relay, toProxy := s.toProxy + f.out) && t.relay.contexts == f.relay.contexts
      && t.relay.devices == s.relay.devices[d := v.(dataOut := v.dataOut[1..])]
  {
  }

  lemma HeadReport(s: Net, d: nat)
    requires Inv(s) && ReportsAgree(s.relay) && d in s.relay.devices && s.relay.devices[d].dataOut != []
    ensures var m := s.relay.devices[d].dataOut[0];
      && m.id in s.relay.contexts
      && (m.State? && s.relay.contexts[m.id].reported.None? ==> m.state.Established?)
  {
    KnownReports(s);
    hide Inv, FirstReports;
    var q := s.relay.devices[d].dataOut;
    if q[0].State? && s.relay.contexts[q[0].id].reported.None? { FirstReportIsEstablished(q, s.relay.contexts); }
  }

  lemma DataKeepsOrder(s: Net, d: nat)
    requires Inv(s) && InOrder(s)
    ensures InOrder(Step(s, RelayReceivesData(d)))
  {
    hide Inv, Step, NoticesRelayed, FirstNotices, NoticesComing, FirstReports, HeardOf, OnDeviceData;
    if d in s.relay.devices && s.relay.devices[d].dataOut != [] {
      var m := s.relay.devices[d].dataOut[0];
      HeadReport(s, d);
      DataStep(s, d);
      if m.State? && !m.state.Unspecified? {
        ReportHeard(s, d, m);
      } else {
        NothingHeard(s, m);
        SameIsHeard(s.relay.contexts, m.id);
      }
      ReportsLeft(s, d, OnDeviceData(s.relay, m).relay.contexts);
    } else {
      NoDataStep(s, d);
    }
  }

  lemma SameIsHeard(a: map<nat, Context>, x: nat)
    ensures HeardOf(a, a, x, false)
  {
  }

  lemma NoDataStep(s: Net, d: nat)
    requires d !in s.relay.devices || s.relay.devices[d].dataOut == []
    ensures Step(s, RelayReceivesData(d)) == s
  {
  }

  lemma OtherReports(q: seq<FromDevice>, a: map<nat, Context>, b: map<nat, Context>)
    requires FirstReports(q, a)
    requires forall i :: 0 <= i < |q| ==> q[i].id in a && q[i].id in b && b[q[i].id] == a[q[i].id]
    ensures FirstReports(q, b)
  {
    hide EstablishedOut;
  }

  // ---------------------------------------------------------------------------------------
  // Runs
  // ---------------------------------------------------------------------------------------

  lemma StepKeepsOrder(s: Net, e: Event)
    requires Inv(s) && InOrder(s) && Orderly(s, e)
    ensures InOrder(Step(s, e))
  {
    hide Inv, InOrder, Step, Orderly;
    match e
    case Connect => ConnsKeepOrder(s, 0);
    case Cleanup(id) => ConnsKeepOrder(s, id);
    case Client(id, input) => ClientsKeepOrder(s, id, input);
    case PeerClose(id) => ClientsKeepOrder(s, id, Data([]));
    case Auth(id, accepted) => ServicesKeepOrder(s, id, accepted, 0, 0);
    case Select(id, r, d) => ServicesKeepOrder(s, id, true, r, d);
    case RelayReceives(garbage) => RelayReceivesKeepsOrder(s, garbage);
    case ProxyReceives(size) => ProxyKeepsOrder(s, size);
    case DeviceReports(d, m) => ReportsKeepOrder(s, d, m);
    case RelayReceivesCtrl(d) => CtrlKeepsOrder(s, d);
    case RelayReceivesData(d) => DataKeepsOrder(s, d);
    case DeviceJoins(d) => QuietDevicesKeepOrder(s, d, DnsResp(0, None, None));
    case DeviceDeleted(d) => QuietDevicesKeepOrder(s, d, DnsResp(0, None, None));
    case DeviceReceives(d) => QuietDevicesKeepOrder(s, d, DnsResp(0, None, None));
    case DeviceResolves(d, answer) => QuietDevicesKeepOrder(s, d, answer);
  }

  lemma {:induction false} OrderlyRunKeepsOrder(s: Net, events: seq<Event>)
    requires Inv(s) && InOrder(s) && OrderlyRun(s, events)
    ensures InOrder(Run(s, events))
    decreases |events|
  {
    hide Inv, InOrder, Step, Orderly;
    if events != [] {
      StepKeepsInv(s, events[0]);
      StepKeepsOrder(s, events[0]);
      OrderlyRunKeepsOrder(Step(s, events[0]), events[1..]);
    }
  }

  /** While the relay has room and every device's first report on a connection is ESTABLISHED, the access
      server never fails its assertion, whatever else clients, services and devices do. */
  lemma OrderlyRunsDoNotCrash(capacity: nat, events: seq<Event>)
    requires OrderlyRun(Start(capacity), events)
    ensures !Run(Start(capacity), events).crashed
  {
    StartInv(capacity);
    OrderlyRunKeepsOrder(Start(capacity), events);
    hide Run, OrderlyRun;
  }
}
