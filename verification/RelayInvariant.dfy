/** The invariant of the network holds in every reachable state. */
module RelayInvariant {
  import opened Lists
  import opened RelayNetwork
  import opened RelayRuns
  import opened RelaySteps

  // ---------------------------------------------------------------------------------------
  // Connections come and go
  // ---------------------------------------------------------------------------------------

  lemma ConnectKeepsCreates(s: Net)
    requires Inv(s)
    ensures CreatesAgree(s.conns[s.nextConn := NEW_CONN], s.toRelay, s.relay.contexts)
  {
    hide StagesAgree, PostsInOrder, NoticesAgree, DevicesAgree, SentAgrees, UnionSound;
    assert !CreateQueued(s.toRelay, s.nextConn);
    assert !HasContext(s.relay.contexts, s.nextConn);
  }

  lemma ConnectKeepsSent(s: Net)
    requires Inv(s)
    ensures SentAgrees(s.sent[s.nextConn := []], s.nextConn + 1, s.relay, s.toRelay, s.linkUp)
  {
    hide StagesAgree, PostsInOrder, ConnsAgree, MessagesAgree, NoticesAgree, CreatesAgree, DevicesAgree, UnionSound;
    hide FlowAgrees, HasContext;
  }

  lemma ConnectKeepsConns(s: Net)
    requires Inv(s)
    ensures var conns := s.conns[s.nextConn := NEW_CONN];
      && StagesAgree(conns, s.log) && ConnsAgree(conns, s.nextConn + 1, s.relay.contexts)
      && MessagesAgree(s.toRelay, s.nextConn + 1, s.relay.contexts) && ContextsAgree(s.relay, s.nextConn + 1)
  {
    hide PostsInOrder, NoticesAgree, DevicesAgree, CreatesAgree, SentAgrees, UnionSound, Belongs, Stage;
  }

  lemma ConnectKeepsInv(s: Net)
    requires Inv(s)
    ensures Inv(Step(s, Connect))
  {
    hide StagesAgree, PostsInOrder, ConnsAgree, MessagesAgree, NoticesAgree, CreatesAgree, ContextsAgree, DevicesAgree;
    hide SentAgrees;
    ConnectKeepsCreates(s);
    ConnectKeepsSent(s);
    ConnectKeepsConns(s);
  }

  lemma CleanupKeepsInv(s: Net, id: nat)
    requires Inv(s)
    ensures Inv(Step(s, Cleanup(id)))
  {
    hide PostsInOrder, NoticesAgree, DevicesAgree, SentAgrees, UnionSound, CreateQueued, HasContext, Stage;
  }

  // ---------------------------------------------------------------------------------------
  // Messages to the access server
  // ---------------------------------------------------------------------------------------

  lemma OrdinaryKeepsInv(s: Net, id: nat, e: Effect)
    requires Inv(s) && id in s.conns && Ordinary(id, s.conns[id], e)
    ensures Inv(Apply(s, id, e))
  {
    ApplyKeepsInv(s, id, e);
    hide Inv, GoodEffect, GoodEntries;
  }

  lemma NoticeKeepsInv(s: Net, id: nat, r: nat, state: ConnectionState)
    requires Inv(s) && id in s.conns
    requires state.Established? ==> Belongs(s.relay.contexts, r, id)
    ensures Inv(Apply(s, id, OnNotify(id, s.conns[id], r, state)))
  {
    hide Inv, GoodEffect, GoodEntries, OnNotify, Belongs;
    var e := OnNotify(id, s.conns[id], r, state);
    OnNotifyGood(id, s.conns[id], r, state);
    if e.crash {
      CrashKeepsInv(s);
    } else {
      ApplyKeepsInv(s, id, e);
    }
  }

  lemma CrashKeepsInv(s: Net)
    requires Inv(s)
    ensures Inv(s.(crashed := true))
  {
    hide StagesAgree, PostsInOrder, ConnsAgree, MessagesAgree, NoticesAgree, CreatesAgree, ContextsAgree, DevicesAgree;
    hide SentAgrees;
  }

  lemma NoticeTakenKeepsInv(s: Net)
    requires Inv(s) && s.toProxy != []
    ensures Inv(s.(toProxy := s.toProxy[1..]))
  {
    hide StagesAgree, PostsInOrder, ConnsAgree, MessagesAgree, CreatesAgree, ContextsAgree, DevicesAgree, SentAgrees;
  }

  /** What the head of the notices may say. */
  lemma HeadNotice(s: Net)
    requires Inv(s) && s.toProxy != []
    ensures var m := s.toProxy[0];
      m.Notify? && m.state.Established? ==> Belongs(s.relay.contexts, m.relaySideId, m.proxySideId)
  {
    hide StagesAgree, PostsInOrder, ConnsAgree, MessagesAgree, CreatesAgree, ContextsAgree, DevicesAgree, SentAgrees;
    hide Belongs;
  }

  lemma DestroyKeepsInv(s: Net, id: nat, size: nat)
    requires Inv(s) && id in s.conns
    ensures Inv(Apply(s, id, OnDestroy(s.conns[id]))) && Inv(Apply(s, id, OnPushBack(id, s.conns[id], size)))
  {
    hide Inv, OnDestroy, OnPushBack, Ordinary, RelayNetwork.OnPeerClose;
    OnDestroyGood(id, s.conns[id]);
    OrdinaryKeepsInv(s, id, OnDestroy(s.conns[id]));
    OnPushBackGood(id, s.conns[id], size);
    OrdinaryKeepsInv(s, id, OnPushBack(id, s.conns[id], size));
  }

  lemma ProxyReceivesKeepsInv(s: Net, size: nat)
    requires Inv(s)
    ensures Inv(Step(s, ProxyReceives(size)))
  {
    hide Inv, Belongs, OnNotify, OnPushBack, OnDestroy, Apply;
    if !s.crashed && s.toProxy != [] {
      var m := s.toProxy[0];
      var t := s.(toProxy := s.toProxy[1..]);
      NoticeTakenKeepsInv(s);
      HeadNotice(s);
      if m.proxySideId in t.conns {
        DestroyKeepsInv(t, m.proxySideId, size);
        if m.Notify? { NoticeKeepsInv(t, m.proxySideId, m.relaySideId, m.state); }
      }
    }
  }

  lemma ServicesKeepInv(s: Net, id: nat, input: Input, accepted: bool, relayId: nat, deviceId: nat)
    requires Inv(s)
    ensures Inv(Step(s, Client(id, input))) && Inv(Step(s, PeerClose(id)))
    ensures Inv(Step(s, Auth(id, accepted))) && Inv(Step(s, Select(id, relayId, deviceId)))
  {
    hide Inv, OnInput, OnAuthResult, OnDeviceSelected, RelayNetwork.OnPeerClose, OnDestroy, Ordinary;
    if !s.crashed && id in s.conns {
      var conn := s.conns[id];
      OnInputGood(id, conn, input);
      OrdinaryKeepsInv(s, id, OnInput(id, conn, input));
      OnDestroyGood(id, conn);
      OrdinaryKeepsInv(s, id, RelayNetwork.OnPeerClose(conn));
      OnAuthResultGood(id, conn, accepted);
      OrdinaryKeepsInv(s, id, OnAuthResult(id, conn, accepted));
      OnDeviceSelectedGood(id, conn, relayId, deviceId);
      OrdinaryKeepsInv(s, id, OnDeviceSelected(id, conn, relayId, deviceId));
    }
  }

  // ---------------------------------------------------------------------------------------
  // Devices
  // ---------------------------------------------------------------------------------------

  /** What is on the data link to a device does not change, nor does a deleted device come back. */
  ghost predicate SameFlow(v: Device, w: Device) {
    w.dataIn == v.dataIn && (v.deleted ==> w.deleted)
  }

  lemma DeviceKeepsFlow(s: Net, d: nat, w: Device)
    requires Inv(s) && d in s.relay.devices && SameFlow(s.relay.devices[d], w)
    ensures var t := WithDevice(s, d, w); SentAgrees(t.sent, t.nextConn, t.relay, t.toRelay, t.linkUp)
  {
    hide StagesAgree, PostsInOrder, ConnsAgree, MessagesAgree, CreatesAgree, NoticesAgree, DevicesAgree, UnionSound;
    hide HasContext;
  }

  lemma DeviceKeepsRest(s: Net, d: nat, w: Device)
    requires Inv(s) && d in s.relay.devices && DeviceAgrees(d, w, s.relay.contexts)
    ensures var r := WithDevice(s, d, w).relay; ContextsAgree(r, s.nextConn) && DevicesAgree(r)
  {
    hide StagesAgree, PostsInOrder, ConnsAgree, MessagesAgree, CreatesAgree, NoticesAgree, DeviceAgrees, UnionSound;
    hide SentAgrees;
  }

  lemma DeviceKeepsInv(s: Net, d: nat, w: Device)
    requires Inv(s) && d in s.relay.devices && SameFlow(s.relay.devices[d], w)
    requires DeviceAgrees(d, w, s.relay.contexts)
    ensures Inv(WithDevice(s, d, w))
  {
    hide StagesAgree, PostsInOrder, ConnsAgree, MessagesAgree, NoticesAgree, CreatesAgree, ContextsAgree, DevicesAgree;
    hide SentAgrees;
    hide DeviceAgrees, SameFlow;
    DeviceKeepsFlow(s, d, w);
    DeviceKeepsRest(s, d, w);
  }

  lemma JoinKeepsFlow(s: Net, d: nat)
    requires Inv(s) && d !in s.relay.devices
    ensures var t := WithDevice(s, d, NEW_DEVICE); SentAgrees(t.sent, t.nextConn, t.relay, t.toRelay, t.linkUp)
  {
    hide StagesAgree, PostsInOrder, ConnsAgree, MessagesAgree, CreatesAgree, NoticesAgree, DevicesAgree, UnionSound;
    hide HasContext;
  }

  lemma JoinKeepsRest(s: Net, d: nat)
    requires Inv(s) && d !in s.relay.devices
    ensures var r := WithDevice(s, d, NEW_DEVICE).relay; ContextsAgree(r, s.nextConn) && DevicesAgree(r)
  {
    NewDeviceAgrees(s, d);
    hide StagesAgree, PostsInOrder, ConnsAgree, MessagesAgree, CreatesAgree, NoticesAgree, DeviceAgrees, UnionSound;
    hide SentAgrees;
  }

  lemma JoinKeepsInv(s: Net, d: nat)
    requires Inv(s)
    ensures Inv(Step(s, DeviceJoins(d)))
  {
    hide StagesAgree, PostsInOrder, ConnsAgree, MessagesAgree, NoticesAgree, CreatesAgree, ContextsAgree, DevicesAgree;
    hide SentAgrees;
    if d != 0 && d !in s.relay.devices {
      JoinKeepsFlow(s, d);
      JoinKeepsRest(s, d);
    }
  }

  lemma NewDeviceAgrees(s: Net, d: nat)
    requires ContextsAgree(s.relay, s.nextConn) && d !in s.relay.devices
    ensures DeviceAgrees(d, NEW_DEVICE, s.relay.contexts)
  {
  }

  /** The device takes a command. */
  function Taken(v: Device): Device
    requires v.ctrlIn != []
  {
    var w := v.(ctrlIn := v.ctrlIn[1..]);
    match v.ctrlIn[0]
    case CreateConnection(id, _, _) => w.(created := v.created + {id})
    case DnsQuery(id, _) => w.(queries := v.queries + {id})
  }

  lemma TakenAgrees(d: nat, v: Device, contexts: map<nat, Context>)
    requires DeviceAgrees(d, v, contexts) && v.ctrlIn != []
    ensures DeviceAgrees(d, Taken(v), contexts)
  {
    hide RespIn;
    var q := v.ctrlIn;
    assert forall i :: 0 <= i < |q| - 1 ==> q[1..][i] == q[i + 1];
    assert q[0].CreateConnection? ==> CreateIn(q, q[0].id);
    if q[0].CreateConnection? {
      forall i | 0 <= i < |v.ctrlOut| ensures v.ctrlOut[i].id != q[0].id { }
    }
  }

  /** The device answers a query. */
  function Answered(v: Device, answer: DnsResp): Device {
    v.(queries := v.queries - {answer.id}, ctrlOut := v.ctrlOut + [answer])
  }

  lemma AnsweredAgrees(d: nat, v: Device, contexts: map<nat, Context>, answer: DnsResp)
    requires DeviceAgrees(d, v, contexts) && answer.id in v.queries
    ensures DeviceAgrees(d, Answered(v, answer), contexts)
  {
    hide CreateIn;
    var q := v.ctrlOut;
    forall x | RespIn(q + [answer], x) ensures RespIn(q, x) || x == answer.id {
      var i :| 0 <= i < |q| + 1 && (q + [answer])[i].id == x;
      if i < |q| { assert q[i].id == x; }
    }
    forall i | 0 <= i < |q| ensures q[i].id != answer.id { }
  }

  /** The relay takes an answer and tells the device to create the connection, if the name was found. */
  function Resolved(v: Device, create: seq<ToDeviceCtrl>): Device
    requires v.ctrlOut != []
  {
    v.(ctrlOut := v.ctrlOut[1..], ctrlIn := v.ctrlIn + create)
  }

  lemma ResolvedAgrees(d: nat, v: Device, contexts: map<nat, Context>, create: seq<ToDeviceCtrl>)
    requires DeviceAgrees(d, v, contexts) && v.ctrlOut != []
    requires create == [] || (|create| == 1 && create[0].CreateConnection? && create[0].id == v.ctrlOut[0].id)
    ensures DeviceAgrees(d, Resolved(v, create), contexts)
  {
    var q, o := v.ctrlIn, v.ctrlOut;
    var x := o[0].id;
    assert RespIn(o, x);
    forall y | RespIn(o[1..], y) ensures RespIn(o, y) && y != x {
      var i :| 0 <= i < |o| - 1 && o[1..][i].id == y;
      assert o[i + 1].id == y;
    }
    forall y | CreateIn(q + create, y) ensures CreateIn(q, y) || y == x {
      var i :| 0 <= i < |q + create| && (q + create)[i].CreateConnection? && (q + create)[i].id == y;
      if i < |q| { assert q[i].id == y; }
    }
    hide RespIn, CreateIn;
  }

  lemma DeviceFacts(s: Net, d: nat)
    requires Inv(s) && d in s.relay.devices
    ensures DeviceAgrees(d, s.relay.devices[d], s.relay.contexts)
  {
  }

  lemma DevicesTakeAndFall(s: Net, d: nat)
    requires Inv(s)
    ensures Inv(Step(s, DeviceReceives(d))) && Inv(Step(s, DeviceDeleted(d)))
  {
    hide Inv, DeviceAgrees;
    if d in s.relay.devices {
      var v := s.relay.devices[d];
      DeviceFacts(s, d);
      DeletedAgrees(d, v, s.relay.contexts);
      DeviceKeepsInv(s, d, v.(deleted := true));
      if v.ctrlIn != [] {
        TakenAgrees(d, v, s.relay.contexts);
        DeviceKeepsInv(s, d, Taken(v));
      }
    }
  }

  lemma DevicesSpeak(s: Net, d: nat, answer: DnsResp, m: FromDevice)
    requires Inv(s)
    ensures Inv(Step(s, DeviceResolves(d, answer))) && Inv(Step(s, DeviceReports(d, m)))
  {
    hide Inv, DeviceAgrees;
    if d in s.relay.devices {
      var v := s.relay.devices[d];
      DeviceFacts(s, d);
      if answer.id in v.queries {
        AnsweredAgrees(d, v, s.relay.contexts, answer);
        DeviceKeepsInv(s, d, Answered(v, answer));
      }
      if m.id in v.created {
        SpokenAgrees(d, v, s.relay.contexts, m);
        DeviceKeepsInv(s, d, v.(dataOut := v.dataOut + [m]));
      }
    }
  }

  lemma DeletedAgrees(d: nat, v: Device, contexts: map<nat, Context>)
    requires DeviceAgrees(d, v, contexts)
    ensures DeviceAgrees(d, v.(deleted := true), contexts)
  {
    hide RespIn, CreateIn;
  }

  lemma SpokenAgrees(d: nat, v: Device, contexts: map<nat, Context>, m: FromDevice)
    requires DeviceAgrees(d, v, contexts) && m.id in v.created
    ensures DeviceAgrees(d, v.(dataOut := v.dataOut + [m]), contexts)
  {
    hide RespIn, CreateIn;
  }

  lemma HeardAgrees(d: nat, v: Device, contexts: map<nat, Context>)
    requires DeviceAgrees(d, v, contexts) && v.dataOut != []
    ensures DeviceAgrees(d, v.(dataOut := v.dataOut[1..]), contexts)
  {
    hide RespIn, CreateIn;
  }

  lemma RelayReceivesCtrlKeepsInv(s: Net, d: nat)
    requires Inv(s)
    ensures Inv(Step(s, RelayReceivesCtrl(d)))
  {
    hide Inv, DeviceAgrees, ReadPort;
    if d in s.relay.devices && s.relay.devices[d].ctrlOut != [] {
      var v := s.relay.devices[d];
      var m := v.ctrlOut[0];
      DeviceFacts(s, d);
      CtrlFacts(d, v, s.relay.contexts);
      var port := ReadPort(s.relay.contexts[m.id].raw);
      var create := if m.ipv6.Some? then [CreateConnection(m.id, m.ipv6.value, port)]
                    else if m.ipv4.Some? then [CreateConnection(m.id, m.ipv4.value, port)] else [];
      ResolvedAgrees(d, v, s.relay.contexts, create);
      DeviceKeepsInv(s, d, Resolved(v, create));
      ResolvedIsStep(s, d, create);
    }
  }

  lemma CtrlFacts(d: nat, v: Device, contexts: map<nat, Context>)
    requires DeviceAgrees(d, v, contexts) && v.ctrlOut != []
    ensures var x := v.ctrlOut[0].id; x in contexts && contexts[x].deviceId == d && contexts[x].reported.None?
  {
    hide RespIn, CreateIn;
  }

  lemma DataFacts(d: nat, v: Device, contexts: map<nat, Context>)
    requires DeviceAgrees(d, v, contexts) && v.dataOut != []
    ensures var x := v.dataOut[0].id; x in contexts && contexts[x].deviceId == d && x in v.created
  {
    hide RespIn, CreateIn;
  }

  lemma ResolvedIsStep(s: Net, d: nat, create: seq<ToDeviceCtrl>)
    requires d in s.relay.devices && s.relay.devices[d].ctrlOut != []
    requires var m := s.relay.devices[d].ctrlOut[0];
      && m.id in s.relay.contexts
      && var port := ReadPort(s.relay.contexts[m.id].raw);
         create == if m.ipv6.Some? then [CreateConnection(m.id, m.ipv6.value, port)]
                   else if m.ipv4.Some? then [CreateConnection(m.id, m.ipv4.value, port)] else []
    ensures Step(s, RelayReceivesCtrl(d)) == WithDevice(s, d, Resolved(s.relay.devices[d], create))
  {
    var v := s.relay.devices[d];
    var t := Step(s, RelayReceivesCtrl(d));
    assert v.ctrlIn + [] == v.ctrlIn;
    assert t.relay.devices == s.relay.devices[d := Resolved(v, create)];
  }

  // ---------------------------------------------------------------------------------------
  // A device reports a connection
  // ---------------------------------------------------------------------------------------

  ghost predicate ContextsGrow(a: map<nat, Context>, b: map<nat, Context>) {
    forall r :: r in a ==>
      && r in b && b[r].proxySideId == a[r].proxySideId && b[r].deviceId == a[r].deviceId
      && (a[r].reported.Some? ==> b[r].reported.Some?)
  }

  lemma GrowthKeepsProxy(s: Net, b: map<nat, Context>)
    requires ConnsAgree(s.conns, s.nextConn, s.relay.contexts) && MessagesAgree(s.toRelay, s.nextConn, s.relay.contexts)
    requires NoticesAgree(s.toProxy, s.relay.contexts) && ContextsGrow(s.relay.contexts, b)
    ensures ConnsAgree(s.conns, s.nextConn, b) && MessagesAgree(s.toRelay, s.nextConn, b) && NoticesAgree(s.toProxy, b)
  {
  }

  function Reported(contexts: map<nat, Context>, x: nat, deviceSideId: nat): map<nat, Context>
    requires x in contexts
  {
    contexts[x := contexts[x].(raw := deviceSideId, reported := Some(deviceSideId))]
  }

  lemma ReportedDevice(d: nat, v: Device, contexts: map<nat, Context>, x: nat, deviceSideId: nat)
    requires DeviceAgrees(d, v, contexts) && x in contexts && (contexts[x].deviceId == d ==> x in v.created)
    ensures DeviceAgrees(d, v, Reported(contexts, x, deviceSideId))
  {
    hide RespIn, CreateIn;
  }

  lemma ReportedSent(s: Net, x: nat, deviceSideId: nat)
    requires x in s.relay.contexts && SentAgrees(s.sent, s.nextConn, s.relay, s.toRelay, s.linkUp)
    ensures SentAgrees(s.sent, s.nextConn, s.relay.(contexts := Reported(s.relay.contexts, x, deviceSideId)),
      s.toRelay, s.linkUp)
  {
    var a, b := s.relay.contexts, Reported(s.relay.contexts, x, deviceSideId);
    forall id | HasContext(a, id) ensures HasContext(b, id) {
      var r :| r in a && a[r].proxySideId == id;
      assert r in b && b[r].proxySideId == id;
    }
  }

  lemma ReportedCreates(s: Net, x: nat, deviceSideId: nat)
    requires x in s.relay.contexts && CreatesAgree(s.conns, s.toRelay, s.relay.contexts)
    ensures CreatesAgree(s.conns, s.toRelay, Reported(s.relay.contexts, x, deviceSideId))
  {
    hide CreateQueued;
    var a, b := s.relay.contexts, Reported(s.relay.contexts, x, deviceSideId);
    forall id | HasContext(b, id) ensures HasContext(a, id) {
      var r :| r in b && b[r].proxySideId == id;
      assert r in a && a[r].proxySideId == id;
    }
    hide HasContext;
  }

  lemma ReportKeepsInv(s: Net, x: nat, deviceSideId: nat)
    requires Inv(s) && x in s.relay.contexts
    requires var d := s.relay.contexts[x].deviceId; d in s.relay.devices && x in s.relay.devices[d].created
    ensures Inv(s.(relay := s.relay.(contexts := Reported(s.relay.contexts, x, deviceSideId))))
  {
    hide StagesAgree, PostsInOrder, ConnsAgree, MessagesAgree, CreatesAgree, NoticesAgree, DeviceAgrees, SentAgrees;
    var b := Reported(s.relay.contexts, x, deviceSideId);
    GrowthKeepsProxy(s, b);
    ReportedSent(s, x, deviceSideId);
    ReportedCreates(s, x, deviceSideId);
    forall d | d in s.relay.devices ensures DeviceAgrees(d, s.relay.devices[d], b) {
      ReportedDevice(d, s.relay.devices[d], s.relay.contexts, x, deviceSideId);
    }
  }

  lemma NoticesKeepInv(s: Net, out: seq<ToProxy>)
    requires Inv(s) && NoticesAgree(out, s.relay.contexts)
    ensures Inv(s.(toProxy := s.toProxy + out))
  {
    hide StagesAgree, PostsInOrder, ConnsAgree, MessagesAgree, CreatesAgree, ContextsAgree, DevicesAgree, SentAgrees;
  }

  lemma RelayReceivesDataKeepsInv(s: Net, d: nat)
    requires Inv(s)
    ensures Inv(Step(s, RelayReceivesData(d)))
  {
    hide Inv, DeviceAgrees;
    if d in s.relay.devices && s.relay.devices[d].dataOut != [] {
      var v := s.relay.devices[d];
      var m := v.dataOut[0];
      var w := v.(dataOut := v.dataOut[1..]);
      DeviceFacts(s, d);
      DataFacts(d, v, s.relay.contexts);
      HeardAgrees(d, v, s.relay.contexts);
      DeviceKeepsInv(s, d, w);
      var t := WithDevice(s, d, w);
      var f := OnDeviceData(t.relay, m);
      if m.State? && m.state.Established? {
        ReportKeepsInv(t, m.id, m.deviceSideId);
        assert f.relay == t.relay.(contexts := Reported(t.relay.contexts, m.id, m.deviceSideId));
      } else {
        assert f.relay == t.relay && t.(relay := f.relay) == t;
      }
      NoticesKeepInv(t.(relay := f.relay), f.out);
    }
  }

  // ---------------------------------------------------------------------------------------
  // The relay handles a message
  // ---------------------------------------------------------------------------------------

  lemma TailCreates(s: Net)
    requires s.toRelay != [] && CreatesAgree(s.conns, s.toRelay, s.relay.contexts)
    ensures CreatesAgree(s.conns, s.toRelay[1..], s.relay.contexts)
    ensures s.toRelay[0].Create? ==>
      && var id := s.toRelay[0].proxySideId;
         !CreateQueued(s.toRelay[1..], id) && !HasContext(s.relay.contexts, id)
           && (id in s.conns ==> CreateDone(s.conns[id].phase))
  {
    hide HasContext, CreateDone;
    var q := s.toRelay;
    assert forall i :: 0 <= i < |q| - 1 ==> q[1..][i] == q[i + 1];
    forall id | CreateQueued(q[1..], id) ensures CreateQueued(q, id) {
      var i :| 0 <= i < |q| - 1 && q[1..][i].Create? && q[1..][i].proxySideId == id;
      assert q[i + 1].Create? && q[i + 1].proxySideId == id;
    }
    assert q[0].Create? ==> CreateQueued(q, q[0].proxySideId);
  }

  /** A message that carries no data is taken off the link. */
  lemma TakenKeepsInv(s: Net)
    requires Inv(s) && s.toRelay != [] && !s.toRelay[0].Push?
    ensures Inv(s.(toRelay := s.toRelay[1..]))
  {
    TailCreates(s);
    TailSent(s);
    hide StagesAgree, PostsInOrder, ConnsAgree, NoticesAgree, CreatesAgree, ContextsAgree, DevicesAgree, SentAgrees;
    hide MessageAgrees;
  }

  lemma TailSent(s: Net)
    requires s.toRelay != [] && !s.toRelay[0].Push? && SentAgrees(s.sent, s.nextConn, s.relay, s.toRelay, s.linkUp)
    ensures SentAgrees(s.sent, s.nextConn, s.relay, s.toRelay[1..], s.linkUp)
  {
    hide HasContext;
  }

  lemma LinkDownKeepsInv(s: Net)
    requires Inv(s)
    ensures Inv(s.(linkUp := false))
  {
    hide StagesAgree, PostsInOrder, ConnsAgree, NoticesAgree, CreatesAgree, ContextsAgree, DevicesAgree, MessagesAgree;
  }

  lemma DeliveredStep(q: seq<ToDeviceData>, m: ToDeviceData, x: nat)
    ensures Delivered(q + [m], x) == Delivered(q, x) + if m.PostData? && m.id == x then m.payload else []
  {
    assert (q + [m])[..|q|] == q;
  }

  lemma PostedAgrees(d: nat, v: Device, contexts: map<nat, Context>, m: ToDeviceData)
    requires DeviceAgrees(d, v, contexts) && EstablishedAt(m.id, d, contexts)
    requires m.PostData? ==> 0 < |m.payload| <= MAX_PAYLOAD_SIZE
    ensures DeviceAgrees(d, v.(dataIn := v.dataIn + [m]), contexts)
  {
    hide RespIn, CreateIn;
  }

  lemma PostKeepsRest(s: Net, d: nat, m: ToDeviceData)
    requires Inv(s) && EstablishedAt(m.id, d, s.relay.contexts) && d in s.relay.devices
    requires m.PostData? ==> 0 < |m.payload| <= MAX_PAYLOAD_SIZE
    ensures var r := PostDataLink(s.relay, d, m); DevicesAgree(r) && ContextsAgree(r, s.nextConn)
  {
    hide StagesAgree, PostsInOrder, ConnsAgree, MessagesAgree, NoticesAgree, CreatesAgree, DeviceAgrees, SentAgrees;
    hide UnionSound;
    PostedAgrees(d, s.relay.devices[d], s.relay.contexts, m);
  }

  lemma TransferKeepsFlow(s: Net, d: nat, m: ToDeviceData)
    requires SentAgrees(s.sent, s.nextConn, s.relay, s.toRelay, s.linkUp)
    requires d in s.relay.devices && m.TransferState?
    ensures SentAgrees(s.sent, s.nextConn, PostDataLink(s.relay, d, m), s.toRelay, s.linkUp)
  {
    hide HasContext, Pending;
    forall x ensures Delivered(s.relay.devices[d].dataIn + [m], x) == Delivered(s.relay.devices[d].dataIn, x) {
      DeliveredStep(s.relay.devices[d].dataIn, m, x);
    }
    hide Delivered;
  }

  /** A payload moves from the link between the servers to the link to the device. */
  lemma PushKeepsFlow(s: Net, d: nat, m: ToDeviceData)
    requires s.linkUp && s.toRelay != [] && s.toRelay[0].Push?
      && SentAgrees(s.sent, s.nextConn, s.relay, s.toRelay, s.linkUp)
    requires EstablishedAt(s.toRelay[0].relaySideId, d, s.relay.contexts) && HasDevice(s.relay, d)
    requires m.PostData? && m.id == s.toRelay[0].relaySideId && m.payload == s.toRelay[0].payload
    ensures SentAgrees(s.sent, s.nextConn, PostDataLink(s.relay, d, m), s.toRelay[1..], s.linkUp)
  {
    hide HasContext;
    var r := PostDataLink(s.relay, d, m);
    forall x | x in r.contexts ensures FlowAgrees(r, x, s.toRelay[1..], s.linkUp, s.sent[r.contexts[x].proxySideId]) {
      var e := r.contexts[x].deviceId;
      var got := Delivered(s.relay.devices[e].dataIn, x);
      assert FlowAgrees(s.relay, x, s.toRelay, s.linkUp, s.sent[r.contexts[x].proxySideId]);
      DeliveredStep(s.relay.devices[d].dataIn, m, x);
      Associates(got, if x == m.id then m.payload else [], Pending(s.toRelay[1..], x));
    }
  }

  lemma LostKeepsFlow(s: Net)
    requires s.toRelay != [] && s.toRelay[0].Push? && SentAgrees(s.sent, s.nextConn, s.relay, s.toRelay, s.linkUp)
    requires var x := s.toRelay[0].relaySideId;
      x in s.relay.contexts && !HasDevice(s.relay, s.relay.contexts[x].deviceId)
    ensures SentAgrees(s.sent, s.nextConn, s.relay, s.toRelay[1..], s.linkUp)
  {
    hide HasContext, Delivered;
  }

  lemma HeadFacts(s: Net)
    requires Inv(s) && s.toRelay != []
    ensures MessageAgrees(s.toRelay[0], s.nextConn, s.relay.contexts)
    ensures MessagesAgree(s.toRelay[1..], s.nextConn, s.relay.contexts)
    ensures CreatesAgree(s.conns, s.toRelay[1..], s.relay.contexts)
    ensures forall x :: x in s.relay.contexts ==> x != 0 && s.relay.contexts[x].deviceId in s.relay.devices
  {
    TailCreates(s);
    hide StagesAgree, PostsInOrder, NoticesAgree, CreatesAgree, DevicesAgree, SentAgrees, UnionSound, ConnsAgree;
  }

  lemma PushKeepsInv(s: Net)
    requires Inv(s) && s.linkUp && s.toRelay != [] && s.toRelay[0].Push?
    ensures Inv(s.(toRelay := s.toRelay[1..], relay := OnPush(s.relay, s.toRelay[0])))
  {
    hide StagesAgree, PostsInOrder, ConnsAgree, MessagesAgree, NoticesAgree, CreatesAgree, ContextsAgree, DevicesAgree;
    hide SentAgrees;
    HeadFacts(s);
    var m := s.toRelay[0];
    var c := s.relay.contexts[m.relaySideId];
    if HasDevice(s.relay, c.deviceId) {
      var p := PostData(c.raw, m.relaySideId, m.payload);
      PostKeepsRest(s, c.deviceId, p);
      PushKeepsFlow(s, c.deviceId, p);
    } else {
      LostKeepsFlow(s);
    }
  }

  lemma TransferredKeepsInv(s: Net)
    requires Inv(s) && s.toRelay != [] && s.toRelay[0].Transferred?
    ensures Inv(s.(toRelay := s.toRelay[1..], relay := OnTransferred(s.relay, s.toRelay[0])))
  {
    hide StagesAgree, PostsInOrder, ConnsAgree, MessagesAgree, NoticesAgree, CreatesAgree, ContextsAgree, DevicesAgree;
    hide SentAgrees;
    HeadFacts(s);
    TakenKeepsInv(s);
    var t := s.(toRelay := s.toRelay[1..]);
    var m := s.toRelay[0];
    if m.relaySideId in s.relay.contexts {
      var c := s.relay.contexts[m.relaySideId];
      if HasDevice(s.relay, c.deviceId) {
        var p := TransferState(c.raw, m.relaySideId, m.dumped, m.uploaded);
        PostKeepsRest(t, c.deviceId, p);
        TransferKeepsFlow(t, c.deviceId, p);
      }
    }
  }

  // ---------------------------------------------------------------------------------------
  // A new context
  // ---------------------------------------------------------------------------------------

  /** The relay with a new context for client connection `id` on device `d`, which is told about it. */
  function Added(r: Relay, d: nat, id: nat, c: Context, told: seq<ToDeviceCtrl>): Relay
    requires d in r.devices
  {
    var v := r.devices[d];
    r.(nextId := r.nextId + 1, contexts := r.contexts[r.nextId := c],
       devices := r.devices[d := v.(ctrlIn := v.ctrlIn + told)])
  }

  ghost predicate Addable(s: Net, d: nat, id: nat, c: Context, told: seq<ToDeviceCtrl>) {
    && d in s.relay.devices && 0 < id < s.nextConn
    && c.proxySideId == id && c.deviceId == d && c.reported.None? && UnionSound(c)
    && !HasContext(s.relay.contexts, id) && !CreateQueued(s.toRelay, id)
    && (id in s.conns ==> CreateDone(s.conns[id].phase))
    && (told == [] || (|told| == 1 && told[0].id == s.relay.nextId))
  }

  lemma GrownAgrees(d: nat, v: Device, contexts: map<nat, Context>, n: nat, c: Context)
    requires DeviceAgrees(d, v, contexts) && n !in contexts && c.reported.None?
    ensures DeviceAgrees(d, v, contexts[n := c])
  {
    hide RespIn, CreateIn;
  }

  /** Nothing to or from the device mentions relayed connection `n`. */
  ghost predicate Unheard(v: Device, n: nat) {
    && n !in v.queries && n !in v.created
    && (forall i :: 0 <= i < |v.ctrlIn| ==> v.ctrlIn[i].id != n)
    && (forall i :: 0 <= i < |v.ctrlOut| ==> v.ctrlOut[i].id != n)
    && (forall i :: 0 <= i < |v.dataIn| ==> v.dataIn[i].id != n)
  }

  lemma FreshIsUnheard(d: nat, v: Device, contexts: map<nat, Context>, n: nat)
    requires DeviceAgrees(d, v, contexts) && n !in contexts
    ensures Unheard(v, n)
  {
    hide RespIn, CreateIn;
  }

  lemma ToldAgrees(d: nat, v: Device, contexts: map<nat, Context>, n: nat, told: seq<ToDeviceCtrl>)
    requires DeviceAgrees(d, v, contexts) && Unheard(v, n)
    requires n in contexts && contexts[n].deviceId == d && contexts[n].reported.None?
    requires told == [] || (|told| == 1 && told[0].id == n)
    ensures DeviceAgrees(d, v.(ctrlIn := v.ctrlIn + told), contexts)
  {
    var q := v.ctrlIn;
    assert !RespIn(v.ctrlOut, n);
    forall x | CreateIn(q + told, x) ensures CreateIn(q, x) || x == n {
      var i :| 0 <= i < |q + told| && (q + told)[i].CreateConnection? && (q + told)[i].id == x;
      if i < |q| { assert q[i].id == x; }
    }
    hide CreateIn, RespIn;
  }

  lemma AddedDevices(s: Net, d: nat, id: nat, c: Context, told: seq<ToDeviceCtrl>)
    requires Addable(s, d, id, c, told) && ContextsAgree(s.relay, s.nextConn) && DevicesAgree(s.relay)
    ensures DevicesAgree(Added(s.relay, d, id, c, told))
  {
    hide HasContext, CreateQueued, UnionSound, CreateDone, DeviceAgrees, Unheard;
    var r, n := Added(s.relay, d, id, c, told), s.relay.nextId;
    assert n !in s.relay.contexts;
    forall e | e in r.devices ensures DeviceAgrees(e, r.devices[e], r.contexts) {
      var v := s.relay.devices[e];
      GrownAgrees(e, v, s.relay.contexts, n, c);
      FreshIsUnheard(e, v, s.relay.contexts, n);
      if e == d { ToldAgrees(d, v, r.contexts, n, told); }
    }
  }

  lemma AddedHas(contexts: map<nat, Context>, n: nat, c: Context, x: nat)
    requires n !in contexts
    ensures HasContext(contexts[n := c], x) <==> HasContext(contexts, x) || x == c.proxySideId
  {
    var b := contexts[n := c];
    if HasContext(contexts, x) {
      var k :| k in contexts && contexts[k].proxySideId == x;
      assert k in b && b[k].proxySideId == x;
    }
    if x == c.proxySideId { assert n in b && b[n].proxySideId == x; }
  }

  lemma AddedFlow(s: Net, d: nat, id: nat, c: Context, told: seq<ToDeviceCtrl>)
    requires Addable(s, d, id, c, told) && ContextsAgree(s.relay, s.nextConn) && DevicesAgree(s.relay)
    requires MessagesAgree(s.toRelay, s.nextConn, s.relay.contexts)
    ensures Delivered(s.relay.devices[d].dataIn, s.relay.nextId) == [] && Pending(s.toRelay, s.relay.nextId) == []
  {
    hide CreateQueued, UnionSound, CreateDone, DeviceAgrees, HasContext, Unheard;
    var n := s.relay.nextId;
    assert n !in s.relay.contexts;
    FreshIsUnheard(d, s.relay.devices[d], s.relay.contexts, n);
    UnheardNothing(s.relay.devices[d], n);
    NoPushes(s.toRelay, n);
  }

  lemma UnheardNothing(v: Device, n: nat)
    requires Unheard(v, n)
    ensures Delivered(v.dataIn, n) == []
  {
    NeverMentioned(v.dataIn, n);
  }

  lemma AddedSent(s: Net, d: nat, id: nat, c: Context, told: seq<ToDeviceCtrl>)
    requires Addable(s, d, id, c, told) && ContextsAgree(s.relay, s.nextConn) && DevicesAgree(s.relay)
    requires MessagesAgree(s.toRelay, s.nextConn, s.relay.contexts)
    requires SentAgrees(s.sent, s.nextConn, s.relay, s.toRelay, s.linkUp)
    ensures SentAgrees(s.sent, s.nextConn, Added(s.relay, d, id, c, told), s.toRelay, s.linkUp)
  {
    hide DevicesAgree, MessagesAgree, CreateQueued, UnionSound, CreateDone, HasContext, Delivered, Pending;
    AddedFlow(s, d, id, c, told);
    assert s.relay.nextId !in s.relay.contexts;
    assert s.sent[id] == [];
    forall x
      ensures HasContext(s.relay.contexts[s.relay.nextId := c], x) <==> HasContext(s.relay.contexts, x) || x == id
    {
      AddedHas(s.relay.contexts, s.relay.nextId, c, x);
    }
  }

  lemma {:induction false} NeverMentioned(q: seq<ToDeviceData>, n: nat)
    requires forall i :: 0 <= i < |q| ==> q[i].id != n
    ensures Delivered(q, n) == []
  {
    if q != [] { NeverMentioned(q[..|q| - 1], n); }
  }

  lemma AddedCreates(s: Net, d: nat, id: nat, c: Context, told: seq<ToDeviceCtrl>)
    requires Addable(s, d, id, c, told) && ContextsAgree(s.relay, s.nextConn)
    requires CreatesAgree(s.conns, s.toRelay, s.relay.contexts)
    ensures CreatesAgree(s.conns, s.toRelay, s.relay.contexts[s.relay.nextId := c])
  {
    hide UnionSound, CreateDone;
    assert s.relay.nextId !in s.relay.contexts;
    forall x
      ensures HasContext(s.relay.contexts[s.relay.nextId := c], x) <==> HasContext(s.relay.contexts, x) || x == id
    {
      AddedHas(s.relay.contexts, s.relay.nextId, c, x);
    }
    forall i | 0 <= i < |s.toRelay| && s.toRelay[i].Create? ensures s.toRelay[i].proxySideId != id { }
    forall k | k in s.relay.contexts ensures s.relay.contexts[k].proxySideId != id { }
    hide CreateQueued, HasContext;
  }

  lemma AddedContexts(s: Net, d: nat, id: nat, c: Context, told: seq<ToDeviceCtrl>)
    requires ContextsAgree(s.relay, s.nextConn) && Addable(s, d, id, c, told)
    ensures ContextsAgree(Added(s.relay, d, id, c, told), s.nextConn)
    ensures ContextsGrow(s.relay.contexts, s.relay.contexts[s.relay.nextId := c])
  {
    hide UnionSound, HasContext, CreateQueued, CreateDone;
    assert s.relay.nextId !in s.relay.contexts;
  }

  lemma AddedKeepsInv(s: Net, d: nat, id: nat, c: Context, told: seq<ToDeviceCtrl>)
    requires Inv(s) && Addable(s, d, id, c, told)
    ensures Inv(s.(relay := Added(s.relay, d, id, c, told)))
  {
    hide StagesAgree, PostsInOrder, ConnsAgree, MessagesAgree, NoticesAgree, CreatesAgree, ContextsAgree, DevicesAgree;
    hide SentAgrees, Addable, ContextsGrow;
    assert d in s.relay.devices by { AddableDevice(s, d, id, c, told); }
    AddedSent(s, d, id, c, told);
    AddedCreates(s, d, id, c, told);
    AddedDevices(s, d, id, c, told);
    AddedContexts(s, d, id, c, told);
    GrowthKeepsProxy(s, s.relay.contexts[s.relay.nextId := c]);
  }

  lemma AddableDevice(s: Net, d: nat, id: nat, c: Context, told: seq<ToDeviceCtrl>)
    requires Addable(s, d, id, c, told)
    ensures d in s.relay.devices
  {
  }

  lemma CreateKeepsInv(s: Net, garbage: nat)
    requires Inv(s) && s.linkUp && s.toRelay != [] && s.toRelay[0].Create?
    ensures Inv(Step(s, RelayReceives(garbage)))
  {
    hide StagesAgree, PostsInOrder, ConnsAgree, MessagesAgree, CreatesAgree, ContextsAgree, DevicesAgree, SentAgrees;
    hide WritePort, ReadPort;
    var m := s.toRelay[0];
    var t := s.(toRelay := s.toRelay[1..]);
    HeadFacts(s);
    TailCreates(s);
    TakenKeepsInv(s);
    hide Inv;
    var d, id := m.deviceId, m.proxySideId;
    if !HasDevice(s.relay, d) {
      NoticesKeepInv(t, [Destroy(id)]);
    } else if |s.relay.contexts| >= s.relay.capacity {
      NoticesKeepInv(t, [Notify(id, 0, Closed)]);
    } else {
      var port, n := m.target.port % PORT_RANGE, s.relay.nextId;
      PortReadBack(garbage, port);
      var c := Context(WritePort(garbage, port), port, None, id, d);
      var told := if m.target.address.Some? then [CreateConnection(n, m.target.address.value, port)]
                  else if m.target.hostname != "" then [DnsQuery(n, m.target.hostname)] else [];
      AddedKeepsInv(t, d, id, c, told);
      var u := t.(relay := Added(t.relay, d, id, c, told));
      LinkDownKeepsInv(u);
      CreateIsAdded(s, m, garbage, c, told);
      assert u.toProxy + [] == u.toProxy;
    }
  }

  lemma CreateIsAdded(s: Net, m: ToRelay, garbage: nat, c: Context, told: seq<ToDeviceCtrl>)
    requires m.Create? && HasDevice(s.relay, m.deviceId) && |s.relay.contexts| < s.relay.capacity
    requires var port := m.target.port % PORT_RANGE;
      && c == Context(WritePort(garbage, port), port, None, m.proxySideId, m.deviceId)
      && told == if m.target.address.Some? then [CreateConnection(s.relay.nextId, m.target.address.value, port)]
                 else if m.target.hostname != "" then [DnsQuery(s.relay.nextId, m.target.hostname)] else []
    ensures OnCreate(s.relay, m, garbage) ==
      RelayEffect(Added(s.relay, m.deviceId, m.proxySideId, c, told), [], told != [])
  {
    hide WritePort;
    var v := s.relay.devices[m.deviceId];
    assert v.ctrlIn + [] == v.ctrlIn;
    assert OnCreate(s.relay, m, garbage).relay.devices == Added(s.relay, m.deviceId, m.proxySideId, c, told).devices;
  }

  // ---------------------------------------------------------------------------------------
  // Runs
  // ---------------------------------------------------------------------------------------

  lemma RelayReceivesKeepsInv(s: Net, garbage: nat)
    requires Inv(s)
    ensures Inv(Step(s, RelayReceives(garbage)))
  {
    hide Inv, OnCreate, OnPush, OnTransferred;
    if s.linkUp && s.toRelay != [] {
      match s.toRelay[0]
      case Create(_, _, _) => CreateKeepsInv(s, garbage);
      case Push(_, _, _) => PushKeepsInv(s);
      case Transferred(_, _, _, _) => TransferredKeepsInv(s);
    }
  }

  lemma StepKeepsInv(s: Net, e: Event)
    requires Inv(s)
    ensures Inv(Step(s, e))
  {
    hide *;
    match e
    case Connect => ConnectKeepsInv(s);
    case Client(id, input) => ServicesKeepInv(s, id, input, true, 0, 0);
    case PeerClose(id) => ServicesKeepInv(s, id, Credentials([]), true, 0, 0);
    case Cleanup(id) => CleanupKeepsInv(s, id);
    case Auth(id, accepted) => ServicesKeepInv(s, id, Credentials([]), accepted, 0, 0);
    case Select(id, relayId, deviceId) => ServicesKeepInv(s, id, Credentials([]), true, relayId, deviceId);
    case RelayReceives(garbage) => RelayReceivesKeepsInv(s, garbage);
    case ProxyReceives(size) => ProxyReceivesKeepsInv(s, size);
    case DeviceJoins(d) => JoinKeepsInv(s, d);
    case DeviceDeleted(d) => DevicesTakeAndFall(s, d);
    case DeviceReceives(d) => DevicesTakeAndFall(s, d);
    case DeviceResolves(d, answer) => DevicesSpeak(s, d, answer, PostBack(0, []));
    case DeviceReports(d, m) => DevicesSpeak(s, d, DnsResp(0, None, None), m);
    case RelayReceivesCtrl(d) => RelayReceivesCtrlKeepsInv(s, d);
    case RelayReceivesData(d) => RelayReceivesDataKeepsInv(s, d);
  }

  lemma {:induction false} RunKeepsInv(s: Net, events: seq<Event>)
    requires Inv(s)
    ensures Inv(Run(s, events))
    decreases |events|
  {
    hide Inv, Step;
    if events != [] {
      StepKeepsInv(s, events[0]);
      RunKeepsInv(Step(s, events[0]), events[1..]);
    }
  }
}
