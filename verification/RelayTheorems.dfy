/** What the invariant means for every run of the network. */
module RelayTheorems {
  import opened Lists
  import opened RelayNetwork
  import opened RelayRuns
  import opened RelaySteps
  import opened RelayInvariant

  // ---------------------------------------------------------------------------------------
  // The union
  // ---------------------------------------------------------------------------------------

  /** The event makes the relay read the union of context `x` as the device's id for the connection. */
  predicate ReadsId(s: Net, e: Event, x: nat) {
    && e.RelayReceives? && s.linkUp && s.toRelay != [] && !s.toRelay[0].Create?
    && s.toRelay[0].relaySideId == x && x in s.relay.contexts
  }

  /** The event makes the relay read the union of context `x` as the target's port. */
  predicate ReadsPort(s: Net, e: Event, x: nat) {
    && e.RelayReceivesCtrl? && e.d in s.relay.devices && s.relay.devices[e.d].ctrlOut != []
    && s.relay.devices[e.d].ctrlOut[0].id == x && x in s.relay.contexts
  }

  /** In every run the union is read as a device's id only when a device's id was the last thing meant
      to be in it, and as a port only when it holds the port. */
  lemma UnionReadSafely(capacity: nat, events: seq<Event>, e: Event, x: nat)
    ensures var s := Run(Start(capacity), events);
      && (ReadsId(s, e, x) ==> s.relay.contexts[x].reported == Some(s.relay.contexts[x].raw))
      && (ReadsPort(s, e, x) ==>
        s.relay.contexts[x].reported.None? && ReadPort(s.relay.contexts[x].raw) == s.relay.contexts[x].port)
  {
    hide Inv, Run, ReadPort, Start;
    var s := Run(Start(capacity), events);
    StartInv(capacity);
    RunKeepsInv(Start(capacity), events);
    if x in s.relay.contexts {
      SoundContext(s, x);
      if ReadsId(s, e, x) { HeadOwner(s); }
      if ReadsPort(s, e, x) {
        DeviceFacts(s, e.d);
        CtrlFacts(e.d, s.relay.devices[e.d], s.relay.contexts);
      }
    }
  }

  lemma SoundContext(s: Net, x: nat)
    requires Inv(s) && x in s.relay.contexts
    ensures UnionSound(s.relay.contexts[x]) && x != 0
  {
  }

  lemma HeadOwner(s: Net)
    requires Inv(s) && s.toRelay != [] && !s.toRelay[0].Create? && s.toRelay[0].relaySideId in s.relay.contexts
    ensures Belongs(s.relay.contexts, s.toRelay[0].relaySideId, s.toRelay[0].proxySideId)
  {
    HeadFacts(s);
    hide Inv, MessagesAgree, CreatesAgree;
  }

  lemma CreatingKeepsBelongs(r: Relay, m: ToRelay, garbage: nat, x: nat, id: nat)
    requires Belongs(r.contexts, x, id) && r.nextId !in r.contexts
    ensures m.Create? ==> Belongs(OnCreate(r, m, garbage).relay.contexts, x, id)
    ensures m.Push? ==> OnPush(r, m).contexts == r.contexts
    ensures m.Transferred? ==> OnTransferred(r, m).contexts == r.contexts
  {
    hide WritePort;
  }

  lemma ReportingKeepsBelongs(r: Relay, m: FromDevice, x: nat, id: nat)
    requires Belongs(r.contexts, x, id)
    ensures Belongs(OnDeviceData(r, m).relay.contexts, x, id)
  {
  }

  lemma NextIdIsFree(s: Net)
    requires Inv(s)
    ensures s.relay.nextId !in s.relay.contexts
  {
    hide StagesAgree, PostsInOrder, ConnsAgree, MessagesAgree, NoticesAgree, CreatesAgree, DevicesAgree, SentAgrees;
  }

  lemma MessagesKeepBelongs(s: Net, garbage: nat, x: nat, id: nat)
    requires s.relay.nextId !in s.relay.contexts && Belongs(s.relay.contexts, x, id)
    ensures Belongs(Step(s, RelayReceives(garbage)).relay.contexts, x, id)
  {
    hide Belongs, OnCreate, OnPush, OnTransferred;
    if s.toRelay != [] { CreatingKeepsBelongs(s.relay, s.toRelay[0], garbage, x, id); }
  }

  lemma AnswersKeepContexts(s: Net, d: nat)
    ensures Step(s, RelayReceivesCtrl(d)).relay.contexts == s.relay.contexts
  {
  }

  lemma ReportsKeepBelongs(s: Net, d: nat, x: nat, id: nat)
    requires Belongs(s.relay.contexts, x, id)
    ensures Belongs(Step(s, RelayReceivesData(d)).relay.contexts, x, id)
  {
    hide Belongs, OnDeviceData;
    if d in s.relay.devices && s.relay.devices[d].dataOut != [] {
      var v := s.relay.devices[d];
      ReportingKeepsBelongs(WithDevice(s, d, v.(dataOut := v.dataOut[1..])).relay, v.dataOut[0], x, id);
    }
  }

  lemma OrdersKeepContexts(s: Net, d: nat)
    ensures Step(s, DeviceJoins(d)).relay.contexts == s.relay.contexts
    ensures Step(s, DeviceDeleted(d)).relay.contexts == s.relay.contexts
    ensures Step(s, DeviceReceives(d)).relay.contexts == s.relay.contexts
  {
  }

  lemma DevicesKeepContexts(s: Net, d: nat, answer: DnsResp, m: FromDevice)
    ensures Step(s, DeviceResolves(d, answer)).relay.contexts == s.relay.contexts
    ensures Step(s, DeviceReports(d, m)).relay.contexts == s.relay.contexts
  {
  }

  /** A connection that a device has established stays with its client. */
  lemma StepKeepsBelongs(s: Net, e: Event, x: nat, id: nat)
    requires Inv(s) && Belongs(s.relay.contexts, x, id)
    ensures Belongs(Step(s, e).relay.contexts, x, id)
  {
    hide Inv, Belongs, Step;
    NextIdIsFree(s);
    if !IsRemote(e) {
      LocalKeepsRelay(s, e);
    } else {
      match e
      case RelayReceives(garbage) => MessagesKeepBelongs(s, garbage, x, id);
      case RelayReceivesCtrl(d) => AnswersKeepContexts(s, d);
      case RelayReceivesData(d) => ReportsKeepBelongs(s, d, x, id);
      case DeviceResolves(d, answer) => DevicesKeepContexts(s, d, answer, PostBack(0, []));
      case DeviceReports(d, m) => DevicesKeepContexts(s, d, DnsResp(0, None, None), m);
      case DeviceJoins(d) => OrdersKeepContexts(s, d);
      case DeviceDeleted(d) => OrdersKeepContexts(s, d);
      case DeviceReceives(d) => OrdersKeepContexts(s, d);
    }
  }

  lemma {:induction false} RunKeepsBelongs(s: Net, events: seq<Event>, x: nat, id: nat)
    requires Inv(s) && Belongs(s.relay.contexts, x, id)
    ensures Inv(Run(s, events)) && Belongs(Run(s, events).relay.contexts, x, id)
    decreases |events|
  {
    hide Inv, Belongs, Step;
    if events != [] {
      StepKeepsBelongs(s, events[0], x, id);
      StepKeepsInv(s, events[0]);
      RunKeepsBelongs(Step(s, events[0]), events[1..], x, id);
    }
  }

  lemma KnownBelongs(s: Net, id: nat)
    requires Inv(s) && id in s.conns && s.conns[id].relaySideId != 0
    ensures Belongs(s.relay.contexts, s.conns[id].relaySideId, id)
  {
    hide StagesAgree, PostsInOrder, MessagesAgree, NoticesAgree, CreatesAgree, DevicesAgree, SentAgrees, ContextsAgree;
    hide Belongs;
  }

  /** The third read of the union, for a message to destroy a connection. Whenever the message comes, it
      reads the device's id if it names a connection that the access server has been told of. */
  lemma DestroyReadsSafely(capacity: nat, events: seq<Event>, more: seq<Event>, id: nat)
    requires var s := Run(Start(capacity), events); id in s.conns && s.conns[id].relaySideId != 0
    ensures var s := Run(Start(capacity), events);
      var x, r := s.conns[id].relaySideId, Run(s, more).relay;
      && x in r.contexts && r.contexts[x].proxySideId == id && r.contexts[x].reported.Some?
      && (HasDevice(r, r.contexts[x].deviceId) ==>
            OnProxyDestroy(r, x) == Some((r.contexts[x].deviceId, r.contexts[x].reported.value)))
  {
    hide Inv, Run, Start;
    var s := Run(Start(capacity), events);
    StartInv(capacity);
    RunKeepsInv(Start(capacity), events);
    KnownBelongs(s, id);
    RunKeepsBelongs(s, more, s.conns[id].relaySideId, id);
    SoundContext(Run(s, more), s.conns[id].relaySideId);
  }

  /** In general it reads a device's id exactly if the device has reported one; otherwise the low 16 bits
      of what the device is told are the target's port. */
  lemma DestroyReadsExactly(capacity: nat, events: seq<Event>, x: nat)
    requires OnProxyDestroy(Run(Start(capacity), events).relay, x).Some?
    ensures var r := Run(Start(capacity), events).relay;
      var told := OnProxyDestroy(r, x).value.1;
      && (r.contexts[x].reported == Some(told) <==> r.contexts[x].reported.Some?)
      && (r.contexts[x].reported.None? ==> ReadPort(told) == r.contexts[x].port)
  {
    hide Inv, Run, Start, ReadPort;
    StartInv(capacity);
    RunKeepsInv(Start(capacity), events);
    SoundContext(Run(Start(capacity), events), x);
  }

  // ---------------------------------------------------------------------------------------
  // The order of events of a connection
  // ---------------------------------------------------------------------------------------

  lemma {:induction false} StageHistory(log: seq<Entry>, id: nat)
    returns (a: nat, b: nat, c: nat, d: nat)
    ensures Stage(log, id) >= 1 ==> a < |log| && log[a] == Authorised(id)
    ensures Stage(log, id) >= 2 ==> a < b < |log| && log[b] == DeviceChosen(id)
    ensures Stage(log, id) >= 3 ==> b < c < |log| && log[c] == CreateSent(id)
    ensures Stage(log, id) >= 4 ==> c < d < |log| && log[d] == Ready(id)
  {
    a, b, c, d := 0, 0, 0, 0;
    if log != [] {
      var k := |log| - 1;
      var rest := log[..k];
      a, b, c, d := StageHistory(rest, id);
      var before, after := Stage(rest, id), Stage(log, id);
      if before < after {
        if after == 1 { a := k; } else if after == 2 { b := k; } else if after == 3 { c := k; } else { d := k; }
      }
    }
  }

  /** Data is posted for a connection only after the account was accepted, a device was chosen, the relay
      was asked to create the connection and the connection was reported as established, in this order. */
  lemma PostsAreEarned(capacity: nat, events: seq<Event>, k: nat)
    requires var log := Run(Start(capacity), events).log; k < |log| && log[k].Posted?
    ensures var log := Run(Start(capacity), events).log;
      exists a, b, c, d :: 0 <= a < b < c < d < k
        && log[a] == Authorised(log[k].id) && log[b] == DeviceChosen(log[k].id)
        && log[c] == CreateSent(log[k].id) && log[d] == Ready(log[k].id)
  {
    hide Run, Inv, Start;
    var s := Run(Start(capacity), events);
    StartInv(capacity);
    RunKeepsInv(Start(capacity), events);
    LogInOrder(s);
    var a, b, c, d := StageHistory(s.log[..k], s.log[k].id);
  }

  lemma LogInOrder(s: Net)
    requires Inv(s)
    ensures PostsInOrder(s.log)
  {
  }

  // ---------------------------------------------------------------------------------------
  // Phases
  // ---------------------------------------------------------------------------------------

  lemma ClientEventAdvances(s: Net, e: Event, id: nat)
    requires id in s.conns && (e.Client? || e.PeerClose? || e.Auth? || e.Select?)
    ensures var t := Step(s, e);
      t.nextConn == s.nextConn && id in t.conns && Advances(s.conns[id].phase, t.conns[id].phase)
  {
    hide OnInput, OnAuthResult, OnDeviceSelected, RelayNetwork.OnPeerClose, Advances;
    AdvancesReflexive(s.conns[id].phase);
    match e
    case Client(_, input) => ClientHandlersAdvance(id, s.conns[id], input);
    case PeerClose(_) => ClientHandlersAdvance(id, s.conns[id], Data([]));
    case Auth(_, accepted) => ServiceHandlersAdvance(id, s.conns[id], accepted, 0, 0);
    case Select(_, relayId, deviceId) => ServiceHandlersAdvance(id, s.conns[id], true, relayId, deviceId);
  }

  lemma NoticeAdvances(s: Net, size: nat, id: nat)
    requires id in s.conns
    ensures var t := Step(s, ProxyReceives(size));
      t.nextConn == s.nextConn && id in t.conns && Advances(s.conns[id].phase, t.conns[id].phase)
  {
    hide OnNotify, OnPushBack, OnDestroy, Advances;
    AdvancesReflexive(s.conns[id].phase);
    if s.toProxy != [] {
      var m := s.toProxy[0];
      var relaySide, state := if m.Notify? then m.relaySideId else 0, if m.Notify? then m.state else Closed;
      RelayHandlersAdvance(id, s.conns[id], relaySide, state, size);
    }
  }

  /** Who is not connected does not come back under the same id. */
  lemma GoneStaysGone(s: Net, e: Event, id: nat)
    requires 0 < id < s.nextConn && id !in s.conns
    ensures id !in Step(s, e).conns && s.nextConn <= Step(s, e).nextConn
  {
    hide OnInput, OnAuthResult, OnDeviceSelected, OnNotify, OnPushBack, RelayNetwork.OnPeerClose, OnDestroy;
    if IsRemote(e) {
      RemoteKeepsConns(s, e);
      hide Step;
    }
  }

  /** In one step: a connection keeps or advances its phase, or is gone, and ids are not used twice. */
  lemma StepAdvances(s: Net, e: Event, id: nat)
    requires Inv(s) && 0 < id < s.nextConn
    ensures s.nextConn <= Step(s, e).nextConn
    ensures id in Step(s, e).conns ==> id in s.conns && Advances(s.conns[id].phase, Step(s, e).conns[id].phase)
  {
    hide Inv, Advances;
    if id !in s.conns {
      GoneStaysGone(s, e, id);
      hide Step;
    } else {
      AdvancesReflexive(s.conns[id].phase);
      if IsRemote(e) {
        RemoteKeepsConns(s, e);
        hide Step;
      } else if e.ProxyReceives? {
        NoticeAdvances(s, e.size, id);
        hide Step;
      } else if !e.Connect? && !e.Cleanup? {
        ClientEventAdvances(s, e, id);
        hide Step;
      }
    }
  }

  lemma AdvancesReflexive(p: Phase)
    ensures Advances(p, p)
  {
  }

  lemma AdvancesTransitive(p: Phase, q: Phase, r: Phase)
    requires Advances(p, q) && Advances(q, r)
    ensures Advances(p, r)
  {
    hide Rank;
  }

  /** Over any run a connection's phase never decreases and never changes its branch. */
  lemma {:induction false} RunAdvances(s: Net, events: seq<Event>, id: nat)
    requires Inv(s) && 0 < id < s.nextConn
    ensures id in Run(s, events).conns ==> id in s.conns && Advances(s.conns[id].phase, Run(s, events).conns[id].phase)
    decreases |events|
  {
    hide Inv, Step, Advances;
    if events == [] {
      if id in s.conns { AdvancesReflexive(s.conns[id].phase); }
    } else {
      var t := Step(s, events[0]);
      StepKeepsInv(s, events[0]);
      StepAdvances(s, events[0], id);
      RunAdvances(t, events[1..], id);
      if id in Run(t, events[1..]).conns {
        AdvancesTransitive(s.conns[id].phase, t.conns[id].phase, Run(t, events[1..]).conns[id].phase);
      }
    }
  }

  // ---------------------------------------------------------------------------------------
  // The runtime assertion of the access server
  // ---------------------------------------------------------------------------------------

  /** A step crashes the access server exactly when it is told anything but ESTABLISHED about a
      connection that waits to be established. */
  lemma StepCrashesExactly(s: Net, e: Event)
    requires !s.crashed
    ensures Step(s, e).crashed <==>
      && e.ProxyReceives? && s.toProxy != [] && s.toProxy[0].Notify? && s.toProxy[0].proxySideId in s.conns
      && WaitsForEstablish(s.conns[s.toProxy[0].proxySideId].phase) && !s.toProxy[0].state.Established?
  {
    match e
    case ProxyReceives(size) =>
      if s.toProxy != [] && s.toProxy[0].proxySideId in s.conns {
        var m := s.toProxy[0];
        var conn := s.conns[m.proxySideId];
        if m.Notify? { NotifyCrashesExactly(m.proxySideId, conn, m.relaySideId, m.state); }
        OnDestroyGood(m.proxySideId, conn);
        OnPushBackGood(m.proxySideId, conn, size);
      }
      hide OnNotify, OnDestroy, OnPushBack, GoodEffect, GoodEntries;
    case Client(id, input) =>
      if id in s.conns { OnInputGood(id, s.conns[id], input); }
      hide OnInput, GoodEffect, GoodEntries;
    case Auth(id, accepted) =>
      if id in s.conns { OnAuthResultGood(id, s.conns[id], accepted); }
      hide OnAuthResult, GoodEffect, GoodEntries;
    case Select(id, r, d) =>
      if id in s.conns { OnDeviceSelectedGood(id, s.conns[id], r, d); }
      hide OnDeviceSelected, GoodEffect, GoodEntries;
    case PeerClose(id) =>
      if id in s.conns { OnDestroyGood(id, s.conns[id]); }
      hide GoodEffect, GoodEntries;
    case _ =>
  }

  // ---------------------------------------------------------------------------------------
  // Deleted devices
  // ---------------------------------------------------------------------------------------

  predicate IsDeleted(r: Relay, d: nat) {
    d in r.devices && r.devices[d].deleted
  }

  lemma RelayKeepsDeleted(r: Relay, m: ToRelay, garbage: nat, d: nat)
    requires IsDeleted(r, d)
    ensures m.Create? ==> IsDeleted(OnCreate(r, m, garbage).relay, d)
    ensures m.Push? ==> IsDeleted(OnPush(r, m), d)
    ensures m.Transferred? ==> IsDeleted(OnTransferred(r, m), d)
  {
    hide WritePort;
  }

  lemma ResolvingKeepsDeleted(r: Relay, e: nat, answer: DnsResp, m: FromDevice, d: nat)
    requires IsDeleted(r, d) && e in r.devices
    ensures IsDeleted(OnDnsResp(r, e, answer), d) && IsDeleted(OnDeviceData(r, m).relay, d)
  {
    hide ReadPort;
  }

  lemma DeviceChanged(s: Net, x: nat, v: Device, d: nat)
    requires IsDeleted(s.relay, d) && (x == d ==> v.deleted)
    ensures IsDeleted(WithDevice(s, x, v).relay, d)
  {
  }

  lemma DeviceFallsOrJoins(s: Net, x: nat, d: nat)
    requires IsDeleted(s.relay, d)
    ensures IsDeleted(Step(s, DeviceJoins(x)).relay, d) && IsDeleted(Step(s, DeviceDeleted(x)).relay, d)
  {
    hide IsDeleted, WithDevice;
    DeletedIsThere(s.relay, d);
    if x !in s.relay.devices { DeviceChanged(s, x, NEW_DEVICE, d); } else {
      DeviceChanged(s, x, s.relay.devices[x].(deleted := true), d);
    }
  }

  lemma DeletedIsThere(r: Relay, d: nat)
    requires IsDeleted(r, d)
    ensures d in r.devices && r.devices[d].deleted
  {
  }

  lemma DeviceActs(s: Net, x: nat, answer: DnsResp, m: FromDevice, d: nat)
    requires IsDeleted(s.relay, d)
    ensures IsDeleted(Step(s, DeviceReceives(x)).relay, d)
    ensures IsDeleted(Step(s, DeviceResolves(x, answer)).relay, d) && IsDeleted(Step(s, DeviceReports(x, m)).relay, d)
  {
    hide IsDeleted, WithDevice;
    DeletedIsThere(s.relay, d);
    if x in s.relay.devices {
      var v := s.relay.devices[x];
      DeviceChanged(s, x, Answered(v, answer), d);
      DeviceChanged(s, x, v.(dataOut := v.dataOut + [m]), d);
      if v.ctrlIn != [] { DeviceChanged(s, x, Taken(v), d); }
    }
  }

  lemma LinksKeepDeleted(s: Net, x: nat, d: nat)
    requires IsDeleted(s.relay, d)
    ensures IsDeleted(Step(s, RelayReceivesCtrl(x)).relay, d) && IsDeleted(Step(s, RelayReceivesData(x)).relay, d)
  {
    hide OnDnsResp, OnDeviceData, IsDeleted;
    DeletedIsThere(s.relay, d);
    if x in s.relay.devices {
      var v := s.relay.devices[x];
      if v.ctrlOut != [] {
        var w := v.(ctrlOut := v.ctrlOut[1..]);
        DeviceChanged(s, x, w, d);
        ResolvingKeepsDeleted(WithDevice(s, x, w).relay, x, v.ctrlOut[0], PostBack(0, []), d);
      }
      if v.dataOut != [] {
        var w := v.(dataOut := v.dataOut[1..]);
        DeviceChanged(s, x, w, d);
        ResolvingKeepsDeleted(WithDevice(s, x, w).relay, x, DnsResp(0, None, None), v.dataOut[0], d);
      }
    }
  }

  lemma MessagesKeepDeleted(s: Net, garbage: nat, d: nat)
    requires IsDeleted(s.relay, d)
    ensures IsDeleted(Step(s, RelayReceives(garbage)).relay, d)
  {
    hide OnCreate, OnPush, OnTransferred;
    if s.toRelay != [] { RelayKeepsDeleted(s.relay, s.toRelay[0], garbage, d); }
  }

  lemma StepKeepsDeleted(s: Net, e: Event, d: nat)
    requires IsDeleted(s.relay, d)
    ensures IsDeleted(Step(s, e).relay, d)
  {
    hide Step;
    if !IsRemote(e) {
      LocalKeepsRelay(s, e);
    } else {
      match e
      case RelayReceives(garbage) => MessagesKeepDeleted(s, garbage, d);
      case RelayReceivesCtrl(x) => LinksKeepDeleted(s, x, d);
      case RelayReceivesData(x) => LinksKeepDeleted(s, x, d);
      case DeviceJoins(x) => DeviceFallsOrJoins(s, x, d);
      case DeviceDeleted(x) => DeviceFallsOrJoins(s, x, d);
      case DeviceReceives(x) => DeviceActs(s, x, DnsResp(0, None, None), PostBack(0, []), d);
      case DeviceResolves(x, answer) => DeviceActs(s, x, answer, PostBack(0, []), d);
      case DeviceReports(x, m) => DeviceActs(s, x, DnsResp(0, None, None), m, d);
    }
  }

  /** Over any run a device that was deleted is never found again, even if a device joins under its id. */
  lemma {:induction false} DeletedStaysDeleted(s: Net, events: seq<Event>, d: nat)
    requires IsDeleted(s.relay, d)
    ensures IsDeleted(Run(s, events).relay, d) && !HasDevice(Run(s, events).relay, d)
    decreases |events|
  {
    hide Step;
    if events != [] {
      StepKeepsDeleted(s, events[0], d);
      DeletedStaysDeleted(Step(s, events[0]), events[1..], d);
    }
  }
}
