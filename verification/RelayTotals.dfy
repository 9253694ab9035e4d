/** The totals of a connection: they count what was transferred, and what a device hears of them fits what
    it got. */
module RelayTotals {
  import opened Lists
  import opened RelayNetwork
  import opened RelayRuns
  import opened RelaySteps
  import opened RelayInvariant
  import opened RelayReturns
  import opened RelayUploads

  // ---------------------------------------------------------------------------------------
  // What the handlers count
  // ---------------------------------------------------------------------------------------

  /** What is not reported yet is less than what makes a report due. */
  predicate Reported(c: Conn) {
    && c.reportedUpload <= c.uploaded < c.reportedUpload + OVERFLOW_SIZE
    && c.reportedDumped <= c.dumped < c.reportedDumped + OVERFLOW_SIZE
  }

  /** A report is the last message of a handler and gives the totals as they are then. */
  ghost predicate ReportsLast(e: Effect) {
    forall i :: 0 <= i < |e.out| && e.out[i].Transferred? ==>
      i == |e.out| - 1 && e.out[i].uploaded == e.conn.uploaded && e.out[i].dumped == e.conn.dumped
  }

  /** The effect of a handler that adds to the totals of its connection. */
  ghost predicate Counts(conn: Conn, e: Effect, up: nat, down: nat) {
    && e.conn.uploaded == conn.uploaded + up && e.conn.dumped == conn.dumped + down
    && (Reported(conn) ==> Reported(e.conn)) && ReportsLast(e)
  }

  lemma AccountCounts(id: nat, conn: Conn, up: nat, down: nat)
    requires conn.relayId == RELAY_ID
    ensures Counts(conn, Account(id, conn, up, down), up, down)
  {
  }

  lemma UploadCounts(id: nat, conn: Conn, data: Bytes)
    requires conn.relayId == RELAY_ID
    ensures Counts(conn, Upload(id, conn, data), |data|, 0)
  {
    AccountCounts(id, conn, |data|, 0);
    hide Account, Chunks;
    var a := Account(id, conn, |data|, 0);
    AtMostOne(id, conn, |data|);
    var first := Pushes(id, conn.relaySideId, Chunks(data));
    var e := Upload(id, conn, data);
    forall i | 0 <= i < |e.out| && e.out[i].Transferred?
      ensures i == |e.out| - 1 && e.out[i].uploaded == e.conn.uploaded && e.out[i].dumped == e.conn.dumped
    {
      if i >= |first| { assert e.out[i] == a.out[i - |first|]; }
    }
  }

  lemma AtMostOne(id: nat, conn: Conn, up: nat)
    ensures |Account(id, conn, up, 0).out| <= 1
  {
  }

  lemma InputCounts(id: nat, conn: Conn, input: Input)
    requires KnowsRelay(conn)
    ensures Counts(conn, OnInput(id, conn, input), if IsReady(conn.phase) && input.Data? then |input.bytes| else 0, 0)
  {
    if IsReady(conn.phase) && input.Data? { UploadCounts(id, conn, input.bytes); }
    hide Upload;
  }

  lemma ServicesCountNothing(id: nat, conn: Conn, accepted: bool, relayId: nat, deviceId: nat)
    ensures Counts(conn, OnAuthResult(id, conn, accepted), 0, 0)
    ensures Counts(conn, RelayNetwork.OnPeerClose(conn), 0, 0) && Counts(conn, OnDestroy(conn), 0, 0)
  {
  }

  lemma SelectionCountsNothing(id: nat, conn: Conn, relayId: nat, deviceId: nat)
    ensures Counts(conn, OnDeviceSelected(id, conn, relayId, deviceId), 0, 0)
  {
  }

  lemma NoticeCounts(id: nat, conn: Conn, r: nat, state: ConnectionState)
    requires KnowsRelay(conn)
    ensures Counts(conn, OnNotify(id, conn, r, state), |HeaderFor(conn, state)|, 0)
  {
    if conn.phase.HttpNormalWaitForConnectionEstablish? && state.Established? {
      var c := conn.(relaySideId := r, phase := HttpNormalReady);
      UploadCounts(id, c, c.header);
    }
    hide Upload;
  }

  // ---------------------------------------------------------------------------------------
  // Whatever comes back is for a connection that knows the relay
  // ---------------------------------------------------------------------------------------

  ghost predicate BacksRelayed(q: seq<ToProxy>, contexts: map<nat, Context>) {
    forall i :: 0 <= i < |q| && q[i].PushBack? ==> HasContext(contexts, q[i].proxySideId)
  }

  lemma BacksGrow(q: seq<ToProxy>, out: seq<ToProxy>, a: map<nat, Context>, b: map<nat, Context>)
    requires BacksRelayed(q, a) && BacksRelayed(out, b) && forall id :: HasContext(a, id) ==> HasContext(b, id)
    ensures BacksRelayed(q + out, b)
  {
    hide HasContext;
  }

  lemma MessagesKeepBacks(s: Net, garbage: nat)
    requires s.relay.nextId !in s.relay.contexts && BacksRelayed(s.toProxy, s.relay.contexts)
    ensures var t := Step(s, RelayReceives(garbage)); BacksRelayed(t.toProxy, t.relay.contexts)
  {
    if s.linkUp && s.toRelay != [] {
      var m := s.toRelay[0];
      var t := Step(s, RelayReceives(garbage));
      if m.Create? {
        CreatedKeeps(s.relay, m, garbage);
        BacksGrow(s.toProxy, OnCreate(s.relay, m, garbage).out, s.relay.contexts, t.relay.contexts);
      } else {
        DataKeepsContexts(s.relay, m);
      }
    }
    hide HasContext, OnCreate, OnPush, OnTransferred;
  }

  lemma DataKeepsContexts(r: Relay, m: ToRelay)
    ensures m.Push? ==> OnPush(r, m).contexts == r.contexts
    ensures m.Transferred? ==> OnTransferred(r, m).contexts == r.contexts
  {
  }

  lemma CreatedKeeps(r: Relay, m: ToRelay, garbage: nat)
    requires m.Create? && r.nextId !in r.contexts
    ensures var e := OnCreate(r, m, garbage);
      && BacksRelayed(e.out, e.relay.contexts)
      && forall id :: HasContext(r.contexts, id) ==> HasContext(e.relay.contexts, id)
  {
    hide WritePort;
    var e := OnCreate(r, m, garbage);
    forall id | HasContext(r.contexts, id) ensures HasContext(e.relay.contexts, id) {
      var x :| x in r.contexts && r.contexts[x].proxySideId == id;
      assert x in e.relay.contexts && e.relay.contexts[x].proxySideId == id;
    }
  }

  lemma PassedKeepsBacks(s: Net, d: nat)
    requires BacksRelayed(s.toProxy, s.relay.contexts) && d in s.relay.devices && s.relay.devices[d].dataOut != []
    ensures var t := Step(s, RelayReceivesData(d)); BacksRelayed(t.toProxy, t.relay.contexts)
  {
    PassedOn(s, d);
    var w := WithoutHead(s.relay, d);
    var f := OnDeviceData(w, s.relay.devices[d].dataOut[0]);
    forall id ensures HasContext(w.contexts, id) <==> HasContext(f.relay.contexts, id) {
      SameContexts(w, f.relay, id);
    }
    PassedIsRelayed(w, s.relay.devices[d].dataOut[0]);
    hide OnDeviceData, HasContext, SameReturns, Step;
    BacksGrow(s.toProxy, f.out, w.contexts, f.relay.contexts);
  }

  lemma PassedIsRelayed(w: Relay, m: FromDevice)
    ensures BacksRelayed(OnDeviceData(w, m).out, OnDeviceData(w, m).relay.contexts)
  {
    if m.PostBack? && m.id in w.contexts { ContextHas(w.contexts, m.id); }
    hide HasContext;
  }

  lemma SameKeepsBacks(q: seq<ToProxy>, r: Relay, t: Relay)
    requires SameReturns(r, t) && BacksRelayed(q, r.contexts)
    ensures BacksRelayed(q, t.contexts)
  {
    hide HasContext, SameReturns;
    forall i | 0 <= i < |q| && q[i].PushBack? ensures HasContext(t.contexts, q[i].proxySideId) {
      SameContexts(r, t, q[i].proxySideId);
    }
  }

  lemma StepKeepsBacks(s: Net, e: Event)
    requires Inv(s) && BacksRelayed(s.toProxy, s.relay.contexts)
    ensures BacksRelayed(Step(s, e).toProxy, Step(s, e).relay.contexts)
  {
    hide Inv, Step, SameReturns, HasContext;
    var t := Step(s, e);
    match e
    case ProxyReceives(size) => ProxyTakes(s, size);
    case RelayReceives(garbage) =>
      NextIsNew(s);
      MessagesKeepBacks(s, garbage);
    case DeviceReports(d, m) => ReportSame(s, d, m);
    case RelayReceivesData(d) =>
      if d in s.relay.devices && s.relay.devices[d].dataOut != [] {
        PassedKeepsBacks(s, d);
      } else {
        NothingPassed(s, d);
      }
    case DeviceJoins(d) =>
      DeviceListSame(s, d);
      SameKeepsBacks(s.toProxy, s.relay, t.relay);
    case DeviceDeleted(d) =>
      DeviceListSame(s, d);
      SameKeepsBacks(s.toProxy, s.relay, t.relay);
    case DeviceReceives(d) =>
      CommandsSame(s, d);
      SameKeepsBacks(s.toProxy, s.relay, t.relay);
    case DeviceResolves(d, answer) =>
      AnswersSame(s, d, answer);
      SameKeepsBacks(s.toProxy, s.relay, t.relay);
    case RelayReceivesCtrl(d) =>
      ResolvedSame(s, d);
      SameKeepsBacks(s.toProxy, s.relay, t.relay);
    case _ => LocalKeepsLink(s, e);
  }

  lemma ReportSame(s: Net, d: nat, m: FromDevice)
    ensures var t := Step(s, DeviceReports(d, m)); t.toProxy == s.toProxy && t.relay.contexts == s.relay.contexts
  {
  }

  /** A client to which data comes back knows the relay. */
  lemma HeadKnowsRelay(s: Net)
    requires Inv(s) && RelayKnown(s.conns) && BacksRelayed(s.toProxy, s.relay.contexts)
    requires s.toProxy != [] && s.toProxy[0].PushBack? && s.toProxy[0].proxySideId in s.conns
    ensures s.conns[s.toProxy[0].proxySideId].relayId == RELAY_ID
  {
    hide StagesAgree, PostsInOrder, ConnsAgree, MessagesAgree, NoticesAgree, ContextsAgree, DevicesAgree, SentAgrees;
    hide HasContext, CreateQueued;
  }

  // ---------------------------------------------------------------------------------------
  // The totals of a connection
  // ---------------------------------------------------------------------------------------

  /** What event `e` counts as transferred to client connection `id`: the size of the whole message. */
  function Dumped(s: Net, e: Event, id: nat): nat {
    if e.ProxyReceives? && !s.crashed && id in s.conns && s.toProxy != [] && s.toProxy[0].PushBack?
       && s.toProxy[0].proxySideId == id then e.size else 0
  }

  function AllDumped(s: Net, events: seq<Event>, id: nat): nat
    decreases |events|
  {
    if events == [] then 0 else Dumped(s, events[0], id) + AllDumped(Step(s, events[0]), events[1..], id)
  }

  ghost predicate Counted(s: Net, id: nat, down: nat) {
    && (id in s.conns ==>
          s.conns[id].uploaded == |SentOf(s, id)| && s.conns[id].dumped == down && Reported(s.conns[id]))
    && (id >= s.nextConn ==> down == 0)
  }

  lemma ApplyCounts(s: Net, i: nat, e: Effect, bytes: Bytes, more: nat, id: nat, down: nat)
    requires i in s.conns && Counted(s, id, down) && !e.crash
    requires Counts(s.conns[i], e, |bytes|, more) && PostedBy(e.entries, i) == bytes && i < s.nextConn
    ensures Counted(Apply(s, i, e), id, down + if i == id then more else 0)
  {
    hide PostedBy, ReportsLast;
  }

  lemma BytesOf(id: nat, e: Effect, bytes: Bytes)
    requires UploadsBytes(id, e, bytes)
    ensures PostedBy(e.entries, id) == bytes
  {
  }

  lemma ClientCounts(s: Net, i: nat, input: Input, id: nat, down: nat)
    requires Inv(s) && RelayKnown(s.conns) && Counted(s, id, down)
    ensures Counted(Step(s, Client(i, input)), id, down)
  {
    hide Inv, OnInput, Counts, Counted, UploadsBytes, KnowsRelay, PostedBy;
    if !s.crashed && i in s.conns {
      var e := OnInput(i, s.conns[i], input);
      var bytes := if IsReady(s.conns[i].phase) && input.Data? then input.bytes else [];
      ConnsBelow(s, i);
      KnownOne(s.conns, i);
      InputUploads(i, s.conns[i], input);
      BytesOf(i, e, bytes);
      InputCounts(i, s.conns[i], input);
      OnInputGood(i, s.conns[i], input);
      NoCrash(i, s.conns[i], e);
      hide Ordinary;
      ApplyCounts(s, i, e, bytes, 0, id, down);
    }
  }

  lemma ServicesCount(s: Net, i: nat, accepted: bool, relayId: nat, deviceId: nat, id: nat, down: nat)
    requires Inv(s) && RelayKnown(s.conns) && Counted(s, id, down)
    ensures Counted(Step(s, Auth(i, accepted)), id, down) && Counted(Step(s, PeerClose(i)), id, down)
    ensures Counted(Step(s, Select(i, relayId, deviceId)), id, down)
  {
    hide Inv, OnAuthResult, OnDeviceSelected, RelayNetwork.OnPeerClose, Counts, Counted, UploadsBytes, KnowsRelay;
    hide PostedBy;
    if !s.crashed && i in s.conns {
      var conn := s.conns[i];
      ConnsBelow(s, i);
      KnownOne(s.conns, i);
      ServicesUploadNothing(i, conn, accepted, relayId, deviceId);
      ServicesCountNothing(i, conn, accepted, relayId, deviceId);
      SelectionCountsNothing(i, conn, relayId, deviceId);
      BytesOf(i, OnAuthResult(i, conn, accepted), []);
      BytesOf(i, OnDeviceSelected(i, conn, relayId, deviceId), []);
      BytesOf(i, RelayNetwork.OnPeerClose(conn), []);
      ServicesDoNotCrash(i, conn, accepted, relayId, deviceId);
      ApplyCounts(s, i, OnAuthResult(i, conn, accepted), [], 0, id, down);
      ApplyCounts(s, i, OnDeviceSelected(i, conn, relayId, deviceId), [], 0, id, down);
      ApplyCounts(s, i, RelayNetwork.OnPeerClose(conn), [], 0, id, down);
    }
  }

  lemma ServicesDoNotCrash(id: nat, conn: Conn, accepted: bool, relayId: nat, deviceId: nat)
    ensures !OnAuthResult(id, conn, accepted).crash && !OnDeviceSelected(id, conn, relayId, deviceId).crash
    ensures !RelayNetwork.OnPeerClose(conn).crash
  {
  }

  lemma RelayDoesNotCrash(id: nat, conn: Conn, size: nat)
    ensures !OnDestroy(conn).crash && !OnPushBack(id, conn, size).crash
  {
  }

  lemma TakenCounts(s: Net, t: Net, id: nat, down: nat)
    requires Counted(s, id, down) && t.conns == s.conns && t.nextConn == s.nextConn && t.sent == s.sent
    ensures Counted(t, id, down)
  {
  }

  lemma ProxyCounts(s: Net, size: nat, id: nat, down: nat)
    requires Inv(s) && RelayKnown(s.conns) && BacksRelayed(s.toProxy, s.relay.contexts) && Counted(s, id, down)
    ensures Counted(Step(s, ProxyReceives(size)), id, down + Dumped(s, ProxyReceives(size), id))
  {
    hide Inv, OnNotify, OnDestroy, OnPushBack, Counts, Counted, UploadsBytes, KnowsRelay, PostedBy, BacksRelayed;
    if !s.crashed && s.toProxy != [] {
      var m := s.toProxy[0];
      var t := s.(toProxy := s.toProxy[1..]);
      TakenCounts(s, t, id, down);
      var i := m.proxySideId;
      if i in s.conns {
        var conn := s.conns[i];
        ConnsBelow(s, i);
        KnownOne(s.conns, i);
        RelayDoesNotCrash(i, conn, size);
        match m {
          case Destroy(_) =>
            RelayUploadsNothing(i, conn, size);
            BytesOf(i, OnDestroy(conn), []);
            ServicesCountNothing(i, conn, true, 0, 0);
            ApplyCounts(t, i, OnDestroy(conn), [], 0, id, down);
          case Notify(_, r, state) =>
            NoticeUploads(i, conn, r, state);
            NoticeCounts(i, conn, r, state);
            BytesOf(i, OnNotify(i, conn, r, state), HeaderFor(conn, state));
            if OnNotify(i, conn, r, state).crash {
              TakenCounts(t, t.(crashed := true), id, down);
            } else {
              ApplyCounts(t, i, OnNotify(i, conn, r, state), HeaderFor(conn, state), 0, id, down);
            }
          case PushBack(_, _) =>
            HeadKnowsRelay(s);
            RelayUploadsNothing(i, conn, size);
            BytesOf(i, OnPushBack(i, conn, size), []);
            PushBackCounts(i, conn, size);
            ApplyCounts(t, i, OnPushBack(i, conn, size), [], size, id, down);
        }
      }
    }
  }

  lemma PushBackCounts(id: nat, conn: Conn, size: nat)
    requires conn.relayId == RELAY_ID
    ensures Counts(conn, OnPushBack(id, conn, size), 0, size)
  {
    AccountCounts(id, conn, 0, size);
    hide Account;
  }

  lemma OthersCount(s: Net, e: Event, id: nat, down: nat)
    requires Inv(s) && Counted(s, id, down)
    requires e.Connect? || e.Cleanup? || IsRemote(e)
    ensures Counted(Step(s, e), id, down)
  {
    if IsRemote(e) {
      RemoteKeepsConns(s, e);
      hide Step;
    } else {
      NextIsFree(s);
    }
    hide Inv;
  }

  lemma StepCounts(s: Net, e: Event, id: nat, down: nat)
    requires Inv(s) && RelayKnown(s.conns) && BacksRelayed(s.toProxy, s.relay.contexts) && Counted(s, id, down)
    ensures Counted(Step(s, e), id, down + Dumped(s, e, id))
  {
    hide Inv, Step, Counted, BacksRelayed;
    match e
    case Client(i, input) => ClientCounts(s, i, input, id, down);
    case Auth(i, accepted) => ServicesCount(s, i, accepted, 0, 0, id, down);
    case Select(i, r, d) => ServicesCount(s, i, true, r, d, id, down);
    case PeerClose(i) => ServicesCount(s, i, true, 0, 0, id, down);
    case ProxyReceives(size) => ProxyCounts(s, size, id, down);
    case _ => OthersCount(s, e, id, down);
  }

  /** What every step keeps for the totals of connection `id`. */
  ghost predicate Accounted(s: Net, id: nat, down: nat) {
    Inv(s) && RelayKnown(s.conns) && BacksRelayed(s.toProxy, s.relay.contexts) && Counted(s, id, down)
  }

  lemma StepKeepsAccounts(s: Net, e: Event, id: nat, down: nat)
    requires Accounted(s, id, down)
    ensures Accounted(Step(s, e), id, down + Dumped(s, e, id))
  {
    hide Inv, Step, Counted, BacksRelayed, RelayKnown;
    NextIsFree(s);
    StepAdds(s, e, id);
    AddsKnown(s, Step(s, e), id, Uploaded(s, e, id));
    StepKeepsInv(s, e);
    StepKeepsBacks(s, e);
    StepCounts(s, e, id, down);
  }

  lemma AddsKnown(s: Net, t: Net, id: nat, bytes: Bytes)
    requires Adds(s, t, id, bytes)
    ensures RelayKnown(t.conns)
  {
  }

  lemma {:induction false} RunKeepsAccounts(s: Net, events: seq<Event>, id: nat, down: nat)
    requires Accounted(s, id, down)
    ensures Accounted(Run(s, events), id, down + AllDumped(s, events, id))
    decreases |events|
  {
    hide Accounted, Step, Dumped;
    if events != [] {
      StepKeepsAccounts(s, events[0], id, down);
      RunKeepsAccounts(Step(s, events[0]), events[1..], id, down + Dumped(s, events[0], id));
    }
  }

  lemma StartAccounted(capacity: nat, id: nat)
    ensures Accounted(Start(capacity), id, 0)
  {
    StartInv(capacity);
    hide Inv;
  }

  /** In every run the totals of a connection are exactly the bytes that its client uploaded and the sizes of
      the messages that came back for it, and less than 1000 of either is not reported yet. */
  lemma TotalsAreExact(capacity: nat, events: seq<Event>, id: nat)
    requires id in Run(Start(capacity), events).conns
    ensures var c := Run(Start(capacity), events).conns[id];
      && c.uploaded == |Uploads(Start(capacity), events, id)|
      && c.dumped == AllDumped(Start(capacity), events, id)
      && Reported(c)
  {
    hide Run, Inv, Uploads, AllDumped, RelayKnown, BacksRelayed, Reported;
    var s0 := Start(capacity);
    StartAccounted(capacity, id);
    RunKeepsAccounts(s0, events, id, 0);
    SentIsUploaded(s0, events, id);
    assert [] + Uploads(s0, events, id) == Uploads(s0, events, id);
  }
}
