/** What the clients upload over a run, and that it reaches the devices in order. */
module RelayUploads {
  import opened Lists
  import opened RelayNetwork
  import opened RelayRuns
  import opened RelaySteps
  import opened RelayInvariant

  // ---------------------------------------------------------------------------------------
  // A connection whose create request was sent knows the relay
  // ---------------------------------------------------------------------------------------

  predicate KnowsRelay(c: Conn) {
    CreateDone(c.phase) ==> c.relayId == RELAY_ID
  }

  ghost predicate RelayKnown(conns: map<nat, Conn>) {
    forall id :: id in conns ==> KnowsRelay(conns[id])
  }

  /** The effect of a handler that uploads `bytes` for its connection. */
  ghost predicate UploadsBytes(id: nat, e: Effect, bytes: Bytes) {
    KnowsRelay(e.conn) && PostedBy(e.entries, id) == bytes
  }

  lemma NothingPosted(id: nat, e: Effect)
    requires KnowsRelay(e.conn) && |e.entries| <= 2 && forall i :: 0 <= i < |e.entries| ==> !e.entries[i].Posted?
    ensures UploadsBytes(id, e, [])
  {
    if e.entries != [] {
      assert PostedBy(e.entries[1..], id) == [] by {
        if |e.entries| == 2 { assert e.entries[1..][1..] == []; }
      }
    }
  }

  lemma AllPosted(id: nat, conn: Conn, data: Bytes)
    requires IsReady(conn.phase) && KnowsRelay(conn)
    ensures UploadsBytes(id, Upload(id, conn, data), data)
    ensures !Upload(id, conn, data).crash
  {
    hide Chunks, Posts, Pushes;
    ChunksJoin(data);
    PushesCarry(id, conn.relaySideId, Chunks(data));
  }

  lemma InputUploads(id: nat, conn: Conn, input: Input)
    requires KnowsRelay(conn)
    ensures UploadsBytes(id, OnInput(id, conn, input), if IsReady(conn.phase) && input.Data? then input.bytes else [])
  {
    var e := OnInput(id, conn, input);
    if IsReady(conn.phase) && input.Data? {
      AllPosted(id, conn, input.bytes);
      hide Upload;
    } else {
      hide Upload;
      NothingPosted(id, e);
    }
  }

  lemma ServicesUploadNothing(id: nat, conn: Conn, accepted: bool, relayId: nat, deviceId: nat)
    requires KnowsRelay(conn)
    ensures UploadsBytes(id, OnAuthResult(id, conn, accepted), [])
    ensures UploadsBytes(id, OnDeviceSelected(id, conn, relayId, deviceId), [])
    ensures UploadsBytes(id, RelayNetwork.OnPeerClose(conn), [])
  {
    hide UploadsBytes, PostedBy;
    NothingPosted(id, OnAuthResult(id, conn, accepted));
    NothingPosted(id, OnDeviceSelected(id, conn, relayId, deviceId));
    NothingPosted(id, RelayNetwork.OnPeerClose(conn));
  }

  lemma RelayUploadsNothing(id: nat, conn: Conn, size: nat)
    requires KnowsRelay(conn)
    ensures UploadsBytes(id, OnDestroy(conn), []) && UploadsBytes(id, OnPushBack(id, conn, size), [])
  {
    hide UploadsBytes, PostedBy;
    NothingPosted(id, OnDestroy(conn));
    NothingPosted(id, OnPushBack(id, conn, size));
  }

  /** The header goes out when a plain HTTP connection is reported as established. */
  function HeaderFor(conn: Conn, state: ConnectionState): Bytes {
    if conn.phase.HttpNormalWaitForConnectionEstablish? && state.Established? then conn.header else []
  }

  lemma NoticeUploads(id: nat, conn: Conn, r: nat, state: ConnectionState)
    requires KnowsRelay(conn)
    ensures UploadsBytes(id, OnNotify(id, conn, r, state), HeaderFor(conn, state))
  {
    hide UploadsBytes, PostedBy, Upload;
    if conn.phase.HttpNormalWaitForConnectionEstablish? && state.Established? {
      HeaderUploads(id, conn, r);
    } else {
      NothingPosted(id, OnNotify(id, conn, r, state));
    }
  }

  lemma HeaderUploads(id: nat, conn: Conn, r: nat)
    requires KnowsRelay(conn) && conn.phase.HttpNormalWaitForConnectionEstablish?
    ensures UploadsBytes(id, OnNotify(id, conn, r, Established), conn.header)
  {
    hide Upload;
    var c := conn.(relaySideId := r, phase := HttpNormalReady);
    AllPosted(id, c, c.header);
    var u := Upload(id, c, c.header);
    var e := OnNotify(id, conn, r, Established);
    assert e.entries == [Ready(id)] + u.entries;
    assert e.entries[1..] == u.entries;
  }

  // ---------------------------------------------------------------------------------------
  // Uploads over a run
  // ---------------------------------------------------------------------------------------

  /** What event `e` uploads for client connection `id`: the data of a ready connection, and the rebuilt
      header of a plain HTTP request when it is established. */
  function Uploaded(s: Net, e: Event, id: nat): Bytes {
    if s.crashed || id !in s.conns then [] else
      var phase := s.conns[id].phase;
      match e
      case Client(i, input) => if i == id && IsReady(phase) && input.Data? then input.bytes else []
      case ProxyReceives(_) =>
        if s.toProxy != [] && s.toProxy[0].Notify? && s.toProxy[0].proxySideId == id && s.toProxy[0].state.Established?
           && phase.HttpNormalWaitForConnectionEstablish? then s.conns[id].header else []
      case _ => []
  }

  /** All that `events` upload for connection `id`, in order. */
  function Uploads(s: Net, events: seq<Event>, id: nat): Bytes
    decreases |events|
  {
    if events == [] then [] else Uploaded(s, events[0], id) + Uploads(Step(s, events[0]), events[1..], id)
  }

  function SentOf(s: Net, id: nat): Bytes {
    if id in s.sent then s.sent[id] else []
  }

  ghost predicate Adds(s: Net, t: Net, id: nat, bytes: Bytes) {
    RelayKnown(t.conns) && SentOf(t, id) == SentOf(s, id) + bytes
  }

  lemma ApplyAdds(s: Net, i: nat, e: Effect, bytes: Bytes, id: nat)
    requires i in s.conns && RelayKnown(s.conns) && UploadsBytes(i, e, bytes) && (e.crash ==> bytes == [])
    ensures Adds(s, Apply(s, i, e), id, if i == id then bytes else [])
  {
    hide PostedBy, KnowsRelay;
  }

  /** A step that does not touch what was sent. */
  lemma UntouchedAdds(s: Net, t: Net, id: nat)
    requires RelayKnown(s.conns) && t.sent == s.sent && forall i :: i in t.conns ==>
      i in s.conns && t.conns[i] == s.conns[i]
    ensures Adds(s, t, id, [])
  {
    hide KnowsRelay;
    assert SentOf(s, id) + [] == SentOf(s, id);
  }

  lemma ClientAdds(s: Net, i: nat, input: Input, id: nat)
    requires RelayKnown(s.conns)
    ensures Adds(s, Step(s, Client(i, input)), id, Uploaded(s, Client(i, input), id))
  {
    hide OnInput, Adds, KnowsRelay, UploadsBytes;
    if s.crashed || i !in s.conns {
      UntouchedAdds(s, s, id);
    } else {
      KnownOne(s.conns, i);
      InputUploads(i, s.conns[i], input);
      OnInputGood(i, s.conns[i], input);
      NoCrash(i, s.conns[i], OnInput(i, s.conns[i], input));
      hide Ordinary;
      ApplyAdds(s, i, OnInput(i, s.conns[i], input),
                if IsReady(s.conns[i].phase) && input.Data? then input.bytes else [], id);
    }
  }

  lemma KnownOne(conns: map<nat, Conn>, id: nat)
    requires RelayKnown(conns) && id in conns
    ensures KnowsRelay(conns[id])
  {
  }

  lemma NoCrash(id: nat, conn: Conn, e: Effect)
    requires Ordinary(id, conn, e)
    ensures !e.crash
  {
    hide GoodEffect, GoodEntries;
  }

  lemma ServicesAdd(s: Net, i: nat, accepted: bool, relayId: nat, deviceId: nat, id: nat)
    requires RelayKnown(s.conns)
    ensures Adds(s, Step(s, Auth(i, accepted)), id, []) && Adds(s, Step(s, Select(i, relayId, deviceId)), id, [])
    ensures Adds(s, Step(s, PeerClose(i)), id, [])
  {
    hide OnAuthResult, OnDeviceSelected, RelayNetwork.OnPeerClose, Adds, KnowsRelay, UploadsBytes;
    if s.crashed || i !in s.conns {
      UntouchedAdds(s, s, id);
    } else {
      KnownOne(s.conns, i);
      ServicesUploadNothing(i, s.conns[i], accepted, relayId, deviceId);
      ApplyAdds(s, i, OnAuthResult(i, s.conns[i], accepted), [], id);
      ApplyAdds(s, i, OnDeviceSelected(i, s.conns[i], relayId, deviceId), [], id);
      ApplyAdds(s, i, RelayNetwork.OnPeerClose(s.conns[i]), [], id);
    }
  }

  lemma ProxyAdds(s: Net, size: nat, id: nat)
    requires RelayKnown(s.conns)
    ensures Adds(s, Step(s, ProxyReceives(size)), id, Uploaded(s, ProxyReceives(size), id))
  {
    hide OnNotify, OnDestroy, OnPushBack, KnowsRelay, UploadsBytes;
    if s.crashed || s.toProxy == [] {
      UntouchedAdds(s, s, id);
    } else {
      var m := s.toProxy[0];
      var t := s.(toProxy := s.toProxy[1..]);
      var i := m.proxySideId;
      if i !in s.conns {
        UntouchedAdds(s, t, id);
      } else {
        var conn := s.conns[i];
        KnownOne(s.conns, i);
        match m {
          case Destroy(_) =>
            RelayUploadsNothing(i, conn, size);
            ApplyAdds(t, i, OnDestroy(conn), [], id);
          case Notify(_, r, state) =>
            NoticeUploads(i, conn, r, state);
            NotifyCrashesExactly(i, conn, r, state);
            ApplyAdds(t, i, OnNotify(i, conn, r, state), HeaderFor(conn, state), id);
          case PushBack(_, _) =>
            RelayUploadsNothing(i, conn, size);
            ApplyAdds(t, i, OnPushBack(i, conn, size), [], id);
        }
      }
    }
  }

  lemma ConnectAdds(s: Net, id: nat)
    requires RelayKnown(s.conns) && s.nextConn !in s.sent
    ensures Adds(s, Step(s, Connect), id, [])
  {
    assert SentOf(s, id) + [] == SentOf(s, id);
  }

  lemma OthersAdd(s: Net, e: Event, id: nat)
    requires RelayKnown(s.conns)
    requires !e.Client? && !e.Auth? && !e.Select? && !e.PeerClose? && !e.ProxyReceives? && !e.Connect?
    ensures Adds(s, Step(s, e), id, [])
  {
    hide Adds;
    if IsRemote(e) {
      RemoteKeepsConns(s, e);
      hide Step;
    }
    UntouchedAdds(s, Step(s, e), id);
  }

  lemma StepAdds(s: Net, e: Event, id: nat)
    requires RelayKnown(s.conns) && s.nextConn !in s.sent
    ensures Adds(s, Step(s, e), id, Uploaded(s, e, id))
  {
    hide Step, Adds;
    match e
    case Client(i, input) => ClientAdds(s, i, input, id);
    case Auth(i, accepted) => ServicesAdd(s, i, accepted, 0, 0, id);
    case Select(i, r, d) => ServicesAdd(s, i, true, r, d, id);
    case PeerClose(i) => ServicesAdd(s, i, true, 0, 0, id);
    case ProxyReceives(size) => ProxyAdds(s, size, id);
    case Connect => ConnectAdds(s, id);
    case _ => OthersAdd(s, e, id);
  }

  lemma NextIsFree(s: Net)
    requires Inv(s)
    ensures s.nextConn !in s.sent
  {
  }

  /** What is recorded as sent for a connection is what its client has uploaded. */
  lemma {:induction false} SentIsUploaded(s: Net, events: seq<Event>, id: nat)
    requires Inv(s) && RelayKnown(s.conns)
    ensures RelayKnown(Run(s, events).conns)
    ensures SentOf(Run(s, events), id) == SentOf(s, id) + Uploads(s, events, id)
    decreases |events|
  {
    hide Inv, Step, Uploaded, KnowsRelay;
    if events == [] {
      assert SentOf(s, id) + [] == SentOf(s, id);
    } else {
      var t := Step(s, events[0]);
      NextIsFree(s);
      StepAdds(s, events[0], id);
      StepKeepsInv(s, events[0]);
      SentIsUploaded(t, events[1..], id);
      Associates(SentOf(s, id), Uploaded(s, events[0], id), Uploads(t, events[1..], id));
    }
  }

  // ---------------------------------------------------------------------------------------
  // From the client to the device
  // ---------------------------------------------------------------------------------------

  lemma SentFacts(s: Net, x: nat)
    requires Inv(s) && x in s.relay.contexts
    ensures var c := s.relay.contexts[x];
      && c.deviceId in s.relay.devices && c.proxySideId in s.sent
      && FlowAgrees(s.relay, x, s.toRelay, s.linkUp, s.sent[c.proxySideId])
  {
  }

  lemma PayloadSizes(d: nat, v: Device, contexts: map<nat, Context>)
    requires DeviceAgrees(d, v, contexts)
    ensures forall i :: 0 <= i < |v.dataIn| && v.dataIn[i].PostData? ==> 0 < |v.dataIn[i].payload| <= MAX_PAYLOAD_SIZE
  {
    hide RespIn, CreateIn;
  }

  /** For every relayed connection and every interleaving: what reached its device is the beginning of
      what its client uploaded over the run, in payloads that are neither empty nor too long; and while
      the link and the device are there, what is missing is exactly what is on its way. */
  lemma DeliveredInOrder(capacity: nat, events: seq<Event>, x: nat)
    requires x in Run(Start(capacity), events).relay.contexts
    ensures var s := Run(Start(capacity), events);
      var c := s.relay.contexts[x];
      var uploaded := Uploads(Start(capacity), events, c.proxySideId);
      && c.deviceId in s.relay.devices
      && (var q := s.relay.devices[c.deviceId].dataIn;
          && Delivered(q, x) <= uploaded
          && (s.linkUp && HasDevice(s.relay, c.deviceId) ==> Delivered(q, x) + Pending(s.toRelay, x) == uploaded)
          && (forall i :: 0 <= i < |q| && q[i].PostData? ==> 0 < |q[i].payload| <= MAX_PAYLOAD_SIZE))
  {
    hide Run, Inv, Uploads;
    var s0 := Start(capacity);
    var s := Run(s0, events);
    StartInv(capacity);
    RunKeepsInv(s0, events);
    SentFacts(s, x);
    var id := s.relay.contexts[x].proxySideId;
    SentIsUploaded(s0, events, id);
    assert [] + Uploads(s0, events, id) == Uploads(s0, events, id);
    var d := s.relay.contexts[x].deviceId;
    DeviceFacts(s, d);
    PayloadSizes(d, s.relay.devices[d], s.relay.contexts);
  }

  /** Everything that a client uploads on a ready connection of a run is posted as a whole and in order. */
  lemma UploadsAreWhole(capacity: nat, events: seq<Event>, id: nat, bytes: Bytes)
    requires var s := Run(Start(capacity), events); id in s.conns && IsReady(s.conns[id].phase)
    ensures var s := Run(Start(capacity), events);
      PostedBy(OnInput(id, s.conns[id], Data(bytes)).entries, id) == bytes
  {
    hide Run, Inv, OnInput;
    StartInv(capacity);
    SentIsUploaded(Start(capacity), events, id);
    var s := Run(Start(capacity), events);
    KnownOne(s.conns, id);
    InputUploads(id, s.conns[id], Data(bytes));
  }

  /** A plain HTTP request of a run begins with its rebuilt header, as soon as the connection is established. */
  lemma HeaderGoesFirst(capacity: nat, events: seq<Event>, id: nat, relaySideId: nat)
    requires var s := Run(Start(capacity), events);
      id in s.conns && s.conns[id].phase.HttpNormalWaitForConnectionEstablish?
    ensures var s := Run(Start(capacity), events);
      PostedBy(OnNotify(id, s.conns[id], relaySideId, Established).entries, id) == s.conns[id].header
  {
    hide Run, Inv, OnNotify;
    StartInv(capacity);
    SentIsUploaded(Start(capacity), events, id);
    var s := Run(Start(capacity), events);
    KnownOne(s.conns, id);
    NoticeUploads(id, s.conns[id], relaySideId, Established);
  }
}
