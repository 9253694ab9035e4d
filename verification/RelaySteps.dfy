/** Every step of the network keeps the invariant. */
module RelaySteps {
  import opened Lists
  import opened RelayNetwork
  import opened RelayRuns

  // ---------------------------------------------------------------------------------------
  // What the handlers of the access server may do
  // ---------------------------------------------------------------------------------------

  /** The messages of one handler for connection `id`, which is relayed as `r` if it is relayed. */
  ghost predicate GoodOut(id: nat, r: nat, before: Phase, after: Phase, out: seq<ToRelay>) {
    && (forall i :: 0 <= i < |out| ==> out[i].proxySideId == id)
    && (forall i :: 0 <= i < |out| && out[i].Create? ==> |out| == 1 && !CreateDone(before) && CreateDone(after))
    && (forall i :: 0 <= i < |out| && !out[i].Create? ==> out[i].relaySideId == r)
    && (forall i :: 0 <= i < |out| && out[i].Push? ==> IsReady(after) && 0 < |out[i].payload| <= MAX_PAYLOAD_SIZE)
  }

  ghost predicate GoodEffect(id: nat, conn: Conn, e: Effect) {
    && (CreateDone(conn.phase) ==> CreateDone(e.conn.phase))
    && GoodOut(id, e.conn.relaySideId, conn.phase, e.conn.phase, e.out)
    && (forall i :: 0 <= i < |e.entries| ==> e.entries[i].id == id)
    && PostedBy(e.entries, id) == Pending(e.out, e.conn.relaySideId)
    && (forall r :: r != e.conn.relaySideId ==> Pending(e.out, r) == [])
  }

  /** Entries that lead from what one phase presupposes to what the other does. */
  ghost predicate GoodEntries(id: nat, before: Phase, after: Phase, entries: seq<Entry>) {
    forall log {:trigger log + entries} :: PostsInOrder(log) && Needs(before) <= Stage(log, id) ==>
      PostsInOrder(log + entries) && Needs(after) <= Stage(log + entries, id)
      && forall x :: Stage(log, x) <= Stage(log + entries, x)
  }

  lemma {:induction false} PendingAppend(a: seq<ToRelay>, b: seq<ToRelay>, r: nat)
    ensures Pending(a + b, r) == Pending(a, r) + Pending(b, r)
  {
    if a == [] {
      assert a + b == b;
    } else {
      assert (a + b)[0] == a[0] && (a + b)[1..] == a[1..] + b;
      PendingAppend(a[1..], b, r);
    }
  }

  lemma {:induction false} PushesCarry(id: nat, r: nat, chunks: seq<Bytes>)
    ensures Pending(Pushes(id, r, chunks), r) == Joined(chunks)
    ensures forall x :: x != r ==> Pending(Pushes(id, r, chunks), x) == []
    ensures PostedBy(Posts(id, chunks), id) == Joined(chunks)
    decreases |chunks|
  {
    if chunks != [] {
      PushesCarry(id, r, chunks[1..]);
      assert Pushes(id, r, chunks)[1..] == Pushes(id, r, chunks[1..]);
      assert Posts(id, chunks)[1..] == Posts(id, chunks[1..]);
    }
  }

  lemma SilentIsGood(id: nat, conn: Conn, e: Effect)
    requires e.out == [] && e.entries == []
    requires CreateDone(conn.phase) ==> CreateDone(e.conn.phase)
    ensures GoodEffect(id, conn, e)
  {
  }

  lemma OneStepGood(id: nat, conn: Conn, e: Effect)
    requires e.out == [] && |e.entries| == 1 && e.entries[0].id == id && !e.entries[0].Posted?
    requires CreateDone(conn.phase) ==> CreateDone(e.conn.phase)
    ensures GoodEffect(id, conn, e)
  {
    assert PostedBy(e.entries[1..], id) == [];
  }

  lemma NoEntriesGood(id: nat, before: Phase, after: Phase)
    requires Needs(after) <= Needs(before)
    ensures GoodEntries(id, before, after, [])
  {
    forall log: seq<Entry> ensures log + [] == log { }
  }

  lemma OneEntryGood(id: nat, before: Phase, after: Phase, e: Entry)
    requires e.id == id && !e.Posted?
    requires e.Authorised? ==> Needs(after) <= 1
    requires e.DeviceChosen? ==> 1 <= Needs(before) && Needs(after) <= 2
    requires e.CreateSent? ==> 2 <= Needs(before) && Needs(after) <= 3
    requires e.Ready? ==> 3 <= Needs(before)
    ensures GoodEntries(id, before, after, [e])
  {
    forall log | PostsInOrder(log) && Needs(before) <= Stage(log, id)
      ensures PostsInOrder(log + [e]) && Needs(after) <= Stage(log + [e], id)
      ensures forall x :: Stage(log, x) <= Stage(log + [e], x)
    {
      PostsStep(log, e);
      StageStep(log, e, id);
      forall x ensures Stage(log, x) <= Stage(log + [e], x) { StageStep(log, e, x); }
    }
  }

  lemma EntriesCompose(id: nat, p: Phase, q: Phase, r: Phase, a: seq<Entry>, b: seq<Entry>)
    requires GoodEntries(id, p, q, a) && GoodEntries(id, q, r, b)
    ensures GoodEntries(id, p, r, a + b)
  {
    forall log | PostsInOrder(log) && Needs(p) <= Stage(log, id)
      ensures PostsInOrder(log + (a + b)) && Needs(r) <= Stage(log + (a + b), id)
      ensures forall x :: Stage(log, x) <= Stage(log + (a + b), x)
    {
      assert log + (a + b) == (log + a) + b;
      forall x ensures Stage(log, x) <= Stage(log + (a + b), x) {
        assert Stage(log, x) <= Stage(log + a, x);
        assert Stage(log + a, x) <= Stage((log + a) + b, x);
      }
    }
  }

  lemma PostsGood(id: nat, p: Phase, chunks: seq<Bytes>)
    requires IsReady(p)
    ensures GoodEntries(id, p, p, Posts(id, chunks))
  {
    forall log | PostsInOrder(log) && Needs(p) <= Stage(log, id)
      ensures PostsInOrder(log + Posts(id, chunks)) && Needs(p) <= Stage(log + Posts(id, chunks), id)
      ensures forall x :: Stage(log, x) <= Stage(log + Posts(id, chunks), x)
    {
      PostsOnly(log, id, chunks);
    }
  }

  /** What an upload sends is what it posts; the report that may follow carries nothing. */
  lemma UploadCarries(id: nat, conn: Conn, data: Bytes)
    requires conn.relayId == RELAY_ID
    ensures var e := Upload(id, conn, data);
      && PostedBy(e.entries, id) == data && Pending(e.out, conn.relaySideId) == data
      && (forall r :: r != conn.relaySideId ==> Pending(e.out, r) == [])
  {
    var e := Upload(id, conn, data);
    var pushes := Pushes(id, conn.relaySideId, Chunks(data));
    var a := Account(id, conn, |data|, 0);
    ChunksJoin(data);
    PushesCarry(id, conn.relaySideId, Chunks(data));
    hide Chunks, Pushes, Posts, PostedBy;
    forall r ensures Pending(e.out, r) == Pending(pushes, r) {
      PendingAppend(pushes, a.out, r);
    }
  }

  lemma UploadGood(id: nat, conn: Conn, data: Bytes)
    requires IsReady(conn.phase)
    ensures var e := Upload(id, conn, data);
      && !e.crash && e.conn.phase == conn.phase && e.conn.relaySideId == conn.relaySideId
      && GoodEffect(id, conn, e) && GoodEntries(id, conn.phase, conn.phase, e.entries)
  {
    hide GoodEntries, Pending, PostedBy;
    if conn.relayId != RELAY_ID {
      SilentIsGood(id, conn, Upload(id, conn, data));
      NoEntriesGood(id, conn.phase, conn.phase);
    } else {
      UploadCarries(id, conn, data);
      ChunksJoin(data);
      PostsGood(id, conn.phase, Chunks(data));
      hide Chunks;
    }
  }

  lemma AccountGood(id: nat, conn: Conn, dumped: nat)
    ensures var e := Account(id, conn, 0, dumped);
      && !e.crash && e.conn.phase == conn.phase && e.conn.relaySideId == conn.relaySideId
      && GoodEffect(id, conn, e) && GoodEntries(id, conn.phase, e.conn.phase, e.entries)
  {
    NoEntriesGood(id, conn.phase, conn.phase);
  }

  lemma OpenRemoteGood(id: nat, conn: Conn, target: Target)
    requires conn.phase.S5WaitForConnectionRequest? || conn.phase.HttpRawWaitForDeviceSelection?
      || conn.phase.HttpNormalWaitForDeviceSelection?
    ensures var e := OpenRemote(id, conn, target);
      && !e.crash && e.conn.relaySideId == conn.relaySideId && !IsReady(e.conn.phase)
      && GoodEffect(id, conn, e)
      && (e == Nothing(conn) || (e.entries == [CreateSent(id)] && WaitsForEstablish(e.conn.phase)))
  {
  }

  /** A handler that is not told of an established connection. */
  ghost predicate Ordinary(id: nat, conn: Conn, e: Effect) {
    && !e.crash && e.conn.relaySideId == conn.relaySideId
    && (IsReady(e.conn.phase) ==> IsReady(conn.phase))
    && GoodEffect(id, conn, e) && GoodEntries(id, conn.phase, e.conn.phase, e.entries)
  }

  lemma OnInputGood(id: nat, conn: Conn, input: Input)
    ensures Ordinary(id, conn, OnInput(id, conn, input))
  {
    hide Upload, OpenRemote, GoodEffect, GoodEntries;
    var e := OnInput(id, conn, input);
    if IsReady(conn.phase) && input.Data? {
      UploadGood(id, conn, input.bytes);
    } else if conn.phase.S5WaitForConnectionRequest? && input.ConnectRequest? {
      OpenRemoteGood(id, conn, input.target);
      if e == Nothing(conn) {
        NoEntriesGood(id, conn.phase, conn.phase);
      } else {
        OneEntryGood(id, conn.phase, e.conn.phase, CreateSent(id));
      }
    } else {
      SilentIsGood(id, conn, e);
      NoEntriesGood(id, conn.phase, e.conn.phase);
    }
  }

  lemma OnAuthResultGood(id: nat, conn: Conn, accepted: bool)
    ensures Ordinary(id, conn, OnAuthResult(id, conn, accepted))
  {
    hide GoodEffect, GoodEntries;
    var e := OnAuthResult(id, conn, accepted);
    if e.entries == [] {
      SilentIsGood(id, conn, e);
      NoEntriesGood(id, conn.phase, e.conn.phase);
    } else {
      OneEntryGood(id, conn.phase, e.conn.phase, Authorised(id));
      OneStepGood(id, conn, e);
    }
  }

  lemma OnDeviceSelectedGood(id: nat, conn: Conn, relayId: nat, deviceId: nat)
    ensures Ordinary(id, conn, OnDeviceSelected(id, conn, relayId, deviceId))
  {
    hide GoodEntries;
    var e := OnDeviceSelected(id, conn, relayId, deviceId);
    if conn.phase.HttpRawWaitForDeviceSelection? || conn.phase.HttpNormalWaitForDeviceSelection? {
      var c := conn.(relayId := relayId, deviceId := deviceId);
      var o := OpenRemote(id, c, conn.target);
      OpenRemoteGood(id, c, conn.target);
      if o.entries == [] {
        OneEntryGood(id, conn.phase, e.conn.phase, DeviceChosen(id));
        assert [DeviceChosen(id)] + [] == [DeviceChosen(id)];
      } else {
        OneEntryGood(id, conn.phase, S5WaitForConnectionRequest, DeviceChosen(id));
        OneEntryGood(id, S5WaitForConnectionRequest, e.conn.phase, CreateSent(id));
        EntriesCompose(id, conn.phase, S5WaitForConnectionRequest, e.conn.phase, [DeviceChosen(id)], [CreateSent(id)]);
      }
    } else if e.entries == [] {
      SilentIsGood(id, conn, e);
      NoEntriesGood(id, conn.phase, e.conn.phase);
    } else {
      OneEntryGood(id, conn.phase, e.conn.phase, DeviceChosen(id));
      OneStepGood(id, conn, e);
    }
  }

  lemma OnDestroyGood(id: nat, conn: Conn)
    ensures Ordinary(id, conn, OnDestroy(conn)) && Ordinary(id, conn, RelayNetwork.OnPeerClose(conn))
  {
    SilentIsGood(id, conn, OnDestroy(conn));
    SilentIsGood(id, conn, RelayNetwork.OnPeerClose(conn));
    NoEntriesGood(id, conn.phase, OnDestroy(conn).conn.phase);
    NoEntriesGood(id, conn.phase, RelayNetwork.OnPeerClose(conn).conn.phase);
  }

  lemma OnPushBackGood(id: nat, conn: Conn, size: nat)
    ensures Ordinary(id, conn, OnPushBack(id, conn, size))
  {
    AccountGood(id, conn, size);
  }

  /** The notice that a connection is established. */
  ghost predicate Establishes(id: nat, conn: Conn, r: nat, e: Effect) {
    && !e.crash && e.conn.relaySideId == r && IsReady(e.conn.phase)
    && GoodEffect(id, conn, e) && GoodEntries(id, conn.phase, e.conn.phase, e.entries)
  }

  lemma DirectlyReady(id: nat, conn: Conn, r: nat)
    requires conn.phase.S5WaitForConnectionEstablish? || conn.phase.HttpRawWaitForConnectionEstablish?
    ensures Establishes(id, conn, r, OnNotify(id, conn, r, Established))
  {
    var e := OnNotify(id, conn, r, Established);
    OneEntryGood(id, conn.phase, e.conn.phase, Ready(id));
    assert e.entries[1..] == [];
  }

  lemma ReadyFirst(id: nat, conn: Conn, c: Conn, u: Effect)
    requires conn.phase.HttpNormalWaitForConnectionEstablish? && c.phase.HttpNormalReady?
    requires !u.crash && u.conn.phase == c.phase && u.conn.relaySideId == c.relaySideId
    requires GoodEffect(id, c, u) && GoodEntries(id, c.phase, c.phase, u.entries)
    ensures Establishes(id, conn, c.relaySideId, u.(entries := [Ready(id)] + u.entries))
  {
    OneEntryGood(id, conn.phase, HttpNormalReady, Ready(id));
    EntriesCompose(id, conn.phase, HttpNormalReady, HttpNormalReady, [Ready(id)], u.entries);
    assert ([Ready(id)] + u.entries)[1..] == u.entries;
    hide GoodEntries;
  }

  lemma ReadyWithHeader(id: nat, conn: Conn, r: nat)
    requires conn.phase.HttpNormalWaitForConnectionEstablish?
    ensures Establishes(id, conn, r, OnNotify(id, conn, r, Established))
  {
    hide Upload, GoodEffect, GoodEntries, Establishes;
    var c := conn.(relaySideId := r, phase := HttpNormalReady);
    UploadGood(id, c, c.header);
    ReadyFirst(id, conn, c, Upload(id, c, c.header));
  }

  /** Any other notice is ordinary, unless it crashes. */
  lemma OnNotifyGood(id: nat, conn: Conn, r: nat, state: ConnectionState)
    ensures var e := OnNotify(id, conn, r, state);
      e.crash || Ordinary(id, conn, e) || (state.Established? && Establishes(id, conn, r, e))
  {
    var e := OnNotify(id, conn, r, state);
    if !WaitsForEstablish(conn.phase) {
      SilentIsGood(id, conn, e);
      NoEntriesGood(id, conn.phase, e.conn.phase);
    } else if state.Established? {
      if conn.phase.HttpNormalWaitForConnectionEstablish? {
        ReadyWithHeader(id, conn, r);
      } else {
        DirectlyReady(id, conn, r);
      }
    }
  }

  // ---------------------------------------------------------------------------------------
  // The access server's handlers keep the invariant
  // ---------------------------------------------------------------------------------------

  ghost predicate Allowed(s: Net, id: nat, e: Effect) {
    && id in s.conns && !e.crash
    && GoodEffect(id, s.conns[id], e) && GoodEntries(id, s.conns[id].phase, e.conn.phase, e.entries)
    && (Belongs(s.relay.contexts, e.conn.relaySideId, id)
          || (e.conn.relaySideId == s.conns[id].relaySideId && (IsReady(e.conn.phase) ==> IsReady(s.conns[id].phase))))
  }

  lemma ApplyConns(s: Net, id: nat, e: Effect)
    requires Allowed(s, id, e)
    requires ConnsAgree(s.conns, s.nextConn, s.relay.contexts) && ContextsAgree(s.relay, s.nextConn)
    ensures ConnsAgree(Apply(s, id, e).conns, s.nextConn, s.relay.contexts)
  {
    hide GoodEffect, GoodEntries;
  }

  lemma ApplyMessages(s: Net, id: nat, e: Effect)
    requires Allowed(s, id, e)
    requires ConnsAgree(s.conns, s.nextConn, s.relay.contexts) && ContextsAgree(s.relay, s.nextConn)
    requires MessagesAgree(s.toRelay, s.nextConn, s.relay.contexts)
    ensures MessagesAgree(Apply(s, id, e).toRelay, s.nextConn, s.relay.contexts)
  {
    hide GoodEntries;
    ApplyConns(s, id, e);
    var t := Apply(s, id, e);
    assert e.conn == t.conns[id];
    forall i | 0 <= i < |t.toRelay| ensures MessageAgrees(t.toRelay[i], s.nextConn, s.relay.contexts) {
      if i < |s.toRelay| {
        assert t.toRelay[i] == s.toRelay[i];
      } else {
        assert t.toRelay[i] == e.out[i - |s.toRelay|];
      }
    }
  }

  lemma ApplyCreates(s: Net, id: nat, e: Effect)
    requires Allowed(s, id, e)
    requires CreatesAgree(s.conns, s.toRelay, s.relay.contexts)
    ensures CreatesAgree(Apply(s, id, e).conns, Apply(s, id, e).toRelay, s.relay.contexts)
  {
    hide GoodEntries, HasContext;
    var q := s.toRelay + e.out;
    forall i | 0 <= i < |q| && q[i].Create?
      ensures i < |s.toRelay| || (i == |s.toRelay| && q[i].proxySideId == id && !CreateDone(s.conns[id].phase))
    {
      if |s.toRelay| <= i { assert q[i] == e.out[i - |s.toRelay|]; }
    }
    forall x | CreateQueued(q, x) ensures CreateQueued(s.toRelay, x) || (x == id && CreateDone(e.conn.phase)) {
      var i :| 0 <= i < |q| && q[i].Create? && q[i].proxySideId == x;
      if i < |s.toRelay| {
        assert s.toRelay[i].Create? && s.toRelay[i].proxySideId == x;
      } else {
        assert q[i] == e.out[0];
      }
    }
    forall i | 0 <= i < |s.toRelay| && s.toRelay[i].Create?
      ensures CreateQueued(s.toRelay, s.toRelay[i].proxySideId)
    {
    }
  }

  lemma ApplyLog(s: Net, id: nat, e: Effect)
    requires Allowed(s, id, e)
    requires StagesAgree(s.conns, s.log) && PostsInOrder(s.log)
    ensures StagesAgree(Apply(s, id, e).conns, s.log + e.entries) && PostsInOrder(s.log + e.entries)
  {
    hide GoodEffect;
  }

  lemma {:induction false} NoPushes(q: seq<ToRelay>, r: nat)
    requires forall i :: 0 <= i < |q| && q[i].Push? ==> q[i].relaySideId != r
    ensures Pending(q, r) == []
  {
    if q != [] {
      assert forall i :: 0 <= i < |q| - 1 ==> q[1..][i] == q[i + 1];
      NoPushes(q[1..], r);
    }
  }

  /** What a handler of connection `id` uploads concerns the relayed connection of `id`, if there is one. */
  lemma OutConcerns(s: Net, id: nat, e: Effect, x: nat)
    requires Allowed(s, id, e)
    requires ConnsAgree(s.conns, s.nextConn, s.relay.contexts) && ContextsAgree(s.relay, s.nextConn)
    requires CreatesAgree(s.conns, s.toRelay, s.relay.contexts)
    requires x in s.relay.contexts
    ensures Pending(e.out, x) == if s.relay.contexts[x].proxySideId == id then PostedBy(e.entries, id) else []
  {
    ApplyConns(s, id, e);
    hide GoodEntries, HasContext, CreateQueued;
    var r := e.conn.relaySideId;
    assert e.conn == Apply(s, id, e).conns[id];
    if r == 0 { NoPushes(e.out, 0); }
  }

  lemma NothingUploaded(s: Net, id: nat, e: Effect)
    requires Allowed(s, id, e)
    requires ConnsAgree(s.conns, s.nextConn, s.relay.contexts) && ContextsAgree(s.relay, s.nextConn)
    requires !HasContext(s.relay.contexts, id)
    ensures PostedBy(e.entries, id) == []
  {
    ApplyConns(s, id, e);
    hide GoodEntries;
    var r := e.conn.relaySideId;
    assert e.conn == Apply(s, id, e).conns[id];
    assert !Belongs(s.relay.contexts, r, id);
    NoPushes(e.out, r);
  }

  lemma ApplySent(s: Net, id: nat, e: Effect)
    requires Allowed(s, id, e)
    requires ConnsAgree(s.conns, s.nextConn, s.relay.contexts) && ContextsAgree(s.relay, s.nextConn)
    requires CreatesAgree(s.conns, s.toRelay, s.relay.contexts)
      && SentAgrees(s.sent, s.nextConn, s.relay, s.toRelay, s.linkUp)
    ensures var t := Apply(s, id, e); SentAgrees(t.sent, t.nextConn, t.relay, t.toRelay, t.linkUp)
  {
    hide GoodEntries, GoodEffect, HasContext, CreatesAgree;
    var t := Apply(s, id, e);
    assert id in s.sent;
    if !HasContext(s.relay.contexts, id) { NothingUploaded(s, id, e); }
    forall x | x in s.relay.contexts
      ensures FlowAgrees(s.relay, x, t.toRelay, t.linkUp, t.sent[s.relay.contexts[x].proxySideId])
    {
      OutConcerns(s, id, e, x);
      PendingAppend(s.toRelay, e.out, x);
      Associates(Delivered(s.relay.devices[s.relay.contexts[x].deviceId].dataIn, x), Pending(s.toRelay, x),
        Pending(e.out, x));
    }
  }

  lemma Associates(a: Bytes, b: Bytes, c: Bytes)
    ensures a + (b + c) == (a + b) + c && a + [] == a
    ensures a <= b ==> a <= b + c
  {
  }

  lemma ApplyKeepsInv(s: Net, id: nat, e: Effect)
    requires Inv(s) && Allowed(s, id, e)
    ensures Inv(Apply(s, id, e))
  {
    hide StagesAgree, PostsInOrder, ConnsAgree, MessagesAgree, NoticesAgree, CreatesAgree, ContextsAgree, DevicesAgree;
    hide SentAgrees;
    ApplyConns(s, id, e);
    ApplyMessages(s, id, e);
    ApplyCreates(s, id, e);
    ApplyLog(s, id, e);
    ApplySent(s, id, e);
    ApplyEntries(s, id, e);
  }

  lemma ApplyEntries(s: Net, id: nat, e: Effect)
    requires Allowed(s, id, e) && ConnsAgree(s.conns, s.nextConn, s.relay.contexts)
    requires forall k :: 0 <= k < |s.log| ==> 0 < s.log[k].id < s.nextConn
    ensures forall k :: 0 <= k < |s.log + e.entries| ==> 0 < (s.log + e.entries)[k].id < s.nextConn
  {
    hide GoodEntries;
  }
}
