/** The way back: what the devices post and report for a connection reaches its client, in order. */
module RelayReturns {
  import opened Lists
  import opened RelayNetwork
  import opened RelayRuns
  import opened RelaySteps
  import opened RelayInvariant

  // ---------------------------------------------------------------------------------------
  // Data and notices on their way back
  // ---------------------------------------------------------------------------------------

  /** What comes back for a connection: data, and notices of its state. */
  datatype Item = Payload(bytes: Bytes) | Notice(state: ConnectionState)

  type Items = seq<Item>

  /** What a device's message is worth; a report without a state is none. */
  function Sends(m: FromDevice): Items {
    match m
    case PostBack(_, payload) => [Payload(payload)]
    case State(_, _, state) => if state.Unspecified? then [] else [Notice(state)]
  }

  /** What a message to the access server is worth; a notice without an id is not about a relayed connection. */
  function Tells(m: ToProxy): Items {
    match m
    case PushBack(_, payload) => [Payload(payload)]
    case Notify(_, x, state) => if x == 0 then [] else [Notice(state)]
    case Destroy(_) => []
  }

  /** The items of relayed connection `x` on the link from a device. */
  function Back(q: seq<FromDevice>, x: nat): Items {
    if q == [] then [] else (if q[0].id == x then Sends(q[0]) else []) + Back(q[1..], x)
  }

  /** The items for client connection `id` on the link from the relay. */
  function Held(q: seq<ToProxy>, id: nat): Items {
    if q == [] then []
    else (if q[0].proxySideId == id then Tells(q[0]) else []) + Held(q[1..], id)
  }

  lemma GroupMiddle(a: Items, b: Items, c: Items)
    ensures a + (b + c) == (a + b) + c && a + [] == a && [] + c == c
  {
  }

  lemma {:induction false} BackMore(q: seq<FromDevice>, m: FromDevice, x: nat)
    ensures Back(q + [m], x) == Back(q, x) + if m.id == x then Sends(m) else []
  {
    if q == [] {
      assert q + [m] == [m] && [m][1..] == [];
    } else {
      assert (q + [m])[1..] == q[1..] + [m] && (q + [m])[0] == q[0];
      BackMore(q[1..], m, x);
      var head := if q[0].id == x then Sends(q[0]) else [];
      GroupMiddle(head, Back(q[1..], x), if m.id == x then Sends(m) else []);
    }
  }

  lemma {:induction false} HeldMore(q: seq<ToProxy>, more: seq<ToProxy>, id: nat)
    ensures Held(q + more, id) == Held(q, id) + Held(more, id)
  {
    if q == [] {
      assert q + more == more;
    } else {
      assert (q + more)[1..] == q[1..] + more && (q + more)[0] == q[0];
      HeldMore(q[1..], more, id);
      var head := if q[0].proxySideId == id then Tells(q[0]) else [];
      GroupMiddle(head, Held(q[1..], id), Held(more, id));
    }
  }

  lemma HeldOne(m: ToProxy, id: nat)
    ensures Held([m], id) == if m.proxySideId == id then Tells(m) else []
    ensures Held([], id) == []
  {
    assert [m][1..] == [];
  }

  // ---------------------------------------------------------------------------------------
  // What events post and take
  // ---------------------------------------------------------------------------------------

  /** What event `e` makes a device post back for relayed connection `x`. */
  function PostedBack(s: Net, e: Event, x: nat): Items {
    if e.DeviceReports? && e.d in s.relay.devices && e.m.id in s.relay.devices[e.d].created
       && e.m.id == x
    then Sends(e.m) else []
  }

  /** What event `e` makes the access server take off its link for client connection `id`. */
  function TakenBack(s: Net, e: Event, id: nat): Items {
    if e.ProxyReceives? && !s.crashed && s.toProxy != [] && s.toProxy[0].proxySideId == id then Tells(s.toProxy[0])
    else []
  }

  /** What of it the client gets: everything, as long as its connection is there. */
  function GivenBack(s: Net, e: Event, id: nat): Items {
    if id in s.conns then TakenBack(s, e, id) else []
  }

  /** All that is posted back for `x` in a run, in order. */
  function AllPostedBack(s: Net, events: seq<Event>, x: nat): Items
    decreases |events|
  {
    if events == [] then [] else PostedBack(s, events[0], x) + AllPostedBack(Step(s, events[0]), events[1..], x)
  }

  /** All that client connection `id` gets in a run, in order. */
  function AllGivenBack(s: Net, events: seq<Event>, id: nat): Items
    decreases |events|
  {
    if events == [] then [] else GivenBack(s, events[0], id) + AllGivenBack(Step(s, events[0]), events[1..], id)
  }

  function AllTakenBack(s: Net, events: seq<Event>, id: nat): Items
    decreases |events|
  {
    if events == [] then [] else TakenBack(s, events[0], id) + AllTakenBack(Step(s, events[0]), events[1..], id)
  }

  // ---------------------------------------------------------------------------------------
  // Nothing is lost, doubled or reordered
  // ---------------------------------------------------------------------------------------

  /** The items from the device of `x` to client connection `id`: what was taken, what is on the two links,
      and what was posted. */
  ghost predicate Returns(r: Relay, q: seq<ToProxy>, x: nat, id: nat, taken: Items, posted: Items) {
    && (x in r.contexts && r.contexts[x].proxySideId == id ==>
          && r.contexts[x].deviceId in r.devices
          && taken + (Held(q, id) + Back(r.devices[r.contexts[x].deviceId].dataOut, x)) == posted)
    && (x !in r.contexts ==> posted == [])
    && (!HasContext(r.contexts, id) ==> taken + Held(q, id) == [])
  }

  /** Contexts and what the devices sent stay as they are. */
  ghost predicate SameReturns(r: Relay, t: Relay) {
    && t.contexts.Keys == r.contexts.Keys
    && (forall x :: x in r.contexts ==>
          t.contexts[x].proxySideId == r.contexts[x].proxySideId && t.contexts[x].deviceId == r.contexts[x].deviceId)
    && (forall d :: d in r.devices ==> d in t.devices && t.devices[d].dataOut == r.devices[d].dataOut)
  }

  lemma SameContexts(r: Relay, t: Relay, id: nat)
    requires SameReturns(r, t)
    ensures HasContext(t.contexts, id) <==> HasContext(r.contexts, id)
  {
    if HasContext(r.contexts, id) {
      var x :| x in r.contexts && r.contexts[x].proxySideId == id;
      assert x in t.contexts && t.contexts[x].proxySideId == id;
    }
    if HasContext(t.contexts, id) {
      var x :| x in t.contexts && t.contexts[x].proxySideId == id;
      assert x in r.contexts && r.contexts[x].proxySideId == id;
    }
  }

  lemma SameKeepsReturns(r: Relay, t: Relay, q: seq<ToProxy>, x: nat, id: nat, taken: Items, posted: Items)
    requires SameReturns(r, t) && Returns(r, q, x, id, taken, posted)
    ensures Returns(t, q, x, id, taken, posted)
  {
    hide HasContext, Held, Back;
    SameContexts(r, t, id);
    assert x in r.contexts <==> x in r.contexts.Keys;
    assert x in t.contexts <==> x in t.contexts.Keys;
  }

  /** The relay puts something else than data on the link. */
  lemma NoticeKeepsReturns(r: Relay, q: seq<ToProxy>, out: seq<ToProxy>, x: nat, id: nat, taken: Items, posted: Items)
    requires Returns(r, q, x, id, taken, posted) && Held(out, id) == []
    ensures Returns(r, q + out, x, id, taken, posted)
  {
    HeldMore(q, out, id);
    assert Held(q, id) + [] == Held(q, id);
    hide HasContext, Held, Back;
  }

  /** The access server takes a message off the link. */
  lemma TakeKeepsReturns(s: Net, size: nat, x: nat, id: nat, taken: Items, posted: Items)
    requires Returns(s.relay, s.toProxy, x, id, taken, posted) && !s.crashed && s.toProxy != []
    ensures Returns(s.relay, s.toProxy[1..], x, id, taken + TakenBack(s, ProxyReceives(size), id), posted)
  {
    var head := TakenBack(s, ProxyReceives(size), id);
    var rest := Held(s.toProxy[1..], id);
    assert Held(s.toProxy, id) == head + rest;
    assert taken + (head + rest) == (taken + head) + rest;
    hide Held, HasContext, Back, TakenBack;
    if x in s.relay.contexts && s.relay.contexts[x].proxySideId == id {
      Regroup(taken, head, rest, Back(s.relay.devices[s.relay.contexts[x].deviceId].dataOut, x));
    }
  }

  lemma Regroup(a: Items, b: Items, c: Items, d: Items)
    ensures a + ((b + c) + d) == (a + b) + (c + d)
  {
  }

  lemma ReportIsStep(s: Net, d: nat, m: FromDevice)
    requires d in s.relay.devices && m.id in s.relay.devices[d].created
    ensures var v := s.relay.devices[d];
      Step(s, DeviceReports(d, m)) == WithDevice(s, d, v.(dataOut := v.dataOut + [m]))
    ensures forall x :: PostedBack(s, DeviceReports(d, m), x) == if m.id == x then Sends(m) else []
  {
  }

  /** What is on the link from device `e` for `x`, after device `d` has sent something. */
  lemma ReportedBack(s: Net, d: nat, m: FromDevice, e: nat, x: nat)
    requires d in s.relay.devices && e in s.relay.devices && (m.id == x ==> e == d)
    ensures var v := s.relay.devices[d];
      var t := WithDevice(s, d, v.(dataOut := v.dataOut + [m])).relay;
      && t.contexts == s.relay.contexts && e in t.devices
      && Back(t.devices[e].dataOut, x) ==
           Back(s.relay.devices[e].dataOut, x) + if m.id == x then Sends(m) else []
  {
    BackMore(s.relay.devices[d].dataOut, m, x);
    hide Back;
  }

  /** A device sends something. */
  lemma ReportKeepsReturns(s: Net, d: nat, m: FromDevice, x: nat, id: nat, taken: Items, posted: Items)
    requires Inv(s) && Returns(s.relay, s.toProxy, x, id, taken, posted)
    requires d in s.relay.devices && m.id in s.relay.devices[d].created
    ensures var t := Step(s, DeviceReports(d, m));
      Returns(t.relay, s.toProxy, x, id, taken, posted + PostedBack(s, DeviceReports(d, m), x))
  {
    hide Inv, Held, HasContext, Back, Step, PostedBack;
    CreatedIsOwn(s, d, m.id);
    ReportIsStep(s, d, m);
    var more := PostedBack(s, DeviceReports(d, m), x);
    if x in s.relay.contexts && s.relay.contexts[x].proxySideId == id {
      var e := s.relay.contexts[x].deviceId;
      ReportedBack(s, d, m, e, x);
      GroupLast(taken, Held(s.toProxy, id), Back(s.relay.devices[e].dataOut, x), more);
    }
  }

  lemma GroupLast(a: Items, b: Items, c: Items, d: Items)
    ensures a + (b + (c + d)) == (a + (b + c)) + d
    ensures c + [] == c
  {
  }

  lemma CreatedIsOwn(s: Net, d: nat, y: nat)
    requires Inv(s) && d in s.relay.devices && y in s.relay.devices[d].created
    ensures y in s.relay.contexts && s.relay.contexts[y].deviceId == d
  {
    DeviceFacts(s, d);
    hide Inv, RespIn, CreateIn;
  }

  /** The relay after it took the first message off the link from device `d`. */
  function WithoutHead(r: Relay, d: nat): Relay
    requires d in r.devices && r.devices[d].dataOut != []
  {
    r.(devices := r.devices[d := r.devices[d].(dataOut := r.devices[d].dataOut[1..])])
  }

  /** What is on the link from device `e` for `x`, before and after the first message of device `d` was taken. */
  lemma HeadBack(r: Relay, d: nat, e: nat, x: nat)
    requires d in r.devices && r.devices[d].dataOut != [] && e in r.devices
    requires r.devices[d].dataOut[0].id == x ==> e == d
    ensures var m := r.devices[d].dataOut[0];
      && e in WithoutHead(r, d).devices
      && Back(r.devices[e].dataOut, x) ==
           (if m.id == x then Sends(m) else []) + Back(WithoutHead(r, d).devices[e].dataOut, x)
  {
    assert [] + Back(r.devices[e].dataOut, x) == Back(r.devices[e].dataOut, x);
  }

  /** Data moves from the link of the device to the link between the servers. */
  lemma HeadMoves(r: Relay, q: seq<ToProxy>, out: seq<ToProxy>, d: nat, x: nat, id: nat, taken: Items, posted: Items)
    requires Returns(r, q, x, id, taken, posted) && d in r.devices && r.devices[d].dataOut != []
    requires var m := r.devices[d].dataOut[0];
      && m.id in r.contexts && r.contexts[m.id].deviceId == d
      && (x in r.contexts && x != m.id ==> r.contexts[x].proxySideId != r.contexts[m.id].proxySideId)
      && Held(out, id) == if r.contexts[m.id].proxySideId == id then Sends(m) else []
    ensures Returns(WithoutHead(r, d), q + out, x, id, taken, posted)
  {
    hide Held, Back, HasContext;
    var m := r.devices[d].dataOut[0];
    HeldMore(q, out, id);
    ContextHas(r.contexts, m.id);
    if x in r.contexts && r.contexts[x].proxySideId == id {
      var e := r.contexts[x].deviceId;
      HeadBack(r, d, e, x);
      GroupMiddle(Held(q, id), Held(out, id), Back(WithoutHead(r, d).devices[e].dataOut, x));
    } else {
      assert Held(q, id) + [] == Held(q, id);
    }
  }

  /** A message of a device is passed on. */
  lemma PassedKeepsReturns(s: Net, d: nat, x: nat, id: nat, taken: Items, posted: Items)
    requires Inv(s) && Returns(s.relay, s.toProxy, x, id, taken, posted)
    requires d in s.relay.devices && s.relay.devices[d].dataOut != []
    ensures var t := Step(s, RelayReceivesData(d)); Returns(t.relay, t.toProxy, x, id, taken, posted)
  {
    hide Inv, Returns, Step, OnDeviceData, SameReturns, HasContext, Held, Back;
    var m := s.relay.devices[d].dataOut[0];
    var w := WithoutHead(s.relay, d);
    HeadIsOwn(s, d);
    NonZero(s, m.id);
    OneEach(s, x, m.id);
    PassedOn(s, d);
    OutHeld(w, m, id);
    var f := OnDeviceData(w, m);
    HeadMoves(s.relay, s.toProxy, f.out, d, x, id, taken, posted);
    SameKeepsReturns(w, f.relay, s.toProxy + f.out, x, id, taken, posted);
  }

  lemma ContextHas(contexts: map<nat, Context>, y: nat)
    requires y in contexts
    ensures HasContext(contexts, contexts[y].proxySideId)
  {
  }

  lemma HeadIsOwn(s: Net, d: nat)
    requires Inv(s) && d in s.relay.devices && s.relay.devices[d].dataOut != []
    ensures var y := s.relay.devices[d].dataOut[0].id;
      y in s.relay.contexts && s.relay.contexts[y].deviceId == d
  {
    DeviceFacts(s, d);
    hide Inv, RespIn, CreateIn;
  }

  /** A client connection is relayed once. */
  lemma OneEach(s: Net, x: nat, y: nat)
    requires Inv(s)
    ensures x in s.relay.contexts && y in s.relay.contexts && x != y ==>
      s.relay.contexts[x].proxySideId != s.relay.contexts[y].proxySideId
  {
    hide StagesAgree, PostsInOrder, ConnsAgree, MessagesAgree, NoticesAgree, ContextsAgree, DevicesAgree, SentAgrees;
  }

  lemma PassedOn(s: Net, d: nat)
    requires d in s.relay.devices && s.relay.devices[d].dataOut != []
    ensures var w := WithoutHead(s.relay, d);
      var t := Step(s, RelayReceivesData(d));
      var f := OnDeviceData(w, s.relay.devices[d].dataOut[0]);
      t.relay == f.relay && t.toProxy == s.toProxy + f.out && SameReturns(w, f.relay)
  {
  }

  lemma NonZero(s: Net, x: nat)
    requires Inv(s) && x in s.relay.contexts
    ensures x != 0 && UnionSound(s.relay.contexts[x])
  {
    hide StagesAgree, PostsInOrder, ConnsAgree, MessagesAgree, NoticesAgree, CreatesAgree, DevicesAgree, SentAgrees;
    hide UnionSound;
  }

  lemma OutHeld(w: Relay, m: FromDevice, id: nat)
    requires m.id in w.contexts && m.id != 0
    ensures Held(OnDeviceData(w, m).out, id) ==
      if w.contexts[m.id].proxySideId == id then Sends(m) else []
  {
    var f := OnDeviceData(w, m);
    HeldOne(if f.out == [] then Destroy(0) else f.out[0], id);
  }

  // ---------------------------------------------------------------------------------------
  // Every step
  // ---------------------------------------------------------------------------------------

  /** A new context is fresh: nothing was posted for it, and nothing taken for its client. */
  lemma NewKeepsReturns(r: Relay, t: Relay, q: seq<ToProxy>, x: nat, id: nat, taken: Items, posted: Items)
    requires Returns(r, q, x, id, taken, posted) && r.nextId !in r.contexts && r.nextId in t.contexts
    requires t.contexts == r.contexts[r.nextId := t.contexts[r.nextId]]
    requires !HasContext(r.contexts, t.contexts[r.nextId].proxySideId)
    requires t.contexts[r.nextId].deviceId in t.devices
    requires forall d :: d in r.devices ==> d in t.devices && t.devices[d].dataOut == r.devices[d].dataOut
    requires Back(t.devices[t.contexts[r.nextId].deviceId].dataOut, r.nextId) == []
    ensures Returns(t, q, x, id, taken, posted)
  {
    hide Held, Back;
    if HasContext(r.contexts, id) {
      var y :| y in r.contexts && r.contexts[y].proxySideId == id;
      assert y in t.contexts && t.contexts[y].proxySideId == id;
    }
    if x == r.nextId && t.contexts[x].proxySideId == id {
      assert taken + (Held(q, id) + []) == taken + Held(q, id);
    }
  }

  /** A device has sent nothing about a connection that does not exist yet. */
  lemma {:induction false} NothingBack(q: seq<FromDevice>, x: nat)
    requires forall i :: 0 <= i < |q| ==> q[i].id != x
    ensures Back(q, x) == []
  {
    if q != [] { NothingBack(q[1..], x); }
  }

  lemma FreshIsSilent(s: Net, d: nat)
    requires Inv(s) && d in s.relay.devices
    ensures s.relay.nextId !in s.relay.contexts && Back(s.relay.devices[d].dataOut, s.relay.nextId) == []
  {
    var q := s.relay.devices[d].dataOut;
    NextIsNew(s);
    DeviceFacts(s, d);
    forall i | 0 <= i < |q| ensures q[i].id != s.relay.nextId { CreatedIsOwn(s, d, q[i].id); }
    NothingBack(q, s.relay.nextId);
  }

  lemma NextIsNew(s: Net)
    requires Inv(s)
    ensures s.relay.nextId !in s.relay.contexts
  {
    hide StagesAgree, PostsInOrder, ConnsAgree, MessagesAgree, NoticesAgree, CreatesAgree, DevicesAgree, SentAgrees;
  }

  lemma QueuedIsNew(s: Net)
    requires Inv(s) && s.toRelay != [] && s.toRelay[0].Create?
    ensures !HasContext(s.relay.contexts, s.toRelay[0].proxySideId)
  {
    hide StagesAgree, PostsInOrder, ConnsAgree, MessagesAgree, NoticesAgree, ContextsAgree, DevicesAgree, SentAgrees;
    hide HasContext, CreateQueued;
  }

  lemma CreateKeepsReturns(s: Net, garbage: nat, x: nat, id: nat, taken: Items, posted: Items)
    requires Inv(s) && Returns(s.relay, s.toProxy, x, id, taken, posted)
    requires s.linkUp && s.toRelay != [] && s.toRelay[0].Create?
    ensures var t := Step(s, RelayReceives(garbage)); Returns(t.relay, t.toProxy, x, id, taken, posted)
  {
    hide Inv, Returns, HasContext, Held, Back, WritePort;
    var m := s.toRelay[0];
    var e := OnCreate(s.relay, m, garbage);
    QueuedIsNew(s);
    HeldOne(Destroy(m.proxySideId), id);
    HeldOne(Notify(m.proxySideId, 0, Closed), id);
    if e.relay == s.relay {
      NoticeKeepsReturns(s.relay, s.toProxy, e.out, x, id, taken, posted);
    } else {
      FreshIsSilent(s, m.deviceId);
      NewKeepsReturns(s.relay, e.relay, s.toProxy, x, id, taken, posted);
      assert s.toProxy + [] == s.toProxy;
    }
  }

  lemma MessagesKeepReturns(s: Net, garbage: nat, x: nat, id: nat, taken: Items, posted: Items)
    requires Inv(s) && Returns(s.relay, s.toProxy, x, id, taken, posted)
    ensures var t := Step(s, RelayReceives(garbage)); Returns(t.relay, t.toProxy, x, id, taken, posted)
  {
    hide Inv, Returns;
    if s.linkUp && s.toRelay != [] {
      var m := s.toRelay[0];
      if m.Create? {
        CreateKeepsReturns(s, garbage, x, id, taken, posted);
      } else {
        DataSame(s.relay, m);
        hide OnPush, OnTransferred, SameReturns;
        SameKeepsReturns(s.relay, Step(s, RelayReceives(garbage)).relay, s.toProxy, x, id, taken, posted);
      }
    }
  }

  lemma DataSame(r: Relay, m: ToRelay)
    ensures m.Push? ==> SameReturns(r, OnPush(r, m))
    ensures m.Transferred? ==> SameReturns(r, OnTransferred(r, m))
  {
  }

  lemma DeviceSame(s: Net, d: nat, w: Device)
    requires d in s.relay.devices ==> w.dataOut == s.relay.devices[d].dataOut
    ensures SameReturns(s.relay, WithDevice(s, d, w).relay) && WithDevice(s, d, w).toProxy == s.toProxy
  {
  }

  lemma NothingSame(s: Net)
    ensures SameReturns(s.relay, s.relay)
  {
  }

  lemma DeviceListSame(s: Net, d: nat)
    ensures SameReturns(s.relay, Step(s, DeviceJoins(d)).relay) && Step(s, DeviceJoins(d)).toProxy == s.toProxy
    ensures SameReturns(s.relay, Step(s, DeviceDeleted(d)).relay) && Step(s, DeviceDeleted(d)).toProxy == s.toProxy
  {
    hide SameReturns, WithDevice;
    NothingSame(s);
    if d !in s.relay.devices {
      DeviceSame(s, d, NEW_DEVICE);
    } else {
      DeviceSame(s, d, s.relay.devices[d].(deleted := true));
    }
  }

  lemma CommandsSame(s: Net, d: nat)
    ensures SameReturns(s.relay, Step(s, DeviceReceives(d)).relay) && Step(s, DeviceReceives(d)).toProxy == s.toProxy
  {
    hide SameReturns, WithDevice;
    NothingSame(s);
    if d in s.relay.devices && s.relay.devices[d].ctrlIn != [] {
      DeviceSame(s, d, Taken(s.relay.devices[d]));
    }
  }

  lemma AnswersSame(s: Net, d: nat, answer: DnsResp)
    ensures SameReturns(s.relay, Step(s, DeviceResolves(d, answer)).relay)
    ensures Step(s, DeviceResolves(d, answer)).toProxy == s.toProxy
  {
    hide SameReturns, WithDevice;
    NothingSame(s);
    if d in s.relay.devices { DeviceSame(s, d, Answered(s.relay.devices[d], answer)); }
  }

  lemma PostedSame(r: Relay, d: nat, m: ToDeviceCtrl)
    requires d in r.devices
    ensures SameReturns(r, PostCtrl(r, d, m)) && SameReturns(r, r)
  {
  }

  lemma DnsSame(r: Relay, d: nat, m: DnsResp)
    requires d in r.devices
    ensures SameReturns(r, OnDnsResp(r, d, m))
  {
    hide SameReturns, PostCtrl, ReadPort;
    PostedSame(r, d, DnsQuery(0, ""));
    if m.id in r.contexts {
      var port := ReadPort(r.contexts[m.id].raw);
      if m.ipv6.Some? { PostedSame(r, d, CreateConnection(m.id, m.ipv6.value, port)); }
      if m.ipv4.Some? { PostedSame(r, d, CreateConnection(m.id, m.ipv4.value, port)); }
    }
  }

  lemma SameTwice(r: Relay, t: Relay, u: Relay)
    requires SameReturns(r, t) && SameReturns(t, u)
    ensures SameReturns(r, u)
  {
    assert forall x :: x in r.contexts <==> x in r.contexts.Keys;
    assert forall x :: x in t.contexts <==> x in t.contexts.Keys;
  }

  lemma ResolvedSame(s: Net, d: nat)
    ensures SameReturns(s.relay, Step(s, RelayReceivesCtrl(d)).relay)
    ensures Step(s, RelayReceivesCtrl(d)).toProxy == s.toProxy
  {
    hide SameReturns, OnDnsResp;
    NothingSame(s);
    if d in s.relay.devices && s.relay.devices[d].ctrlOut != [] {
      var v := s.relay.devices[d];
      var w := v.(ctrlOut := v.ctrlOut[1..]);
      DeviceSame(s, d, w);
      DnsSame(WithDevice(s, d, w).relay, d, v.ctrlOut[0]);
      SameTwice(s.relay, WithDevice(s, d, w).relay, Step(s, RelayReceivesCtrl(d)).relay);
    }
  }

  lemma LocalKeepsLink(s: Net, e: Event)
    requires !IsRemote(e) && !e.ProxyReceives?
    ensures Step(s, e).toProxy == s.toProxy && Step(s, e).relay == s.relay
  {
    hide OnInput, OnAuthResult, OnDeviceSelected, RelayNetwork.OnPeerClose;
  }

  lemma ProxyTakes(s: Net, size: nat)
    ensures var t := Step(s, ProxyReceives(size));
      t.relay == s.relay && t.toProxy == if s.crashed || s.toProxy == [] then s.toProxy else s.toProxy[1..]
  {
    hide OnNotify, OnPushBack, OnDestroy;
  }

  lemma QuietStep(s: Net, e: Event, x: nat, id: nat)
    ensures !e.DeviceReports? ==> PostedBack(s, e, x) == []
    ensures !e.ProxyReceives? ==> TakenBack(s, e, id) == []
  {
  }

  lemma SameStep(s: Net, t: Net, x: nat, id: nat, taken: Items, posted: Items)
    requires Returns(s.relay, s.toProxy, x, id, taken, posted)
    requires SameReturns(s.relay, t.relay) && t.toProxy == s.toProxy
    ensures Returns(t.relay, t.toProxy, x, id, taken, posted)
  {
    hide Returns, SameReturns;
    SameKeepsReturns(s.relay, t.relay, s.toProxy, x, id, taken, posted);
  }

  lemma StepKeepsReturns(s: Net, e: Event, x: nat, id: nat, taken: Items, posted: Items)
    requires Inv(s) && Returns(s.relay, s.toProxy, x, id, taken, posted)
    ensures var t := Step(s, e);
      Returns(t.relay, t.toProxy, x, id, taken + TakenBack(s, e, id), posted + PostedBack(s, e, x))
  {
    hide Inv, Returns, Step, SameReturns, TakenBack, PostedBack;
    QuietStep(s, e, x, id);
    assert taken + [] == taken && posted + [] == posted;
    match e
    case ProxyReceives(size) =>
      ProxyTakes(s, size);
      if !s.crashed && s.toProxy != [] {
        TakeKeepsReturns(s, size, x, id, taken, posted);
      } else {
        NothingTaken(s, size, id);
      }
    case RelayReceives(garbage) => MessagesKeepReturns(s, garbage, x, id, taken, posted);
    case DeviceReports(d, m) =>
      if d in s.relay.devices && m.id in s.relay.devices[d].created {
        ReportKeepsReturns(s, d, m, x, id, taken, posted);
        ReportKeepsLink(s, d, m);
      } else {
        NothingReported(s, d, m, x);
      }
    case RelayReceivesData(d) =>
      if d in s.relay.devices && s.relay.devices[d].dataOut != [] {
        PassedKeepsReturns(s, d, x, id, taken, posted);
      } else {
        NothingPassed(s, d);
      }
    case DeviceJoins(d) =>
      DeviceListSame(s, d);
      SameStep(s, Step(s, e), x, id, taken, posted);
    case DeviceDeleted(d) =>
      DeviceListSame(s, d);
      SameStep(s, Step(s, e), x, id, taken, posted);
    case DeviceReceives(d) =>
      CommandsSame(s, d);
      SameStep(s, Step(s, e), x, id, taken, posted);
    case DeviceResolves(d, answer) =>
      AnswersSame(s, d, answer);
      SameStep(s, Step(s, e), x, id, taken, posted);
    case RelayReceivesCtrl(d) =>
      ResolvedSame(s, d);
      SameStep(s, Step(s, e), x, id, taken, posted);
    case _ => LocalKeepsLink(s, e);
  }

  lemma NothingTaken(s: Net, size: nat, id: nat)
    requires s.crashed || s.toProxy == []
    ensures TakenBack(s, ProxyReceives(size), id) == []
  {
  }

  lemma NothingReported(s: Net, d: nat, m: FromDevice, x: nat)
    requires d !in s.relay.devices || m.id !in s.relay.devices[d].created
    ensures Step(s, DeviceReports(d, m)) == s && PostedBack(s, DeviceReports(d, m), x) == []
  {
  }

  lemma NothingPassed(s: Net, d: nat)
    requires d !in s.relay.devices || s.relay.devices[d].dataOut == []
    ensures Step(s, RelayReceivesData(d)) == s
  {
  }

  lemma ReportKeepsLink(s: Net, d: nat, m: FromDevice)
    ensures Step(s, DeviceReports(d, m)).toProxy == s.toProxy
  {
  }

  // ---------------------------------------------------------------------------------------
  // What the client gets
  // ---------------------------------------------------------------------------------------

  /** A client has got all that was taken for it, up to the moment when its connection vanished. */
  ghost predicate GotAll(s: Net, id: nat, given: Items, taken: Items) {
    given <= taken && (id in s.conns || id >= s.nextConn ==> given == taken)
  }

  /** A connection id is never used again. */
  lemma StepKeepsAway(s: Net, e: Event, id: nat)
    requires id !in s.conns && id < s.nextConn
    ensures id !in Step(s, e).conns && id < Step(s, e).nextConn
  {
    hide OnInput, OnAuthResult, OnDeviceSelected, OnNotify, OnPushBack, OnDestroy, RelayNetwork.OnPeerClose;
    if IsRemote(e) {
      RemoteKeepsConns(s, e);
      hide Step;
    }
  }

  /** Nothing is taken for a client connection that is still to come. */
  lemma NobodyTakes(s: Net, e: Event, x: nat, id: nat, taken: Items, posted: Items)
    requires Inv(s) && Returns(s.relay, s.toProxy, x, id, taken, posted) && id >= s.nextConn
    ensures TakenBack(s, e, id) == []
  {
    NobodyRelayed(s, id);
    hide Inv, HasContext, Back;
    assert Held(s.toProxy, id) == [];
  }

  lemma NobodyRelayed(s: Net, id: nat)
    requires Inv(s) && id >= s.nextConn
    ensures !HasContext(s.relay.contexts, id)
  {
    hide StagesAgree, PostsInOrder, ConnsAgree, MessagesAgree, NoticesAgree, CreatesAgree, DevicesAgree, SentAgrees;
  }

  lemma ConnsBelow(s: Net, id: nat)
    requires Inv(s) && id in s.conns
    ensures id < s.nextConn
  {
    hide StagesAgree, PostsInOrder, MessagesAgree, NoticesAgree, CreatesAgree, ContextsAgree, DevicesAgree, SentAgrees;
  }

  lemma StepKeepsGot(s: Net, e: Event, x: nat, id: nat, given: Items, taken: Items, posted: Items)
    requires Inv(s) && Returns(s.relay, s.toProxy, x, id, taken, posted) && GotAll(s, id, given, taken)
    ensures GotAll(Step(s, e), id, given + GivenBack(s, e, id), taken + TakenBack(s, e, id))
  {
    hide Inv, Returns, Step, TakenBack;
    assert given + [] == given && taken + [] == taken;
    if id in s.conns {
    } else if id < s.nextConn {
      StepKeepsAway(s, e, id);
    } else {
      NobodyTakes(s, e, x, id, taken, posted);
    }
  }

  lemma {:induction false} RunKeepsReturns(s: Net, events: seq<Event>, x: nat, id: nat,
                                          given: Items, taken: Items, posted: Items)
    requires Inv(s) && Returns(s.relay, s.toProxy, x, id, taken, posted) && GotAll(s, id, given, taken)
    ensures var t := Run(s, events);
      && Returns(t.relay, t.toProxy, x, id, taken + AllTakenBack(s, events, id), posted + AllPostedBack(s, events, x))
      && GotAll(t, id, given + AllGivenBack(s, events, id), taken + AllTakenBack(s, events, id))
    decreases |events|
  {
    hide Inv, Returns, Step, GotAll, TakenBack, PostedBack, GivenBack;
    if events == [] {
      assert given + [] == given && taken + [] == taken && posted + [] == posted;
    } else {
      var e, t := events[0], Step(s, events[0]);
      StepKeepsReturns(s, e, x, id, taken, posted);
      StepKeepsGot(s, e, x, id, given, taken, posted);
      StepKeepsInv(s, e);
      RunKeepsReturns(t, events[1..], x, id, given + GivenBack(s, e, id), taken + TakenBack(s, e, id),
                      posted + PostedBack(s, e, x));
      GroupMiddle(given, GivenBack(s, e, id), AllGivenBack(t, events[1..], id));
      GroupMiddle(taken, TakenBack(s, e, id), AllTakenBack(t, events[1..], id));
      GroupMiddle(posted, PostedBack(s, e, x), AllPostedBack(t, events[1..], x));
    }
  }

  lemma StartReturns(capacity: nat, x: nat, id: nat)
    ensures var s := Start(capacity); Returns(s.relay, s.toProxy, x, id, [], []) && GotAll(s, id, [], [])
  {
  }

  /** For every relayed connection and every interleaving: what its client got, data and notices, is the
      beginning of what the device posted and reported for it over the run; and as long as the client's
      connection is there, what is missing is exactly what is on the links between device, relay and access
      server. */
  lemma ReturnedInOrder(capacity: nat, events: seq<Event>, x: nat)
    requires x in Run(Start(capacity), events).relay.contexts
    ensures var s := Run(Start(capacity), events);
      var c := s.relay.contexts[x];
      var got := AllGivenBack(Start(capacity), events, c.proxySideId);
      var posted := AllPostedBack(Start(capacity), events, x);
      && c.deviceId in s.relay.devices
      && got <= posted
      && (c.proxySideId in s.conns ==>
            got + (Held(s.toProxy, c.proxySideId) + Back(s.relay.devices[c.deviceId].dataOut, x)) == posted)
  {
    hide Inv, Run, Start, AllGivenBack, AllPostedBack, AllTakenBack, Held, Back;
    var s0 := Start(capacity);
    var s := Run(s0, events);
    var id := s.relay.contexts[x].proxySideId;
    StartInv(capacity);
    StartReturns(capacity, x, id);
    RunKeepsReturns(s0, events, x, id, [], [], []);
    var got, taken, posted := AllGivenBack(s0, events, id), AllTakenBack(s0, events, id), AllPostedBack(s0, events, x);
    assert [] + got == got && [] + taken == taken && [] + posted == posted;
    hide HasContext;
  }
}
