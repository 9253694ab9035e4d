/** The totals that reach a device: each counts exactly the bytes that reached it before. */
module RelayReports {
  import opened Lists
  import opened RelayNetwork
  import opened RelayRuns
  import opened RelaySteps
  import opened RelayInvariant
  import opened RelayReturns
  import opened RelayUploads
  import opened RelayTotals

  // ---------------------------------------------------------------------------------------
  // Totals on the two links
  // ---------------------------------------------------------------------------------------

  /** A total for relayed connection `x` that was passed on to its device. */
  predicate IsTotal(q: seq<ToDeviceData>, i: int, x: nat) {
    0 <= i < |q| && q[i].TransferState? && q[i].id == x
  }

  /** A total for relayed connection `x` on its way to the relay. */
  predicate IsReport(p: seq<ToRelay>, j: int, x: nat) {
    0 <= j < |p| && p[j].Transferred? && p[j].relaySideId == x
  }

  /** What a device hears as uploaded is what it was given before. */
  ghost predicate Fits(q: seq<ToDeviceData>, x: nat) {
    forall i :: IsTotal(q, i, x) ==> q[i].written == |Delivered(q[..i], x)|
  }

  /** What is on its way will fit when it arrives. */
  ghost predicate Coming(q: seq<ToDeviceData>, p: seq<ToRelay>, x: nat) {
    forall j :: IsReport(p, j, x) ==> p[j].uploaded == |Delivered(q, x)| + |Pending(p[..j], x)|
  }

  /** What a device hears as read never gets less, and is at most `most`. */
  ghost predicate Grow(q: seq<ToDeviceData>, p: seq<ToRelay>, x: nat, most: nat) {
    && (forall i, j :: IsTotal(q, i, x) && IsTotal(q, j, x) && i < j ==> q[i].read <= q[j].read)
    && (forall i, j :: IsTotal(q, i, x) && IsReport(p, j, x) ==> q[i].read <= p[j].dumped)
    && (forall i, j :: IsReport(p, i, x) && IsReport(p, j, x) && i < j ==> p[i].dumped <= p[j].dumped)
    && (forall i :: IsTotal(q, i, x) ==> q[i].read <= most)
    && (forall j :: IsReport(p, j, x) ==> p[j].dumped <= most)
  }

  lemma PopReport(p: seq<ToRelay>, j: int, x: nat)
    requires p != []
    ensures IsReport(p[1..], j, x) <==> j >= 0 && IsReport(p, j + 1, x)
    ensures IsReport(p[1..], j, x) ==> p[1..][j] == p[j + 1]
  {
  }

  lemma PopPending(p: seq<ToRelay>, j: nat, x: nat)
    requires p != [] && j < |p|
    ensures |Pending(p[..j + 1], x)| ==
      (if p[0].Push? && p[0].relaySideId == x then |p[0].payload| else 0) + |Pending(p[1..][..j], x)|
  {
    assert p[..j + 1][1..] == p[1..][..j] && p[..j + 1][0] == p[0];
  }

  lemma PopOther(q: seq<ToDeviceData>, p: seq<ToRelay>, x: nat)
    requires p != [] && !(p[0].Push? && p[0].relaySideId == x) && Coming(q, p, x)
    ensures Coming(q, p[1..], x)
  {
    hide Delivered, Pending;
    forall j | IsReport(p[1..], j, x)
      ensures p[1..][j].uploaded == |Delivered(q, x)| + |Pending(p[1..][..j], x)|
    {
      PopReport(p, j, x);
      InRange(p[1..], j, x);
      PopPending(p, j, x);
    }
  }

  lemma InRange(p: seq<ToRelay>, j: int, x: nat)
    requires IsReport(p, j, x)
    ensures 0 <= j < |p| && p[j].Transferred?
  {
  }

  lemma PopGrow(q: seq<ToDeviceData>, p: seq<ToRelay>, x: nat, most: nat)
    requires p != [] && Grow(q, p, x, most)
    ensures Grow(q, p[1..], x, most)
  {
    forall j ensures IsReport(p[1..], j, x) ==> IsReport(p, j + 1, x) && p[1..][j] == p[j + 1] { PopReport(p, j, x); }
  }

  lemma MoreTotal(q: seq<ToDeviceData>, m: ToDeviceData, i: int, x: nat)
    ensures IsTotal(q + [m], i, x) <==> IsTotal(q, i, x) || (i == |q| && m.TransferState? && m.id == x)
    ensures IsTotal(q, i, x) ==> (q + [m])[i] == q[i]
  {
  }

  /** A payload reaches the device. */
  lemma PayloadComes(q: seq<ToDeviceData>, p: seq<ToRelay>, m: ToDeviceData, x: nat)
    requires p != [] && p[0].Push? && m.PostData? && m.id == p[0].relaySideId && m.payload == p[0].payload
    requires Coming(q, p, x)
    ensures Coming(q + [m], p[1..], x)
  {
    DeliveredStep(q, m, x);
    hide Delivered, Pending;
    forall j | IsReport(p[1..], j, x)
      ensures p[1..][j].uploaded == |Delivered(q + [m], x)| + |Pending(p[1..][..j], x)|
    {
      PopReport(p, j, x);
      InRange(p[1..], j, x);
      PopPending(p, j, x);
    }
  }

  /** A total reaches the device. */
  lemma TotalComes(q: seq<ToDeviceData>, p: seq<ToRelay>, m: ToDeviceData, x: nat)
    requires p != [] && p[0].Transferred? && m.TransferState? && m.id == p[0].relaySideId
    requires Coming(q, p, x)
    ensures Coming(q + [m], p[1..], x)
    ensures m.id == x ==> p[0].uploaded == |Delivered(q, x)|
  {
    DeliveredStep(q, m, x);
    PopOther(q, p, x);
    if m.id == x {
      assert IsReport(p, 0, x);
      assert p[..0] == [];
    }
    assert Delivered(q, x) + [] == Delivered(q, x);
    hide Delivered, Pending, IsReport;
  }

  lemma FitsMore(q: seq<ToDeviceData>, m: ToDeviceData, x: nat)
    requires Fits(q, x) && (m.TransferState? && m.id == x ==> m.written == |Delivered(q, x)|)
    ensures Fits(q + [m], x)
  {
    hide Delivered;
    var r := q + [m];
    forall i | IsTotal(r, i, x) ensures r[i].written == |Delivered(r[..i], x)| {
      MoreTotal(q, m, i, x);
      TotalInRange(r, i, x);
      if IsTotal(q, i, x) {
        TotalInRange(q, i, x);
        assert r[..i] == q[..i];
      } else {
        assert r[..i] == q;
      }
    }
  }

  lemma TotalInRange(q: seq<ToDeviceData>, i: int, x: nat)
    requires IsTotal(q, i, x)
    ensures 0 <= i < |q| && q[i].TransferState? && q[i].id == x
  {
  }

  /** The first report on the link becomes the last total of the device. */
  lemma GrowMore(q: seq<ToDeviceData>, p: seq<ToRelay>, m: ToDeviceData, x: nat, most: nat)
    requires p != [] && Grow(q, p, x, most)
    requires m.TransferState? ==> p[0].Transferred? && p[0].relaySideId == m.id && p[0].dumped == m.read
    ensures Grow(q + [m], p[1..], x, most)
  {
    PopGrow(q, p, x, most);
    forall i ensures IsTotal(q + [m], i, x) <==> IsTotal(q, i, x) || (i == |q| && m.TransferState? && m.id == x) {
      MoreTotal(q, m, i, x);
    }
    forall i ensures IsTotal(q, i, x) ==> (q + [m])[i] == q[i] { MoreTotal(q, m, i, x); }
    forall j ensures IsReport(p[1..], j, x) ==> IsReport(p, j + 1, x) && p[1..][j] == p[j + 1] { PopReport(p, j, x); }
    assert (q + [m])[|q|] == m;
    assert m.TransferState? && m.id == x ==> IsReport(p, 0, x);
  }

  // ---------------------------------------------------------------------------------------
  // The access server adds to the link
  // ---------------------------------------------------------------------------------------

  lemma MoreReport(p: seq<ToRelay>, out: seq<ToRelay>, j: int, x: nat)
    ensures IsReport(p + out, j, x) <==> IsReport(p, j, x) || IsReport(out, j - |p|, x)
    ensures IsReport(p, j, x) ==> (p + out)[j] == p[j]
    ensures IsReport(out, j - |p|, x) ==> (p + out)[j] == out[j - |p|]
  {
  }

  /** A report is new if it comes last and gives the totals `up` and `down`. */
  ghost predicate NewReport(out: seq<ToRelay>, x: nat, up: nat, down: nat) {
    forall k :: IsReport(out, k, x) ==> k == |out| - 1 && out[k].uploaded == up && out[k].dumped == down
  }

  lemma NewComes(q: seq<ToDeviceData>, p: seq<ToRelay>, out: seq<ToRelay>, x: nat, up: nat, down: nat)
    requires Coming(q, p, x) && NewReport(out, x, up, down)
    requires |Delivered(q, x)| + |Pending(p + out, x)| == up
    ensures Coming(q, p + out, x)
  {
    hide Delivered, Pending;
    var all := p + out;
    forall j | IsReport(all, j, x)
      ensures all[j].uploaded == |Delivered(q, x)| + |Pending(all[..j], x)|
    {
      MoreReport(p, out, j, x);
      InRange(all, j, x);
      if IsReport(p, j, x) {
        InRange(p, j, x);
        assert all[..j] == p[..j];
      } else {
        LastPending(all, x);
      }
    }
  }

  lemma LastPending(all: seq<ToRelay>, x: nat)
    requires all != [] && all[|all| - 1].Transferred?
    ensures Pending(all[..|all| - 1], x) == Pending(all, x)
  {
    var k := |all| - 1;
    assert all == all[..k] + [all[k]];
    PendingAppend(all[..k], [all[k]], x);
    assert [all[k]][1..] == [] && Pending([all[k]], x) == [];
    assert Pending(all[..k], x) + [] == Pending(all[..k], x);
  }

  lemma NewGrows(q: seq<ToDeviceData>, p: seq<ToRelay>, out: seq<ToRelay>, x: nat, most: nat, up: nat, down: nat)
    requires Grow(q, p, x, most) && NewReport(out, x, up, down) && most <= down
    ensures Grow(q, p + out, x, down)
  {
    forall j ensures IsReport(p + out, j, x) <==> IsReport(p, j, x) || IsReport(out, j - |p|, x) {
      MoreReport(p, out, j, x);
    }
    forall j ensures IsReport(p, j, x) ==> (p + out)[j] == p[j] { MoreReport(p, out, j, x); }
    forall j ensures IsReport(out, j - |p|, x) ==> (p + out)[j] == out[j - |p|] { MoreReport(p, out, j, x); }
  }

  // ---------------------------------------------------------------------------------------
  // Every step
  // ---------------------------------------------------------------------------------------

  /** The totals of relayed connection `x` of client connection `id`. */
  ghost predicate Heard(r: Relay, p: seq<ToRelay>, linkUp: bool, x: nat, id: nat, most: nat) {
    x in r.contexts && r.contexts[x].proxySideId == id ==>
      && r.contexts[x].deviceId in r.devices
      && var q := r.devices[r.contexts[x].deviceId].dataIn;
         Fits(q, x) && Grow(q, p, x, most) && (linkUp && HasDevice(r, r.contexts[x].deviceId) ==> Coming(q, p, x))
  }

  /** Contexts and what the devices were given stay as they are. */
  ghost predicate SameHeard(r: Relay, t: Relay) {
    && t.contexts.Keys == r.contexts.Keys
    && (forall x :: x in r.contexts ==>
          t.contexts[x].proxySideId == r.contexts[x].proxySideId && t.contexts[x].deviceId == r.contexts[x].deviceId)
    && (forall d :: d in r.devices ==>
          d in t.devices && t.devices[d].dataIn == r.devices[d].dataIn
            && (r.devices[d].deleted ==> t.devices[d].deleted))
  }

  lemma SameKeepsHeard(r: Relay, t: Relay, p: seq<ToRelay>, linkUp: bool, x: nat, id: nat, most: nat)
    requires SameHeard(r, t) && Heard(r, p, linkUp, x, id, most)
    ensures Heard(t, p, linkUp, x, id, most)
  {
    hide Fits, Grow, Coming;
    assert x in r.contexts <==> x in r.contexts.Keys;
    assert x in t.contexts <==> x in t.contexts.Keys;
  }

  /** The access server has put `out` on the link. */
  lemma OutKeepsHeard(s: Net, out: seq<ToRelay>, x: nat, id: nat, most: nat, more: nat)
    requires Inv(s.(toRelay := s.toRelay + out)) || x !in s.relay.contexts
    requires Heard(s.relay, s.toRelay, s.linkUp, x, id, most) && most <= more
    requires x in s.relay.contexts && s.relay.contexts[x].proxySideId == id ==> NewReport(out, x, |SentOf(s, id)|, more)
    ensures Heard(s.relay, s.toRelay + out, s.linkUp, x, id, more)
  {
    if x in s.relay.contexts && s.relay.contexts[x].proxySideId == id {
      var t := s.(toRelay := s.toRelay + out);
      SentFacts(t, x);
      var d := s.relay.contexts[x].deviceId;
      var q := s.relay.devices[d].dataIn;
      hide Inv, Fits, Grow, Coming, NewReport, Delivered, Pending;
      NewGrows(q, s.toRelay, out, x, most, |SentOf(s, id)|, more);
      if s.linkUp && HasDevice(s.relay, d) {
        assert |Delivered(q, x) + Pending(t.toRelay, x)| == |SentOf(s, id)|;
        NewComes(q, s.toRelay, out, x, |SentOf(s, id)|, more);
      }
    }
  }

  /** What a handler puts on the link is new. */
  lemma ReportsAreNew(s: Net, i: nat, e: Effect, x: nat, id: nat, down: nat)
    requires i in s.conns && Inv(Apply(s, i, e)) && !e.crash && GoodEffect(i, s.conns[i], e) && ReportsLast(e)
    requires Counted(Apply(s, i, e), id, down)
    requires x in s.relay.contexts && s.relay.contexts[x].proxySideId == id
    ensures NewReport(e.out, x, |SentOf(Apply(s, i, e), id)|, down)
  {
    var t := Apply(s, i, e);
    KnownIsOwn(t, i, x);
    hide Inv, PostedBy, Pending;
  }

  lemma KnownIsOwn(t: Net, i: nat, x: nat)
    requires Inv(t) && i in t.conns
    ensures x in t.relay.contexts && t.conns[i].relaySideId == x ==> t.relay.contexts[x].proxySideId == i
  {
    hide StagesAgree, PostsInOrder, MessagesAgree, NoticesAgree, CreatesAgree, DevicesAgree, SentAgrees, UnionSound;
  }

  lemma ApplyKeepsHeard(s: Net, i: nat, e: Effect, x: nat, id: nat, most: nat, more: nat)
    requires i in s.conns && Inv(Apply(s, i, e)) && !e.crash && GoodEffect(i, s.conns[i], e) && ReportsLast(e)
    requires Counted(Apply(s, i, e), id, more) && most <= more
    requires Heard(s.relay, s.toRelay, s.linkUp, x, id, most)
    ensures var t := Apply(s, i, e); Heard(t.relay, t.toRelay, t.linkUp, x, id, more)
  {
    var t := Apply(s, i, e);
    if x in s.relay.contexts && s.relay.contexts[x].proxySideId == id { ReportsAreNew(s, i, e, x, id, more); }
    hide Inv, Heard, GoodEffect, ReportsLast, Counted, NewReport, PostedBy;
    OutKeepsHeard(t.(toRelay := s.toRelay), e.out, x, id, most, more);
  }

  lemma MoreKeepsHeard(r: Relay, p: seq<ToRelay>, linkUp: bool, x: nat, id: nat, most: nat, more: nat)
    requires Heard(r, p, linkUp, x, id, most) && most <= more
    ensures Heard(r, p, linkUp, x, id, more)
  {
    hide Fits, Coming, IsTotal, IsReport;
  }

  lemma OrdinaryIsGood(id: nat, conn: Conn, e: Effect)
    requires Ordinary(id, conn, e)
    ensures GoodEffect(id, conn, e) && !e.crash
  {
    hide GoodEffect, GoodEntries;
  }

  lemma ClientKeepsHeard(s: Net, i: nat, input: Input, x: nat, id: nat, most: nat)
    requires Accounted(s, id, most) && Accounted(Step(s, Client(i, input)), id, most)
    requires Heard(s.relay, s.toRelay, s.linkUp, x, id, most)
    ensures var t := Step(s, Client(i, input)); Heard(t.relay, t.toRelay, t.linkUp, x, id, most)
  {
    hide Inv, Heard, OnInput, Counts, Counted, GoodEffect, GoodEntries, ReportsLast, BacksRelayed, KnowsRelay;
    if !s.crashed && i in s.conns {
      var e := OnInput(i, s.conns[i], input);
      KnownOne(s.conns, i);
      InputCounts(i, s.conns[i], input);
      OnInputGood(i, s.conns[i], input);
      OrdinaryIsGood(i, s.conns[i], e);
      hide Ordinary;
      CountsLast(s.conns[i], e, if IsReady(s.conns[i].phase) && input.Data? then |input.bytes| else 0, 0);
      ApplyKeepsHeard(s, i, e, x, id, most, most);
    }
  }

  lemma CountsLast(conn: Conn, e: Effect, up: nat, down: nat)
    requires Counts(conn, e, up, down)
    ensures ReportsLast(e)
  {
  }

  lemma ServicesKeepHeard(s: Net, e: Event, x: nat, id: nat, most: nat)
    requires e.Auth? || e.Select? || e.PeerClose?
    requires Accounted(s, id, most) && Accounted(Step(s, e), id, most)
    requires Heard(s.relay, s.toRelay, s.linkUp, x, id, most)
    ensures var t := Step(s, e); Heard(t.relay, t.toRelay, t.linkUp, x, id, most)
  {
    hide Inv, Heard, OnAuthResult, OnDeviceSelected, RelayNetwork.OnPeerClose, OnDestroy;
    hide Counts, Counted, GoodEffect, GoodEntries, ReportsLast, BacksRelayed, RelayKnown, Ordinary;
    if !s.crashed && e.id in s.conns {
      var i, conn := e.id, s.conns[e.id];
      var accepted := e.Auth? && e.accepted;
      var relayId, deviceId := if e.Select? then e.relayId else 0, if e.Select? then e.deviceId else 0;
      ServicesCountNothing(i, conn, accepted, relayId, deviceId);
      SelectionCountsNothing(i, conn, relayId, deviceId);
      OnAuthResultGood(i, conn, accepted);
      OnDeviceSelectedGood(i, conn, relayId, deviceId);
      OnDestroyGood(i, conn);
      var f := if e.Auth? then OnAuthResult(i, conn, accepted)
               else if e.Select? then OnDeviceSelected(i, conn, relayId, deviceId) else RelayNetwork.OnPeerClose(conn);
      OrdinaryIsGood(i, conn, f);
      CountsLast(conn, f, 0, 0);
      ApplyKeepsHeard(s, i, f, x, id, most, most);
    }
  }

  lemma NoticeIsGood(id: nat, conn: Conn, r: nat, state: ConnectionState)
    requires !OnNotify(id, conn, r, state).crash
    ensures GoodEffect(id, conn, OnNotify(id, conn, r, state))
  {
    OnNotifyGood(id, conn, r, state);
    hide OnNotify, GoodEffect, GoodEntries;
  }

  lemma ProxyKeepsHeard(s: Net, size: nat, x: nat, id: nat, most: nat)
    requires var more := most + Dumped(s, ProxyReceives(size), id);
      Accounted(s, id, most) && Accounted(Step(s, ProxyReceives(size)), id, more)
    requires Heard(s.relay, s.toRelay, s.linkUp, x, id, most)
    ensures var t := Step(s, ProxyReceives(size));
      Heard(t.relay, t.toRelay, t.linkUp, x, id, most + Dumped(s, ProxyReceives(size), id))
  {
    hide Inv, Heard, OnNotify, OnPushBack, OnDestroy, Counts, Counted, GoodEffect, GoodEntries, ReportsLast, Dumped;
    hide BacksRelayed, RelayKnown, Ordinary, RelayNetwork.OnPeerClose, KnowsRelay;
    var more := most + Dumped(s, ProxyReceives(size), id);
    MoreKeepsHeard(s.relay, s.toRelay, s.linkUp, x, id, most, more);
    if !s.crashed && s.toProxy != [] && s.toProxy[0].proxySideId in s.conns {
      var m := s.toProxy[0];
      var t := s.(toProxy := s.toProxy[1..]);
      var i, conn := m.proxySideId, s.conns[m.proxySideId];
      KnownOne(s.conns, i);
      match m {
        case Destroy(_) =>
          OnDestroyGood(i, conn);
          OrdinaryIsGood(i, conn, OnDestroy(conn));
          ServicesCountNothing(i, conn, true, 0, 0);
          CountsLast(conn, OnDestroy(conn), 0, 0);
          ApplyKeepsHeard(t, i, OnDestroy(conn), x, id, most, more);
        case Notify(_, r, state) =>
          var e := OnNotify(i, conn, r, state);
          OnNotifyGood(i, conn, r, state);
          NoticeCounts(i, conn, r, state);
          CountsLast(conn, e, |HeaderFor(conn, state)|, 0);
          if !e.crash {
            NoticeIsGood(i, conn, r, state);
            ApplyKeepsHeard(t, i, e, x, id, most, more);
          }
        case PushBack(_, _) =>
          HeadKnowsRelay(s);
          OnPushBackGood(i, conn, size);
          OrdinaryIsGood(i, conn, OnPushBack(i, conn, size));
          PushBackCounts(i, conn, size);
          CountsLast(conn, OnPushBack(i, conn, size), 0, size);
          ApplyKeepsHeard(t, i, OnPushBack(i, conn, size), x, id, most, more);
      }
    }
  }

  // ---------------------------------------------------------------------------------------
  // The relay takes from the link
  // ---------------------------------------------------------------------------------------

  /** The first message is passed on to device `d`. */
  lemma PostKeepsHeard(r: Relay, p: seq<ToRelay>, d: nat, m: ToDeviceData, x: nat, id: nat, most: nat)
    requires Heard(r, p, true, x, id, most) && p != [] && HasDevice(r, d)
    requires m.id in r.contexts && r.contexts[m.id].deviceId == d
    requires || (p[0].Push? && m.PostData? && m.id == p[0].relaySideId && m.payload == p[0].payload)
             || (p[0].Transferred? && m.TransferState? && m.id == p[0].relaySideId && m.read == p[0].dumped
                 && m.written == p[0].uploaded)
    ensures Heard(PostDataLink(r, d, m), p[1..], true, x, id, most)
  {
    if x in r.contexts && r.contexts[x].proxySideId == id {
      var e := r.contexts[x].deviceId;
      var q := r.devices[e].dataIn;
      hide Fits, Grow, Coming;
      if e != d {
        PopGrow(q, p, x, most);
        if HasDevice(r, e) { PopOther(q, p, x); }
      } else {
        GrowMore(q, p, m, x, most);
        if p[0].Push? { PayloadComes(q, p, m, x); } else { TotalComes(q, p, m, x); }
        FitsMore(q, m, x);
      }
    }
  }

  /** The first message is lost. */
  lemma LossKeepsHeard(r: Relay, p: seq<ToRelay>, x: nat, id: nat, most: nat)
    requires Heard(r, p, true, x, id, most) && p != []
    requires p[0].Push? && p[0].relaySideId in r.contexts ==> !HasDevice(r, r.contexts[p[0].relaySideId].deviceId)
    ensures Heard(r, p[1..], true, x, id, most)
  {
    if x in r.contexts && r.contexts[x].proxySideId == id {
      var e := r.contexts[x].deviceId;
      var q := r.devices[e].dataIn;
      hide Fits, Grow, Coming;
      PopGrow(q, p, x, most);
      if HasDevice(r, e) { PopOther(q, p, x); }
    }
  }

  lemma DataKeepsHeard(s: Net, garbage: nat, x: nat, id: nat, most: nat)
    requires Inv(s) && Heard(s.relay, s.toRelay, s.linkUp, x, id, most)
    requires s.linkUp && s.toRelay != [] && !s.toRelay[0].Create?
    ensures var t := Step(s, RelayReceives(garbage)); Heard(t.relay, t.toRelay, t.linkUp, x, id, most)
  {
    hide Inv, Heard, PostDataLink, Step;
    var m := s.toRelay[0];
    if m.Push? { PushIsOwn(s); }
    DataIsStep(s, garbage);
    if m.relaySideId in s.relay.contexts && HasDevice(s.relay, s.relay.contexts[m.relaySideId].deviceId) {
      var c := s.relay.contexts[m.relaySideId];
      var told := if m.Push? then PostData(c.raw, m.relaySideId, m.payload)
                  else TransferState(c.raw, m.relaySideId, m.dumped, m.uploaded);
      PostKeepsHeard(s.relay, s.toRelay, c.deviceId, told, x, id, most);
    } else {
      LossKeepsHeard(s.relay, s.toRelay, x, id, most);
    }
  }

  lemma PushIsOwn(s: Net)
    requires Inv(s) && s.toRelay != [] && s.toRelay[0].Push?
    ensures Belongs(s.relay.contexts, s.toRelay[0].relaySideId, s.toRelay[0].proxySideId)
  {
    HeadFacts(s);
    hide Inv, MessagesAgree, CreatesAgree, Belongs;
  }

  /** Nothing is heard of a connection that does not exist yet. */
  lemma NewIsUnheard(s: Net, d: nat)
    requires Inv(s) && d in s.relay.devices
    ensures forall j ::
      !IsReport(s.toRelay, j, s.relay.nextId) && !IsTotal(s.relay.devices[d].dataIn, j, s.relay.nextId)
  {
    NextIsNew(s);
    DeviceFacts(s, d);
    FreshIsUnheard(d, s.relay.devices[d], s.relay.contexts, s.relay.nextId);
    MessageIds(s);
    hide Inv, DeviceAgrees;
  }

  lemma MessageIds(s: Net)
    requires Inv(s)
    ensures 0 < s.relay.nextId
    ensures forall j :: 0 <= j < |s.toRelay| && s.toRelay[j].Transferred? ==>
      s.toRelay[j].relaySideId == 0 || s.toRelay[j].relaySideId in s.relay.contexts
  {
    hide StagesAgree, PostsInOrder, ConnsAgree, NoticesAgree, CreatesAgree, DevicesAgree, SentAgrees;
  }

  lemma NothingHeard(q: seq<ToDeviceData>, p: seq<ToRelay>, x: nat, most: nat)
    requires forall j :: !IsReport(p, j, x) && !IsTotal(q, j, x)
    ensures Fits(q, x) && Grow(q, p, x, most) && Coming(q, p, x)
  {
    hide IsReport, IsTotal;
  }

  lemma AddedKeepsHeard(r: Relay, p: seq<ToRelay>, d: nat, c: Context, told: seq<ToDeviceCtrl>,
                        x: nat, id: nat, most: nat)
    requires Heard(r, p, true, x, id, most) && d in r.devices && r.nextId !in r.contexts && c.deviceId == d
    requires forall j :: !IsReport(p, j, r.nextId) && !IsTotal(r.devices[d].dataIn, j, r.nextId)
    ensures Heard(Added(r, d, c.proxySideId, c, told), p, true, x, id, most)
  {
    hide Fits, Grow, Coming, IsReport, IsTotal;
    if x == r.nextId { NothingHeard(r.devices[d].dataIn, p, x, most); }
  }

  lemma CreateKeepsHeard(s: Net, garbage: nat, x: nat, id: nat, most: nat)
    requires Inv(s) && Heard(s.relay, s.toRelay, s.linkUp, x, id, most)
    requires s.linkUp && s.toRelay != [] && s.toRelay[0].Create?
    ensures var t := Step(s, RelayReceives(garbage)); Heard(t.relay, t.toRelay, t.linkUp, x, id, most)
  {
    hide Inv, Heard, WritePort, Added, IsReport, IsTotal;
    var m := s.toRelay[0];
    LossKeepsHeard(s.relay, s.toRelay, x, id, most);
    if HasDevice(s.relay, m.deviceId) && |s.relay.contexts| < s.relay.capacity {
      var port, n := m.target.port % PORT_RANGE, s.relay.nextId;
      var c := Context(WritePort(garbage, port), port, None, m.proxySideId, m.deviceId);
      var told := if m.target.address.Some? then [CreateConnection(n, m.target.address.value, port)]
                  else if m.target.hostname != "" then [DnsQuery(n, m.target.hostname)] else [];
      CreateIsAdded(s, m, garbage, c, told);
      NewIsUnheard(s, m.deviceId);
      NextIsNew(s);
      TailUnheard(s.toRelay, n);
      AddedKeepsHeard(s.relay, s.toRelay[1..], m.deviceId, c, told, x, id, most);
      DownKeepsHeard(Added(s.relay, m.deviceId, m.proxySideId, c, told), s.toRelay[1..], x, id, most);
    }
  }

  lemma TailUnheard(p: seq<ToRelay>, x: nat)
    requires p != [] && forall j :: !IsReport(p, j, x)
    ensures forall j :: !IsReport(p[1..], j, x)
  {
    forall j ensures !IsReport(p[1..], j, x) { PopReport(p, j, x); }
  }

  lemma DownKeepsHeard(r: Relay, p: seq<ToRelay>, x: nat, id: nat, most: nat)
    requires Heard(r, p, true, x, id, most)
    ensures Heard(r, p, false, x, id, most)
  {
    hide Fits, Grow, Coming;
  }

  lemma MessagesKeepHeard(s: Net, garbage: nat, x: nat, id: nat, most: nat)
    requires Inv(s) && Heard(s.relay, s.toRelay, s.linkUp, x, id, most)
    ensures var t := Step(s, RelayReceives(garbage)); Heard(t.relay, t.toRelay, t.linkUp, x, id, most)
  {
    hide Inv, Heard, OnCreate, OnPush, OnTransferred;
    if s.linkUp && s.toRelay != [] {
      if s.toRelay[0].Create? {
        CreateKeepsHeard(s, garbage, x, id, most);
      } else {
        DataKeepsHeard(s, garbage, x, id, most);
      }
    }
  }

  // ---------------------------------------------------------------------------------------
  // Devices
  // ---------------------------------------------------------------------------------------

  lemma DeviceHeard(s: Net, d: nat, w: Device)
    requires d in s.relay.devices ==>
      w.dataIn == s.relay.devices[d].dataIn && (s.relay.devices[d].deleted ==> w.deleted)
    ensures SameHeard(s.relay, WithDevice(s, d, w).relay)
  {
  }

  /** Nothing else changes on the side of the access server. */
  ghost predicate SameSide(s: Net, t: Net) {
    t.toRelay == s.toRelay && t.linkUp == s.linkUp && SameHeard(s.relay, t.relay)
  }

  lemma NothingChanges(s: Net)
    ensures SameSide(s, s)
  {
  }

  lemma DeviceListHeard(s: Net, d: nat)
    ensures SameSide(s, Step(s, DeviceJoins(d))) && SameSide(s, Step(s, DeviceDeleted(d)))
  {
    hide SameHeard;
    NothingChanges(s);
    if d !in s.relay.devices { DeviceHeard(s, d, NEW_DEVICE); } else {
      DeviceHeard(s, d, s.relay.devices[d].(deleted := true));
    }
  }

  lemma CommandsHeard(s: Net, d: nat)
    ensures SameSide(s, Step(s, DeviceReceives(d)))
  {
    hide SameHeard;
    NothingChanges(s);
    if d in s.relay.devices && s.relay.devices[d].ctrlIn != [] { DeviceHeard(s, d, Taken(s.relay.devices[d])); }
  }

  lemma SpeechHeard(s: Net, d: nat, answer: DnsResp, m: FromDevice)
    ensures SameSide(s, Step(s, DeviceResolves(d, answer))) && SameSide(s, Step(s, DeviceReports(d, m)))
  {
    hide SameHeard;
    NothingChanges(s);
    if d in s.relay.devices {
      DeviceHeard(s, d, Answered(s.relay.devices[d], answer));
      DeviceHeard(s, d, s.relay.devices[d].(dataOut := s.relay.devices[d].dataOut + [m]));
    }
  }

  lemma SameHeardTwice(r: Relay, t: Relay, u: Relay)
    requires SameHeard(r, t) && SameHeard(t, u)
    ensures SameHeard(r, u)
  {
    assert forall x :: x in r.contexts <==> x in r.contexts.Keys;
    assert forall x :: x in t.contexts <==> x in t.contexts.Keys;
  }

  lemma PostedCtrlHeard(r: Relay, d: nat, m: ToDeviceCtrl)
    requires d in r.devices
    ensures SameHeard(r, PostCtrl(r, d, m)) && SameHeard(r, r)
  {
  }

  lemma DnsHeard(r: Relay, d: nat, m: DnsResp)
    requires d in r.devices
    ensures SameHeard(r, OnDnsResp(r, d, m))
  {
    hide SameHeard, PostCtrl, ReadPort;
    PostedCtrlHeard(r, d, DnsQuery(0, ""));
    if m.id in r.contexts {
      var port := ReadPort(r.contexts[m.id].raw);
      if m.ipv6.Some? { PostedCtrlHeard(r, d, CreateConnection(m.id, m.ipv6.value, port)); }
      if m.ipv4.Some? { PostedCtrlHeard(r, d, CreateConnection(m.id, m.ipv4.value, port)); }
    }
  }

  lemma DeviceDataHeard(r: Relay, m: FromDevice)
    ensures SameHeard(r, OnDeviceData(r, m).relay)
  {
  }

  lemma ResolvedHeard(s: Net, d: nat)
    ensures SameSide(s, Step(s, RelayReceivesCtrl(d)))
  {
    hide SameHeard, OnDnsResp;
    NothingChanges(s);
    if d in s.relay.devices && s.relay.devices[d].ctrlOut != [] {
      var v := s.relay.devices[d];
      var w := v.(ctrlOut := v.ctrlOut[1..]);
      DeviceHeard(s, d, w);
      DnsHeard(WithDevice(s, d, w).relay, d, v.ctrlOut[0]);
      SameHeardTwice(s.relay, WithDevice(s, d, w).relay, Step(s, RelayReceivesCtrl(d)).relay);
    }
  }

  lemma PassedHeard(s: Net, d: nat)
    ensures SameSide(s, Step(s, RelayReceivesData(d)))
  {
    hide SameHeard, OnDeviceData;
    NothingChanges(s);
    if d in s.relay.devices && s.relay.devices[d].dataOut != [] {
      var v := s.relay.devices[d];
      var w := v.(dataOut := v.dataOut[1..]);
      DeviceHeard(s, d, w);
      DeviceDataHeard(WithDevice(s, d, w).relay, v.dataOut[0]);
      SameHeardTwice(s.relay, WithDevice(s, d, w).relay, Step(s, RelayReceivesData(d)).relay);
    }
  }

  lemma SideKeepsHeard(s: Net, t: Net, x: nat, id: nat, most: nat)
    requires Heard(s.relay, s.toRelay, s.linkUp, x, id, most) && SameSide(s, t)
    ensures Heard(t.relay, t.toRelay, t.linkUp, x, id, most)
  {
    hide Heard, SameHeard;
    SameKeepsHeard(s.relay, t.relay, s.toRelay, s.linkUp, x, id, most);
  }

  lemma ConnsComeAndGo(s: Net, id: nat)
    ensures SameSide(s, Step(s, Connect)) && SameSide(s, Step(s, Cleanup(id)))
  {
  }

  // ---------------------------------------------------------------------------------------
  // Runs
  // ---------------------------------------------------------------------------------------

  lemma RemoteKeepsHeard(s: Net, e: Event, x: nat, id: nat, most: nat)
    requires Inv(s) && Heard(s.relay, s.toRelay, s.linkUp, x, id, most) && IsRemote(e)
    ensures var t := Step(s, e); Heard(t.relay, t.toRelay, t.linkUp, x, id, most)
  {
    hide Inv, Heard, Step, SameSide;
    match e
    case RelayReceives(garbage) => MessagesKeepHeard(s, garbage, x, id, most);
    case RelayReceivesCtrl(d) =>
      ResolvedHeard(s, d);
      SideKeepsHeard(s, Step(s, e), x, id, most);
    case RelayReceivesData(d) =>
      PassedHeard(s, d);
      SideKeepsHeard(s, Step(s, e), x, id, most);
    case DeviceJoins(d) =>
      DeviceListHeard(s, d);
      SideKeepsHeard(s, Step(s, e), x, id, most);
    case DeviceDeleted(d) =>
      DeviceListHeard(s, d);
      SideKeepsHeard(s, Step(s, e), x, id, most);
    case DeviceReceives(d) =>
      CommandsHeard(s, d);
      SideKeepsHeard(s, Step(s, e), x, id, most);
    case DeviceResolves(d, answer) =>
      SpeechHeard(s, d, answer, PostBack(0, []));
      SideKeepsHeard(s, Step(s, e), x, id, most);
    case DeviceReports(d, m) =>
      SpeechHeard(s, d, DnsResp(0, None, None), m);
      SideKeepsHeard(s, Step(s, e), x, id, most);
  }

  lemma AccountedHasInv(s: Net, id: nat, most: nat)
    requires Accounted(s, id, most)
    ensures Inv(s)
  {
    hide Inv;
  }

  lemma StepKeepsHeard(s: Net, e: Event, x: nat, id: nat, most: nat)
    requires Accounted(s, id, most) && Heard(s.relay, s.toRelay, s.linkUp, x, id, most)
    ensures var t := Step(s, e); Heard(t.relay, t.toRelay, t.linkUp, x, id, most + Dumped(s, e, id))
  {
    hide Accounted, Heard, Step, SameSide;
    StepKeepsAccounts(s, e, id, most);
    if IsRemote(e) {
      AccountedHasInv(s, id, most);
      RemoteKeepsHeard(s, e, x, id, most);
    } else {
      match e
      case Client(i, input) => ClientKeepsHeard(s, i, input, x, id, most);
      case ProxyReceives(size) => ProxyKeepsHeard(s, size, x, id, most);
      case Connect =>
        ConnsComeAndGo(s, 0);
        SideKeepsHeard(s, Step(s, e), x, id, most);
      case Cleanup(i) =>
        ConnsComeAndGo(s, i);
        SideKeepsHeard(s, Step(s, e), x, id, most);
      case _ => ServicesKeepHeard(s, e, x, id, most);
    }
  }

  lemma {:induction false} RunKeepsHeard(s: Net, events: seq<Event>, x: nat, id: nat, most: nat)
    requires Accounted(s, id, most) && Heard(s.relay, s.toRelay, s.linkUp, x, id, most)
    ensures var t := Run(s, events); Heard(t.relay, t.toRelay, t.linkUp, x, id, most + AllDumped(s, events, id))
    decreases |events|
  {
    hide Accounted, Heard, Step, Dumped;
    if events != [] {
      StepKeepsAccounts(s, events[0], id, most);
      StepKeepsHeard(s, events[0], x, id, most);
      RunKeepsHeard(Step(s, events[0]), events[1..], x, id, most + Dumped(s, events[0], id));
    }
  }

  /** In every run, whatever is on its way: a total of uploaded bytes that a device is told counts exactly the
      bytes that it was given before, and the totals of bytes that came back never get less and are never
      more than came back for the client. */
  lemma TotalsFit(capacity: nat, events: seq<Event>, x: nat)
    requires x in Run(Start(capacity), events).relay.contexts
    ensures var s := Run(Start(capacity), events);
      var c := s.relay.contexts[x];
      c.deviceId in s.relay.devices
      && var q := s.relay.devices[c.deviceId].dataIn;
        && (forall i :: IsTotal(q, i, x) ==> q[i].written == |Delivered(q[..i], x)|)
        && (forall i, j :: IsTotal(q, i, x) && IsTotal(q, j, x) && i < j ==> q[i].read <= q[j].read)
        && (forall i :: IsTotal(q, i, x) ==> q[i].read <= AllDumped(Start(capacity), events, c.proxySideId))
  {
    hide Run, Accounted, AllDumped;
    var s0 := Start(capacity);
    var id := Run(s0, events).relay.contexts[x].proxySideId;
    StartAccounted(capacity, id);
    RunKeepsHeard(s0, events, x, id, 0);
    hide Delivered, Coming;
  }
}
