/** The ids by which devices hear of their connections: always the latest that they gave. */
module RelayNames {
  import opened Lists
  import opened RelayNetwork
  import opened RelayRuns
  import opened RelaySteps
  import opened RelayInvariant
  import opened RelayReturns
  import opened RelayTheorems
  import opened RelayReports
  import opened RelayGrounds

  /** The id in an ESTABLISHED report on relayed connection `x` that the relay takes with event `e`. */
  function ReportedBy(s: Net, e: Event, x: nat): Option<nat> {
    if e.RelayReceivesData? && e.d in s.relay.devices && s.relay.devices[e.d].dataOut != [] then
      var m := s.relay.devices[e.d].dataOut[0];
      if m.State? && m.id == x && m.state.Established? then Some(m.deviceSideId) else None
    else None
  }

  /** The id in the last of these reports in a run, `last` if there is none. */
  function LastReported(s: Net, events: seq<Event>, x: nat, last: Option<nat>): Option<nat>
    decreases |events|
  {
    if events == [] then last else
      var h := ReportedBy(s, events[0], x);
      LastReported(Step(s, events[0]), events[1..], x, if h.Some? then h else last)
  }

  function Known(contexts: map<nat, Context>, x: nat): Option<nat> {
    if x in contexts then contexts[x].reported else None
  }

  lemma HandledKnown(r: Relay, m: ToRelay, garbage: nat, x: nat)
    requires r.nextId !in r.contexts
    ensures m.Create? ==> Known(OnCreate(r, m, garbage).relay.contexts, x) == Known(r.contexts, x)
    ensures m.Push? ==> OnPush(r, m).contexts == r.contexts
    ensures m.Transferred? ==> OnTransferred(r, m).contexts == r.contexts
  {
    hide WritePort;
  }

  lemma MessageKnown(s: Net, garbage: nat, x: nat)
    requires Inv(s)
    ensures Known(Step(s, RelayReceives(garbage)).relay.contexts, x) == Known(s.relay.contexts, x)
  {
    NextIsNew(s);
    hide Inv, OnCreate, OnPush, OnTransferred, Known;
    if s.toRelay != [] { HandledKnown(s.relay, s.toRelay[0], garbage, x); }
  }

  lemma DataKnown(r: Relay, m: FromDevice, x: nat)
    requires m.id in r.contexts
    ensures Known(OnDeviceData(r, m).relay.contexts, x) ==
      if m.State? && m.id == x && m.state.Established? then Some(m.deviceSideId) else Known(r.contexts, x)
  {
  }

  lemma PassedKnown(s: Net, d: nat, x: nat)
    requires Inv(s)
    ensures var h := ReportedBy(s, RelayReceivesData(d), x);
      Known(Step(s, RelayReceivesData(d)).relay.contexts, x) == if h.Some? then h else Known(s.relay.contexts, x)
  {
    hide Inv, OnDeviceData, Known, Step;
    if d in s.relay.devices && s.relay.devices[d].dataOut != [] {
      HeadIsOwn(s, d);
      PassingIsStep(s, d);
      var v := s.relay.devices[d];
      DataKnown(WithDevice(s, d, v.(dataOut := v.dataOut[1..])).relay, v.dataOut[0], x);
    } else {
      NothingPassed(s, d);
    }
  }

  lemma OthersReportNothing(s: Net, e: Event, x: nat)
    requires !e.RelayReceivesData?
    ensures ReportedBy(s, e, x) == None
  {
  }

  lemma StepKnown(s: Net, e: Event, x: nat)
    requires Inv(s)
    ensures var h := ReportedBy(s, e, x);
      Known(Step(s, e).relay.contexts, x) == if h.Some? then h else Known(s.relay.contexts, x)
  {
    hide Inv, Step, Known, ReportedBy;
    if !e.RelayReceivesData? { OthersReportNothing(s, e, x); }
    if !IsRemote(e) {
      LocalKeepsRelay(s, e);
    } else {
      match e
      case RelayReceives(garbage) => MessageKnown(s, garbage, x);
      case RelayReceivesData(d) => PassedKnown(s, d, x);
      case RelayReceivesCtrl(d) => AnswersKeepContexts(s, d);
      case DeviceResolves(d, answer) => DevicesKeepContexts(s, d, answer, PostBack(0, []));
      case DeviceReports(d, m) => DevicesKeepContexts(s, d, DnsResp(0, None, None), m);
      case DeviceJoins(d) => OrdersKeepContexts(s, d);
      case DeviceDeleted(d) => OrdersKeepContexts(s, d);
      case DeviceReceives(d) => OrdersKeepContexts(s, d);
    }
  }

  lemma {:induction false} RunKnown(s: Net, events: seq<Event>, x: nat)
    requires Inv(s)
    ensures Inv(Run(s, events))
    ensures Known(Run(s, events).relay.contexts, x) == LastReported(s, events, x, Known(s.relay.contexts, x))
    decreases |events|
  {
    hide Inv, Step, Known, ReportedBy;
    if events != [] {
      StepKnown(s, events[0], x);
      StepKeepsInv(s, events[0]);
      RunKnown(Step(s, events[0]), events[1..], x);
    }
  }

  // ---------------------------------------------------------------------------------------
  // What devices hear
  // ---------------------------------------------------------------------------------------

  /** `q` got at most one message more, which names its connection by the id that is known. */
  predicate HearsKnown(q: seq<ToDeviceData>, q': seq<ToDeviceData>, contexts: map<nat, Context>) {
    q' == q || (|q'| == |q| + 1 && q'[..|q|] == q && Known(contexts, q'[|q|].id) == Some(q'[|q|].deviceSideId))
  }

  lemma HandledHears(r: Relay, m: ToRelay, garbage: nat, d: nat)
    requires d in r.devices
    requires !m.Create? && m.relaySideId in r.contexts ==>
      Known(r.contexts, m.relaySideId) == Some(r.contexts[m.relaySideId].raw)
    ensures m.Create? ==>
      var t := OnCreate(r, m, garbage).relay;
      d in t.devices && t.devices[d].dataIn == r.devices[d].dataIn
    ensures m.Push? ==>
      d in OnPush(r, m).devices && HearsKnown(r.devices[d].dataIn, OnPush(r, m).devices[d].dataIn, r.contexts)
    ensures m.Transferred? ==>
      var t := OnTransferred(r, m);
      d in t.devices && HearsKnown(r.devices[d].dataIn, t.devices[d].dataIn, r.contexts)
  {
    hide WritePort, Known;
  }

  lemma ReadIsKnown(s: Net)
    requires Inv(s) && s.toRelay != [] && !s.toRelay[0].Create? && s.toRelay[0].relaySideId in s.relay.contexts
    ensures var x := s.toRelay[0].relaySideId; Known(s.relay.contexts, x) == Some(s.relay.contexts[x].raw)
  {
    HeadOwner(s);
    SoundContext(s, s.toRelay[0].relaySideId);
    hide Inv;
  }

  lemma MessageHears(s: Net, garbage: nat, d: nat)
    requires Inv(s) && d in s.relay.devices
    ensures var t := Step(s, RelayReceives(garbage)).relay;
      d in t.devices && HearsKnown(s.relay.devices[d].dataIn, t.devices[d].dataIn, s.relay.contexts)
  {
    hide Inv, OnCreate, OnPush, OnTransferred, Known;
    if s.toRelay != [] {
      if !s.toRelay[0].Create? && s.toRelay[0].relaySideId in s.relay.contexts { ReadIsKnown(s); }
      HandledHears(s.relay, s.toRelay[0], garbage, d);
    }
  }

  lemma SameHears(s: Net, t: Net, d: nat)
    requires SameHeard(s.relay, t.relay) && d in s.relay.devices
    ensures d in t.relay.devices
    ensures HearsKnown(s.relay.devices[d].dataIn, t.relay.devices[d].dataIn, s.relay.contexts)
  {
    hide Known;
  }

  lemma StepHears(s: Net, e: Event, d: nat)
    requires Inv(s) && d in s.relay.devices
    ensures var t := Step(s, e).relay;
      d in t.devices && HearsKnown(s.relay.devices[d].dataIn, t.devices[d].dataIn, s.relay.contexts)
  {
    hide Inv, Step, HearsKnown, SameHeard;
    NothingChanges(s);
    if !IsRemote(e) {
      LocalKeepsRelay(s, e);
      SameHears(s, Step(s, e), d);
    } else if e.RelayReceives? {
      MessageHears(s, e.garbage, d);
    } else {
      match e {
        case RelayReceivesData(x) => PassedHeard(s, x);
        case RelayReceivesCtrl(x) => ResolvedHeard(s, x);
        case DeviceResolves(x, answer) => SpeechHeard(s, x, answer, PostBack(0, []));
        case DeviceReports(x, m) => SpeechHeard(s, x, DnsResp(0, None, None), m);
        case DeviceJoins(x) => DeviceListHeard(s, x);
        case DeviceDeleted(x) => DeviceListHeard(s, x);
        case DeviceReceives(x) => CommandsHeard(s, x);
      }
      SameHears(s, Step(s, e), d);
    }
  }

  /** Whatever has happened, and whatever comes next: a device hears at most one message more on its data
      link, and this one names its connection by the id in the last ESTABLISHED report on this connection
      that the relay has taken. */
  lemma DevicesHearLatestIds(capacity: nat, events: seq<Event>, e: Event, d: nat)
    requires d in Run(Start(capacity), events).relay.devices
    ensures var s := Run(Start(capacity), events);
      var q := s.relay.devices[d].dataIn;
      && d in Step(s, e).relay.devices
      && var q' := Step(s, e).relay.devices[d].dataIn;
      || q' == q
      || (|q'| == |q| + 1 && q'[..|q|] == q &&
          LastReported(Start(capacity), events, q'[|q|].id, None) == Some(q'[|q|].deviceSideId))
  {
    var s0 := Start(capacity);
    StartInv(capacity);
    hide Inv, Run, Start, Step, LastReported;
    var s := Run(s0, events);
    RunKnown(s0, events, 0);
    StepHears(s, e, d);
    var q, q' := s.relay.devices[d].dataIn, Step(s, e).relay.devices[d].dataIn;
    if q' != q {
      NothingKnown(capacity, q'[|q|].id);
      RunKnown(s0, events, q'[|q|].id);
      hide Known;
    }
  }

  lemma NothingKnown(capacity: nat, x: nat)
    ensures Known(Start(capacity).relay.contexts, x) == None
  {
  }
}
