/** When the registry publishes. Every accepted addition starts the minute again, so what is added is
    published only after a minute in which nothing else is added. */
module ServerListRuns {
  import opened Lists
  import opened ServerList

  // ---------------------------------------------------------------------------------------
  // Additions and publications of a run
  // ---------------------------------------------------------------------------------------

  /** The state before event `k`. */
  function StateAt(s: Server, events: seq<Event>, k: nat): Server
    requires k <= |events|
  {
    Run(s, events[..k])
  }

  /** Event `k` adds a server: there is room, and its id is new. */
  predicate AddsAt(s: Server, events: seq<Event>, k: nat)
    requires k < |events|
  {
    events[k].Added? && |StateAt(s, events, k).m.live| < MAX_SERVER_COUNT
    && !Found(StateAt(s, events, k).m.live, events[k].id)
  }

  function TimeAt(s: Server, events: seq<Event>, k: nat): nat
    requires k <= |events|
  {
    StateAt(s, events, k).m.now
  }

  /** Event `j` is the last addition before event `k`. */
  ghost predicate LastAddition(s: Server, events: seq<Event>, j: nat, k: nat)
    requires k <= |events|
  {
    j < k && AddsAt(s, events, j) && forall i: nat :: j < i < k ==> !AddsAt(s, events, i)
  }

  /** Event `k` publishes a list. */
  predicate PublishesAt(s: Server, events: seq<Event>, k: nat)
    requires k < |events|
  {
    StateAt(s, events, k + 1).history != StateAt(s, events, k).history
  }

  /** Event `j` is the last addition before event `k`, and nothing was published since. */
  ghost predicate Unpublished(s: Server, events: seq<Event>, j: nat, k: nat)
    requires k <= |events|
  {
    LastAddition(s, events, j, k) && StateAt(s, events, j + 1).history == StateAt(s, events, k).history
  }

  /** Event `k` is a tick that comes more than a minute after event `j`. */
  predicate TicksLate(s: Server, events: seq<Event>, j: nat, k: nat)
    requires j < k < |events|
  {
    events[k].Ticked? && events[k].now > TimeAt(s, events, j) + UPGRADE_VERSION_TIMEOUT
  }

  lemma {:induction false} RunSnoc(s: Server, events: seq<Event>, e: Event)
    ensures Run(s, events + [e]) == Step(Run(s, events), e)
    decreases |events|
  {
    hide Step;
    if events == [] {
      assert events + [e] == [e] && [e][1..] == [];
    } else {
      assert (events + [e])[1..] == events[1..] + [e];
      RunSnoc(Step(s, events[0]), events[1..], e);
    }
  }

  lemma NextState(s: Server, events: seq<Event>, k: nat)
    requires k < |events|
    ensures StateAt(s, events, k + 1) == Step(StateAt(s, events, k), events[k])
  {
    assert events[..k + 1] == events[..k] + [events[k]];
    RunSnoc(s, events[..k], events[k]);
  }

  /** Publications are never taken back. */
  lemma {:induction false} HistoryGrows(s: Server, events: seq<Event>, j: nat, k: nat)
    requires j <= k <= |events|
    ensures StateAt(s, events, j).history <= StateAt(s, events, k).history
    decreases k
  {
    hide StateAt, Add, Remove, Tick;
    if j < k {
      HistoryGrows(s, events, j, k - 1);
      NextState(s, events, k - 1);
    }
  }

  // ---------------------------------------------------------------------------------------
  // What is unpublished
  // ---------------------------------------------------------------------------------------

  /** Nothing is waiting to be published, or the last addition is at most a minute old. */
  predicate Young(m: Manager) {
    m.stamp <= m.now && (m.dirty ==> m.now <= m.stamp + UPGRADE_VERSION_TIMEOUT)
  }

  lemma AddMeans(m: Manager, id: nat, address: nat)
    ensures var a := Add(m, id, address);
      if |m.live| < MAX_SERVER_COUNT && !Found(m.live, id) then a.dirty && a.stamp == m.now && a.now == m.now
      else a == m
  {
    hide LowerBound;
  }

  lemma RemoveMeans(m: Manager, id: nat)
    ensures var r := Remove(m, id); r.dirty == m.dirty && r.stamp == m.stamp && r.now == m.now
  {
    hide LowerBound;
  }

  /** In every run the list is marked as changed exactly if there was an addition that is not published
      yet. The time stamp is that of the last such addition, which is at most a minute old: earlier ones
      may be of any age. */
  lemma {:induction false} ChangedExactly(s: Server, events: seq<Event>, k: nat)
    requires !s.m.dirty && s.m.stamp <= s.m.now && k <= |events|
    ensures Young(StateAt(s, events, k).m)
    ensures StateAt(s, events, k).m.dirty <==> exists j: nat :: Unpublished(s, events, j, k)
    ensures forall j: nat :: Unpublished(s, events, j, k) ==> StateAt(s, events, k).m.stamp == TimeAt(s, events, j)
    decreases k
  {
    hide StateAt, Found, Add, Remove;
    if k == 0 {
      StateAtStart(s, events);
    } else {
      var n := k - 1;
      ChangedExactly(s, events, n);
      NextState(s, events, n);
      var t, u := StateAt(s, events, n), StateAt(s, events, k);
      match events[n]
      case Added(id, address) =>
        AddMeans(t.m, id, address);
        if AddsAt(s, events, n) {
          assert Unpublished(s, events, n, k);
        } else {
          assert u == t;
          SameUnpublished(s, events, n, k);
        }
      case Removed(id) =>
        RemoveMeans(t.m, id);
        SameUnpublished(s, events, n, k);
      case Ticked(now) =>
        if u.history == t.history {
          SameUnpublished(s, events, n, k);
        } else {
          NothingUnpublished(s, events, k);
        }
    }
  }

  lemma StateAtStart(s: Server, events: seq<Event>)
    ensures StateAt(s, events, 0) == s
  {
    assert events[..0] == [];
  }

  /** An event that neither adds nor publishes leaves what is unpublished. */
  lemma SameUnpublished(s: Server, events: seq<Event>, n: nat, k: nat)
    requires n < |events| && k == n + 1 && !AddsAt(s, events, n) && !PublishesAt(s, events, n)
    ensures forall j: nat :: Unpublished(s, events, j, k) <==> Unpublished(s, events, j, n)
    ensures (exists j: nat :: Unpublished(s, events, j, k)) <==> exists j: nat :: Unpublished(s, events, j, n)
  {
    hide StateAt, AddsAt;
  }

  /** A publication leaves nothing unpublished. */
  lemma NothingUnpublished(s: Server, events: seq<Event>, k: nat)
    requires 0 < k <= |events| && !AddsAt(s, events, k - 1) && PublishesAt(s, events, k - 1)
    ensures forall j: nat :: !Unpublished(s, events, j, k)
  {
    hide StateAt, AddsAt;
    forall j: nat ensures !Unpublished(s, events, j, k) {
      if Unpublished(s, events, j, k) {
        HistoryGrows(s, events, j + 1, k - 1);
        HistoryGrows(s, events, k - 1, k);
      }
    }
  }

  // ---------------------------------------------------------------------------------------
  // Exactly when something is published
  // ---------------------------------------------------------------------------------------

  /** An event publishes exactly if it is a tick that finds an addition which is not published yet and comes
      more than a minute after the last addition; what it publishes is the live list. */
  lemma PublishesExactly(s: Server, events: seq<Event>, k: nat)
    requires !s.m.dirty && s.m.stamp <= s.m.now && k < |events|
    ensures PublishesAt(s, events, k) <==>
      exists j: nat :: j < k && Unpublished(s, events, j, k) && TicksLate(s, events, j, k)
    ensures PublishesAt(s, events, k) ==>
      StateAt(s, events, k + 1).history == StateAt(s, events, k).history + [StateAt(s, events, k).m.live]
  {
    hide StateAt, Unpublished, Add, Remove;
    ChangedExactly(s, events, k);
    NextState(s, events, k);
    var t := StateAt(s, events, k);
    if PublishesAt(s, events, k) {
      var j: nat :| Unpublished(s, events, j, k);
      BeforeEvent(s, events, j, k);
      assert TicksLate(s, events, j, k);
    }
    if j: nat :| j < k && Unpublished(s, events, j, k) && TicksLate(s, events, j, k) {
      assert |t.history + [t.m.live]| == |t.history| + 1;
    }
  }

  lemma BeforeEvent(s: Server, events: seq<Event>, j: nat, k: nat)
    requires k <= |events| && Unpublished(s, events, j, k)
    ensures LastAddition(s, events, j, k) && j < k
  {
  }

  /** If the history changed, some event changed it. */
  lemma {:induction false} SomethingPublishes(s: Server, events: seq<Event>, n: nat) returns (k: nat)
    requires n <= |events| && StateAt(s, events, n).history != s.history
    ensures k < n && PublishesAt(s, events, k)
    decreases n
  {
    hide StateAt;
    StateAtStart(s, events);
    k := n - 1;
    if !PublishesAt(s, events, k) { k := SomethingPublishes(s, events, n - 1); }
  }

  /** A run publishes exactly if some tick comes more than a minute after the last addition before it. Equally:
      as long as every tick comes within a minute of an addition nothing is published, whatever is waiting. */
  lemma RunPublishesExactly(s: Server, events: seq<Event>)
    requires !s.m.dirty && s.m.stamp <= s.m.now
    ensures Run(s, events).history != s.history <==>
      exists j: nat, k: nat :: j < k < |events| && LastAddition(s, events, j, k) && TicksLate(s, events, j, k)
  {
    hide StateAt, Unpublished, LastAddition, TicksLate;
    WholeRun(s, events);
    if Run(s, events).history != s.history {
      var k := SomethingPublishes(s, events, |events|);
      PublishesExactly(s, events, k);
      var j: nat :| j < k && Unpublished(s, events, j, k) && TicksLate(s, events, j, k);
      BeforeEvent(s, events, j, k);
    }
    if j: nat, k: nat :| j < k < |events| && LastAddition(s, events, j, k) && TicksLate(s, events, j, k) {
      LatePublishes(s, events, j, k);
    }
  }

  lemma WholeRun(s: Server, events: seq<Event>)
    ensures StateAt(s, events, |events|) == Run(s, events)
  {
    assert events[..|events|] == events;
  }

  lemma NothingBetween(s: Server, events: seq<Event>, k: nat)
    requires k <= |events| && Run(s, events).history == s.history
    ensures StateAt(s, events, k).history == s.history
  {
    hide StateAt;
    WholeRun(s, events);
    StateAtStart(s, events);
    HistoryGrows(s, events, 0, k);
    HistoryGrows(s, events, k, |events|);
  }

  lemma LatePublishes(s: Server, events: seq<Event>, j: nat, k: nat)
    requires !s.m.dirty && s.m.stamp <= s.m.now
    requires j < k < |events| && LastAddition(s, events, j, k) && TicksLate(s, events, j, k)
    ensures Run(s, events).history != s.history
  {
    hide StateAt, AddsAt, TicksLate, LastAddition;
    WholeRun(s, events);
    if Run(s, events).history == s.history {
      NothingBetween(s, events, j + 1);
      NothingBetween(s, events, k);
      NothingBetween(s, events, k + 1);
      assert Unpublished(s, events, j, k);
      PublishesExactly(s, events, k);
    }
  }

  // ---------------------------------------------------------------------------------------
  // A server that is never published
  // ---------------------------------------------------------------------------------------

  const OTHER: nat := 1

  /** A server registers; after that, in every minute, another one comes, a tick finds the list changed,
      and the other one goes. */
  function Starving(n: nat, address: nat): seq<Event> {
    if n == 0 then [Added(0, address)]
    else Starving(n - 1, address) + Minute(n, address)
  }

  function Minute(n: nat, address: nat): seq<Event> {
    [Added(OTHER, address), Ticked(n * UPGRADE_VERSION_TIMEOUT), Removed(OTHER)]
  }

  /** A server that is waiting to be published, so many minutes after it registered. */
  predicate Starved(s: Server, n: nat, address: nat) {
    && s.m.live == [Info(0, address)] && s.m.dirty && s.m.now == n * UPGRADE_VERSION_TIMEOUT
    && s.history == [] && s.m.published == [] && s.m.version == 0
  }

  lemma {:induction false} RunAppend(s: Server, a: seq<Event>, b: seq<Event>)
    ensures Run(s, a + b) == Run(Run(s, a), b)
    decreases |a|
  {
    hide Step;
    if a == [] {
      assert a + b == b;
    } else {
      assert (a + b)[1..] == a[1..] + b;
      RunAppend(Step(s, a[0]), a[1..], b);
    }
  }

  lemma AnotherMinute(s: Server, n: nat, address: nat)
    requires n > 0 && Starved(s, n - 1, address)
    ensures Starved(Run(s, Minute(n, address)), n, address)
  {
    var first, other := Info(0, address), Info(OTHER, address);
    var events := Minute(n, address);
    var s1 := Step(s, events[0]);
    assert [first][1..] == [];
    assert s1.m.live == [first, other];
    var s2 := Step(s1, events[1]);
    assert [first, other][1..] == [other] && LowerBound([other], OTHER) == 0;
    var s3 := Step(s2, events[2]);
    assert s3.m.live == [first];
    ThreeEvents(s, events);
  }

  lemma ThreeEvents(s: Server, events: seq<Event>)
    requires |events| == 3
    ensures Run(s, events) == Step(Step(Step(s, events[0]), events[1]), events[2])
  {
    hide Step;
    assert events[1..][0] == events[1] && events[1..][1..][0] == events[2] && events[1..][1..][1..] == [];
    assert Run(events := events[1..][1..], s := Step(Step(s, events[0]), events[1])) ==
      Step(Step(Step(s, events[0]), events[1]), events[2]);
  }

  /** So a server may wait for ever: for every number of minutes there is a run in which it registered that
      long ago, has been there all the time, and nothing was ever published. */
  lemma {:induction false} MayStarve(n: nat, address: nat)
    ensures Starved(Run(START, Starving(n, address)), n, address)
  {
    hide Starved, Minute, Step;
    if n == 0 {
      Registers(address);
    } else {
      MayStarve(n - 1, address);
      AnotherMinute(Run(START, Starving(n - 1, address)), n, address);
      RunAppend(START, Starving(n - 1, address), Minute(n, address));
    }
  }

  lemma Registers(address: nat)
    ensures Starved(Run(START, Starving(0, address)), 0, address)
  {
    var events := Starving(0, address);
    assert events[1..] == [];
    assert Run(Step(START, events[0]), events[1..]) == Step(START, events[0]);
  }
}
