/** When a node is asked about, and how long it lives: told from the events of a run and the queries on
    record alone. */
module AuthCacheTimes {
  import opened Lists
  import opened AuthCache
  import opened AuthCacheRuns

  // ---------------------------------------------------------------------------------------
  // What the record and the events say about a node
  // ---------------------------------------------------------------------------------------

  /** When node `n` was last asked about. */
  ghost function LastQuery(posted: seq<Query>, n: NodeId): Option<nat> {
    if posted == [] then None
    else if posted[|posted| - 1].cacheNodeId == n then Some(posted[|posted| - 1].time)
    else LastQuery(posted[..|posted| - 1], n)
  }

  /** Event `e` is an accepted request that node `n` serves. */
  ghost predicate Serves(s: State, c: Capacity, e: Event, n: NodeId) {
    Accepts(s, c, e) &&
    (if e.userPass in s.authMap then s.authMap[e.userPass] == n else |s.nodePool| < c.nodes && n == s.nextNodeId)
  }

  /** Event `e` is a reply for node `n`. */
  ghost predicate Confirms(s: State, e: Event, n: NodeId) {
    Informs(s, e) && e.cacheNodeId == n
  }

  /** When node `n` last served a request or got a reply. */
  ghost function LastUse(start: nat, c: Capacity, events: seq<Event>, n: NodeId): nat {
    if events == [] then 0 else
      var before, e := events[..|events| - 1], events[|events| - 1];
      var s := Run(start, c, before);
      if Serves(s, c, e, n) || Confirms(s, e, n) then s.ticker else LastUse(start, c, before, n)
  }

  /** Node `n` was asked about and nothing has been heard since. */
  ghost predicate Unheard(start: nat, c: Capacity, events: seq<Event>, n: NodeId) {
    events != [] &&
    var before, e := events[..|events| - 1], events[|events| - 1];
    var s := Run(start, c, before);
    if CountQueries(Run(start, c, events).posted, n) > CountQueries(s.posted, n) then true
    else if Confirms(s, e, n) then false
    else Unheard(start, c, before, n)
  }

  lemma OneMoreQuery(posted: seq<Query>, q: Query, n: NodeId)
    ensures LastQuery(posted + [q], n) == if q.cacheNodeId == n then Some(q.time) else LastQuery(posted, n)
    ensures CountQueries(posted + [q], n) == CountQueries(posted, n) + if q.cacheNodeId == n then 1 else 0
  {
    assert (posted + [q])[..|posted|] == posted;
  }

  // ---------------------------------------------------------------------------------------
  // Every event
  // ---------------------------------------------------------------------------------------

  /** A request that is served by node `n`, whose record was `node`, seen from any node `m`. */
  ghost predicate JoinTold(s: State, t: State, n: NodeId, node: CacheNode, m: NodeId) {
    var asked := node.lastUpdate + 300_000 <= s.ticker;
    && t.posted == s.posted + (if asked then [Query(n, node.userPass, s.ticker)] else [])
    && (m in t.nodePool <==> m in s.nodePool || m == n)
    && (m in s.nodePool && m != n ==>
          t.nodePool[m] == s.nodePool[m] && (m in t.updateList <==> m in s.updateList))
    && n in t.nodePool && t.nodePool[n].lastUsed == s.ticker
    && t.nodePool[n].lastUpdate == (if asked then s.ticker else node.lastUpdate)
    && (n in t.updateList <==> asked || n in s.updateList)
  }

  lemma JoinIsTold(s: State, sourceId: nat, n: NodeId, node: CacheNode, m: NodeId)
    requires Inv(s) && FoundOrMade(s, n, node)
    ensures JoinTold(s, RequestJoins(s, sourceId, n, node), n, node, m)
  {
    hide Inv, Core, Unlink, FoundOrMade;
    InvFacts(s);
    CoreFacts(s, n);
    UnlinkMembers(s.updateList, n);
    var t := RequestJoins(s, sourceId, n, node);
    LastMember(Unlink(s.updateList, n), n, m);
    assert s.posted + [] == s.posted;
    assert t.nodePool == s.nodePool[n := t.nodePool[n]];
  }

  lemma LastMember(list: seq<NodeId>, n: NodeId, m: NodeId)
    ensures m in list + [n] <==> m in list || m == n
  {
    if m == n { assert (list + [n])[|list|] == n; }
    if m in list {
      var i :| 0 <= i < |list| && list[i] == m;
      assert (list + [n])[i] == m;
    }
  }

  /** The node that serves an accepted request, and its record before. */
  lemma ServedBy(s: State, c: Capacity, e: Event) returns (n: NodeId, node: CacheNode)
    requires Inv(s) && e.Submit? && Accepts(s, c, e) && (e.userPass in s.authMap || |s.nodePool| < c.nodes)
    ensures FoundOrMade(s, n, node) && node.userPass == e.userPass
    ensures Step(s, c, e) == RequestJoins(s, e.sourceId, n, node)
    ensures forall m :: Serves(s, c, e, m) <==> m == n
    ensures n == (if e.userPass in s.authMap then s.authMap[e.userPass] else s.nextNodeId)
    ensures e.userPass !in s.authMap ==> n !in s.nodePool && node.lastUpdate == 0
    ensures e.userPass in s.authMap ==> n in s.nodePool && node == s.nodePool[n]
  {
    InvFacts(s);
    if e.userPass in s.authMap {
      MapFacts(s, e.userPass);
      n := s.authMap[e.userPass];
      node := s.nodePool[n];
    } else {
      CoreFacts(s, 0);
      n, node := s.nextNodeId, NewNode(e.userPass);
    }
    hide Inv, Core, RequestJoins, AcceptableUserPass;
  }

  /** Nothing happens to the nodes and the queries. */
  ghost predicate NodesStay(s: State, t: State) {
    t.posted == s.posted && t.nodePool == s.nodePool && t.updateList == s.updateList
  }

  lemma UnservedStays(s: State, c: Capacity, e: Event)
    requires e.Submit? && (Accepts(s, c, e) ==> e.userPass !in s.authMap && |s.nodePool| >= c.nodes)
    ensures NodesStay(s, Step(s, c, e)) && forall m :: !Serves(s, c, e, m)
  {
    hide AcceptableUserPass, RequestJoins;
  }

  lemma ReplyIsTold(s: State, c: Capacity, e: Event, m: NodeId)
    requires Inv(s) && e.Receive? && m in s.nodePool
    ensures var t := Step(s, c, e);
      && t.posted == s.posted && m in t.nodePool && t.nodePool[m].lastUpdate == s.nodePool[m].lastUpdate
      && t.nodePool.Keys == s.nodePool.Keys
      && t.nodePool[m].lastUsed == (if Confirms(s, e, m) then s.ticker else s.nodePool[m].lastUsed)
      && (m in t.updateList <==> m in s.updateList && !Confirms(s, e, m))
  {
    InvFacts(s);
    if Informs(s, e) {
      CoreFacts(s, e.cacheNodeId);
      UnlinkMembers(s.updateList, e.cacheNodeId);
    }
    hide Inv, Core, Unlink;
  }

  lemma TickIsTold(s: State, now: nat, m: NodeId)
    requires Inv(s) && s.ticker <= now
    ensures var t := Ticked(s, now);
      && t.posted == s.posted && t.nodePool == Survivors(s, now)
      && (m in t.nodePool ==>
            m in s.nodePool && t.nodePool[m] == s.nodePool[m] && (m in t.updateList <==> m in s.updateList))
  {
    TickServes(s, now);
    hide Inv, Core, Ticked, Cleared, QueriesYoung, AnsweredInOrder;
  }

  lemma LastStep(start: nat, c: Capacity, events: seq<Event>)
    requires events != []
    ensures Run(start, c, events) == Step(Run(start, c, events[..|events| - 1]), c, events[|events| - 1])
  {
    hide Step;
  }

  /** What `s` keeps about its nodes, given what is told of them. */
  ghost predicate Agrees(s: State, m: NodeId, used: nat, unheard: bool) {
    m in s.nodePool ==>
      && LastQuery(s.posted, m) == Some(s.nodePool[m].lastUpdate)
      && s.nodePool[m].lastUsed == used && (m in s.updateList <==> unheard)
  }

  /** What is told of node `m` after one more event. */
  ghost predicate StepAgrees(s: State, t: State, c: Capacity, e: Event, m: NodeId, used: nat, unheard: bool) {
    Agrees(t, m, if Serves(s, c, e, m) || Confirms(s, e, m) then s.ticker else used,
           CountQueries(t.posted, m) > CountQueries(s.posted, m) || (!Confirms(s, e, m) && unheard))
  }

  lemma JoinAgrees(s: State, c: Capacity, e: Event, m: NodeId, used: nat, unheard: bool)
    requires Inv(s) && e.Submit? && Accepts(s, c, e) && (e.userPass in s.authMap || |s.nodePool| < c.nodes)
    requires Agrees(s, m, used, unheard)
    ensures StepAgrees(s, Step(s, c, e), c, e, m, used, unheard)
  {
    hide Inv, Step, Accepts, FoundOrMade, RequestJoins, Serves, LastQuery, CountQueries;
    var n, node := ServedBy(s, c, e);
    JoinIsTold(s, e.sourceId, n, node, m);
    OldEnough(s);
    OneMoreQuery(s.posted, Query(n, node.userPass, s.ticker), m);
    OnlySubmitted(s, c, e, m);
    assert s.posted + [] == s.posted;
  }

  lemma OnlySubmitted(s: State, c: Capacity, e: Event, m: NodeId)
    ensures Accepts(s, c, e) ==> !Confirms(s, e, m)
    ensures !e.Submit? ==> !Accepts(s, c, e) && !Serves(s, c, e, m)
    ensures !e.Receive? ==> !Confirms(s, e, m)
  {
    hide AcceptableUserPass;
  }

  lemma StepIsTold(s: State, c: Capacity, e: Event, m: NodeId, used: nat, unheard: bool)
    requires Inv(s) && Agrees(s, m, used, unheard)
    ensures StepAgrees(s, Step(s, c, e), c, e, m, used, unheard)
  {
    hide Inv, Step, Accepts, Serves, Confirms, LastQuery, CountQueries, Survivors;
    OnlySubmitted(s, c, e, m);
    match e
    case Submit(sourceId, userPass) =>
      if Accepts(s, c, e) && (userPass in s.authMap || |s.nodePool| < c.nodes) {
        JoinAgrees(s, c, e, m, used, unheard);
      } else {
        UnservedStays(s, c, e);
      }
    case Receive(n, payload) =>
      ReplyKeepsKeys(s, c, e);
      if m in s.nodePool { ReplyIsTold(s, c, e, m); }
    case Tick(elapsed) =>
      TickStep(s, c, elapsed);
      TickIsTold(s, s.ticker + elapsed, m);
  }

  lemma TickStep(s: State, c: Capacity, elapsed: nat)
    ensures Step(s, c, Tick(elapsed)) == Ticked(s, s.ticker + elapsed)
  {
    hide Ticked;
  }

  lemma OldEnough(s: State)
    requires Inv(s)
    ensures 300_000 <= s.ticker
  {
    hide Core;
  }

  lemma ReplyKeepsKeys(s: State, c: Capacity, e: Event)
    requires e.Receive?
    ensures Step(s, c, e).nodePool.Keys == s.nodePool.Keys
    ensures forall m :: m in Step(s, c, e).nodePool ==> m in s.nodePool
  {
    hide Unlink;
    assert forall m :: m in Step(s, c, e).nodePool.Keys <==> m in s.nodePool.Keys;
  }

  lemma Unfolds(start: nat, c: Capacity, events: seq<Event>, m: NodeId)
    requires events != []
    ensures var before, e := events[..|events| - 1], events[|events| - 1];
      var s, t := Run(start, c, before), Run(start, c, events);
      && LastUse(start, c, events, m) ==
           (if Serves(s, c, e, m) || Confirms(s, e, m) then s.ticker else LastUse(start, c, before, m))
      && (Unheard(start, c, events, m) <==>
            CountQueries(t.posted, m) > CountQueries(s.posted, m)
            || (!Confirms(s, e, m) && Unheard(start, c, before, m)))
  {
    hide Run, Serves, Confirms, CountQueries;
  }

  lemma {:induction false} RunIsTold(start: nat, c: Capacity, events: seq<Event>, m: NodeId)
    requires NODE_TIMEOUT_MS < start
    ensures Agrees(Run(start, c, events), m, LastUse(start, c, events, m), Unheard(start, c, events, m))
    decreases |events|
  {
    if events != [] {
      hide Run, Agrees, StepAgrees, Step, Inv, Serves, Confirms, LastUse, Unheard, CountQueries;
      var before, e := events[..|events| - 1], events[|events| - 1];
      RunIsTold(start, c, before, m);
      RunKeepsInv(start, c, before);
      LastStep(start, c, events);
      Unfolds(start, c, events, m);
      StepIsTold(Run(start, c, before), c, e, m, LastUse(start, c, before, m), Unheard(start, c, before, m));
      StepAgreesMeans(Run(start, c, before), Run(start, c, events), c, e, m, LastUse(start, c, before, m),
                      Unheard(start, c, before, m));
    }
  }

  lemma StepAgreesMeans(s: State, t: State, c: Capacity, e: Event, m: NodeId, used: nat, unheard: bool)
    requires StepAgrees(s, t, c, e, m, used, unheard)
    ensures Agrees(t, m, if Serves(s, c, e, m) || Confirms(s, e, m) then s.ticker else used,
                   CountQueries(t.posted, m) > CountQueries(s.posted, m) || (!Confirms(s, e, m) && unheard))
  {
    hide Agrees, Serves, Confirms, CountQueries;
  }

  // ---------------------------------------------------------------------------------------
  // When a user/pass is asked about, and how long its node lives
  // ---------------------------------------------------------------------------------------

  /** The queries of one event, given the record of them. */
  ghost predicate AsksExactly(s: State, posted: seq<Query>, c: Capacity, e: Event) {
    if !Accepts(s, c, e) then posted == s.posted
    else if e.userPass !in s.authMap then
      posted == s.posted + if |s.nodePool| < c.nodes then [Query(s.nextNodeId, e.userPass, s.ticker)] else []
    else
      var n := s.authMap[e.userPass];
      && LastQuery(s.posted, n).Some?
      && posted == s.posted + if LastQuery(s.posted, n).value + 300_000 <= s.ticker
                              then [Query(n, e.userPass, s.ticker)] else []
  }

  lemma JoinAsks(s: State, c: Capacity, e: Event)
    requires Inv(s) && e.Submit? && Accepts(s, c, e) && (e.userPass in s.authMap || |s.nodePool| < c.nodes)
    requires e.userPass in s.authMap && s.authMap[e.userPass] in s.nodePool ==>
      LastQuery(s.posted, s.authMap[e.userPass]) == Some(s.nodePool[s.authMap[e.userPass]].lastUpdate)
    ensures AsksExactly(s, Step(s, c, e).posted, c, e)
  {
    hide Inv, Step, Accepts, FoundOrMade, RequestJoins, Serves, LastQuery;
    var n, node := ServedBy(s, c, e);
    JoinIsTold(s, e.sourceId, n, node, n);
    OldEnough(s);
  }

  lemma StepAsks(s: State, c: Capacity, e: Event)
    requires Inv(s)
    requires e.Submit? && e.userPass in s.authMap && s.authMap[e.userPass] in s.nodePool ==>
      LastQuery(s.posted, s.authMap[e.userPass]) == Some(s.nodePool[s.authMap[e.userPass]].lastUpdate)
    ensures AsksExactly(s, Step(s, c, e).posted, c, e)
  {
    hide Inv, Step, Accepts, LastQuery, Survivors, Ticked, Serves, Confirms;
    OnlySubmitted(s, c, e, 0);
    assert s.posted + [] == s.posted;
    match e
    case Submit(sourceId, userPass) =>
      if Accepts(s, c, e) && (userPass in s.authMap || |s.nodePool| < c.nodes) {
        JoinAsks(s, c, e);
      } else {
        UnservedStays(s, c, e);
      }
    case Receive(n, payload) => ReplyPostsNothing(s, c, e);
    case Tick(elapsed) =>
      TickStep(s, c, elapsed);
      TickIsTold(s, s.ticker + elapsed, 0);
  }

  lemma ReplyPostsNothing(s: State, c: Capacity, e: Event)
    requires e.Receive?
    ensures Step(s, c, e).posted == s.posted
  {
    hide Unlink;
  }

  /** In every run, an event posts a query exactly if it is an accepted request whose user/pass has no node
      yet, and there is room for one, or whose node was last asked about at least 300 s ago. It posts one
      query, for that node and that user/pass. */
  lemma AskedExactly(start: nat, c: Capacity, events: seq<Event>, k: nat)
    requires NODE_TIMEOUT_MS < start && k < |events|
    ensures var s, e := Run(start, c, events[..k]), events[k];
      var posted := Run(start, c, events[..k + 1]).posted;
      if !Accepts(s, c, e) then posted == s.posted
      else if e.userPass !in s.authMap then
        posted == s.posted + if |s.nodePool| < c.nodes then [Query(s.nextNodeId, e.userPass, s.ticker)] else []
      else
        var n := s.authMap[e.userPass];
        && LastQuery(s.posted, n).Some?
        && posted == s.posted + if LastQuery(s.posted, n).value + 300_000 <= s.ticker
                                then [Query(n, e.userPass, s.ticker)] else []
  {
    hide Run, Inv, Step, Accepts, LastQuery, LastUse, Unheard;
    var s, e := Run(start, c, events[..k]), events[k];
    RunKeepsInv(start, c, events[..k]);
    NextState(start, c, events, k);
    if e.Submit? && e.userPass in s.authMap { RunIsTold(start, c, events[..k], s.authMap[e.userPass]); }
    StepAsks(s, c, e);
  }

  /** The nodes that outlive a tick, given what is told of them. */
  lemma SurvivesExactly(s: State, now: nat, n: NodeId, used: nat, unheard: bool)
    requires Agrees(s, n, used, unheard)
    ensures n in s.nodePool ==> LastQuery(s.posted, n).Some?
    ensures n in Survivors(s, now) <==>
      && n in s.nodePool && now <= used + 480_000
      && (unheard ==> now <= LastQuery(s.posted, n).value + 15_000)
  {
    hide LastQuery;
  }

  /** In every run, a tick leaves exactly the nodes that served a request or got a reply within the last
      480 s, except those that were asked about more than 15 s ago and not heard of since. */
  lemma LivesExactly(start: nat, c: Capacity, events: seq<Event>, k: nat, n: NodeId)
    requires NODE_TIMEOUT_MS < start && k < |events| && events[k].Tick?
    ensures var s, t := Run(start, c, events[..k]), Run(start, c, events[..k + 1]);
      && (n in s.nodePool ==> LastQuery(s.posted, n).Some?)
      && (n in t.nodePool <==>
            && n in s.nodePool && t.ticker <= LastUse(start, c, events[..k], n) + 480_000
            && (Unheard(start, c, events[..k], n) ==> t.ticker <= LastQuery(s.posted, n).value + 15_000))
  {
    hide Run, Inv, Step, LastQuery, LastUse, Unheard, Agrees, Ticked, Survivors;
    hide Pruned, Dispatched, QueriesYoung, Cleared;
    var s := Run(start, c, events[..k]);
    var now := s.ticker + events[k].elapsed;
    RunKeepsInv(start, c, events[..k]);
    RunIsTold(start, c, events[..k], n);
    NextState(start, c, events, k);
    TickStep(s, c, events[k].elapsed);
    TickServes(s, now);
    SurvivesExactly(s, now, n, LastUse(start, c, events[..k], n), Unheard(start, c, events[..k], n));
  }
}
