/** Whole runs of the authentication cache: what was asked, and that everybody is answered, once and in time. */
module AuthCacheRuns {
  import opened Lists
  import opened AuthCache

  datatype Event =
    | Submit(sourceId: nat, userPass: string)
    | Receive(cacheNodeId: NodeId, payload: Option<AuthInfo>)
    | Tick(elapsed: nat)

  /** How many requests and nodes there is room for. */
  datatype Capacity = Capacity(requests: nat, nodes: nat)

  ghost predicate Accepts(s: State, c: Capacity, e: Event) {
    e.Submit? && AcceptableUserPass(e.userPass) && |s.requestPool| < c.requests
  }

  ghost predicate Informs(s: State, e: Event) {
    e.Receive? && e.cacheNodeId in s.nodePool && e.payload.Some?
  }

  ghost function Step(s: State, c: Capacity, e: Event): State {
    match e
    case Submit(sourceId, userPass) =>
      if Accepts(s, c, e) then RequestAccepted(s, sourceId, userPass, |s.nodePool| < c.nodes) else s
    case Receive(n, payload) => if Informs(s, e) then ReplyArrives(s, n, payload.value) else s
    case Tick(elapsed) => Ticked(s, s.ticker + elapsed)
  }

  ghost function Run(start: nat, c: Capacity, events: seq<Event>): State {
    if events == [] then StartState(start)
    else Step(Run(start, c, events[..|events| - 1]), c, events[|events| - 1])
  }

  // ---------------------------------------------------------------------------------------
  // Every run keeps the invariant, and what is recorded stays recorded
  // ---------------------------------------------------------------------------------------

  lemma StartInv(now: nat)
    requires NODE_TIMEOUT_MS < now
    ensures Inv(StartState(now))
  {
  }

  /** What a step adds: an accepted request is recorded, a reply is recorded, answers are added. */
  ghost predicate Grows(s: State, t: State, c: Capacity, e: Event) {
    && s.ticker <= t.ticker && s.answers <= t.answers
    && t.nextRequestId == s.nextRequestId + (if Accepts(s, c, e) then 1 else 0)
    && t.asked == (if Accepts(s, c, e) then
                     s.asked[s.nextRequestId := Asked(e.sourceId, e.userPass, s.ticker)] else s.asked)
    && t.replies == (if Informs(s, e) then s.replies + [Reply(e.cacheNodeId, e.payload.value)] else s.replies)
    && (forall n :: n in s.owner ==> n in t.owner && t.owner[n] == s.owner[n])
  }

  lemma SubmitKeepsInv(s: State, c: Capacity, e: Event)
    requires Inv(s) && e.Submit?
    ensures Inv(Step(s, c, e)) && Grows(s, Step(s, c, e), c, e)
  {
    hide Inv, AcceptableUserPass, RequestAccepted;
    RequestAcceptedKeepsInv(s, e.sourceId, e.userPass, |s.nodePool| < c.nodes);
    AcceptedGrows(s, e.sourceId, e.userPass, |s.nodePool| < c.nodes);
  }

  lemma ReceiveKeepsInv(s: State, c: Capacity, e: Event)
    requires Inv(s) && e.Receive?
    ensures Inv(Step(s, c, e)) && Grows(s, Step(s, c, e), c, e)
  {
    hide Inv, Unlink;
    if Informs(s, e) { ReplyKeepsInv(s, e.cacheNodeId, e.payload.value); }
  }

  lemma TickKeepsInv(s: State, c: Capacity, e: Event)
    requires Inv(s) && e.Tick?
    ensures Inv(Step(s, c, e)) && Grows(s, Step(s, c, e), c, e)
  {
    hide Inv, Core, Ticked, Cleared, Pruned, Dispatched, QueriesYoung, Survivors;
    TickServes(s, s.ticker + e.elapsed);
    TickGrows(s, s.ticker + e.elapsed);
  }

  lemma StepKeepsInv(s: State, c: Capacity, e: Event)
    requires Inv(s)
    ensures Inv(Step(s, c, e)) && Grows(s, Step(s, c, e), c, e)
  {
    hide *;
    match e
    case Submit(_, _) => SubmitKeepsInv(s, c, e);
    case Receive(_, _) => ReceiveKeepsInv(s, c, e);
    case Tick(_) => TickKeepsInv(s, c, e);
  }

  lemma AcceptedGrows(s: State, sourceId: nat, userPass: string, room: bool)
    requires Inv(s)
    ensures var t := RequestAccepted(s, sourceId, userPass, room);
      && t.nextRequestId == s.nextRequestId + 1 && t.answers == s.answers && t.ticker == s.ticker
        && t.replies == s.replies
      && t.asked == s.asked[s.nextRequestId := Asked(sourceId, userPass, s.ticker)]
      && (forall n :: n in s.owner ==> n in t.owner && t.owner[n] == s.owner[n])
  {
    RequestAcceptedKeepsInv(s, sourceId, userPass, room);
    InvFacts(s);
    OwnersStay(s, userPass);
    hide Inv, Core, Unlink, Joined;
  }

  lemma OwnersStay(s: State, userPass: string)
    requires Core(s)
    ensures s.nextNodeId !in s.owner
    ensures userPass in s.authMap ==>
      && s.authMap[userPass] in s.nodePool && s.nodePool[s.authMap[userPass]].userPass == userPass
      && s.authMap[userPass] in s.owner && s.owner[s.authMap[userPass]] == userPass
  {
  }

  lemma TickGrows(s: State, now: nat)
    requires Pruned(s, Cleared(s, now), true) && Dispatched(Cleared(s, now), Ticked(s, now))
    ensures var t := Ticked(s, now);
      && s.answers <= t.answers && t.nextRequestId == s.nextRequestId
      && t.asked == s.asked && t.replies == s.replies && t.owner == s.owner
  {
    hide Core, Cleared, Ticked, AnsweredInOrder;
  }

  lemma {:induction false} RunKeepsInv(start: nat, c: Capacity, events: seq<Event>)
    requires NODE_TIMEOUT_MS < start
    ensures Inv(Run(start, c, events))
  {
    hide Inv, Step;
    if events == [] {
      StartInv(start);
    } else {
      RunKeepsInv(start, c, events[..|events| - 1]);
      StepKeepsInv(Run(start, c, events[..|events| - 1]), c, events[|events| - 1]);
    }
  }

  lemma NextState(start: nat, c: Capacity, events: seq<Event>, k: nat)
    requires k < |events|
    ensures Run(start, c, events[..k + 1]) == Step(Run(start, c, events[..k]), c, events[k])
  {
    assert events[..k + 1][..k] == events[..k];
  }

  /** Answers, and who was asked for whom, are never taken back. */
  lemma {:induction false} RecordsStay(start: nat, c: Capacity, events: seq<Event>, j: nat, k: nat)
    requires NODE_TIMEOUT_MS < start && j <= k <= |events|
    ensures var s, t := Run(start, c, events[..j]), Run(start, c, events[..k]);
      && s.answers <= t.answers && s.ticker <= t.ticker && s.nextRequestId <= t.nextRequestId
      && (forall r :: r in s.asked ==> r in t.asked && t.asked[r] == s.asked[r])
      && (forall n :: n in s.owner ==> n in t.owner && t.owner[n] == s.owner[n])
    decreases k
  {
    hide Inv, Step, Run, AcceptableUserPass;
    if j < k {
      RecordsStay(start, c, events, j, k - 1);
      NextState(start, c, events, k - 1);
      RunKeepsInv(start, c, events[..k - 1]);
      var s := Run(start, c, events[..k - 1]);
      StepKeepsInv(s, c, events[k - 1]);
      FreshRequest(s);
    }
  }

  lemma FreshRequest(s: State)
    requires Inv(s)
    ensures s.nextRequestId !in s.asked && forall r :: r in s.asked <==> 0 < r < s.nextRequestId
  {
  }

  // ---------------------------------------------------------------------------------------
  // What was asked
  // ---------------------------------------------------------------------------------------

  /** Event `k` is an accepted submission, and `r` the id it got. */
  ghost predicate Submitted(start: nat, c: Capacity, events: seq<Event>, k: nat, r: RequestId)
    requires k < |events|
  {
    var s := Run(start, c, events[..k]);
    Accepts(s, c, events[k]) && r == s.nextRequestId
  }

  /** The requests on record are exactly the accepted submissions: each with who asked for what and when. */
  lemma {:induction false} AskedAreSubmissions(start: nat, c: Capacity, events: seq<Event>, r: RequestId)
    requires NODE_TIMEOUT_MS < start
    ensures r in Run(start, c, events).asked <==> exists k: nat :: k < |events| && Submitted(start, c, events, k, r)
  {
    hide Inv, Step, AcceptableUserPass;
    var t := Run(start, c, events);
    if events != [] {
      var n := |events| - 1;
      var before := events[..n];
      var s := Run(start, c, before);
      RunKeepsInv(start, c, before);
      StepKeepsInv(s, c, events[n]);
      AskedAreSubmissions(start, c, before, r);
      if r in s.asked {
        var k: nat :| k < n && Submitted(start, c, before, k, r);
        assert before[..k] == events[..k];
        assert Submitted(start, c, events, k, r);
      } else if r in t.asked {
        assert Submitted(start, c, events, n, r);
      }
      if exists k: nat :: k < |events| && Submitted(start, c, events, k, r) {
        var k: nat :| k < |events| && Submitted(start, c, events, k, r);
        if k < n {
          assert before[..k] == events[..k];
          assert Submitted(start, c, before, k, r);
        }
      }
    }
  }

  /** An accepted submission is recorded as it was made, for ever. */
  lemma SubmissionIsRecorded(start: nat, c: Capacity, events: seq<Event>, k: nat, r: RequestId)
    requires NODE_TIMEOUT_MS < start && k < |events| && Submitted(start, c, events, k, r)
    ensures var t := Run(start, c, events);
      r in t.asked && t.asked[r] == Asked(events[k].sourceId, events[k].userPass, Run(start, c, events[..k]).ticker)
  {
    hide Inv, Step, Run, AcceptableUserPass;
    var s := Run(start, c, events[..k]);
    RunKeepsInv(start, c, events[..k]);
    StepKeepsInv(s, c, events[k]);
    NextState(start, c, events, k);
    RecordsStay(start, c, events, k + 1, |events|);
    assert events[..|events|] == events;
  }

  // ---------------------------------------------------------------------------------------
  // What was answered
  // ---------------------------------------------------------------------------------------

  /** The replies on record are those of the servers. */
  lemma {:induction false} RepliesAreReceived(start: nat, c: Capacity, events: seq<Event>, x: Reply)
    requires NODE_TIMEOUT_MS < start && x in Run(start, c, events).replies
    ensures Receive(x.cacheNodeId, Some(x.info)) in events
  {
    hide Inv, Step, AcceptableUserPass;
    if events != [] {
      var before := events[..|events| - 1];
      RunKeepsInv(start, c, before);
      StepKeepsInv(Run(start, c, before), c, events[|events| - 1]);
      if x in Run(start, c, before).replies { RepliesAreReceived(start, c, before, x); }
    }
  }

  ghost predicate AnswerGood(t: State, a: Answer, events: seq<Event>) {
    && a.requestId in t.asked && a.sourceId == t.asked[a.requestId].sourceId
    && (a.result.Some? ==>
          && Receive(a.cacheNodeId, a.result) in events
          && a.cacheNodeId in t.owner && t.owner[a.cacheNodeId] == t.asked[a.requestId].userPass)
  }

  lemma AnswerFacts(s: State)
    requires Inv(s)
    ensures forall i :: 0 <= i < |s.answers| ==> Truthful(s, s.answers[i])
    ensures forall i, j :: 0 <= i < j < |s.answers| ==> s.answers[i].requestId != s.answers[j].requestId
    ensures forall r :: r in s.asked ==> (Answered(s.answers, r) <==> r !in s.requestPool)
    ensures forall r :: r in s.requestPool ==> r in s.asked && s.asked[r].time == s.requestPool[r].timestamp
  {
  }

  /** Every answer goes to who asked, nobody is answered twice, and a result is one that a server sent for
      a node of the very user/pass that was asked about; whoever is not answered is still waiting. */
  lemma AnswersAreGood(start: nat, c: Capacity, events: seq<Event>)
    requires NODE_TIMEOUT_MS < start
    ensures var t := Run(start, c, events);
      && (forall i :: 0 <= i < |t.answers| ==> AnswerGood(t, t.answers[i], events))
      && (forall i, j :: 0 <= i < j < |t.answers| ==> t.answers[i].requestId != t.answers[j].requestId)
      && (forall r :: r in t.asked ==> (Answered(t.answers, r) <==> r !in t.requestPool))
  {
    hide Inv, Run;
    var t := Run(start, c, events);
    RunKeepsInv(start, c, events);
    AnswerFacts(t);
    forall i | 0 <= i < |t.answers| ensures AnswerGood(t, t.answers[i], events) {
      var a := t.answers[i];
      if a.result.Some? { RepliesAreReceived(start, c, events, Reply(a.cacheNodeId, a.result.value)); }
    }
  }

  /** Once a tick has come more than the request timeout after a submission, its request is answered, and
      stays so. */
  lemma AnsweredInTime(start: nat, c: Capacity, events: seq<Event>, k: nat, r: RequestId)
    requires NODE_TIMEOUT_MS < start && k < |events| && events[k].Tick?
    requires r in Run(start, c, events[..k]).asked
    requires var s := Run(start, c, events[..k]); s.asked[r].time + REQUEST_TIMEOUT_MS < s.ticker + events[k].elapsed
    ensures Answered(Run(start, c, events[..k + 1]).answers, r) && Answered(Run(start, c, events).answers, r)
  {
    hide Inv, Run, Ticked, Cleared, Pruned, Dispatched, QueriesYoung, Survivors;
    var s := Run(start, c, events[..k]);
    RunKeepsInv(start, c, events[..k]);
    NextState(start, c, events, k);
    var now := s.ticker + events[k].elapsed;
    var t := Ticked(s, now);
    TickServes(s, now);
    TickGrows(s, now);
    AnswerFacts(t);
    if r in t.requestPool { PendingIsYoung(t, r); }
    RecordsStay(start, c, events, k + 1, |events|);
    assert events[..|events|] == events;
    AnsweredStays(t.answers, Run(start, c, events).answers, r);
  }

  lemma AnsweredStays(a: seq<Answer>, b: seq<Answer>, r: RequestId)
    requires a <= b && Answered(a, r)
    ensures Answered(b, r)
  {
    var i :| 0 <= i < |a| && a[i].requestId == r;
    assert b[i].requestId == r;
  }

  // ---------------------------------------------------------------------------------------
  // The manager in a run
  // ---------------------------------------------------------------------------------------

  /** The manager driven by the events does what `Run` says. */
  method Drive(start: nat, c: Capacity, events: seq<Event>) returns (manager: AuthCacheManager)
    requires NODE_TIMEOUT_MS < start
    ensures fresh(manager) && manager.Valid() && manager.Model() == Run(start, c, events)
  {
    hide Inv, Ticked, RequestAccepted, ReplyArrives, AcceptableUserPass;
    manager := new AuthCacheManager(start, c.requests, c.nodes);
    for k := 0 to |events|
      invariant manager.Valid() && fresh(manager)
      invariant manager.requestCapacity == c.requests && manager.nodeCapacity == c.nodes
      invariant manager.Model() == Run(start, c, events[..k])
    {
      NextState(start, c, events, k);
      match events[k] {
        case Submit(sourceId, userPass) =>
          var ok := manager.RequestAuth(sourceId, userPass);
        case Receive(n, payload) =>
          var keep := manager.OnServerPacket(n, payload);
        case Tick(elapsed) =>
          manager.OnTick(manager.ticker + elapsed);
      }
    }
    assert events[..|events|] == events;
  }
}
