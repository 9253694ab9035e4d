/** The access server's cache of authentication results, with request coalescing.

    `xIndexedStorage` is modelled as a map from ids to records whose ids are handed out in
    increasing order and never again; `xList` as a sequence in which an element occurs once.
    Id 0 is the null id. */
module AuthCache {
  import opened Lists

  const REQUEST_TIMEOUT_MS: nat := 15_000
  const RECONFIRM_TIMEOUT_MS: nat := 300_000
  const NODE_TIMEOUT_MS: nat := 480_000
  const MAX_NAME_LENGTH: nat := 127

  type NodeId = nat
  type RequestId = nat

  /** The answer of a cache server, field by field. */
  datatype AuthInfo = AuthInfo(countryId: nat, stateId: nat, cityId: nat, isBlocked: bool, requireIpv6: bool,
                               requireUdp: bool, requireRemoteDns: bool, autoChangeIp: bool)

  datatype CacheNode = CacheNode(
    userPass: string, info: AuthInfo, ready: bool, lastUpdate: nat, lastUsed: nat, requestList: seq<RequestId>)

  datatype Request = Request(timestamp: nat, sourceId: nat, cacheNodeId: NodeId)

  /** One call of `OnAuthResult`; the request and node ids label it, the callback itself gets the other two. */
  datatype Answer = Answer(requestId: RequestId, cacheNodeId: NodeId, sourceId: nat, result: Option<AuthInfo>)

  datatype Query = Query(cacheNodeId: NodeId, userPass: string, time: nat)

  datatype Reply = Reply(cacheNodeId: NodeId, info: AuthInfo)

  /** What a caller asked for when its request was accepted. */
  datatype Asked = Asked(sourceId: nat, userPass: string, time: nat)

  const BLANK_INFO := AuthInfo(0, 0, 0, false, false, false, false, false)

  function FindColon(s: string): (i: nat)
    ensures i <= |s|
    ensures ':' !in s[..i]
    ensures i < |s| ==> s[i] == ':'
  {
    if s == [] || s[0] == ':' then 0 else
      assert s[..FindColon(s[1..]) + 1] == [s[0]] + s[1..][..FindColon(s[1..])];
      1 + FindColon(s[1..])
  }

  predicate AcceptableUserPass(s: string) {
    var split := FindColon(s);
    split < |s| && 0 < split <= MAX_NAME_LENGTH && 0 < |s| - split - 1 <= MAX_NAME_LENGTH
  }

  lemma {:induction false} FirstColon(user: string, rest: string)
    requires ':' !in user
    ensures FindColon(user + ":" + rest) == |user|
    decreases |user|
  {
    if user != "" {
      assert (user + ":" + rest)[1..] == user[1..] + ":" + rest;
      FirstColon(user[1..], rest);
    }
  }

  /** What is well formed: a user and a password of 1 to 127 characters each with a colon between them, where
      the user has no colon and the password may have some; nothing without a colon. */
  lemma WellFormedExactly(user: string, pass: string, s: string)
    requires ':' !in user
    ensures AcceptableUserPass(user + ":" + pass) <==> 1 <= |user| <= 127 && 1 <= |pass| <= 127
    ensures AcceptableUserPass(s) ==> ':' in s
  {
    FirstColon(user, pass);
  }

  // ---------------------------------------------------------------------------------------
  // The state as a value, and what holds of it between two calls
  // ---------------------------------------------------------------------------------------

  type Pool = map<NodeId, CacheNode>

  datatype State = State(
    ticker: nat, authMap: map<string, NodeId>, nodePool: Pool, requestPool: map<RequestId, Request>,
    lruList: seq<NodeId>, updateList: seq<NodeId>, dispatchList: seq<RequestId>,
    nextNodeId: NodeId, nextRequestId: RequestId,
    posted: seq<Query>, answers: seq<Answer>, replies: seq<Reply>,
    asked: map<RequestId, Asked>, owner: map<NodeId, string>)

  /** The map and the pool hold the same nodes, one for each user/pass. */
  ghost predicate MapAgrees(authMap: map<string, NodeId>, pool: Pool) {
    && (forall u :: u in authMap ==> authMap[u] in pool && pool[authMap[u]].userPass == u)
    && (forall n :: n in pool ==> pool[n].userPass in authMap && authMap[pool[n].userPass] == n)
  }

  ghost predicate SortedByUse(list: seq<NodeId>, pool: Pool)
    requires forall n :: n in list ==> n in pool
  {
    forall i, j :: 0 <= i < j < |list| ==> pool[list[i]].lastUsed <= pool[list[j]].lastUsed
  }

  ghost predicate SortedByUpdate(list: seq<NodeId>, pool: Pool)
    requires forall n :: n in list ==> n in pool
  {
    forall i, j :: 0 <= i < j < |list| ==> pool[list[i]].lastUpdate <= pool[list[j]].lastUpdate
  }

  /** The LRU list holds exactly the pool's nodes, in order of last use. */
  ghost predicate LruAgrees(list: seq<NodeId>, pool: Pool) {
    && Distinct(list)
    && (forall n :: n in list <==> n in pool)
    && SortedByUse(list, pool)
  }

  /** The update list holds pool nodes in order of last update, and every node without a result. */
  ghost predicate UpdateAgrees(list: seq<NodeId>, pool: Pool) {
    && Distinct(list)
    && (forall n :: n in list ==> n in pool)
    && SortedByUpdate(list, pool)
    && (forall n :: n in pool && !pool[n].ready ==> n in list)
  }

  ghost predicate TimesAgree(pool: Pool, ticker: nat) {
    forall n :: n in pool ==>
      && pool[n].lastUpdate <= pool[n].lastUsed <= ticker
      && (pool[n].requestList != [] ==> !pool[n].ready)
  }

  ghost predicate QueriesYoung(list: seq<NodeId>, pool: Pool, ticker: nat) {
    forall n :: n in list ==> n in pool && ticker <= pool[n].lastUpdate + REQUEST_TIMEOUT_MS
  }

  /** Request `r` waits on node `n`. */
  ghost predicate Waits(pool: Pool, n: NodeId, r: RequestId) {
    n in pool && r in pool[n].requestList
  }

  /** Every pending request is in exactly one list, once. */
  ghost predicate RequestsPlaced(requests: map<RequestId, Request>, pool: Pool, dispatch: seq<RequestId>) {
    && Distinct(dispatch)
    && (forall n :: n in pool ==> Distinct(pool[n].requestList))
    && (forall r :: r in dispatch ==> r in requests)
    && (forall n, r :: Waits(pool, n, r) ==>
          && r in requests && requests[r].cacheNodeId == n && r !in dispatch
          && pool[n].lastUpdate <= requests[r].timestamp)
    && (forall r :: r in requests ==> r in dispatch || Waits(pool, requests[r].cacheNodeId, r))
  }

  /** A request that is about to be answered and whose node still exists finds a result there. */
  ghost predicate DispatchReady(requests: map<RequestId, Request>, pool: Pool, dispatch: seq<RequestId>) {
    forall r :: r in dispatch && r in requests && requests[r].cacheNodeId in pool ==>
      pool[requests[r].cacheNodeId].ready
  }

  /** Node ids and request ids in use have been issued, and belong to whom they were issued for. */
  ghost predicate IdsAgree(s: State) {
    && 0 < s.nextNodeId && 0 < s.nextRequestId
    && (forall n :: n in s.owner <==> 0 < n < s.nextNodeId)
    && (forall r :: r in s.asked <==> 0 < r < s.nextRequestId)
    && (forall n :: n in s.nodePool ==> n in s.owner && s.owner[n] == s.nodePool[n].userPass)
    && (forall r :: r in s.requestPool ==>
          && r in s.asked
          && s.asked[r].sourceId == s.requestPool[r].sourceId && s.asked[r].time == s.requestPool[r].timestamp
          && OwnNode(s, r, s.requestPool[r].cacheNodeId))
  }

  /** `n` is null or a node issued for the user/pass that request `r` asked about. */
  ghost predicate OwnNode(s: State, r: RequestId, n: NodeId)
    requires r in s.asked
  {
    n != 0 ==> n in s.owner && s.owner[n] == s.asked[r].userPass
  }

  /** The last result the server sent for node `n`. */
  ghost function LastReply(replies: seq<Reply>, n: NodeId): Option<AuthInfo> {
    if replies == [] then None
    else if replies[|replies| - 1].cacheNodeId == n then Some(replies[|replies| - 1].info)
    else LastReply(replies[..|replies| - 1], n)
  }

  /** Some server reply for node `n` carried `info`. */
  ghost predicate Replied(replies: seq<Reply>, n: NodeId, info: AuthInfo) {
    Reply(n, info) in replies
  }

  ghost predicate ResultsReplied(pool: Pool, replies: seq<Reply>) {
    forall n :: n in pool && pool[n].ready ==> LastReply(replies, n) == Some(pool[n].info)
  }

  /** The answer went to who asked, and a non-null result is one the server sent for that user/pass. */
  ghost predicate Truthful(s: State, a: Answer) {
    && a.requestId in s.asked
    && a.sourceId == s.asked[a.requestId].sourceId
    && OwnNode(s, a.requestId, a.cacheNodeId)
    && (a.result.Some? ==> a.cacheNodeId != 0 && Replied(s.replies, a.cacheNodeId, a.result.value))
  }

  ghost predicate Answered(answers: seq<Answer>, r: RequestId) {
    exists i :: 0 <= i < |answers| && answers[i].requestId == r
  }

  /** No request is answered twice; one that was accepted is either pending or answered. */
  ghost predicate AnswersAgree(s: State) {
    && (forall i :: 0 <= i < |s.answers| ==> Truthful(s, s.answers[i]))
    && (forall i, j :: 0 <= i < j < |s.answers| ==> s.answers[i].requestId != s.answers[j].requestId)
    && (forall r :: r in s.asked ==> (r in s.requestPool <==> !Answered(s.answers, r)))
  }

  function CountQueries(posted: seq<Query>, n: NodeId): nat {
    if posted == [] then 0
    else CountQueries(posted[..|posted| - 1], n) + if posted[|posted| - 1].cacheNodeId == n then 1 else 0
  }

  /** Coalescing: one query is posted for all who wait on a node, about the node's own user/pass. */
  ghost predicate QueriesAgree(pool: Pool, posted: seq<Query>, owner: map<NodeId, string>) {
    && (forall i :: 0 <= i < |posted| ==>
          posted[i].cacheNodeId in owner && posted[i].userPass == owner[posted[i].cacheNodeId])
    && (forall n :: n in pool && !pool[n].ready ==> CountQueries(posted, n) == 1)
  }

  /** What holds even in the middle of a tick, when overdue nodes have not been removed yet. */
  ghost predicate Core(s: State) {
    && MapAgrees(s.authMap, s.nodePool)
    && LruAgrees(s.lruList, s.nodePool)
    && UpdateAgrees(s.updateList, s.nodePool)
    && TimesAgree(s.nodePool, s.ticker)
    && RequestsPlaced(s.requestPool, s.nodePool, s.dispatchList)
    && DispatchReady(s.requestPool, s.nodePool, s.dispatchList)
    && IdsAgree(s)
    && ResultsReplied(s.nodePool, s.replies)
    && QueriesAgree(s.nodePool, s.posted, s.owner)
    && AnswersAgree(s)
  }

  /** The invariant between two calls. Ticks count from an epoch further back than every timeout. */
  ghost predicate Inv(s: State) {
    && Core(s)
    && NODE_TIMEOUT_MS < s.ticker
    && QueriesYoung(s.updateList, s.nodePool, s.ticker)
  }

  function StartState(now: nat): State {
    State(now, map[], map[], map[], [], [], [], 1, 1, [], [], [], map[], map[])
  }

  // ---------------------------------------------------------------------------------------
  // Single transitions on states
  // ---------------------------------------------------------------------------------------

  function DropKey<K, V>(m: map<K, V>, k: K): map<K, V> {
    m - {k}
  }

  /** Node `n` leaves the map, the pool and both lists; those who waited on it await dispatch. */
  ghost function DropNode(s: State, n: NodeId): State
    requires n in s.nodePool
  {
    s.(authMap := DropKey(s.authMap, s.nodePool[n].userPass), nodePool := DropKey(s.nodePool, n),
       lruList := Unlink(s.lruList, n), updateList := Unlink(s.updateList, n),
       dispatchList := s.dispatchList + s.nodePool[n].requestList)
  }

  // The lists and pools, one agreement at a time. `pool'` differs from `pool` at node `n` only.

  ghost predicate DiffersAt(pool: Pool, pool': Pool, n: NodeId) {
    forall m :: m != n ==> (m in pool <==> m in pool') && (m in pool ==> pool[m] == pool'[m])
  }

  lemma LruDrop(list: seq<NodeId>, pool: Pool, n: NodeId)
    requires LruAgrees(list, pool)
    ensures LruAgrees(Unlink(list, n), DropKey(pool, n))
  {
    UnlinkMembers(list, n);
    var list', pool' := Unlink(list, n), DropKey(pool, n);
    assert forall i :: 0 <= i < |list'| ==> list'[i] in list';
    forall i, j | 0 <= i < j < |list'|
      ensures pool'[list'[i]].lastUsed <= pool'[list'[j]].lastUsed
    {
      UnlinkPair(list, n, i, j);
    }
  }

  lemma LruToTail(list: seq<NodeId>, pool: Pool, n: NodeId, node: CacheNode)
    requires LruAgrees(list, pool)
    requires forall m :: m in pool ==> pool[m].lastUsed <= node.lastUsed
    ensures LruAgrees(Unlink(list, n) + [n], pool[n := node])
  {
    LruDrop(list, pool, n);
    LruAppend(Unlink(list, n), DropKey(pool, n), n, node);
    assert DropKey(pool, n)[n := node] == pool[n := node];
  }

  lemma LruAppend(list: seq<NodeId>, pool: Pool, n: NodeId, node: CacheNode)
    requires LruAgrees(list, pool) && n !in pool
    requires forall m :: m in pool ==> pool[m].lastUsed <= node.lastUsed
    ensures LruAgrees(list + [n], pool[n := node])
  {
    assert forall i :: 0 <= i < |list| ==> list[i] in list;
  }

  lemma UpdateDrop(list: seq<NodeId>, pool: Pool, pool': Pool, n: NodeId)
    requires UpdateAgrees(list, pool) && DiffersAt(pool, pool', n)
    requires n in pool' ==> pool'[n].ready
    ensures UpdateAgrees(Unlink(list, n), pool')
  {
    UnlinkMembers(list, n);
    var list' := Unlink(list, n);
    assert forall i :: 0 <= i < |list'| ==> list'[i] in list';
    forall i, j | 0 <= i < j < |list'|
      ensures pool'[list'[i]].lastUpdate <= pool'[list'[j]].lastUpdate
    {
      UnlinkPair(list, n, i, j);
    }
  }

  lemma UpdateToTail(list: seq<NodeId>, pool: Pool, n: NodeId, node: CacheNode)
    requires UpdateAgrees(list, pool)
    requires forall m :: m in pool ==> pool[m].lastUpdate <= node.lastUpdate
    ensures UpdateAgrees(Unlink(list, n) + [n], pool[n := node])
  {
    UpdateDrop(list, pool, DropKey(pool, n), n);
    UpdateAppend(Unlink(list, n), DropKey(pool, n), n, node);
    assert DropKey(pool, n)[n := node] == pool[n := node];
  }

  lemma UpdateAppend(list: seq<NodeId>, pool: Pool, n: NodeId, node: CacheNode)
    requires UpdateAgrees(list, pool) && n !in pool
    requires forall m :: m in pool ==> pool[m].lastUpdate <= node.lastUpdate
    ensures UpdateAgrees(list + [n], pool[n := node])
  {
    assert forall i :: 0 <= i < |list| ==> list[i] in list;
  }

  /** Moving all who wait on `n` to the dispatch list; `n` itself is gone, or has its result. */
  lemma WaitingMoved(requests: map<RequestId, Request>, pool: Pool, pool': Pool, dispatch: seq<RequestId>, n: NodeId)
    requires n in pool && DiffersAt(pool, pool', n)
    requires n in pool' ==> pool'[n].requestList == [] && pool'[n].ready
    requires RequestsPlaced(requests, pool, dispatch) && DispatchReady(requests, pool, dispatch)
    ensures RequestsPlaced(requests, pool', dispatch + pool[n].requestList)
    ensures DispatchReady(requests, pool', dispatch + pool[n].requestList)
  {
    var dispatch' := dispatch + pool[n].requestList;
    forall r | r in pool[n].requestList
      ensures r in requests && requests[r].cacheNodeId == n && r !in dispatch
    {
      assert Waits(pool, n, r);
    }
    forall m, r | Waits(pool', m, r)
      ensures Waits(pool, m, r) && m != n && r !in dispatch'
    {
      assert Waits(pool, m, r);
    }
    forall r | r in requests
      ensures r in dispatch' || Waits(pool', requests[r].cacheNodeId, r)
    {
      assert r in dispatch || Waits(pool, requests[r].cacheNodeId, r);
    }
    forall i, j | 0 <= i < j < |dispatch'|
      ensures dispatch'[i] != dispatch'[j]
    {
      if i < |dispatch| <= j {
        assert dispatch'[j] in pool[n].requestList;
      }
    }
  }

  lemma AnswersStand(s: State, t: State)
    requires AnswersAgree(s) && s.answers == t.answers && s.requestPool.Keys == t.requestPool.Keys
    requires s.asked == t.asked && s.owner == t.owner
    requires forall x :: x in s.replies ==> x in t.replies
    ensures AnswersAgree(t)
  {
    forall i | 0 <= i < |t.answers| ensures Truthful(t, t.answers[i]) { assert Truthful(s, s.answers[i]); }
    forall r | r in t.asked ensures r in t.requestPool <==> !Answered(t.answers, r) {
      assert r in s.requestPool <==> r in s.requestPool.Keys;
      assert r in t.requestPool <==> r in t.requestPool.Keys;
    }
  }

  lemma IdsStand(s: State, t: State)
    requires IdsAgree(s) && s.asked == t.asked && s.owner == t.owner
    requires forall r :: r in t.requestPool ==> r in s.requestPool && t.requestPool[r] == s.requestPool[r]
    requires s.nextNodeId == t.nextNodeId && s.nextRequestId == t.nextRequestId
    requires forall n :: n in t.nodePool ==> n in s.nodePool && t.nodePool[n].userPass == s.nodePool[n].userPass
    ensures IdsAgree(t)
  {
    forall r | r in t.requestPool ensures OwnNode(t, r, t.requestPool[r].cacheNodeId) {
      assert OwnNode(s, r, s.requestPool[r].cacheNodeId);
    }
  }

  lemma MapDrop(authMap: map<string, NodeId>, pool: Pool, n: NodeId)
    requires MapAgrees(authMap, pool) && n in pool
    ensures MapAgrees(DropKey(authMap, pool[n].userPass), DropKey(pool, n))
  {
  }

  lemma PoolDrop(pool: Pool, n: NodeId, ticker: nat, replies: seq<Reply>, posted: seq<Query>,
                 owner: map<NodeId, string>)
    requires TimesAgree(pool, ticker) && ResultsReplied(pool, replies) && QueriesAgree(pool, posted, owner)
    ensures TimesAgree(DropKey(pool, n), ticker) && ResultsReplied(DropKey(pool, n), replies)
    ensures QueriesAgree(DropKey(pool, n), posted, owner)
  {
  }

  lemma DropNodeKeepsCore(s: State, n: NodeId)
    requires Core(s) && n in s.nodePool
    ensures Core(DropNode(s, n))
  {
    hide MapAgrees, LruAgrees, UpdateAgrees, TimesAgree, RequestsPlaced, DispatchReady;
    hide IdsAgree, ResultsReplied, QueriesAgree, AnswersAgree;
    var t := DropNode(s, n);
    MapDrop(s.authMap, s.nodePool, n);
    LruDrop(s.lruList, s.nodePool, n);
    UpdateDrop(s.updateList, s.nodePool, t.nodePool, n);
    PoolDrop(s.nodePool, n, s.ticker, s.replies, s.posted, s.owner);
    WaitingMoved(s.requestPool, s.nodePool, t.nodePool, s.dispatchList, n);
    IdsStand(s, t);
    AnswersStand(s, t);
  }

  /** What `OnAuthResult` is called with for request `r`. */
  ghost function AnswerFor(s: State, r: RequestId): Answer
    requires r in s.requestPool
  {
    var n := s.requestPool[r].cacheNodeId;
    Answer(r, n, s.requestPool[r].sourceId, if n in s.nodePool then Some(s.nodePool[n].info) else None)
  }

  ghost function AnswerHead(s: State): State
    requires s.dispatchList != [] && s.dispatchList[0] in s.requestPool
  {
    var r := s.dispatchList[0];
    s.(dispatchList := s.dispatchList[1..], requestPool := DropKey(s.requestPool, r),
      answers := s.answers + [AnswerFor(s, r)])
  }

  lemma {:induction false} LastReplyIsReply(replies: seq<Reply>, n: NodeId)
    ensures LastReply(replies, n).Some? ==> Replied(replies, n, LastReply(replies, n).value)
  {
    if replies != [] && replies[|replies| - 1].cacheNodeId != n {
      LastReplyIsReply(replies[..|replies| - 1], n);
    }
  }

  lemma HeadTaken(requests: map<RequestId, Request>, pool: Pool, dispatch: seq<RequestId>)
    requires RequestsPlaced(requests, pool, dispatch) && DispatchReady(requests, pool, dispatch)
    requires dispatch != []
    ensures RequestsPlaced(DropKey(requests, dispatch[0]), pool, dispatch[1..])
    ensures DispatchReady(DropKey(requests, dispatch[0]), pool, dispatch[1..])
  {
    assert dispatch == [dispatch[0]] + dispatch[1..];
  }

  lemma HeadAnswered(s: State, r: RequestId, t: State)
    requires AnswersAgree(s) && IdsAgree(s) && ResultsReplied(s.nodePool, s.replies)
    requires r in s.requestPool
    requires s.requestPool[r].cacheNodeId in s.nodePool ==> s.nodePool[s.requestPool[r].cacheNodeId].ready
    requires t == s.(requestPool := DropKey(s.requestPool, r), answers := s.answers + [AnswerFor(s, r)],
      dispatchList := t.dispatchList)
    ensures AnswersAgree(t)
  {
    var a := AnswerFor(s, r);
    LastReplyIsReply(s.replies, a.cacheNodeId);
    assert Truthful(t, a);
    forall i | 0 <= i < |s.answers|
      ensures Truthful(t, t.answers[i]) && t.answers[i].requestId != r
    {
      assert Truthful(s, s.answers[i]);
    }
    forall x | x in t.asked
      ensures x in t.requestPool <==> !Answered(t.answers, x)
    {
      AnsweredGrows(s.answers, a, x);
    }
  }

  lemma AnsweredGrows(answers: seq<Answer>, a: Answer, x: RequestId)
    ensures Answered(answers + [a], x) <==> Answered(answers, x) || a.requestId == x
  {
    var more := answers + [a];
    assert more[|answers|] == a;
    if Answered(answers, x) {
      var i :| 0 <= i < |answers| && answers[i].requestId == x;
      assert more[i].requestId == x;
    }
  }

  lemma AnswerHeadKeepsCore(s: State)
    requires Core(s) && s.dispatchList != []
    ensures s.dispatchList[0] in s.requestPool && Core(AnswerHead(s))
  {
    var r := s.dispatchList[0];
    assert r in s.dispatchList;
    assert r in s.requestPool
      && (s.requestPool[r].cacheNodeId in s.nodePool ==> s.nodePool[s.requestPool[r].cacheNodeId].ready);
    hide MapAgrees, LruAgrees, UpdateAgrees, TimesAgree, RequestsPlaced, DispatchReady;
    hide IdsAgree, ResultsReplied, QueriesAgree, AnswersAgree;
    HeadTaken(s.requestPool, s.nodePool, s.dispatchList);
    HeadAnswered(s, r, AnswerHead(s));
    IdsStand(s, AnswerHead(s));
  }

  /** The reply to a query: the node has its result, all who waited for it await dispatch. */
  ghost function ReplyArrives(s: State, n: NodeId, info: AuthInfo): State
    requires n in s.nodePool
  {
    var node := s.nodePool[n];
    s.(nodePool := s.nodePool[n := node.(info := info, ready := true, lastUsed := s.ticker, requestList := [])],
       dispatchList := s.dispatchList + node.requestList,
       lruList := Unlink(s.lruList, n) + [n],
       updateList := Unlink(s.updateList, n),
       replies := s.replies + [Reply(n, info)])
  }

  lemma MapStands(authMap: map<string, NodeId>, pool: Pool, n: NodeId, node: CacheNode)
    requires MapAgrees(authMap, pool) && n in pool && node.userPass == pool[n].userPass
    ensures MapAgrees(authMap, pool[n := node])
  {
  }

  lemma ReplyRecorded(pool: Pool, n: NodeId, node: CacheNode, replies: seq<Reply>, posted: seq<Query>,
                      owner: map<NodeId, string>)
    requires ResultsReplied(pool, replies) && QueriesAgree(pool, posted, owner) && node.ready
    ensures ResultsReplied(pool[n := node], replies + [Reply(n, node.info)])
    ensures QueriesAgree(pool[n := node], posted, owner)
  {
    var replies' := replies + [Reply(n, node.info)];
    assert replies'[..|replies'| - 1] == replies;
  }

  lemma ReplyTimes(pool: Pool, list: seq<NodeId>, n: NodeId, node: CacheNode, ticker: nat)
    requires TimesAgree(pool, ticker) && UpdateAgrees(list, pool) && QueriesYoung(list, pool, ticker)
    requires n in pool && node.lastUpdate == pool[n].lastUpdate && node.lastUsed == ticker && node.ready
    requires node.requestList == []
    ensures TimesAgree(pool[n := node], ticker)
    ensures UpdateAgrees(Unlink(list, n), pool[n := node])
    ensures QueriesYoung(Unlink(list, n), pool[n := node], ticker)
    ensures forall m :: m in pool ==> pool[m].lastUsed <= ticker
  {
    UpdateDrop(list, pool, pool[n := node], n);
    UnlinkMembers(list, n);
  }

  lemma ReplyKeepsInv(s: State, n: NodeId, info: AuthInfo)
    requires Inv(s) && n in s.nodePool
    ensures Inv(ReplyArrives(s, n, info))
  {
    hide MapAgrees, LruAgrees, UpdateAgrees, TimesAgree, RequestsPlaced, DispatchReady;
    hide IdsAgree, ResultsReplied, QueriesAgree, AnswersAgree, QueriesYoung;
    var t := ReplyArrives(s, n, info);
    MapStands(s.authMap, s.nodePool, n, t.nodePool[n]);
    ReplyTimes(s.nodePool, s.updateList, n, t.nodePool[n], s.ticker);
    LruToTail(s.lruList, s.nodePool, n, t.nodePool[n]);
    WaitingMoved(s.requestPool, s.nodePool, t.nodePool, s.dispatchList, n);
    IdsStand(s, t);
    AnswersStand(s, t);
    ReplyRecorded(s.nodePool, n, t.nodePool[n], s.replies, s.posted, s.owner);
  }

  // A request arrives

  predicate Stale(node: CacheNode, ticker: nat) {
    node.lastUpdate + RECONFIRM_TIMEOUT_MS <= ticker
  }

  function NewNode(userPass: string): CacheNode {
    CacheNode(userPass, BLANK_INFO, false, 0, 0, [])
  }

  /** The node once request `r` has joined it at time `ticker`: it was used, and asked about again if stale. */
  function Joined(node: CacheNode, r: RequestId, ticker: nat): CacheNode {
    node.(lastUpdate := if Stale(node, ticker) then ticker else node.lastUpdate, lastUsed := ticker,
          requestList := if node.ready then node.requestList else node.requestList + [r])
  }

  /** The request `r` for node `n`, whose record was `node`: it waits there, or for dispatch when
      the node has a result; a stale node is asked about again. */
  ghost function RequestJoins(s: State, sourceId: nat, n: NodeId, node: CacheNode): State {
    var r := s.nextRequestId;
    var query := Stale(node, s.ticker);
    s.(authMap := s.authMap[node.userPass := n],
       nodePool := s.nodePool[n := Joined(node, r, s.ticker)],
       requestPool := s.requestPool[r := Request(s.ticker, sourceId, n)],
       lruList := Unlink(s.lruList, n) + [n],
       updateList := if query then Unlink(s.updateList, n) + [n] else s.updateList,
       dispatchList := if node.ready then s.dispatchList + [r] else s.dispatchList,
       posted := if query then s.posted + [Query(n, node.userPass, s.ticker)] else s.posted,
       nextNodeId := if n == s.nextNodeId then n + 1 else s.nextNodeId,
       owner := s.owner[n := node.userPass],
       nextRequestId := r + 1,
       asked := s.asked[r := Asked(sourceId, node.userPass, s.ticker)])
  }

  /** No node can be made for the request: it awaits dispatch without one. */
  ghost function RequestOrphaned(s: State, sourceId: nat, userPass: string): State {
    var r := s.nextRequestId;
    s.(requestPool := s.requestPool[r := Request(s.ticker, sourceId, 0)], dispatchList := s.dispatchList + [r],
       nextRequestId := r + 1, asked := s.asked[r := Asked(sourceId, userPass, s.ticker)])
  }

  lemma RequestAwaitsDispatch(requests: map<RequestId, Request>, pool: Pool, dispatch: seq<RequestId>, r: RequestId,
                              req: Request)
    requires RequestsPlaced(requests, pool, dispatch) && DispatchReady(requests, pool, dispatch)
    requires r !in requests
    requires req.cacheNodeId in pool ==> pool[req.cacheNodeId].ready
    ensures RequestsPlaced(requests[r := req], pool, dispatch + [r])
    ensures DispatchReady(requests[r := req], pool, dispatch + [r])
  {
    var requests', dispatch' := requests[r := req], dispatch + [r];
    assert Distinct(dispatch');
    forall m, x | Waits(pool, m, x)
      ensures x in requests' && requests'[x].cacheNodeId == m && x !in dispatch'
        && pool[m].lastUpdate <= requests'[x].timestamp
    {
      assert x in requests;
    }
    forall x | x in requests'
      ensures x in dispatch' || Waits(pool, requests'[x].cacheNodeId, x)
    {
      if x == r { assert dispatch'[|dispatch|] == r; }
      else { assert x in dispatch || Waits(pool, requests[x].cacheNodeId, x); }
    }
  }

  lemma RequestWaits(requests: map<RequestId, Request>, pool: Pool, dispatch: seq<RequestId>,
                     r: RequestId, req: Request, n: NodeId, node: CacheNode)
    requires RequestsPlaced(requests, pool, dispatch) && DispatchReady(requests, pool, dispatch)
    requires r !in requests && req.cacheNodeId == n && node.lastUpdate <= req.timestamp
    requires n in pool ==>
      node.requestList == pool[n].requestList + [r] && node.lastUpdate == pool[n].lastUpdate && !pool[n].ready
    requires n !in pool ==> node.requestList == [r] && forall x :: x in requests ==> requests[x].cacheNodeId != n
    ensures RequestsPlaced(requests[r := req], pool[n := node], dispatch)
    ensures DispatchReady(requests[r := req], pool[n := node], dispatch)
  {
    var requests', pool' := requests[r := req], pool[n := node];
    forall m, x | Waits(pool', m, x)
      ensures x in requests' && requests'[x].cacheNodeId == m && x !in dispatch
        && pool'[m].lastUpdate <= requests'[x].timestamp
    {
      if x != r { assert Waits(pool, m, x); }
      else if m != n { assert Waits(pool, m, x); }
    }
    if n in pool {
      forall x | x in pool[n].requestList ensures x != r { assert Waits(pool, n, x); }
    }
    forall x | x in requests'
      ensures x in dispatch || Waits(pool', requests'[x].cacheNodeId, x)
    {
      if x == r { assert node.requestList[|node.requestList| - 1] == r; }
      else { assert x in dispatch || Waits(pool, requests[x].cacheNodeId, x); }
    }
  }

  /** A node on which nobody's wait changes may get a new time of update if nobody waits on it. */
  lemma NodeRefreshed(requests: map<RequestId, Request>, pool: Pool, dispatch: seq<RequestId>, n: NodeId,
                      node: CacheNode)
    requires RequestsPlaced(requests, pool, dispatch) && DispatchReady(requests, pool, dispatch)
    requires n in pool && node.requestList == pool[n].requestList == [] && node.ready
    ensures RequestsPlaced(requests, pool[n := node], dispatch)
    ensures DispatchReady(requests, pool[n := node], dispatch)
  {
    WaitingMoved(requests, pool, pool[n := node], dispatch, n);
    assert dispatch + [] == dispatch;
  }

  /** The parts of the invariant that the manager's own steps lean on. */
  lemma CoreFacts(s: State, n: NodeId)
    requires Core(s)
    ensures Distinct(s.updateList) && Distinct(s.lruList)
    ensures n in s.updateList || n in s.lruList ==> n in s.nodePool
    ensures n in s.nodePool ==>
      s.nodePool[n].userPass in s.authMap && s.authMap[s.nodePool[n].userPass] == n && n in s.owner
        && s.owner[n] == s.nodePool[n].userPass
    ensures 0 < s.nextNodeId && s.nextNodeId !in s.nodePool && 0 !in s.nodePool
  {
  }

  lemma MapFacts(s: State, userPass: string)
    requires Core(s) && userPass in s.authMap
    ensures s.authMap[userPass] in s.nodePool && s.nodePool[s.authMap[userPass]].userPass == userPass
  {
  }

  /** `n` with record `node` is what the request finds in the map, or what it makes. */
  ghost predicate FoundOrMade(s: State, n: NodeId, node: CacheNode) {
    if node.userPass in s.authMap then n == s.authMap[node.userPass] && n in s.nodePool && node == s.nodePool[n]
    else n == s.nextNodeId && node == NewNode(node.userPass)
  }

  lemma JoinFacts(s: State, n: NodeId, node: CacheNode)
    requires Inv(s) && FoundOrMade(s, n, node)
    ensures node.userPass !in s.authMap ==>
      n !in s.nodePool && n !in s.owner && n !in s.updateList && Stale(node, s.ticker)
    ensures node.userPass !in s.authMap ==> forall x :: x in s.requestPool ==> s.requestPool[x].cacheNodeId != n
    ensures n in s.nodePool && !node.ready ==> !Stale(node, s.ticker)
    ensures node.lastUpdate <= s.ticker
    ensures 0 < n && (n in s.owner ==> s.owner[n] == node.userPass)
    ensures s.nextRequestId !in s.requestPool
    ensures n in s.nodePool ==> node == s.nodePool[n] && n in s.owner
    ensures n in s.owner || n == s.nextNodeId
    ensures node.requestList != [] ==> !node.ready
    ensures forall m :: m in s.nodePool ==> s.nodePool[m].lastUpdate <= s.ticker && s.nodePool[m].lastUsed <= s.ticker
  {
    if node.userPass !in s.authMap {
      forall x | x in s.requestPool ensures s.requestPool[x].cacheNodeId != n {
        assert OwnNode(s, x, s.requestPool[x].cacheNodeId);
      }
    }
  }

  lemma MapJoins(authMap: map<string, NodeId>, pool: Pool, n: NodeId, node: CacheNode)
    requires MapAgrees(authMap, pool)
    requires n in pool ==> pool[n].userPass == node.userPass
    requires n !in pool ==> node.userPass !in authMap
    ensures MapAgrees(authMap[node.userPass := n], pool[n := node])
  {
  }

  lemma UpdateStays(list: seq<NodeId>, pool: Pool, n: NodeId, node: CacheNode, ticker: nat)
    requires UpdateAgrees(list, pool) && QueriesYoung(list, pool, ticker)
    requires n in pool && node.lastUpdate == pool[n].lastUpdate && node.ready == pool[n].ready
    ensures UpdateAgrees(list, pool[n := node]) && QueriesYoung(list, pool[n := node], ticker)
  {
    assert forall i :: 0 <= i < |list| ==> list[i] in list;
  }

  lemma YoungestAtTail(list: seq<NodeId>, pool: Pool, n: NodeId, node: CacheNode, ticker: nat)
    requires QueriesYoung(list, pool, ticker) && Distinct(list)
    requires node.lastUpdate == ticker
    ensures QueriesYoung(Unlink(list, n) + [n], pool[n := node], ticker)
  {
    UnlinkMembers(list, n);
  }

  lemma NodeTimes(pool: Pool, n: NodeId, node: CacheNode, ticker: nat)
    requires TimesAgree(pool, ticker)
    requires node.lastUpdate <= node.lastUsed <= ticker && (node.requestList != [] ==> !node.ready)
    ensures TimesAgree(pool[n := node], ticker)
  {
  }

  lemma {:induction false} NeverPosted(posted: seq<Query>, n: NodeId)
    requires forall i :: 0 <= i < |posted| ==> posted[i].cacheNodeId != n
    ensures CountQueries(posted, n) == 0
  {
    if posted != [] { NeverPosted(posted[..|posted| - 1], n); }
  }

  lemma QueriesJoin(pool: Pool, posted: seq<Query>, owner: map<NodeId, string>, n: NodeId, node: CacheNode, q: Query)
    requires QueriesAgree(pool, posted, owner)
    requires n in pool ==> n in owner && owner[n] == node.userPass && node.ready == pool[n].ready
    requires n !in pool ==> n !in owner
    requires q.cacheNodeId == n && q.userPass == node.userPass
    ensures n in pool ==> QueriesAgree(pool[n := node], posted, owner)
    ensures (n in pool && node.ready) || n !in pool ==>
      QueriesAgree(pool[n := node], posted + [q], owner[n := node.userPass])
  {
    var posted' := posted + [q];
    assert posted'[..|posted'| - 1] == posted;
    if n !in pool { NeverPosted(posted, n); }
  }

  lemma RequestIdsJoin(s: State, t: State, r: RequestId, n: NodeId, userPass: string)
    requires IdsAgree(s) && r == s.nextRequestId && t.nextRequestId == r + 1
    requires t.nodePool.Keys <= s.nodePool.Keys + {n}
    requires forall m :: m in t.nodePool ==>
      t.nodePool[m].userPass == if m == n then userPass else s.nodePool[m].userPass
    requires n != 0 && (n == s.nextNodeId || (n in s.owner && s.owner[n] == userPass))
    requires t.nextNodeId == if n == s.nextNodeId then n + 1 else s.nextNodeId
    requires t.owner == s.owner[n := userPass]
    requires r in t.requestPool && t.requestPool == s.requestPool[r := t.requestPool[r]]
    requires t.requestPool[r].cacheNodeId == n
    requires t.asked == s.asked[r := Asked(t.requestPool[r].sourceId, userPass, t.requestPool[r].timestamp)]
    ensures IdsAgree(t)
  {
    forall x | x in t.requestPool
      ensures x in t.asked && t.asked[x].sourceId == t.requestPool[x].sourceId
        && t.asked[x].time == t.requestPool[x].timestamp
      ensures OwnNode(t, x, t.requestPool[x].cacheNodeId)
    {
      if x != r { assert OwnNode(s, x, s.requestPool[x].cacheNodeId); }
    }
  }

  lemma AnswersJoin(s: State, t: State, r: RequestId)
    requires AnswersAgree(s) && IdsAgree(s) && r == s.nextRequestId
    requires r in t.requestPool && t.requestPool == s.requestPool[r := t.requestPool[r]]
    requires r in t.asked && t.asked == s.asked[r := t.asked[r]]
    requires t.answers == s.answers && t.replies == s.replies
    requires forall n :: n in s.owner ==> n in t.owner && t.owner[n] == s.owner[n]
    ensures AnswersAgree(t)
  {
    forall i | 0 <= i < |t.answers|
      ensures Truthful(t, t.answers[i]) && t.answers[i].requestId != r
    {
      assert Truthful(s, s.answers[i]);
    }
  }

  lemma RequestJoinsKeepsInv(s: State, sourceId: nat, n: NodeId, node: CacheNode)
    requires Inv(s) && FoundOrMade(s, n, node)
    ensures Inv(RequestJoins(s, sourceId, n, node))
    ensures RequestJoins(s, sourceId, n, node).asked ==
      s.asked[s.nextRequestId := Asked(sourceId, node.userPass, s.ticker)]
    ensures RequestJoins(s, sourceId, n, node).ticker == s.ticker
      && RequestJoins(s, sourceId, n, node).replies == s.replies
  {
    hide MapAgrees, LruAgrees, UpdateAgrees, TimesAgree, RequestsPlaced, DispatchReady;
    hide IdsAgree, ResultsReplied, QueriesAgree, AnswersAgree, QueriesYoung;
    var t := RequestJoins(s, sourceId, n, node);
    var node' := t.nodePool[n];
    JoinFacts(s, n, node);
    MapJoins(s.authMap, s.nodePool, n, node');
    LruToTail(s.lruList, s.nodePool, n, node');
    JoinRequests(s, sourceId, n, node);
    JoinTimes(s, sourceId, n, node);
    JoinQueries(s, sourceId, n, node);
    JoinHistory(s, sourceId, n, node);
  }

  lemma JoinRequests(s: State, sourceId: nat, n: NodeId, node: CacheNode)
    requires Inv(s) && FoundOrMade(s, n, node)
    ensures var t := RequestJoins(s, sourceId, n, node);
      RequestsPlaced(t.requestPool, t.nodePool, t.dispatchList)
        && DispatchReady(t.requestPool, t.nodePool, t.dispatchList)
  {
    hide MapAgrees, LruAgrees, UpdateAgrees, TimesAgree, RequestsPlaced, DispatchReady;
    hide IdsAgree, ResultsReplied, QueriesAgree, AnswersAgree, QueriesYoung;
    var t := RequestJoins(s, sourceId, n, node);
    var r, node' := s.nextRequestId, t.nodePool[n];
    JoinFacts(s, n, node);
    if node.ready {
      NodeRefreshed(s.requestPool, s.nodePool, s.dispatchList, n, node');
      RequestAwaitsDispatch(s.requestPool, t.nodePool, s.dispatchList, r, t.requestPool[r]);
    } else {
      RequestWaits(s.requestPool, s.nodePool, s.dispatchList, r, t.requestPool[r], n, node');
    }
  }

  lemma JoinTimes(s: State, sourceId: nat, n: NodeId, node: CacheNode)
    requires Inv(s) && FoundOrMade(s, n, node)
    ensures var t := RequestJoins(s, sourceId, n, node);
      && UpdateAgrees(t.updateList, t.nodePool) && QueriesYoung(t.updateList, t.nodePool, t.ticker)
      && TimesAgree(t.nodePool, t.ticker)
  {
    hide MapAgrees, LruAgrees, UpdateAgrees, TimesAgree, RequestsPlaced, DispatchReady;
    hide IdsAgree, ResultsReplied, QueriesAgree, AnswersAgree, QueriesYoung;
    var t := RequestJoins(s, sourceId, n, node);
    var node' := t.nodePool[n];
    JoinFacts(s, n, node);
    CoreFacts(s, n);
    NodeTimes(s.nodePool, n, node', s.ticker);
    if Stale(node, s.ticker) {
      UpdateToTail(s.updateList, s.nodePool, n, node');
      YoungestAtTail(s.updateList, s.nodePool, n, node', s.ticker);
    } else {
      UpdateStays(s.updateList, s.nodePool, n, node', s.ticker);
    }
  }

  lemma JoinQueries(s: State, sourceId: nat, n: NodeId, node: CacheNode)
    requires Inv(s) && FoundOrMade(s, n, node)
    ensures var t := RequestJoins(s, sourceId, n, node);
      QueriesAgree(t.nodePool, t.posted, t.owner) && ResultsReplied(t.nodePool, t.replies)
  {
    hide MapAgrees, LruAgrees, UpdateAgrees, TimesAgree, RequestsPlaced, DispatchReady;
    hide IdsAgree, QueriesAgree, AnswersAgree, QueriesYoung;
    var t := RequestJoins(s, sourceId, n, node);
    JoinFacts(s, n, node);
    CoreFacts(s, n);
    assert n in s.owner ==> s.owner[n := node.userPass] == s.owner;
    QueriesJoin(s.nodePool, s.posted, s.owner, n, t.nodePool[n], Query(n, node.userPass, s.ticker));
  }

  lemma IdsKeys(s: State)
    requires IdsAgree(s)
    ensures s.nextRequestId !in s.asked
    ensures forall n :: n in s.owner ==> 0 < n < s.nextNodeId
    ensures forall n :: n in s.nodePool ==> n in s.owner && s.owner[n] == s.nodePool[n].userPass
  {
  }

  lemma JoinHistory(s: State, sourceId: nat, n: NodeId, node: CacheNode)
    requires Inv(s) && FoundOrMade(s, n, node)
    ensures IdsAgree(RequestJoins(s, sourceId, n, node)) && AnswersAgree(RequestJoins(s, sourceId, n, node))
  {
    hide MapAgrees, LruAgrees, UpdateAgrees, TimesAgree, RequestsPlaced, DispatchReady;
    hide IdsAgree, ResultsReplied, QueriesAgree, AnswersAgree, QueriesYoung;
    var t := RequestJoins(s, sourceId, n, node);
    JoinFacts(s, n, node);
    IdsKeys(s);
    RequestIdsJoin(s, t, s.nextRequestId, n, node.userPass);
    AnswersJoin(s, t, s.nextRequestId);
  }

  lemma OrphanIds(s: State, sourceId: nat, userPass: string)
    requires IdsAgree(s)
    ensures IdsAgree(RequestOrphaned(s, sourceId, userPass))
    ensures 0 !in s.nodePool && s.nextRequestId !in s.requestPool
  {
    var t := RequestOrphaned(s, sourceId, userPass);
    forall x | x in t.requestPool ensures x in t.asked && OwnNode(t, x, t.requestPool[x].cacheNodeId) {
      if x != s.nextRequestId { assert OwnNode(s, x, s.requestPool[x].cacheNodeId); }
    }
  }

  lemma RequestOrphanedKeepsInv(s: State, sourceId: nat, userPass: string)
    requires Inv(s)
    ensures Inv(RequestOrphaned(s, sourceId, userPass))
  {
    hide MapAgrees, LruAgrees, UpdateAgrees, TimesAgree, RequestsPlaced, DispatchReady;
    hide IdsAgree, ResultsReplied, QueriesAgree, AnswersAgree, QueriesYoung;
    var t := RequestOrphaned(s, sourceId, userPass);
    var r := s.nextRequestId;
    OrphanIds(s, sourceId, userPass);
    RequestAwaitsDispatch(s.requestPool, s.nodePool, s.dispatchList, r, t.requestPool[r]);
    AnswersJoin(s, t, r);
  }

  /** The first steps of `RequestAuth` on a state: the request's record, then the node if there is none. */
  ghost function RequestRecorded(s: State, sourceId: nat, userPass: string): State {
    var r := s.nextRequestId;
    s.(requestPool := s.requestPool[r := Request(s.ticker, sourceId, 0)], nextRequestId := r + 1,
       asked := s.asked[r := Asked(sourceId, userPass, s.ticker)])
  }

  ghost function NodeFound(s: State, userPass: string, room: bool): State {
    var n := s.nextNodeId;
    if userPass in s.authMap || !room then s
    else s.(nodePool := s.nodePool[n := NewNode(userPass)], authMap := s.authMap[userPass := n],
            nextNodeId := n + 1, owner := s.owner[n := userPass])
  }

  /** The remaining steps of `RequestAuth` on a state. */
  ghost function RequestEnqueued(s: State, r: RequestId, n: NodeId): State
    requires n in s.nodePool && r in s.requestPool
  {
    var t := s.(requestPool := s.requestPool[r := s.requestPool[r].(cacheNodeId := n)]);
    if s.nodePool[n].ready then t.(dispatchList := s.dispatchList + [r])
    else t.(nodePool := s.nodePool[n := s.nodePool[n].(requestList := s.nodePool[n].requestList + [r])])
  }

  ghost function NodeUsed(s: State, n: NodeId, userPass: string): State
    requires n in s.nodePool
  {
    var node := s.nodePool[n];
    if Stale(node, s.ticker) then
      s.(nodePool := s.nodePool[n := node.(lastUpdate := s.ticker, lastUsed := s.ticker)],
         lruList := Unlink(s.lruList, n) + [n], updateList := Unlink(s.updateList, n) + [n],
         posted := s.posted + [Query(n, userPass, s.ticker)])
    else
      s.(nodePool := s.nodePool[n := node.(lastUsed := s.ticker)], lruList := Unlink(s.lruList, n) + [n])
  }

  ghost function NodeJoined(s: State, r: RequestId, n: NodeId, userPass: string): State
    requires n in s.nodePool && r in s.requestPool
  {
    NodeUsed(RequestEnqueued(s, r, n), n, userPass)
  }

  /** The whole effect of accepting a request; `room` tells whether the pool can hold one more node. */
  ghost function RequestAccepted(s: State, sourceId: nat, userPass: string, room: bool): State {
    if userPass in s.authMap && s.authMap[userPass] in s.nodePool then
      RequestJoins(s, sourceId, s.authMap[userPass], s.nodePool[s.authMap[userPass]])
    else if room then RequestJoins(s, sourceId, s.nextNodeId, NewNode(userPass))
    else RequestOrphaned(s, sourceId, userPass)
  }

  /** Accepting a request touches the record of what was asked in one place. */
  ghost predicate AskedMore(s: State, t: State, sourceId: nat, userPass: string) {
    t.asked == s.asked[s.nextRequestId := Asked(sourceId, userPass, s.ticker)] && t.ticker == s.ticker
      && t.replies == s.replies
  }

  lemma AcceptedTicker(s: State, sourceId: nat, userPass: string, room: bool)
    ensures RequestAccepted(s, sourceId, userPass, room).ticker == s.ticker
  {
    hide Unlink, Joined, NewNode;
  }

  lemma RequestAcceptedKeepsInv(s: State, sourceId: nat, userPass: string, room: bool)
    requires Inv(s)
    ensures Inv(RequestAccepted(s, sourceId, userPass, room))
    ensures AskedMore(s, RequestAccepted(s, sourceId, userPass, room), sourceId, userPass)
  {
    hide Core;
    if userPass in s.authMap {
      MapFacts(s, userPass);
      RequestJoinsKeepsInv(s, sourceId, s.authMap[userPass], s.nodePool[s.authMap[userPass]]);
    } else if room {
      RequestJoinsKeepsInv(s, sourceId, s.nextNodeId, NewNode(userPass));
    } else {
      RequestOrphanedKeepsInv(s, sourceId, userPass);
    }
  }

  lemma JoinedAtFound(s: State, sourceId: nat, userPass: string)
    requires Core(s) && userPass in s.authMap
    ensures var n := s.authMap[userPass];
      && n in s.nodePool && n != 0
      && NodeJoined(RequestRecorded(s, sourceId, userPass), s.nextRequestId, n, userPass)
         == RequestJoins(s, sourceId, n, s.nodePool[n])
  {
    hide Core, Unlink;
    var n := s.authMap[userPass];
    MapFacts(s, userPass);
    CoreFacts(s, n);
    CoreFacts(s, 0);
    assert s.authMap[userPass := n] == s.authMap;
    assert s.owner[n := userPass] == s.owner;
    assert n != s.nextNodeId;
    var u := NodeJoined(RequestRecorded(s, sourceId, userPass), s.nextRequestId, n, userPass);
    assert u.nodePool == s.nodePool[n := Joined(s.nodePool[n], s.nextRequestId, s.ticker)];
  }

  lemma JoinedAtMade(s: State, sourceId: nat, userPass: string)
    requires Core(s) && userPass !in s.authMap
    ensures NodeJoined(NodeFound(RequestRecorded(s, sourceId, userPass), userPass, true), s.nextRequestId,
      s.nextNodeId, userPass)
         == RequestJoins(s, sourceId, s.nextNodeId, NewNode(userPass))
  {
    hide Core, Unlink;
    var n, node := s.nextNodeId, NewNode(userPass);
    var u := NodeJoined(NodeFound(RequestRecorded(s, sourceId, userPass), userPass, true), s.nextRequestId, n,
      userPass);
    assert u.nodePool == s.nodePool[n := Joined(node, s.nextRequestId, s.ticker)];
  }

  /** The steps of `RequestAuth` for an accepted request, one after the other. */
  ghost function RequestSteps(s: State, sourceId: nat, userPass: string, room: bool): State {
    var r := s.nextRequestId;
    var found := NodeFound(RequestRecorded(s, sourceId, userPass), userPass, room);
    if userPass in s.authMap && s.authMap[userPass] in found.nodePool then
      NodeJoined(found, r, s.authMap[userPass], userPass)
    else if room && s.nextNodeId in found.nodePool then NodeJoined(found, r, s.nextNodeId, userPass)
    else found.(dispatchList := found.dispatchList + [r])
  }

  /** Whoever is in the map has a node, and no node has the null id. */
  ghost predicate NodesKnown(s: State) {
    0 < s.nextNodeId && forall u :: u in s.authMap ==> s.authMap[u] != 0 && s.authMap[u] in s.nodePool
  }

  lemma CoreKnowsNodes(s: State)
    requires Core(s)
    ensures NodesKnown(s)
  {
    CoreFacts(s, 0);
    hide Core;
    forall u | u in s.authMap ensures s.authMap[u] != 0 && s.authMap[u] in s.nodePool {
      MapFacts(s, u);
      CoreFacts(s, s.authMap[u]);
    }
  }

  /** The steps of `RequestAuth` add up to `RequestAccepted`, and keep the invariant. */
  lemma StepsAreAccepted(s: State, sourceId: nat, userPass: string, room: bool)
    requires Inv(s)
    ensures RequestSteps(s, sourceId, userPass, room) == RequestAccepted(s, sourceId, userPass, room)
    ensures Inv(RequestAccepted(s, sourceId, userPass, room)) && NodesKnown(s)
  {
    hide Inv, Core, NodeJoined, RequestJoins;
    InvFacts(s);
    CoreKnowsNodes(s);
    RequestAcceptedKeepsInv(s, sourceId, userPass, room);
    if userPass in s.authMap {
      JoinedAtFound(s, sourceId, userPass);
    } else {
      JoinedAtMade(s, sourceId, userPass);
    }
  }

  // ---------------------------------------------------------------------------------------
  // Time
  // ---------------------------------------------------------------------------------------

  /** The node's query has been out for longer than the request timeout. */
  ghost predicate Overdue(s: State, n: NodeId, now: nat) {
    n in s.nodePool && n in s.updateList && s.nodePool[n].lastUpdate + REQUEST_TIMEOUT_MS < now
  }

  ghost predicate Idle(s: State, n: NodeId, now: nat) {
    n in s.nodePool && s.nodePool[n].lastUsed + NODE_TIMEOUT_MS < now
  }

  /** The nodes that outlive a tick at time `now`. */
  ghost function Survivors(s: State, now: nat): Pool {
    map n | n in s.nodePool && !Overdue(s, n, now) && !Idle(s, n, now) :: s.nodePool[n]
  }

  /** Why the assertion in the tick holds: once the overdue nodes are gone, a node on which requests
      wait has no result, so it is in the update list, was asked about less than the request timeout
      ago, and was used no earlier than that. */
  lemma WaitedOnIsNotIdle(s: State, n: NodeId)
    requires Core(s) && QueriesYoung(s.updateList, s.nodePool, s.ticker)
    requires n in s.nodePool && s.nodePool[n].requestList != []
    ensures !Idle(s, n, s.ticker)
  {
    assert n in s.updateList;
  }

  /** With nothing left to dispatch, whoever is still pending asked less than the request timeout ago. */
  lemma PendingIsYoung(s: State, r: RequestId)
    requires Inv(s) && s.dispatchList == [] && r in s.requestPool
    ensures s.ticker <= s.requestPool[r].timestamp + REQUEST_TIMEOUT_MS
    ensures Waits(s.nodePool, s.requestPool[r].cacheNodeId, r)
  {
    var n := s.requestPool[r].cacheNodeId;
    assert Waits(s.nodePool, n, r);
    assert n in s.updateList;
  }

  /** Popping due heads off a sorted list leaves nothing due behind. */
  lemma NoneOverdue(s: State)
    requires Core(s)
    requires s.updateList == [] || s.updateList[0] !in s.nodePool
             || s.ticker <= s.nodePool[s.updateList[0]].lastUpdate + REQUEST_TIMEOUT_MS
    ensures QueriesYoung(s.updateList, s.nodePool, s.ticker)
  {
    assert s.updateList != [] ==> s.updateList[0] in s.updateList;
    forall n | n in s.updateList ensures s.ticker <= s.nodePool[n].lastUpdate + REQUEST_TIMEOUT_MS {
      var i :| 0 <= i < |s.updateList| && s.updateList[i] == n;
      if i > 0 { assert s.nodePool[s.updateList[0]].lastUpdate <= s.nodePool[s.updateList[i]].lastUpdate; }
    }
  }

  lemma NoneIdle(s: State)
    requires Core(s)
    requires s.lruList == [] || s.lruList[0] !in s.nodePool
             || s.ticker <= s.nodePool[s.lruList[0]].lastUsed + NODE_TIMEOUT_MS
    ensures forall n :: n in s.nodePool ==> s.ticker <= s.nodePool[n].lastUsed + NODE_TIMEOUT_MS
  {
    assert s.lruList != [] ==> s.lruList[0] in s.lruList;
    forall n | n in s.nodePool ensures s.ticker <= s.nodePool[n].lastUsed + NODE_TIMEOUT_MS {
      assert n in s.lruList;
      var i :| 0 <= i < |s.lruList| && s.lruList[i] == n;
      if i > 0 { assert s.nodePool[s.lruList[0]].lastUsed <= s.nodePool[s.lruList[i]].lastUsed; }
    }
  }

  /** `t` is `s` after some nodes were removed, each overdue or idle at `t`'s time; no request was answered. */
  ghost predicate Pruned(s: State, t: State, idleToo: bool) {
    && Core(t)
    && t == s.(ticker := t.ticker, authMap := t.authMap, nodePool := t.nodePool, lruList := t.lruList,
               updateList := t.updateList, dispatchList := t.dispatchList)
    && (forall n :: n in t.nodePool ==>
      n in s.nodePool && t.nodePool[n] == s.nodePool[n] && (n in t.updateList <==> n in s.updateList))
    && (forall n :: n in s.nodePool && n !in t.nodePool ==>
      Overdue(s, n, t.ticker) || (idleToo && Idle(s, n, t.ticker)))
  }

  lemma PruneMore(s: State, t: State, n: NodeId, idleToo: bool)
    requires Pruned(s, t, idleToo) && n in t.nodePool
    requires Overdue(t, n, t.ticker) || (idleToo && Idle(t, n, t.ticker))
    ensures Pruned(s, DropNode(t, n), idleToo)
  {
    hide Core;
    CoreFacts(t, n);
    DropNodeKeepsCore(t, n);
    UnlinkMembers(t.updateList, n);
  }

  lemma TickedKeepsCore(s: State, now: nat)
    requires Core(s) && s.ticker <= now
    ensures Pruned(s, s.(ticker := now), false)
  {
    var t := s.(ticker := now);
    assert TimesAgree(t.nodePool, now);
    hide MapAgrees, LruAgrees, UpdateAgrees, TimesAgree, RequestsPlaced, DispatchReady;
    hide ResultsReplied, QueriesAgree;
    IdsStand(s, t);
    AnswersStand(s, t);
  }

  /** `t` is `s` after some of the requests at the head of the dispatch list were answered. */
  ghost predicate Dispatched(s: State, t: State) {
    && Core(t)
    && t == s.(requestPool := t.requestPool, dispatchList := t.dispatchList, answers := t.answers)
    && s.answers <= t.answers
    && (forall r :: r in t.requestPool ==> r in s.requestPool && t.requestPool[r] == s.requestPool[r])
    && (forall i :: |s.answers| <= i < |t.answers| ==>
          t.answers[i].requestId in s.requestPool && t.answers[i] == AnswerFor(s, t.answers[i].requestId))
    && AnsweredInOrder(s, t)
  }

  /** The new answers are those at the front of the dispatch list, in its order. */
  ghost predicate AnsweredInOrder(s: State, t: State) {
    var n := |t.answers| - |s.answers|;
    && 0 <= n <= |s.dispatchList| && t.dispatchList == s.dispatchList[n..]
    && forall i :: 0 <= i < n ==> t.answers[|s.answers| + i].requestId == s.dispatchList[i]
  }

  lemma OneMoreInOrder(s: State, t: State)
    requires AnsweredInOrder(s, t) && s.answers <= t.answers
    requires t.dispatchList != [] && t.dispatchList[0] in t.requestPool
    ensures AnsweredInOrder(s, AnswerHead(t))
  {
    var n := |t.answers| - |s.answers|;
    assert s.dispatchList[n..][1..] == s.dispatchList[n + 1..];
  }

  lemma DispatchMore(s: State, t: State)
    requires Dispatched(s, t) && t.dispatchList != []
    ensures t.dispatchList[0] in t.requestPool && Dispatched(s, AnswerHead(t))
  {
    hide Core, AnsweredInOrder;
    AnswerHeadKeepsCore(t);
    OneMoreInOrder(s, t);
    assert AnswerFor(t, t.dispatchList[0]) == AnswerFor(s, t.dispatchList[0]);
  }

  ghost predicate HeadsKnown(s: State) {
    && (s.updateList != [] ==> s.updateList[0] in s.nodePool)
    && (s.lruList != [] ==> s.lruList[0] in s.nodePool)
  }

  lemma CoreKnowsHeads(s: State)
    requires Core(s)
    ensures HeadsKnown(s)
  {
    assert s.updateList != [] ==> s.updateList[0] in s.updateList;
    assert s.lruList != [] ==> s.lruList[0] in s.lruList;
  }

  lemma PrunedFacts(s: State, t: State, idleToo: bool)
    requires Pruned(s, t, idleToo)
    ensures Core(t) && Pruned(s, t, true) && Dispatched(t, t) && HeadsKnown(t)
  {
    CoreKnowsHeads(t);
    hide Core;
  }

  lemma PrunedExactly(s: State, t: State)
    requires Pruned(s, t, true) && QueriesYoung(t.updateList, t.nodePool, t.ticker)
    requires forall n :: n in t.nodePool ==> t.ticker <= t.nodePool[n].lastUsed + NODE_TIMEOUT_MS
    ensures t.nodePool == Survivors(s, t.ticker)
  {
    hide Core;
  }

  lemma WaitersPending(s: State, n: NodeId, r: RequestId)
    requires Core(s) && Waits(s.nodePool, n, r)
    ensures r in s.requestPool
  {
  }

  /** What a tick leaves: `s` before it, `s2` with the nodes removed, `t` with everybody answered. */
  lemma EverybodyServed(s: State, s2: State, t: State)
    requires Inv(s) && Pruned(s, s2, true) && s.ticker <= s2.ticker
    requires QueriesYoung(s2.updateList, s2.nodePool, s2.ticker) && Dispatched(s2, t) && t.dispatchList == []
    ensures Inv(t) && t.nodePool == s2.nodePool && t.ticker == s2.ticker
    ensures forall r :: r in s.requestPool ==>
      (r in t.requestPool <==> Waits(t.nodePool, s.requestPool[r].cacheNodeId, r))
    ensures forall r :: r in t.requestPool ==>
      r in s.requestPool && t.requestPool[r] == s.requestPool[r]
        && t.ticker <= t.requestPool[r].timestamp + REQUEST_TIMEOUT_MS
    ensures s.answers <= t.answers && |t.answers| == |s.answers| + |s2.dispatchList|
    ensures forall i :: 0 <= i < |s2.dispatchList| ==> t.answers[|s.answers| + i].requestId == s2.dispatchList[i]
    ensures forall i :: |s.answers| <= i < |t.answers| ==>
      && t.answers[i].requestId in s.requestPool
      && t.answers[i].sourceId == s.requestPool[t.answers[i].requestId].sourceId
      && t.answers[i].cacheNodeId == s.requestPool[t.answers[i].requestId].cacheNodeId
      && t.answers[i].result == (if t.answers[i].cacheNodeId in t.nodePool then
                                   Some(t.nodePool[t.answers[i].cacheNodeId].info) else None)
    ensures t.posted == s.posted && t.asked == s.asked && t.owner == s.owner && t.replies == s.replies
  {
    hide Core;
    forall r | r in t.requestPool
      ensures Waits(t.nodePool, t.requestPool[r].cacheNodeId, r)
      ensures t.ticker <= t.requestPool[r].timestamp + REQUEST_TIMEOUT_MS
    {
      PendingIsYoung(t, r);
    }
    forall r | r in s.requestPool && Waits(t.nodePool, s.requestPool[r].cacheNodeId, r)
      ensures r in t.requestPool
    {
      WaitersPending(t, s.requestPool[r].cacheNodeId, r);
    }
  }

  // ---------------------------------------------------------------------------------------
  // The tick
  // ---------------------------------------------------------------------------------------

  ghost predicate OverdueHead(s: State) {
    && s.updateList != [] && s.updateList[0] in s.nodePool
    && s.nodePool[s.updateList[0]].lastUpdate + REQUEST_TIMEOUT_MS < s.ticker
  }

  ghost predicate IdleHead(s: State) {
    && s.lruList != [] && s.lruList[0] in s.nodePool
    && s.nodePool[s.lruList[0]].lastUsed + NODE_TIMEOUT_MS < s.ticker
  }

  /** The first loop: nodes whose query is overdue go, oldest query first. */
  ghost function DropOverdue(s: State): State
    decreases |s.updateList|
  {
    if OverdueHead(s) then DropOverdue(DropNode(s, s.updateList[0])) else s
  }

  /** The second loop: nodes that nobody used go, least recently used first. */
  ghost function DropIdle(s: State): State
    decreases |s.lruList|
  {
    if IdleHead(s) then DropIdle(DropNode(s, s.lruList[0])) else s
  }

  /** The third loop: everybody in the dispatch list is answered, in order. */
  ghost function DispatchAll(s: State): State
    decreases |s.dispatchList|
  {
    if s.dispatchList != [] && s.dispatchList[0] in s.requestPool then DispatchAll(AnswerHead(s)) else s
  }

  ghost function Cleared(s: State, now: nat): State {
    DropIdle(DropOverdue(s.(ticker := now)))
  }

  /** The whole tick. */
  ghost function Ticked(s: State, now: nat): State {
    DispatchAll(Cleared(s, now))
  }

  lemma {:induction false} DropOverduePrunes(s: State, t: State)
    requires Pruned(s, t, false)
    ensures var u := DropOverdue(t);
      Pruned(s, u, true) && u.ticker == t.ticker && QueriesYoung(u.updateList, u.nodePool, u.ticker)
    decreases |t.updateList|
  {
    hide Core, Pruned, QueriesYoung, DropNode, Unlink;
    PrunedFacts(s, t, false);
    if OverdueHead(t) {
      OverdueHeadFacts(t);
      PruneMore(s, t, t.updateList[0], false);
      DropOverduePrunes(s, DropNode(t, t.updateList[0]));
    } else {
      NoneOverdue(t);
    }
  }

  lemma OverdueHeadFacts(t: State)
    requires OverdueHead(t)
    ensures var u := DropNode(t, t.updateList[0]); |u.updateList| < |t.updateList| && u.ticker == t.ticker
    ensures Overdue(t, t.updateList[0], t.ticker)
  {
  }

  lemma {:induction false} DropIdlePrunes(s: State, t: State)
    requires Pruned(s, t, true) && QueriesYoung(t.updateList, t.nodePool, t.ticker)
    ensures var u := DropIdle(t);
      && Pruned(s, u, true) && u.ticker == t.ticker && QueriesYoung(u.updateList, u.nodePool, u.ticker)
      && u.nodePool == Survivors(s, u.ticker)
    decreases |t.lruList|
  {
    hide Core, Pruned, QueriesYoung, DropNode, Unlink, Survivors;
    PrunedFacts(s, t, true);
    if IdleHead(t) {
      IdleHeadFacts(t);
      PruneMore(s, t, t.lruList[0], true);
      StillYoung(t, t.lruList[0]);
      DropIdlePrunes(s, DropNode(t, t.lruList[0]));
    } else {
      NoneIdle(t);
      PrunedExactly(s, t);
    }
  }

  lemma IdleHeadFacts(t: State)
    requires IdleHead(t)
    ensures var u := DropNode(t, t.lruList[0]); |u.lruList| < |t.lruList| && u.ticker == t.ticker
    ensures Idle(t, t.lruList[0], t.ticker)
  {
  }

  lemma {:induction false} DispatchAllAnswers(s: State, t: State)
    requires Dispatched(s, t)
    ensures Dispatched(s, DispatchAll(t)) && DispatchAll(t).dispatchList == []
    decreases |t.dispatchList|
  {
    hide Dispatched;
    if t.dispatchList != [] {
      DispatchMore(s, t);
      DispatchAllAnswers(s, AnswerHead(t));
    }
  }

  /** The tick, whose loops work down three lists: exactly the overdue and the idle nodes are gone, and
      everybody who does not wait on one of the others is answered. */
  lemma TickServes(s: State, now: nat)
    requires Inv(s) && s.ticker <= now
    ensures var s2, t := Cleared(s, now), Ticked(s, now);
      && Inv(t) && t.ticker == now && t.dispatchList == [] && t.nodePool == Survivors(s, now)
      && Pruned(s, s2, true) && QueriesYoung(s2.updateList, s2.nodePool, s2.ticker) && s2.ticker == now
        && Dispatched(s2, t)
  {
    hide Core, Inv, Pruned, Dispatched, QueriesYoung, Survivors, DropOverdue, DropIdle, DispatchAll;
    InvFacts(s);
    TickedKeepsCore(s, now);
    var s0 := s.(ticker := now);
    DropOverduePrunes(s, s0);
    DropIdlePrunes(s, DropOverdue(s0));
    var s2 := Cleared(s, now);
    PrunedFacts(s, s2, true);
    DispatchAllAnswers(s2, s2);
    EverybodyServed(s, s2, Ticked(s, now));
  }

  // ---------------------------------------------------------------------------------------
  // The manager
  // ---------------------------------------------------------------------------------------

  class AuthCacheManager {
    const requestCapacity: nat
    const nodeCapacity: nat
    var ticker: nat
    var reconfirmTimePoint: nat
    var authMap: map<string, NodeId>
    var nodePool: Pool
    var requestPool: map<RequestId, Request>
    var lruList: seq<NodeId>
    var updateList: seq<NodeId>
    var dispatchList: seq<RequestId>
    var nextNodeId: NodeId
    var nextRequestId: RequestId
    // what left the manager: queries to the cache servers, results to the connections
    var posted: seq<Query>
    var answers: seq<Answer>
    // what came in
    ghost var replies: seq<Reply>
    ghost var asked: map<RequestId, Asked>
    ghost var owner: map<NodeId, string>

    ghost function Model(): State
      reads this
    {
      State(ticker, authMap, nodePool, requestPool, lruList, updateList, dispatchList, nextNodeId, nextRequestId,
            posted, answers, replies, asked, owner)
    }

    ghost predicate Valid()
      reads this
    {
      Inv(Model()) && reconfirmTimePoint == ticker - RECONFIRM_TIMEOUT_MS
    }

    constructor (now: nat, requestCapacity: nat, nodeCapacity: nat)
      requires NODE_TIMEOUT_MS < now
      ensures Valid()
      ensures ticker == now && this.requestCapacity == requestCapacity && this.nodeCapacity == nodeCapacity
      ensures Model() == StartState(now)
    {
      this.requestCapacity, this.nodeCapacity := requestCapacity, nodeCapacity;
      ticker, reconfirmTimePoint := now, now - RECONFIRM_TIMEOUT_MS;
      authMap, nodePool, requestPool := map[], map[], map[];
      lruList, updateList, dispatchList := [], [], [];
      nextNodeId, nextRequestId := 1, 1;
      posted, answers := [], [];
      replies, asked, owner := [], map[], map[];
    }

    method AcquireCacheNode(userPass: string) returns (n: NodeId)
      requires userPass !in authMap
      modifies `nodePool, `authMap, `nextNodeId, `owner
      ensures |old(nodePool)| >= nodeCapacity ==> n == 0 && unchanged(this)
      ensures |old(nodePool)| < nodeCapacity ==>
        && n == old(nextNodeId) && nextNodeId == n + 1 && nodePool == old(nodePool)[n := NewNode(userPass)]
        && authMap == old(authMap)[userPass := n] && owner == old(owner)[n := userPass]
    {
      if |nodePool| >= nodeCapacity {
        return 0;
      }
      n := nextNodeId;
      nextNodeId := n + 1;
      nodePool := nodePool[n := NewNode(userPass)];
      authMap := authMap[userPass := n];
      owner := owner[n := userPass];
    }

    /** Destroying the node also takes it off the lists it is linked in. */
    method ReleaseCacheNode(n: NodeId)
      requires n in nodePool && nodePool[n].userPass in authMap && authMap[nodePool[n].userPass] == n
      modifies `nodePool, `authMap, `lruList, `updateList
      ensures nodePool == DropKey(old(nodePool), n) && authMap == DropKey(old(authMap), old(nodePool)[n].userPass)
      ensures lruList == Unlink(old(lruList), n) && updateList == Unlink(old(updateList), n)
    {
      authMap := DropKey(authMap, nodePool[n].userPass);
      nodePool := DropKey(nodePool, n);
      lruList := Unlink(lruList, n);
      updateList := Unlink(updateList, n);
    }

    method HitCache(n: NodeId)
      requires n in nodePool
      modifies `nodePool, `lruList
      ensures nodePool == old(nodePool)[n := old(nodePool)[n].(lastUsed := ticker)]
      ensures lruList == Unlink(old(lruList), n) + [n]
    {
      nodePool := nodePool[n := nodePool[n].(lastUsed := ticker)];
      lruList := Unlink(lruList, n) + [n];
    }

    method PerformAuthRequest(n: NodeId, userPass: string)
      requires n in nodePool
      modifies `nodePool, `updateList, `posted
      ensures nodePool == old(nodePool)[n := old(nodePool)[n].(lastUpdate := ticker)]
      ensures updateList == Unlink(old(updateList), n) + [n]
      ensures posted == old(posted) + [Query(n, userPass, ticker)]
    {
      posted := posted + [Query(n, userPass, ticker)];
      nodePool := nodePool[n := nodePool[n].(lastUpdate := ticker)];
      updateList := Unlink(updateList, n) + [n];
    }

    /** The part of `RequestAuth` that makes the request's record. */
    method RecordRequest(sourceId: nat, userPass: string) returns (r: RequestId)
      modifies `nextRequestId, `requestPool, `asked
      ensures r == old(nextRequestId) && Model() == RequestRecorded(old(Model()), sourceId, userPass)
    {
      r := nextRequestId;
      nextRequestId := r + 1;
      requestPool := requestPool[r := Request(ticker, sourceId, 0)];
      asked := asked[r := Asked(sourceId, userPass, ticker)];
    }

    /** The part of `RequestAuth` for a request that gets no node. */
    method Orphan(r: RequestId)
      modifies `dispatchList
      ensures Model() == old(Model()).(dispatchList := old(Model()).dispatchList + [r])
    {
      dispatchList := dispatchList + [r];
    }

    /** The part of `RequestAuth` that looks for the node of the user/pass. */
    method FindOrAcquireNode(userPass: string) returns (n: NodeId)
      modifies `nodePool, `authMap, `nextNodeId, `owner
      ensures Model() == NodeFound(old(Model()), userPass, |old(nodePool)| < nodeCapacity)
      ensures n == if userPass in old(authMap) then old(authMap)[userPass] else
        if |old(nodePool)| < nodeCapacity then old(nextNodeId) else 0
    {
      if userPass !in authMap {
        n := AcquireCacheNode(userPass);
      } else {
        n := authMap[userPass];
      }
    }

    /** The part of `RequestAuth` that puts the request in a list of its own node, or the dispatch list. */
    method EnqueueRequest(r: RequestId, n: NodeId)
      requires n in nodePool && r in requestPool
      modifies `requestPool, `dispatchList, `nodePool
      ensures Model() == RequestEnqueued(old(Model()), r, n) && n in nodePool
    {
      requestPool := requestPool[r := requestPool[r].(cacheNodeId := n)];
      if nodePool[n].ready {
        dispatchList := dispatchList + [r];
      } else {
        nodePool := nodePool[n := nodePool[n].(requestList := nodePool[n].requestList + [r])];
      }
    }

    /** The end of `RequestAuth`: a stale node is asked about, and in any case counts as used. */
    method UseNode(n: NodeId, userPass: string)
      requires n in nodePool
      requires RECONFIRM_TIMEOUT_MS <= ticker && reconfirmTimePoint == ticker - RECONFIRM_TIMEOUT_MS
      modifies `nodePool, `updateList, `lruList, `posted
      ensures Model() == NodeUsed(old(Model()), n, userPass)
    {
      hide Unlink;
      ghost var s := Model();
      if nodePool[n].lastUpdate <= reconfirmTimePoint {
        PerformAuthRequest(n, userPass);
      }
      HitCache(n);
      assert nodePool == NodeUsed(s, n, userPass).nodePool;
    }

    /** The part of `RequestAuth` for a request that has a node. */
    method JoinNode(r: RequestId, n: NodeId, userPass: string)
      requires n in nodePool && r in requestPool
      requires RECONFIRM_TIMEOUT_MS <= ticker && reconfirmTimePoint == ticker - RECONFIRM_TIMEOUT_MS
      modifies `requestPool, `dispatchList, `nodePool, `updateList, `lruList, `posted
      ensures Model() == NodeJoined(old(Model()), r, n, userPass)
    {
      hide NodeUsed, RequestEnqueued;
      EnqueueRequest(r, n);
      UseNode(n, userPass);
    }

    /** The part of `RequestAuth` after its checks. */
    method AcceptRequest(sourceId: nat, userPass: string)
      requires NodesKnown(Model())
      requires RECONFIRM_TIMEOUT_MS <= ticker && reconfirmTimePoint == ticker - RECONFIRM_TIMEOUT_MS
      modifies this
      ensures Model() == RequestSteps(old(Model()), sourceId, userPass, |old(nodePool)| < nodeCapacity)
      ensures reconfirmTimePoint == old(reconfirmTimePoint)
    {
      hide NodeJoined;
      var r := RecordRequest(sourceId, userPass);
      var n := FindOrAcquireNode(userPass);
      if n == 0 {
        Orphan(r);
      } else {
        JoinNode(r, n, userPass);
      }
    }

    /** An accepted request waits on the one node of its user/pass, or for dispatch; a query goes out
        only for a node that is new or has not been confirmed for the reconfirm timeout. */
    method RequestAuth(sourceId: nat, userPass: string) returns (ok: bool)
      requires Valid()
      modifies this
      ensures Valid()
      ensures ok <==> AcceptableUserPass(userPass) && |old(requestPool)| < requestCapacity
      ensures Model() ==
        if ok then RequestAccepted(old(Model()), sourceId, userPass, |old(nodePool)| < nodeCapacity) else old(Model())
    {
      hide Inv, Core, RequestAccepted, RequestSteps, AcceptableUserPass;
      ghost var s := Model();
      InvFacts(s);
      StepsAreAccepted(s, sourceId, userPass, |nodePool| < nodeCapacity);
      if !AcceptableUserPass(userPass) || |requestPool| >= requestCapacity {
        return false;
      }
      AcceptRequest(sourceId, userPass);
      AcceptedTicker(s, sourceId, userPass, |s.nodePool| < nodeCapacity);
      return true;
    }

    /** A packet from a cache server; `payload` is None when it does not parse. */
    method OnServerPacket(n: NodeId, payload: Option<AuthInfo>) returns (keepConnection: bool)
      requires Valid()
      modifies this
      ensures Valid() && keepConnection
      ensures n !in old(nodePool) || payload.None? ==> Model() == old(Model())
      ensures asked == old(asked) && ticker == old(ticker)
      ensures n in old(nodePool) && payload.Some? ==> Model() == ReplyArrives(old(Model()), n, payload.value)
    {
      hide Inv, Core, Unlink;
      ghost var s := Model();
      if n !in nodePool || payload.None? {
        return true;
      }
      nodePool := nodePool[n := nodePool[n].(info := payload.value, ready := true)];
      dispatchList := dispatchList + nodePool[n].requestList;
      nodePool := nodePool[n := nodePool[n].(requestList := [])];
      HitCache(n);
      updateList := Unlink(updateList, n);
      replies := replies + [Reply(n, payload.value)];
      assert Model() == ReplyArrives(s, n, payload.value);
      ReplyKeepsInv(s, n, payload.value);
      return true;
    }

    /** The head of the update list is popped and its node released; its waiters await dispatch. */
    method ReleaseUpdateHead()
      requires Core(Model()) && updateList != []
      modifies `updateList, `dispatchList, `nodePool, `authMap, `lruList
      ensures Model() == DropNode(old(Model()), old(updateList)[0]) && Core(Model())
    {
      hide Core, DropNode, Unlink, DropKey;
      ghost var t := Model();
      var p := updateList[0];
      CoreKnowsHeads(t);
      CoreFacts(t, p);
      HeadUnlinked(t.updateList);
      DropNodeKeepsCore(t, p);
      updateList := updateList[1..];
      dispatchList := dispatchList + nodePool[p].requestList;
      ReleaseCacheNode(p);
      IsDropNode(t, Model(), p);
    }

    /** The head of the LRU list is popped and its node released; nobody waits on it. */
    method ReleaseLruHead()
      requires Core(Model()) && QueriesYoung(updateList, nodePool, ticker)
      requires lruList != [] && Idle(Model(), lruList[0], ticker)
      modifies `updateList, `nodePool, `authMap, `lruList
      ensures Model() == DropNode(old(Model()), old(lruList)[0]) && Core(Model())
      ensures QueriesYoung(updateList, nodePool, ticker)
    {
      hide Core, DropNode, Unlink, DropKey, QueriesYoung;
      ghost var t := Model();
      var p := lruList[0];
      CoreFacts(t, p);
      HeadUnlinked(t.lruList);
      DropNodeKeepsCore(t, p);
      lruList := lruList[1..];
      if nodePool[p].requestList != [] { WaitedOnIsNotIdle(t, p); }
      assert nodePool[p].requestList == [];
      ReleaseCacheNode(p);
      IsDropNode(t, Model(), p);
      StillYoung(t, p);
    }

    /** The first loop of the tick. */
    method RemoveOverdue()
      requires Core(Model()) && REQUEST_TIMEOUT_MS <= ticker
      modifies `updateList, `dispatchList, `nodePool, `authMap, `lruList
      ensures Model() == DropOverdue(old(Model()))
    {
      hide Core, DropNode;
      var kp := ticker - REQUEST_TIMEOUT_MS;
      CoreKnowsHeads(Model());
      while updateList != [] && nodePool[updateList[0]].lastUpdate < kp
        invariant Core(Model()) && HeadsKnown(Model()) && DropOverdue(Model()) == DropOverdue(old(Model()))
        decreases |updateList|
      {
        OverdueHeadFacts(Model());
        ReleaseUpdateHead();
        CoreKnowsHeads(Model());
      }
    }

    /** The second loop of the tick, with its assertion that nobody waits on an idle node. */
    method RemoveIdle()
      requires Core(Model()) && QueriesYoung(updateList, nodePool, ticker) && NODE_TIMEOUT_MS <= ticker
      modifies `updateList, `nodePool, `authMap, `lruList
      ensures Model() == DropIdle(old(Model()))
    {
      hide Core, QueriesYoung, DropNode;
      var kp := ticker - NODE_TIMEOUT_MS;
      CoreKnowsHeads(Model());
      while lruList != [] && nodePool[lruList[0]].lastUsed < kp
        invariant Core(Model()) && HeadsKnown(Model()) && QueriesYoung(updateList, nodePool, ticker)
        invariant DropIdle(Model()) == DropIdle(old(Model()))
        decreases |lruList|
      {
        IdleHeadFacts(Model());
        ReleaseLruHead();
        CoreKnowsHeads(Model());
      }
    }

    /** The third loop of the tick. */
    method DispatchResults()
      requires Core(Model())
      modifies `dispatchList, `answers, `requestPool
      ensures Model() == DispatchAll(old(Model()))
    {
      hide Core;
      while dispatchList != []
        invariant Core(Model()) && DispatchAll(Model()) == DispatchAll(old(Model()))
        decreases |dispatchList|
      {
        ghost var t := Model();
        AnswerHeadKeepsCore(t);
        var r := dispatchList[0];
        dispatchList := dispatchList[1..];
        var n := requestPool[r].cacheNodeId;
        var result := if n in nodePool then Some(nodePool[n].info) else None;
        answers := answers + [Answer(r, n, requestPool[r].sourceId, result)];
        requestPool := DropKey(requestPool, r);
        assert Model() == AnswerHead(t);
      }
    }

    /** Removes exactly the nodes whose query is overdue or that nobody used for long, and answers
        everybody who does not wait on a remaining node. */
    method OnTick(now: nat)
      requires Valid() && ticker <= now
      modifies this
      ensures Valid() && Model() == Ticked(old(Model()), now)
    {
      hide Core, Inv, Pruned, Dispatched, QueriesYoung, Survivors, DropOverdue, DropIdle, DispatchAll;
      ghost var s := Model();
      InvFacts(s);
      TickServes(s, now);
      TickedKeepsCore(s, now);
      ticker := now;
      reconfirmTimePoint := ticker - RECONFIRM_TIMEOUT_MS;
      PrunedFacts(s, Model(), false);
      DropOverduePrunes(s, Model());
      RemoveOverdue();
      PrunedFacts(s, Model(), true);
      RemoveIdle();
      PrunedFacts(s, Model(), true);
      DispatchResults();
    }
  }

  lemma IsDropNode(s: State, t: State, n: NodeId)
    requires n in s.nodePool
    requires t.nodePool == DropKey(s.nodePool, n) && t.authMap == DropKey(s.authMap, s.nodePool[n].userPass)
    requires t.lruList == Unlink(s.lruList, n) && t.updateList == Unlink(s.updateList, n)
    requires t.dispatchList == s.dispatchList + s.nodePool[n].requestList
    requires t == s.(nodePool := t.nodePool, authMap := t.authMap, lruList := t.lruList, updateList := t.updateList,
                     dispatchList := t.dispatchList)
    ensures t == DropNode(s, n)
  {
  }

  lemma HeadUnlinked(list: seq<NodeId>)
    requires Distinct(list) && list != []
    ensures Unlink(list[1..], list[0]) == list[1..] == Unlink(list, list[0])
  {
    UnlinkAbsent(list[1..], list[0]);
  }

  lemma InvFacts(s: State)
    requires Inv(s)
    ensures Core(s) && NODE_TIMEOUT_MS < s.ticker && 0 < s.nextNodeId
  {
    CoreFacts(s, 0);
    hide Core;
  }

  lemma StillYoung(s: State, n: NodeId)
    requires Core(s) && n in s.nodePool && QueriesYoung(s.updateList, s.nodePool, s.ticker)
    ensures QueriesYoung(DropNode(s, n).updateList, DropNode(s, n).nodePool, s.ticker)
  {
    hide Core;
    CoreFacts(s, n);
    UnlinkMembers(s.updateList, n);
  }
}
