/** The registry of servers of one kind: a sorted live list, published from time to time under a version
    number, and the answer to clients that may hold a published list already. */
module ServerList {
  import opened Lists

  const MAX_SERVER_COUNT: nat := 125
  const UPGRADE_VERSION_TIMEOUT: nat := 60000
  const WORD: nat := 0x1_0000_0000

  datatype Info = Info(id: nat, address: nat)

  ghost predicate Sorted(s: seq<Info>) {
    forall i, j :: 0 <= i < j < |s| ==> s[i].id < s[j].id
  }

  /** The first place whose id is not below `id`. */
  function LowerBound(s: seq<Info>, id: nat): (r: nat)
    ensures r <= |s|
  {
    if s == [] || s[0].id >= id then 0 else 1 + LowerBound(s[1..], id)
  }

  lemma {:induction false} LowerBoundSplits(s: seq<Info>, id: nat)
    requires Sorted(s)
    ensures var p := LowerBound(s, id);
      && (forall i :: 0 <= i < p ==> s[i].id < id) && (forall i :: p <= i < |s| ==> id <= s[i].id)
  {
    if s != [] && s[0].id < id {
      LowerBoundSplits(s[1..], id);
      assert forall i :: 0 < i < |s| ==> s[i] == s[1..][i - 1];
    }
  }

  predicate Found(s: seq<Info>, id: nat) {
    var p := LowerBound(s, id);
    p < |s| && s[p].id == id
  }

  /** The live list and what was last published. */
  datatype Manager = Manager(live: seq<Info>, dirty: bool, stamp: nat, now: nat, version: nat, published: seq<Info>)

  const NEW: Manager := Manager([], false, 0, 0, 0, [])

  function Add(m: Manager, id: nat, address: nat): Manager {
    if |m.live| >= MAX_SERVER_COUNT || Found(m.live, id) then m else
      var p := LowerBound(m.live, id);
      m.(live := m.live[..p] + [Info(id, address)] + m.live[p..], stamp := m.now, dirty := true)
  }

  /** Nothing is marked as changed. */
  function Remove(m: Manager, id: nat): Manager {
    if !Found(m.live, id) then m else
      var p := LowerBound(m.live, id);
      m.(live := m.live[..p] + m.live[p + 1..])
  }

  function Get(m: Manager, id: nat): (r: Option<Info>) {
    if Found(m.live, id) then Some(m.live[LowerBound(m.live, id)]) else None
  }

  /** The version counts in 32 bits and skips 0. */
  function NextVersion(v: nat): nat {
    if (v + 1) % WORD == 0 then 1 else (v + 1) % WORD
  }

  predicate Publishes(m: Manager, now: nat) {
    m.dirty && now - m.stamp > UPGRADE_VERSION_TIMEOUT
  }

  function Tick(m: Manager, now: nat): Manager {
    if Publishes(m, now) then Manager(m.live, false, now, now, NextVersion(m.version), m.live) else m.(now := now)
  }

  // ---------------------------------------------------------------------------------------
  // The live list
  // ---------------------------------------------------------------------------------------

  /** A sorted list is determined by its elements. */
  lemma {:induction false} SortedIsUnique(s: seq<Info>, t: seq<Info>)
    requires Sorted(s) && Sorted(t) && forall e :: e in s <==> e in t
    ensures s == t
  {
    if s == [] || t == [] {
      SameEmptiness(s, t);
    } else {
      FirstIsSame(s, t);
      forall e ensures e in s[1..] <==> e in t[1..] {
        TailMember(s, e);
        TailMember(t, e);
      }
      SortedIsUnique(s[1..], t[1..]);
    }
  }

  lemma SameEmptiness(s: seq<Info>, t: seq<Info>)
    requires forall e :: e in s <==> e in t
    ensures s == [] <==> t == []
  {
    assert s != [] ==> exists e :: e in s by { if s != [] { assert s[0] in s; } }
    assert t != [] ==> exists e :: e in t by { if t != [] { assert t[0] in t; } }
  }

  lemma TailMember(s: seq<Info>, e: Info)
    requires Sorted(s) && s != []
    ensures e in s[1..] <==> e in s && e != s[0]
  {
    if e in s && e != s[0] {
      var i :| 0 <= i < |s| && s[i] == e;
      assert s[1..][i - 1] == e;
    }
  }

  lemma FirstIsSame(s: seq<Info>, t: seq<Info>)
    requires Sorted(s) && Sorted(t) && s != [] && t != [] && forall e :: e in s <==> e in t
    ensures s[0] == t[0]
  {
    assert s[0] in t && t[0] in s;
    var i :| 0 <= i < |t| && t[i] == s[0];
    var j :| 0 <= j < |s| && s[j] == t[0];
  }

  lemma FoundMeans(s: seq<Info>, id: nat)
    requires Sorted(s)
    ensures Found(s, id) <==> exists i :: 0 <= i < |s| && s[i].id == id
  {
    LowerBoundSplits(s, id);
  }

  function Inserted(s: seq<Info>, p: nat, e: Info): seq<Info>
    requires p <= |s|
  {
    s[..p] + [e] + s[p..]
  }

  function CutOut(s: seq<Info>, p: nat): seq<Info>
    requires p < |s|
  {
    s[..p] + s[p + 1..]
  }

  lemma InsertedMembers(s: seq<Info>, p: nat, added: Info, e: Info)
    requires p <= |s|
    ensures e in Inserted(s, p, added) <==> e in s || e == added
  {
    var a := Inserted(s, p, added);
    if e in s {
      var i :| 0 <= i < |s| && s[i] == e;
      assert a[if i < p then i else i + 1] == e;
    }
    if e == added { assert a[p] == e; }
  }

  lemma InsertedSorted(s: seq<Info>, p: nat, e: Info)
    requires Sorted(s) && p <= |s|
    requires (forall i :: 0 <= i < p ==> s[i].id < e.id) && (forall i :: p <= i < |s| ==> e.id < s[i].id)
    ensures Sorted(Inserted(s, p, e))
  {
  }

  lemma CutMembers(s: seq<Info>, p: nat, e: Info)
    requires Sorted(s) && p < |s|
    ensures e in CutOut(s, p) <==> e in s && e.id != s[p].id
  {
    var a := CutOut(s, p);
    if e in a {
      var i :| 0 <= i < |a| && a[i] == e;
      assert e == s[if i < p then i else i + 1];
    }
    if e in s && e.id != s[p].id {
      var i :| 0 <= i < |s| && s[i] == e;
      assert a[if i < p then i else i - 1] == e;
    }
  }

  lemma CutSorted(s: seq<Info>, p: nat)
    requires Sorted(s) && p < |s|
    ensures Sorted(CutOut(s, p))
  {
  }

  /** `Add` fails for a full list and for an id that is there; otherwise the new entry and nothing else
      is new, and the list stays sorted. */
  lemma AddIsExact(m: Manager, id: nat, address: nat)
    requires Sorted(m.live)
    ensures var a := Add(m, id, address);
      && Sorted(a.live)
      && (forall e :: e in a.live <==> e in m.live || (a != m && e == Info(id, address)))
      && (|m.live| >= MAX_SERVER_COUNT || (exists i :: 0 <= i < |m.live| && m.live[i].id == id) ==> a == m)
      && (|m.live| < MAX_SERVER_COUNT && (forall i :: 0 <= i < |m.live| ==> m.live[i].id != id) ==>
            a.dirty && a.stamp == m.now && Info(id, address) in a.live && |a.live| == |m.live| + 1)
  {
    hide Inserted, LowerBound;
    LowerBoundSplits(m.live, id);
    FoundMeans(m.live, id);
    var p := LowerBound(m.live, id);
    AddInserts(m, id, address);
    if |m.live| < MAX_SERVER_COUNT && !Found(m.live, id) {
      var after := Inserted(m.live, p, Info(id, address));
      InsertedSorted(m.live, p, Info(id, address));
      forall e ensures e in after <==> e in m.live || e == Info(id, address) {
        InsertedMembers(m.live, p, Info(id, address), e);
      }
    }
  }

  lemma AddInserts(m: Manager, id: nat, address: nat)
    ensures Add(m, id, address) ==
      if |m.live| >= MAX_SERVER_COUNT || Found(m.live, id) then m
      else m.(live := Inserted(m.live, LowerBound(m.live, id), Info(id, address)), stamp := m.now, dirty := true)
    ensures |Inserted(m.live, LowerBound(m.live, id), Info(id, address))| == |m.live| + 1
  {
  }

  lemma AddedIds(m: Manager, i: nat, x: nat, j: nat)
    requires Sorted(m.live) && |m.live| < MAX_SERVER_COUNT
    ensures var a := Add(m, i, x);
      (exists e :: e in a.live && e.id == j) <==> i == j || exists e :: e in m.live && e.id == j
  {
    hide Add, LowerBound;
    AddIsExact(m, i, x);
    if exists k :: 0 <= k < |m.live| && m.live[k].id == i {
      var k :| 0 <= k < |m.live| && m.live[k].id == i;
      assert m.live[k] in m.live;
    }
  }

  /** The order in which servers register does not matter. */
  lemma AddsCommute(m: Manager, i: nat, x: nat, j: nat, y: nat)
    requires Sorted(m.live) && i != j && |m.live| + 2 <= MAX_SERVER_COUNT
    ensures Add(Add(m, i, x), j, y).live == Add(Add(m, j, y), i, x).live
  {
    hide Add, LowerBound, Found;
    AddIsExact(m, i, x);
    AddIsExact(m, j, y);
    AddIsExact(Add(m, i, x), j, y);
    AddIsExact(Add(m, j, y), i, x);
    AddedIds(m, i, x, j);
    AddedIds(m, j, y, i);
    var s, t := Add(Add(m, i, x), j, y).live, Add(Add(m, j, y), i, x).live;
    SortedIsUnique(s, t);
  }

  /** `Remove` takes out the entry with the id, if there is one, and nothing else. */
  lemma RemoveIsExact(m: Manager, id: nat)
    requires Sorted(m.live)
    ensures var r := Remove(m, id);
      && Sorted(r.live)
      && (forall e :: e in r.live <==> e in m.live && e.id != id)
      && r == m.(live := r.live) && |r.live| <= |m.live|
  {
    hide LowerBound;
    LowerBoundSplits(m.live, id);
    var p := LowerBound(m.live, id);
    FoundMeans(m.live, id);
    if Found(m.live, id) {
      assert Remove(m, id).live == CutOut(m.live, p);
      CutSorted(m.live, p);
      forall e ensures e in CutOut(m.live, p) <==> e in m.live && e.id != id { CutMembers(m.live, p, e); }
    }
  }

  /** `Get` finds exactly what is there. */
  lemma GetIsExact(m: Manager, id: nat, e: Info)
    requires Sorted(m.live)
    ensures Get(m, id) == Some(e) <==> e in m.live && e.id == id
  {
    hide LowerBound;
    LowerBoundSplits(m.live, id);
    var p := LowerBound(m.live, id);
    if e in m.live && e.id == id {
      var i :| 0 <= i < |m.live| && m.live[i] == e;
      assert p <= i && id <= m.live[p].id;
      assert i == p;
    }
  }

  // ---------------------------------------------------------------------------------------
  // Runs
  // ---------------------------------------------------------------------------------------

  datatype Event = Added(id: nat, address: nat) | Removed(id: nat) | Ticked(now: nat)

  /** The manager and all lists it has published, in order. */
  datatype Server = Server(m: Manager, history: seq<seq<Info>>)

  /** Time does not run backwards. */
  function Step(s: Server, e: Event): Server {
    match e
    case Added(id, address) => s.(m := Add(s.m, id, address))
    case Removed(id) => s.(m := Remove(s.m, id))
    case Ticked(now) =>
      if now < s.m.now then s
      else Server(Tick(s.m, now), if Publishes(s.m, now) then s.history + [s.m.live] else s.history)
  }

  function Run(s: Server, events: seq<Event>): Server
    decreases |events|
  {
    if events == [] then s else Run(Step(s, events[0]), events[1..])
  }

  /** The version after so many publications. */
  function VersionAfter(n: nat): nat {
    if n == 0 then 0 else (n - 1) % (WORD - 1) + 1
  }

  lemma NextVersionCounts(n: nat)
    ensures NextVersion(VersionAfter(n)) == VersionAfter(n + 1)
  {
    if n > 0 {
      var r := (n - 1) % (WORD - 1);
      var q := (n - 1) / (WORD - 1);
      assert n == q * (WORD - 1) + (r + 1);
      if r + 1 == WORD - 1 {
        assert n == (q + 1) * (WORD - 1);
        MultipleHasNoRest(n, q + 1);
      } else {
        RestIs(n, q, r + 1);
      }
    }
  }

  lemma MultipleHasNoRest(n: nat, q: nat)
    requires n == q * (WORD - 1)
    ensures n % (WORD - 1) == 0
  {
  }

  lemma RestIs(n: nat, q: nat, r: nat)
    requires n == q * (WORD - 1) + r && r < WORD - 1
    ensures n % (WORD - 1) == r
  {
  }

  /** Equal versions belong to the same publication, unless a multiple of the whole cycle lies between. */
  lemma SameVersionExactly(a: nat, b: nat)
    requires a <= b
    ensures VersionAfter(a) == VersionAfter(b) <==> a == b || (a > 0 && (b - a) % (WORD - 1) == 0)
  {
    if a > 0 {
      var qa, qb := (a - 1) / (WORD - 1), (b - 1) / (WORD - 1);
      var ra, rb := (a - 1) % (WORD - 1), (b - 1) % (WORD - 1);
      assert b - a == (qb - qa) * (WORD - 1) + (rb - ra);
      QuotientGrows(a - 1, b - 1);
      if ra <= rb { RestIs(b - a, qb - qa, rb - ra); } else {
        assert qa < qb;
        RestIs(b - a, qb - qa - 1, (WORD - 1) + (rb - ra));
      }
    }
  }

  lemma QuotientGrows(a: nat, b: nat)
    requires a <= b
    ensures a / (WORD - 1) <= b / (WORD - 1)
    ensures a / (WORD - 1) == b / (WORD - 1) ==> a % (WORD - 1) <= b % (WORD - 1)
  {
  }

  ghost predicate Inv(s: Server) {
    && Sorted(s.m.live) && |s.m.live| <= MAX_SERVER_COUNT && s.m.stamp <= s.m.now
    && s.m.version == VersionAfter(|s.history|)
    && s.m.published == (if s.history == [] then [] else s.history[|s.history| - 1])
    && forall k :: 0 <= k < |s.history| ==> Sorted(s.history[k]) && |s.history[k]| <= MAX_SERVER_COUNT
  }

  lemma StepKeepsInv(s: Server, e: Event)
    requires Inv(s)
    ensures Inv(Step(s, e)) && s.history <= Step(s, e).history
  {
    hide VersionAfter, NextVersion, LowerBound;
    match e
    case Added(id, address) => AddIsExact(s.m, id, address);
    case Removed(id) => RemoveIsExact(s.m, id);
    case Ticked(now) => NextVersionCounts(|s.history|);
  }

  /** In every run the live list is sorted, without duplicates and within its bound, every published list
      is the live list of its time, and the version counts the publications. */
  lemma {:induction false} RunKeepsInv(s: Server, events: seq<Event>)
    requires Inv(s)
    ensures Inv(Run(s, events)) && s.history <= Run(s, events).history
    decreases |events|
  {
    hide Inv, Step;
    if events != [] {
      StepKeepsInv(s, events[0]);
      RunKeepsInv(Step(s, events[0]), events[1..]);
    }
  }

  const START: Server := Server(NEW, [])

  lemma StartInv()
    ensures Inv(START)
  {
  }

  // ---------------------------------------------------------------------------------------
  // The versioned answer
  // ---------------------------------------------------------------------------------------

  /** `Nothing`: an empty buffer is posted. */
  datatype Answer = Same(version: nat) | Listed(version: nat, servers: seq<Info>) | Nothing

  /** `OnDownload...ServerList`. The response is kept under version 0 for ever, so it is written anew for
      every client, except before the first publication, when there is none. */
  function Download(m: Manager, held: nat): Answer {
    if held == m.version then Same(m.version)
    else if m.version != 0 then Listed(m.version, m.published)
    else Nothing
  }

  /** A client that was given a list and later hears that its version is still the same holds the list
      that is published, unless the versions have gone round in between. */
  lemma SameMeansSame(before: seq<Event>, after: seq<Event>, held: nat)
    requires var s := Run(START, before);
      var t := Run(s, after);
      && Download(s.m, held).Listed? && Download(t.m, s.m.version).Same?
      && |t.history| - |s.history| < WORD - 1
    ensures var s := Run(START, before);
      var t := Run(s, after);
      t.m.published == Download(s.m, held).servers && t.history == s.history
  {
    hide Run, VersionAfter;
    StartInv();
    var s := Run(START, before);
    var t := Run(s, after);
    RunKeepsInv(START, before);
    RunKeepsInv(s, after);
    SameVersionExactly(|s.history|, |t.history|);
    SmallRest(|t.history| - |s.history|);
  }

  lemma SmallRest(d: nat)
    requires d < WORD - 1
    ensures d % (WORD - 1) == d
  {
  }

  /** A client gets no answer exactly if it holds some version and nothing was ever published. */
  lemma UnansweredExactly(events: seq<Event>, held: nat)
    ensures var s := Run(START, events); Download(s.m, held).Nothing? <==> s.history == [] && held != 0
  {
    ZeroMeansUnpublished(events);
    hide Run;
  }

  /** Version 0 is answered only before the first publication. */
  lemma ZeroMeansUnpublished(events: seq<Event>)
    ensures var s := Run(START, events); s.m.version == 0 <==> s.history == []
  {
    RunKeepsInv(START, events);
    hide Run;
  }

  /** Removing a server is never a reason to publish: a list that has nothing new stays as it is. */
  lemma {:induction false} RemovalIsNotPublished(s: Server, events: seq<Event>)
    requires !s.m.dirty && forall i :: 0 <= i < |events| ==> !events[i].Added?
    ensures Run(s, events).m.published == s.m.published && Run(s, events).m.version == s.m.version
      && !Run(s, events).m.dirty
    decreases |events|
  {
    hide LowerBound;
    if events != [] { RemovalIsNotPublished(Step(s, events[0]), events[1..]); }
  }

  // ---------------------------------------------------------------------------------------
  // The list on the wire
  // ---------------------------------------------------------------------------------------

  function Entries(servers: seq<Info>): seq<nat> {
    if servers == [] then [] else [servers[0].id, servers[0].address] + Entries(servers[1..])
  }

  function Serialize(version: nat, servers: seq<Info>): seq<nat> {
    [version, |servers|] + Entries(servers)
  }

  function ReadEntries(words: seq<nat>, count: nat): Option<seq<Info>>
    decreases count
  {
    if count == 0 then Some([])
    else if |words| < 2 then None
    else
      var rest := ReadEntries(words[2..], count - 1);
      if rest.None? then None else Some([Info(words[0], words[1])] + rest.value)
  }

  /** The reader refuses a count that reaches the maximum. */
  function Deserialize(words: seq<nat>): Option<(nat, seq<Info>)> {
    if |words| < 2 || words[1] >= MAX_SERVER_COUNT then None else
      var servers := ReadEntries(words[2..], words[1]);
      if servers.None? then None else Some((words[0], servers.value))
  }

  lemma {:induction false} EntriesReadBack(servers: seq<Info>)
    ensures ReadEntries(Entries(servers), |servers|) == Some(servers)
  {
    if servers != [] {
      EntriesReadBack(servers[1..]);
      assert Entries(servers)[2..] == Entries(servers[1..]);
      assert [servers[0]] + servers[1..] == servers;
    }
  }

  /** A list can be read back exactly if it is not full. */
  lemma ListReadsBack(version: nat, servers: seq<Info>)
    ensures Deserialize(Serialize(version, servers)) == Some((version, servers)) <==> |servers| < MAX_SERVER_COUNT
    ensures |servers| >= MAX_SERVER_COUNT ==> Deserialize(Serialize(version, servers)) == None
  {
    EntriesReadBack(servers);
    var words := Serialize(version, servers);
    assert words[2..] == Entries(servers);
    hide Entries, ReadEntries;
  }

  // ---------------------------------------------------------------------------------------
  // The manager, in place
  // ---------------------------------------------------------------------------------------

  class InternalServerListManager {
    var now: nat
    var version: nat
    var dirty: bool
    var versionTimestamp: nat
    var serverInfoList: seq<Info>
    var versionedServerInfoList: seq<Info>

    constructor ()
      ensures View() == NEW
    {
      now, version, dirty, versionTimestamp := 0, 0, false, 0;
      serverInfoList, versionedServerInfoList := [], [];
    }

    function View(): Manager
      reads this
    {
      Manager(serverInfoList, dirty, versionTimestamp, now, version, versionedServerInfoList)
    }

    method OnTick(time: nat)
      modifies this
      ensures View() == Tick(old(View()), time)
    {
      now := time;
      if dirty && now - versionTimestamp > UPGRADE_VERSION_TIMEOUT {
        version := (version + 1) % WORD;
        if version == 0 { version := 1; }
        versionedServerInfoList := serverInfoList;
        versionTimestamp := now;
        dirty := false;
      }
    }

    method AddServerInfo(id: nat, address: nat) returns (ok: bool)
      modifies this
      ensures View() == Add(old(View()), id, address)
      ensures ok == (|old(serverInfoList)| < MAX_SERVER_COUNT && !Found(old(serverInfoList), id))
    {
      if |serverInfoList| >= MAX_SERVER_COUNT { return false; }
      var p := LowerBound(serverInfoList, id);
      if p != |serverInfoList| && serverInfoList[p].id == id { return false; }
      serverInfoList := serverInfoList[..p] + [Info(id, address)] + serverInfoList[p..];
      versionTimestamp := now;
      dirty := true;
      ok := true;
    }

    method RemoveServerInfo(id: nat)
      modifies this`serverInfoList
      ensures View() == Remove(old(View()), id)
    {
      var p := LowerBound(serverInfoList, id);
      if p == |serverInfoList| { return; }
      if serverInfoList[p].id != id { return; }
      serverInfoList := serverInfoList[..p] + serverInfoList[p + 1..];
    }
  }
}
