/** The client side pool that follows a published list of servers and spreads messages over them by hash. */
module ServerPool {
  import opened Lists

  datatype Info = Info(serverId: nat, address: nat)

  // ---------------------------------------------------------------------------------------
  // Comparing two sorted lists
  // ---------------------------------------------------------------------------------------

  predicate SortedById(s: seq<Info>) {
    forall i, j :: 0 <= i < j < |s| ==> s[i].serverId <= s[j].serverId
  }

  predicate UniqueIds(s: seq<Info>) {
    forall i, j :: 0 <= i < j < |s| ==> s[i].serverId != s[j].serverId
  }

  /** Which entries of the old list go, and what comes in. */
  datatype Plan = Plan(gone: seq<bool>, added: seq<Info>)

  function AllTrue(n: nat): (s: seq<bool>)
    ensures |s| == n && forall k :: 0 <= k < n ==> s[k]
  {
    seq(n, _ => true)
  }

  function Diff(prior: seq<Info>, wanted: seq<Info>): (r: Plan)
    ensures |r.gone| == |prior|
    decreases |prior| + |wanted|
  {
    if prior == [] then Plan([], wanted)
    else if wanted == [] then Plan(AllTrue(|prior|), [])
    else if prior[0].serverId == wanted[0].serverId then
      var rest := Diff(prior[1..], wanted[1..]);
      if prior[0].address != wanted[0].address then Plan([true] + rest.gone, [wanted[0]] + rest.added)
      else Plan([false] + rest.gone, rest.added)
    else if prior[0].serverId < wanted[0].serverId then
      var rest := Diff(prior[1..], wanted);
      Plan([true] + rest.gone, rest.added)
    else
      var rest := Diff(prior, wanted[1..]);
      Plan(rest.gone, [wanted[0]] + rest.added)
  }

  function Kept<T>(s: seq<T>, gone: seq<bool>): seq<T>
    requires |s| == |gone|
  {
    if s == [] then []
    else if gone[0] then Kept(s[1..], gone[1..])
    else [s[0]] + Kept(s[1..], gone[1..])
  }

  function Dropped<T>(s: seq<T>, gone: seq<bool>): seq<T>
    requires |s| == |gone|
  {
    if s == [] then []
    else if gone[0] then [s[0]] + Dropped(s[1..], gone[1..])
    else Dropped(s[1..], gone[1..])
  }

  /** What stays and what comes in are together exactly the new list, repeated ids or not. */
  lemma {:induction false} DiffIsExact(prior: seq<Info>, wanted: seq<Info>)
    ensures multiset(Kept(prior, Diff(prior, wanted).gone)) + multiset(Diff(prior, wanted).added) == multiset(wanted)
    decreases |prior| + |wanted|
  {
    var plan := Diff(prior, wanted);
    if prior == [] {
    } else if wanted == [] {
      KeptNone(prior);
    } else {
      var o, n := prior[0], wanted[0];
      assert wanted == [n] + wanted[1..];
      if o.serverId == n.serverId {
        DiffIsExact(prior[1..], wanted[1..]);
        assert plan.gone[1..] == Diff(prior[1..], wanted[1..]).gone;
      } else if o.serverId < n.serverId {
        DiffIsExact(prior[1..], wanted);
        assert plan.gone[1..] == Diff(prior[1..], wanted).gone;
      } else {
        DiffIsExact(prior, wanted[1..]);
      }
    }
  }

  lemma {:induction false} KeptNone<T>(s: seq<T>)
    ensures Kept(s, AllTrue(|s|)) == []
    ensures Dropped(s, AllTrue(|s|)) == s
  {
    if s != [] {
      assert AllTrue(|s|)[1..] == AllTrue(|s| - 1);
      KeptNone(s[1..]);
      assert s == [s[0]] + s[1..];
    }
  }

  /** With unique ids an entry stays exactly if the new list has it, unchanged. */
  lemma {:induction false} DiffKeepsUnchanged(prior: seq<Info>, wanted: seq<Info>, k: nat)
    requires SortedById(prior) && UniqueIds(prior) && SortedById(wanted) && UniqueIds(wanted)
    requires k < |prior|
    ensures !Diff(prior, wanted).gone[k] <==> prior[k] in wanted
    decreases |prior| + |wanted|
  {
    if wanted != [] {
      var o, n := prior[0], wanted[0];
      HeadOrTail(wanted, prior[k]);
      assert o.serverId <= prior[k].serverId && (k > 0 ==> o.serverId != prior[k].serverId);
      if o.serverId == n.serverId {
        if k > 0 { DiffKeepsUnchanged(prior[1..], wanted[1..], k - 1); } else { OnlyFirst(wanted, o); }
      } else if o.serverId < n.serverId {
        if k > 0 { DiffKeepsUnchanged(prior[1..], wanted, k - 1); } else { NotBelowFirst(wanted, o); }
      } else {
        DiffKeepsUnchanged(prior, wanted[1..], k);
      }
    }
  }

  lemma HeadOrTail(s: seq<Info>, e: Info)
    requires s != []
    ensures e in s <==> e == s[0] || e in s[1..]
  {
    assert s == [s[0]] + s[1..];
  }

  lemma OnlyFirst(s: seq<Info>, e: Info)
    requires SortedById(s) && UniqueIds(s) && s != [] && e.serverId == s[0].serverId
    ensures e in s <==> e == s[0]
  {
  }

  lemma NotBelowFirst(s: seq<Info>, e: Info)
    requires SortedById(s) && s != [] && e.serverId < s[0].serverId
    ensures e !in s
  {
  }

  lemma SortedHeadsAgree(a: seq<Info>, b: seq<Info>)
    requires SortedById(a) && SortedById(b) && UniqueIds(a)
    requires multiset(a) == multiset(b) && a != [] && b != []
    ensures a[0] == b[0]
  {
    assert a[0] in multiset(b) && b[0] in multiset(a);
    var i :| 0 <= i < |a| && a[i] == b[0];
    var j :| 0 <= j < |b| && b[j] == a[0];
    assert a[0].serverId <= a[i].serverId && b[0].serverId <= b[j].serverId;
  }

  /** A list sorted by unique ids is determined by its contents. */
  lemma {:induction false} SortedListIsUnique(a: seq<Info>, b: seq<Info>)
    requires SortedById(a) && SortedById(b) && UniqueIds(a)
    requires multiset(a) == multiset(b)
    ensures a == b
  {
    assert |a| == |multiset(a)| == |multiset(b)| == |b|;
    if a == [] {
      assert a == b;
    } else {
      SortedHeadsAgree(a, b);
      TailContents(a);
      TailContents(b);
      SortedListIsUnique(a[1..], b[1..]);
      assert a == [a[0]] + a[1..] && b == [b[0]] + b[1..];
    }
  }

  lemma TailContents(a: seq<Info>)
    requires a != []
    ensures multiset(a[1..]) == multiset(a) - multiset{a[0]}
  {
    assert a == [a[0]] + a[1..];
  }

  lemma UniqueByContents(a: seq<Info>, b: seq<Info>)
    requires multiset(a) == multiset(b) && UniqueIds(a)
    ensures UniqueIds(b)
  {
    forall i, j | 0 <= i < j < |b|
      ensures b[i].serverId != b[j].serverId
    {
      if b[i].serverId == b[j].serverId {
        assert b[i] in multiset(a) && b[j] in multiset(a);
        var k :| 0 <= k < |a| && a[k] == b[i];
        var l :| 0 <= l < |a| && a[l] == b[j];
        assert k == l;
        TwiceInMultiset(b, i, j);
        OnceInMultiset(a, k);
      }
    }
  }

  lemma TwiceInMultiset<T>(s: seq<T>, i: nat, j: nat)
    requires i < j < |s| && s[i] == s[j]
    ensures multiset(s)[s[i]] >= 2
  {
    assert s == s[..i] + [s[i]] + s[i + 1..j] + [s[j]] + s[j + 1..];
  }

  lemma OnceInMultiset(s: seq<Info>, k: nat)
    requires k < |s| && UniqueIds(s)
    ensures multiset(s)[s[k]] == 1
  {
    assert s == s[..k] + [s[k]] + s[k + 1..];
    assert s[k] !in s[..k] && s[k] !in s[k + 1..];
  }

  // ---------------------------------------------------------------------------------------
  // Routing
  // ---------------------------------------------------------------------------------------

  /** Where a hash goes in a list of servers. */
  function Route(servers: seq<Info>, hash: nat): Option<Info> {
    if servers == [] then None else Some(servers[hash % |servers|])
  }

  /** Two pools that hold the same servers, in whatever way they came by them, send every hash to the same one. */
  lemma RoutingIgnoresHistory(a: seq<Info>, b: seq<Info>, hash: nat)
    requires SortedById(a) && SortedById(b) && multiset(a) == multiset(b) && UniqueIds(a)
    ensures Route(a, hash) == Route(b, hash)
  {
    SortedListIsUnique(a, b);
  }

  // ---------------------------------------------------------------------------------------
  // Sorting
  // ---------------------------------------------------------------------------------------

  predicate SortedBy<T>(key: T -> nat, s: seq<T>) {
    forall i, j :: 0 <= i < j < |s| ==> key(s[i]) <= key(s[j])
  }

  function Insert<T>(key: T -> nat, x: T, s: seq<T>): seq<T> {
    if s == [] || key(x) <= key(s[0]) then [x] + s else [s[0]] + Insert(key, x, s[1..])
  }

  lemma {:induction false} InsertContents<T>(key: T -> nat, x: T, s: seq<T>)
    ensures multiset(Insert(key, x, s)) == multiset(s) + multiset{x}
  {
    if s != [] && key(x) > key(s[0]) {
      InsertContents(key, x, s[1..]);
      assert s == [s[0]] + s[1..];
    }
  }

  lemma {:induction false} InsertSorts<T>(key: T -> nat, x: T, s: seq<T>, low: nat)
    requires SortedBy(key, s) && low <= key(x) && (s != [] ==> low <= key(s[0]))
    ensures SortedBy(key, Insert(key, x, s)) && low <= key(Insert(key, x, s)[0])
  {
    if s != [] && key(x) > key(s[0]) {
      var rest := s[1..];
      assert forall j :: 0 <= j < |rest| ==> rest[j] == s[j + 1];
      InsertSorts(key, x, rest, key(s[0]));
    }
  }

  /** The library's sort: sorted by key and a permutation; nothing is said about equal keys. */
  method Sort<T>(key: T -> nat, s: seq<T>) returns (r: seq<T>)
    ensures SortedBy(key, r) && multiset(r) == multiset(s)
  {
    r := [];
    for i := 0 to |s|
      invariant SortedBy(key, r) && multiset(r) == multiset(s[..i])
    {
      InsertSorts(key, s[i], r, 0);
      InsertContents(key, s[i], r);
      assert s[..i + 1] == s[..i] + [s[i]];
      r := Insert(key, s[i], r);
    }
    assert s[..|s|] == s;
  }

  // ---------------------------------------------------------------------------------------
  // The pool
  // ---------------------------------------------------------------------------------------

  datatype Connection = Absent | Closed | Opened

  /** A server's entry in a pool. Its id and address are set when it is made and never change. */
  class ServerContext {
    const info: Info
    var connection: Connection
    var deleteMark: bool

    constructor (info: Info)
      ensures this.info == info && connection == Absent && !deleteMark
    {
      this.info, connection, deleteMark := info, Absent, false;
    }
  }

  function Infos(s: seq<ServerContext>): (r: seq<Info>)
    ensures |r| == |s| && forall i :: 0 <= i < |s| ==> r[i] == s[i].info
  {
    if s == [] then [] else [s[0].info] + Infos(s[1..])
  }

  lemma {:induction false} InfosConcat(a: seq<ServerContext>, b: seq<ServerContext>)
    ensures Infos(a + b) == Infos(a) + Infos(b)
  {
  }

  lemma {:induction false} InfosKept(s: seq<ServerContext>, gone: seq<bool>)
    requires |s| == |gone|
    ensures Infos(Kept(s, gone)) == Kept(Infos(s), gone)
  {
    if s != [] {
      InfosKept(s[1..], gone[1..]);
    }
  }

  lemma PlaceInOther<T>(a: seq<T>, b: seq<T>) returns (j: nat)
    requires a != [] && multiset(a) == multiset(b)
    ensures j < |b| && b[j] == a[0]
  {
    assert a[0] in multiset(b);
    j :| j < |b| && b[j] == a[0];
  }

  lemma SameLength<T>(a: seq<T>, b: seq<T>)
    requires multiset(a) == multiset(b)
    ensures |a| == |b|
  {
    assert |a| == |multiset(a)| == |multiset(b)| == |b|;
  }

  /** Reordering contexts reorders what they say. */
  lemma {:induction false} InfosPermuted(a: seq<ServerContext>, b: seq<ServerContext>)
    requires multiset(a) == multiset(b)
    ensures multiset(Infos(a)) == multiset(Infos(b))
    decreases |a|
  {
    SameLength(a, b);
    if a != [] {
      var j := PlaceInOther(a, b);
      SameWithoutOne(a, b, j);
      InfosPermuted(a[1..], b[..j] + b[j + 1..]);
      InfosPutBack(a, b, j);
    }
  }

  lemma InfosPutBack(a: seq<ServerContext>, b: seq<ServerContext>, j: nat)
    requires a != [] && j < |b| && b[j] == a[0]
    requires multiset(Infos(a[1..])) == multiset(Infos(b[..j] + b[j + 1..]))
    ensures multiset(Infos(a)) == multiset(Infos(b))
  {
    hide Infos;
    InfosWithoutOne(b, j);
    InfosWithoutOne(a, 0);
    assert a[..0] + a[1..] == a[1..];
  }

  lemma SameWithoutOne<T>(a: seq<T>, b: seq<T>, j: nat)
    requires a != [] && j < |b| && b[j] == a[0] && multiset(a) == multiset(b)
    ensures multiset(a[1..]) == multiset(b[..j] + b[j + 1..])
  {
    WithoutOne(b, j);
    WithoutOne(a, 0);
    assert a[..0] + a[1..] == a[1..];
    assert multiset(a[1..]) == multiset(a) - multiset{a[0]};
    assert multiset(b[..j] + b[j + 1..]) == multiset(b) - multiset{a[0]};
  }

  lemma WithoutOne<T>(s: seq<T>, j: nat)
    requires j < |s|
    ensures multiset(s) == multiset(s[..j] + s[j + 1..]) + multiset{s[j]}
  {
    assert s == s[..j] + [s[j]] + s[j + 1..];
  }

  lemma InfosWithoutOne(s: seq<ServerContext>, j: nat)
    requires j < |s|
    ensures multiset(Infos(s)) == multiset(Infos(s[..j] + s[j + 1..])) + multiset{s[j].info}
  {
    hide Infos;
    var i := Infos(s);
    WithoutOne(i, j);
    var rest := s[..j] + s[j + 1..];
    var iRest := i[..j] + i[j + 1..];
    assert |rest| == |iRest| == |s| - 1;
    forall k | 0 <= k < |iRest| ensures Infos(rest)[k] == iRest[k] {
      assert rest[k] == s[if k < j then k else k + 1];
    }
    assert Infos(rest) == iRest;
  }

  /** The library's sort of contexts by id. */
  method SortContexts(s: seq<ServerContext>) returns (r: seq<ServerContext>)
    ensures SortedById(Infos(r)) && multiset(r) == multiset(s)
  {
    var key := (c: ServerContext) => c.info.serverId;
    r := Sort(key, s);
    forall i, j | 0 <= i < j < |r| ensures Infos(r)[i].serverId <= Infos(r)[j].serverId {
      assert key(r[i]) <= key(r[j]);
    }
  }

  method SortInfos(s: seq<Info>) returns (r: seq<Info>)
    ensures SortedById(r) && multiset(r) == multiset(s)
  {
    var key := (i: Info) => i.serverId;
    r := Sort(key, s);
    forall i, j | 0 <= i < j < |r| ensures r[i].serverId <= r[j].serverId {
      assert key(r[i]) <= key(r[j]);
    }
  }

  lemma ConsContents<T>(x: T, s: seq<T>)
    ensures multiset([x] + s) == multiset{x} + multiset(s)
  {
  }

  lemma {:induction false} KeptAndDropped<T>(s: seq<T>, gone: seq<bool>)
    requires |s| == |gone|
    ensures multiset(Kept(s, gone)) + multiset(Dropped(s, gone)) == multiset(s)
  {
    if s != [] {
      KeptAndDropped(s[1..], gone[1..]);
      assert s == [s[0]] + s[1..];
      ConsContents(s[0], s[1..]);
      ConsContents(s[0], Kept(s[1..], gone[1..]));
      ConsContents(s[0], Dropped(s[1..], gone[1..]));
    }
  }

  lemma {:induction false} KeptDroppedAppend<T>(s: seq<T>, gone: seq<bool>, x: T, g: bool)
    requires |s| == |gone|
    ensures Kept(s + [x], gone + [g]) == Kept(s, gone) + (if g then [] else [x])
    ensures Dropped(s + [x], gone + [g]) == Dropped(s, gone) + (if g then [x] else [])
  {
    if s != [] {
      assert (s + [x])[1..] == s[1..] + [x] && (gone + [g])[1..] == gone[1..] + [g];
      KeptDroppedAppend(s[1..], gone[1..], x, g);
    }
  }

  lemma PrefixAppend<T>(s: seq<T>, gone: seq<bool>, k: nat)
    requires |s| == |gone| && k < |s|
    ensures Kept(s[..k + 1], gone[..k + 1]) == Kept(s[..k], gone[..k]) + (if gone[k] then [] else [s[k]])
    ensures Dropped(s[..k + 1], gone[..k + 1]) == Dropped(s[..k], gone[..k]) + (if gone[k] then [s[k]] else [])
  {
    assert s[..k + 1] == s[..k] + [s[k]] && gone[..k + 1] == gone[..k] + [gone[k]];
    KeptDroppedAppend(s[..k], gone[..k], s[k], gone[k]);
  }

  lemma {:induction false} KeptSorted(s: seq<Info>, gone: seq<bool>)
    requires |s| == |gone| && SortedById(s)
    ensures SortedById(Kept(s, gone))
    ensures forall x :: x in Kept(s, gone) ==> x in s
  {
    if s != [] {
      KeptSorted(s[1..], gone[1..]);
      var rest := Kept(s[1..], gone[1..]);
      assert s == [s[0]] + s[1..];
      forall j | 0 <= j < |rest| ensures s[0].serverId <= rest[j].serverId {
        assert rest[j] in s[1..];
      }
    }
  }

  /** The entries of the merge still to be looked at. */
  ghost predicate Remaining(infos: seq<Info>, wanted: seq<Info>, i: nat, j: nat, added: seq<Info>) {
    && i <= |infos| && j <= |wanted|
    && Diff(infos, wanted).gone[i..] == Diff(infos[i..], wanted[j..]).gone
    && Diff(infos, wanted).added == added + Diff(infos[i..], wanted[j..]).added
  }

  /** One comparison of the heads of two lists. */
  lemma DiffHeads(prior: seq<Info>, wanted: seq<Info>)
    requires prior != [] && wanted != []
    ensures var o, n, d := prior[0], wanted[0], Diff(prior, wanted);
      && (o.serverId == n.serverId && o.address != n.address ==>
            var r := Diff(prior[1..], wanted[1..]); d.gone == [true] + r.gone && d.added == [n] + r.added)
      && (o.serverId == n.serverId && o.address == n.address ==>
            var r := Diff(prior[1..], wanted[1..]); d.gone == [false] + r.gone && d.added == r.added)
      && (o.serverId < n.serverId ==> var r := Diff(prior[1..], wanted);
        d.gone == [true] + r.gone && d.added == r.added)
      && (o.serverId > n.serverId ==> var r := Diff(prior, wanted[1..]); d.gone == r.gone && d.added == [n] + r.added)
  {
  }

  lemma GoneMoves(gone: seq<bool>, i: nat, head: bool, rest: seq<bool>)
    requires i < |gone| && gone[i..] == [head] + rest
    ensures gone[i] == head && gone[i + 1..] == rest
  {
    assert gone[i..][0] == gone[i] && gone[i..][1..] == gone[i + 1..];
  }

  lemma AddedMoves(added: seq<Info>, n: Info, rest: seq<Info>)
    ensures added + ([n] + rest) == (added + [n]) + rest
  {
  }

  lemma RemainingStep(infos: seq<Info>, wanted: seq<Info>, i: nat, j: nat, added: seq<Info>)
    requires Remaining(infos, wanted, i, j, added) && i < |infos| && j < |wanted|
    ensures var o, n := infos[i], wanted[j];
      var gone := Diff(infos, wanted).gone[i];
      && (o.serverId == n.serverId && o.address != n.address ==>
        gone && Remaining(infos, wanted, i + 1, j + 1, added + [n]))
      && (o.serverId == n.serverId && o.address == n.address ==> !gone && Remaining(infos, wanted, i + 1, j + 1, added))
      && (o.serverId < n.serverId ==> gone && Remaining(infos, wanted, i + 1, j, added))
      && (o.serverId > n.serverId ==> Remaining(infos, wanted, i, j + 1, added + [n]))
  {
    hide Diff;
    assert infos[i..][1..] == infos[i + 1..] && wanted[j..][1..] == wanted[j + 1..];
    DiffHeads(infos[i..], wanted[j..]);
    var gone := Diff(infos, wanted).gone;
    var o, n := infos[i], wanted[j];
    if o.serverId == n.serverId {
      var r := Diff(infos[i + 1..], wanted[j + 1..]);
      GoneMoves(gone, i, o.address != n.address, r.gone);
      AddedMoves(added, n, r.added);
    } else if o.serverId < n.serverId {
      GoneMoves(gone, i, true, Diff(infos[i + 1..], wanted[j..]).gone);
    } else {
      AddedMoves(added, n, Diff(infos[i..], wanted[j + 1..]).added);
    }
  }

  lemma NothingOldLeft(infos: seq<Info>, wanted: seq<Info>, j: nat, added: seq<Info>)
    requires Remaining(infos, wanted, |infos|, j, added)
    ensures Diff(infos, wanted).added == added + wanted[j..]
  {
    assert infos[|infos|..] == [];
  }

  lemma NothingNewLeft(infos: seq<Info>, wanted: seq<Info>, i: nat, added: seq<Info>)
    requires Remaining(infos, wanted, i, |wanted|, added)
    ensures Diff(infos, wanted).added == added
    ensures forall k :: i <= k < |infos| ==> Diff(infos, wanted).gone[k]
  {
    assert wanted[|wanted|..] == [];
    var gone := Diff(infos, wanted).gone;
    forall k | i <= k < |infos| ensures gone[k] {
      assert gone[i..][k - i] == gone[k];
    }
  }

  lemma NoneTwice<T>(s: seq<T>, all: set<T>)
    requires multiset(s) <= multiset(all)
    ensures Distinct(s)
  {
    forall i, j | 0 <= i < j < |s| ensures s[i] != s[j] {
      if s[i] == s[j] {
        TwiceInMultiset(s, i, j);
      }
    }
  }

  lemma {:induction false} KeptMembers<T>(s: seq<T>, gone: seq<bool>, k: nat)
    requires |s| == |gone| && k < |s| && Distinct(s)
    ensures s[k] in Kept(s, gone) <==> !gone[k]
    ensures s[k] in Dropped(s, gone) <==> gone[k]
  {
    KeptAndDropped(s[1..], gone[1..]);
    assert s == [s[0]] + s[1..];
    if k == 0 {
      assert s[0] !in s[1..];
      assert s[0] !in multiset(s[1..]);
      assert s[0] !in multiset(Kept(s[1..], gone[1..])) && s[0] !in multiset(Dropped(s[1..], gone[1..]));
    } else {
      KeptMembers(s[1..], gone[1..], k - 1);
    }
  }

  /** Marks agree with the plan as far as entry `i`, and nothing beyond is marked. */
  ghost predicate MarkedUpTo(s: seq<ServerContext>, gone: seq<bool>, i: nat)
    reads s
  {
    |gone| == |s| && forall k :: 0 <= k < |s| ==> (s[k].deleteMark <==> k < i && gone[k])
  }

  /** Together with `others`, the contexts in the list are all that were made. */
  ghost predicate Accounted(s: seq<ServerContext>, others: multiset<ServerContext>, made: set<ServerContext>) {
    multiset(s) + others == multiset(made)
  }

  lemma NotMarked(s: seq<ServerContext>, gone: seq<bool>, i: nat)
    requires MarkedUpTo(s, gone, i) && i < |s| && !gone[i]
    ensures MarkedUpTo(s, gone, i + 1)
  {
  }

  /** Every context has a connection object; deleting a context relies on it. */
  ghost predicate AllConnected(s: seq<ServerContext>)
    reads s
  {
    forall c :: c in s ==> c.connection != Absent
  }

  ghost predicate NoneMarked(s: seq<ServerContext>)
    reads s
  {
    forall c :: c in s ==> !c.deleteMark
  }

  ghost predicate ClosingKnown(closing: seq<ServerContext>, active: seq<ServerContext>, toDelete: seq<ServerContext>) {
    Distinct(closing) && forall c :: c in closing ==> c in active || c in toDelete
  }

  ghost predicate AllNew(s: seq<ServerContext>)
    reads s
  {
    forall c :: c in s ==> c.connection == Absent && !c.deleteMark
  }

  class ServiceClientHashPool {
    var active: seq<ServerContext>
    var uninitialized: seq<ServerContext>
    var toDelete: seq<ServerContext>
    var closing: seq<ServerContext>
    var reconnect: seq<ServerContext>
    ghost var made: set<ServerContext>
    ghost var freed: set<ServerContext>

    /** Every context ever made is in exactly one list, once, or was freed, once. */
    ghost predicate Conserved()
      reads this
    {
      multiset(active) + multiset(uninitialized) + multiset(toDelete) + multiset(freed) == multiset(made)
    }

    ghost predicate Valid()
      reads this, active, uninitialized, toDelete
    {
      && Conserved()
      && SortedById(Infos(active))
      && AllConnected(active) && NoneMarked(active) && AllNew(uninitialized) && AllConnected(toDelete)
      && ClosingKnown(closing, active, toDelete)
      && reconnect == []
    }

    constructor ()
      ensures Valid() && active == uninitialized == toDelete == closing == [] && made == freed == {}
    {
      active, uninitialized, toDelete, closing, reconnect := [], [], [], [], [];
      made, freed := {}, {};
    }

    /** Posts to the server that the hash selects; `encoded` is the size of the written message. */
    method PostMessage(hash: nat, connected: ServerContext -> bool, encoded: nat)
      returns (target: Option<ServerContext>)
      ensures Route(Infos(active), hash).None? ==> target.None?
      ensures target.Some? ==>
        encoded != 0 && connected(target.value) && Route(Infos(active), hash) == Some(target.value.info)
      ensures active != [] && connected(active[hash % |active|]) && encoded != 0 ==>
        target == Some(active[hash % |active|])
      ensures target.Some? ==> target.value in active
    {
      if active == [] {
        return None;
      }
      var c := active[hash % |active|];
      if !connected(c) || encoded == 0 {
        return None;
      }
      return Some(c);
    }

    method AddNew(info: Info, ghost others: multiset<ServerContext>)
      requires AllNew(uninitialized) && Accounted(uninitialized, others, made)
      modifies `uninitialized, `made
      ensures Infos(uninitialized) == Infos(old(uninitialized)) + [info] && AllNew(uninitialized)
      ensures forall c :: c in uninitialized ==> c in old(uninitialized) || fresh(c)
      ensures Accounted(uninitialized, others, made)
    {
      var c := new ServerContext(info);
      InfosConcat(uninitialized, [c]);
      assert Infos([c]) == [info];
      assert c !in made;
      assert multiset(made + {c}) == multiset(made) + multiset{c};
      uninitialized := uninitialized + [c];
      made := made + {c};
    }

    /** `erase_if`: keeps the unmarked contexts in their order. */
    method EraseMarked(ghost gone: seq<bool>)
      requires |gone| == |active| && forall k :: 0 <= k < |active| ==> active[k].deleteMark == gone[k]
      modifies `active
      ensures active == Kept(old(active), gone)
    {
      var r := [];
      for k := 0 to |active|
        invariant active == old(active) && r == Kept(active[..k], gone[..k])
      {
        PrefixAppend(active, gone, k);
        if !active[k].deleteMark {
          r := r + [active[k]];
        }
      }
      assert active[..|active|] == active && gone[..|gone|] == gone;
      active := r;
    }
 
    /** `S->DeleteMark = true` and the move to the list of those to delete. */
    method MarkDeleted(i: nat, ghost gone: seq<bool>)
      requires i < |active| && Distinct(active) && MarkedUpTo(active, gone, i) && gone[i]
      modifies `toDelete, {active[i]}`deleteMark
      ensures toDelete == old(toDelete) + [active[i]] && MarkedUpTo(active, gone, i + 1)
    {
      active[i].deleteMark := true;
      toDelete := toDelete + [active[i]];
    }

    /** Marks all old contexts from the i-th on. */
    method MarkRest(start: nat, ghost gone: seq<bool>)
      requires start <= |active| && Distinct(active) && MarkedUpTo(active, gone, start)
      requires forall k :: start <= k < |active| ==> gone[k]
      requires toDelete == Dropped(active[..start], gone[..start])
      modifies `toDelete, (set c | c in active)`deleteMark
      ensures toDelete == Dropped(active, gone) && MarkedUpTo(active, gone, |active|)
    {
      hide Dropped, MarkedUpTo;
      MarkedLength(active, gone, start);
      for i := start to |active|
        invariant MarkedUpTo(active, gone, i)
        invariant toDelete == Dropped(active[..i], gone[..i])
      {
        PrefixAppend(active, gone, i);
        MarkDeleted(i, gone);
      }
      assert active[..|active|] == active && gone[..|gone|] == gone;
    }

    /** Makes contexts for all new entries from the j-th on. */
    method AddRest(sorted: seq<Info>, start: nat, ghost others: multiset<ServerContext>)
      requires start <= |sorted| && AllNew(uninitialized) && Accounted(uninitialized, others, made)
      modifies `uninitialized, `made
      ensures Infos(uninitialized) == Infos(old(uninitialized)) + sorted[start..]
      ensures AllNew(uninitialized) && Accounted(uninitialized, others, made)
      ensures forall c :: c in uninitialized ==> c in old(uninitialized) || fresh(c)
    {
      hide Infos, Accounted, AllNew;
      for j := start to |sorted|
        invariant Infos(uninitialized) + sorted[j..] == Infos(old(uninitialized)) + sorted[start..]
        invariant AllNew(uninitialized) && Accounted(uninitialized, others, made)
        invariant forall c :: c in uninitialized ==> c in old(uninitialized) || fresh(c)
      {
        ghost var before := Infos(uninitialized);
        AddNew(sorted[j], others);
        assert sorted[j..] == [sorted[j]] + sorted[j + 1..];
        assert before + ([sorted[j]] + sorted[j + 1..]) == (before + [sorted[j]]) + sorted[j + 1..];
      }
    }

    /** Old contexts whose entry the new list does not have wait for deletion, new entries wait for
        initialisation, all others stay where they are. Neither list waits when the call is made. */
    method UpdateServerList(newList: seq<Info>)
      requires Valid() && uninitialized == [] && toDelete == []
      modifies `active, `uninitialized, `toDelete, `made, (set c | c in active)`deleteMark
      ensures Valid()
      ensures multiset(Infos(active)) + multiset(Infos(uninitialized)) == multiset(newList)
      ensures multiset(active) + multiset(toDelete) == multiset(old(active))
      ensures forall c :: c in uninitialized ==> fresh(c)
      ensures UniqueIds(Infos(old(active))) && UniqueIds(newList) ==> StaysIfListed(old(active), active, newList)
    {
      hide Kept, Dropped, Diff, MarkedUpTo, Accounted, StaysIfListed, UniqueIds, SortedById, Infos;
      hide AllConnected, NoneMarked, AllNew, ClosingKnown;
      var sorted := SortInfos(newList);
      ghost var contexts, infos := active, Infos(active);
      ghost var gone, others := Diff(infos, sorted).gone, multiset(active) + multiset(freed);
      NoneTwice(active, made);
      UpdateStarts(contexts, gone, others, made);
      label start:
      Merge(sorted, gone, others);
      StillConnected@start(contexts);
      MarksAgree(contexts, gone);
      EraseMarked(gone);
      KeptFlags(contexts, gone, closing);
      UpdateDone(contexts, infos, sorted, newList);
      UpdateAccounts(contexts, gone, uninitialized, freed, made);
    }

    /** The two-index comparison of the active list with the sorted new one. */
    method Merge(sorted: seq<Info>, ghost gone: seq<bool>, ghost others: multiset<ServerContext>)
      requires Distinct(active) && gone == Diff(Infos(active), sorted).gone && MarkedUpTo(active, gone, 0)
      requires uninitialized == [] && toDelete == [] && AllNew(uninitialized) && Accounted(uninitialized, others, made)
      modifies `uninitialized, `toDelete, `made, (set c | c in active)`deleteMark
      ensures Infos(uninitialized) == Diff(Infos(active), sorted).added && toDelete == Dropped(active, gone)
      ensures MarkedUpTo(active, gone, |active|)
      ensures AllNew(uninitialized) && Accounted(uninitialized, others, made)
      ensures forall c :: c in uninitialized ==> fresh(c)
    {
      hide Dropped, MarkedUpTo, Diff, Remaining, Accounted, Infos, Distinct;
      ghost var infos := Infos(active);
      MergeStarts(infos, sorted);
      DroppedNone(active, gone);
      var i, j := 0, 0;
      while true
        invariant 0 <= i <= |active| && 0 <= j <= |sorted|
        invariant Remaining(infos, sorted, i, j, Infos(uninitialized))
        invariant toDelete == Dropped(active[..i], gone[..i]) && MarkedUpTo(active, gone, i)
        invariant AllNew(uninitialized) && Accounted(uninitialized, others, made)
        invariant forall c :: c in uninitialized ==> fresh(c)
        decreases |active| - i + |sorted| - j
      {
        if i >= |active| {
          NothingOldLeft(infos, sorted, j, Infos(uninitialized));
          assert active[..|active|] == active && gone[..|gone|] == gone;
          AddRest(sorted, j, others);
          break;
        }
        if j >= |sorted| {
          NothingNewLeft(infos, sorted, i, Infos(uninitialized));
          MarkRest(i, gone);
          break;
        }
        i, j := MergeStep(infos, sorted, gone, others, i, j);
      }
    }

    /** One comparison: an old entry stays, is replaced or goes, or a new one comes in. */
    method MergeStep(ghost infos: seq<Info>, sorted: seq<Info>, ghost gone: seq<bool>,
                     ghost others: multiset<ServerContext>,
                     i: nat, j: nat) returns (i': nat, j': nat)
      requires i < |active| && j < |sorted| && infos == Infos(active) && gone == Diff(infos, sorted).gone
      requires Distinct(active) && MarkedUpTo(active, gone, i) && toDelete == Dropped(active[..i], gone[..i])
      requires Remaining(infos, sorted, i, j, Infos(uninitialized))
      requires AllNew(uninitialized) && Accounted(uninitialized, others, made)
      requires forall c :: c in uninitialized ==> c !in active
      modifies `uninitialized, `toDelete, `made, (set c | c in active)`deleteMark
      ensures i <= i' <= |active| && j <= j' <= |sorted| && i' + j' > i + j
      ensures MarkedUpTo(active, gone, i') && toDelete == Dropped(active[..i'], gone[..i'])
      ensures Remaining(infos, sorted, i', j', Infos(uninitialized))
      ensures AllNew(uninitialized) && Accounted(uninitialized, others, made)
      ensures forall c :: c in uninitialized ==> c in old(uninitialized) || fresh(c)
    {
      hide Dropped, MarkedUpTo, Diff, Remaining, Accounted;
      RemainingStep(infos, sorted, i, j, Infos(uninitialized));
      PrefixAppend(active, gone, i);
      if active[i].info.serverId == sorted[j].serverId {
        if active[i].info.address != sorted[j].address {
          MarkDeleted(i, gone);
          AddNew(sorted[j], others);
        } else {
          NotMarked(active, gone, i);
        }
        return i + 1, j + 1;
      } else if active[i].info.serverId < sorted[j].serverId {
        MarkDeleted(i, gone);
        return i + 1, j;
      } else {
        AddNew(sorted[j], others);
        return i, j + 1;
      }
    }

    /** New contexts get their connection object and are due to connect. */
    method InitialiseNew()
      requires AllNew(uninitialized)
      modifies `reconnect, (set c | c in uninitialized)`connection
      ensures reconnect == old(reconnect) + uninitialized && AllConnected(uninitialized)
    {
      for k := 0 to |uninitialized|
        invariant reconnect == old(reconnect) + uninitialized[..k]
        invariant AllConnected(uninitialized[..k])
      {
        var c := uninitialized[k];
        c.connection := Closed;
        reconnect := reconnect + [c];
        assert uninitialized[..k + 1] == uninitialized[..k] + [c];
      }
      assert uninitialized[..|uninitialized|] == uninitialized;
    }

    /** New contexts are initialised and join the active list, in order of id. */
    method PromoteNew()
      requires Conserved() && reconnect == [] && AllConnected(active) && NoneMarked(active) && AllNew(uninitialized)
      modifies `active, `uninitialized, `reconnect, (set c | c in uninitialized)`connection
      ensures uninitialized == [] && reconnect == old(uninitialized)
      ensures multiset(active) == multiset(old(active)) + multiset(old(uninitialized))
      ensures forall c :: c in active <==> c in old(active) || c in old(uninitialized)
      ensures SortedById(Infos(active)) && AllConnected(active) && NoneMarked(active)
      ensures Accounted(toDelete, multiset(active) + multiset(freed), made)
    {
      hide SortedById, Infos;
      ghost var was, added := active, uninitialized;
      InitialiseNew();
      active := active + uninitialized;
      active := SortContexts(active);
      SameMembers(active, was + added);
      uninitialized := [];
    }

    /** Frees the contexts waiting for it; none of them was freed before, and all have a connection object. */
    method DeleteDropped()
      requires AllConnected(toDelete) && Distinct(closing)
      requires Accounted(toDelete, multiset(active) + multiset(freed), made)
      modifies `freed, `closing, `toDelete, (set c | c in toDelete)`connection
      ensures toDelete == [] && Accounted([], multiset(active) + multiset(freed), made)
      ensures freed == old(freed) + (set c | c in old(toDelete))
      ensures Distinct(closing) && forall c :: c in closing <==> c in old(closing) && c !in old(toDelete)
    {
      ghost var list := toDelete;
      assert list[0..] == list;
      for k := 0 to |toDelete|
        invariant toDelete == list && AllConnected(list)
        invariant Accounted(list[k..], multiset(active) + multiset(freed), made)
        invariant freed == old(freed) + (set c | c in list[..k])
        invariant Distinct(closing) && forall c :: c in closing <==> c in old(closing) && c !in list[..k]
      {
        var c := toDelete[k];
        assert list[k..] == [c] + list[k + 1..] && list[..k + 1] == list[..k] + [c];
        assert c.connection != Absent;
        NotYetFreed(list[k..], active, freed, made);
        c.connection := Closed;
        freed := freed + {c};
        UnlinkMembers(closing, c);
        closing := Unlink(closing, c);
      }
      assert list[|list|..] == [] && list[..|list|] == list;
      toDelete := [];
    }

    /** Closes the connections the peer has closed; they are due to connect again. */
    method CloseOld()
      requires AllConnected(closing)
      modifies `reconnect, `closing, (set c | c in closing)`connection
      ensures reconnect == old(reconnect) + old(closing) && closing == [] && AllConnected(old(closing))
    {
      for k := 0 to |closing|
        invariant closing == old(closing) && reconnect == old(reconnect) && AllConnected(closing)
      {
        closing[k].connection := Closed;
      }
      reconnect := reconnect + closing;
      closing := [];
    }

    method Reconnect()
      modifies `reconnect, (set c | c in reconnect)`connection
      ensures reconnect == [] && forall c :: c in old(reconnect) ==> c.connection == Opened
    {
      ghost var k := 0;
      ghost var list := reconnect;
      while reconnect != []
        invariant 0 <= k <= |list| && reconnect == list[k..]
        invariant forall c :: c in list[..k] ==> c.connection == Opened
        decreases |reconnect|
      {
        var c := reconnect[0];
        reconnect := reconnect[1..];
        c.connection := Opened;
        assert list[..k + 1] == list[..k] + [c];
        k := k + 1;
      }
      assert list[..k] == list;
    }

    /** New contexts, and those whose peer has closed, connect. */
    method ConnectDue()
      requires AllConnected(closing)
      modifies `reconnect, `closing, (set c | c in reconnect)`connection, (set c | c in closing)`connection
      ensures reconnect == closing == []
      ensures forall c :: c in old(reconnect) || c in old(closing) ==> c.connection == Opened
    {
      CloseOld();
      Reconnect();
    }

    /** New contexts join the active list in order of id, the dropped ones are freed, and exactly the
        connections that are new or were closed by the peer are opened. */
    method Tick()
      requires Valid()
      modifies this, (set c | c in active)`connection, (set c | c in uninitialized)`connection,
        (set c | c in toDelete)`connection
      ensures Valid() && uninitialized == toDelete == closing == []
      ensures multiset(active) == multiset(old(active)) + multiset(old(uninitialized))
      ensures freed == old(freed) + (set c | c in old(toDelete)) && made == old(made)
      ensures forall c :: c in active && (c in old(uninitialized) || c in old(closing)) ==> c.connection == Opened
      ensures forall c :: c in old(active) && c !in old(closing) ==> c.connection == old(c.connection)
    {
      hide SortedById, Infos, Accounted;
      Separate(active, uninitialized, toDelete, freed, made);
      PromoteNew();
      DeleteDropped();
      ConnectDue();
      NoneLeftAccounts(active, freed, made);
    }

    /** An update and the tick after it: the pool holds exactly the new list, in order of id, and with
        unique ids an old context is still in the pool if its entry is listed, and freed if it is not. */
    method Reconcile(newList: seq<Info>)
      requires Valid() && uninitialized == [] && toDelete == []
      modifies this, (set c | c in active)
      ensures Valid() && uninitialized == [] && toDelete == []
      ensures SortedById(Infos(active)) && multiset(Infos(active)) == multiset(newList)
      ensures forall c :: c in active ==> c in old(active) || fresh(c)
      ensures forall c :: c in old(active) ==> c in active || (c in freed && c !in old(freed))
      ensures old(freed) <= freed
      ensures UniqueIds(Infos(old(active))) && UniqueIds(newList) ==> StaysIfListed(old(active), active, newList)
    {
      hide SortedById, Infos, UniqueIds, AllConnected, NoneMarked, AllNew, ClosingKnown;
      ghost var was, freedBefore := active, freed;
      UpdateServerList(newList);
      ghost var kept, added, dropped := active, uninitialized, toDelete;
      Separate(active, uninitialized, toDelete, freed, made);
      SameMembers(kept + dropped, was);
      NotFreed(active, uninitialized, toDelete, freed, made);
      Tick();
      SameMembers(active, kept + added);
      InfosPermuted(active, kept + added);
      InfosConcat(kept, added);
    }

    /** Frees the contexts of one list. */
    method FreeAll(list: seq<ServerContext>, ghost others: multiset<ServerContext>)
      requires Accounted(list, others + multiset(freed), made)
      modifies `freed, (set c | c in list)`connection
      ensures Accounted([], others + multiset(freed), made)
    {
      assert list[0..] == list;
      for k := 0 to |list|
        invariant Accounted(list[k..], others + multiset(freed), made)
      {
        assert list[k..] == [list[k]] + list[k + 1..];
        FreeAccounts(list[k..], others, freed, made);
        list[k].connection := Closed;
        freed := freed + {list[k]};
      }
      assert list[|list|..] == [];
    }

    /** In the end every context that was made has been freed, once. */
    method Clean()
      requires Valid()
      modifies this, (set c | c in active)`connection, (set c | c in uninitialized)`connection,
        (set c | c in toDelete)`connection
      ensures freed == made == old(made)
      ensures active == uninitialized == toDelete == closing == reconnect == []
    {
      hide Accounted, SortedById, Infos;
      CleanStarts(active, uninitialized, toDelete, freed, made);
      FreeAll(active, multiset(uninitialized) + multiset(toDelete));
      NextList(toDelete, uninitialized, freed, made);
      FreeAll(toDelete, multiset(uninitialized));
      LastList(uninitialized, freed, made);
      FreeAll(uninitialized, multiset{});
      AllFreed(freed, made);
      active, uninitialized, toDelete, closing := [], [], [], [];
      assert reconnect == [];
    }

    /** The peers at some places of the active list close; a closed connection does not close again. */
    method ClosePeers(places: seq<nat>)
      requires Valid()
      modifies `closing
      ensures Valid()
      ensures forall c ::
        c in closing <==> c in old(closing) || exists i :: i in places && i < |active| && active[i] == c
    {
      hide SortedById, Infos;
      for k := 0 to |places|
        invariant Valid()
        invariant forall c ::
          c in closing <==> c in old(closing) || exists i :: i in places[..k] && i < |active| && active[i] == c
      {
        if places[k] < |active| && active[places[k]] !in closing { OnPeerClose(active[places[k]]); }
        assert places[..k + 1] == places[..k] + [places[k]];
      }
      assert places[..|places|] == places;
    }

    /** The peer has closed the connection of `c`; a context is in at most one list at a time. */
    method OnPeerClose(c: ServerContext)
      requires Valid() && (c in active || c in toDelete) && c !in closing
      modifies `closing
      ensures Valid() && closing == old(closing) + [c]
    {
      closing := closing + [c];
    }
  }

  lemma NotYetFreed(list: seq<ServerContext>, active: seq<ServerContext>, freed: set<ServerContext>,
                    made: set<ServerContext>)
    requires list != [] && Accounted(list, multiset(active) + multiset(freed), made)
    ensures list[0] !in freed && Accounted(list[1..], multiset(active) + multiset(freed + {list[0]}), made)
  {
    assert list == [list[0]] + list[1..];
    assert multiset(made)[list[0]] <= 1;
    assert multiset(freed + {list[0]}) == multiset(freed) + multiset{list[0]};
  }

  lemma Separate(active: seq<ServerContext>, added: seq<ServerContext>, dropped: seq<ServerContext>,
                 freed: set<ServerContext>, made: set<ServerContext>)
    requires multiset(active) + multiset(added) + multiset(dropped) + multiset(freed) == multiset(made)
    ensures forall c :: c in active ==> c !in added && c !in dropped
    ensures forall c :: c in added ==> c !in dropped
  {
    forall c | c in active ensures c !in added && c !in dropped {
      assert multiset(active)[c] >= 1 && multiset(made)[c] <= 1;
    }
    forall c | c in added ensures c !in dropped {
      assert multiset(added)[c] >= 1 && multiset(made)[c] <= 1;
    }
  }

  lemma NoneLeftAccounts(active: seq<ServerContext>, freed: set<ServerContext>, made: set<ServerContext>)
    requires Accounted([], multiset(active) + multiset(freed), made)
    ensures multiset(active) + multiset{} + multiset{} + multiset(freed) == multiset(made)
  {
  }

  lemma FreeAccounts(list: seq<ServerContext>, others: multiset<ServerContext>, freed: set<ServerContext>,
                     made: set<ServerContext>)
    requires list != [] && Accounted(list, others + multiset(freed), made)
    ensures list[0] !in freed && Accounted(list[1..], others + multiset(freed + {list[0]}), made)
  {
    assert list == [list[0]] + list[1..];
    assert multiset(made)[list[0]] <= 1;
    assert multiset(freed + {list[0]}) == multiset(freed) + multiset{list[0]};
  }

  lemma CleanStarts(active: seq<ServerContext>, added: seq<ServerContext>, dropped: seq<ServerContext>,
                    freed: set<ServerContext>, made: set<ServerContext>)
    requires multiset(active) + multiset(added) + multiset(dropped) + multiset(freed) == multiset(made)
    ensures Accounted(active, multiset(added) + multiset(dropped) + multiset(freed), made)
  {
  }

  lemma NextList(dropped: seq<ServerContext>, added: seq<ServerContext>, freed: set<ServerContext>,
                 made: set<ServerContext>)
    requires Accounted([], multiset(added) + multiset(dropped) + multiset(freed), made)
    ensures Accounted(dropped, multiset(added) + multiset(freed), made)
  {
  }

  lemma LastList(added: seq<ServerContext>, freed: set<ServerContext>, made: set<ServerContext>)
    requires Accounted([], multiset(added) + multiset(freed), made)
    ensures Accounted(added, multiset{} + multiset(freed), made)
  {
  }

  lemma AllFreed(freed: set<ServerContext>, made: set<ServerContext>)
    requires Accounted([], multiset{} + multiset(freed), made)
    ensures freed == made
  {
    forall c ensures c in freed <==> c in made {
      assert c in multiset(freed) <==> c in multiset(made);
    }
  }

  lemma NotFreed(active: seq<ServerContext>, added: seq<ServerContext>, dropped: seq<ServerContext>,
                 freed: set<ServerContext>, made: set<ServerContext>)
    requires multiset(active) + multiset(added) + multiset(dropped) + multiset(freed) == multiset(made)
    ensures forall c :: c in dropped ==> c !in freed
  {
    forall c | c in dropped ensures c !in freed {
      assert multiset(dropped)[c] >= 1 && multiset(made)[c] <= 1;
    }
  }

  lemma SameMembers<T>(a: seq<T>, b: seq<T>)
    requires multiset(a) == multiset(b)
    ensures forall x :: x in a <==> x in b
  {
    forall x ensures x in a <==> x in b {
      assert x in a <==> x in multiset(a);
      assert x in b <==> x in multiset(b);
    }
  }

  lemma UpdateStarts(contexts: seq<ServerContext>, gone: seq<bool>, others: multiset<ServerContext>,
                     made: set<ServerContext>)
    requires |gone| == |contexts| && others == multiset(made)
    requires NoneMarked(contexts)
    ensures MarkedUpTo(contexts, gone, 0) && Accounted([], others, made) && AllNew([])
  {
  }

  twostate lemma StillConnected(s: seq<ServerContext>)
    requires old(AllConnected(s)) && forall c :: c in s ==> c.connection == old(c.connection)
    ensures AllConnected(s)
  {
  }

  /** Once all old contexts were compared, the unmarked ones are those that stay. */
  lemma MarksAgree(contexts: seq<ServerContext>, gone: seq<bool>)
    requires MarkedUpTo(contexts, gone, |contexts|)
    ensures forall k :: 0 <= k < |contexts| ==> contexts[k].deleteMark == gone[k]
  {
  }

  lemma KeptFlags(contexts: seq<ServerContext>, gone: seq<bool>, closing: seq<ServerContext>)
    requires MarkedUpTo(contexts, gone, |contexts|) && Distinct(contexts) && AllConnected(contexts)
    requires ClosingKnown(closing, contexts, [])
    ensures NoneMarked(Kept(contexts, gone)) && AllConnected(Kept(contexts, gone))
      && AllConnected(Dropped(contexts, gone))
    ensures ClosingKnown(closing, Kept(contexts, gone), Dropped(contexts, gone))
  {
    KeptAndDropped(contexts, gone);
    forall c | c in Kept(contexts, gone) ensures c in contexts && !c.deleteMark {
      assert c in multiset(Kept(contexts, gone)) && c in multiset(contexts);
      var k :| 0 <= k < |contexts| && contexts[k] == c;
      KeptMembers(contexts, gone, k);
    }
    forall c | c in Dropped(contexts, gone) ensures c in contexts {
      assert c in multiset(Dropped(contexts, gone)) && c in multiset(contexts);
    }
    forall c | c in contexts ensures c in Kept(contexts, gone) || c in Dropped(contexts, gone) {
      var k :| 0 <= k < |contexts| && contexts[k] == c;
      KeptMembers(contexts, gone, k);
    }
  }

  lemma UpdateAccounts(contexts: seq<ServerContext>, gone: seq<bool>, added: seq<ServerContext>,
                       freed: set<ServerContext>, made: set<ServerContext>)
    requires |gone| == |contexts| && Accounted(added, multiset(contexts) + multiset(freed), made)
    ensures multiset(Kept(contexts, gone)) + multiset(added) + multiset(Dropped(contexts, gone)) + multiset(freed) ==
      multiset(made)
  {
    KeptAndDropped(contexts, gone);
  }

  lemma MarkedLength(s: seq<ServerContext>, gone: seq<bool>, i: nat)
    requires MarkedUpTo(s, gone, i)
    ensures |gone| == |s|
  {
  }

  lemma DroppedNone(s: seq<ServerContext>, gone: seq<bool>)
    ensures Dropped(s[..0], gone[..0]) == []
  {
  }

  lemma MergeStarts(infos: seq<Info>, sorted: seq<Info>)
    ensures Remaining(infos, sorted, 0, 0, [])
  {
    var plan := Diff(infos, sorted);
    assert infos[0..] == infos && sorted[0..] == sorted && plan.gone[0..] == plan.gone && [] + plan.added == plan.added;
  }

  lemma UpdateDone(contexts: seq<ServerContext>, infos: seq<Info>, sorted: seq<Info>, newList: seq<Info>)
    requires infos == Infos(contexts) && Distinct(contexts) && SortedById(infos) && SortedById(sorted)
    requires multiset(sorted) == multiset(newList)
    ensures var plan := Diff(infos, sorted);
      && SortedById(Infos(Kept(contexts, plan.gone)))
      && multiset(Infos(Kept(contexts, plan.gone))) + multiset(plan.added) == multiset(newList)
      && multiset(Kept(contexts, plan.gone)) + multiset(Dropped(contexts, plan.gone)) == multiset(contexts)
      && (UniqueIds(infos) && UniqueIds(newList) ==> StaysIfListed(contexts, Kept(contexts, plan.gone), newList))
  {
    var plan := Diff(infos, sorted);
    InfosKept(contexts, plan.gone);
    KeptSorted(infos, plan.gone);
    DiffIsExact(infos, sorted);
    KeptAndDropped(contexts, plan.gone);
    if UniqueIds(infos) && UniqueIds(newList) {
      UniqueByContents(newList, sorted);
      forall c | c in contexts ensures c in Kept(contexts, plan.gone) <==> c.info in newList {
        var k :| 0 <= k < |contexts| && contexts[k] == c;
        KeptMembers(contexts, plan.gone, k);
        DiffKeepsUnchanged(infos, sorted, k);
        assert c.info in newList <==> c.info in multiset(newList);
        assert c.info in sorted <==> c.info in multiset(sorted);
      }
    }
  }

  /** Of the old contexts, those remain whose entry is in the new list. */
  ghost predicate StaysIfListed(before: seq<ServerContext>, after: seq<ServerContext>, newList: seq<Info>) {
    forall c :: c in before ==> (c in after <==> c.info in newList)
  }

  /** A published list, and the places of the active list whose connections are closed by their peers
      once the pool has taken it over. */
  datatype Round = Round(list: seq<Info>, closed: seq<nat>)

  /** What one round makes of the active list: it holds exactly the new list in order, with unique ids an
      old context stays exactly if its entry is listed, and the others were freed. */
  ghost predicate FollowsRound(before: seq<ServerContext>, after: seq<ServerContext>, list: seq<Info>,
                               freed: set<ServerContext>) {
    && SortedById(Infos(after)) && multiset(Infos(after)) == multiset(list)
    && (UniqueIds(Infos(before)) && UniqueIds(list) ==> StaysIfListed(before, after, list))
    && (forall c :: c in before ==> c in after || c in freed)
  }

  /** A pool that follows a series of lists, with connections closed by their peers in between: `trace`
      holds its active lists. Any message is routed by the last list alone, to a context of the pool. */
  method Follow(rounds: seq<Round>, hash: nat, connected: ServerContext -> bool, encoded: nat)
    returns (pool: ServiceClientHashPool, target: Option<ServerContext>, ghost trace: seq<seq<ServerContext>>)
    requires rounds != []
    ensures fresh(pool) && pool.Valid()
    ensures |trace| == |rounds| + 1 && trace[0] == [] && trace[|rounds|] == pool.active
    ensures forall k :: 0 <= k < |rounds| ==> FollowsRound(trace[k], trace[k + 1], rounds[k].list, pool.freed)
    ensures target.Some? ==>
      && target.value in pool.active && encoded != 0 && connected(target.value)
      && Route(Infos(pool.active), hash) == Some(target.value.info)
    ensures (forall c :: c in pool.active ==> connected(c)) && encoded != 0 && pool.active != [] ==> target.Some?
    ensures UniqueIds(rounds[|rounds| - 1].list) ==>
      forall s :: SortedById(s) && multiset(s) == multiset(rounds[|rounds| - 1].list) ==>
        Route(Infos(pool.active), hash) == Route(s, hash)
  {
    hide SortedById, Infos, UniqueIds, StaysIfListed, Route;
    pool := new ServiceClientHashPool();
    trace := [pool.active];
    for k := 0 to |rounds|
      invariant fresh(pool) && pool.Valid() && pool.uninitialized == [] && pool.toDelete == []
      invariant forall c :: c in pool.active ==> fresh(c)
      invariant |trace| == k + 1 && trace[0] == [] && trace[k] == pool.active
      invariant forall j :: 0 <= j < k ==> FollowsRound(trace[j], trace[j + 1], rounds[j].list, pool.freed)
    {
      ghost var freedBefore := pool.freed;
      pool.Reconcile(rounds[k].list);
      ghost var longer := trace + [pool.active];
      forall j | 0 <= j < k ensures FollowsRound(longer[j], longer[j + 1], rounds[j].list, pool.freed) {
        assert FollowsRound(trace[j], trace[j + 1], rounds[j].list, freedBefore);
        FreedMore(trace[j], trace[j + 1], rounds[j].list, freedBefore, pool.freed);
      }
      trace := longer;
      pool.ClosePeers(rounds[k].closed);
    }
    var last := rounds[|rounds| - 1].list;
    target := pool.PostMessage(hash, connected, encoded);
    assert FollowsRound(trace[|rounds| - 1], trace[|rounds| - 1 + 1], last, pool.freed);
    forall s | UniqueIds(last) && SortedById(s) && multiset(s) == multiset(last)
      ensures Route(Infos(pool.active), hash) == Route(s, hash)
    {
      UniqueByContents(last, s);
      RoutingIgnoresHistory(s, Infos(pool.active), hash);
    }
  }

  lemma FreedMore(before: seq<ServerContext>, after: seq<ServerContext>, list: seq<Info>, freed: set<ServerContext>,
                  more: set<ServerContext>)
    requires FollowsRound(before, after, list, freed) && freed <= more
    ensures FollowsRound(before, after, list, more)
  {
    hide SortedById, Infos, UniqueIds, StaysIfListed;
  }
}
