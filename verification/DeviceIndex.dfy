/** The devices that the selector knows: by id, by age, and by region. */
module DeviceIndex {
  import opened Lists

  const DEVICE_KEEPALIVE_TIMEOUT: nat := 180000
  const DEVICE_INFO_RESIST_COUNTER: nat := 2

  type Id = string

  datatype Kind = Country | State | City

  datatype Region = Region(country: nat, state: nat, city: nat)

  datatype Info = Info(relayServer: nat, relaySide: nat, id: Id, region: Region)

  /** `home` is the region in whose lists the device was put when it came; it is not stored with the
      device, the lists hold it. */
  datatype Device = Device(info: Info, counter: nat, stamp: nat, home: Region)

  function Key(r: Region, k: Kind): nat {
    match k
    case Country => r.country
    case State => r.state
    case City => r.city
  }

  /** `lists` are the maps from countries, states and cities to their lists. */
  datatype Index = Index(devices: map<Id, Device>, timeout: seq<Id>, lists: map<(Kind, nat), seq<Id>>, now: nat)

  const NEW: Index := Index(map[], [], map[], 0)

  function ListOf(lists: map<(Kind, nat), seq<Id>>, k: Kind, key: nat): seq<Id> {
    if (k, key) in lists then lists[(k, key)] else []
  }

  predicate SameBinding(a: Info, b: Info) {
    a.relayServer == b.relayServer && a.relaySide == b.relaySide
  }

  /** What an update makes of the binding of a device: it takes a second mismatching update in a row to
      replace it. */
  function Rebind(d: Device, info: Info): Device {
    if SameBinding(d.info, info) then d.(counter := DEVICE_INFO_RESIST_COUNTER)
    else if d.counter == 1 then d.(info := info, counter := DEVICE_INFO_RESIST_COUNTER)
    else d.(counter := if d.counter > 0 then d.counter - 1 else 0)
  }

  /** The device goes to the end of the timeout list. */
  function KeepAlive(x: Index, id: Id): Index
    requires id in x.devices
  {
    x.(devices := x.devices[id := x.devices[id].(stamp := x.now)], timeout := Unlink(x.timeout, id) + [id])
  }

  function Linked(lists: map<(Kind, nat), seq<Id>>, k: Kind, r: Region, id: Id): map<(Kind, nat), seq<Id>> {
    lists[(k, Key(r, k)) := ListOf(lists, k, Key(r, k)) + [id]]
  }

  function Added(x: Index, info: Info): Index {
    var byCountry := Linked(x.lists, Country, info.region, info.id);
    var lists := Linked(Linked(byCountry, State, info.region, info.id), City, info.region, info.id);
    x.(lists := lists, devices := x.devices[info.id := Device(info, DEVICE_INFO_RESIST_COUNTER, 0, info.region)])
  }

  function Updated(x: Index, info: Info): Index {
    if info.id in x.devices then
      KeepAlive(x.(devices := x.devices[info.id := Rebind(x.devices[info.id], info)]), info.id)
    else KeepAlive(Added(x, info), info.id)
  }

  /** Destroying a device takes it out of every list it is in. */
  function RemoveDevice(x: Index, id: Id): Index {
    if id !in x.devices then x
    else x.(devices := x.devices - {id}, timeout := Unlink(x.timeout, id),
            lists := map p | p in x.lists :: Unlink(x.lists[p], id))
  }

  /** The oldest device has not been heard of for too long. */
  predicate HeadExpired(x: Index) {
    x.timeout != [] && x.timeout[0] in x.devices && x.devices[x.timeout[0]].stamp + DEVICE_KEEPALIVE_TIMEOUT <= x.now
  }

  function Expire(x: Index): Index
    decreases |x.devices|
  {
    if HeadExpired(x) then
      RemoveShrinks(x, x.timeout[0]);
      Expire(RemoveDevice(x, x.timeout[0]))
    else x
  }

  lemma RemoveShrinks(x: Index, id: Id)
    requires id in x.devices
    ensures |RemoveDevice(x, id).devices| < |x.devices|
  {
    assert (x.devices - {id}).Keys == x.devices.Keys - {id};
    assert |x.devices.Keys - {id}| == |x.devices.Keys| - 1;
  }

  function Aged(x: Index, now: nat): Index {
    Expire(x.(now := now))
  }

  function Rotated(s: seq<Id>): seq<Id> {
    if s == [] then [] else s[1..] + [s[0]]
  }

  datatype Selected = Selected(x: Index, device: Option<Id>)

  /** The three selections: the head of the region's list, which goes to the end. */
  function Select(x: Index, k: Kind, key: nat): Selected {
    if (k, key) !in x.lists || x.lists[(k, key)] == [] then Selected(x, None)
    else Selected(x.(lists := x.lists[(k, key) := Rotated(x.lists[(k, key)])]), Some(x.lists[(k, key)][0]))
  }

  // ---------------------------------------------------------------------------------------
  // The invariant
  // ---------------------------------------------------------------------------------------

  /** The timeout list holds every device once, the longest silent first. */
  ghost predicate TimeoutAgrees(devices: map<Id, Device>, timeout: seq<Id>, now: nat) {
    && Distinct(timeout)
    && (forall id :: id in timeout <==> id in devices)
    && (forall i, j :: 0 <= i < j < |timeout| ==> devices[timeout[i]].stamp <= devices[timeout[j]].stamp)
    && (forall id :: id in devices ==> devices[id].stamp <= now)
  }

  /** The list of a region holds exactly its devices, each once. */
  ghost predicate ListsAgree(devices: map<Id, Device>, lists: map<(Kind, nat), seq<Id>>) {
    forall k, key ::
      && Distinct(ListOf(lists, k, key))
      && forall id :: id in ListOf(lists, k, key) <==> id in devices && Key(devices[id].home, k) == key
  }

  ghost predicate DevicesAgree(devices: map<Id, Device>) {
    forall id :: id in devices ==> devices[id].info.id == id && 1 <= devices[id].counter <= DEVICE_INFO_RESIST_COUNTER
  }

  ghost predicate Inv(x: Index) {
    TimeoutAgrees(x.devices, x.timeout, x.now) && ListsAgree(x.devices, x.lists) && DevicesAgree(x.devices)
  }

  lemma ToTail(devices: map<Id, Device>, timeout: seq<Id>, now: nat, id: Id)
    requires TimeoutAgrees(devices, timeout, now) && id in devices
    ensures TimeoutAgrees(devices[id := devices[id].(stamp := now)], Unlink(timeout, id) + [id], now)
  {
    UnlinkMembers(timeout, id);
    var rest := Unlink(timeout, id);
    var after := devices[id := devices[id].(stamp := now)];
    forall i, j | 0 <= i < j < |rest + [id]| ensures after[(rest + [id])[i]].stamp <= after[(rest + [id])[j]].stamp {
      assert rest[i] in rest;
      if j < |rest| {
        assert rest[j] in rest;
        UnlinkPair(timeout, id, i, j);
      }
    }
  }

  lemma LinkedList(lists: map<(Kind, nat), seq<Id>>, k: Kind, r: Region, id: Id, j: Kind, key: nat)
    ensures ListOf(Linked(lists, k, r, id), j, key) ==
      ListOf(lists, j, key) + if j == k && key == Key(r, k) then [id] else []
  {
  }

  lemma AddedList(x: Index, info: Info, k: Kind, key: nat)
    ensures ListOf(Added(x, info).lists, k, key) ==
      ListOf(x.lists, k, key) + if key == Key(info.region, k) then [info.id] else []
  {
    hide Linked, ListOf, Key;
    var a := Linked(x.lists, Country, info.region, info.id);
    var b := Linked(a, State, info.region, info.id);
    LinkedList(x.lists, Country, info.region, info.id, k, key);
    LinkedList(a, State, info.region, info.id, k, key);
    LinkedList(b, City, info.region, info.id, k, key);
  }

  lemma AddedAgrees(x: Index, info: Info)
    requires ListsAgree(x.devices, x.lists) && info.id !in x.devices
    ensures ListsAgree(Added(x, info).devices, Added(x, info).lists)
  {
    hide ListOf, Linked, Key;
    forall k, key
      ensures Distinct(ListOf(Added(x, info).lists, k, key))
      ensures forall id :: id in ListOf(Added(x, info).lists, k, key) <==>
        id in Added(x, info).devices && Key(Added(x, info).devices[id].home, k) == key
    {
      AddedList(x, info, k, key);
      assert info.id !in ListOf(x.lists, k, key);
    }
  }

  /** A new device is put at the end before it is kept alive for the first time. */
  lemma NewAtTail(x: Index, info: Info)
    requires TimeoutAgrees(x.devices, x.timeout, x.now) && info.id !in x.devices
    ensures var y := KeepAlive(Added(x, info), info.id); TimeoutAgrees(y.devices, y.timeout, y.now)
  {
    hide Linked, Unlink;
    UnlinkAbsent(x.timeout, info.id);
    TailIsNewest(x.devices, x.timeout, x.now, info.id, Device(info, DEVICE_INFO_RESIST_COUNTER, x.now, info.region));
    assert KeepAlive(Added(x, info), info.id).devices ==
      x.devices[info.id := Device(info, DEVICE_INFO_RESIST_COUNTER, x.now, info.region)];
    hide TimeoutAgrees;
  }

  lemma TailIsNewest(devices: map<Id, Device>, timeout: seq<Id>, now: nat, id: Id, d: Device)
    requires TimeoutAgrees(devices, timeout, now) && id !in devices && d.stamp == now
    ensures TimeoutAgrees(devices[id := d], timeout + [id], now)
  {
    var after, list := devices[id := d], timeout + [id];
    forall i, j | 0 <= i < j < |list|
      ensures list[i] != list[j] && list[i] in after && list[j] in after && after[list[i]].stamp <= after[list[j]].stamp
    {
      assert timeout[i] in timeout;
      if j < |timeout| { assert timeout[j] in timeout; }
    }
  }

  lemma HomesKeepLists(a: map<Id, Device>, b: map<Id, Device>, lists: map<(Kind, nat), seq<Id>>)
    requires ListsAgree(a, lists) && forall id :: id in a <==> id in b
    requires forall id :: id in a ==> b[id].home == a[id].home
    ensures ListsAgree(b, lists)
  {
    hide ListOf, Distinct, Key;
  }

  lemma KnownKeepsInv(x: Index, info: Info)
    requires Inv(x) && info.id in x.devices
    ensures Inv(Updated(x, info))
  {
    hide Unlink, Distinct, ListsAgree;
    var bound := x.devices[info.id := Rebind(x.devices[info.id], info)];
    assert TimeoutAgrees(bound, x.timeout, x.now);
    ToTail(bound, x.timeout, x.now, info.id);
    HomesKeepLists(x.devices, Updated(x, info).devices, x.lists);
    hide TimeoutAgrees;
  }

  lemma NewKeepsInv(x: Index, info: Info)
    requires Inv(x) && info.id !in x.devices
    ensures Inv(Updated(x, info))
  {
    hide Unlink, ListsAgree, TimeoutAgrees, Linked;
    AddedAgrees(x, info);
    NewAtTail(x, info);
    HomesKeepLists(Added(x, info).devices, Updated(x, info).devices, Added(x, info).lists);
  }

  lemma UpdateKeepsInv(x: Index, info: Info)
    requires Inv(x)
    ensures Inv(Updated(x, info))
  {
    hide Inv, Updated;
    if info.id in x.devices { KnownKeepsInv(x, info); } else { NewKeepsInv(x, info); }
  }

  lemma RemoveKeepsInv(x: Index, id: Id)
    requires Inv(x)
    ensures Inv(RemoveDevice(x, id))
    ensures RemoveDevice(x, id).devices == x.devices - {id}
  {
    if id in x.devices {
      var y := RemoveDevice(x, id);
      RemovedTimeout(x, id);
      forall k, key
        ensures Distinct(ListOf(y.lists, k, key))
        ensures forall e :: e in ListOf(y.lists, k, key) <==> e in y.devices && Key(y.devices[e].home, k) == key
      {
        UnlinkMembers(ListOf(x.lists, k, key), id);
        assert ListOf(y.lists, k, key) == Unlink(ListOf(x.lists, k, key), id);
      }
      hide ListOf, Unlink, Distinct, TimeoutAgrees, Key;
    } else {
      assert x.devices - {id} == x.devices;
    }
  }

  lemma OrderKept(devices: map<Id, Device>, s: seq<Id>, id: Id, i: nat, j: nat)
    requires forall e :: e in s ==> e in devices
    requires forall k, l :: 0 <= k < l < |s| ==> devices[s[k]].stamp <= devices[s[l]].stamp
    requires i < j < |Unlink(s, id)|
    ensures Unlink(s, id)[i] in devices && Unlink(s, id)[j] in devices
    ensures devices[Unlink(s, id)[i]].stamp <= devices[Unlink(s, id)[j]].stamp
  {
    UnlinkPair(s, id, i, j);
    hide Unlink, Before;
  }

  lemma RemovedTimeout(x: Index, id: Id)
    requires TimeoutAgrees(x.devices, x.timeout, x.now)
    ensures TimeoutAgrees(x.devices - {id}, Unlink(x.timeout, id), x.now)
  {
    hide Unlink, Distinct;
    UnlinkMembers(x.timeout, id);
    var rest := Unlink(x.timeout, id);
    forall i, j | 0 <= i < j < |rest|
      ensures rest[i] in x.devices && rest[j] in x.devices && x.devices[rest[i]].stamp <= x.devices[rest[j]].stamp
    {
      OrderKept(x.devices, x.timeout, id, i, j);
    }
  }

  /** A device that must go: nothing was heard of it for the timeout. */
  predicate Expired(d: Device, now: nat) {
    d.stamp + DEVICE_KEEPALIVE_TIMEOUT <= now
  }

  lemma NoneExpired(x: Index)
    requires TimeoutAgrees(x.devices, x.timeout, x.now) && !HeadExpired(x)
    ensures forall id :: id in x.devices ==> !Expired(x.devices[id], x.now)
  {
    forall id | id in x.devices ensures !Expired(x.devices[id], x.now) {
      var i :| 0 <= i < |x.timeout| && x.timeout[i] == id;
      assert x.timeout[0] in x.timeout;
      assert i > 0 ==> x.devices[x.timeout[0]].stamp <= x.devices[x.timeout[i]].stamp;
    }
  }

  /** Exactly the expired devices are removed, and the others are left as they are. */
  lemma {:induction false} ExpireIsExact(x: Index)
    requires Inv(x)
    ensures Inv(Expire(x)) && Expire(x).now == x.now
    ensures Expire(x).devices == map id | id in x.devices && !Expired(x.devices[id], x.now) :: x.devices[id]
    decreases |x.devices|
  {
    hide TimeoutAgrees, ListsAgree, DevicesAgree;
    var kept := map id | id in x.devices && !Expired(x.devices[id], x.now) :: x.devices[id];
    if HeadExpired(x) {
      RemoveShrinks(x, x.timeout[0]);
      RemoveKeepsInv(x, x.timeout[0]);
      ExpireIsExact(RemoveDevice(x, x.timeout[0]));
      assert Expire(x).devices == kept;
    } else {
      NoneExpired(x);
      assert x.devices == kept;
    }
  }

  lemma LaterKeepsInv(x: Index, now: nat)
    requires Inv(x) && x.now <= now
    ensures Inv(x.(now := now))
  {
    hide ListsAgree, DevicesAgree, Distinct;
  }

  lemma RotatedMembers(s: seq<Id>)
    requires Distinct(s)
    ensures Distinct(Rotated(s)) && forall e :: e in Rotated(s) <==> e in s
  {
    if s != [] { assert s == [s[0]] + s[1..]; }
  }

  lemma SelectKeepsInv(x: Index, k: Kind, key: nat)
    requires Inv(x)
    ensures Inv(Select(x, k, key).x)
  {
    hide TimeoutAgrees, DevicesAgree, Distinct, Rotated;
    if (k, key) in x.lists && x.lists[(k, key)] != [] {
      var s := x.lists[(k, key)];
      assert ListOf(x.lists, k, key) == s;
      RotatedMembers(s);
      var after := x.lists[(k, key) := Rotated(s)];
      forall j, other
        ensures ListOf(after, j, other) == if j == k && other == key then Rotated(s) else ListOf(x.lists, j, other)
      {
      }
      hide ListOf;
    }
  }

  datatype Event = Update(info: Info) | Remove(id: Id) | Ticked(now: nat) | Selection(kind: Kind, key: nat)

  /** Time does not run backwards. */
  function Step(x: Index, e: Event): Index {
    match e
    case Update(info) => Updated(x, info)
    case Remove(id) => RemoveDevice(x, id)
    case Ticked(now) => if now < x.now then x else Aged(x, now)
    case Selection(k, key) => Select(x, k, key).x
  }

  function Run(x: Index, events: seq<Event>): Index
    decreases |events|
  {
    if events == [] then x else Run(Step(x, events[0]), events[1..])
  }

  lemma StepKeepsInv(x: Index, e: Event)
    requires Inv(x)
    ensures Inv(Step(x, e))
    ensures e.Ticked? && x.now <= e.now ==>
      forall id :: id in Step(x, e).devices ==> !Expired(Step(x, e).devices[id], e.now)
  {
    hide Inv, Updated, RemoveDevice, Select, Expire;
    match e
    case Update(info) => UpdateKeepsInv(x, info);
    case Remove(id) => RemoveKeepsInv(x, id);
    case Ticked(now) => if x.now <= now { LaterKeepsInv(x, now); ExpireIsExact(x.(now := now)); }
    case Selection(k, key) => SelectKeepsInv(x, k, key);
  }

  /** In every run every device is in the map, in the timeout list and in exactly one list of each kind,
      each time once. */
  lemma {:induction false} RunKeepsInv(x: Index, events: seq<Event>)
    requires Inv(x)
    ensures Inv(Run(x, events))
    decreases |events|
  {
    hide Inv, Step;
    if events != [] {
      StepKeepsInv(x, events[0]);
      RunKeepsInv(Step(x, events[0]), events[1..]);
    }
  }

  lemma StartInv()
    ensures Inv(NEW)
  {
  }

  /** What this means for a device and for any list of any kind: the device is in the map exactly if it is
      in the timeout list, and in the list exactly if it came with that region; nothing is listed twice. */
  lemma ListedOnceEverywhere(events: seq<Event>, id: Id, k: Kind, key: nat)
    ensures var x := Run(NEW, events);
      && (id in x.devices <==> id in x.timeout) && Distinct(x.timeout)
      && (id in ListOf(x.lists, k, key) <==> id in x.devices && Key(x.devices[id].home, k) == key)
      && Distinct(ListOf(x.lists, k, key))
      && (forall i, j :: 0 <= i < j < |x.timeout| ==>
            x.timeout[i] in x.devices && x.timeout[j] in x.devices
              && x.devices[x.timeout[i]].stamp <= x.devices[x.timeout[j]].stamp)
  {
    hide Run, ListOf, Key;
    StartInv();
    RunKeepsInv(NEW, events);
  }

  // ---------------------------------------------------------------------------------------
  // Selection in turn
  // ---------------------------------------------------------------------------------------

  datatype Chosen = Chosen(x: Index, devices: seq<Option<Id>>)

  function SelectTimes(x: Index, k: Kind, key: nat, n: nat): Chosen
    decreases n
  {
    if n == 0 then Chosen(x, []) else
      var s := Select(x, k, key);
      var rest := SelectTimes(s.x, k, key, n - 1);
      Chosen(rest.x, [s.device] + rest.devices)
  }

  lemma {:induction false} SelectPrefix(x: Index, k: Kind, key: nat, n: nat)
    requires (k, key) in x.lists && n <= |x.lists[(k, key)]|
    ensures var s := x.lists[(k, key)];
      var c := SelectTimes(x, k, key, n);
      && |c.devices| == n && (forall i :: 0 <= i < n ==> c.devices[i] == Some(s[i]))
      && c.x == x.(lists := x.lists[(k, key) := s[n..] + s[..n]])
    decreases n
  {
    var s := x.lists[(k, key)];
    if n == 0 {
      assert s[0..] + s[..0] == s;
      assert x.lists[(k, key) := s] == x.lists;
    } else {
      var t := Select(x, k, key).x;
      var r := Rotated(s);
      assert t.lists[(k, key)] == r;
      SelectPrefix(t, k, key, n - 1);
      RotatedSlices(s, n);
      assert x.lists[(k, key) := r][(k, key) := s[n..] + s[..n]] == x.lists[(k, key) := s[n..] + s[..n]];
    }
  }

  lemma RotatedSlices(s: seq<Id>, n: nat)
    requires 0 < n <= |s|
    ensures Rotated(s)[n - 1..] + Rotated(s)[..n - 1] == s[n..] + s[..n]
    ensures forall i :: 0 < i < n ==> Rotated(s)[i - 1] == s[i]
  {
    assert Rotated(s)[..n - 1] == s[1..n];
    assert Rotated(s)[n - 1..] == s[n..] + [s[0]];
  }

  /** As many selections as a list is long give each of its devices once, in the order of the list, and
      leave everything as it was. */
  lemma EachOnceInTurn(x: Index, k: Kind, key: nat)
    requires (k, key) in x.lists
    ensures var s := x.lists[(k, key)];
      var c := SelectTimes(x, k, key, |s|);
      && c.x == x && |c.devices| == |s| && forall i :: 0 <= i < |s| ==> c.devices[i] == Some(s[i])
  {
    var s := x.lists[(k, key)];
    SelectPrefix(x, k, key, |s|);
    assert s[|s|..] + s[..|s|] == s;
    assert x.lists[(k, key) := s] == x.lists;
  }

  // ---------------------------------------------------------------------------------------
  // Resistance to new bindings
  // ---------------------------------------------------------------------------------------

  function RebindAll(d: Device, updates: seq<Info>): Device {
    if updates == [] then d else Rebind(RebindAll(d, updates[..|updates| - 1]), updates[|updates| - 1])
  }

  /** The last of the updates does not match the binding that it meets. */
  predicate Mismatches(d: Device, updates: seq<Info>)
    requires updates != []
  {
    var bound, info := RebindAll(d, updates[..|updates| - 1]).info, updates[|updates| - 1];
    bound.relayServer != info.relayServer || bound.relaySide != info.relaySide
  }

  predicate Replaces(d: Device, updates: seq<Info>)
    requires updates != []
  {
    Mismatches(d, updates) && RebindAll(d, updates).info == updates[|updates| - 1]
  }

  lemma {:induction false} CounterMeans(d: Device, updates: seq<Info>)
    requires d.counter == DEVICE_INFO_RESIST_COUNTER
    ensures var c := RebindAll(d, updates).counter;
      && (c == 1 || c == DEVICE_INFO_RESIST_COUNTER)
      && (c == 1 <==> updates != [] && Mismatches(d, updates) && !Replaces(d, updates))
    decreases |updates|
  {
    if updates != [] { CounterMeans(d, updates[..|updates| - 1]); }
  }

  /** A binding is replaced exactly by the second of two mismatching updates with nothing between them,
      where the first has not replaced it itself; every other update leaves it as it is. */
  lemma ReplacedOnSecondMismatch(d: Device, updates: seq<Info>)
    requires d.counter == DEVICE_INFO_RESIST_COUNTER && updates != []
    ensures var before := updates[..|updates| - 1];
      && (Replaces(d, updates) <==>
            && Mismatches(d, updates) && before != [] && Mismatches(d, before) && !Replaces(d, before))
      && (!Replaces(d, updates) ==> RebindAll(d, updates).info == RebindAll(d, before).info)
  {
    CounterMeans(d, updates[..|updates| - 1]);
  }

  /** A device is listed under the region that it is bound to exactly if it came with that region: whether
      it was replaced since does not matter to the lists. */
  lemma ListedUnderBoundExactly(events: seq<Event>, id: Id, k: Kind)
    requires id in Run(NEW, events).devices
    ensures var x := Run(NEW, events);
      var d := x.devices[id];
      id in ListOf(x.lists, k, Key(d.info.region, k)) <==> Key(d.info.region, k) == Key(d.home, k)
  {
    hide Run, Key, ListOf;
    ListedOnceEverywhere(events, id, k, Key(Run(NEW, events).devices[id].info.region, k));
  }

  /** A device that is replaced by one from elsewhere: after these three updates it is bound to the new
      region and listed under the old one. */
  lemma ReplacedStaysBehind(a: Info, b: Info, k: Kind)
    requires a.id == b.id && !SameBinding(a, b)
    ensures var events := [Update(a), Update(b), Update(b)];
      var x := Run(NEW, events);
      && a.id in x.devices && x.devices[a.id].info == b && x.devices[a.id].home == a.region
      && (a.id in ListOf(x.lists, k, Key(b.region, k)) <==> Key(a.region, k) == Key(b.region, k))
  {
    var events := [Update(a), Update(b), Update(b)];
    var x1 := Updated(NEW, a);
    var x2 := Updated(x1, b);
    var x3 := Updated(x2, b);
    FirstUpdate(a);
    NextUpdate(x1, b);
    NextUpdate(x2, b);
    hide Updated;
    assert events[1..] == [Update(b), Update(b)] && events[1..][1..] == [Update(b)] && events[1..][1..][1..] == [];
    assert Run(x2, [Update(b)]) == x3;
    assert Run(x1, [Update(b), Update(b)]) == x3;
    assert Run(NEW, events) == x3;
    hide Run, Key, ListOf;
    ListedUnderBoundExactly(events, a.id, k);
  }

  lemma FirstUpdate(a: Info)
    ensures var x := Updated(NEW, a);
      a.id in x.devices && x.devices[a.id].info == a && x.devices[a.id].home == a.region
      && x.devices[a.id].counter == DEVICE_INFO_RESIST_COUNTER
  {
    hide Linked, Unlink;
  }

  lemma NextUpdate(x: Index, b: Info)
    requires b.id in x.devices
    ensures var d := Rebind(x.devices[b.id], b);
      b.id in Updated(x, b).devices && Updated(x, b).devices[b.id] == d.(stamp := x.now)
  {
    hide Linked, Unlink;
  }

  // ---------------------------------------------------------------------------------------
  // The manager, in place
  // ---------------------------------------------------------------------------------------

  class DeviceContextManager {
    var now: nat
    var timeoutDeviceList: seq<Id>
    var regionLists: map<(Kind, nat), seq<Id>>
    var deviceMap: map<Id, Device>

    constructor ()
      ensures View() == NEW
    {
      now, timeoutDeviceList, regionLists, deviceMap := 0, [], map[], map[];
    }

    function View(): Index
      reads this
    {
      Index(deviceMap, timeoutDeviceList, regionLists, now)
    }

    method KeepDeviceAlive(id: Id)
      requires id in deviceMap
      modifies this
      ensures View() == KeepAlive(old(View()), id)
    {
      deviceMap := deviceMap[id := deviceMap[id].(stamp := now)];
      timeoutDeviceList := Unlink(timeoutDeviceList, id) + [id];
    }

    method UpdateDevice(info: Info)
      requires Inv(View())
      modifies this
      ensures View() == Updated(old(View()), info) && Inv(View())
    {
      UpdateKeepsInv(View(), info);
      hide Inv, Linked, KeepAlive;
      if info.id in deviceMap {
        deviceMap := deviceMap[info.id := Rebind(deviceMap[info.id], info)];
        KeepDeviceAlive(info.id);
        return;
      }
      regionLists := Linked(regionLists, Country, info.region, info.id);
      regionLists := Linked(regionLists, State, info.region, info.id);
      regionLists := Linked(regionLists, City, info.region, info.id);
      deviceMap := deviceMap[info.id := Device(info, DEVICE_INFO_RESIST_COUNTER, 0, info.region)];
      KeepDeviceAlive(info.id);
    }

    method RemoveDeviceById(id: Id)
      requires Inv(View())
      modifies this
      ensures View() == RemoveDevice(old(View()), id) && Inv(View())
    {
      RemoveKeepsInv(View(), id);
      hide Inv;
      if id !in deviceMap { return; }
      timeoutDeviceList := Unlink(timeoutDeviceList, id);
      regionLists := map p | p in regionLists :: Unlink(regionLists[p], id);
      deviceMap := deviceMap - {id};
    }

    method Tick(time: nat)
      requires Inv(View()) && now <= time
      modifies this
      ensures View() == Aged(old(View()), time) && Inv(View())
      ensures forall id :: id in deviceMap ==> !Expired(deviceMap[id], time)
    {
      LaterKeepsInv(View(), time);
      StepKeepsInv(View(), Ticked(time));
      hide Inv, RemoveDevice;
      now := time;
      while timeoutDeviceList != [] && timeoutDeviceList[0] in deviceMap
        && deviceMap[timeoutDeviceList[0]].stamp + DEVICE_KEEPALIVE_TIMEOUT <= now
        invariant Inv(View()) && Expire(View()) == Aged(old(View()), time)
        decreases |deviceMap|
      {
        RemoveShrinks(View(), timeoutDeviceList[0]);
        RemoveDeviceById(timeoutDeviceList[0]);
      }
    }

    method SelectDevice(k: Kind, key: nat) returns (device: Option<Id>)
      requires Inv(View())
      modifies this`regionLists
      ensures Selected(View(), device) == Select(old(View()), k, key) && Inv(View())
    {
      SelectKeepsInv(View(), k, key);
      hide Inv;
      if (k, key) !in regionLists { return None; }
      var s := regionLists[(k, key)];
      if s == [] { return None; }
      regionLists := regionLists[(k, key) := s[1..] + [s[0]]];
      device := Some(s[0]);
    }
  }
}
