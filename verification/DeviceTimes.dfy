/** The index in terms of the updates that came: which devices live, and which a selection gives. */
module DeviceTimes {
  import opened Lists
  import opened DeviceIndex

  /** When the last update of device `id` came in a run, `last` if none came. */
  function LastUpdate(x: Index, events: seq<Event>, id: Id, last: nat): nat
    decreases |events|
  {
    if events == [] then last else
      var e := events[0];
      LastUpdate(Step(x, e), events[1..], id, if e.Update? && e.info.id == id then x.now else last)
  }

  /** The region in the update that brought device `id`, the last time that it was not known. */
  function CameWith(x: Index, events: seq<Event>, id: Id, home: Region): Region
    decreases |events|
  {
    if events == [] then home else
      var e := events[0];
      CameWith(Step(x, e), events[1..], id, if Brings(x, e, id) then e.info.region else home)
  }

  predicate Brings(x: Index, e: Event, id: Id) {
    e.Update? && e.info.id == id && id !in x.devices
  }

  predicate OnRecord(x: Index, id: Id, at: nat, home: Region) {
    id in x.devices ==> x.devices[id].stamp == at && x.devices[id].home == home
  }

  lemma UpdateOnRecord(x: Index, info: Info, id: Id, at: nat, home: Region)
    requires OnRecord(x, id, at, home)
    ensures OnRecord(Updated(x, info), id, if info.id == id then x.now else at,
                     if info.id == id && id !in x.devices then info.region else home)
  {
    hide Unlink, Linked;
  }

  lemma TickOnRecord(x: Index, now: nat, id: Id, at: nat, home: Region)
    requires Inv(x) && OnRecord(x, id, at, home) && x.now <= now
    ensures OnRecord(Aged(x, now), id, at, home)
  {
    LaterKeepsInv(x, now);
    ExpireIsExact(x.(now := now));
    hide Inv, Expire, Expired;
  }

  lemma StepOnRecord(x: Index, e: Event, id: Id, at: nat, home: Region)
    requires Inv(x) && OnRecord(x, id, at, home)
    ensures OnRecord(Step(x, e), id, if e.Update? && e.info.id == id then x.now else at,
                     if Brings(x, e, id) then e.info.region else home)
  {
    hide Inv, Updated, Aged, Unlink, Rotated;
    match e
    case Update(info) => UpdateOnRecord(x, info, id, at, home);
    case Ticked(now) => if x.now <= now { TickOnRecord(x, now, id, at, home); }
    case Remove(_) =>
    case Selection(_, _) =>
  }

  lemma {:induction false} RunOnRecord(x: Index, events: seq<Event>, id: Id, at: nat, home: Region)
    requires Inv(x) && OnRecord(x, id, at, home)
    ensures Inv(Run(x, events))
    ensures OnRecord(Run(x, events), id, LastUpdate(x, events, id, at), CameWith(x, events, id, home))
    decreases |events|
  {
    hide Inv, Step, OnRecord;
    if events != [] {
      var e := events[0];
      StepOnRecord(x, e, id, at, home);
      StepKeepsInv(x, e);
      RunOnRecord(Step(x, e), events[1..], id, if e.Update? && e.info.id == id then x.now else at,
                  if Brings(x, e, id) then e.info.region else home);
    }
  }

  const NOWHERE := Region(0, 0, 0)

  lemma Reachable(events: seq<Event>, id: Id)
    ensures Inv(Run(NEW, events))
    ensures OnRecord(Run(NEW, events), id, LastUpdate(NEW, events, id, 0), CameWith(NEW, events, id, NOWHERE))
  {
    StartInv();
    RunOnRecord(NEW, events, id, 0, NOWHERE);
    hide Run, Inv, LastUpdate, CameWith;
  }

  /** After any run, a device outlives a tick exactly if its last update came less than three minutes before
      the tick. */
  lemma LivesExactly(events: seq<Event>, now: nat, id: Id)
    requires id in Run(NEW, events).devices && Run(NEW, events).now <= now
    ensures id in Step(Run(NEW, events), Ticked(now)).devices <==> now < LastUpdate(NEW, events, id, 0) + 180_000
  {
    var x := Run(NEW, events);
    Reachable(events, id);
    LaterKeepsInv(x, now);
    ExpireIsExact(x.(now := now));
    hide Run, Inv, LastUpdate, CameWith, Expire;
  }

  /** The device came with this country, state or city. */
  predicate CameFrom(events: seq<Event>, id: Id, k: Kind, key: nat) {
    var home := CameWith(NEW, events, id, NOWHERE);
    match k
    case Country => home.country == key
    case State => home.state == key
    case City => home.city == key
  }

  /** After any run, a selection by country, state or city gives a device that came with this country, state
      or city and is still known; it gives none exactly if there is no such device. */
  lemma SelectedCameFrom(events: seq<Event>, k: Kind, key: nat, other: Id)
    ensures var x := Run(NEW, events);
      var chosen := Select(x, k, key).device;
      && (chosen.Some? ==> chosen.value in x.devices && CameFrom(events, chosen.value, k, key))
      && (other in x.devices && CameFrom(events, other, k, key) ==> chosen.Some?)
  {
    var x := Run(NEW, events);
    var chosen := Select(x, k, key).device;
    ListedCameFrom(events, k, key, other);
    if chosen.Some? {
      ListedCameFrom(events, k, key, chosen.value);
      assert chosen.value in ListOf(x.lists, k, key);
    }
    hide Run, CameFrom, Rotated;
  }

  lemma ListedCameFrom(events: seq<Event>, k: Kind, key: nat, id: Id)
    ensures var x := Run(NEW, events);
      id in ListOf(x.lists, k, key) <==> id in x.devices && CameFrom(events, id, k, key)
  {
    ListedOnceEverywhere(events, id, k, key);
    Reachable(events, id);
    hide Run, Inv, ListOf, LastUpdate, CameWith;
  }

  /** After any run, as many selections as there are devices from somewhere give each of them once. */
  lemma EachFromThereOnce(events: seq<Event>, k: Kind, key: nat, id: Id)
    requires var x := Run(NEW, events); id in x.devices && CameFrom(events, id, k, key)
    ensures var x := Run(NEW, events);
      var n := |ListOf(x.lists, k, key)|;
      var c := SelectTimes(x, k, key, n);
      && c.x == x && |c.devices| == n && (forall i, j :: 0 <= i < j < n ==> c.devices[i] != c.devices[j])
      && Some(id) in c.devices
      && forall i :: 0 <= i < n ==>
           c.devices[i].Some? && c.devices[i].value in x.devices && CameFrom(events, c.devices[i].value, k, key)
  {
    var x := Run(NEW, events);
    var s := ListOf(x.lists, k, key);
    forall e ensures e in s <==> e in x.devices && CameFrom(events, e, k, key) { ListedCameFrom(events, k, key, e); }
    ListedOnceEverywhere(events, id, k, key);
    hide Run, CameFrom, SelectTimes;
    EachOnceInTurn(x, k, key);
    var i :| 0 <= i < |s| && s[i] == id;
    assert SelectTimes(x, k, key, |s|).devices[i] == Some(id);
  }
}
