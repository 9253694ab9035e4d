/** The server id allocator and the id center in front of it. An id packs an index, a random word and a
    checksum; the center hands ids to clients, takes them back when they leave, and gives a returning
    client its old id as long as nobody else has the index. */
module ServerId {
  import opened Lists

  const WORD: nat := 0x1_0000_0000
  const LONG: nat := 0x1_0000_0000_0000_0000
  const SUM: nat := 0x1000
  /** What is left of 64 bits for the index. */
  const INDEX_LIMIT: nat := 0x10_0000

  type Word = x: nat | x < WORD
  type Long = x: nat | x < LONG

  // ---------------------------------------------------------------------------------------
  // Words
  // ---------------------------------------------------------------------------------------

  function High32(u: Long): Word { u / WORD }

  function Low32(u: Long): Word { u % WORD }

  function Make64(high: Word, low: Word): Long { high * WORD + low }

  /** The upper 12 bits fall out. */
  function ShiftLeft12(u: Long): Long { u % 0x10_0000_0000_0000 * SUM }

  /** The three pieces of 12 bits of a word laid over one another. */
  function Laid(sum: bv32): (r: bv32)
    ensures r <= 0xFFF
  {
    (sum & 0xFFF) ^ ((sum >> 12) & 0xFFF) ^ ((sum >> 24) & 0xFFF)
  }

  lemma LaidIsLinear(a: bv32, b: bv32)
    ensures Laid(a ^ b) == Laid(a) ^ Laid(b)
  {
  }

  lemma LaidBit(k: bv32)
    requires k < 32
    ensures Laid(1 << k) != 0
  {
  }

  lemma XorFacts(a: bv32, b: bv32, d: bv32)
    ensures (a ^ d) ^ b == (a ^ b) ^ d && a ^ (b ^ d) == (a ^ b) ^ d
    ensures d != 0 ==> a ^ d != a
  {
  }

  lemma LaidChanges(sum: bv32, d: bv32)
    requires Laid(d) != 0
    ensures Laid(sum ^ d) != Laid(sum)
  {
    hide Laid;
    LaidIsLinear(sum, d);
    XorFacts(Laid(sum), 0, Laid(d));
  }

  /** A single flipped bit of index or random word changes the checksum. */
  lemma OneFlipShows(index: bv32, random: bv32, k: bv32)
    requires k < 32
    ensures Laid((index ^ (1 << k)) ^ random) != Laid(index ^ random)
    ensures Laid(index ^ (random ^ (1 << k))) != Laid(index ^ random)
  {
    hide Laid;
    LaidBit(k);
    LaidChanges(index ^ random, 1 << k);
    XorFacts(index, random, 1 << k);
  }

  function CheckSum(index: Word, random: Word): (r: nat)
    ensures r < SUM
  {
    Laid((index as bv32) ^ (random as bv32)) as bv12 as nat
  }

  function Pack(index: Word, random: Word): Long {
    hide CheckSum;
    ShiftLeft12(Make64(index, random)) + CheckSum(index, random)
  }

  function IndexOf(id: Long): Word { High32(id / SUM) }

  function RandomOf(id: Long): Word { Low32(id / SUM) }

  predicate CheckSumMatches(id: Long) {
    id % SUM == CheckSum(IndexOf(id), RandomOf(id))
  }

  /** An id can be taken apart again exactly if its index fits into the 20 bits left for it. */
  lemma UnpackPack(index: Word, random: Word)
    ensures RandomOf(Pack(index, random)) == random
    ensures IndexOf(Pack(index, random)) == index <==> index < INDEX_LIMIT
    ensures index < INDEX_LIMIT ==> CheckSumMatches(Pack(index, random))
  {
    var sum := CheckSum(index, random);
    hide CheckSum;
    var raw := Make64(index, random) % 0x10_0000_0000_0000;
    assert Pack(index, random) == raw * SUM + sum;
    assert raw == (index % INDEX_LIMIT) * WORD + random;
    assert raw / WORD == index % INDEX_LIMIT && raw % WORD == random;
  }

  lemma PackUnpack(id: Long)
    requires CheckSumMatches(id)
    ensures Pack(IndexOf(id), RandomOf(id)) == id && IndexOf(id) < INDEX_LIMIT
  {
    hide CheckSum;
    var raw := id / SUM;
    assert raw < 0x10_0000_0000_0000;
    assert raw == IndexOf(id) * WORD + RandomOf(id);
    assert id == raw * SUM + id % SUM;
  }

  // ---------------------------------------------------------------------------------------
  // The manager
  // ---------------------------------------------------------------------------------------

  function ToWord(x: bv32): Word { x as nat }

  lemma OddIsNotZero(x: bv32)
    ensures (x | 1) as nat != 0
  {
    assert x | 1 != 0;
  }

  /** `GenerateRandom` from a drawn number. */
  function GenerateRandom(drawn: bv32): (r: Word)
    ensures r != 0
  {
    OddIsNotZero(drawn ^ 0x784C6565);
    ToWord((drawn ^ 0x784C6565) | 1)
  }

  /** The shadow array and the pool of indices; index `i` has slot `i - 1`. */
  datatype Manager = Manager(slots: seq<Word>, taken: set<nat>)

  predicate InRange(m: Manager, index: nat) {
    0 < index <= |m.slots|
  }

  /** What the pool may answer to a request for any index: a free one, and 0 only if there is none. */
  ghost predicate PoolMayChoose(m: Manager, choice: nat) {
    if choice == 0 then forall i :: InRange(m, i) ==> i in m.taken else InRange(m, choice) && choice !in m.taken
  }

  /** A slot is not zero exactly when the pool has given away its index. */
  ghost predicate Shadows(m: Manager) {
    && |m.slots| < INDEX_LIMIT
    && (forall i :: i in m.taken ==> InRange(m, i))
    && (forall i :: InRange(m, i) ==> (m.slots[i - 1] != 0 <==> i in m.taken))
  }

  /** `asserted` is whether the runtime assertion held on the way. */
  datatype Given = Given(m: Manager, id: Long, asserted: bool)

  /** `AcquireServerId`, if the pool chooses `choice`. */
  function Acquire(m: Manager, choice: nat, drawn: bv32): Given
    requires choice == 0 || (InRange(m, choice) && choice < INDEX_LIMIT)
  {
    if choice == 0 then Given(m, 0, true) else
      var random := GenerateRandom(drawn);
      Given(Manager(m.slots[choice - 1 := random], m.taken + {choice}), Pack(choice, random), true)
  }

  /** A client's old id that can be given to it again. */
  predicate Regainable(m: Manager, id: Long) {
    && InRange(m, IndexOf(id)) && RandomOf(id) != 0 && CheckSumMatches(id)
    && m.slots[IndexOf(id) - 1] == 0
  }

  /** `RegainServerId`; the runtime assertion is that the pool gives away the index. */
  function Regain(m: Manager, id: Long, choice: nat, drawn: bv32): Given
    requires choice == 0 || (InRange(m, choice) && choice < INDEX_LIMIT)
  {
    if Regainable(m, id) then
      Given(Manager(m.slots[IndexOf(id) - 1 := RandomOf(id)], m.taken + {IndexOf(id)}), id, IndexOf(id) !in m.taken)
    else Acquire(m, choice, drawn)
  }

  predicate Releasable(m: Manager, id: Long) {
    InRange(m, IndexOf(id)) && CheckSumMatches(id) && m.slots[IndexOf(id) - 1] == RandomOf(id)
  }

  /** `ReleaseServerId`, which fails for anything that is not `Releasable`. */
  function Release(m: Manager, id: Long): Manager {
    if Releasable(m, id) then Manager(m.slots[IndexOf(id) - 1 := 0], m.taken - {IndexOf(id)}) else m
  }

  /** The assertion of `GenerateCheckSum` on the way of a release, which reads the random word of the id. */
  predicate ReleaseAsserts(m: Manager, id: Long) {
    InRange(m, IndexOf(id)) ==> RandomOf(id) != 0
  }

  // ---------------------------------------------------------------------------------------
  // The id center
  // ---------------------------------------------------------------------------------------

  /** `Cmd_ALL_CC_AcquireServerId`. */
  const ACQUIRE_SERVER_ID: nat := 0xC003

  /** The connected clients with the ids they were given, 0 for none. */
  datatype Center = Center(m: Manager, clients: map<nat, Long>, failed: bool)

  datatype Event =
    | Open(client: nat)
    | Request(client: nat, previous: Long, choice: nat, drawn: bv32)
    | Close(client: nat)

  /** One step; an event that is not possible changes nothing. A client that asks twice is refused. */
  ghost function Step(s: Center, e: Event): Center
    requires |s.m.slots| < INDEX_LIMIT
  {
    match e
    case Open(k) => if k in s.clients then s else s.(clients := s.clients[k := 0])
    case Request(k, previous, choice, drawn) =>
      if k !in s.clients || s.clients[k] != 0 || !PoolMayChoose(s.m, choice) then s else
        var g := Regain(s.m, previous, choice, drawn);
        Center(g.m, s.clients[k := g.id], s.failed || !g.asserted)
    case Close(k) =>
      if k !in s.clients then s
      else if s.clients[k] == 0 then s.(clients := s.clients - {k})
      else
        var id := s.clients[k];
        Center(Release(s.m, id), s.clients - {k}, s.failed || !Releasable(s.m, id) || !ReleaseAsserts(s.m, id))
  }

  lemma StepKeepsSize(s: Center, e: Event)
    requires |s.m.slots| < INDEX_LIMIT
    ensures |Step(s, e).m.slots| == |s.m.slots|
  {
  }

  ghost function Run(s: Center, events: seq<Event>): Center
    requires |s.m.slots| < INDEX_LIMIT
    decreases |events|
  {
    if events == [] then s else
      StepKeepsSize(s, events[0]);
      Run(Step(s, events[0]), events[1..])
  }

  function Start(size: nat): Center {
    Center(Manager(seq(size, _ => 0), {}), map[], false)
  }

  /** The id stands in the manager's books. */
  predicate Booked(m: Manager, id: Long) {
    id != 0 && InRange(m, IndexOf(id)) && RandomOf(id) != 0 && CheckSumMatches(id)
    && m.slots[IndexOf(id) - 1] == RandomOf(id)
  }

  ghost predicate HasClient(clients: map<nat, Long>, index: nat) {
    exists k :: k in clients && clients[k] != 0 && IndexOf(clients[k]) == index
  }

  ghost predicate Inv(s: Center) {
    && Shadows(s.m)
    && !s.failed
    && (forall k :: k in s.clients && s.clients[k] != 0 ==> Booked(s.m, s.clients[k]))
    && (forall j, k :: j in s.clients && k in s.clients && j != k && s.clients[j] != 0 && s.clients[k] != 0 ==>
          IndexOf(s.clients[j]) != IndexOf(s.clients[k]))
    && (forall i :: i in s.m.taken ==> HasClient(s.clients, i))
  }

  lemma InvSize(s: Center)
    requires Inv(s)
    ensures |s.m.slots| < INDEX_LIMIT
  {
  }

  lemma AcquireBooks(m: Manager, choice: nat, drawn: bv32)
    requires Shadows(m) && PoolMayChoose(m, choice) && choice != 0
    ensures var g := Acquire(m, choice, drawn); Shadows(g.m) && Booked(g.m, g.id) && IndexOf(g.id) == choice
  {
    hide CheckSum, Pack, IndexOf, RandomOf, CheckSumMatches, GenerateRandom;
    UnpackPack(choice, GenerateRandom(drawn));
    var g := Acquire(m, choice, drawn);
    NotZero(g.id);
  }

  lemma NotZero(id: Long)
    requires IndexOf(id) != 0
    ensures id != 0
  {
  }

  /** `n` is `m` with `id` entered at an index that was free. */
  predicate Enters(m: Manager, n: Manager, id: Long) {
    && InRange(m, IndexOf(id)) && IndexOf(id) !in m.taken
    && n == Manager(m.slots[IndexOf(id) - 1 := RandomOf(id)], m.taken + {IndexOf(id)})
  }

  /** A regained id is the old one, and the assertion on the way holds. */
  lemma RegainBooks(m: Manager, id: Long, choice: nat, drawn: bv32)
    requires Shadows(m) && PoolMayChoose(m, choice)
    ensures var g := Regain(m, id, choice, drawn);
      && Shadows(g.m) && g.asserted
      && (Regainable(m, id) ==> g.id == id)
      && (g.id != 0 ==> Booked(g.m, g.id) && Enters(m, g.m, g.id))
      && (g.id == 0 ==> g.m == m && forall i :: 1 <= i <= |m.slots| ==> i in m.taken)
  {
    hide CheckSum, Pack, IndexOf, RandomOf, CheckSumMatches, GenerateRandom;
    if Regainable(m, id) {
      NotZero(id);
    } else if choice != 0 {
      AcquireBooks(m, choice, drawn);
      UnpackPack(choice, GenerateRandom(drawn));
    }
  }

  lemma BooksStay(m: Manager, n: Manager, id: Long, other: Long)
    requires Enters(m, n, id) && Booked(m, other)
    ensures Booked(n, other) && IndexOf(other) != IndexOf(id)
    requires Shadows(m)
  {
    hide CheckSum, IndexOf, RandomOf, CheckSumMatches;
  }

  lemma ClientsEntered(clients: map<nat, Long>, k: nat, id: Long, m: Manager, n: Manager)
    requires k in clients && clients[k] == 0 && id != 0 && Enters(m, n, id)
    requires forall i :: i in m.taken ==> HasClient(clients, i)
    ensures forall i :: i in n.taken ==> HasClient(clients[k := id], i)
  {
    hide CheckSum, IndexOf, RandomOf, CheckSumMatches;
    var after := clients[k := id];
    forall i | i in n.taken ensures HasClient(after, i) {
      if i in m.taken {
        var j :| j in clients && clients[j] != 0 && IndexOf(clients[j]) == i;
        assert j in after && after[j] == clients[j];
      } else {
        assert k in after && after[k] == id;
      }
    }
  }

  lemma RequestKeepsInv(s: Center, k: nat, previous: Long, choice: nat, drawn: bv32)
    requires Inv(s)
    ensures Inv(Step(s, Request(k, previous, choice, drawn)))
  {
    hide CheckSum, IndexOf, RandomOf, CheckSumMatches, Regain, Regainable, Enters, Booked, HasClient;
    InvSize(s);
    if k in s.clients && s.clients[k] == 0 && PoolMayChoose(s.m, choice) {
      RegainBooks(s.m, previous, choice, drawn);
      var g := Regain(s.m, previous, choice, drawn);
      if g.id == 0 {
        assert s.clients[k := 0] == s.clients;
      } else {
        ClientsEntered(s.clients, k, g.id, s.m, g.m);
        forall j | j in s.clients && s.clients[j] != 0
          ensures Booked(g.m, s.clients[j]) && IndexOf(s.clients[j]) != IndexOf(g.id)
        {
          BooksStay(s.m, g.m, g.id, s.clients[j]);
        }
      }
    }
  }

  lemma CloseKeepsInv(s: Center, k: nat)
    requires Inv(s)
    ensures Inv(Step(s, Close(k)))
  {
    hide CheckSum, IndexOf, RandomOf, CheckSumMatches;
    if k in s.clients {
      var t := Step(s, Close(k));
      forall i | i in t.m.taken ensures HasClient(t.clients, i) {
        var j :| j in s.clients && s.clients[j] != 0 && IndexOf(s.clients[j]) == i;
        assert j in t.clients && t.clients[j] == s.clients[j];
      }
    }
  }

  lemma OpenKeepsInv(s: Center, k: nat)
    requires Inv(s)
    ensures Inv(Step(s, Open(k)))
  {
    hide CheckSum, IndexOf, RandomOf, CheckSumMatches;
    if k !in s.clients {
      forall i | i in s.m.taken ensures HasClient(s.clients[k := 0], i) {
        var j :| j in s.clients && s.clients[j] != 0 && IndexOf(s.clients[j]) == i;
        assert j in s.clients[k := 0] && s.clients[k := 0][j] == s.clients[j];
      }
    }
  }

  lemma {:induction false} RunKeepsInv(s: Center, events: seq<Event>)
    requires Inv(s)
    ensures Inv(Run(s, events))
    decreases |events|
  {
    if events != [] {
      match events[0] {
        case Open(k) => OpenKeepsInv(s, k);
        case Request(k, previous, choice, drawn) => RequestKeepsInv(s, k, previous, choice, drawn);
        case Close(k) => CloseKeepsInv(s, k);
      }
      hide Inv, Step;
      RunKeepsInv(Step(s, events[0]), events[1..]);
    }
  }

  lemma StartInv(size: nat)
    requires size < INDEX_LIMIT
    ensures Inv(Start(size))
  {
  }

  /** In every run neither runtime assertion fails, no two clients hold the same index, let alone the
      same id, and an index is given away exactly as long as a connected client holds it. */
  lemma IdsAreExclusive(size: nat, events: seq<Event>)
    requires size < INDEX_LIMIT
    ensures var s := Run(Start(size), events);
      && !s.failed
      && (forall j, k :: j in s.clients && k in s.clients && j != k && s.clients[j] != 0 && s.clients[k] != 0 ==>
            IndexOf(s.clients[j]) != IndexOf(s.clients[k]) && s.clients[j] != s.clients[k])
      && (forall i :: i in s.m.taken <==> HasClient(s.clients, i))
      && (forall i :: InRange(s.m, i) ==> (s.m.slots[i - 1] != 0 <==> i in s.m.taken))
  {
    hide Run, IndexOf, RandomOf, CheckSumMatches;
    StartInv(size);
    RunKeepsInv(Start(size), events);
    var s := Run(Start(size), events);
    forall i | HasClient(s.clients, i) ensures i in s.m.taken {
      var k :| k in s.clients && s.clients[k] != 0 && IndexOf(s.clients[k]) == i;
      assert Booked(s.m, s.clients[k]);
    }
  }

  lemma NewcomerSteps(s: Center, k: nat, previous: Long, choice: nat, drawn: bv32)
    requires |s.m.slots| < INDEX_LIMIT && k !in s.clients && PoolMayChoose(s.m, choice)
    ensures |Step(s, Open(k)).m.slots| == |s.m.slots|
    ensures var t := Step(Step(s, Open(k)), Request(k, previous, choice, drawn));
      && |t.m.slots| == |s.m.slots|
      && t.clients == s.clients[k := Regain(s.m, previous, choice, drawn).id]
      && Step(t, Close(k)).clients == s.clients
  {
    StepKeepsSize(s, Open(k));
    var u := Step(s, Open(k));
    StepKeepsSize(u, Request(k, previous, choice, drawn));
    hide Regain, Release, PoolMayChoose;
    var t := Step(u, Request(k, previous, choice, drawn));
    assert t.clients - {k} == s.clients;
  }

  lemma GivenUnlessFull(m: Manager, previous: Long, choice: nat, drawn: bv32)
    requires Shadows(m) && PoolMayChoose(m, choice)
    ensures Regain(m, previous, choice, drawn).id == 0 <==> forall i :: 1 <= i <= |m.slots| ==> i in m.taken
  {
    RegainBooks(m, previous, choice, drawn);
    hide Regain, IndexOf, RandomOf, CheckSumMatches, Shadows, PoolMayChoose;
  }

  /** In every run a newcomer that asks, for whatever id, is given one unless every single index is held by a
      connected client; nobody else's id changes, and once it closes everybody is connected as before. */
  lemma NewcomerIsServed(size: nat, events: seq<Event>, k: nat, previous: Long, choice: nat, drawn: bv32)
    requires size < INDEX_LIMIT && |Run(Start(size), events).m.slots| == size
    requires var s := Run(Start(size), events); k !in s.clients && PoolMayChoose(s.m, choice)
    ensures var s := Run(Start(size), events);
      && |Step(s, Open(k)).m.slots| == size
      && var t := Step(Step(s, Open(k)), Request(k, previous, choice, drawn));
      && |t.m.slots| == size && k in t.clients && t.clients == s.clients[k := t.clients[k]]
      && (t.clients[k] == 0 <==> forall i :: 1 <= i <= size ==> HasClient(s.clients, i))
      && Step(t, Close(k)).clients == s.clients
  {
    hide Run, IndexOf, RandomOf, Regain, HasClient, Step, Inv, Shadows, PoolMayChoose, Start;
    StartIs(size);
    var s := Run(Start(size), events);
    StartInv(size);
    RunKeepsInv(Start(size), events);
    InvShadows(s);
    IdsAreExclusive(size, events);
    NewcomerSteps(s, k, previous, choice, drawn);
    GivenUnlessFull(s.m, previous, choice, drawn);
  }

  /** What a client gets when it leaves and asks for its old id before anybody else got the index. */
  lemma ReleasedIsRegained(m: Manager, id: Long, choice: nat, drawn: bv32)
    requires Shadows(m) && Booked(m, id)
    requires var r := Release(m, id); choice == 0 || (InRange(r, choice) && choice < INDEX_LIMIT)
    ensures var g := Regain(Release(m, id), id, choice, drawn); g.id == id && g.asserted && g.m == m
  {
    hide CheckSum, IndexOf, RandomOf, CheckSumMatches;
    var i := IndexOf(id);
    assert m.slots[i - 1 := 0][i - 1 := RandomOf(id)] == m.slots;
    assert m.taken - {i} + {i} == m.taken;
  }

  lemma {:induction false} RunKeepsSize(s: Center, events: seq<Event>)
    requires |s.m.slots| < INDEX_LIMIT
    ensures |Run(s, events).m.slots| == |s.m.slots|
    decreases |events|
  {
    hide Step;
    if events != [] {
      StepKeepsSize(s, events[0]);
      RunKeepsSize(Step(s, events[0]), events[1..]);
    }
  }

  /** What an index given away means for the clients, and for the slot. */
  lemma HeldExactly(s: Center, index: nat)
    requires Inv(s) && InRange(s.m, index)
    ensures s.m.slots[index - 1] != 0 <==> HasClient(s.clients, index)
  {
    hide IndexOf, RandomOf, CheckSumMatches;
    if HasClient(s.clients, index) {
      var k :| k in s.clients && s.clients[k] != 0 && IndexOf(s.clients[k]) == index;
      assert Booked(s.m, s.clients[k]);
    }
  }

  /** An id that stands in the books of one manager is given for the asking by another of the same size
      exactly if its slot is free there. */
  lemma GivenExactly(m: Manager, id: Long, choice: nat, drawn: bv32)
    requires Shadows(m) && PoolMayChoose(m, choice)
    requires id != 0 && InRange(m, IndexOf(id)) && RandomOf(id) != 0 && CheckSumMatches(id)
    ensures Regain(m, id, choice, drawn).id == id <==> m.slots[IndexOf(id) - 1] == 0
  {
    hide CheckSum, Pack, IndexOf, RandomOf, CheckSumMatches, GenerateRandom;
    RegainBooks(m, id, choice, drawn);
  }

  lemma HeldIsBooked(s: Center, k: nat)
    requires Inv(s) && k in s.clients && s.clients[k] != 0
    ensures Booked(s.m, s.clients[k])
  {
    hide IndexOf, RandomOf, CheckSumMatches, HasClient, Booked, Shadows;
  }

  /** An id that a client had at any time of a run, asked for at any later time, whoever came and went in
      between: it is given again, unchanged, exactly if its slot is free then, that is, if no connected
      client holds its index. */
  lemma RegainedExactly(size: nat, before: seq<Event>, after: seq<Event>, k: nat, j: nat, choice: nat, drawn: bv32)
    requires size < INDEX_LIMIT
    requires var s := Run(Start(size), before); k in s.clients && s.clients[k] != 0
    requires var t := Run(Start(size), before + after);
      j in t.clients && t.clients[j] == 0 && PoolMayChoose(t.m, choice) && |t.m.slots| < INDEX_LIMIT
    ensures var id, t := Run(Start(size), before).clients[k], Run(Start(size), before + after);
      var u := Step(t, Request(j, id, choice, drawn));
      && InRange(t.m, IndexOf(id)) && j in u.clients
      && (u.clients[j] == id <==> t.m.slots[IndexOf(id) - 1] == 0)
      && (u.clients[j] == id <==> !HasClient(t.clients, IndexOf(id)))
  {
    hide Run, Inv, IndexOf, RandomOf, CheckSumMatches, HasClient, Regain, Start;
    StartIs(size);
    StartInv(size);
    RunKeepsInv(Start(size), before);
    RunKeepsInv(Start(size), before + after);
    RunKeepsSize(Start(size), before);
    RunKeepsSize(Start(size), before + after);
    var s, t := Run(Start(size), before), Run(Start(size), before + after);
    var id := s.clients[k];
    HeldIsBooked(s, k);
    HeldExactly(t, IndexOf(id));
    InvShadows(t);
    GivenExactly(t.m, id, choice, drawn);
  }

  lemma StartIs(size: nat)
    ensures |Start(size).m.slots| == size
  {
  }

  lemma InvShadows(s: Center)
    requires Inv(s)
    ensures Shadows(s.m)
  {
  }

  // ---------------------------------------------------------------------------------------
  // The manager and the center, in place
  // ---------------------------------------------------------------------------------------

  class ServerIdManager {
    const randomPool: array<Word>
    var taken: set<nat>

    constructor (size: nat)
      ensures fresh(randomPool) && View() == Manager(seq(size, _ => 0), {})
    {
      randomPool := new Word[size](_ => 0);
      taken := {};
    }

    function View(): Manager
      reads this, randomPool
    {
      Manager(randomPool[..], taken)
    }

    /** The pool of indices; any free one will do. */
    method AcquireIndex() returns (index: nat)
      modifies this
      ensures PoolMayChoose(old(View()), index) && randomPool[..] == old(randomPool[..])
      ensures taken == old(taken) + if index == 0 then {} else {index}
    {
      index := 1;
      while index <= randomPool.Length && index in taken
        invariant 1 <= index <= randomPool.Length + 1
        invariant forall i :: 0 < i < index ==> i in taken
        invariant taken == old(taken)
      {
        index := index + 1;
      }
      if index <= randomPool.Length { taken := taken + {index}; } else { index := 0; }
    }

    method AcquireServerId(drawn: bv32) returns (id: Long, ghost choice: nat)
      requires randomPool.Length < INDEX_LIMIT
      modifies this, randomPool
      ensures PoolMayChoose(old(View()), choice)
      ensures Acquire(old(View()), choice, drawn) == Given(View(), id, true)
    {
      hide Pack, GenerateRandom;
      var index := AcquireIndex();
      choice := index;
      if index == 0 { return 0, choice; }
      var random := GenerateRandom(drawn);
      randomPool[index - 1] := random;
      id := Pack(index, random);
      assert randomPool[..] == old(randomPool[..])[index - 1 := random];
    }

    method RegainServerId(previous: Long, drawn: bv32) returns (id: Long, asserted: bool, ghost choice: nat)
      requires randomPool.Length < INDEX_LIMIT
      modifies this, randomPool
      ensures choice != 0 || !Regainable(old(View()), previous) ==> PoolMayChoose(old(View()), choice)
      ensures Regain(old(View()), previous, choice, drawn) == Given(View(), id, asserted)
    {
      hide Pack, GenerateRandom, IndexOf, RandomOf, CheckSumMatches, Acquire;
      var index, random := IndexOf(previous), RandomOf(previous);
      asserted := true;
      if index == 0 || index > randomPool.Length || random == 0 || !CheckSumMatches(previous)
          || randomPool[index - 1] != 0 {
        id, choice := AcquireServerId(drawn);
        return;
      }
      asserted := index !in taken;
      taken := taken + {index};
      randomPool[index - 1] := random;
      id, choice := previous, 0;
      assert randomPool[..] == old(randomPool[..])[index - 1 := random];
    }

    /** `asserted` is false if the check sum is asked for with the random word 0. */
    method ReleaseServerId(id: Long) returns (ok: bool, asserted: bool)
      modifies this, randomPool
      ensures ok == Releasable(old(View()), id) && View() == Release(old(View()), id)
      ensures asserted == ReleaseAsserts(old(View()), id)
    {
      hide IndexOf, RandomOf, CheckSumMatches;
      var index, random := IndexOf(id), RandomOf(id);
      if index == 0 || index > randomPool.Length { return false, true; }
      asserted := random != 0;
      if !CheckSumMatches(id) { return false, asserted; }
      if randomPool[index - 1] != random { return false, asserted; }
      randomPool[index - 1] := 0;
      taken := taken - {index};
      ok := true;
      assert randomPool[..] == old(randomPool[..])[index - 1 := 0];
    }
  }

  class ServerIdCenterService {
    const manager: ServerIdManager
    var clients: map<nat, Long>
    var failed: bool

    constructor (size: nat)
      ensures fresh(manager) && fresh(manager.randomPool) && View() == Start(size)
    {
      manager := new ServerIdManager(size);
      clients, failed := map[], false;
    }

    function View(): Center
      reads this, manager, manager.randomPool
    {
      Center(manager.View(), clients, failed)
    }

    method OnClientConnected(client: nat)
      modifies this
      ensures View() == Step(old(View()), Open(client))
      requires manager.randomPool.Length < INDEX_LIMIT
    {
      if client !in clients { clients := clients[client := 0]; }
    }

    /** A packet from a client. A request for an id holds the id that the client had before, or 0, and is
        `None` if it cannot be read. Anything else than a first, readable request is refused and changes
        nothing; the answer to a request is the old id and the new one. */
    method OnClientPacket(client: nat, command: nat, request: Option<Long>, drawn: bv32)
      returns (ok: bool, answer: Option<(Long, Long)>, ghost choice: nat)
      requires client in clients && Inv(View())
      modifies this, manager, manager.randomPool
      ensures Inv(View()) && (ok <==> old(clients)[client] == 0 && command == ACQUIRE_SERVER_ID && request.Some?)
      ensures !ok ==> View() == old(View()) && answer.None?
      ensures ok ==> client in clients && answer == Some((request.value, clients[client]))
      ensures ok ==> View() == Step(old(View()), Request(client, request.value, choice, drawn))
    {
      hide Inv, Regain, IndexOf, RandomOf, CheckSumMatches, Regainable;
      choice := 0;
      ghost var before := View();
      InvSize(before);
      if clients[client] != 0 || command != ACQUIRE_SERVER_ID || request.None? { return false, None, 0; }
      var previous := request.value;
      var id, asserted;
      ghost var chosen;
      id, asserted, chosen := manager.RegainServerId(previous, drawn);
      if !asserted { failed := true; }
      clients := clients[client := id];
      ok, answer := true, Some((previous, id));
      choice := AnyChoice(before.m, previous, chosen, drawn);
      RequestKeepsInv(before, client, previous, choice, drawn);
    }

    method OnClientClose(client: nat)
      requires client in clients && Inv(View())
      modifies this, manager, manager.randomPool
      ensures View() == Step(old(View()), Close(client)) && Inv(View())
    {
      hide Inv, Release, Releasable, ReleaseAsserts;
      ghost var before := View();
      InvSize(before);
      CloseKeepsInv(before, client);
      var id := clients[client];
      if id != 0 {
        var released, asserted := manager.ReleaseServerId(id);
        if !released || !asserted { failed := true; }
      }
      clients := clients - {client};
    }
  }

  /** When an id is regained the pool is not asked for a free index, so any possible answer will do. */
  ghost function AnyChoice(m: Manager, previous: Long, chosen: nat, drawn: bv32): (choice: nat)
    requires |m.slots| < INDEX_LIMIT
    requires chosen != 0 || !Regainable(m, previous) ==> PoolMayChoose(m, chosen)
    requires chosen == 0 || InRange(m, chosen)
    ensures PoolMayChoose(m, choice)
    ensures Regain(m, previous, choice, drawn) == Regain(m, previous, chosen, drawn)
  {
    if PoolMayChoose(m, chosen) then chosen else
      assert Regainable(m, previous) && chosen == 0;
      var i :| InRange(m, i) && i !in m.taken; i
  }
}
