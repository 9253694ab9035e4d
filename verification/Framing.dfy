/** The loops that cut a byte stream into packets and dispatch them. The connection presents what a call
    left unconsumed again, together with what has arrived since. */
module Framing {
  import opened Lists

  type Bytes = seq<bv8>

  datatype Handled<S> = Handled(state: S, ok: bool)

  /** `parse` gives the size of a packet, header included, for the bytes of its header, and nothing for
      a header that is invalid; `handle` dispatches a whole packet and may refuse it. */
  datatype Protocol<!S> = Protocol(headerSize: nat, parse: Bytes -> Option<nat>, handle: (S, Bytes) -> Handled<S>)

  /** No packet is shorter than its header. */
  ghost predicate Sound<S>(p: Protocol<S>) {
    p.headerSize > 0 && forall h :: p.parse(h).Some? ==> p.headerSize <= p.parse(h).value
  }

  /** What a call leaves: the new state and either the number of consumed bytes or an invalid size. */
  datatype Outcome<S> = Outcome(state: S, consumed: Option<nat>)

  /** What is at the front of a buffer. */
  datatype Front =
    | Incomplete | Invalid | Packet(size: nat)

  function Look<S>(p: Protocol<S>, data: Bytes): (r: Front)
    ensures r.Packet? ==> r.size <= |data|
  {
    if |data| < p.headerSize then Incomplete else
      match p.parse(data[..p.headerSize])
      case None => Invalid
      case Some(size) => if |data| < size then Incomplete else Packet(size)
  }

  lemma LookSize<S>(p: Protocol<S>, data: Bytes)
    requires Sound(p)
    ensures Look(p, data).Packet? ==> 0 < p.headerSize <= Look(p, data).size
  {
  }

  /** Dispatches the packets at the front of `data`. */
  ghost function Deliver<S>(p: Protocol<S>, state: S, data: Bytes): (r: Outcome<S>)
    requires Sound(p)
    ensures r.consumed.Some? ==> r.consumed.value <= |data|
    decreases |data|
  {
    LookSize(p, data);
    match Look(p, data)
    case Incomplete => Outcome(state, Some(0))
    case Invalid => Outcome(state, None)
    case Packet(size) =>
      var h := p.handle(state, data[..size]);
      if !h.ok then Outcome(h.state, None) else Further(Deliver(p, h.state, data[size..]), size)
  }

  /** The same outcome with what was consumed before. */
  function Further<S>(r: Outcome<S>, before: nat): Outcome<S> {
    if r.consumed.None? then r else Outcome(r.state, Some(before + r.consumed.value))
  }

  lemma Slices(a: Bytes, b: Bytes, n: nat)
    requires n <= |a|
    ensures (a + b)[..n] == a[..n] && (a + b)[n..] == a[n..] + b && a[..|a|] == a && a[0..] == a && [] + b == b
  {
    assert (a + b)[n..] == a[n..] + b;
  }

  lemma SliceTwice(a: Bytes, m: nat, n: nat)
    requires m + n <= |a|
    ensures a[m..][n..] == a[m + n..]
  {
  }

  /** `OnData` of the relay and of the backend connection. */
  method OnData<S>(p: Protocol<S>, start: S, data: Bytes) returns (state: S, consumed: Option<nat>)
    requires Sound(p)
    ensures Outcome(state, consumed) == Deliver(p, start, data)
  {
    hide Deliver, Look, Sound;
    state := start;
    var pos := 0;
    Slices(data, [], 0);
    SoundHeader(p);
    while |data| - pos >= p.headerSize
      invariant 0 <= pos <= |data|
      invariant Deliver(p, start, data) == Further(Deliver(p, state, data[pos..]), pos)
      decreases |data| - pos
    {
      ghost var rest := data[pos..];
      LookAt(p, data, pos);
      LookSize(p, rest);
      DeliverStep(p, state, rest);
      var size := p.parse(data[pos..pos + p.headerSize]);
      if size.None? { return state, None; }
      if |data| - pos < size.value { return state, Some(pos); }
      assert rest[..size.value] == data[pos..pos + size.value];
      SliceTwice(data, pos, size.value);
      var h := p.handle(state, data[pos..pos + size.value]);
      state := h.state;
      if !h.ok { return state, None; }
      pos := pos + size.value;
    }
    consumed := Some(pos);
    LookShort(p, data[pos..]);
    DeliverStep(p, state, data[pos..]);
  }

  lemma SoundHeader<S>(p: Protocol<S>)
    requires Sound(p)
    ensures p.headerSize > 0
  {
  }

  lemma LookShort<S>(p: Protocol<S>, data: Bytes)
    requires |data| < p.headerSize
    ensures Look(p, data).Incomplete?
  {
  }

  lemma LookAt<S>(p: Protocol<S>, data: Bytes, pos: nat)
    requires pos + p.headerSize <= |data|
    ensures var size := p.parse(data[pos..pos + p.headerSize]);
      Look(p, data[pos..]) ==
        if size.None? then Invalid else if |data| - pos < size.value then Incomplete else Packet(size.value)
  {
    assert data[pos..][..p.headerSize] == data[pos..pos + p.headerSize];
  }

  lemma DeliverStep<S>(p: Protocol<S>, state: S, data: Bytes)
    requires Sound(p)
    ensures match Look(p, data)
      case Incomplete => Deliver(p, state, data) == Outcome(state, Some(0))
      case Invalid => Deliver(p, state, data) == Outcome(state, None)
      case Packet(size) =>
        var h := p.handle(state, data[..size]);
        Deliver(p, state, data) ==
          if h.ok then Further(Deliver(p, h.state, data[size..]), size) else Outcome(h.state, None)
  {
    hide Look, Sound;
  }

  // ---------------------------------------------------------------------------------------
  // What is consumed: exactly the complete packets at the front
  // ---------------------------------------------------------------------------------------

  predicate IsPacket<S>(p: Protocol<S>, b: Bytes) {
    Look(p, b) == Packet(|b|)
  }

  function Joined(packets: seq<Bytes>): Bytes {
    if packets == [] then [] else packets[0] + Joined(packets[1..])
  }

  /** Dispatches packets one after another until one is refused. */
  function HandleAll<S>(p: Protocol<S>, state: S, packets: seq<Bytes>): Handled<S>
    decreases |packets|
  {
    if packets == [] then Handled(state, true) else
      var h := p.handle(state, packets[0]);
      if !h.ok then h else HandleAll(p, h.state, packets[1..])
  }

  /** What is complete stays as it is when more arrives. */
  lemma LookFurther<S>(p: Protocol<S>, data: Bytes, more: Bytes)
    requires Sound(p) && !Look(p, data).Incomplete?
    ensures Look(p, data + more) == Look(p, data)
  {
    Slices(data, more, p.headerSize);
  }

  lemma LookPacket<S>(p: Protocol<S>, data: Bytes)
    requires Sound(p) && Look(p, data).Packet?
    ensures IsPacket(p, data[..Look(p, data).size])
  {
    var size := Look(p, data).size;
    assert data[..size][..p.headerSize] == data[..p.headerSize];
  }

  /** Whatever packets were sent are dispatched, those and no others, if the rest is incomplete; and if
      none is refused exactly their bytes are consumed. */
  lemma {:induction false} PacketsAreDispatched<S>(p: Protocol<S>, state: S, packets: seq<Bytes>, rest: Bytes)
    requires Sound(p) && Look(p, rest).Incomplete? && forall i :: 0 <= i < |packets| ==> IsPacket(p, packets[i])
    ensures var h := HandleAll(p, state, packets);
      Deliver(p, state, Joined(packets) + rest) == Outcome(h.state, if h.ok then Some(|Joined(packets)|) else None)
    decreases |packets|
  {
    hide Look, Sound;
    Slices([], rest, 0);
    if packets != [] {
      var first, others := packets[0], Joined(packets[1..]) + rest;
      JoinedFirst(packets, rest);
      LookFurther(p, first, others);
      Slices(first, others, |first|);
      Slices([], others, 0);
      assert first[|first|..] == [];
      var h := p.handle(state, first);
      if h.ok { PacketsAreDispatched(p, h.state, packets[1..], rest); }
    }
  }

  lemma JoinedFirst(packets: seq<Bytes>, rest: Bytes)
    requires packets != []
    ensures Joined(packets) + rest == packets[0] + (Joined(packets[1..]) + rest)
  {
  }

  /** The packets at the front of a stream. */
  ghost function Split<S>(p: Protocol<S>, data: Bytes): seq<Bytes>
    requires Sound(p)
    decreases |data|
  {
    LookSize(p, data);
    if !Look(p, data).Packet? then [] else
      var size := Look(p, data).size;
      [data[..size]] + Split(p, data[size..])
  }

  /** Every accepted call consumed whole packets, dispatched each of them once and in order, and left
      nothing complete behind. */
  lemma {:induction false} DeliverIsExact<S>(p: Protocol<S>, state: S, data: Bytes)
    requires Sound(p) && Deliver(p, state, data).consumed.Some?
    ensures var n := Deliver(p, state, data).consumed.value;
      && HandleAll(p, state, Split(p, data)) == Handled(Deliver(p, state, data).state, true)
      && Joined(Split(p, data)) == data[..n] && Look(p, data[n..]).Incomplete?
      && forall i :: 0 <= i < |Split(p, data)| ==> IsPacket(p, Split(p, data)[i])
    decreases |data|
  {
    hide Look, Sound;
    LookSize(p, data);
    Slices(data, [], 0);
    if Look(p, data).Packet? {
      var size := Look(p, data).size;
      var rest := data[size..];
      var h := p.handle(state, data[..size]);
      DeliverIsExact(p, h.state, rest);
      LookPacket(p, data);
      var n := Deliver(p, h.state, rest).consumed.value;
      SliceTwice(data, size, n);
      assert data[..size + n] == data[..size] + rest[..n];
      assert Split(p, data)[1..] == Split(p, rest);
    }
  }

  // ---------------------------------------------------------------------------------------
  // How the stream is cut into calls does not matter
  // ---------------------------------------------------------------------------------------

  /** The connection after some calls; `waiting` are unconsumed bytes. */
  datatype Stream<S> = Stream(state: S, waiting: Bytes, open: bool)

  ghost function Arrive<S>(p: Protocol<S>, s: Stream<S>, chunk: Bytes): Stream<S>
    requires Sound(p)
  {
    if !s.open then s else
      var r := Deliver(p, s.state, s.waiting + chunk);
      if r.consumed.None? then Stream(r.state, [], false)
      else Stream(r.state, (s.waiting + chunk)[r.consumed.value..], true)
  }

  ghost function ArriveAll<S>(p: Protocol<S>, s: Stream<S>, chunks: seq<Bytes>): Stream<S>
    requires Sound(p)
    decreases |chunks|
  {
    if chunks == [] then s else ArriveAll(p, Arrive(p, s, chunks[0]), chunks[1..])
  }

  /** Delivering more bytes goes on where the call with fewer stopped. */
  lemma {:induction false} DeliverMore<S>(p: Protocol<S>, state: S, data: Bytes, more: Bytes)
    requires Sound(p)
    ensures var r := Deliver(p, state, data);
      Deliver(p, state, data + more) ==
        if r.consumed.None? then r
        else Further(Deliver(p, r.state, data[r.consumed.value..] + more), r.consumed.value)
    decreases |data|
  {
    hide Look, Sound, Deliver;
    LookSize(p, data);
    DeliverStep(p, state, data);
    DeliverStep(p, state, data + more);
    Slices(data, more, 0);
    if !Look(p, data).Incomplete? {
      LookFurther(p, data, more);
      if Look(p, data).Packet? {
        var size := Look(p, data).size;
        Slices(data, more, size);
        var h := p.handle(state, data[..size]);
        if h.ok {
          DeliverMore(p, h.state, data[size..], more);
          var r := Deliver(p, h.state, data[size..]);
          if r.consumed.Some? { SliceTwice(data, size, r.consumed.value); }
        }
      }
    }
  }

  lemma SliceWaiting(waiting: Bytes, a: Bytes, b: Bytes, m: nat, n: nat)
    requires m <= |waiting + a| && n <= |(waiting + a)[m..] + b|
    ensures ((waiting + a)[m..] + b)[n..] == (waiting + (a + b))[m + n..]
  {
  }

  lemma ArriveTwice<S>(p: Protocol<S>, s: Stream<S>, a: Bytes, b: Bytes)
    requires Sound(p)
    ensures Arrive(p, Arrive(p, s, a), b) == Arrive(p, s, a + b)
  {
    hide Deliver, Sound;
    if s.open {
      var data := s.waiting + a;
      assert data + b == s.waiting + (a + b);
      DeliverMore(p, s.state, data, b);
      var r := Deliver(p, s.state, data);
      if r.consumed.Some? {
        var q := Deliver(p, r.state, data[r.consumed.value..] + b);
        if q.consumed.Some? { SliceWaiting(s.waiting, a, b, r.consumed.value, q.consumed.value); }
      }
    }
  }

  /** However a stream is cut into calls, the connection ends up as if all of it had come at once: the
      same packets dispatched, the same refusal, the same bytes waiting. */
  lemma {:induction false} CutsDoNotMatter<S>(p: Protocol<S>, s: Stream<S>, chunks: seq<Bytes>)
    requires Sound(p) && chunks != []
    ensures ArriveAll(p, s, chunks) == Arrive(p, s, Joined(chunks))
    decreases |chunks|
  {
    if |chunks| == 1 {
      assert chunks[1..] == [] && Joined(chunks) == chunks[0] + [] == chunks[0];
      assert ArriveAll(p, Arrive(p, s, chunks[0]), chunks[1..]) == Arrive(p, s, chunks[0]);
    } else {
      CutsDoNotMatter(p, Arrive(p, s, chunks[0]), chunks[1..]);
      ArriveTwice(p, s, chunks[0], Joined(chunks[1..]));
    }
  }

  // ---------------------------------------------------------------------------------------
  // Headers that announce nothing
  // ---------------------------------------------------------------------------------------

  /** One turn of the loop of `OnData`, for any headers: what it leaves to the next turn, or nothing if the
      loop ends. */
  function Turn<S>(p: Protocol<S>, state: S, data: Bytes): Option<(S, Bytes)> {
    match Look(p, data)
    case Packet(size) =>
      var h := p.handle(state, data[..size]);
      if h.ok then Some((h.state, data[size..])) else None
    case _ => None
  }

  /** What `n` turns leave, or nothing if the loop ends before. */
  function Turns<S>(p: Protocol<S>, state: S, data: Bytes, n: nat): Option<(S, Bytes)>
    decreases n
  {
    if n == 0 then Some((state, data)) else
      match Turn(p, state, data)
      case None => None
      case Some(next) => Turns(p, next.0, next.1, n - 1)
  }

  /** Where every packet is as long as its header, the turns are those of `OnData`. */
  lemma {:induction false} TurnsAreDelivered<S>(p: Protocol<S>, state: S, data: Bytes, n: nat)
    requires Sound(p) && Turns(p, state, data, n).Some?
    ensures var left := Turns(p, state, data, n).value;
      && |left.1| <= |data| && left.1 == data[|data| - |left.1|..]
      && Deliver(p, state, data) == Further(Deliver(p, left.0, left.1), |data| - |left.1|)
    decreases n
  {
    hide Look, Sound, Deliver;
    if n == 0 {
      assert data[0..] == data;
    } else {
      var size := Look(p, data).size;
      var rest := data[size..];
      DeliverStep(p, state, data);
      var h := p.handle(state, data[..size]);
      TurnsAreDelivered(p, h.state, rest, n - 1);
      SliceTwice(data, size, |rest| - |Turns(p, h.state, rest, n - 1).value.1|);
    }
  }

  /** A turn makes no progress exactly on a header of size 0. */
  lemma TurnStaysExactly<S>(p: Protocol<S>, state: S, data: Bytes)
    requires Turn(p, state, data).Some?
    ensures Turn(p, state, data).value.1 == data <==> p.parse(data[..p.headerSize]) == Some(0)
    ensures |Turn(p, state, data).value.1| <= |data|
  {
    var size := Look(p, data).size;
    if size == 0 { assert data[0..] == data; }
  }

  /** As long as no turn meets a header of size 0 the loop ends, after at most as many turns as there are
      bytes; sizes below that of the header do not matter to that. */
  lemma {:induction false} EndsWithoutEmpty<S>(p: Protocol<S>, state: S, data: Bytes, n: nat)
    requires forall k: nat :: k < n && Turns(p, state, data, k).Some? ==>
      Look(p, Turns(p, state, data, k).value.1) != Packet(0)
    ensures Turns(p, state, data, n).Some? ==> |Turns(p, state, data, n).value.1| + n <= |data|
    decreases n
  {
    hide Look, Turn;
    if n > 0 {
      assert Turns(p, state, data, 0) == Some((state, data));
      if Turn(p, state, data).Some? {
        var next := Turn(p, state, data).value;
        TurnShrinks(p, state, data);
        forall k: nat | k < n - 1 && Turns(p, next.0, next.1, k).Some?
          ensures Look(p, Turns(p, next.0, next.1, k).value.1) != Packet(0)
        {
          assert Turns(p, state, data, k + 1) == Turns(p, next.0, next.1, k);
        }
        EndsWithoutEmpty(p, next.0, next.1, n - 1);
      }
    }
  }

  lemma TurnShrinks<S>(p: Protocol<S>, state: S, data: Bytes)
    requires Turn(p, state, data).Some? && Look(p, data) != Packet(0)
    ensures |Turn(p, state, data).value.1| < |data|
  {
  }

  /** A header of size 0 at the front stays there: as long as it is accepted, every turn finds the same bytes
      and dispatches the same empty packet again. */
  lemma {:induction false} EmptyNeverEnds<S>(p: Protocol<S>, state: S, data: Bytes, n: nat)
    requires Look(p, data) == Packet(0)
    requires forall k: nat :: k < n && Turns(p, state, data, k).Some? ==>
      p.handle(Turns(p, state, data, k).value.0, []).ok
    ensures Turns(p, state, data, n).Some? && Turns(p, state, data, n).value.1 == data
    decreases n
  {
    hide Look;
    assert data[..0] == [] && data[0..] == data;
    if n > 0 {
      assert Turns(p, state, data, 0) == Some((state, data));
      var t := p.handle(state, []).state;
      forall k: nat | k < n - 1 && Turns(p, t, data, k).Some? ensures p.handle(Turns(p, t, data, k).value.0, []).ok {
        assert Turns(p, state, data, k + 1) == Turns(p, t, data, k);
      }
      EmptyNeverEnds(p, t, data, n - 1);
    }
  }
}
