/** When a backend connection is given up, asked for a sign of life, or tried again. */
module BackendTimes {
  import opened Backend

  /** The event is the acceptance of the challenge. */
  predicate Accepts(c: Connection, e: Event) {
    e.Packet? && e.command == CHALLENGE_RESP && e.readable && c.tcp && c.phase.Challenging?
  }

  /** The event is a sign of life of the server: a packet for that purpose, or the acceptance. */
  predicate IsSign(c: Connection, e: Event) {
    (e.KeepAlive? && c.tcp) || Accepts(c, e)
  }

  /** The server is asked for a sign of life at this time. */
  predicate IsAsked(c: Connection, e: Event) {
    Step(c, e).acts == c.acts + [KeepAliveRequested(Step(c, e).now)]
  }

  /** When the last sign of life came in a run, `last` if none came. */
  function LastSign(c: Connection, events: seq<Event>, last: nat): nat
    decreases |events|
  {
    if events == [] then last
    else LastSign(Step(c, events[0]), events[1..], if IsSign(c, events[0]) then c.now else last)
  }

  /** When the server was last asked for a sign of life, or accepted the challenge. */
  function LastAsk(c: Connection, events: seq<Event>, last: nat): nat
    decreases |events|
  {
    if events == [] then last else
      var t := Step(c, events[0]);
      LastAsk(t, events[1..], if Accepts(c, events[0]) || IsAsked(c, events[0]) then t.now else last)
  }

  /** A ready link has its last sign of life and the last question on record. */
  predicate OnRecord(c: Connection, sign: nat, ask: nat) {
    c.phase.Ready? ==> c.lastKeepAlive == sign && c.lastRequest == ask && c.start <= sign
  }

  lemma NobodyAsked(c: Connection, e: Event)
    requires !e.Ticked?
    ensures !IsAsked(c, e)
  {
    var acts := Step(c, e).acts;
    assert |acts| == |c.acts| + 1 ==> acts[|c.acts|] != KeepAliveRequested(Step(c, e).now);
  }

  lemma TickOnRecord(c: Connection, now: nat, ok: bool, sign: nat, ask: nat)
    requires OnRecord(c, sign, ask)
    ensures var t := Step(c, Ticked(now, ok));
      OnRecord(t, sign, if IsAsked(c, Ticked(now, ok)) then t.now else ask)
  {
    hide CheckAndReconnect;
    NeverReady(c.(now := now), ok);
    NeverReady(c.(now := now, phase := Closing), ok);
  }

  lemma NeverReady(c: Connection, ok: bool)
    ensures CheckAndReconnect(c, ok).phase.Ready? ==> CheckAndReconnect(c, ok) == c
  {
  }

  lemma StepOnRecord(c: Connection, e: Event, sign: nat, ask: nat)
    requires Inv(c) && OnRecord(c, sign, ask)
    ensures OnRecord(Step(c, e), if IsSign(c, e) then c.now else sign,
                     if Accepts(c, e) || IsAsked(c, e) then Step(c, e).now else ask)
  {
    if e.Ticked? {
      TickOnRecord(c, e.now, e.ok, sign, ask);
      hide *;
    } else {
      NobodyAsked(c, e);
      hide ActsFit, LastAttempt, Trusted, Alive, IsAsked;
    }
  }

  lemma {:induction false} RunOnRecord(c: Connection, events: seq<Event>, sign: nat, ask: nat)
    requires Inv(c) && OnRecord(c, sign, ask)
    ensures Inv(Run(c, events))
    ensures OnRecord(Run(c, events), LastSign(c, events, sign), LastAsk(c, events, ask))
    decreases |events|
  {
    hide Inv, Step, OnRecord, IsSign, IsAsked, Accepts;
    if events != [] {
      var e := events[0];
      StepOnRecord(c, e, sign, ask);
      StepKeepsInv(c, e);
      RunOnRecord(Step(c, e), events[1..], if IsSign(c, e) then c.now else sign,
                  if Accepts(c, e) || IsAsked(c, e) then Step(c, e).now else ask);
    }
  }

  /** What a tick does to a ready link, after any run: it is given up exactly if the last sign of life is at
      least 65 seconds old, and tried again at once; otherwise it stays as it is, and is asked for a sign of
      life exactly if the last question, or the acceptance, is at least a minute old. */
  lemma SilenceClosesExactly(events: seq<Event>, now: nat, ok: bool)
    requires var c := Run(NEW, events); c.phase.Ready? && c.now <= now
    ensures var c := Run(NEW, events);
      var t := Step(c, Ticked(now, ok));
      var sign, ask := LastSign(NEW, events, 0), LastAsk(NEW, events, 0);
      && (now < sign + 65_000 ==>
            && t.phase.Ready? && t.tcp
            && t.acts == if now < ask + 60_000 then c.acts else c.acts + [KeepAliveRequested(now)])
      && (now >= sign + 65_000 ==>
            && t.phase == (if ok then Connecting else SetupReady) && t.tcp == ok
            && t.acts == c.acts + [TcpClean] + [TcpInit(now, ok)])
  {
    StartInv();
    RunOnRecord(NEW, events, 0, 0);
    hide Run, LastSign, LastAsk, ActsFit, Alive, Trusted, LastAttempt;
  }

  /** What a tick does to a link that is not ready: a handshake is given up exactly five seconds after the
      attempt, a closed link is cleaned, and an attempt is made exactly if the last one is at least three
      seconds old, or if none was made since the set-up. */
  lemma AttemptsExactly(events: seq<Event>, now: nat, ok: bool)
    requires var c := Run(NEW, events); !c.phase.Ready? && !c.phase.Unspecified? && c.now <= now
    ensures var c := Run(NEW, events);
      var t, last := Step(c, Ticked(now, ok)), LastAttempt(c.acts);
      var attempt := if now >= last + 3_000 then [TcpInit(now, ok)] else [];
      && (Handshaking(c.phase) && now < last + 5_000 ==> t == c.(now := now))
      && (Handshaking(c.phase) && now >= last + 5_000 ==>
            t.acts == c.acts + [TcpClean] + [TcpInit(now, ok)] && t.tcp == ok)
      && (c.phase.Closing? ==> t.acts == c.acts + [TcpClean] + attempt && t.tcp == (ok && attempt != []))
      && (c.phase.SetupReady? ==> t.acts == c.acts + attempt && t.tcp == (ok && attempt != []))
      && (!Handshaking(c.phase) || now >= last + 5_000 ==> t.phase == if t.tcp then Connecting else SetupReady)
  {
    StartInv();
    RunKeepsInv(NEW, events);
    hide Run, ActsFit, Alive, Trusted, LastAttempt;
    var acts := Run(NEW, events).acts;
    assert acts + [] == acts && acts + [TcpClean] + [] == acts + [TcpClean];
  }

  /** An attempt succeeds: once the server is there and accepts the challenge, its packets are delivered. */
  lemma AcceptedIsServed(c: Connection, command: nat, taken: bool)
    requires c.tcp && c.phase.Connecting?
    ensures var packets := [Packet(CHALLENGE_RESP, true, true)] + ([Packet(command, true, taken)] + []);
      var t := Run(c, [TcpConnected] + packets);
      t.phase.Ready? && t.tcp && t.acts == c.acts + [Accepted] + [Delivered(command)]
  {
    var c1 := Step(c, TcpConnected);
    var c2 := Step(c1, Packet(CHALLENGE_RESP, true, true));
    RunOne(c2, Packet(command, true, taken), []);
    RunOne(c1, Packet(CHALLENGE_RESP, true, true), [Packet(command, true, taken)] + []);
    RunOne(c, TcpConnected, [Packet(CHALLENGE_RESP, true, true)] + ([Packet(command, true, taken)] + []));
  }

  /** Before that, no packet gets through: neither a wrong one nor one that comes too early. */
  lemma OthersAreRefused(c: Connection, command: nat, readable: bool, taken: bool)
    requires c.tcp && !c.phase.Ready? && (command != CHALLENGE_RESP || !readable || !c.phase.Challenging?)
    ensures Step(c, Packet(command, readable, taken)) == c && !AfterPacket(c, command, readable, taken).ok
  {
  }

  /** Whatever the server's end of the connection was doing, after it closes the next tick cleans up, once. */
  lemma PeerCloseIsCleaned(events: seq<Event>, now: nat, ok: bool)
    requires var c := Run(NEW, events); c.tcp && c.now <= now
    ensures var c := Run(NEW, events);
      Run(c, [TcpClosed] + ([Ticked(now, ok)] + [])).acts ==
        c.acts + [TcpClean] + if now >= LastAttempt(c.acts) + 3_000 then [TcpInit(now, ok)] else []
  {
    var c := Run(NEW, events);
    StartInv();
    RunKeepsInv(NEW, events);
    var d := Step(c, TcpClosed);
    RunOne(c, TcpClosed, [Ticked(now, ok)] + []);
    RunOne(d, Ticked(now, ok), []);
    RunEnds(Step(d, Ticked(now, ok)));
    hide Run, ActsFit, Alive, Trusted, LastAttempt;
    assert c.acts + [TcpClean] + [] == c.acts + [TcpClean];
  }

  lemma RunEnds(c: Connection)
    ensures Run(c, []) == c
  {
  }
}
