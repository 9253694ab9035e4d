/** How connections end, and that nothing is uploaded for them afterwards. */
module RelayEndings {
  import opened Lists
  import opened RelayNetwork
  import opened RelayRuns
  import opened RelaySteps
  import opened RelayInvariant
  import opened RelayUploads
  import opened RelayTheorems

  /** The phase of a connection after the step, and whether the access server has crashed. */
  ghost predicate IsIn(t: Net, id: nat, phase: Phase) {
    !t.crashed && id in t.conns && t.conns[id].phase == phase
  }

  /** The client closes: only a ready SOCKS5 connection takes notice. */
  lemma ClientCloses(s: Net, id: nat)
    requires !s.crashed && id in s.conns
    ensures var before := s.conns[id].phase;
      IsIn(Step(s, PeerClose(id)), id, if before.S5ConnectionReady? then S5WaitForConnectionClosed else before)
  {
  }

  /** The relay has no device for the connection: one that waits or is ready ends in the closing phase of its
      branch, and no other takes notice. */
  lemma RelayDestroys(s: Net, id: nat, size: nat)
    requires !s.crashed && id in s.conns && s.toProxy != [] && s.toProxy[0] == Destroy(id)
    ensures var before := s.conns[id].phase;
      IsIn(Step(s, ProxyReceives(size)), id,
           if !WaitsForEstablish(before) && !IsReady(before) then before
           else match BranchOf(before)
                case HttpRaw => HttpRawClosed
                case HttpNormal => HttpNormalClosed
                case _ => S5WaitForConnectionClosed)
  {
  }

  /** The device closes a ready connection: SOCKS5 takes notice, HTTP does not. */
  lemma DeviceCloses(s: Net, id: nat, x: nat, size: nat)
    requires !s.crashed && id in s.conns && IsReady(s.conns[id].phase)
    requires s.toProxy != [] && s.toProxy[0] == Notify(id, x, Closed)
    ensures var before := s.conns[id].phase;
      IsIn(Step(s, ProxyReceives(size)), id,
           if BranchOf(before).Socks5? then S5WaitForConnectionClosed else before)
  {
  }

  /** The connection is gone or in closing phase `phase`. */
  ghost predicate Ended(s: Net, id: nat, phase: Phase) {
    0 < id < s.nextConn && (id in s.conns ==> s.conns[id].phase == phase)
  }

  lemma ClosingIsLast(p: Phase, q: Phase)
    requires IsClosed(p) && Advances(p, q)
    ensures q == p
  {
    OneRankEach(p, q);
  }

  lemma StepKeepsEnded(s: Net, e: Event, id: nat, phase: Phase)
    requires Inv(s) && Ended(s, id, phase) && IsClosed(phase)
    ensures Ended(Step(s, e), id, phase) && Uploaded(s, e, id) == []
  {
    hide Inv, Step, Advances;
    StepAdvances(s, e, id);
    if id in Step(s, e).conns { ClosingIsLast(phase, Step(s, e).conns[id].phase); }
  }

  lemma {:induction false} RunKeepsEnded(s: Net, events: seq<Event>, id: nat, phase: Phase)
    requires Inv(s) && Ended(s, id, phase) && IsClosed(phase)
    ensures Ended(Run(s, events), id, phase) && Uploads(s, events, id) == []
    decreases |events|
  {
    hide Inv, Step, Ended, Uploaded;
    if events != [] {
      StepKeepsEnded(s, events[0], id, phase);
      StepKeepsInv(s, events[0]);
      RunKeepsEnded(Step(s, events[0]), events[1..], id, phase);
    }
  }

  lemma ConnIsKnown(s: Net, id: nat)
    requires Inv(s) && id in s.conns
    ensures 0 < id < s.nextConn
  {
    hide StagesAgree, PostsInOrder, MessagesAgree, NoticesAgree, CreatesAgree, ContextsAgree, DevicesAgree, SentAgrees;
  }

  lemma NobodyYet(capacity: nat)
    ensures RelayKnown(Start(capacity).conns)
  {
  }

  /** In every run: a connection in a closing phase stays there until it is gone, and nothing is uploaded for
      it any more, whatever the client still sends. */
  lemma EndedUploadsNothing(capacity: nat, events: seq<Event>, more: seq<Event>, id: nat)
    requires var s := Run(Start(capacity), events); id in s.conns && IsClosed(s.conns[id].phase)
    ensures var s := Run(Start(capacity), events);
      var t := Run(s, more);
      SentOf(t, id) == SentOf(s, id) && (id in t.conns ==> t.conns[id].phase == s.conns[id].phase)
  {
    hide Inv, Run, Start, RelayKnown, Uploads, IsClosed;
    var s := Run(Start(capacity), events);
    StartInv(capacity);
    NobodyYet(capacity);
    RunKeepsInv(Start(capacity), events);
    SentIsUploaded(Start(capacity), events, id);
    ConnIsKnown(s, id);
    RunKeepsEnded(s, more, id, s.conns[id].phase);
    SentIsUploaded(s, more, id);
    assert SentOf(s, id) + [] == SentOf(s, id);
  }
}
