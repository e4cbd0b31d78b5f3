/** Every CQE handler keeps the protocol's invariant, or exits for a stated reason. */
module ProtocolHandlers {
  import opened IouTypes
  import opened ServerCore
  import opened Protocol
  import opened ProtocolInvariant
  import opened ProtocolSteps

  lemma {:induction false} WithoutEffect(q: seq<Addr>, a: Addr)
    requires a in q
    ensures multiset(Without(q, a)) == multiset(q) - multiset{a}
    ensures |Without(q, a)| == |q| - 1
    ensures multiset(q)[a] == 1 ==> forall b :: b in Without(q, a) <==> b in q && b != a
  {
    assert q == [q[0]] + q[1..];
    if q[0] != a {
      WithoutEffect(q[1..], a);
    }
    forall b ensures b in Without(q, a) <==> multiset(Without(q, a))[b] > 0 {
    }
  }

  // The event in the server's hands: its op, dispatched on the op's own tag, and
  // that no other request is about that op.
  lemma {:induction false} EventFacts(cfg: Config, s: State)
    requires Full(cfg, s) && s.k.pc.Handling?
    ensures var c := s.k.pc.event; var a := c.req.userData;
            && a in s.k.ops && Configured(a, s.k.ops[a]) == Some(c.req) && ResOk(c)
            && (forall e :: e in s.sq || e in s.k.flight ==> e.userData != a)
            && (forall d :: d in s.cq ==> d.req.userData != a)
            && Ids(s.sq) + Ids(s.k.flight) + Ids(Reqs(s.cq)) == Live(s.k) - multiset{a}
            && a in Live(s.k)
            && match s.k.ops[a].tag
               case AcceptedConnection => a == ACCEPT_REQ
               case TimerExpired => a == TIMER_REQ && s.k.timerArmed && c.req.opcode.Timeout?
               case Unknown(_) => false
               case RecvFromClient => a in s.k.tracked && c.req.opcode.Recv?
               case SendToClient => a in s.k.tracked && c.req.opcode.Send?
               case CloseConnection => a in s.k.tracked && c.req.opcode.Close?
  {
    EventOp(cfg, s);
    hide Heap, Unique, Requests, Sockets, Echo, Accounted, Room;
    EventElsewhere(cfg, s);
  }

  lemma {:induction false} EventOp(cfg: Config, s: State)
    requires Full(cfg, s) && s.k.pc.Handling?
    ensures var c := s.k.pc.event; var a := c.req.userData;
            && a in s.k.ops && Configured(a, s.k.ops[a]) == Some(c.req) && ResOk(c)
            && match s.k.ops[a].tag
               case AcceptedConnection => a == ACCEPT_REQ
               case TimerExpired => a == TIMER_REQ && s.k.timerArmed && c.req.opcode.Timeout?
               case Unknown(_) => false
               case RecvFromClient => a in s.k.tracked && c.req.opcode.Recv?
               case SendToClient => a in s.k.tracked && c.req.opcode.Send?
               case CloseConnection => a in s.k.tracked && c.req.opcode.Close?
  {
    hide Sockets, Echo, Accounted, Room;
    EventAlone(cfg, s);
    hide Unique;
    assert Events(s)[0] == s.k.pc.event;
  }

  lemma {:induction false} EventElsewhere(cfg: Config, s: State)
    requires Heap(cfg, s.k) && Unique(s) && s.k.pc.Handling?
    ensures var a := s.k.pc.event.req.userData;
            && (forall e :: e in s.sq || e in s.k.flight ==> e.userData != a)
            && (forall d :: d in s.cq ==> d.req.userData != a)
            && Ids(s.sq) + Ids(s.k.flight) + Ids(Reqs(s.cq)) == Live(s.k) - multiset{a}
            && a in Live(s.k)
  {
    var c := s.k.pc.event;
    EventAlone(cfg, s);
    hide Heap, Ids, Reqs, Live;
    forall e | e in s.sq ensures e.userData != c.req.userData {
      if e.userData == c.req.userData { IdsContains(s.sq, e); }
    }
    forall e | e in s.k.flight ensures e.userData != c.req.userData {
      if e.userData == c.req.userData { IdsContains(s.k.flight, e); }
    }
    forall d | d in s.cq ensures d.req.userData != c.req.userData {
      if d.req.userData == c.req.userData {
        ReqsContains(s.cq, d);
        IdsContains(Reqs(s.cq), d.req);
      }
    }
  }

  // Dropping the first event, which is not a CLOSE of b, keeps b's CLOSE in sight.
  lemma {:induction false} ClosedByShifts(c: Completion, cq: seq<Completion>, n: nat, b: Addr)
    requires ClosedBy([c] + cq, n, b) && (IsClose(c) ==> c.req.userData != b)
    ensures n > 0 && ClosedBy(cq, n - 1, b)
  {
    var i :| 0 <= i < n <= |[c] + cq| && IsClose(([c] + cq)[i]) && ([c] + cq)[i].req.userData == b;
    assert ([c] + cq)[i] == cq[i - 1];
  }

  lemma {:induction false} ClosedByShiftsBack(c: Completion, cq: seq<Completion>, b: Addr)
    requires ClosedBy(cq, |cq|, b)
    ensures ClosedBy([c] + cq, |[c] + cq|, b)
  {
    var i :| 0 <= i < |cq| && IsClose(cq[i]) && cq[i].req.userData == b;
    assert ([c] + cq)[i + 1] == cq[i];
  }

  // A tracked op that is not the one whose CLOSE is being handled.
  lemma {:induction false} LaterOp(cfg: Config, s: State, b: Addr)
    requires Full(cfg, s) && s.k.pc.Handling? && b in s.k.tracked
    requires IsClose(s.k.pc.event) ==> b != s.k.pc.event.req.userData
    ensures ClosedBy(s.cq, |s.cq|, b) <==> !FdOpen(s.k, b)
  {
    hide Unique, Requests, Echo, Accounted, Room, UnseenSockets, NoStraySocket;
    var c, cq := s.k.pc.event, s.cq;
    if ClosedBy([c] + cq, |[c] + cq|, b) {
      ClosedByShifts(c, cq, |[c] + cq|, b);
    }
    if ClosedBy(cq, |cq|, b) {
      ClosedByShiftsBack(c, cq, b);
    }
  }

  // The handler leaves the sockets of the remaining tracked ops as they were.
  ghost predicate SameSockets(s: State, s': State)
    requires s.k.pc.Handling?
  {
    && s'.cq == s.cq && !s'.k.pc.Handling?
    && s'.k.conns == s.k.conns && s'.k.recvd == s.k.recvd && s'.k.sent == s.k.sent
    && (forall b :: b in s'.k.tracked ==>
          && b in s.k.tracked && b in s.k.ops && b in s'.k.ops && b in s.k.conOf && b in s'.k.conOf
          && s'.k.ops[b].fd == s.k.ops[b].fd && s'.k.conOf[b] == s.k.conOf[b]
          && (IsClose(s.k.pc.event) ==> b != s.k.pc.event.req.userData))
    && (forall b :: b in s.k.tracked ==>
          b in s'.k.tracked || (IsClose(s.k.pc.event) && b == s.k.pc.event.req.userData))
  }

  // What is left of the events, once the first is dealt with.
  lemma {:induction false} LaterSockets(cfg: Config, s: State, s': State)
    requires Full(cfg, s) && s.k.pc.Handling? && SameSockets(s, s')
    requires Heap(cfg, s'.k) && !IsSocket(s.k.pc.event)
    ensures Sockets(cfg, s')
  {
    hide Unique, Requests, Echo, Accounted, Room, OwnSockets, ClosedBy, FdOpen;
    LaterOwn(cfg, s, s');
    forall j | 0 <= j < |s.cq| && IsSocket(s.cq[j]) ensures SocketOk(s'.k, s.cq, j) {
      LaterUnseen(cfg, s, s', j);
    }
    LaterHolders(cfg, s, s');
    assert Events(s') == s.cq;
  }

  lemma {:induction false} LaterOwn(cfg: Config, s: State, s': State)
    requires Full(cfg, s) && s.k.pc.Handling? && SameSockets(s, s')
    requires Heap(cfg, s'.k)
    ensures OwnSockets(cfg, s')
  {
    hide Unique, Requests, Echo, Accounted, Room, ClosedBy, UnseenSockets, NoStraySocket;
    forall b | b in s'.k.tracked ensures ClosedBy(s.cq, |s.cq|, b) <==> !FdOpen(s'.k, b) {
      LaterOp(cfg, s, b);
    }
  }

  lemma {:induction false} LaterUnseen(cfg: Config, s: State, s': State, j: nat)
    requires Full(cfg, s) && s.k.pc.Handling? && SameSockets(s, s') && Heap(cfg, s'.k)
    requires j < |s.cq| && IsSocket(s.cq[j])
    ensures SocketOk(s'.k, s.cq, j)
  {
    hide Unique, Requests, Echo, Accounted, Room, OwnSockets, NoStraySocket;
    var c, cq := s.k.pc.event, s.cq;
    assert Events(s) == [c] + cq && Events(s)[j + 1] == cq[j];
    assert SocketOk(s.k, Events(s), j + 1);
    forall b | b in s'.k.tracked && s'.k.ops[b].fd == cq[j].res ensures ClosedBy(cq, j, b) {
      ClosedByShifts(c, cq, j + 1, b);
    }
  }

  lemma {:induction false} LaterHolders(cfg: Config, s: State, s': State)
    requires Full(cfg, s) && s.k.pc.Handling? && s'.cq == s.cq && s'.k.conns == s.k.conns
    requires Heap(cfg, s'.k)
    requires forall b :: b in s.k.tracked && !(IsClose(s.k.pc.event) && b == s.k.pc.event.req.userData) ==>
               b in s'.k.tracked && s'.k.ops[b].fd == s.k.ops[b].fd && s'.k.conOf[b] == s.k.conOf[b]
    ensures forall f :: f in s'.k.conns && (IsSocket(s.k.pc.event) ==> f != s.k.pc.event.res) ==>
              (exists b :: Holds(s'.k, b, f)) || (exists j :: Unseen(s.cq, j, f))
  {
    hide Unique, Requests, Sockets, Echo, Accounted, Room, Unseen;
    var c := s.k.pc.event;
    forall f | f in s'.k.conns && (IsSocket(c) ==> f != c.res)
      ensures (exists b :: Holds(s'.k, b, f)) || (exists j :: Unseen(s.cq, j, f))
    {
      LaterHolder(cfg, s, f);
      if b :| Holds(s.k, b, f) && !(IsClose(c) && b == c.req.userData) {
        assert Holds(s'.k, b, f);
      }
    }
  }

  // An open socket other than the one just accepted: its holder is not an op on its way out.
  lemma {:induction false} LaterHolder(cfg: Config, s: State, f: int)
    requires Full(cfg, s) && s.k.pc.Handling? && f in s.k.conns
    requires IsSocket(s.k.pc.event) ==> f != s.k.pc.event.res
    ensures (exists b :: Holds(s.k, b, f) && !(IsClose(s.k.pc.event) && b == s.k.pc.event.req.userData))
            || (exists j :: Unseen(s.cq, j, f))
  {
    hide Unique, Requests, Echo, Accounted, Room, UnseenSockets, OwnSockets;
    var c, cq := s.k.pc.event, s.cq;
    if IsClose(c) { HandledCloseIsDone(cfg, s); }
    if b :| Holds(s.k, b, f) {
      assert !(IsClose(c) && b == c.req.userData);
    } else {
      var j: nat :| Unseen([c] + cq, j, f);
      assert j > 0;
      assert Unseen(cq, j - 1, f);
    }
  }

  lemma {:induction false} HandledCloseIsDone(cfg: Config, s: State)
    requires Full(cfg, s) && s.k.pc.Handling? && IsClose(s.k.pc.event)
    ensures forall f :: !Holds(s.k, s.k.pc.event.req.userData, f)
  {
    hide Unique, Requests, Echo, Accounted, Room, UnseenSockets, NoStraySocket;
    var c := s.k.pc.event;
    assert Events(s)[0] == c;
    assert ClosedBy(Events(s), |Events(s)|, c.req.userData);
  }

  // What a handler leaves alone: the queues, and every op but the event's.
  ghost predicate Elsewhere(s: State, s': State)
    requires s.k.pc.Handling?
  {
    && !s'.k.pc.Handling? && s'.sq == s.sq && s'.cq == s.cq && s'.k.flight == s.k.flight
    && s'.k.conns == s.k.conns && s'.k.recvd == s.k.recvd && s'.k.sent == s.k.sent
    && (forall b :: b in s.k.ops && b != s.k.pc.event.req.userData ==>
          b in s'.k.ops && s'.k.ops[b] == s.k.ops[b])
  }

  lemma {:induction false} LaterRequests(cfg: Config, s: State, s': State)
    requires Full(cfg, s) && s.k.pc.Handling? && Elsewhere(s, s')
    ensures Requests(s')
  {
    hide Unique, Sockets, Echo, Accounted, Room;
    EventFacts(cfg, s);
    forall d | d in s'.cq ensures ReqOk(s'.k, d.req) && ResOk(d) {
      assert d in Events(s);
    }
  }

  lemma {:induction false} LaterEcho(cfg: Config, s: State, s': State)
    requires Full(cfg, s) && s.k.pc.Handling? && Elsewhere(s, s')
    requires forall b :: b in s.k.tracked && b != s.k.pc.event.req.userData ==>
               b in s'.k.tracked && b in s'.k.conOf && s'.k.conOf[b] == s.k.conOf[b]
    requires forall b :: b in s'.k.tracked ==> b in s.k.tracked || b !in s.k.ops
    requires forall b :: b in Todo(s'.k) ==> Balanced(s'.k, b, None)
    requires forall c: nat :: c < |s.k.recvd| && OwnsCon(s.k, s.k.pc.event.req.userData, c) ==>
               OwnsCon(s'.k, s.k.pc.event.req.userData, c) || s.k.recvd[c] == s.k.sent[c]
    ensures Echo(s')
  {
    hide Unique, Sockets, Accounted, Room;
    var a := s.k.pc.event.req.userData;
    EventFacts(cfg, s);
    forall e | e in s'.sq || e in s'.k.flight ensures Balanced(s'.k, e.userData, None) {
      assert ReqOk(s.k, e) && Balanced(s.k, e.userData, None);
    }
    forall d | d in s'.cq ensures Balanced(s'.k, d.req.userData, Some(d.res)) {
      assert d in Events(s);
      assert ReqOk(s.k, d.req) && Balanced(s.k, d.req.userData, Some(d.res));
    }
    forall c: nat | c < |s'.k.recvd| ensures (exists b :: OwnsCon(s'.k, b, c)) || s'.k.recvd[c] == s'.k.sent[c] {
      if b :| OwnsCon(s.k, b, c) {
        if b != a {
          assert OwnsCon(s'.k, b, c);
        }
      }
    }
  }

  // The event is gone; what the handler is about to submit makes up for it.
  lemma {:induction false} HandledUnique(cfg: Config, s: State, s': State)
    requires Full(cfg, s) && s.k.pc.Handling? && !s'.k.pc.Handling?
    requires s'.sq == s.sq && s'.cq == s.cq && s'.k.flight == s.k.flight
    requires Live(s.k) - multiset{s.k.pc.event.req.userData} + multiset(Todo(s'.k)) == Live(s'.k)
    ensures Unique(s')
  {
    hide Sockets, Echo, Accounted, Room, Requests;
    EventFacts(cfg, s);
  }

  // A handler submits as many requests as it reports.
  lemma {:induction false} HandledAccounts(cfg: Config, s: State, s': State)
    requires Full(cfg, s) && s.k.pc.Handling? && s'.k.pc.Submitting?
    requires s'.sq == s.sq && s'.k.toSubmit == s.k.toSubmit
    requires s'.k.pc.ret == |s'.k.pc.todo| && !s'.k.pc.acquired
    ensures Accounted(cfg, s') && Room(cfg, s')
  {
    hide Heap, Unique, Requests, Sockets, Echo;
  }

  lemma {:induction false} ReuseHeap(cfg: Config, k: Core, k': Core, a: Addr, op: Op)
    requires Heap(cfg, k) && a in k.tracked && ClientOp(cfg, op)
    requires k' == k.(ops := k.ops[a := op], pc := k'.pc)
    ensures Heap(cfg, k')
  {
  }

  // recv and send: the op is reused for the next request.
  ghost predicate Reused(cfg: Config, s: State, s': State, op: Op) {
    && s.k.pc.Handling?
    && var c := s.k.pc.event; var a := c.req.userData;
    && a in s.k.tracked && a in s.k.ops && ClientOp(cfg, op)
    && op.fd == s.k.ops[a].fd && Owed(op, None) == Owed(s.k.ops[a], Some(c.res))
    && (c.req.opcode.Recv? || c.req.opcode.Send?)
    && s' == s.(k := s.k.(ops := s.k.ops[a := op], pc := Submitting([a], 1, false)))
  }

  lemma {:induction false} ReuseEcho(cfg: Config, s: State, s': State, op: Op)
    requires Full(cfg, s) && Reused(cfg, s, s', op)
    ensures Requests(s') && Echo(s')
  {
    hide Unique, Requests, Sockets, Accounted, Room;
    var c := s.k.pc.event;
    assert Events(s)[0] == c;
    assert Balanced(s.k, c.req.userData, Some(c.res));
    LaterRequests(cfg, s, s');
    LaterEcho(cfg, s, s');
  }

  lemma {:induction false} ReuseKeeps(cfg: Config, s: State, s': State, op: Op)
    requires Full(cfg, s) && Reused(cfg, s, s', op)
    ensures Full(cfg, s')
  {
    hide Unique, Requests, Sockets, Echo, Accounted, Room, ClientOp, Owed;
    ReuseHeap(cfg, s.k, s'.k, s.k.pc.event.req.userData, op);
    ReuseEcho(cfg, s, s', op);
    EventFacts(cfg, s);
    LaterSockets(cfg, s, s');
    HandledUnique(cfg, s, s');
    HandledAccounts(cfg, s, s');
  }

  lemma {:induction false} RecvKeeps(cfg: Config, s: State, s': State)
    requires Full(cfg, s) && s.k.pc.Handling?
    requires var c := s.k.pc.event; var a := c.req.userData;
             && a in s.k.ops && s.k.ops[a].tag.RecvFromClient?
             && s' == s.(k := HandleRecv(cfg, s.k, a, c.res)) && !s'.k.pc.Exited?
    ensures Full(cfg, s')
  {
    hide Unique, Requests, Sockets, Echo, Accounted, Room;
    var c := s.k.pc.event;
    EventFacts(cfg, s);
    ReuseKeeps(cfg, s, s', s'.k.ops[c.req.userData]);
  }

  lemma {:induction false} SendKeeps(cfg: Config, s: State, s': State)
    requires Full(cfg, s) && s.k.pc.Handling?
    requires var c := s.k.pc.event; var a := c.req.userData;
             && a in s.k.ops && s.k.ops[a].tag.SendToClient?
             && s' == s.(k := HandleSend(cfg, s.k, a, c.res)) && !s'.k.pc.Exited?
    ensures Full(cfg, s')
  {
    hide Unique, Requests, Sockets, Echo, Accounted, Room;
    var c := s.k.pc.event;
    EventFacts(cfg, s);
    ReuseKeeps(cfg, s, s', s'.k.ops[c.req.userData]);
  }

  ghost predicate ClosedNow(s: State, s': State) {
    && s.k.pc.Handling?
    && var c := s.k.pc.event; var a := c.req.userData;
    && a in s.k.ops && s.k.ops[a].tag.CloseConnection?
    && s' == s.(k := HandleClose(s.k, a, c.res)) && !s'.k.pc.Exited?
  }

  lemma {:induction false} CloseHeap(cfg: Config, s: State, s': State)
    requires Full(cfg, s) && ClosedNow(s, s')
    ensures s.k.pc.event.req.userData in s.k.tracked
    ensures Heap(cfg, s'.k) && multiset(s'.k.tracked) == multiset(s.k.tracked) - multiset{s.k.pc.event.req.userData}
    ensures |s'.k.tracked| == |s.k.tracked| - 1
    ensures forall b :: b in s'.k.tracked <==> b in s.k.tracked && b != s.k.pc.event.req.userData
  {
    hide Unique, Requests, Sockets, Echo, Accounted, Room, Without;
    var a := s.k.pc.event.req.userData;
    EventFacts(cfg, s);
    WithoutEffect(s.k.tracked, a);
  }

  lemma {:induction false} CloseEcho(cfg: Config, s: State, s': State)
    requires Full(cfg, s) && ClosedNow(s, s')
    ensures Requests(s') && Echo(s')
  {
    hide Unique, Requests, Sockets, Accounted, Room, Without;
    var c := s.k.pc.event;
    CloseHeap(cfg, s, s');
    assert Events(s)[0] == c;
    assert Balanced(s.k, c.req.userData, Some(c.res));
    LaterRequests(cfg, s, s');
    LaterEcho(cfg, s, s');
  }

  lemma {:induction false} CloseSockets(cfg: Config, s: State, s': State)
    requires Full(cfg, s) && ClosedNow(s, s') && Heap(cfg, s'.k)
    ensures Sockets(cfg, s')
  {
    hide Unique, Requests, Sockets, Echo, Accounted, Room, Without, ClientOp;
    EventFacts(cfg, s);
    CloseHeap(cfg, s, s');
    LaterSockets(cfg, s, s');
  }

  lemma {:induction false} CloseUnique(cfg: Config, s: State, s': State)
    requires Full(cfg, s) && ClosedNow(s, s')
    ensures Unique(s')
  {
    hide Heap, Unique, Requests, Sockets, Echo, Accounted, Room, Without;
    CloseHeap(cfg, s, s');
    HandledUnique(cfg, s, s');
  }

  lemma {:induction false} CloseKeeps(cfg: Config, s: State, s': State)
    requires Full(cfg, s) && ClosedNow(s, s')
    ensures Full(cfg, s')
  {
    hide Heap, Unique, Requests, Sockets, Echo, Accounted, Room, Without;
    CloseHeap(cfg, s, s');
    CloseEcho(cfg, s, s');
    CloseSockets(cfg, s, s');
    CloseUnique(cfg, s, s');
    HandledAccounts(cfg, s, s');
  }

  lemma {:induction false} TimerEcho(cfg: Config, s: State, s': State)
    requires Full(cfg, s) && s.k.pc.Handling?
    requires var c := s.k.pc.event; var a := c.req.userData;
             && a in s.k.ops && s.k.ops[a].tag.TimerExpired?
             && s' == s.(k := HandleTimer(s.k, c.res)) && !s'.k.pc.Exited?
    ensures Echo(s')
  {
    hide Unique, Requests, Sockets, Echo, Accounted, Room, ClientOp;
    EventFacts(cfg, s);
    LaterEcho(cfg, s, s');
  }

  lemma {:induction false} TimerKeeps(cfg: Config, s: State, s': State)
    requires Full(cfg, s) && s.k.pc.Handling?
    requires var c := s.k.pc.event; var a := c.req.userData;
             && a in s.k.ops && s.k.ops[a].tag.TimerExpired?
             && s' == s.(k := HandleTimer(s.k, c.res)) && !s'.k.pc.Exited?
    ensures Full(cfg, s')
  {
    hide Unique, Requests, Sockets, Echo, Accounted, Room, ClientOp;
    EventFacts(cfg, s);
    assert Heap(cfg, s'.k);
    LaterRequests(cfg, s, s');
    TimerEcho(cfg, s, s');
    LaterSockets(cfg, s, s');
    HandledUnique(cfg, s, s');
    HandledAccounts(cfg, s, s');
  }

  // The accepted socket: it is open, its connection is empty and nobody's, and no
  // tracked op carries its number any more.
  lemma {:induction false} NewSocketFacts(cfg: Config, s: State)
    requires Full(cfg, s) && s.k.pc.Handling? && IsSocket(s.k.pc.event)
    ensures var f := s.k.pc.event.res;
            && f in s.k.conns && s.k.conns[f] < |s.k.recvd|
            && s.k.recvd[s.k.conns[f]] == [] && s.k.sent[s.k.conns[f]] == []
            && (forall a :: a in s.k.tracked ==> s.k.conOf[a] != s.k.conns[f] && s.k.ops[a].fd != f)
  {
    hide Unique, Requests, Echo, Accounted, Room, OwnSockets, NoStraySocket;
    assert Events(s)[0] == s.k.pc.event;
    assert SocketOk(s.k, Events(s), 0);
  }

  ghost predicate Accepted(cfg: Config, s: State, s': State, block: Addr) {
    && s.k.pc.Handling? && s.k.pc.event.req.userData in s.k.ops && Allocatable(s.k, block)
    && s.k.ops[s.k.pc.event.req.userData].tag.AcceptedConnection?
    && s' == s.(k := HandleAccept(cfg, s.k, s.k.pc.event.req.userData, s.k.pc.event.res, block))
    && !s'.k.pc.Exited?
  }

  lemma {:induction false} AcceptHeap(cfg: Config, s: State, s': State, block: Addr)
    requires Full(cfg, s) && Accepted(cfg, s, s', block)
    ensures Heap(cfg, s'.k)
  {
    hide Unique, Requests, Sockets, Echo, Accounted, Room;
    EventFacts(cfg, s);
    NewSocketFacts(cfg, s);
  }

  lemma {:induction false} AcceptOps(cfg: Config, s: State, s': State, block: Addr)
    requires Full(cfg, s) && Accepted(cfg, s, s', block) && Heap(cfg, s'.k)
    requires IsSocket(s.k.pc.event)
    ensures forall b :: b in s'.k.tracked ==> (ClosedBy(s.cq, |s.cq|, b) <==> !FdOpen(s'.k, b))
  {
    hide Unique, Requests, Sockets, Echo, Accounted, Room, ClosedBy, ClientOp;
    NewSocketFacts(cfg, s);
    forall b | b in s'.k.tracked ensures ClosedBy(s.cq, |s.cq|, b) <==> !FdOpen(s'.k, b) {
      if b in s.k.tracked {
        LaterOp(cfg, s, b);
      } else {
        NewOpNotClosed(cfg, s, block);
      }
    }
  }

  lemma {:induction false} AcceptOwn(cfg: Config, s: State, s': State, block: Addr)
    requires Full(cfg, s) && Accepted(cfg, s, s', block) && Heap(cfg, s'.k) && IsSocket(s.k.pc.event)
    ensures OwnSockets(cfg, s')
  {
    hide Unique, Requests, Echo, Accounted, Room, ClosedBy, SocketOk, FdOpen, ClientOp, NoStraySocket, UnseenSockets;
    NewSocketFacts(cfg, s);
    AcceptOps(cfg, s, s', block);
  }

  lemma {:induction false} AcceptSockets(cfg: Config, s: State, s': State, block: Addr)
    requires Full(cfg, s) && Accepted(cfg, s, s', block) && Heap(cfg, s'.k)
    ensures Sockets(cfg, s')
  {
    hide Unique, Requests, Echo, Accounted, Room, OwnSockets, ClientOp;
    EventFacts(cfg, s);
    NewSocketFacts(cfg, s);
    AcceptOwn(cfg, s, s', block);
    forall j | 0 <= j < |s.cq| ensures !IsSocket(s.cq[j]) {
      NoOtherSocket(cfg, s, s.cq[j]);
    }
    LaterHolders(cfg, s, s');
    assert Holds(s'.k, block, s.k.pc.event.res);
  }

  // No request anywhere is about memory the allocator hands out.
  lemma {:induction false} NewOpNotClosed(cfg: Config, s: State, block: Addr)
    requires Full(cfg, s) && s.k.pc.Handling? && block !in s.k.ops
    ensures !ClosedBy(s.cq, |s.cq|, block)
  {
    hide Unique, Sockets, Echo, Accounted, Room;
    forall d | d in s.cq ensures d.req.userData != block {
      assert d in Events(s);
      assert ReqOk(s.k, d.req);
    }
    NotClosedBy(s.cq, |s.cq|, block);
  }

  // There is one accept request, so one unseen socket.
  lemma {:induction false} NoOtherSocket(cfg: Config, s: State, d: Completion)
    requires Full(cfg, s) && s.k.pc.Handling? && s.k.pc.event.req.userData == ACCEPT_REQ
    requires d in s.cq
    ensures !IsSocket(d)
  {
    hide Unique, Sockets, Echo, Accounted, Room;
    EventFacts(cfg, s);
    assert d in Events(s);
    assert ReqOk(s.k, d.req);
  }

  lemma {:induction false} AcceptEcho(cfg: Config, s: State, s': State, block: Addr)
    requires Full(cfg, s) && Accepted(cfg, s, s', block)
    ensures Requests(s') && Echo(s')
  {
    hide Unique, Requests, Sockets, Accounted, Room;
    EventFacts(cfg, s);
    NewSocketFacts(cfg, s);
    LaterRequests(cfg, s, s');
    LaterEcho(cfg, s, s');
  }

  lemma {:induction false} AcceptKeeps(cfg: Config, s: State, s': State, block: Addr)
    requires Full(cfg, s) && Accepted(cfg, s, s', block)
    ensures Full(cfg, s')
  {
    hide Unique, Requests, Sockets, Echo, Accounted, Room, ClientOp, ReqOk, Configured;
    AcceptHeap(cfg, s, s', block);
    AcceptEcho(cfg, s, s', block);
    AcceptSockets(cfg, s, s', block);
    EventFacts(cfg, s);
    assert multiset([block, ACCEPT_REQ]) == multiset{block, ACCEPT_REQ};
    HandledUnique(cfg, s, s');
    HandledAccounts(cfg, s, s');
  }

  lemma {:induction false} HandleKeeps(cfg: Config, s: State, block: Addr)
    requires Full(cfg, s) && s.k.pc.Handling? && Allocatable(s.k, block)
    ensures Inv(cfg, s.(k := Dispatch(cfg, s.k, block)))
  {
    hide Heap, Unique, Requests, Sockets, Echo, Accounted, Room;
    var s', a := s.(k := Dispatch(cfg, s.k, block)), s.k.pc.event.req.userData;
    EventFacts(cfg, s);
    if s'.k.pc.Exited? {
      EchoIsSafe(cfg, s);
    } else {
      match s.k.ops[a].tag {
        case AcceptedConnection => AcceptKeeps(cfg, s, s', block);
        case CloseConnection => CloseKeeps(cfg, s, s');
        case RecvFromClient => RecvKeeps(cfg, s, s');
        case SendToClient => SendKeeps(cfg, s, s');
        case TimerExpired => TimerKeeps(cfg, s, s');
        case Unknown(_) =>
      }
      EchoIsSafe(cfg, s');
    }
  }

  // -------------------------------------------------------------------------

  lemma {:induction false} ServerStepKeepsInv(cfg: Config, s: State, act: Action)
    requires Inv(cfg, s) && Enabled(cfg, s, act) && !act.Consume? && !act.Complete? && !act.Handle?
    ensures Inv(cfg, Step(cfg, s, act))
  {
    hide Heap, Unique, Requests, Sockets, Echo, Accounted, Room;
    if act.TakeCqe? {
      TakeCqeKeeps(cfg, s);
    } else if act.Publish? {
      PublishKeeps(cfg, s);
    } else if !act.Acquire? || |s.sq| < cfg.ringSize {
      ControlKeeps(cfg, s, act);
    }
    if !Step(cfg, s, act).k.pc.Exited? {
      EchoIsSafe(cfg, Step(cfg, s, act));
    }
  }

  lemma {:induction false} StepKeepsInv(cfg: Config, s: State, act: Action)
    requires Inv(cfg, s) && Enabled(cfg, s, act)
    ensures Inv(cfg, Step(cfg, s, act))
  {
    hide Heap, Unique, Requests, Sockets, Echo, Accounted, Room, EchoSafe, Dispatch;
    if act.Handle? {
      HandleKeeps(cfg, s, act.block);
    } else if act.Consume? {
      ConsumeKeeps(cfg, s);
      EchoIsSafe(cfg, Step(cfg, s, act));
    } else if act.Complete? {
      CompleteKeeps(cfg, s, act.i, act.res, act.data);
      EchoIsSafe(cfg, Step(cfg, s, act));
    } else {
      ServerStepKeepsInv(cfg, s, act);
    }
  }

  // Every state of every run satisfies the invariant.
  lemma {:induction false} RunKeepsInv(cfg: Config, acts: seq<Action>)
    requires Legal(cfg, acts)
    ensures Inv(cfg, After(cfg, acts))
  {
    hide Inv, Step, Enabled;
    if acts == [] {
      InitHolds(cfg);
    } else {
      RunKeepsInv(cfg, acts[..|acts| - 1]);
      StepKeepsInv(cfg, After(cfg, acts[..|acts| - 1]), acts[|acts| - 1]);
    }
  }
}
