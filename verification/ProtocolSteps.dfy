/** Every step of the protocol keeps its invariant. */
module ProtocolSteps {
  import opened IouTypes
  import opened ServerCore
  import opened Protocol
  import opened ProtocolInvariant

  // The server's heap and the kernel's socket tables are as before.
  ghost predicate SameWorld(k: Core, k': Core) {
    && k'.ops == k.ops && k'.tracked == k.tracked && k'.timerArmed == k.timerArmed
    && k'.conns == k.conns && k'.recvd == k.recvd && k'.sent == k.sent
    && k'.conOf == k.conOf && k'.accepted == k.accepted && k'.closed == k.closed
  }

  lemma {:induction false} MovesKeepSockets(cfg: Config, s: State, s': State)
    requires Heap(cfg, s.k) && Sockets(cfg, s) && SameWorld(s.k, s'.k) && Events(s') == Events(s)
    ensures Heap(cfg, s'.k) && Sockets(cfg, s')
  {
    var ev := Events(s);
    forall f | f in s'.k.conns ensures (exists a :: Holds(s'.k, a, f)) || (exists j :: Unseen(ev, j, f)) {
      if a :| Holds(s.k, a, f) {
        assert Holds(s'.k, a, f);
      }
    }
    forall j | 0 <= j < |ev| && IsSocket(ev[j]) ensures SocketOk(s'.k, ev, j) {
      assert SocketOk(s.k, ev, j);
    }
  }

  // Moving requests between the queues keeps what is known about each.
  lemma {:induction false} MovesKeep(cfg: Config, s: State, s': State)
    requires Full(cfg, s) && SameWorld(s.k, s'.k) && Events(s') == Events(s)
    requires Outstanding(s') + multiset(Todo(s'.k)) == Outstanding(s) + multiset(Todo(s.k))
    requires forall e :: e in s'.sq || e in s'.k.flight ==>
               e in s.sq || e in s.k.flight || (ReqOk(s.k, e) && e.userData in Todo(s.k))
    requires forall a :: a in Todo(s'.k) ==> a in Todo(s.k)
    requires Accounted(cfg, s') && Room(cfg, s')
    ensures Full(cfg, s')
  {
    hide Heap, Requests, Sockets, Echo, Accounted, Room;
    MovesKeepSockets(cfg, s, s');
    MovesKeepRequests(s, s');
    MovesKeepEcho(s, s');
  }

  lemma {:induction false} MovesKeepRequests(s: State, s': State)
    requires Requests(s) && SameWorld(s.k, s'.k) && Events(s') == Events(s)
    requires forall e :: e in s'.sq || e in s'.k.flight ==>
               e in s.sq || e in s.k.flight || (ReqOk(s.k, e) && e.userData in Todo(s.k))
    ensures Requests(s')
  {
    forall c | c in Events(s') ensures ReqOk(s'.k, c.req) && ResOk(c) {
      assert ReqOk(s.k, c.req);
    }
  }

  lemma {:induction false} MovesKeepEcho(s: State, s': State)
    requires |s.k.recvd| == |s.k.sent|
    requires Echo(s) && SameWorld(s.k, s'.k) && Events(s') == Events(s)
    requires forall e :: e in s'.sq || e in s'.k.flight ==>
               e in s.sq || e in s.k.flight || (ReqOk(s.k, e) && e.userData in Todo(s.k))
    requires forall a :: a in Todo(s'.k) ==> a in Todo(s.k)
    ensures Echo(s')
  {
    forall e | e in s'.sq || e in s'.k.flight ensures Balanced(s'.k, e.userData, None) {
      assert Balanced(s.k, e.userData, None);
    }
    forall a | a in Todo(s'.k) ensures Balanced(s'.k, a, None) {
      assert Balanced(s.k, a, None);
    }
    forall c | c in Events(s') ensures Balanced(s'.k, c.req.userData, Some(c.res)) {
      assert Balanced(s.k, c.req.userData, Some(c.res));
    }
    forall c: nat | c < |s'.k.recvd| ensures (exists a :: OwnsCon(s'.k, a, c)) || s'.k.recvd[c] == s'.k.sent[c] {
      if a :| OwnsCon(s.k, a, c) {
        assert OwnsCon(s'.k, a, c);
      }
    }
  }

  lemma {:induction false} TakeCqeKeeps(cfg: Config, s: State)
    requires Full(cfg, s) && Enabled(cfg, s, TakeCqe)
    ensures Full(cfg, Step(cfg, s, TakeCqe))
  {
    hide Heap, Unique, Requests, Sockets, Echo;
    MovesKeep(cfg, s, Step(cfg, s, TakeCqe));
  }

  lemma {:induction false} ControlKeeps(cfg: Config, s: State, act: Action)
    requires Full(cfg, s) && Enabled(cfg, s, act)
    requires act.SeeEmpty? || act.Return? || act.LeaveEnter? || act.Stop? || act.FreeRing?
             || (act.Acquire? && |s.sq| < cfg.ringSize)
    ensures Full(cfg, Step(cfg, s, act))
  {
    hide Heap, Unique, Requests, Sockets, Echo;
    MovesKeep(cfg, s, Step(cfg, s, act));
  }

  // What a handler submits is configured from a well-formed op.
  lemma {:induction false} TodoIsKnown(cfg: Config, s: State, a: Addr)
    requires Full(cfg, s) && a in Todo(s.k)
    ensures a in s.k.ops && Configured(a, s.k.ops[a]).Some?
    ensures Configured(a, s.k.ops[a]).value.userData == a
  {
    hide Requests, Sockets, Echo, Accounted, Room;
    LiveOnce(cfg, s.k, a);
    assert a in multiset(Todo(s.k));
    assert a in Live(s.k);
  }

  lemma {:induction false} PublishMoves(cfg: Config, s: State, s': State)
    requires s.k.pc.Submitting? && s.k.pc.todo != [] && Asked(s.k).Some?
    requires Asked(s.k).value.userData == s.k.pc.todo[0]
    requires s' == State(AfterPublish(s.k), s.sq + [Asked(s.k).value], s.cq)
    ensures Outstanding(s') + multiset(Todo(s'.k)) == Outstanding(s) + multiset(Todo(s.k))
  {
    hide Configured;
    var todo := s.k.pc.todo;
    IdsPush(s.sq, Asked(s.k).value);
    assert todo == [todo[0]] + todo[1..];
  }

  lemma {:induction false} PublishKeeps(cfg: Config, s: State)
    requires Full(cfg, s) && Enabled(cfg, s, Publish)
    ensures Asked(s.k).Some? && Full(cfg, Step(cfg, s, Publish))
  {
    hide Heap, Unique, Requests, Sockets, Echo, ClientOp, Configured, Prepare;
    var todo := s.k.pc.todo;
    var s' := Step(cfg, s, Publish);
    assert todo[0] in Todo(s.k);
    TodoIsKnown(cfg, s, todo[0]);
    PublishMoves(cfg, s, s');
    MovesKeep(cfg, s, s');
  }

  lemma {:induction false} ConsumeKeeps(cfg: Config, s: State)
    requires Full(cfg, s) && Enabled(cfg, s, Consume)
    ensures Full(cfg, Step(cfg, s, Consume))
  {
    hide Heap, Unique, Requests, Sockets, Echo;
    IdsDrop(s.sq, 0);
    assert Drop(s.sq, 0) == s.sq[1..];
    IdsPush(s.k.flight, s.sq[0]);
    MovesKeep(cfg, s, Step(cfg, s, Consume));
  }

  // -------------------------------------------------------------------------
  // Completions by the kernel.

  lemma {:induction false} ClosedByExtends(ev: seq<Completion>, c: Completion, n: nat, a: Addr)
    requires ClosedBy(ev, n, a)
    ensures ClosedBy(ev + [c], n, a) && ClosedBy(ev + [c], |ev + [c]|, a)
  {
    var i :| 0 <= i < n <= |ev| && IsClose(ev[i]) && ev[i].req.userData == a;
    assert (ev + [c])[i] == ev[i];
  }

  // The queues' side of a completion: request i has moved to the end of the events.
  ghost predicate Posted(s: State, s': State, i: nat, res: int) {
    && i < |s.k.flight|
    && s'.sq == s.sq && s'.k.flight == Drop(s.k.flight, i) && s'.k.pc == s.k.pc
    && Events(s') == Events(s) + [Completion(s.k.flight[i], res)]
    && s'.k.tracked == s.k.tracked && s'.k.timerArmed == s.k.timerArmed && s'.k.conOf == s.k.conOf
    && s'.k.toSubmit == s.k.toSubmit && s'.k.accepted == s.k.accepted && s'.k.closed == s.k.closed
  }

  lemma {:induction false} CompletePosts(cfg: Config, s: State, i: nat, res: int, data: seq<Byte>)
    requires Enabled(cfg, s, Complete(i, res, data))
    ensures Posted(s, Step(cfg, s, Complete(i, res, data)), i, res)
  {
  }

  lemma {:induction false} PostedUnique(s: State, s': State, i: nat, res: int)
    requires Unique(s) && Posted(s, s', i, res)
    ensures Unique(s')
  {
    var c := Completion(s.k.flight[i], res);
    IdsDrop(s.k.flight, i);
    ReqsPush(Events(s), c);
    IdsPush(Reqs(Events(s)), c.req);
    assert Outstanding(s') == Outstanding(s);
  }

  // The request in flight: its op, and that no other request is about that op.
  lemma {:induction false} FlightFacts(cfg: Config, s: State, i: nat)
    requires Full(cfg, s) && i < |s.k.flight|
    ensures var r := s.k.flight[i]; var a := r.userData;
            && a in s.k.ops && Configured(a, s.k.ops[a]) == Some(r)
            && (forall e :: e in s.sq || e in Drop(s.k.flight, i) ==> e.userData != a)
            && (forall c :: c in Events(s) ==> c.req.userData != a)
            && a !in Todo(s.k)
            && (r.opcode.Recv? || r.opcode.Send? || r.opcode.Close? ==>
                  a in s.k.tracked && r.fd == s.k.ops[a].fd && FdOpen(s.k, a))
            && (r.opcode.Accept? ==> a == ACCEPT_REQ)
            && (r.opcode.Timeout? ==> a == TIMER_REQ && s.k.timerArmed)
            && !r.opcode.Nop?
  {
    hide Echo, Accounted, Room, UnseenSockets, NoStraySocket;
    var a := s.k.flight[i].userData;
    FlightAlone(cfg, s, i);
    forall e | e in s.sq ensures e.userData != a { if e.userData == a { IdsContains(s.sq, e); } }
    forall e | e in Drop(s.k.flight, i) ensures e.userData != a {
      if e.userData == a { IdsContains(Drop(s.k.flight, i), e); }
    }
    forall c | c in Events(s) ensures c.req.userData != a {
      if c.req.userData == a {
        ReqsContains(Events(s), c);
        IdsContains(Reqs(Events(s)), c.req);
      }
    }
    assert s.k.flight[i] in s.k.flight;
    NotClosedBy(Events(s), |Events(s)|, a);
  }

  lemma {:induction false} NotClosedBy(ev: seq<Completion>, n: nat, a: Addr)
    requires forall c :: c in ev ==> c.req.userData != a
    ensures !ClosedBy(ev, n, a)
  {
    forall i | 0 <= i < n <= |ev| ensures ev[i].req.userData != a {
      assert ev[i] in ev;
    }
  }

  ghost predicate SameButBuf(op: Op, op': Op) {
    op' == op.(buf := op'.buf) && |op'.buf| == |op.buf|
  }

  lemma {:induction false} PostedRequests(cfg: Config, s: State, s': State, i: nat, res: int)
    requires Full(cfg, s) && Posted(s, s', i, res)
    requires s'.k.ops.Keys == s.k.ops.Keys
    requires forall b :: b in s.k.ops ==> SameButBuf(s.k.ops[b], s'.k.ops[b])
    requires |s'.k.recvd| == |s'.k.sent| >= |s.k.recvd|
    requires ResOk(Completion(s.k.flight[i], res))
    ensures Heap(cfg, s'.k) && Requests(s')
  {
    hide Unique, Sockets, Echo, Accounted, Room;
    forall e | ReqOk(s.k, e) ensures ReqOk(s'.k, e) {
      assert SameButBuf(s.k.ops[e.userData], s'.k.ops[e.userData]);
    }
    forall b | b in s'.k.ops ensures b in s'.k.tracked || b == ACCEPT_REQ || b == TIMER_REQ {
      assert b in s.k.ops;
    }
  }

  lemma {:induction false} OthersBalanced(cfg: Config, s: State, s': State, a: Addr, b: Addr, done: Option<int>)
    requires Heap(cfg, s.k) && Sockets(cfg, s) && Balanced(s.k, b, done) && b != a
    requires s'.k.tracked == s.k.tracked && s'.k.conOf == s.k.conOf
    requires |s'.k.recvd| == |s'.k.sent| >= |s.k.recvd|
    requires b in s.k.tracked ==> b in s'.k.ops && s'.k.ops[b] == s.k.ops[b]
    requires forall c: nat :: c < |s.k.recvd| && !OwnsCon(s.k, a, c) ==>
                                s'.k.recvd[c] == s.k.recvd[c] && s'.k.sent[c] == s.k.sent[c]
    ensures Balanced(s'.k, b, done)
  {
    hide UnseenSockets, NoStraySocket;
    if b in s.k.tracked {
      assert !OwnsCon(s.k, a, s.k.conOf[b]);
    }
  }

  // Connections other than the request's are as balanced as before.
  lemma {:induction false} PostedEcho(cfg: Config, s: State, s': State, i: nat, res: int)
    requires Full(cfg, s) && Posted(s, s', i, res)
    requires |s'.k.recvd| == |s'.k.sent| >= |s.k.recvd|
    requires forall b :: b in s.k.tracked && b != s.k.flight[i].userData ==>
                           b in s'.k.ops && s'.k.ops[b] == s.k.ops[b]
    requires forall c: nat :: c < |s.k.recvd| && !OwnsCon(s.k, s.k.flight[i].userData, c) ==>
                                s'.k.recvd[c] == s.k.recvd[c] && s'.k.sent[c] == s.k.sent[c]
    requires forall c: nat :: |s.k.recvd| <= c < |s'.k.recvd| ==> s'.k.recvd[c] == s'.k.sent[c]
    requires Balanced(s'.k, s.k.flight[i].userData, Some(res))
    ensures Echo(s')
  {
    hide Unique, Accounted, Room, UnseenSockets, NoStraySocket;
    var a := s.k.flight[i].userData;
    FlightFacts(cfg, s, i);
    forall e | e in s'.sq || e in s'.k.flight ensures Balanced(s'.k, e.userData, None) {
      assert e in s.sq || e in s.k.flight;
      OthersBalanced(cfg, s, s', a, e.userData, None);
    }
    forall d | d in Events(s) ensures Balanced(s'.k, d.req.userData, Some(d.res)) {
      OthersBalanced(cfg, s, s', a, d.req.userData, Some(d.res));
    }
    forall b | b in Todo(s'.k) ensures Balanced(s'.k, b, None) {
      OthersBalanced(cfg, s, s', a, b, None);
    }
    forall c: nat | c < |s'.k.recvd| ensures (exists b :: OwnsCon(s'.k, b, c)) || s'.k.recvd[c] == s'.k.sent[c] {
      if c < |s.k.recvd| {
        if b :| OwnsCon(s.k, b, c) {
          assert OwnsCon(s'.k, b, c);
        }
      }
    }
  }

  // An unseen socket stays as it was, ahead of whatever is posted later.
  lemma {:induction false} PostedSocketsSeen(cfg: Config, s: State, s': State, i: nat, res: int, j: nat)
    requires Full(cfg, s) && Posted(s, s', i, res) && |s'.k.recvd| == |s'.k.sent| >= |s.k.recvd|
    requires s'.k.ops.Keys == s.k.ops.Keys
    requires forall b :: b in s.k.tracked ==> s'.k.ops[b].fd == s.k.ops[b].fd
    requires j < |Events(s)| && IsSocket(Events(s)[j])
    requires var f := Events(s)[j].res; f in s'.k.conns && s'.k.conns[f] == s.k.conns[f]
    requires forall c: nat :: c < |s.k.recvd| && !OwnsCon(s.k, s.k.flight[i].userData, c) ==>
                                s'.k.recvd[c] == s.k.recvd[c] && s'.k.sent[c] == s.k.sent[c]
    ensures SocketOk(s'.k, Events(s'), j)
  {
    hide Unique, Requests, Echo, Accounted, Room, OwnSockets, NoStraySocket;
    var ev, c := Events(s), Completion(s.k.flight[i], res);
    assert SocketOk(s.k, ev, j);
    assert !OwnsCon(s.k, s.k.flight[i].userData, s.k.conns[ev[j].res]);
    forall a | a in s'.k.tracked && s'.k.ops[a].fd == ev[j].res ensures ClosedBy(Events(s'), j, a) {
      ClosedByExtends(ev, c, j, a);
    }
  }

  lemma {:induction false} ClosedByPost(ev: seq<Completion>, c: Completion, a: Addr)
    ensures ClosedBy(ev + [c], |ev + [c]|, a) <==>
              ClosedBy(ev, |ev|, a) || (IsClose(c) && c.req.userData == a)
  {
    if ClosedBy(ev, |ev|, a) {
      ClosedByExtends(ev, c, |ev|, a);
    }
    if ClosedBy(ev + [c], |ev + [c]|, a) {
      var i :| 0 <= i < |ev + [c]| && IsClose((ev + [c])[i]) && (ev + [c])[i].req.userData == a;
      assert i < |ev| ==> (ev + [c])[i] == ev[i];
    }
    assert (ev + [c])[|ev|] == c;
  }

  // The socket table changes at most at the fd of the request.
  lemma {:induction false} PostedSockets(cfg: Config, s: State, s': State, i: nat, res: int)
    requires Full(cfg, s) && Posted(s, s', i, res) && Heap(cfg, s'.k) && |s'.k.recvd| >= |s.k.recvd|
    requires s'.k.ops.Keys == s.k.ops.Keys
    requires forall b :: b in s.k.tracked ==> s'.k.ops[b].fd == s.k.ops[b].fd
    requires forall f :: f in s'.k.conns ==> f != cfg.listenFd && s'.k.conns[f] < |s'.k.recvd|
    requires forall a :: a in s.k.tracked ==>
               (FdOpen(s'.k, a) <==>
                FdOpen(s.k, a) && !(a == s.k.flight[i].userData && IsClose(Completion(s.k.flight[i], res))))
    requires forall j :: 0 <= j < |Events(s')| && IsSocket(Events(s')[j]) ==> SocketOk(s'.k, Events(s'), j)
    requires forall f :: f in s'.k.conns ==>
               (f in s.k.conns && s'.k.conns[f] == s.k.conns[f])
               || (IsSocket(Completion(s.k.flight[i], res)) && f == res)
    ensures Sockets(cfg, s')
  {
    hide Unique, Requests, Echo, Accounted, Room;
    var ev, ev', c := Events(s), Events(s'), Completion(s.k.flight[i], res);
    forall a | a in s'.k.tracked ensures ClosedBy(ev', |ev'|, a) <==> !FdOpen(s'.k, a) {
      ClosedByPost(ev, c, a);
    }
    forall f | f in s'.k.conns ensures (exists a :: Holds(s'.k, a, f)) || (exists j :: Unseen(ev', j, f)) {
      if f in s.k.conns && s'.k.conns[f] == s.k.conns[f] {
        if a :| Holds(s.k, a, f) {
          assert Holds(s'.k, a, f);
        } else if j :| Unseen(ev, j, f) {
          assert Unseen(ev', j, f);
        }
      } else {
        assert Unseen(ev', |ev|, f);
      }
    }
  }

  lemma {:induction false} PostedFull(cfg: Config, s: State, s': State, i: nat, res: int)
    requires Full(cfg, s) && Posted(s, s', i, res)
    requires Heap(cfg, s'.k) && Requests(s') && Sockets(cfg, s') && Echo(s')
    ensures Full(cfg, s')
  {
    hide Heap, Unique, Requests, Sockets, Echo;
    PostedUnique(s, s', i, res);
  }

  // Sockets keep their connections, and nobody's bytes but the request's op's change.
  lemma {:induction false} PostedSocketsKept(cfg: Config, s: State, s': State, i: nat, res: int)
    requires Full(cfg, s) && Posted(s, s', i, res) && Heap(cfg, s'.k)
    requires s'.k.ops.Keys == s.k.ops.Keys
    requires forall b :: b in s.k.tracked ==> s'.k.ops[b].fd == s.k.ops[b].fd
    requires s'.k.conns == s.k.conns && |s'.k.recvd| == |s.k.recvd|
    requires forall c: nat :: c < |s.k.recvd| && !OwnsCon(s.k, s.k.flight[i].userData, c) ==>
                                s'.k.recvd[c] == s.k.recvd[c] && s'.k.sent[c] == s.k.sent[c]
    requires !IsClose(Completion(s.k.flight[i], res)) && !IsSocket(Completion(s.k.flight[i], res))
    ensures Sockets(cfg, s')
  {
    hide Unique, Requests, Echo, Accounted, Room;
    forall j | 0 <= j < |Events(s')| && IsSocket(Events(s')[j]) ensures SocketOk(s'.k, Events(s'), j) {
      assert SocketOk(s.k, Events(s), j);
      PostedSocketsSeen(cfg, s, s', i, res, j);
    }
    PostedSockets(cfg, s, s', i, res);
  }

  lemma {:induction false} CompleteErrorKeeps(cfg: Config, s: State, s': State, i: nat, res: int)
    requires Full(cfg, s) && Posted(s, s', i, res) && res < 0
    requires s'.k == s.k.(flight := s'.k.flight)
    ensures Full(cfg, s')
  {
    hide Unique, Requests, Sockets, Accounted, Room;
    FlightFacts(cfg, s, i);
    PostedRequests(cfg, s, s', i, res);
    assert Balanced(s.k, s.k.flight[i].userData, None);
    PostedEcho(cfg, s, s', i, res);
    PostedSocketsKept(cfg, s, s', i, res);
    PostedFull(cfg, s, s', i, res);
  }

  // The kernel's RECV fills the op's buffer from its connection.
  ghost predicate Received(s: State, s': State, i: nat, data: seq<Byte>) {
    && i < |s.k.flight|
    && var r := s.k.flight[i];
    && OpenFor(s.k, r) && |data| <= r.len
    && s'.k.ops == s.k.ops[r.addr := s.k.ops[r.addr].(buf := data + s.k.ops[r.addr].buf[|data|..])]
    && s'.k.recvd == s.k.recvd[s.k.conns[r.fd] := s.k.recvd[s.k.conns[r.fd]] + data]
    && s'.k.sent == s.k.sent && s'.k.conns == s.k.conns
  }

  lemma {:induction false} ReceivedBalance(cfg: Config, s: State, s': State, i: nat, data: seq<Byte>)
    requires Full(cfg, s) && Posted(s, s', i, |data|) && Received(s, s', i, data)
    requires s.k.flight[i].opcode.Recv?
    ensures Balanced(s'.k, s.k.flight[i].userData, Some(|data|))
  {
    hide Unique, Requests, Sockets, Accounted, Room;
    var a := s.k.flight[i].userData;
    FlightFacts(cfg, s, i);
    assert Balanced(s.k, a, None);
    assert s'.k.ops[a].buf[0..|data|] == data;
  }

  lemma {:induction false} CompleteRecvKeeps(cfg: Config, s: State, s': State, i: nat, data: seq<Byte>)
    requires Full(cfg, s) && Posted(s, s', i, |data|) && Received(s, s', i, data)
    requires s.k.flight[i].opcode.Recv?
    ensures Full(cfg, s')
  {
    hide Unique, Requests, Sockets, Echo, Accounted, Room;
    FlightFacts(cfg, s, i);
    PostedRequests(cfg, s, s', i, |data|);
    ReceivedBalance(cfg, s, s', i, data);
    PostedEcho(cfg, s, s', i, |data|);
    PostedSocketsKept(cfg, s, s', i, |data|);
    PostedFull(cfg, s, s', i, |data|);
  }

  // The kernel's SEND takes bytes from the op's buffer to its connection.
  ghost predicate Transmitted(s: State, s': State, i: nat, res: nat) {
    && i < |s.k.flight|
    && var r := s.k.flight[i];
    && OpenFor(s.k, r) && res <= r.len
    && s'.k.ops == s.k.ops && s'.k.recvd == s.k.recvd && s'.k.conns == s.k.conns
    && s'.k.sent == s.k.sent[s.k.conns[r.fd] := s.k.sent[s.k.conns[r.fd]] + s.k.ops[r.addr].buf[..res]]
  }

  lemma {:induction false} TransmittedBalance(cfg: Config, s: State, s': State, i: nat, res: nat)
    requires Full(cfg, s) && Posted(s, s', i, res) && Transmitted(s, s', i, res)
    requires s.k.flight[i].opcode.Send?
    ensures Balanced(s'.k, s.k.flight[i].userData, Some(res))
  {
    hide Unique, Requests, Sockets, Accounted, Room;
    var a := s.k.flight[i].userData;
    FlightFacts(cfg, s, i);
    assert Balanced(s.k, a, None);
    var op := s.k.ops[a];
    assert op.buf[0..op.bufSendLen] == op.buf[..res] + op.buf[res..op.bufSendLen];
  }

  lemma {:induction false} CompleteSendKeeps(cfg: Config, s: State, s': State, i: nat, res: nat)
    requires Full(cfg, s) && Posted(s, s', i, res) && Transmitted(s, s', i, res)
    requires s.k.flight[i].opcode.Send?
    ensures Full(cfg, s')
  {
    hide Unique, Requests, Sockets, Echo, Accounted, Room;
    FlightFacts(cfg, s, i);
    PostedRequests(cfg, s, s', i, res);
    TransmittedBalance(cfg, s, s', i, res);
    PostedEcho(cfg, s, s', i, res);
    PostedSocketsKept(cfg, s, s', i, res);
    PostedFull(cfg, s, s', i, res);
  }

  // The fd being closed is not the fd of an unseen socket: that one's previous owner
  // has completed its CLOSE already.
  lemma {:induction false} ClosingIsNotUnseen(cfg: Config, s: State, i: nat, j: nat)
    requires Full(cfg, s) && i < |s.k.flight| && s.k.flight[i].opcode.Close?
    requires j < |Events(s)| && IsSocket(Events(s)[j])
    ensures Events(s)[j].res != s.k.flight[i].fd
  {
    hide Unique, Requests, Echo, Accounted, Room, OwnSockets, NoStraySocket;
    var ev, a := Events(s), s.k.flight[i].userData;
    FlightFacts(cfg, s, i);
    assert SocketOk(s.k, ev, j);
    NotClosedBy(ev, j, a);
  }

  lemma {:induction false} CompleteCloseKeeps(cfg: Config, s: State, s': State, i: nat)
    requires Full(cfg, s) && Posted(s, s', i, 0) && s.k.flight[i].opcode.Close?
    requires s'.k == s.k.(flight := s'.k.flight, conns := s.k.conns - {s.k.flight[i].fd})
    ensures Full(cfg, s')
  {
    hide Unique, Requests, Accounted, Room;
    FlightFacts(cfg, s, i);
    PostedRequests(cfg, s, s', i, 0);
    assert Balanced(s.k, s.k.flight[i].userData, None);
    PostedEcho(cfg, s, s', i, 0);
    forall j | 0 <= j < |Events(s')| && IsSocket(Events(s')[j]) ensures SocketOk(s'.k, Events(s'), j) {
      ClosingIsNotUnseen(cfg, s, i, j);
      assert SocketOk(s.k, Events(s), j);
      PostedSocketsSeen(cfg, s, s', i, 0, j);
    }
    PostedSockets(cfg, s, s', i, 0);
    PostedFull(cfg, s, s', i, 0);
  }

  lemma {:induction false} AcceptedSocketsKept(cfg: Config, s: State, s': State, i: nat, fd: nat)
    requires Full(cfg, s) && Posted(s, s', i, fd) && s.k.flight[i].opcode.Accept? && Heap(cfg, s'.k)
    requires fd !in s.k.conns && fd != cfg.listenFd
    requires s'.k == s.k.(flight := s'.k.flight, conns := s.k.conns[fd := |s.k.recvd|],
                          recvd := s.k.recvd + [[]], sent := s.k.sent + [[]])
    ensures Sockets(cfg, s')
  {
    hide Unique, Requests, Echo, Accounted, Room;
    var ev, c := Events(s), Completion(s.k.flight[i], fd);
    forall j | 0 <= j < |Events(s')| && IsSocket(Events(s')[j]) ensures SocketOk(s'.k, Events(s'), j) {
      if j < |ev| {
        assert SocketOk(s.k, ev, j);
        PostedSocketsSeen(cfg, s, s', i, fd, j);
      } else {
        forall a | a in s.k.tracked && s.k.ops[a].fd == fd ensures ClosedBy(Events(s'), j, a) {
          ClosedByExtends(ev, c, |ev|, a);
        }
      }
    }
    PostedSockets(cfg, s, s', i, fd);
  }

  lemma {:induction false} CompleteAcceptKeeps(cfg: Config, s: State, s': State, i: nat, fd: nat)
    requires Full(cfg, s) && Posted(s, s', i, fd) && s.k.flight[i].opcode.Accept?
    requires fd !in s.k.conns && fd != cfg.listenFd
    requires s'.k == s.k.(flight := s'.k.flight, conns := s.k.conns[fd := |s.k.recvd|],
                          recvd := s.k.recvd + [[]], sent := s.k.sent + [[]])
    ensures Full(cfg, s')
  {
    hide Unique, Requests, Sockets, Echo, Accounted, Room;
    FlightFacts(cfg, s, i);
    PostedRequests(cfg, s, s', i, fd);
    PostedEcho(cfg, s, s', i, fd);
    AcceptedSocketsKept(cfg, s, s', i, fd);
    PostedFull(cfg, s, s', i, fd);
  }

  lemma {:induction false} CompleteKeeps(cfg: Config, s: State, i: nat, res: int, data: seq<Byte>)
    requires Full(cfg, s) && Enabled(cfg, s, Complete(i, res, data))
    ensures Full(cfg, Step(cfg, s, Complete(i, res, data)))
  {
    hide Heap, Unique, Requests, Sockets, Echo, Accounted, Room;
    var s' := Step(cfg, s, Complete(i, res, data));
    FlightFacts(cfg, s, i);
    CompletePosts(cfg, s, i, res, data);
    if res < 0 {
      CompleteErrorKeeps(cfg, s, s', i, res);
    } else {
      match s.k.flight[i].opcode
      case Recv => CompleteRecvKeeps(cfg, s, s', i, data);
      case Send => CompleteSendKeeps(cfg, s, s', i, res);
      case Close => CompleteCloseKeeps(cfg, s, s', i);
      case Accept => CompleteAcceptKeeps(cfg, s, s', i, res);
      case Timeout =>
      case Nop =>
    }
  }
}
