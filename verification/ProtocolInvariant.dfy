/** The invariant of the io_uring server protocol. */
module ProtocolInvariant {
  import opened IouTypes
  import opened ServerCore
  import opened Protocol

  // -------------------------------------------------------------------------
  // Where requests are.

  // The user_data pointers in a queue, with multiplicity.
  ghost function Ids(q: seq<Sqe>): multiset<Addr> {
    multiset(seq(|q|, i requires 0 <= i < |q| => q[i].userData))
  }

  ghost function Reqs(q: seq<Completion>): seq<Sqe> {
    seq(|q|, i requires 0 <= i < |q| => q[i].req)
  }

  // The completions not acted on yet, the one in the server's hands first.
  ghost function Events(s: State): seq<Completion> {
    if s.k.pc.Handling? then [s.k.pc.event] + s.cq else s.cq
  }

  // The ops the current handler has still to submit.
  ghost function Todo(k: Core): seq<Addr> {
    if k.pc.Submitting? then k.pc.todo else []
  }

  ghost function Outstanding(s: State): multiset<Addr> {
    Ids(s.sq) + Ids(s.k.flight) + Ids(Reqs(Events(s)))
  }

  // The live ops: every tracked client, the accept request, the timer until it fires.
  ghost function Live(k: Core): multiset<Addr> {
    multiset(k.tracked) + multiset{ACCEPT_REQ} + if k.timerArmed then multiset{TIMER_REQ} else multiset{}
  }

  // -------------------------------------------------------------------------
  // The parts of the invariant.

  ghost predicate ClientOp(cfg: Config, op: Op) {
    && (op.tag.RecvFromClient? || op.tag.SendToClient? || op.tag.CloseConnection?)
    && (op.busy <==> op.tag.RecvFromClient? || op.tag.SendToClient?)
    && |op.buf| == BufSize(cfg)
    && (op.tag.SendToClient? ==> op.bufSendLen == cfg.msgSize)
  }

  ghost predicate Heap(cfg: Config, k: Core) {
    && (forall a :: a in k.tracked ==> multiset(k.tracked)[a] == 1)
    && ACCEPT_REQ in k.ops && k.ops[ACCEPT_REQ].tag.AcceptedConnection? && k.ops[ACCEPT_REQ].fd == cfg.listenFd
    && (k.timerArmed ==> TIMER_REQ in k.ops)
    && (TIMER_REQ in k.ops ==> k.ops[TIMER_REQ].tag.TimerExpired?)
    && (forall a :: a in k.tracked ==>
          a !in {NULL, ACCEPT_REQ, TIMER_REQ} && a in k.ops && ClientOp(cfg, k.ops[a]))
    && (forall a :: a in k.ops ==> a in k.tracked || a == ACCEPT_REQ || a == TIMER_REQ)
    && |k.recvd| == |k.sent|
    && (forall a :: a in k.tracked ==> a in k.conOf && k.conOf[a] < |k.recvd|)
  }

  // Each live op has exactly one request somewhere, or is about to be submitted.
  ghost predicate Unique(s: State) {
    Outstanding(s) + multiset(Todo(s.k)) == Live(s.k)
  }

  // A request is what its op, as it is now, describes.
  ghost predicate ReqOk(k: Core, e: Sqe) {
    e.userData in k.ops && Configured(e.userData, k.ops[e.userData]) == Some(e)
  }

  ghost predicate ResOk(c: Completion) {
    match c.req.opcode
    case Recv => c.res <= c.req.len
    case Send => c.res <= c.req.len
    case Close => c.res <= 0
    case Timeout => c.res < 0
    case Accept => true
    case Nop => true
  }

  ghost predicate Requests(s: State) {
    && (forall e :: e in s.sq ==> ReqOk(s.k, e))
    && (forall e :: e in s.k.flight ==> ReqOk(s.k, e))
    && (forall c :: c in Events(s) ==> ReqOk(s.k, c.req) && ResOk(c))
  }

  predicate IsClose(c: Completion) { c.req.opcode.Close? && c.res == 0 }

  predicate IsSocket(c: Completion) { c.req.opcode.Accept? && c.res >= 0 }

  // The completion of a's CLOSE is among the first n events.
  ghost predicate ClosedBy(ev: seq<Completion>, n: nat, a: Addr) {
    exists i :: 0 <= i < n <= |ev| && IsClose(ev[i]) && ev[i].req.userData == a
  }

  ghost predicate FdOpen(k: Core, a: Addr)
    requires a in k.ops && a in k.conOf
  {
    k.ops[a].fd in k.conns && k.conns[k.ops[a].fd] == k.conOf[a]
  }

  // Who is responsible for an open socket: the op created for its connection, or the
  // completion that will tell the server about it.
  ghost predicate Holds(k: Core, a: Addr, f: int) {
    && a in k.tracked && a in k.ops && a in k.conOf && k.ops[a].fd == f
    && f in k.conns && k.conns[f] == k.conOf[a]
  }

  ghost predicate Unseen(ev: seq<Completion>, j: nat, f: int) {
    j < |ev| && IsSocket(ev[j]) && ev[j].res == f
  }

  // An accepted socket the server has not seen yet. A client op that still carries
  // the same fd number is on its way out, ahead of it in the queue.
  ghost predicate SocketOk(k: Core, ev: seq<Completion>, j: nat)
    requires j < |ev| && (forall a :: a in k.tracked ==> a in k.ops && a in k.conOf)
    requires |k.recvd| == |k.sent|
  {
    && var f := ev[j].res;
    && f in k.conns && k.conns[f] < |k.recvd|
    && k.recvd[k.conns[f]] == [] && k.sent[k.conns[f]] == []
    && (forall a :: a in k.tracked ==> k.conOf[a] != k.conns[f])
    && (forall a :: a in k.tracked && k.ops[a].fd == f ==> ClosedBy(ev, j, a))
  }

  // Tracked ops have sockets of their own, open until their CLOSE has completed.
  ghost predicate OwnSockets(cfg: Config, s: State)
    requires Heap(cfg, s.k)
  {
    var k, ev := s.k, Events(s);
    && (forall a :: a in k.tracked ==> (ClosedBy(ev, |ev|, a) <==> !FdOpen(k, a)))
    && (forall a, b :: a in k.tracked && b in k.tracked && a != b ==>
          k.ops[a].fd != k.ops[b].fd && k.conOf[a] != k.conOf[b])
    && (forall f :: f in k.conns ==> f != cfg.listenFd && k.conns[f] < |k.recvd|)
  }

  ghost predicate UnseenSockets(cfg: Config, s: State)
    requires Heap(cfg, s.k)
  {
    var ev := Events(s);
    forall j :: 0 <= j < |ev| && IsSocket(ev[j]) ==> SocketOk(s.k, ev, j)
  }

  // No socket is open that nobody is responsible for.
  ghost predicate NoStraySocket(s: State) {
    forall f :: f in s.k.conns ==>
      (exists a :: Holds(s.k, a, f)) || (exists j :: Unseen(Events(s), j, f))
  }

  ghost predicate Sockets(cfg: Config, s: State)
    requires Heap(cfg, s.k)
  {
    OwnSockets(cfg, s) && UnseenSockets(cfg, s) && NoStraySocket(s)
  }

  function Slice(b: seq<Byte>, lo: int, hi: int): seq<Byte> {
    if 0 <= lo <= hi <= |b| then b[lo..hi] else []
  }

  // The bytes received on the op's connection and not yet sent back, given whether
  // its request has completed, and how.
  function Owed(op: Op, done: Option<int>): seq<Byte> {
    match op.tag
    case RecvFromClient => if done.Some? then Slice(op.buf, 0, done.value) else []
    case SendToClient =>
      Slice(op.buf, if done.Some? && done.value >= 0 then done.value else 0, op.bufSendLen)
    case _ => []
  }

  ghost predicate Balanced(k: Core, a: Addr, done: Option<int>)
    requires |k.recvd| == |k.sent|
  {
    a in k.tracked ==>
      && a in k.ops && a in k.conOf && k.conOf[a] < |k.recvd|
      && k.recvd[k.conOf[a]] == k.sent[k.conOf[a]] + Owed(k.ops[a], done)
  }

  ghost predicate OwnsCon(k: Core, a: Addr, c: nat) {
    a in k.tracked && a in k.conOf && k.conOf[a] == c
  }

  ghost predicate Echo(s: State)
    requires |s.k.recvd| == |s.k.sent|
  {
    && (forall e :: e in s.sq ==> Balanced(s.k, e.userData, None))
    && (forall e :: e in s.k.flight ==> Balanced(s.k, e.userData, None))
    && (forall c :: c in Events(s) ==> Balanced(s.k, c.req.userData, Some(c.res)))
    && (forall a :: a in Todo(s.k) ==> Balanced(s.k, a, None))
    && (forall c: nat :: c < |s.k.recvd| ==>
          (exists a :: OwnsCon(s.k, a, c)) || s.k.recvd[c] == s.k.sent[c])
  }

  // Submission accounting without SQPOLL.
  ghost predicate Accounted(cfg: Config, s: State) {
    cfg.sqpoll || match s.k.pc
      case LoopHead => s.k.toSubmit == |s.sq|
      case Handling(_) => s.k.toSubmit == |s.sq|
      case Submitting(todo, ret, _) => |todo| <= ret && s.k.toSubmit + ret - |todo| == |s.sq|
      case Entering(left) => s.k.toSubmit == 0 && left == |s.sq|
      case _ => true
  }

  ghost predicate Room(cfg: Config, s: State) {
    && |s.sq| <= cfg.ringSize
    && (s.k.pc.Submitting? && s.k.pc.acquired ==> |s.sq| < cfg.ringSize && s.k.pc.todo != [])
  }

  ghost predicate Full(cfg: Config, s: State) {
    && Heap(cfg, s.k)
    && Unique(s)
    && Requests(s)
    && Sockets(cfg, s)
    && Echo(s)
    && Accounted(cfg, s)
    && Room(cfg, s)
    && s.k.accepted == s.k.closed + |s.k.tracked|
  }

  // For every connection there ever was: what was sent back is a prefix of what was
  // received, at most one buffer behind.
  ghost predicate EchoSafe(cfg: Config, k: Core) {
    && |k.recvd| == |k.sent|
    && forall c: nat :: c < |k.recvd| ==>
         k.sent[c] <= k.recvd[c] && |k.recvd[c]| - |k.sent[c]| <= BufSize(cfg)
  }

  ghost predicate Inv(cfg: Config, s: State) {
    && EchoSafe(cfg, s.k)
    && (s.k.pc.Exited? ==> s.k.pc.reason.RingBusy? || s.k.pc.reason.UnexpectedResult?)
    && (!s.k.pc.Exited? ==> Full(cfg, s))
  }

  // -------------------------------------------------------------------------
  // Queues of pointers.

  lemma {:induction false} IdsAppend(q: seq<Sqe>, r: seq<Sqe>)
    ensures Ids(q + r) == Ids(q) + Ids(r)
  {
    var f := (q: seq<Sqe>) => seq(|q|, i requires 0 <= i < |q| => q[i].userData);
    assert f(q + r) == f(q) + f(r);
  }

  lemma {:induction false} IdsOne(e: Sqe)
    ensures Ids([e]) == multiset{e.userData} && Ids([]) == multiset{}
  {
    var f := (q: seq<Sqe>) => seq(|q|, i requires 0 <= i < |q| => q[i].userData);
    assert f([e]) == [e.userData];
    assert f([]) == [];
  }

  lemma {:induction false} IdsPush(q: seq<Sqe>, e: Sqe)
    ensures Ids(q + [e]) == Ids(q) + multiset{e.userData}
    ensures Ids([e] + q) == Ids(q) + multiset{e.userData}
  {
    IdsAppend(q, [e]);
    IdsAppend([e], q);
    IdsOne(e);
  }

  lemma {:induction false} IdsDrop(q: seq<Sqe>, i: nat)
    requires i < |q|
    ensures Ids(q) == Ids(Drop(q, i)) + multiset{q[i].userData}
  {
    assert q == q[..i] + ([q[i]] + q[i + 1..]);
    IdsAppend(q[..i], [q[i]] + q[i + 1..]);
    IdsPush(q[i + 1..], q[i]);
    IdsAppend(q[..i], q[i + 1..]);
  }

  lemma {:induction false} IdsContains(q: seq<Sqe>, e: Sqe)
    requires e in q
    ensures e.userData in Ids(q)
  {
    var i :| 0 <= i < |q| && q[i] == e;
    IdsDrop(q, i);
  }

  lemma {:induction false} IdsWitness(q: seq<Sqe>, a: Addr)
    requires a in Ids(q)
    ensures exists e :: e in q && e.userData == a
  {
    var ids := seq(|q|, i requires 0 <= i < |q| => q[i].userData);
    assert a in ids;
    var i :| 0 <= i < |q| && ids[i] == a;
    assert q[i] in q;
  }

  lemma {:induction false} ReqsPush(q: seq<Completion>, c: Completion)
    ensures Reqs(q + [c]) == Reqs(q) + [c.req]
    ensures Reqs([c] + q) == [c.req] + Reqs(q)
  {
  }

  lemma {:induction false} ReqsContains(q: seq<Completion>, c: Completion)
    requires c in q
    ensures c.req in Reqs(q)
  {
    var i :| 0 <= i < |q| && q[i] == c;
    assert Reqs(q)[i] == c.req;
  }

  lemma {:induction false} ReqsWitness(q: seq<Completion>, a: Addr)
    requires a in Ids(Reqs(q))
    ensures exists c :: c in q && c.req.userData == a
  {
    IdsWitness(Reqs(q), a);
    var e :| e in Reqs(q) && e.userData == a;
    var i :| 0 <= i < |Reqs(q)| && Reqs(q)[i] == e;
    assert q[i] in q;
  }

  // No op is live twice, so no op has two requests.
  lemma {:induction false} LiveOnce(cfg: Config, k: Core, a: Addr)
    requires Heap(cfg, k)
    ensures Live(k)[a] <= 1
    ensures Live(k)[a] == 1 <==> a in k.tracked || a == ACCEPT_REQ || (k.timerArmed && a == TIMER_REQ)
  {
    assert a in k.tracked <==> multiset(k.tracked)[a] > 0;
  }

  // The op of a request in flight has no other request.
  lemma {:induction false} FlightAlone(cfg: Config, s: State, i: nat)
    requires Heap(cfg, s.k) && Unique(s) && i < |s.k.flight|
    ensures var a := s.k.flight[i].userData;
            && a !in Ids(s.sq) && a !in Ids(Drop(s.k.flight, i)) && a !in Ids(Reqs(Events(s)))
            && a !in Todo(s.k)
            && (a in s.k.tracked || a == ACCEPT_REQ || (s.k.timerArmed && a == TIMER_REQ))
  {
    IdsDrop(s.k.flight, i);
    LiveOnce(cfg, s.k, s.k.flight[i].userData);
  }

  // Neither has the op of the event being handled.
  lemma {:induction false} EventAlone(cfg: Config, s: State)
    requires Heap(cfg, s.k) && Unique(s) && s.k.pc.Handling?
    ensures var a := s.k.pc.event.req.userData;
            && a !in Ids(s.sq) && a !in Ids(s.k.flight) && a !in Ids(Reqs(s.cq))
            && (a in s.k.tracked || a == ACCEPT_REQ || (s.k.timerArmed && a == TIMER_REQ))
            && Outstanding(s) == Ids(s.sq) + Ids(s.k.flight) + Ids(Reqs(s.cq)) + multiset{a}
  {
    ReqsPush(s.cq, s.k.pc.event);
    IdsPush(Reqs(s.cq), s.k.pc.event.req);
    LiveOnce(cfg, s.k, s.k.pc.event.req.userData);
  }

  // Where the request of a live op can be.
  lemma {:induction false} Whereabouts(cfg: Config, s: State, a: Addr)
    requires Heap(cfg, s.k) && Unique(s) && a in s.k.tracked
    ensures (exists e :: e in s.sq && e.userData == a)
            || (exists e :: e in s.k.flight && e.userData == a)
            || (exists c :: c in Events(s) && c.req.userData == a)
            || a in Todo(s.k)
  {
    LiveOnce(cfg, s.k, a);
    if a in Ids(s.sq) { IdsWitness(s.sq, a); }
    if a in Ids(s.k.flight) { IdsWitness(s.k.flight, a); }
    if a in Ids(Reqs(Events(s))) { ReqsWitness(Events(s), a); }
  }

  // -------------------------------------------------------------------------
  // The echo bound follows from the balance of each connection.

  lemma {:induction false} EchoIsSafe(cfg: Config, s: State)
    requires Full(cfg, s)
    ensures EchoSafe(cfg, s.k)
  {
    hide Requests, Accounted, Room, OwnSockets, UnseenSockets, NoStraySocket;
    forall c: nat | c < |s.k.recvd|
      ensures s.k.sent[c] <= s.k.recvd[c] && |s.k.recvd[c]| - |s.k.sent[c]| <= BufSize(cfg)
    {
      if s.k.recvd[c] != s.k.sent[c] {
        var a :| OwnsCon(s.k, a, c);
        Whereabouts(cfg, s, a);
        if e :| e in s.sq && e.userData == a {
          assert Balanced(s.k, a, None);
        } else if e :| e in s.k.flight && e.userData == a {
          assert Balanced(s.k, a, None);
        } else if ev :| ev in Events(s) && ev.req.userData == a {
          assert Balanced(s.k, a, Some(ev.res));
        } else {
          assert Balanced(s.k, a, None);
        }
      }
    }
  }

  lemma {:induction false} InitUnique(cfg: Config)
    ensures Unique(Init(cfg))
  {
    IdsOne(ZERO_SQE);
    assert Reqs([]) == [];
  }

  lemma {:induction false} InitHolds(cfg: Config)
    ensures Inv(cfg, Init(cfg))
  {
    InitUnique(cfg);
    hide Unique, Ids, Reqs;
    EchoIsSafe(cfg, Init(cfg));
  }
}
