/** What the io_uring server guarantees in every run, under every interleaving of the
    server with the kernel. */
module ProtocolTheorems {
  import opened IouTypes
  import opened ServerCore
  import opened Protocol
  import opened ProtocolInvariant
  import opened ProtocolSteps
  import opened ProtocolHandlers

  // The requests of a state, wherever they are.
  ghost predicate RequestIn(s: State, e: Sqe) {
    e in s.sq || e in s.k.flight || (exists c :: c in Events(s) && c.req == e)
  }

  ghost predicate LiveOp(k: Core, a: Addr) {
    a in k.tracked || a == ACCEPT_REQ || (k.timerArmed && a == TIMER_REQ)
  }

  // Each live op has exactly one outstanding request, unless its handler is about to
  // submit it, and nothing outstanding points to anything else: in particular not to
  // freed memory, although the allocator reuses it.
  lemma {:induction false} OneRequestPerLiveOp(cfg: Config, acts: seq<Action>, a: Addr)
    requires Legal(cfg, acts) && !After(cfg, acts).k.pc.Exited?
    ensures var s := After(cfg, acts);
            && Outstanding(s)[a] + multiset(Todo(s.k))[a] == (if LiveOp(s.k, a) then 1 else 0)
            && (Outstanding(s)[a] > 0 ==> a in s.k.ops)
  {
    hide Requests, Sockets, Echo, Accounted, Room;
    var s := After(cfg, acts);
    RunKeepsInv(cfg, acts);
    LiveOnce(cfg, s.k, a);
    assert (Outstanding(s) + multiset(Todo(s.k)))[a] == Live(s.k)[a];
  }

  // The mutable tag is faithful: every outstanding request, completed or not, is
  // exactly the one its op describes now, so dispatching a completion on op->op picks
  // the handler of the operation that completed; and busy says RECV or SEND.
  lemma {:induction false} TagIsFaithful(cfg: Config, acts: seq<Action>, e: Sqe)
    requires Legal(cfg, acts) && !After(cfg, acts).k.pc.Exited?
    requires RequestIn(After(cfg, acts), e)
    ensures var k := After(cfg, acts).k;
            && e.userData in k.ops
            && Configured(e.userData, k.ops[e.userData]) == Some(e)
            && (e.opcode.Accept? <==> k.ops[e.userData].tag.AcceptedConnection?)
            && (e.opcode.Close? <==> k.ops[e.userData].tag.CloseConnection?)
            && (e.opcode.Recv? <==> k.ops[e.userData].tag.RecvFromClient?)
            && (e.opcode.Send? <==> k.ops[e.userData].tag.SendToClient?)
            && (e.opcode.Timeout? <==> k.ops[e.userData].tag.TimerExpired?)
            && (e.userData in k.tracked ==> (k.ops[e.userData].busy <==> e.opcode.Recv? || e.opcode.Send?))
  {
    hide Unique, Sockets, Echo, Accounted, Room;
    RunKeepsInv(cfg, acts);
    assert ReqOk(After(cfg, acts).k, e);
  }

  // Every field of every outstanding request: the accept request on the listening socket,
  // the timer's one timespec, a whole receive buffer, one message, a descriptor to close.
  lemma {:induction false} RequestFields(cfg: Config, acts: seq<Action>, e: Sqe)
    requires Legal(cfg, acts) && !After(cfg, acts).k.pc.Exited?
    requires RequestIn(After(cfg, acts), e)
    ensures var k, a := After(cfg, acts).k, e.userData;
            && a in k.ops
            && match e.opcode
               case Accept => e == Sqe(ACCEPT_REQ, Accept, cfg.listenFd, ACCEPT_REQ, 0)
               case Timeout => e == Sqe(TIMER_REQ, Timeout, 0, TIMER_REQ, 1)
               case Recv => a in k.tracked && e == Sqe(a, Recv, k.ops[a].fd, a, BufSize(cfg))
               case Send => a in k.tracked && e == Sqe(a, Send, k.ops[a].fd, a, cfg.msgSize)
               case Close => a in k.tracked && e == Sqe(a, Close, k.ops[a].fd, NULL, 0)
               case Nop => false
  {
    RunKeepsInv(cfg, acts);
    hide Legal, After, EchoSafe, Unique, Sockets, Echo, Accounted, Room;
    assert ReqOk(After(cfg, acts).k, e);
  }

  // The results a handler does not accept, by the operation that completed.
  predicate Rejected(cfg: Config, c: Completion) {
    match c.req.opcode
    case Accept => c.res < 0
    case Close => c.res != 0
    case Recv => c.res != 0 && c.res != cfg.msgSize
    case Send => c.res < cfg.msgSize
    case Timeout => c.res != -ETIME
    case Nop => true
  }

  // Exactly when the process exits, and why: a handler is given a result it rejects, or
  // a submission finds ring_size entries unread.
  lemma {:induction false} ExitsIff(cfg: Config, acts: seq<Action>, act: Action)
    requires Legal(cfg, acts) && Enabled(cfg, After(cfg, acts), act)
    ensures var s, pc := After(cfg, acts), Step(cfg, After(cfg, acts), act).k.pc;
            && (pc == Exited(UnexpectedResult) <==> act.Handle? && Rejected(cfg, s.k.pc.event))
            && (pc == Exited(RingBusy) <==> act.Acquire? && |s.sq| >= cfg.ringSize)
            && (pc.Exited? ==> pc.reason == UnexpectedResult || pc.reason == RingBusy)
  {
    RunKeepsInv(cfg, acts);
    hide Legal, After, EchoSafe, Full;
    ExitsIffIn(cfg, After(cfg, acts), act);
  }

  lemma {:induction false} ExitsIffIn(cfg: Config, s: State, act: Action)
    requires Full(cfg, s) && Enabled(cfg, s, act)
    ensures var pc := Step(cfg, s, act).k.pc;
            && (pc == Exited(UnexpectedResult) <==> act.Handle? && Rejected(cfg, s.k.pc.event))
            && (pc == Exited(RingBusy) <==> act.Acquire? && |s.sq| >= cfg.ringSize)
            && (pc.Exited? ==> pc.reason == UnexpectedResult || pc.reason == RingBusy)
  {
    hide Full;
    if act.Handle? {
      EventOp(cfg, s);
      hide Perform, CanPerform;
    } else if act.Publish? {
      TodoIsKnown(cfg, s, s.k.pc.todo[0]);
    } else if act.Complete? {
      CompletePosts(cfg, s, act.i, act.res, act.data);
      hide Perform, CanPerform, Dispatch;
    }
  }

  // What the server does about each completion it accepts, by the operation that
  // completed: which ops it then submits, in which order, as what, and nothing else.
  ghost predicate GoesOn(cfg: Config, k: Core, k': Core, c: Completion, block: Addr) {
    && var a := c.req.userData;
    && k'.pc.Submitting? && !k'.pc.acquired && k'.pc.ret == |k'.pc.todo|
    && a in k.ops
    && (forall b :: b in k.ops && b != a ==> b in k'.ops && k'.ops[b] == k.ops[b])
    && (forall b :: b in k'.ops ==> b in k.ops || b == block)
    && (k'.timerArmed <==> k.timerArmed && !c.req.opcode.Timeout?)
    && (!c.req.opcode.Close? ==> a in k'.ops && k'.ops[a].fd == k.ops[a].fd)
    && match c.req.opcode
       case Accept =>
         && k'.pc.todo == [block, a] && k'.ops[a] == k.ops[a] && k'.tracked == k.tracked + [block]
         && block in k'.ops && k'.ops[block].tag == RecvFromClient && k'.ops[block].fd == c.res
       case Recv =>
         && k'.pc.todo == [a] && k'.tracked == k.tracked
         && k'.ops[a].tag == (if c.res == 0 then CloseConnection else SendToClient)
       case Send => k'.pc.todo == [a] && k'.tracked == k.tracked && k'.ops[a].tag == RecvFromClient
       case Close => k'.pc.todo == [] && a !in k'.ops && a !in k'.tracked && |k'.tracked| + 1 == |k.tracked|
       case Timeout => k'.pc.todo == [] && k'.tracked == k.tracked && k'.ops == k.ops
       case Nop => false
  }

  lemma {:induction false} HandlesWhatCompleted(cfg: Config, acts: seq<Action>, block: Addr)
    requires Legal(cfg, acts) && Enabled(cfg, After(cfg, acts), Handle(block))
    requires !Rejected(cfg, After(cfg, acts).k.pc.event)
    ensures var k := After(cfg, acts).k;
            GoesOn(cfg, k, Step(cfg, After(cfg, acts), Handle(block)).k, k.pc.event, block)
  {
    RunKeepsInv(cfg, acts);
    hide Legal, After, EchoSafe, Full;
    HandlesIn(cfg, After(cfg, acts), block);
  }

  lemma {:induction false} HandlesIn(cfg: Config, s: State, block: Addr)
    requires Full(cfg, s) && s.k.pc.Handling? && Allocatable(s.k, block) && !Rejected(cfg, s.k.pc.event)
    ensures GoesOn(cfg, s.k, Dispatch(cfg, s.k, block), s.k.pc.event, block)
  {
    EventOp(cfg, s);
    var a := s.k.pc.event.req.userData;
    assert a in s.k.tracked ==> multiset(s.k.tracked)[a] == 1;
    hide Full;
    DispatchGoesOn(cfg, s.k, block);
  }

  lemma {:induction false} DispatchGoesOn(cfg: Config, k: Core, block: Addr)
    requires k.pc.Handling? && Allocatable(k, block) && !Rejected(cfg, k.pc.event)
    requires var a := k.pc.event.req.userData;
             && a in k.ops && Configured(a, k.ops[a]) == Some(k.pc.event.req)
             && (k.pc.event.req.opcode.Close? ==> a in k.tracked && multiset(k.tracked)[a] == 1)
    ensures GoesOn(cfg, k, Dispatch(cfg, k, block), k.pc.event, block)
  {
    if k.pc.event.req.opcode.Close? {
      WithoutEffect(k.tracked, k.pc.event.req.userData);
    }
  }

  // The process exits only because the ring was full or a result was not acceptable;
  // never on an unknown tag, and it never follows a dangling pointer.
  lemma {:induction false} ExitReasons(cfg: Config, acts: seq<Action>)
    requires Legal(cfg, acts) && After(cfg, acts).k.pc.Exited?
    ensures var r := After(cfg, acts).k.pc.reason; r == RingBusy || r == UnexpectedResult
  {
    RunKeepsInv(cfg, acts);
  }

  // The kernel only touches memory of live ops: the buffer of a RECV or SEND it holds
  // is that of an op in use, at least as long as the request says.
  lemma {:induction false} KernelBuffersAreLive(cfg: Config, acts: seq<Action>, e: Sqe)
    requires Legal(cfg, acts) && !After(cfg, acts).k.pc.Exited?
    requires e in After(cfg, acts).k.flight && (e.opcode.Recv? || e.opcode.Send?)
    ensures var k := After(cfg, acts).k;
            && e.addr == e.userData && e.addr in k.tracked && e.addr in k.ops
            && e.len <= |k.ops[e.addr].buf|
            && e.fd in k.conns && e.addr in k.conOf && k.conns[e.fd] == k.conOf[e.addr]
  {
    hide Requests, Sockets, Echo, Accounted, Room;
    var s := After(cfg, acts);
    RunKeepsInv(cfg, acts);
    var i :| 0 <= i < |s.k.flight| && s.k.flight[i] == e;
    FlightFacts(cfg, s, i);
  }

  // The theorems hold whatever the kernel answers: any error; any descriptor not in use;
  // any bytes that fit the buffer; any part of the message; that the close succeeded.
  lemma {:induction false} KernelMayAnswerAnything(cfg: Config, acts: seq<Action>, i: nat, res: int, data: seq<Byte>)
    requires Legal(cfg, acts) && Running(After(cfg, acts).k) && i < |After(cfg, acts).k.flight|
    ensures var s := After(cfg, acts);
            Enabled(cfg, s, Complete(i, res, data)) <==>
              res < 0 ||
                match s.k.flight[i].opcode
                case Accept => res !in s.k.conns && res != cfg.listenFd
                case Recv => res <= BufSize(cfg) && |data| == res
                case Send => res <= cfg.msgSize
                case Close => res == 0
                case Timeout => false
                case Nop => false
  {
    RunKeepsInv(cfg, acts);
    hide Legal, After, EchoSafe;
    AnswersIn(cfg, After(cfg, acts), i, res, data);
  }

  lemma {:induction false} AnswersIn(cfg: Config, s: State, i: nat, res: int, data: seq<Byte>)
    requires Full(cfg, s) && i < |s.k.flight|
    ensures CanPerform(cfg, s.k, i, res, data) <==>
              res < 0 ||
                match s.k.flight[i].opcode
                case Accept => res !in s.k.conns && res != cfg.listenFd
                case Recv => res <= BufSize(cfg) && |data| == res
                case Send => res <= cfg.msgSize
                case Close => res == 0
                case Timeout => false
                case Nop => false
  {
    FlightFacts(cfg, s, i);
    hide Unique, Requests, Sockets, Echo, Accounted, Room;
  }

  // Echo: per connection, what was sent back is always a prefix of what was received,
  // and never more than one receive buffer behind. This holds in every state of every
  // run, exits included.
  lemma {:induction false} EchoesAPrefix(cfg: Config, acts: seq<Action>, c: nat)
    requires Legal(cfg, acts) && c < |After(cfg, acts).k.recvd|
    ensures var k := After(cfg, acts).k;
            && c < |k.sent| && k.sent[c] <= k.recvd[c] && |k.recvd[c]| - |k.sent[c]| <= BufSize(cfg)
  {
    RunKeepsInv(cfg, acts);
  }

  // A client whose op waits for data, or is closing, has had everything echoed; and
  // one whose op is being sent to is owed exactly the message in the op's buffer.
  lemma {:induction false} EchoedInFull(cfg: Config, acts: seq<Action>, e: Sqe)
    requires Legal(cfg, acts) && !After(cfg, acts).k.pc.Exited?
    requires e in After(cfg, acts).sq || e in After(cfg, acts).k.flight
    requires e.userData in After(cfg, acts).k.tracked
    ensures var k := After(cfg, acts).k; var a := e.userData;
            && a in k.ops && a in k.conOf && k.conOf[a] < |k.recvd| && k.conOf[a] < |k.sent|
            && (e.opcode.Recv? || e.opcode.Close? ==> k.sent[k.conOf[a]] == k.recvd[k.conOf[a]])
            && (e.opcode.Send? ==> |k.ops[a].buf| >= cfg.msgSize
                                   && k.recvd[k.conOf[a]] == k.sent[k.conOf[a]] + k.ops[a].buf[..cfg.msgSize])
  {
    hide Unique, Sockets, Accounted, Room;
    var s := After(cfg, acts);
    RunKeepsInv(cfg, acts);
    assert ReqOk(s.k, e) && Balanced(s.k, e.userData, None);
    var buf := s.k.ops[e.userData].buf;
    assert |buf| >= cfg.msgSize ==> buf[0..cfg.msgSize] == buf[..cfg.msgSize];
  }

  lemma {:induction false} HandlersKeepBuffers(cfg: Config, k: Core, block: Addr, a: Addr)
    requires k.pc.Handling? && a in k.ops && a != block
    ensures a in Dispatch(cfg, k, block).ops ==> Dispatch(cfg, k, block).ops[a].buf == k.ops[a].buf
  {
    var c := k.pc.event.req.userData;
    if c in k.ops {
      if k.ops[c].tag.RecvFromClient? {
      } else if k.ops[c].tag.SendToClient? {
        hide HandleRecv;
      } else {
        hide HandleRecv, HandleSend;
      }
    }
  }

  lemma {:induction false} KernelWritesOnlyRecv(cfg: Config, k: Core, i: nat, res: int, data: seq<Byte>, a: Addr)
    requires CanPerform(cfg, k, i, res, data) && a in k.ops
    ensures a in Perform(cfg, k, i, res, data).ops
    ensures Perform(cfg, k, i, res, data).ops[a].buf != k.ops[a].buf ==>
              k.flight[i].opcode.Recv? && k.flight[i].addr == a
  {
  }

  // The buffer of an op whose RECV has completed, or that is being sent, is not
  // written by any step until that SEND completes and a new RECV is submitted: only
  // completing the op's own RECV changes it.
  lemma {:induction false} BufferIsStable(cfg: Config, acts: seq<Action>, act: Action, a: Addr)
    requires Legal(cfg, acts) && Enabled(cfg, After(cfg, acts), act)
    requires a in After(cfg, acts).k.ops && a in Step(cfg, After(cfg, acts), act).k.ops
    requires Step(cfg, After(cfg, acts), act).k.ops[a].buf != After(cfg, acts).k.ops[a].buf
    ensures act.Complete?
    ensures var r := After(cfg, acts).k.flight[act.i]; r.opcode.Recv? && r.userData == a
  {
    RunKeepsInv(cfg, acts);
    hide Legal, After, Full, EchoSafe;
    WritersAreRecvs(cfg, After(cfg, acts), act, a);
  }

  lemma {:induction false} WritersAreRecvs(cfg: Config, s: State, act: Action, a: Addr)
    requires Full(cfg, s) && Enabled(cfg, s, act) && a in s.k.ops && a in Step(cfg, s, act).k.ops
    requires Step(cfg, s, act).k.ops[a].buf != s.k.ops[a].buf
    ensures act.Complete?
    ensures var r := s.k.flight[act.i]; r.opcode.Recv? && r.userData == a
  {
    hide Full, Dispatch, Perform;
    if act.Handle? {
      HandlersKeepBuffers(cfg, s.k, act.block, a);
    } else if act.Complete? {
      KernelWritesOnlyRecv(cfg, s.k, act.i, act.res, act.data, a);
      FlightFacts(cfg, s, act.i);
    }
  }

  // Clients never share a file descriptor, although the kernel may hand out a number
  // again before the server has seen that it was closed; nor do two ops ever serve
  // the same connection.
  lemma {:induction false} DescriptorsAreDistinct(cfg: Config, acts: seq<Action>, a: Addr, b: Addr)
    requires Legal(cfg, acts) && !After(cfg, acts).k.pc.Exited?
    requires a in After(cfg, acts).k.tracked && b in After(cfg, acts).k.tracked && a != b
    ensures var k := After(cfg, acts).k;
            && a in k.ops && b in k.ops && k.ops[a].fd != k.ops[b].fd
            && a in k.conOf && b in k.conOf && k.conOf[a] != k.conOf[b]
  {
    hide Unique, Requests, Echo, Accounted, Room, UnseenSockets, NoStraySocket;
    RunKeepsInv(cfg, acts);
  }

  // -------------------------------------------------------------------------
  // Capacity.

  function LiveCount(k: Core): nat { |k.tracked| + 1 + if k.timerArmed then 1 else 0 }

  lemma {:induction false} IdsSize(q: seq<Sqe>)
    ensures |Ids(q)| == |q|
  {
  }

  // Requests and live ops balance in number.
  lemma {:induction false} RequestCount(cfg: Config, s: State)
    requires Full(cfg, s)
    ensures |s.sq| + |s.k.flight| + |Events(s)| + |Todo(s.k)| == LiveCount(s.k)
  {
    hide Heap, Requests, Sockets, Echo, Accounted, Room;
    IdsSize(s.sq);
    IdsSize(s.k.flight);
    IdsSize(Reqs(Events(s)));
    assert |Outstanding(s) + multiset(Todo(s.k))| == |Live(s.k)|;
  }

  // In every state of the run at most `cap` ops are live.
  ghost predicate NeverMoreThan(cfg: Config, acts: seq<Action>, cap: nat)
    requires Legal(cfg, acts)
  {
    && LiveCount(After(cfg, acts).k) <= cap
    && (acts != [] ==> NeverMoreThan(cfg, acts[..|acts| - 1], cap))
  }

  lemma {:induction false} AcquireFinds(cfg: Config, s: State, act: Action)
    requires Inv(cfg, s) && Enabled(cfg, s, act) && LiveCount(s.k) <= cfg.ringSize
    ensures Step(cfg, s, act).k.pc != Exited(RingBusy)
  {
    hide Heap, Unique, Requests, Sockets, Echo, Accounted, Room, Perform, EchoSafe;
    RequestCount(cfg, s);
    if act.Complete? { CompletePosts(cfg, s, act.i, act.res, act.data); }
  }

  // If the live ops never outnumber ring_size, no submission in the run is refused.
  lemma {:induction false} NeverBusy(cfg: Config, acts: seq<Action>)
    requires Legal(cfg, acts) && NeverMoreThan(cfg, acts, cfg.ringSize)
    ensures After(cfg, acts).k.pc != Exited(RingBusy)
  {
    hide Step, Enabled, Inv;
    if acts != [] {
      RunKeepsInv(cfg, acts[..|acts| - 1]);
      AcquireFinds(cfg, After(cfg, acts[..|acts| - 1]), acts[|acts| - 1]);
    }
  }

  // The kernel never holds back or drops a completion for want of room while the live
  // ops do not outnumber the completion ring's entries.
  lemma {:induction false} CompletionsFit(cfg: Config, acts: seq<Action>, act: Action)
    requires Legal(cfg, acts) && Enabled(cfg, After(cfg, acts), act) && act.Complete?
    ensures |After(cfg, acts).cq| < LiveCount(After(cfg, acts).k)
  {
    hide Heap, Unique, Requests, Sockets, Echo, Accounted, Room, Perform, EchoSafe;
    RunKeepsInv(cfg, acts);
    RequestCount(cfg, After(cfg, acts));
  }

  // -------------------------------------------------------------------------
  // Submission accounting and blocking.

  // Without SQPOLL the counter passed to io_uring_enter is the number of entries the
  // kernel has not read.
  lemma {:induction false} CounterIsExact(cfg: Config, acts: seq<Action>)
    requires Legal(cfg, acts) && !cfg.sqpoll && After(cfg, acts).k.pc.LoopHead?
    ensures After(cfg, acts).k.toSubmit == |After(cfg, acts).sq| <= cfg.ringSize
  {
    hide Heap, Unique, Requests, Sockets, Echo, EchoSafe;
    RunKeepsInv(cfg, acts);
  }

  // Whenever the server blocks, everything it published has been handed over, and
  // something can wake it: the accept request is with the kernel or has completed.
  lemma {:induction false} BlocksOnlyWithWorkHandedOver(cfg: Config, acts: seq<Action>)
    requires Legal(cfg, acts) && !cfg.sqpoll && After(cfg, acts).k.pc == Entering(0)
    ensures var s := After(cfg, acts);
            && s.sq == []
            && ((exists e :: e in s.k.flight && e.userData == ACCEPT_REQ)
                || (exists c :: c in s.cq && c.req.userData == ACCEPT_REQ))
  {
    hide Requests, Sockets, Echo, EchoSafe;
    var s := After(cfg, acts);
    RunKeepsInv(cfg, acts);
    LiveOnce(cfg, s.k, ACCEPT_REQ);
    assert Ids(s.sq) == multiset{};
    if ACCEPT_REQ in Ids(s.k.flight) {
      IdsWitness(s.k.flight, ACCEPT_REQ);
    } else {
      assert ACCEPT_REQ in Ids(Reqs(Events(s)));
      ReqsWitness(Events(s), ACCEPT_REQ);
    }
  }

  // Whole-run conservation of clients, and of sockets: every socket open is held by
  // one tracked op or awaits the server in the completion queue.
  lemma {:induction false} ClientsAreConserved(cfg: Config, acts: seq<Action>)
    requires Legal(cfg, acts) && !After(cfg, acts).k.pc.Exited?
    ensures var s := After(cfg, acts);
            && s.k.accepted == s.k.closed + |s.k.tracked|
            && forall f :: f in s.k.conns ==>
                 (exists a :: Holds(s.k, a, f)) || (exists j :: Unseen(Events(s), j, f))
  {
    hide Heap, Unique, Requests, Echo, Accounted, Room, OwnSockets, UnseenSockets;
    RunKeepsInv(cfg, acts);
  }
}
