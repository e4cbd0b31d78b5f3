/** A run of the io_uring server in which the cleanup fails: the only client hangs up, its
    CLOSE is published, the loop is stopped with nothing to take, and the kernel carries
    the CLOSE out before the ring is freed. */
module ShutdownFailure {
  import opened IouTypes
  import opened ServerCore
  import opened Protocol
  import opened Shutdown

  ghost predicate Reached(cfg: Config, acts: seq<Action>, s: State) {
    Legal(cfg, acts) && After(cfg, acts) == s
  }

  lemma {:induction false} Then(cfg: Config, acts: seq<Action>, s: State, act: Action, s': State)
    requires Reached(cfg, acts, s) && Enabled(cfg, s, act) && Step(cfg, s, act) == s'
    ensures Reached(cfg, acts + [act], s')
  {
    hide Step, Enabled;
    RunExtends(cfg, acts, act);
  }

  // The usual stretches of a run in kernel poll mode.

  lemma {:induction false} Submits(cfg: Config, acts: seq<Action>, s: State, a: Addr, rest: seq<Addr>, e: Sqe,
                                   sq: seq<Sqe>)
    requires Reached(cfg, acts, s) && s.k.pc.Submitting? && s.k.pc.todo == [a] + rest && !s.k.pc.acquired
    requires sq == s.sq + [e]
    requires |s.sq| < cfg.ringSize && a in s.k.ops && Configured(a, s.k.ops[a]) == Some(e)
    ensures Reached(cfg, acts + [Acquire, Publish],
                    State(s.k.(pc := Submitting(rest, s.k.pc.ret, false)), sq, s.cq))
  {
    hide Legal, After, Reached;
    var s1 := s.(k := s.k.(pc := s.k.pc.(acquired := true)));
    Then(cfg, acts, s, Acquire, s1);
    assert s1.k.pc.todo[0] == a && s1.k.pc.todo[1..] == rest;
    Then(cfg, acts + [Acquire], s1, Publish, State(s.k.(pc := Submitting(rest, s.k.pc.ret, false)), sq, s.cq));
    assert acts + [Acquire, Publish] == acts + [Acquire] + [Publish];
  }

  lemma {:induction false} Returns(cfg: Config, acts: seq<Action>, s: State)
    requires Reached(cfg, acts, s) && s.k.pc.Submitting? && s.k.pc.todo == []
    ensures Reached(cfg, acts + [Return], s.(k := s.k.(pc := LoopHead, toSubmit := s.k.toSubmit + s.k.pc.ret)))
  {
    hide Legal, After, Reached;
    Then(cfg, acts, s, Return, s.(k := s.k.(pc := LoopHead, toSubmit := s.k.toSubmit + s.k.pc.ret)));
  }

  lemma {:induction false} Consumes(cfg: Config, acts: seq<Action>, s: State, e: Sqe, rest: seq<Sqe>, flight: seq<Sqe>)
    requires flight == s.k.flight + [e]
    requires Reached(cfg, acts, s) && cfg.sqpoll && s.k.pc.LoopHead? && s.sq == [e] + rest
    ensures Reached(cfg, acts + [Consume], State(s.k.(flight := flight), rest, s.cq))
  {
    hide Legal, After, Reached;
    Then(cfg, acts, s, Consume, State(s.k.(flight := flight), rest, s.cq));
  }

  lemma {:induction false} Services(cfg: Config, acts: seq<Action>, s: State, c: Completion, block: Addr)
    requires Reached(cfg, acts, s) && s.k.pc.LoopHead? && s.cq == [c] && Allocatable(s.k, block)
    ensures Reached(cfg, acts + [TakeCqe, Handle(block)],
                    State(Dispatch(cfg, s.k.(pc := Handling(c)), block), s.sq, []))
  {
    hide Legal, After, Reached, Dispatch;
    var s1 := State(s.k.(pc := Handling(c)), s.sq, []);
    Then(cfg, acts, s, TakeCqe, s1);
    Then(cfg, acts + [TakeCqe], s1, Handle(block), s1.(k := Dispatch(cfg, s1.k, block)));
    assert acts + [TakeCqe, Handle(block)] == acts + [TakeCqe] + [Handle(block)];
  }

  lemma {:induction false} Completes(cfg: Config, acts: seq<Action>, s: State, i: nat, res: int)
    requires Reached(cfg, acts, s) && s.k.pc.LoopHead? && s.cq == [] && CanPerform(cfg, s.k, i, res, [])
    ensures Reached(cfg, acts + [Complete(i, res, [])],
                    State(Perform(cfg, s.k, i, res, []), s.sq, [Completion(s.k.flight[i], res)]))
  {
    hide Legal, After, Reached, Perform;
    var s' := State(Perform(cfg, s.k, i, res, []), s.sq, [Completion(s.k.flight[i], res)]);
    Then(cfg, acts, s, Complete(i, res, []), s');
  }

  const DEMO := Config(4, 8, 3, true, false)
  const CLIENT: Addr := 10
  const SOCKET := 5

  function AcceptOp(): Op { Op(AcceptedConnection, 3, false, 0, []) }
  function AcceptSqe(): Sqe { Sqe(ACCEPT_REQ, Accept, 3, ACCEPT_REQ, 0) }
  function ClientBuf(): seq<Byte> { seq(BufSize(DEMO), _ => 0) }
  function RecvSqe(): Sqe { Sqe(CLIENT, Recv, SOCKET, CLIENT, BufSize(DEMO)) }
  function CloseSqe(): Sqe { Sqe(CLIENT, Close, SOCKET, NULL, 0) }

  // Before the client is known, and after.
  function Early(pc: Pc, submitted: nat, flight: seq<Sqe>, conns: map<int, nat>, logs: seq<seq<Byte>>): Core {
    Core(map[ACCEPT_REQ := AcceptOp()], [], false, pc, submitted, flight, conns, logs, logs, map[], 0, 0)
  }

  function Served(tag: Tag, pc: Pc, submitted: nat, flight: seq<Sqe>, conns: map<int, nat>): Core {
    Core(map[ACCEPT_REQ := AcceptOp(), CLIENT := Op(tag, SOCKET, tag.RecvFromClient?, 0, ClientBuf())],
         [CLIENT], false, pc, submitted, flight, conns, [[]], [[]], map[CLIENT := 0], 1, 0)
  }

  lemma {:induction false} DemoStarts()
    ensures Reached(DEMO, [], State(Early(Submitting([ACCEPT_REQ], 1, false), 0, [], map[], []), [], []))
  {
  }

  lemma {:induction false} DemoAccepts() returns (acts: seq<Action>)
    ensures Reached(DEMO, acts, State(Early(LoopHead, 1, [], map[SOCKET := 0], [[]]), [],
                                      [Completion(AcceptSqe(), SOCKET)]))
    ensures NeverSeesEmpty(acts)
  {
    acts := [];
    DemoStarts();
    hide Reached;
    var s := State(Early(Submitting([ACCEPT_REQ], 1, false), 0, [], map[], []), [], []);
    Submits(DEMO, acts, s, ACCEPT_REQ, [], AcceptSqe(), [AcceptSqe()]);
    acts := acts + [Acquire, Publish];
    Returns(DEMO, acts, State(Early(Submitting([], 1, false), 0, [], map[], []), [AcceptSqe()], []));
    acts := acts + [Return];
    Consumes(DEMO, acts, State(Early(LoopHead, 1, [], map[], []), [AcceptSqe()], []), AcceptSqe(), [], [AcceptSqe()]);
    acts := acts + [Consume];
    var k := Early(LoopHead, 1, [AcceptSqe()], map[], []);
    assert k.recvd + [[]] == [[]];
    assert Perform(DEMO, k, 0, SOCKET, []) == Early(LoopHead, 1, [], map[SOCKET := 0], [[]]);
    Completes(DEMO, acts, State(k, [], []), 0, SOCKET);
    acts := acts + [Complete(0, SOCKET, [])];
  }

  lemma {:induction false} DemoAccepted()
    ensures Dispatch(DEMO, Early(Handling(Completion(AcceptSqe(), SOCKET)), 1, [], map[SOCKET := 0], [[]]), CLIENT)
            == Served(RecvFromClient, Submitting([CLIENT] + [ACCEPT_REQ], 2, false), 1, [], map[SOCKET := 0])
  {
    var k := Early(Handling(Completion(AcceptSqe(), SOCKET)), 1, [], map[SOCKET := 0], [[]]);
    var k' := HandleAccept(DEMO, k, ACCEPT_REQ, SOCKET, CLIENT);
    assert k'.ops[CLIENT].buf == ClientBuf();
    assert k'.pc.todo == [CLIENT] + [ACCEPT_REQ];
    assert k'.tracked == [CLIENT];
  }

  lemma {:induction false} DemoServes() returns (acts: seq<Action>)
    ensures Reached(DEMO, acts, State(Served(RecvFromClient, LoopHead, 3, [], map[SOCKET := 0]),
                                      [RecvSqe(), AcceptSqe()], []))
    ensures NeverSeesEmpty(acts)
  {
    acts := DemoAccepts();
    hide Reached;
    var accepted := Completion(AcceptSqe(), SOCKET);
    Services(DEMO, acts, State(Early(LoopHead, 1, [], map[SOCKET := 0], [[]]), [], [accepted]), accepted, CLIENT);
    acts := acts + [TakeCqe, Handle(CLIENT)];
    var k := Served(RecvFromClient, Submitting([CLIENT] + [ACCEPT_REQ], 2, false), 1, [], map[SOCKET := 0]);
    DemoAccepted();
    Submits(DEMO, acts, State(k, [], []), CLIENT, [ACCEPT_REQ], RecvSqe(), [RecvSqe()]);
    acts := acts + [Acquire, Publish];
    var k1 := Served(RecvFromClient, Submitting([ACCEPT_REQ], 2, false), 1, [], map[SOCKET := 0]);
    assert [ACCEPT_REQ] + [] == [ACCEPT_REQ];
    Submits(DEMO, acts, State(k1, [RecvSqe()], []), ACCEPT_REQ, [], AcceptSqe(), [RecvSqe(), AcceptSqe()]);
    acts := acts + [Acquire, Publish];
    var k2 := Served(RecvFromClient, Submitting([], 2, false), 1, [], map[SOCKET := 0]);
    Returns(DEMO, acts, State(k2, [RecvSqe(), AcceptSqe()], []));
    acts := acts + [Return];
  }

  lemma {:induction false} DemoHangsUp() returns (acts: seq<Action>)
    ensures Reached(DEMO, acts, State(Served(RecvFromClient, LoopHead, 3, [], map[SOCKET := 0]), [AcceptSqe()],
                                      [Completion(RecvSqe(), 0)]))
    ensures NeverSeesEmpty(acts)
  {
    acts := DemoServes();
    hide Reached;
    var k := Served(RecvFromClient, LoopHead, 3, [], map[SOCKET := 0]);
    Consumes(DEMO, acts, State(k, [RecvSqe(), AcceptSqe()], []), RecvSqe(), [AcceptSqe()], [RecvSqe()]);
    acts := acts + [Consume];
    var k1 := Served(RecvFromClient, LoopHead, 3, [RecvSqe()], map[SOCKET := 0]);
    var none: seq<Byte> := [];
    assert none + none == none;
    assert [] + ClientBuf()[0..] == ClientBuf();
    assert Perform(DEMO, k1, 0, 0, []) == k;
    Completes(DEMO, acts, State(k1, [AcceptSqe()], []), 0, 0);
    acts := acts + [Complete(0, 0, [])];
  }

  lemma {:induction false} DemoCloses() returns (acts: seq<Action>)
    ensures Reached(DEMO, acts, State(Served(CloseConnection, LoopHead, 4, [], map[SOCKET := 0]),
                                      [AcceptSqe(), CloseSqe()], []))
    ensures NeverSeesEmpty(acts)
  {
    acts := DemoHangsUp();
    hide Reached;
    var eof := Completion(RecvSqe(), 0);
    var k := Served(RecvFromClient, LoopHead, 3, [], map[SOCKET := 0]);
    Services(DEMO, acts, State(k, [AcceptSqe()], [eof]), eof, 11);
    acts := acts + [TakeCqe, Handle(11)];
    var k1 := Served(CloseConnection, Submitting([CLIENT], 1, false), 3, [], map[SOCKET := 0]);
    assert Dispatch(DEMO, k.(pc := Handling(eof)), 11) == k1;
    assert [CLIENT] + [] == [CLIENT];
    Submits(DEMO, acts, State(k1, [AcceptSqe()], []), CLIENT, [], CloseSqe(), [AcceptSqe(), CloseSqe()]);
    acts := acts + [Acquire, Publish];
    var k2 := Served(CloseConnection, Submitting([], 1, false), 3, [], map[SOCKET := 0]);
    Returns(DEMO, acts, State(k2, [AcceptSqe(), CloseSqe()], []));
    acts := acts + [Return];
  }

  // The loop ends with nothing in the completion queue and the CLOSE not yet read.
  lemma {:induction false} DemoStops() returns (acts: seq<Action>)
    ensures Reached(DEMO, acts, State(Served(CloseConnection, Stopped, 4, [], map[SOCKET := 0]),
                                      [AcceptSqe(), CloseSqe()], []))
    ensures NeverSeesEmpty(acts)
  {
    acts := DemoCloses();
    hide Reached;
    var s := State(Served(CloseConnection, LoopHead, 4, [], map[SOCKET := 0]), [AcceptSqe(), CloseSqe()], []);
    Then(DEMO, acts, s, Stop, s.(k := s.k.(pc := Stopped)));
    acts := acts + [Stop];
  }

  // The kernel carries the CLOSE out before the ring is freed, and the assertion fires.
  lemma {:induction false} QueuesCanFail() returns (acts: seq<Action>)
    ensures Legal(DEMO, acts) && After(DEMO, acts).k.pc.RingFreed? && NeverSeesEmpty(acts)
    ensures !Succeeds(After(DEMO, acts).k)
  {
    acts := DemoStops();
    hide Legal, After, CloseAll, TrackedFds, NoDeadClose, Succeeds;
    assert !Settled(DEMO, After(DEMO, acts)) by {
      assert CloseSqe() in After(DEMO, acts).sq;
    }
    var ks := DeadCloseAhead(DEMO, acts);
    EndsFreed(DEMO, acts + ks);
    acts := acts + ks + [FreeRing];
  }

  lemma {:induction false} EndsFreed(cfg: Config, acts: seq<Action>)
    requires Legal(cfg, acts + [FreeRing])
    ensures After(cfg, acts + [FreeRing]).k.pc.RingFreed?
  {
    assert (acts + [FreeRing])[..|acts|] == acts;
  }
}
