/** In every configuration the server can serve, whatever one message says: a client
    connects, the message comes back to it, it hangs up, its op is freed, and the timer,
    if there is one, expires. Every handler goes on at least once, and none exits. */
module LifeCycle {
  import opened IouTypes
  import opened ServerCore
  import opened Protocol
  import opened ProtocolInvariant
  import opened ProtocolSteps
  import opened ProtocolHandlers
  import opened ProtocolTheorems
  import opened RunBuilder

  // Room for two submissions in a row, and messages that are not empty.
  predicate Serviceable(cfg: Config) { cfg.ringSize >= 2 && cfg.msgSize > 0 }

  // The accept request, the timer, and one client.
  const CAP: nat := 3

  // The server waits and the kernel has read everything.
  ghost predicate Waits(cfg: Config, acts: seq<Action>) {
    && Ran(cfg, CAP, acts)
    && var s := Now(cfg, CAP, acts);
    && s.k.pc.LoopHead? && s.sq == [] && s.cq == []
  }

  ghost function At(cfg: Config, acts: seq<Action>): Core
    requires Waits(cfg, acts)
  {
    Now(cfg, CAP, acts).k
  }

  // Where the first client's life has got to.
  datatype Life = Life(clients: seq<Addr>, tag: Tag, recvd: seq<seq<Byte>>, sent: seq<seq<Byte>>,
                       accepted: nat, closed: nat)

  ghost predicate Lived(k: Core, life: Life) {
    && k.tracked == life.clients && k.recvd == life.recvd && k.sent == life.sent
    && k.accepted == life.accepted && k.closed == life.closed
    && forall a :: a in life.clients ==> a in k.ops && k.ops[a].tag == life.tag
  }

  // A request is carried out, its completion handled, and what the handler submits is
  // handed over.
  lemma {:induction false} Turn(cfg: Config, acts: seq<Action>, i: nat, res: int, data: seq<Byte>)
    returns (acts': seq<Action>, k: Core, block: Addr)
    requires Waits(cfg, acts) && Serviceable(cfg) && CanPerform(cfg, At(cfg, acts), i, res, data)
    requires At(cfg, acts).flight[i].opcode.Accept? ==> At(cfg, acts).tracked == []
    requires !Rejected(cfg, Completion(At(cfg, acts).flight[i], res))
    ensures Waits(cfg, acts') && Allocatable(k, block)
    ensures k == Perform(cfg, At(cfg, acts), i, res, data).(pc := k.pc)
    ensures k.pc == Handling(Completion(At(cfg, acts).flight[i], res))
    ensures var k' := At(cfg, acts');
            k' == Dispatch(cfg, k, block).(pc := LoopHead, flight := k'.flight, toSubmit := k'.toSubmit)
  {
    Finished(cfg, CAP, acts, i, res, data);
    var acts1 := acts + [Complete(i, res, data)];
    var s1 := Now(cfg, CAP, acts1);
    k := s1.k.(pc := Handling(s1.cq[0]));
    block := Block(k);
    hide Ran, Full, Perform, CanPerform, Rejected, Dispatch;
    Sound(cfg, CAP, acts1);
    RanLive(cfg, CAP, acts1);
    NextEvent(cfg, s1);
    Handled(cfg, s1.k, s1.cq[0], block);
    var acts2 := Take(cfg, CAP, acts1, block);
    acts' := Submit(cfg, CAP, acts2);
  }

  lemma {:induction false} NextEvent(cfg: Config, s: State)
    requires Full(cfg, s) && !s.k.pc.Handling? && s.cq != []
    ensures ReqOk(s.k, s.cq[0].req)
  {
    hide Heap, Unique, Sockets, Echo, Accounted, Room, ReqOk;
    assert s.cq[0] in Events(s);
  }

  // What a handler that goes on leaves to submit, and how many ops are live then.
  lemma {:induction false} Handled(cfg: Config, k: Core, c: Completion, block: Addr)
    requires ReqOk(k, c.req) && !Rejected(cfg, c)
    ensures var h := Dispatch(cfg, k.(pc := Handling(c)), block);
            && h.pc.Submitting? && !h.pc.acquired && |h.pc.todo| <= 2
            && LiveCount(h) <= LiveCount(k) + if c.req.opcode.Accept? then 1 else 0
  {
    Shrinks(k.tracked, c.req.userData);
  }

  lemma {:induction false} Shrinks(q: seq<Addr>, a: Addr)
    ensures |Without(q, a)| <= |q|
  {
    if q != [] && q[0] != a { Shrinks(q[1..], a); }
  }

  // The only client's request, and what it may be answered with.
  lemma {:induction false} ClientRequest(cfg: Config, acts: seq<Action>, a: Addr) returns (i: nat)
    requires Waits(cfg, acts) && At(cfg, acts).tracked == [a] && |At(cfg, acts).recvd| == 1
    ensures var k := At(cfg, acts);
            && i < |k.flight| && a in k.ops && Configured(a, k.ops[a]) == Some(k.flight[i])
            && k.flight[i].userData == a && a !in {NULL, ACCEPT_REQ, TIMER_REQ}
            && ClientOp(cfg, k.ops[a]) && k.ops[a].fd in k.conns && k.conns[k.ops[a].fd] == 0
            && |k.sent| == 1
  {
    hide Ran;
    i := InFlight(cfg, CAP, acts, a);
    Sound(cfg, CAP, acts);
    hide Unique, Requests, Echo, Accounted, Room, UnseenSockets, NoStraySocket;
    FlightFacts(cfg, Now(cfg, CAP, acts), i);
  }

  // -------------------------------------------------------------------------
  // The steps of the client's life.

  lemma {:induction false} Boot(cfg: Config) returns (acts: seq<Action>)
    requires Serviceable(cfg)
    ensures Waits(cfg, acts) && Lived(At(cfg, acts), Life([], AcceptedConnection, [], [], 0, 0))
    ensures At(cfg, acts).timerArmed == cfg.benchmarking && At(cfg, acts).conns == map[]
  {
    Booted(cfg);
    hide Ran;
    acts := Submit(cfg, CAP, []);
  }

  lemma {:induction false} Booted(cfg: Config)
    ensures Ran(cfg, CAP, []) && Now(cfg, CAP, []) == Init(cfg)
  {
  }

  lemma {:induction false} Connects(cfg: Config, acts: seq<Action>) returns (acts': seq<Action>, a: Addr)
    requires Waits(cfg, acts) && Serviceable(cfg)
    requires Lived(At(cfg, acts), Life([], AcceptedConnection, [], [], 0, 0)) && At(cfg, acts).conns == map[]
    ensures Waits(cfg, acts') && Lived(At(cfg, acts'), Life([a], RecvFromClient, [[]], [[]], 1, 0))
    ensures At(cfg, acts').timerArmed == At(cfg, acts).timerArmed && |At(cfg, acts').conns| == 1
  {
    hide Ran, Full;
    var i := InFlight(cfg, CAP, acts, ACCEPT_REQ);
    Sound(cfg, CAP, acts);
    AcceptRequest(cfg, Now(cfg, CAP, acts), i);
    var fd := UnusedFd(cfg, At(cfg, acts));
    var k;
    acts', k, a := Turn(cfg, acts, i, fd, []);
  }

  lemma {:induction false} Extended(x: seq<Byte>, y: seq<Byte>)
    ensures [x][0 := x + y] == [x + y] && [] + y == y && x + [] == x
  {
  }

  lemma {:induction false} Speaks(cfg: Config, acts: seq<Action>, a: Addr, m: seq<Byte>) returns (acts': seq<Action>)
    requires Waits(cfg, acts) && Serviceable(cfg) && |m| == cfg.msgSize
    requires Lived(At(cfg, acts), Life([a], RecvFromClient, [[]], [[]], 1, 0))
    ensures Waits(cfg, acts') && Lived(At(cfg, acts'), Life([a], SendToClient, [m], [[]], 1, 0))
    ensures At(cfg, acts').timerArmed == At(cfg, acts).timerArmed
    ensures At(cfg, acts').conns == At(cfg, acts).conns
  {
    hide Ran;
    var i := ClientRequest(cfg, acts, a);
    var k, block;
    acts', k, block := Turn(cfg, acts, i, cfg.msgSize, m);
    Extended([], m);
  }

  lemma {:induction false} Hears(cfg: Config, acts: seq<Action>, a: Addr, m: seq<Byte>) returns (acts': seq<Action>)
    requires Waits(cfg, acts) && Serviceable(cfg) && |m| == cfg.msgSize
    requires Lived(At(cfg, acts), Life([a], SendToClient, [m], [[]], 1, 0))
    ensures Waits(cfg, acts') && Lived(At(cfg, acts'), Life([a], RecvFromClient, [m], [m], 1, 0))
    ensures At(cfg, acts').timerArmed == At(cfg, acts).timerArmed
    ensures At(cfg, acts').conns == At(cfg, acts).conns
  {
    hide Ran;
    var i := ClientRequest(cfg, acts, a);
    var k, block;
    acts', k, block := Turn(cfg, acts, i, cfg.msgSize, []);
    Matches(cfg, acts');
  }

  // What has been sent back, once as long as what was received, is what was received.
  lemma {:induction false} Matches(cfg: Config, acts: seq<Action>)
    requires Waits(cfg, acts) && |At(cfg, acts).recvd| == 1 == |At(cfg, acts).sent|
    ensures |At(cfg, acts).sent[0]| == |At(cfg, acts).recvd[0]| ==>
              At(cfg, acts).sent[0] == At(cfg, acts).recvd[0]
  {
    EchoesAPrefix(cfg, acts, 0);
  }

  lemma {:induction false} HangsUp(cfg: Config, acts: seq<Action>, a: Addr, m: seq<Byte>) returns (acts': seq<Action>)
    requires Waits(cfg, acts) && Serviceable(cfg)
    requires Lived(At(cfg, acts), Life([a], RecvFromClient, [m], [m], 1, 0))
    ensures Waits(cfg, acts') && Lived(At(cfg, acts'), Life([a], CloseConnection, [m], [m], 1, 0))
    ensures At(cfg, acts').timerArmed == At(cfg, acts).timerArmed
    ensures At(cfg, acts').conns == At(cfg, acts).conns
  {
    hide Ran;
    var i := ClientRequest(cfg, acts, a);
    var k, block;
    acts', k, block := Turn(cfg, acts, i, 0, []);
    Extended(m, []);
  }

  lemma {:induction false} IsFreed(cfg: Config, acts: seq<Action>, a: Addr, m: seq<Byte>) returns (acts': seq<Action>)
    requires Waits(cfg, acts) && Serviceable(cfg)
    requires Lived(At(cfg, acts), Life([a], CloseConnection, [m], [m], 1, 0)) && |At(cfg, acts).conns| == 1
    ensures Waits(cfg, acts') && Lived(At(cfg, acts'), Life([], CloseConnection, [m], [m], 1, 1))
    ensures At(cfg, acts').timerArmed == At(cfg, acts).timerArmed && |At(cfg, acts').conns| == 0
  {
    hide Ran;
    var i := ClientRequest(cfg, acts, a);
    var k, block;
    acts', k, block := Turn(cfg, acts, i, 0, []);
  }

  lemma {:induction false} TimerFires(cfg: Config, acts: seq<Action>, life: Life) returns (acts': seq<Action>)
    requires Waits(cfg, acts) && Serviceable(cfg) && Lived(At(cfg, acts), life) && life.clients == []
    ensures Waits(cfg, acts') && Lived(At(cfg, acts'), life)
    ensures !At(cfg, acts').timerArmed && At(cfg, acts').conns == At(cfg, acts).conns
  {
    hide Ran;
    acts' := acts;
    if At(cfg, acts).timerArmed {
      var i := InFlight(cfg, CAP, acts, TIMER_REQ);
      Sound(cfg, CAP, acts);
      TimerRequest(cfg, Now(cfg, CAP, acts), i);
      var k, block;
      acts', k, block := Turn(cfg, acts, i, -ETIME, []);
    }
  }

  lemma {:induction false} TimerRequest(cfg: Config, s: State, i: nat)
    requires Full(cfg, s) && i < |s.k.flight| && s.k.flight[i].userData == TIMER_REQ && s.k.timerArmed
    ensures s.k.flight[i].opcode.Timeout?
    ensures TIMER_REQ in s.k.ops && s.k.ops[TIMER_REQ].tag.TimerExpired?
  {
    FlightFacts(cfg, s, i);
  }

  // Everything the only client sent came back, and nothing of the client is left.
  ghost predicate Served(k: Core, m: seq<Byte>) {
    && k.recvd == [m] && k.sent == [m] && k.accepted == 1 && k.closed == 1
    && k.tracked == [] && k.conns == map[] && !k.timerArmed
  }

  // For every message there is such a run, in both modes, with the benchmark or without.
  lemma {:induction false} WholeLife(cfg: Config, m: seq<Byte>) returns (acts: seq<Action>)
    requires Serviceable(cfg) && |m| == cfg.msgSize
    ensures Legal(cfg, acts) && NeverMoreThan(cfg, acts, CAP) && SeesTruly(cfg, acts)
    ensures var s := After(cfg, acts);
            s.k.pc.LoopHead? && s.sq == [] && s.cq == [] && Served(s.k, m)
  {
    hide Ran, Lived;
    acts := Boot(cfg);
    var a;
    acts, a := Connects(cfg, acts);
    acts := Speaks(cfg, acts, a, m);
    acts := Hears(cfg, acts, a, m);
    acts := HangsUp(cfg, acts, a, m);
    acts := IsFreed(cfg, acts, a, m);
    acts := TimerFires(cfg, acts, Life([], CloseConnection, [m], [m], 1, 1));
    Unpack(cfg, acts, Life([], CloseConnection, [m], [m], 1, 1));
  }

  lemma {:induction false} Unpack(cfg: Config, acts: seq<Action>, life: Life)
    requires Waits(cfg, acts) && Lived(At(cfg, acts), life) && |At(cfg, acts).conns| == 0
    ensures Legal(cfg, acts) && NeverMoreThan(cfg, acts, CAP) && SeesTruly(cfg, acts)
    ensures After(cfg, acts) == Now(cfg, CAP, acts) && After(cfg, acts).k.conns == map[]
    ensures var k := After(cfg, acts).k;
            && k.tracked == life.clients && k.recvd == life.recvd && k.sent == life.sent
            && k.accepted == life.accepted && k.closed == life.closed
  {
  }
}
