/** The bound of NeverBusy is exact: in both modes and for every ring size there is a run
    in which one live op more than the ring has entries makes a submission fail. The
    clients connect while the kernel keeps up; then all of them answer before it reads
    anything more. */
module CapacityBound {
  import opened IouTypes
  import opened ServerCore
  import opened Protocol
  import opened ProtocolInvariant
  import opened ProtocolSteps
  import opened ProtocolHandlers
  import opened ProtocolTheorems
  import opened RunBuilder

  // Messages are not empty, and no timer is set.
  predicate Plain(cfg: Config) { cfg.msgSize > 0 && !cfg.benchmarking }

  // A run in which at most one op more is live than the ring has entries.
  ghost predicate Tight(cfg: Config, acts: seq<Action>) { Ran(cfg, cfg.ringSize + 1, acts) }

  ghost function At(cfg: Config, acts: seq<Action>): State
    requires Tight(cfg, acts)
  {
    Now(cfg, cfg.ringSize + 1, acts)
  }

  // No client has hung up.
  ghost predicate NoneClosing(k: Core) {
    !k.timerArmed && forall a :: a in k.ops ==> !k.ops[a].tag.CloseConnection? && !k.ops[a].tag.TimerExpired?
  }

  lemma {:induction false} PerformKeepsClients(cfg: Config, k: Core, i: nat, res: int, data: seq<Byte>)
    requires CanPerform(cfg, k, i, res, data) && NoneClosing(k)
    ensures NoneClosing(Perform(cfg, k, i, res, data))
  {
  }

  // -------------------------------------------------------------------------
  // A client connects, a client's request completes.

  // Somebody connects; its RECV and the next ACCEPT are about to be submitted.
  lemma {:induction false} Connect(cfg: Config, acts: seq<Action>) returns (acts': seq<Action>)
    requires Tight(cfg, acts) && At(cfg, acts).k.pc.LoopHead? && At(cfg, acts).sq == [] && At(cfg, acts).cq == []
    requires NoneClosing(At(cfg, acts).k) && |At(cfg, acts).k.tracked| < cfg.ringSize
    ensures Tight(cfg, acts')
    ensures var k, s' := At(cfg, acts).k, At(cfg, acts');
            && s'.sq == [] && s'.cq == [] && NoneClosing(s'.k) && |s'.k.tracked| == |k.tracked| + 1
            && s'.k.pc.Submitting? && |s'.k.pc.todo| == 2 && !s'.k.pc.acquired && s'.k.pc.todo[1] == ACCEPT_REQ
  {
    hide Ran, Full;
    var s := At(cfg, acts);
    var i := InFlight(cfg, cfg.ringSize + 1, acts, ACCEPT_REQ);
    var fd := UnusedFd(cfg, s.k);
    Sound(cfg, cfg.ringSize + 1, acts);
    AcceptRequest(cfg, s, i);
    PerformKeepsClients(cfg, s.k, i, fd, []);
    Finished(cfg, cfg.ringSize + 1, acts, i, fd, []);
    var acts1 := acts + [Complete(i, fd, [])];
    var s1, block := At(cfg, acts1), Block(At(cfg, acts1).k);
    RanLive(cfg, cfg.ringSize + 1, acts1);
    AcceptedDispatch(cfg, s1, fd, block);
    acts' := Take(cfg, cfg.ringSize + 1, acts1, block);
  }

  lemma {:induction false} AcceptedDispatch(cfg: Config, s: State, fd: nat, block: Addr)
    requires s.k.pc.LoopHead? && |s.cq| == 1 && s.cq[0].res == fd && s.cq[0].req.userData == ACCEPT_REQ
    requires ACCEPT_REQ in s.k.ops && s.k.ops[ACCEPT_REQ].tag.AcceptedConnection?
    requires NoneClosing(s.k) && Allocatable(s.k, block)
    ensures var k' := Dispatch(cfg, s.k.(pc := Handling(s.cq[0])), block);
            && NoneClosing(k') && |k'.tracked| == |s.k.tracked| + 1 && LiveCount(k') == LiveCount(s.k) + 1
            && k'.pc == Submitting([block, ACCEPT_REQ], 2, false)
  {
  }

  function Message(cfg: Config, r: Sqe): seq<Byte> { if r.opcode.Recv? then seq(cfg.msgSize, _ => 0) else [] }

  lemma {:induction false} Answerable(cfg: Config, s: State, i: nat)
    requires Plain(cfg)
    requires Full(cfg, s) && NoneClosing(s.k)
    requires i < |s.k.flight| && s.k.flight[i].userData != ACCEPT_REQ
    ensures var r := s.k.flight[i];
            && CanPerform(cfg, s.k, i, cfg.msgSize, Message(cfg, r)) && r.userData in s.k.ops
            && (s.k.ops[r.userData].tag.RecvFromClient? || s.k.ops[r.userData].tag.SendToClient?)
  {
    FlightFacts(cfg, s, i);
    hide Unique, Requests, Sockets, Echo, Accounted, Room;
  }

  lemma {:induction false} AnsweredDispatch(cfg: Config, s: State, block: Addr)
    requires Plain(cfg)
    requires s.k.pc.LoopHead? && |s.cq| == 1 && s.cq[0].res == cfg.msgSize && s.cq[0].req.userData in s.k.ops
    requires var tag := s.k.ops[s.cq[0].req.userData].tag; tag.RecvFromClient? || tag.SendToClient?
    requires NoneClosing(s.k)
    ensures var k' := Dispatch(cfg, s.k.(pc := Handling(s.cq[0])), block);
            && NoneClosing(k') && k'.tracked == s.k.tracked && LiveCount(k') == LiveCount(s.k)
            && k'.flight == s.k.flight && k'.pc == Submitting([s.cq[0].req.userData], 1, false)
  {
  }

  lemma {:induction false} PerformKeepsTag(cfg: Config, k: Core, i: nat, res: int, data: seq<Byte>, a: Addr)
    requires CanPerform(cfg, k, i, res, data) && a in k.ops
    ensures a in Perform(cfg, k, i, res, data).ops && Perform(cfg, k, i, res, data).ops[a].tag == k.ops[a].tag
  {
  }

  // A client's RECV or SEND completes in full; its next request is about to be submitted.
  lemma {:induction false} Answer(cfg: Config, acts: seq<Action>, i: nat) returns (acts': seq<Action>)
    requires Plain(cfg)
    requires Tight(cfg, acts) && At(cfg, acts).k.pc.LoopHead? && At(cfg, acts).cq == [] && NoneClosing(At(cfg, acts).k)
    requires i < |At(cfg, acts).k.flight| && At(cfg, acts).k.flight[i].userData != ACCEPT_REQ
    ensures Tight(cfg, acts')
    ensures var s, s' := At(cfg, acts), At(cfg, acts');
            && s'.sq == s.sq && s'.cq == [] && NoneClosing(s'.k) && s'.k.tracked == s.k.tracked
            && |s'.k.flight| == |s.k.flight| - 1
            && s'.k.pc.Submitting? && |s'.k.pc.todo| == 1 && !s'.k.pc.acquired
  {
    hide Ran, Full, CanPerform, Perform;
    var s := At(cfg, acts);
    var r := s.k.flight[i];
    Sound(cfg, cfg.ringSize + 1, acts);
    Answerable(cfg, s, i);
    PerformKeepsClients(cfg, s.k, i, cfg.msgSize, Message(cfg, r));
    PerformKeepsTag(cfg, s.k, i, cfg.msgSize, Message(cfg, r), r.userData);
    Finished(cfg, cfg.ringSize + 1, acts, i, cfg.msgSize, Message(cfg, r));
    var acts1 := acts + [Complete(i, cfg.msgSize, Message(cfg, r))];
    var s1, block := At(cfg, acts1), Block(At(cfg, acts1).k);
    RanLive(cfg, cfg.ringSize + 1, acts1);
    AnsweredDispatch(cfg, s1, block);
    acts' := Take(cfg, cfg.ringSize + 1, acts1, block);
  }

  // -------------------------------------------------------------------------
  // The run.

  // `m` clients have connected and the kernel has read everything.
  lemma {:induction false} Populate(cfg: Config, m: nat) returns (acts: seq<Action>)
    requires Plain(cfg) && 1 <= cfg.ringSize && (m == 0 || 2 <= cfg.ringSize) && m < cfg.ringSize
    ensures Tight(cfg, acts)
    ensures var s := At(cfg, acts);
            s.k.pc.LoopHead? && s.sq == [] && s.cq == [] && NoneClosing(s.k) && |s.k.tracked| == m
  {
    hide Ran, NoneClosing;
    if m == 0 {
      acts := [];
      NothingYet(cfg);
    } else {
      acts := Populate(cfg, m - 1);
      acts := Connect(cfg, acts);
    }
    var before := acts;
    acts := Submit(cfg, cfg.ringSize + 1, acts);
    SameClients(At(cfg, before).k, At(cfg, acts).k);
  }

  lemma {:induction false} NothingYet(cfg: Config)
    requires Plain(cfg)
    ensures Tight(cfg, []) && At(cfg, []) == State(InitCore(cfg), [], []) && NoneClosing(InitCore(cfg))
  {
  }

  // Every client but one has answered, the kernel reads nothing, and the last is refused.
  lemma {:induction false} Fill(cfg: Config, acts: seq<Action>) returns (acts': seq<Action>)
    requires Plain(cfg)
    requires Tight(cfg, acts) && At(cfg, acts).k.pc.LoopHead? && At(cfg, acts).cq == [] && NoneClosing(At(cfg, acts).k)
    requires |At(cfg, acts).k.tracked| == cfg.ringSize && |At(cfg, acts).sq| <= cfg.ringSize
    requires ACCEPT_REQ in Ids(At(cfg, acts).sq)
    ensures Tight(cfg, acts') && At(cfg, acts').k.pc == Exited(RingBusy)
    decreases cfg.ringSize - |At(cfg, acts).sq|
  {
    hide Ran, Full, Ids, NoneClosing;
    var s := At(cfg, acts);
    Sound(cfg, cfg.ringSize + 1, acts);
    SomeoneInFlight(cfg, s);
    var a1 := Answer(cfg, acts, 0);
    if |s.sq| == cfg.ringSize {
      acts' := Refuse(cfg, a1);
    } else {
      var a2 := Push(cfg, cfg.ringSize + 1, a1);
      var a3 := Finish(cfg, cfg.ringSize + 1, a2);
      SameClients(At(cfg, a1).k, At(cfg, a3).k);
      acts' := Fill(cfg, a3);
    }
  }

  lemma {:induction false} SameClients(k: Core, k': Core)
    requires NoneClosing(k) && k'.ops == k.ops && k'.timerArmed == k.timerArmed
    ensures NoneClosing(k')
  {
  }

  lemma {:induction false} SomeoneInFlight(cfg: Config, s: State)
    requires Full(cfg, s) && NoneClosing(s.k) && s.k.pc.LoopHead? && s.cq == [] && |s.k.tracked| == cfg.ringSize
    requires |s.sq| <= cfg.ringSize && ACCEPT_REQ in Ids(s.sq)
    ensures s.k.flight != [] && s.k.flight[0].userData != ACCEPT_REQ
  {
    RequestCount(cfg, s);
    FlightAlone(cfg, s, 0);
  }

  lemma {:induction false} Refuse(cfg: Config, acts: seq<Action>) returns (acts': seq<Action>)
    requires Tight(cfg, acts) && |At(cfg, acts).sq| >= cfg.ringSize
    requires var pc := At(cfg, acts).k.pc; pc.Submitting? && pc.todo != [] && !pc.acquired
    ensures Tight(cfg, acts') && At(cfg, acts').k.pc == Exited(RingBusy)
  {
    hide Ran;
    RanLive(cfg, cfg.ringSize + 1, acts);
    Do(cfg, cfg.ringSize + 1, acts, Acquire);
    acts' := acts + [Acquire];
  }

  lemma {:induction false} Crowd(cfg: Config) returns (acts: seq<Action>)
    requires Plain(cfg) && 1 <= cfg.ringSize
    ensures Tight(cfg, acts) && At(cfg, acts).k.pc == Exited(RingBusy)
  {
    hide Ran, Ids, NoneClosing;
    var a0 := Populate(cfg, cfg.ringSize - 1);
    var a1 := Connect(cfg, a0);
    var a2 := Push(cfg, cfg.ringSize + 1, a1);
    if cfg.ringSize == 1 {
      acts := Refuse(cfg, a2);
    } else {
      var a3 := Push(cfg, cfg.ringSize + 1, a2);
      var a4 := Finish(cfg, cfg.ringSize + 1, a3);
      SameClients(At(cfg, a1).k, At(cfg, a4).k);
      acts := Fill(cfg, a4);
    }
  }

  // In every such configuration there is a run that never has more than ring_size + 1
  // ops live and ends with -EBUSY: NeverBusy's bound cannot be raised.
  lemma {:induction false} OneMoreIsTooMany(cfg: Config) returns (acts: seq<Action>)
    requires Plain(cfg)
    ensures Legal(cfg, acts) && NeverMoreThan(cfg, acts, cfg.ringSize + 1) && SeesTruly(cfg, acts)
    ensures After(cfg, acts).k.pc == Exited(RingBusy)
  {
    if cfg.ringSize == 0 {
      NothingYet(cfg);
      hide Ran;
      acts := Refuse(cfg, []);
    } else {
      hide Ran;
      acts := Crowd(cfg);
    }
    Unpack(cfg, acts);
  }

  lemma {:induction false} Unpack(cfg: Config, acts: seq<Action>)
    requires Tight(cfg, acts)
    ensures Legal(cfg, acts) && NeverMoreThan(cfg, acts, cfg.ringSize + 1) && SeesTruly(cfg, acts)
    ensures At(cfg, acts) == After(cfg, acts)
  {
  }
}
