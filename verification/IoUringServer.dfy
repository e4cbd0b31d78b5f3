/** The io_uring server as a program: its handlers update shared memory in place, and
    the kernel may take any number of steps between any two accesses to the rings, before
    each handler, and until the ring is freed. Every
    method records what was done in `trace`; the class invariant says that the trace is
    a run of RingServer ending in the object's state, so each theorem about runs holds
    of the program. */
module IoUringServer {
  import opened IouTypes
  import opened Wrapping
  import opened SubmissionRing
  import opened CompletionRing
  import opened ServerCore
  import opened RingServer
  import opened RingQueues
  import opened MemTracker
  import opened ServerTrace
  import P = Protocol
  import T = ProtocolTheorems
  import opened Shutdown

  class Server {
    const cfg: Config
    const g: Geometry
    const sq: SubmissionQueue
    const cq: CompletionQueue
    const tracker: Tracker               // mem_allocs_tracker

    var k: Core                          // heap, counters, and the kernel's tables
    var memTracker: map<Addr, Node>      // op->mem_tracker
    var stage: Stage
    var reader: Reader
    var backlog: seq<Completion>
    ghost var trace: seq<RingAction>

    ghost function View(): System
      reads `k, `stage, `reader, `backlog, sq, sq.sqes, sq.slots, cq, cq.cqes
    {
      System(k, sq.View(), stage, cq.View(), reader, backlog)
    }

    // The list's nodes and the client ops point at each other, one to one.
    ghost predicate ListMatches(tracked: seq<Addr>)
      reads `memTracker, tracker, tracker.nodes
    {
      && tracker.Valid() && |tracker.nodes| == |tracked|
      && forall i :: 0 <= i < |tracked| ==>
           && tracker.nodes[i].allocatedOp == tracked[i]
           && tracked[i] in memTracker && memTracker[tracked[i]] == tracker.nodes[i]
    }

    // Valid, but for the trace.
    ghost predicate Consistent()
      reads `k, `memTracker, tracker, tracker.nodes
    {
      && sq.bits == g.sqBits && sq.ringSize == cfg.ringSize && cq.bits == g.cqBits
      && sq.sqes.Length == Pow2(g.sqBits) && sq.slots.Length == Pow2(g.sqBits) && cq.cqes.Length == Pow2(g.cqBits)
      && ListMatches(k.tracked)
    }

    ghost predicate Valid()
      reads this, sq, sq.sqes, sq.slots, cq, cq.cqes, tracker, tracker.nodes
    {
      Consistent() && Reaches(cfg, g, trace, View())
    }

    constructor (cfg: Config, g: Geometry)
      requires Fits(cfg, g)
      ensures Valid() && this.cfg == cfg && this.g == g && trace == []
      ensures View() == Init(cfg, g)
    {
      this.cfg, this.g := cfg, g;
      sq := new SubmissionQueue(g.sqBits, cfg.ringSize);
      cq := new CompletionQueue(g.cqBits);
      tracker := new Tracker();
      k := P.InitCore(cfg);
      memTracker, stage, reader, backlog := map[], Idle, Resting, [];
      trace := [];
    }

    // -----------------------------------------------------------------------
    // The kernel.

    method KernelConsume()
      requires Valid() && Enabled(cfg, g, View(), Consume)
      modifies `k, `trace, sq`head
      ensures Valid() && View() == Step(cfg, g, old(View()), Consume)
      ensures ServerPart(trace) == ServerPart(old(trace)) && trace == old(trace) + [Consume]
      ensures KernelMoved(old(View()), View())
    {
      hide Reaches, ListMatches, Dispatch, ReadEffect, SubmitEffect, PostEffect, Perform, CanPerform, Pow2, BitAnd,
        KernelReads, KernelMoved;
      ghost var s := View();
      KernelStepMoves(cfg, g, s, Consume);
      var e := sq.KernelConsume();
      k := P.AfterConsume(k, e);
      assert View() == Step(cfg, g, s, Consume);
      Extends(cfg, g, trace, s, Consume);
      trace := trace + [Consume];
    }

    // Into the ring, or behind those that are waiting for room.
    method KernelDeliver(c: Completion)
      requires cq.bits == g.cqBits && cq.cqes.Length == Pow2(g.cqBits)
      modifies `backlog, cq`tail, cq.cqes
      ensures View() == PostEffect(g, old(View()), c)
    {
      hide Post, Pow2;
      if backlog == [] && Sub32(cq.tail, cq.head) < cq.cqes.Length {
        cq.KernelPost(c);
      } else {
        backlog := backlog + [c];
      }
    }

    method KernelComplete(i: nat, res: int, data: seq<Byte>)
      requires Valid() && Enabled(cfg, g, View(), Complete(i, res, data))
      modifies `k, `backlog, `trace, cq`tail, cq.cqes
      ensures Valid() && View() == Step(cfg, g, old(View()), Complete(i, res, data))
      ensures ServerPart(trace) == ServerPart(old(trace)) && trace == old(trace) + [Complete(i, res, data)]
      ensures KernelMoved(old(View()), View())
    {
      hide Reaches, ListMatches, Dispatch, ReadEffect, SubmitEffect, PostEffect, Perform, Pow2, KernelReads, OpenFor,
        KernelMoved;
      ghost var s := View();
      PerformMoves(cfg, k, i, res, data);
      KernelStepMoves(cfg, g, s, Complete(i, res, data));
      var c := Completion(k.flight[i], res);
      k := Perform(cfg, k, i, res, data);
      KernelDeliver(c);
      assert View() == Step(cfg, g, s, Complete(i, res, data));
      Extends(cfg, g, trace, s, Complete(i, res, data));
      trace := trace + [Complete(i, res, data)];
    }

    method KernelFlush()
      requires Valid() && Enabled(cfg, g, View(), Flush)
      modifies `backlog, `trace, cq`tail, cq.cqes
      ensures Valid() && View() == Step(cfg, g, old(View()), Flush)
      ensures ServerPart(trace) == ServerPart(old(trace)) && trace == old(trace) + [Flush]
      ensures KernelMoved(old(View()), View())
    {
      hide Reaches, ListMatches, Dispatch, ReadEffect, SubmitEffect, PostEffect, Perform, CanPerform, Post, Pow2,
        BitAnd, KernelReads, KernelMoved;
      ghost var s := View();
      KernelStepMoves(cfg, g, s, Flush);
      cq.KernelPost(backlog[0]);
      backlog := backlog[1..];
      assert View() == Step(cfg, g, s, Flush);
      Extends(cfg, g, trace, s, Flush);
      trace := trace + [Flush];
    }

    // One kernel step, of any kind that is possible, or none.
    method KernelStep()
      requires Valid() && P.Running(k)
      modifies `k, `backlog, `trace, sq`head, cq`tail, cq.cqes
      ensures Valid() && P.Running(k) && KernelMoved(old(View()), View())
      ensures ServerPart(trace) == ServerPart(old(trace)) && Continues(old(trace), trace)
    {
      hide Reaches, ListMatches, CanPerform, Perform, Step, Pow2, SameServer;
      KernelMovedSelf(View());
      var act: RingAction := *;
      if act.Consume? && Sub32(sq.tail, sq.head) > 0 && (cfg.sqpoll || (k.pc.Entering? && k.pc.left > 0)) {
        KernelConsume();
      } else if act.Complete? && CanPerform(cfg, k, act.i, act.res, act.data) {
        KernelComplete(act.i, act.res, act.data);
      } else if act.Flush? && backlog != [] && Sub32(cq.tail, cq.head) < cq.cqes.Length {
        KernelFlush();
      }
    }

    // Any number of kernel steps.
    method Interfere()
      requires Valid() && P.Running(k)
      modifies `k, `backlog, `trace, sq`head, cq`tail, cq.cqes
      ensures Valid() && P.Running(k) && KernelMoved(old(View()), View())
      ensures ServerPart(trace) == ServerPart(old(trace)) && Continues(old(trace), trace)
    {
      hide Reaches, ListMatches, KernelMoved, SameServer, P.Running, ServerPart, Continues;
      ghost var s := View();
      KernelMovedSelf(s);
      ContinuesSelf(trace);
      var n: nat := *;
      while n > 0
        invariant Valid() && P.Running(k) && KernelMoved(s, View())
        invariant ServerPart(trace) == ServerPart(old(trace)) && Continues(old(trace), trace)
      {
        ghost var t, before := View(), trace;
        KernelStep();
        KernelMovedTransitive(s, t, View());
        ContinuesTransitive(old(trace), before, trace);
        n := n - 1;
      }
    }

    // -----------------------------------------------------------------------
    // iou_config_and_submit, one store at a time.

    ghost predicate Submitting(a: Addr)
      reads `k
    {
      k.pc.Submitting? && k.pc.todo != [] && k.pc.todo[0] == a && a in k.ops
    }

    method AcquireStep(ghost a: Addr) returns (acquired: Option<(uint32, nat)>)
      requires Valid() && Submitting(a) && stage.Idle?
      modifies `k, `stage, `trace, sq.sqes
      ensures Valid() && SameServer(old(View()), View())
      ensures ServerPart(trace) == ServerPart(old(trace)) + [SubmitStep] && sq.tail == old(sq.tail)
      ensures acquired.None? <==> old(Full(cfg.ringSize, sq.View()))
      ensures acquired.None? ==> k.pc == Exited(RingBusy)
      ensures acquired.None? ==> stage.Idle?
      ensures acquired.Some? ==> acquired.value.0 == old(sq.tail)
      ensures acquired.Some? ==>
        && k == old(k).(pc := old(k.pc).(acquired := true))
        && stage == Zeroed(acquired.value.0, acquired.value.1) && acquired.value.1 < sq.sqes.Length
    {
      hide Reaches, ListMatches, ServerPart, SameServer, ProducerStep, Pow2, Add32, Full;
      ghost var s := View();
      acquired := sq.AcquireSqe();
      k := P.AfterAcquire(cfg, k, acquired.None?);
      stage := if acquired.None? then Idle else Zeroed(acquired.value.0, acquired.value.1);
      assert View() == SubmitEffect(cfg, g, s);
      SubmitTick(cfg, g, trace, s);
      trace := trace + [SubmitStep];
    }

    method StoreUserDataStep(t: uint32, index: nat, a: Addr)
      requires Valid() && Submitting(a) && stage == Zeroed(t, index) && index < sq.sqes.Length
      modifies `stage, `trace, sq.sqes
      ensures Valid() && SameServer(old(View()), View())
      ensures ServerPart(trace) == ServerPart(old(trace)) + [SubmitStep]
      ensures stage == Owned(t, index)
    {
      hide Reaches, ListMatches, ServerPart, SameServer, ProducerStep, Pow2, Add32, Full;
      ghost var s := View();
      sq.StoreUserData(t, index, a);
      stage := Owned(t, index);
      assert View() == SubmitEffect(cfg, g, s);
      SubmitTick(cfg, g, trace, s);
      trace := trace + [SubmitStep];
    }

    method PrepareStep(t: uint32, index: nat, a: Addr) returns (known: bool)
      requires Valid() && Submitting(a) && stage == Owned(t, index) && index < sq.sqes.Length
      modifies `k, `stage, `trace, sq.sqes
      ensures Valid() && SameServer(old(View()), View())
      ensures ServerPart(trace) == ServerPart(old(trace)) + [SubmitStep]
      ensures known ==> k == old(k) && stage == Filled(t, index)
      ensures !known ==> k.pc == Exited(BadTag) && stage.Idle?
    {
      hide Reaches, ListMatches, ServerPart, SameServer, ProducerStep, Pow2, Add32, Full;
      ghost var s := View();
      known := sq.PrepareSqe(t, index, a, k.ops[a]);
      stage := if known then Filled(t, index) else Idle;
      k := if known then k else Exit(k, BadTag);
      assert View() == SubmitEffect(cfg, g, s);
      SubmitTick(cfg, g, trace, s);
      trace := trace + [SubmitStep];
    }

    method StoreIndexStep(t: uint32, index: nat, ghost a: Addr)
      requires Valid() && Submitting(a) && stage == Filled(t, index) && index < sq.sqes.Length
      modifies `stage, `trace, sq.slots
      ensures Valid() && SameServer(old(View()), View())
      ensures ServerPart(trace) == ServerPart(old(trace)) + [SubmitStep]
      ensures stage == Indexed(t, index)
    {
      hide Reaches, ListMatches, ServerPart, SameServer, ProducerStep, Pow2, Add32, Full;
      ghost var s := View();
      sq.StoreIndex(t, index);
      stage := Indexed(t, index);
      assert View() == SubmitEffect(cfg, g, s);
      SubmitTick(cfg, g, trace, s);
      trace := trace + [SubmitStep];
    }

    method AdvanceTailStep(t: uint32, index: nat, ghost a: Addr)
      requires Valid() && Submitting(a) && stage == Indexed(t, index)
      modifies `k, `stage, `trace, sq`tail
      ensures Valid() && SameServer(old(View()), View())
      ensures ServerPart(trace) == ServerPart(old(trace)) + [SubmitStep]
      ensures stage == Idle && k.pc == Pc.Submitting(old(k.pc.todo)[1..], old(k.pc.ret), false)
      ensures sq.tail == Add32(t, 1)
    {
      hide Reaches, ListMatches, ServerPart, SameServer, ProducerStep, Pow2, Add32, Full;
      ghost var s := View();
      sq.AdvanceTail(t, index);
      stage := Idle;
      k := k.(pc := Pc.Submitting(k.pc.todo[1..], k.pc.ret, false));
      assert View() == SubmitEffect(cfg, g, s);
      SubmitTick(cfg, g, trace, s);
      trace := trace + [SubmitStep];
    }

    // iou_submit_sqe
    method SubmitSqe(t: uint32, index: nat, ghost a: Addr)
      requires Valid() && Submitting(a) && stage == Filled(t, index) && index < sq.sqes.Length
      modifies `k, `stage, `backlog, `trace, sq, sq.slots, cq`tail, cq.cqes
      ensures Valid() && SameServer(old(View()), View())
      ensures ServerPart(trace) == ServerPart(old(trace)) + [SubmitStep, SubmitStep]
      ensures stage == Idle && k.pc == Pc.Submitting(old(k.pc.todo)[1..], old(k.pc.ret), false)
      ensures sq.tail == Add32(t, 1)
    {
      hide Reaches, SameServer, ServerPart, ListMatches, Pow2, BitAnd, Add32;
      ghost var s0 := View();
      Interfere();
      ghost var s1 := View();
      KernelKeepsSubmission(s0, s1, a);
      StoreIndexStep(t, index, a);
      ghost var s2 := View();
      SameServerTransitive(s0, s1, s2);
      Interfere();
      ghost var s3 := View();
      KernelKeepsSubmission(s2, s3, a);
      AdvanceTailStep(t, index, a);
      SameServerTransitive(s0, s2, s3);
      SameServerTransitive(s0, s3, View());
    }

    // iou_config_and_submit
    method ConfigAndSubmit(a: Addr) returns (rc: int)
      requires Valid() && Submitting(a) && stage.Idle?
      modifies `k, `stage, `backlog, `trace, sq, sq.sqes, sq.slots, cq`tail, cq.cqes
      ensures Valid() && SameServer(old(View()), View()) && stage.Idle?
      ensures rc == 0 || rc == -EBUSY || rc == -EINVAL
      ensures rc == 0 ==>
        && k.pc == Pc.Submitting(old(k.pc.todo)[1..], old(k.pc.ret), false)
        && sq.tail == Add32(old(sq.tail), 1)
        && ServerPart(trace) == ServerPart(old(trace)) + Submission()
      ensures rc == -EBUSY ==>
        k.pc == Exited(RingBusy) && T.LiveCount(old(k)) > cfg.ringSize && T.LiveCount(k) > cfg.ringSize
      ensures rc == -EINVAL ==> k.pc == Exited(BadTag)
    {
      hide Reaches, SameServer, ServerPart, ListMatches, Pow2, BitAnd, Add32;
      ghost var s0 := View();
      Interfere();
      ghost var s1 := View();
      KernelKeepsSubmission(s0, s1, a);
      SameLiveCount(s0, s1);
      RefusedOnlyWhenFull(cfg, g, trace, s1);
      var acquired := AcquireStep(a);
      ghost var s2 := View();
      SameServerTransitive(s0, s1, s2);
      if acquired.None? {
        return -EBUSY;
      }
      var (t, index) := acquired.value;
      Interfere();
      ghost var s3 := View();
      KernelKeepsSubmission(s2, s3, a);
      SameServerTransitive(s0, s2, s3);
      rc := FillAndSubmit(t, index, a);
      SameServerTransitive(s0, s3, View());
    }

    // The rest of iou_config_and_submit once an entry is acquired.
    method FillAndSubmit(t: uint32, index: nat, a: Addr) returns (rc: int)
      requires Valid() && Submitting(a) && stage == Zeroed(t, index) && index < sq.sqes.Length
      modifies `k, `stage, `backlog, `trace, sq, sq.sqes, sq.slots, cq`tail, cq.cqes
      ensures Valid() && SameServer(old(View()), View()) && stage.Idle?
      ensures rc == 0 || rc == -EINVAL
      ensures rc == 0 ==>
        && k.pc == Pc.Submitting(old(k.pc.todo)[1..], old(k.pc.ret), false)
        && sq.tail == Add32(t, 1)
        && ServerPart(trace) == ServerPart(old(trace)) + [SubmitStep, SubmitStep, SubmitStep, SubmitStep]
      ensures rc == -EINVAL ==> k.pc == Exited(BadTag)
    {
      hide Reaches, SameServer, ServerPart, ListMatches, Pow2, BitAnd, Add32;
      ghost var s0 := View();
      StoreUserDataStep(t, index, a);
      ghost var s1 := View();
      Interfere();
      ghost var s2 := View();
      KernelKeepsSubmission(s1, s2, a);
      SameServerTransitive(s0, s1, s2);
      var known := PrepareStep(t, index, a);
      SameServerTransitive(s0, s2, View());
      if !known {
        return -EINVAL;
      }
      ghost var s3 := View();
      SubmitSqe(t, index, a);
      SameServerTransitive(s0, s3, View());
      return 0;
    }

    // -----------------------------------------------------------------------
    // The CQE handlers. Each returns the number of entries it submitted.
    ghost predicate AtEvent(a: Addr, result: int)
      reads `k, `stage, `reader
    {
      && k.pc.Handling? && k.pc.event.req.userData == a && k.pc.event.res == result
      && a in k.ops && stage.Idle? && reader.Resting?
    }

    // The handler does not accept the result.
    method Unexpected(ghost block: Addr) returns (r: Outcome)
      requires Consistent()
      requires Reaches(cfg, g, trace + [Handle(block)], View().(k := Exit(k, UnexpectedResult)))
      modifies `k, `trace
      ensures Valid() && k == Exit(old(k), UnexpectedResult) && r == ExitCalled
    {
      hide Reaches, ListMatches;
      k := Exit(k, UnexpectedResult);
      trace := trace + [Handle(block)];
      return ExitCalled;
    }

    // The submission that ends a handler returning `count`.
    method SubmitLast(a: Addr, count: nat) returns (r: Outcome)
      requires Valid() && k.pc == Pc.Submitting([a], count, false) && a in k.ops && stage.Idle?
      modifies `k, `stage, `backlog, `trace, sq, sq.sqes, sq.slots, cq`tail, cq.cqes
      ensures Valid() && SameServer(old(View()), View()) && stage.Idle?
      ensures r.ExitCalled? <==> k.pc.Exited?
      ensures r.ExitCalled? ==> k.pc == Exited(RingBusy) && T.LiveCount(k) > cfg.ringSize
      ensures r.Returned? ==>
        && r.value == count && k.pc == Pc.Submitting([], count, false)
        && sq.tail == Add32(old(sq.tail), 1)
        && ServerPart(trace) == ServerPart(old(trace)) + Submission()
    {
      hide Reaches, SameServer, ServerPart, ListMatches, Pow2, BitAnd, Add32, Submission;
      var rc := ConfigAndSubmit(a);
      if rc != 0 {
        NeverBadTag(cfg, g, trace, View());
        return ExitCalled;
      }
      return Returned(count);
    }

    ghost predicate AtOp(a: Addr)
      reads `k, `stage, `reader
    {
      a in k.ops && k.pc.Handling? && stage.Idle? && reader.Resting?
    }

    // The server about to submit op `a`, which now says `req`.
    ghost function Repurposed(a: Addr, req: Op): System
      reads `k, `stage, `reader, `backlog, sq, sq.sqes, sq.slots, cq, cq.cqes
    {
      View().(k := k.(ops := k.ops[a := req], pc := Pc.Submitting([a], 1, false)))
    }

    // A handler reuses the op it was called for.
    method Resubmit(a: Addr, req: Op, ghost block: Addr) returns (r: Outcome)
      requires Consistent() && AtOp(a)
      requires Reaches(cfg, g, trace + [Handle(block)], Repurposed(a, req))
      requires ServerPart(trace + [Handle(block)]) == ServerPart(trace) + [Handle(block)]
      modifies `k, `stage, `backlog, `trace, sq, sq.sqes, sq.slots, cq`tail, cq.cqes
      ensures Valid() && stage.Idle? && reader.Resting?
      ensures Answered(cfg, false, r, k, block, old(sq.tail), sq.tail, ServerPart(old(trace)), ServerPart(trace))
      ensures k.tracked == old(k.tracked) && (r.Returned? ==> r.value == 1)
      ensures a in k.ops && k.ops[a] == req.(buf := k.ops[a].buf)
    {
      hide Reaches, ServerPart, ListMatches, Pow2, BitAnd, Add32, Submission, SameServer;
      k := k.(ops := k.ops[a := req], pc := Pc.Submitting([a], 1, false));
      trace := trace + [Handle(block)];
      ghost var t := View();
      r := SubmitLast(a, 1);
      SameOp(t, View(), a);
    }

    method HandleCqeRecv(a: Addr, result: int) returns (r: Outcome, ghost block: Addr)
      requires Valid() && AtEvent(a, result) && k.ops[a].tag.RecvFromClient?
      modifies `k, `stage, `backlog, `trace, sq, sq.sqes, sq.slots, cq`tail, cq.cqes
      ensures Valid() && stage.Idle? && reader.Resting?
      ensures Answered(cfg, result != 0 && result != cfg.msgSize, r, k, block,
                       old(sq.tail), sq.tail, ServerPart(old(trace)), ServerPart(trace))
      ensures r.Returned? ==> r.value == 1 && (result == 0 || result == cfg.msgSize) && k.tracked == old(k.tracked)
      ensures r.Returned? ==>
        && a in k.ops && k.ops[a].tag == (if result == 0 then CloseConnection else SendToClient)
        && k.ops[a].busy == (result != 0) && (result != 0 ==> k.ops[a].bufSendLen == result)
    {
      hide Reaches, ServerPart, ListMatches, Pow2, BitAnd, Add32, Submission, Dispatch, SameServer;
      ghost var s := View();
      block := FreeBlock(k);
      HandleTick(cfg, g, trace, s, block);
      DispatchOn(cfg, k, block);
      // first mark the connection as not busy anymore
      Overwrites(k.ops, a, k.ops[a].(busy := false));
      k := k.(ops := k.ops[a := k.ops[a].(busy := false)]);
      if result < 0 {
        r := Unexpected(block);
        return;
      }
      var readBytes: nat := result;
      if readBytes == 0 {
        // close client
        r := PrepCloseClientReq(a, block);
        return;
      } else if readBytes > cfg.msgSize {
        r := Unexpected(block);
        return;
      } else if readBytes < cfg.msgSize {
        r := Unexpected(block);
        return;
      }
      // echo back
      r := Resubmit(a, k.ops[a].(tag := SendToClient, bufSendLen := readBytes, busy := true), block);
    }

    method PrepCloseClientReq(a: Addr, ghost block: Addr) returns (r: Outcome)
      requires Consistent() && AtOp(a)
      requires Reaches(cfg, g, trace + [Handle(block)], Repurposed(a, k.ops[a].(tag := CloseConnection)))
      requires ServerPart(trace + [Handle(block)]) == ServerPart(trace) + [Handle(block)]
      modifies `k, `stage, `backlog, `trace, sq, sq.sqes, sq.slots, cq`tail, cq.cqes
      ensures Valid() && stage.Idle? && reader.Resting?
      ensures Answered(cfg, false, r, k, block, old(sq.tail), sq.tail, ServerPart(old(trace)), ServerPart(trace))
      ensures k.tracked == old(k.tracked) && (r.Returned? ==> r.value == 1)
      ensures a in k.ops && k.ops[a].tag == CloseConnection && k.ops[a].busy == old(k.ops[a].busy)
    {
      hide Reaches, ListMatches, ServerPart, Answered;
      r := Resubmit(a, k.ops[a].(tag := CloseConnection), block);
    }

    method HandleCqeSend(a: Addr, result: int) returns (r: Outcome, ghost block: Addr)
      requires Valid() && AtEvent(a, result) && k.ops[a].tag.SendToClient?
      modifies `k, `stage, `backlog, `trace, sq, sq.sqes, sq.slots, cq`tail, cq.cqes
      ensures Valid() && stage.Idle? && reader.Resting?
      ensures Answered(cfg, result < cfg.msgSize, r, k, block,
                       old(sq.tail), sq.tail, ServerPart(old(trace)), ServerPart(trace))
      ensures r.Returned? ==> r.value == 1 && result >= cfg.msgSize && k.tracked == old(k.tracked)
      ensures r.Returned? ==> a in k.ops && k.ops[a].tag == RecvFromClient && k.ops[a].busy
    {
      hide Reaches, ServerPart, ListMatches, Pow2, BitAnd, Add32, Submission, Dispatch, SameServer;
      ghost var s := View();
      block := FreeBlock(k);
      HandleTick(cfg, g, trace, s, block);
      DispatchOn(cfg, k, block);
      // first mark the connection as not busy anymore
      Overwrites(k.ops, a, k.ops[a].(busy := false));
      k := k.(ops := k.ops[a := k.ops[a].(busy := false)]);
      if result < 0 || result < cfg.msgSize {
        r := Unexpected(block);
        return;
      }
      // wait for more data
      r := Resubmit(a, k.ops[a].(tag := RecvFromClient, busy := true), block);
    }

    method HandleCqeAccept(a: Addr, result: int) returns (r: Outcome, block: Addr)
      requires Valid() && AtEvent(a, result) && k.ops[a].tag.AcceptedConnection?
      modifies `k, `memTracker, `stage, `backlog, `trace, sq, sq.sqes, sq.slots, cq`tail, cq.cqes, tracker,
        tracker.nodes
      ensures Valid() && stage.Idle? && reader.Resting?
      ensures forall n :: n in tracker.nodes ==> n in old(tracker.nodes) || fresh(n)
      ensures Answered(cfg, result < 0, r, k, block, old(sq.tail), sq.tail, ServerPart(old(trace)), ServerPart(trace))
      ensures r.Returned? ==> r.value == 2 && result >= 0
      ensures r.Returned? ==>
        && k.tracked == old(k.tracked) + [block] && old(block !in k.ops) && block in k.ops
        && k.ops[block].tag == RecvFromClient && k.ops[block].fd == result && k.ops[block].busy
    {
      hide Reaches, ServerPart, ListMatches, Pow2, BitAnd, Add32, Submission, Dispatch, SameServer;
      ghost var s := View();
      EventIsKnown(cfg, g, trace, s);
      block :| Allocatable(k, block) by { assert Allocatable(k, FreeBlock(k)); }
      HandleTick(cfg, g, trace, s, block);
      DispatchOn(cfg, k, block);
      if result < 0 {
        r := Unexpected(block);
        return;
      }
      assert block !in k.tracked;
      var submitted := HandleNewClient(result, block, a);
      if submitted != 0 {
        return ExitCalled, block;
      }
      // resubmit the accept operation
      ghost var t := View();
      AddTwice(old(sq.tail));
      r := SubmitLast(a, 2);
      SameOp(t, View(), block);
    }

    // The double link between an op and its tracker node, at the end of the list.
    method Track(block: Addr, ghost tracked: seq<Addr>)
      requires ListMatches(tracked) && block !in tracked
      modifies `memTracker, tracker, tracker.nodes
      ensures ListMatches(tracked + [block])
      ensures forall n :: n in tracker.nodes ==> n in old(tracker.nodes) || fresh(n)
    {
      var node := new Node(block);
      memTracker := memTracker[block := node];
      tracker.PushBack(node);
    }

    // Takes the node at position i, of op `a`, off the list.
    method Untrack(a: Addr, ghost tracked: seq<Addr>, ghost i: nat)
      requires ListMatches(tracked) && i < |tracked| && tracked[i] == a && multiset(tracked)[a] == 1
      modifies `memTracker, tracker, tracker.nodes
      ensures ListMatches(Without(tracked, a))
      ensures forall n :: n in tracker.nodes ==> n in old(tracker.nodes)
      ensures a !in memTracker && a !in Without(tracked, a)
    {
      assert Without(tracked, a) == tracked[..i] + tracked[i + 1..] && a !in Without(tracked, a) by {
        WithoutAt(tracked, i);
      }
      hide Without, Tracker.Valid;
      var node := memTracker[a];
      tracker.RemoveNode(node, i);
      memTracker := memTracker - {a};
    }

    method HandleNewClient(socket: int, block: Addr, acceptReq: Addr) returns (rc: int)
      requires Consistent() && AtOp(acceptReq) && socket >= 0
      requires block !in k.ops && block !in k.tracked
      requires Reaches(cfg, g, trace + [Handle(block)], View().(k := HandleAccept(cfg, k, acceptReq, socket, block)))
      requires ServerPart(trace + [Handle(block)]) == ServerPart(trace) + [Handle(block)]
      modifies `k, `memTracker, `stage, `backlog, `trace, sq, sq.sqes, sq.slots, cq`tail, cq.cqes, tracker,
        tracker.nodes
      ensures Valid() && stage.Idle? && reader.Resting?
      ensures forall n :: n in tracker.nodes ==> n in old(tracker.nodes) || fresh(n)
      ensures rc == 0 || (k.pc == Exited(RingBusy) && T.LiveCount(k) > cfg.ringSize)
      ensures rc == 0 ==>
        && k.pc == Pc.Submitting([acceptReq], 2, false) && acceptReq in k.ops
        && sq.tail == Add32(old(sq.tail), 1)
        && ServerPart(trace) == ServerPart(old(trace)) + [Handle(block)] + Submission()
      ensures k.tracked == old(k.tracked) + [block] && block in k.ops
      ensures k.ops[block].tag == RecvFromClient && k.ops[block].fd == socket && k.ops[block].busy
    {
      hide Reaches, ListMatches, ServerPart, Pow2, BitAnd, Add32, Submission, SameServer;
      Track(block, k.tracked);
      var clientOp := Op(RecvFromClient, socket, true, 0, seq(BufSize(cfg), _ => 0));
      k := k.(
        ops := k.ops[block := clientOp],
        tracked := k.tracked + [block],
        conOf := k.conOf[block := if socket in k.conns then k.conns[socket] else 0],
        accepted := k.accepted + 1,
        pc := Pc.Submitting([block, acceptReq], 2, false));
      trace := trace + [Handle(block)];
      ghost var t := View();
      rc := ConfigAndSubmit(block);
      if rc != 0 { NeverBadTag(cfg, g, trace, View()); }
      SameOp(t, View(), block);
      SameOp(t, View(), acceptReq);
    }

    method HandleCqeClose(a: Addr, result: int) returns (r: Outcome, ghost block: Addr)
      requires Valid() && AtEvent(a, result) && k.ops[a].tag.CloseConnection?
      modifies `k, `memTracker, `trace, tracker, tracker.nodes
      ensures Valid() && stage.Idle? && reader.Resting?
      ensures forall n :: n in tracker.nodes ==> n in old(tracker.nodes)
      ensures Answered(cfg, result != 0, r, k, block, sq.tail, sq.tail, ServerPart(old(trace)), ServerPart(trace))
      ensures r.Returned? ==> r.value == 0 && result == 0
      ensures r.Returned? ==>
        && k.tracked == Without(old(k.tracked), a) && a !in k.tracked && a !in k.ops && a !in memTracker
        && k.ops == old(k.ops) - {a}
    {
      hide Without, Reaches, ServerPart, ListMatches, Pow2, BitAnd, Add32, Submission, Submissions, Dispatch,
        HandleClose;
      EventIsKnown(cfg, g, trace, View());
      block := FreeBlock(k);
      HandleTick(cfg, g, trace, View(), block);
      DispatchOn(cfg, k, block);
      CloseAnswers(k, a, result);
      AddTwice(sq.tail);
      NoSubmissions();
      if result != 0 {
        r := Unexpected(block);
      } else {
        r := CloseDone(a, block);
      }
    }

    // The CLOSE of op `a` has succeeded.
    method CloseDone(a: Addr, ghost block: Addr) returns (r: Outcome)
      requires Consistent() && AtOp(a) && a in k.tracked && multiset(k.tracked)[a] == 1
      requires Reaches(cfg, g, trace + [Handle(block)], View().(k := HandleClose(k, a, 0)))
      requires ServerPart(trace + [Handle(block)]) == ServerPart(trace) + [Handle(block)]
      modifies `k, `memTracker, `trace, tracker, tracker.nodes
      ensures Valid() && r == Returned(0) && k.pc == Pc.Submitting([], 0, false)
      ensures forall n :: n in tracker.nodes ==> n in old(tracker.nodes)
      ensures ServerPart(trace) == ServerPart(old(trace)) + [Handle(block)]
      ensures k.tracked == Without(old(k.tracked), a) && a !in k.tracked
      ensures k.ops == old(k.ops) - {a} && a !in memTracker
    {
      hide Without, Reaches, ServerPart, ListMatches;
      ghost var ops := k.ops;
      k := k.(ops := k.ops[a := k.ops[a].(fd := -1)]);
      assert k.ops - {a} == ops - {a};
      HandleClosingClient(a);
      k := k.(conOf := k.conOf - {a}, closed := k.closed + 1, pc := Pc.Submitting([], 0, false));
      trace := trace + [Handle(block)];
      return Returned(0);
    }

    method HandleClosingClient(a: Addr)
      requires Consistent() && a in k.tracked && multiset(k.tracked)[a] == 1
      modifies `k, `memTracker, tracker, tracker.nodes
      ensures Consistent() && forall n :: n in tracker.nodes ==> n in old(tracker.nodes)
      ensures k == old(k).(ops := old(k.ops) - {a}, tracked := Without(old(k.tracked), a))
      ensures a !in k.tracked && a !in memTracker
    {
      hide ListMatches, Without;
      ghost var i :| 0 <= i < |k.tracked| && k.tracked[i] == a;
      Untrack(a, k.tracked, i);
      k := k.(ops := k.ops - {a}, tracked := Without(k.tracked, a));
    }

    method HandleCqeTimer(a: Addr, result: int) returns (r: Outcome, ghost block: Addr)
      requires Valid() && AtEvent(a, result) && k.ops[a].tag.TimerExpired?
      modifies `k, `trace
      ensures Valid() && stage.Idle? && reader.Resting?
      ensures Answered(cfg, result != -ETIME, r, k, block, sq.tail, sq.tail, ServerPart(old(trace)), ServerPart(trace))
      ensures r.Returned? ==> r.value == 0 && result == -ETIME && !k.timerArmed && k.tracked == old(k.tracked)
    {
      hide Reaches, ServerPart, ListMatches, Pow2, BitAnd, Add32, Submission, Dispatch, SameServer;
      block := FreeBlock(k);
      HandleTick(cfg, g, trace, View(), block);
      DispatchOn(cfg, k, block);
      AddTwice(sq.tail);
      if result != -ETIME {
        r := Unexpected(block);
        return;
      }
      k := k.(timerArmed := false, pc := Pc.Submitting([], 0, false));
      trace := trace + [Handle(block)];
      return Returned(0), block;
    }

    method ServiceCqeEvents(cqe: Completion) returns (r: Outcome, ghost block: Addr)
      requires Valid() && k.pc == Handling(cqe) && AtEvent(cqe.req.userData, cqe.res)
      modifies `k, `memTracker, `stage, `backlog, `trace, sq, sq.sqes, sq.slots, cq`tail, cq.cqes, tracker,
        tracker.nodes
      ensures Valid() && stage.Idle? && reader.Resting?
      ensures forall n :: n in tracker.nodes ==> n in old(tracker.nodes) || fresh(n)
      ensures Answered(cfg, RejectedFor(cfg, old(k.ops[cqe.req.userData].tag), cqe.res), r, k, block,
                       old(sq.tail), sq.tail, ServerPart(old(trace)), ServerPart(trace))
    {
      hide Reaches, ServerPart, ListMatches, Pow2, BitAnd, Submission, Dispatch, SameServer;
      var a := cqe.req.userData;
      match k.ops[a].tag {
        case AcceptedConnection => r, block := HandleCqeAccept(a, cqe.res);
        case CloseConnection => r, block := HandleCqeClose(a, cqe.res);
        case RecvFromClient => r, block := HandleCqeRecv(a, cqe.res);
        case SendToClient => r, block := HandleCqeSend(a, cqe.res);
        case TimerExpired => r, block := HandleCqeTimer(a, cqe.res);
        case Unknown(_) =>
          block := FreeBlock(k);
          HandleTick(cfg, g, trace, View(), block);
          DispatchOn(cfg, k, block);
          AddTwice(sq.tail);
          k := k.(pc := Pc.Submitting([], 0, false));
          trace := trace + [Handle(block)];
          r := Returned(0);
      }
    }

    // -----------------------------------------------------------------------
    // The loop.

    // iou_get_cqe, one access at a time. On None the counter has been passed on.
    method GetCqe() returns (cqe: Option<Completion>)
      requires Valid() && k.pc.LoopHead? && reader.Resting?
      modifies `k, `reader, `backlog, `trace, sq`head, cq, cq.cqes
      ensures Valid() && reader.Resting?
      ensures cqe.Some? ==> k.pc == Handling(cqe.value) && k.toSubmit == old(k.toSubmit)
      ensures cqe.Some? ==> cq.head == Add32(old(cq.head), 1)
      ensures cqe.Some? ==> ServerPart(trace) == ServerPart(old(trace)) + [ReadStep, ReadStep, ReadStep]
      ensures cqe.None? ==> k.toSubmit == 0 && cq.head == old(cq.head)
      ensures cqe.None? ==> k.pc == if cfg.sqpoll then LoopHead else Entering(old(k.toSubmit))
      ensures cqe.None? ==> ServerPart(trace) == ServerPart(old(trace)) + [ReadStep]
    {
      hide Reaches, ServerPart, ListMatches, Pow2, BitAnd, Add32;
      Interfere();
      ghost var s := View();
      ReadTick(cfg, g, trace, s);
      var seen := cq.Observe();
      if seen.None? {
        k := P.AfterSeeEmpty(cfg, k);
        assert View() == ReadEffect(cfg, g, s);
        trace := trace + [ReadStep];
        return None;
      }
      reader := Observed(seen.value);
      assert View() == ReadEffect(cfg, g, s);
      trace := trace + [ReadStep];
      var c := TakeSeen(seen.value);
      return Some(c);
    }

    // The rest of iou_get_cqe once an event is seen.
    method TakeSeen(head: uint32) returns (c: Completion)
      requires Valid() && k.pc.LoopHead? && reader == Observed(head)
      modifies `k, `reader, `backlog, `trace, sq`head, cq, cq.cqes
      ensures Valid() && reader.Resting? && k.pc == Handling(c) && k.toSubmit == old(k.toSubmit)
      ensures cq.head == Add32(head, 1)
      ensures ServerPart(trace) == ServerPart(old(trace)) + [ReadStep, ReadStep]
    {
      hide Reaches, ServerPart, ListMatches, Pow2, BitAnd, Add32;
      Interfere();
      c := CopyStep(head);
      Interfere();
      AnnounceStep(head, c);
    }

    method CopyStep(head: uint32) returns (c: Completion)
      requires Valid() && k.pc.LoopHead? && reader == Observed(head)
      modifies `reader, `trace
      ensures Valid() && reader == Copied(head, c)
      ensures ServerPart(trace) == ServerPart(old(trace)) + [ReadStep]
    {
      hide Reaches, ServerPart, ListMatches, Pow2, BitAnd, Add32;
      ghost var s := View();
      ReadTick(cfg, g, trace, s);
      c := cq.CopyOut(head);
      reader := Copied(head, c);
      assert View() == ReadEffect(cfg, g, s);
      trace := trace + [ReadStep];
    }

    method AnnounceStep(head: uint32, c: Completion)
      requires Valid() && k.pc.LoopHead? && reader == Copied(head, c)
      modifies `k, `reader, `trace, cq`head
      ensures Valid() && reader.Resting? && k == old(k).(pc := Handling(c)) && cq.head == Add32(head, 1)
      ensures ServerPart(trace) == ServerPart(old(trace)) + [ReadStep]
    {
      hide Reaches, ServerPart, ListMatches, Pow2, BitAnd, Add32;
      ghost var s := View();
      ReadTick(cfg, g, trace, s);
      cq.Announce(head, c);
      reader := Resting;
      k := k.(pc := Handling(c));
      assert View() == ReadEffect(cfg, g, s);
      trace := trace + [ReadStep];
    }

    // iou_enter_or_wake. The kernel's part of io_uring_enter: it reads to_submit
    // entries, then returns at some point after.
    method EnterOrWake()
      requires Valid() && reader.Resting? && k.pc.LoopHead? == cfg.sqpoll && k.pc.Entering? == !cfg.sqpoll
      modifies `k, `backlog, `trace, sq`head, cq`tail, cq.cqes
      ensures Valid() && k.pc.LoopHead? && reader.Resting? && k.toSubmit == old(k.toSubmit)
      ensures !cfg.sqpoll ==> sq.head == sq.tail
      ensures ServerPart(trace) == ServerPart(old(trace)) + if cfg.sqpoll then [] else [LeaveEnter]
    {
      hide Reaches, ServerPart, ListMatches, Pow2, BitAnd, Add32;
      if cfg.sqpoll {
        Interfere();
        return;
      }
      while k.pc.left > 0
        invariant Valid() && k.pc.Entering? && reader.Resting? && k.toSubmit == old(k.toSubmit)
        invariant ServerPart(trace) == ServerPart(old(trace))
        decreases k.pc.left
      {
        EnteringIsExact(cfg, g, trace, View());
        KernelConsume();
        Interfere();
      }
      Interfere();
      EnteringIsExact(cfg, g, trace, View());
      ControlTick(cfg, g, trace, View(), LeaveEnter, k.(pc := LoopHead));
      k := k.(pc := LoopHead);
      trace := trace + [LeaveEnter];
    }

    // create_accept_sqe and create_timer_sqe, before the loop.
    method SubmitFirst() returns (r: Outcome)
      requires Valid() && k == P.InitCore(cfg) && stage.Idle? && reader.Resting?
      modifies `k, `stage, `backlog, `trace, sq, sq.sqes, sq.slots, cq`tail, cq.cqes
      ensures Valid() && reader.Resting?
      ensures r.ExitCalled? <==> k.pc.Exited?
      ensures r.Returned? ==> k.pc.LoopHead? && sq.tail == Add32(old(sq.tail), k.toSubmit)
      ensures r.Returned? ==> k.toSubmit == if cfg.benchmarking then 2 else 1
      ensures r.Returned? ==> ServerPart(trace) == ServerPart(old(trace)) + Submissions(k.toSubmit) + [Return]
    {
      hide Reaches, ServerPart, ListMatches, Pow2, BitAnd, Add32, SameServer, Submission;
      AddTwice(sq.tail);
      ghost var s := View();
      if cfg.benchmarking {
        var rc := ConfigAndSubmit(ACCEPT_REQ);
        SameOp(s, View(), TIMER_REQ);
        if rc != 0 {
          return ExitCalled;
        }
        ghost var t := View();
        r := SubmitLast(TIMER_REQ, 2);
        SameCounters(s, t);
        SameCounters(t, View());
      } else {
        r := SubmitLast(ACCEPT_REQ, 1);
        SameCounters(s, View());
      }
      if r.Returned? {
        Count(r.value);
      }
    }

    // io_events_to_submit += ...
    method Count(value: nat)
      requires Valid() && k.pc == Pc.Submitting([], value, false)
      modifies `k, `trace
      ensures Valid() && k == old(k).(pc := LoopHead, toSubmit := old(k.toSubmit) + value)
      ensures ServerPart(trace) == ServerPart(old(trace)) + [Return]
    {
      hide Reaches, ServerPart, ListMatches;
      ghost var k' := k.(pc := LoopHead, toSubmit := k.toSubmit + value);
      ControlTick(cfg, g, trace, View(), Return, k');
      k := k.(pc := LoopHead, toSubmit := k.toSubmit + value);
      trace := trace + [Return];
    }

    // One iteration of service_loop.
    method ServeOne() returns (r: Outcome)
      requires Valid() && k.pc.LoopHead? && reader.Resting?
      modifies this, sq, sq.sqes, sq.slots, cq, cq.cqes, tracker, tracker.nodes
      ensures Valid() && reader.Resting?
      ensures forall n :: n in tracker.nodes ==> n in old(tracker.nodes) || fresh(n)
      ensures r.ExitCalled? <==> k.pc.Exited?
      ensures r.Returned? ==> k.pc.LoopHead?
      ensures r.Returned? ==> Iteration(cfg, ServerPart(old(trace)), ServerPart(trace))
    {
      hide Reaches, ServerPart, ListMatches, Pow2, BitAnd, Add32, SameServer, Submission;
      var cqe := GetCqe();
      if cqe.None? {
        EnterOrWake();
        return Returned(0);
      }
      ghost var s := View();
      Interfere();
      SamePc(s, View());
      EventIsKnown(cfg, g, trace, View());
      ghost var block;
      r, block := ServiceCqeEvents(cqe.value);
      if r.Returned? {
        Count(r.value);
        assert ServerPart(trace) == Serviced(ServerPart(old(trace)), block, r.value);
      }
    }

    // service_loop up to its end. The signal handler clears server_running after
    // `budget` iterations.
    method ServeUntilStopped(budget: nat) returns (r: Outcome, ghost started: seq<RingAction>,
      ghost served: seq<RingAction>)
      requires Valid() && View() == Init(cfg, g)
      modifies this, sq, sq.sqes, sq.slots, cq, cq.cqes, tracker, tracker.nodes
      ensures Valid()
      ensures forall n :: n in tracker.nodes ==> n in old(tracker.nodes) || fresh(n)
      ensures r.ExitCalled? <==> k.pc.Exited?
      ensures r.Returned? ==> k.pc.Stopped?
      ensures started == ServerPart(old(trace)) + Submissions(if cfg.benchmarking then 2 else 1) + [Return]
      ensures r.Returned? ==> Iterations(cfg, budget, started, served) && ServerPart(trace) == served + [Stop]
    {
      hide Reaches, ServerPart, ListMatches, Pow2, BitAnd, Add32, SameServer, Submission, Submissions, Iteration,
        Iterations;
      started := ServerPart(trace) + Submissions(if cfg.benchmarking then 2 else 1) + [Return];
      r := SubmitFirst();
      served := ServerPart(trace);
      NoIterations(cfg, served);
      var n := 0;
      while n < budget && r.Returned?
        invariant n <= budget
        invariant Valid() && reader.Resting?
        invariant forall n :: n in tracker.nodes ==> n in old(tracker.nodes) || fresh(n)
        invariant r.ExitCalled? <==> k.pc.Exited?
        invariant r.Returned? ==> k.pc.LoopHead? && served == ServerPart(trace) && Iterations(cfg, n, started, served)
      {
        assert forall i :: 0 <= i < |tracker.nodes| ==> tracker.nodes[i] in tracker.nodes;
        r := ServeOne();
        if r.Returned? {
          OneMore(cfg, n, started, served, ServerPart(trace));
          served := ServerPart(trace);
        }
        n := n + 1;
      }
      if r.Returned? {
        ghost var s := View();
        Interfere();
        SamePc(s, View());
        ControlTick(cfg, g, trace, View(), Stop, k.(pc := Stopped));
        k := k.(pc := Stopped);
        trace := trace + [Stop];
      }
    }

    method CloseAndFree(a: Addr) returns (closed: bool)
      requires a in k.ops
      modifies `k
      ensures closed <==> old(k.ops[a].fd in k.conns)
      ensures k == if closed then old(k.(conns := k.conns - {k.ops[a].fd}, ops := k.ops - {a}))
                   else Exit(old(k), UnexpectedResult)
    {
      var fd := k.ops[a].fd;
      if fd !in k.conns {
        k := Exit(k, UnexpectedResult);
        return false;
      }
      k := k.(conns := k.conns - {fd});
      k := k.(ops := k.ops - {a});
      return true;
    }

    // The loop of do_service_loop_cleanup: walks the list, closing each descriptor and
    // freeing each op and node. It stops at the first close that fails.
    method CloseTracked() returns (r: Outcome, ghost freedOps: seq<Addr>, ghost freedNodes: seq<Node>)
      requires ListMatches(k.tracked) && forall a :: a in k.tracked ==> a in k.ops
      requires forall i, j :: 0 <= i < j < |k.tracked| ==> k.tracked[i] != k.tracked[j]
      modifies `k
      ensures CloseAll(old(k.conns), TrackedFds(old(k))) == if r.Returned? then Some(k.conns) else None
      ensures r.Returned? ==> freedOps == old(k.tracked) && freedNodes == tracker.nodes
      ensures r.Returned? ==> k == old(k).(conns := k.conns, ops := Freed(old(k.ops), old(k.tracked)))
    {
      hide CloseAll, TrackedFds, Freed;
      freedOps, freedNodes := [], [];
      ghost var fds, ops, i := TrackedFds(k), k.ops, 0;
      FdsOf(k);
      FreeNone(ops);
      assert fds[0..] == fds;
      var node := tracker.head;
      while node != null
        invariant i <= |tracker.nodes| && node == if i < |tracker.nodes| then tracker.nodes[i] else null
        invariant k == old(k).(conns := k.conns, ops := Freed(ops, freedOps))
        invariant freedOps == k.tracked[..i] && freedNodes == tracker.nodes[..i]
        invariant CloseAll(old(k.conns), fds) == CloseAll(k.conns, fds[i..])
        decreases |tracker.nodes| - i
      {
        var next := node.next;
        var a := node.allocatedOp;
        assert a == k.tracked[i] && a !in freedOps;
        CloseOne(k.conns, fds, i);
        FreeOneMore(ops, freedOps, a);
        var closed := CloseAndFree(a);
        if !closed {
          return ExitCalled, freedOps, freedNodes;
        }
        freedOps, freedNodes, i := freedOps + [a], freedNodes + [node], i + 1;
        node := next;
      }
      NothingLeft(k.conns, fds, i);
      return Returned(0), freedOps, freedNodes;
    }

    // do_service_loop_cleanup, and what precedes it after the loop: the kernel goes on
    // until the ring is freed, in the state returned as `freed`.
    method DoServiceLoopCleanup()
      returns (r: Outcome, ghost freed: System, ghost freedOps: seq<Addr>, ghost freedNodes: seq<Node>)
      requires Valid() && k.pc.Stopped?
      modifies `k, `backlog, `trace, sq`head, cq`tail, cq.cqes, tracker
      ensures Reaches(cfg, g, trace, freed) && freed.k.pc.RingFreed? && freed.k.tracked == old(k.tracked)
      ensures ServerPart(trace) == ServerPart(old(trace)) + [FreeRing]
      ensures r.Returned? <==> NoDeadClose(NotTaken(g, freed))
      ensures old(trace) <= trace && (EndsSettled(cfg, g, old(View())) ==> r.Returned?)
      ensures CloseAll(freed.k.conns, TrackedFds(freed.k)) == if r.Returned? then Some(k.conns) else None
      ensures r.Returned? ==>
        && freedOps == old(k.tracked) && freedNodes == old(tracker.nodes)
        && k.ops == Freed(freed.k.ops, freed.k.tracked) && (forall a :: a in k.ops ==> a in {ACCEPT_REQ, TIMER_REQ})
        && tracker.Valid() && tracker.head == null && tracker.tail == null && tracker.nodes == []
    {
      hide Reaches, NoDeadClose, CloseAll, TrackedFds, Freed, ListMatches, EndsSettled, NotTaken, KernelMoved,
        SameServer, ServerPart;
      IouFree();
      freed := View();
      CleanupFacts(cfg, g, trace, freed);
      r, freedOps, freedNodes := CloseTracked();
      if r.Returned? {
        OnlyOwnRequestsLeft(freed.k);
        tracker.head, tracker.tail, tracker.nodes := null, null, [];
      }
    }

    // iou_free: the kernel stops serving the ring when its descriptor is closed.
    method IouFree()
      requires Valid() && k.pc.Stopped?
      modifies `k, `backlog, `trace, sq`head, cq`tail, cq.cqes
      ensures Valid() && k.pc.RingFreed? && k.tracked == old(k.tracked)
      ensures ServerPart(trace) == ServerPart(old(trace)) + [FreeRing]
      ensures old(trace) <= trace
      ensures EndsSettled(cfg, g, old(View())) ==> NoDeadClose(NotTaken(g, View()))
    {
      hide Reaches, NoDeadClose, ListMatches, EndsSettled, KernelMoved, SameServer, ServerPart;
      ghost var s, before := View(), trace;
      Interfere();
      SamePc(s, View());
      if EndsSettled(cfg, g, s) {
        SettledIsSafe(cfg, g, before, s, trace, View());
      }
      ControlTick(cfg, g, trace, View(), FreeRing, k.(pc := RingFreed));
      k := k.(pc := RingFreed);
      trace := trace + [FreeRing];
    }

    // service_loop: when it returns, no client's op or node is left. It returns exactly
    // when no CLOSE left a number dead by the time the ring was freed; a loop that ended
    // settled always does.
    method ServiceLoop(budget: nat)
      returns (r: Outcome, ghost started: seq<RingAction>, ghost served: seq<RingAction>,
               ghost loop: seq<RingAction>, ghost ended: System)
      requires Valid() && View() == Init(cfg, g)
      modifies this, sq, sq.sqes, sq.slots, cq, cq.cqes, tracker, tracker.nodes
      ensures Reaches(cfg, g, loop, ended) && loop <= trace && Legal(cfg, g, trace)
      ensures ended.k.pc.Stopped? || ended.k.pc.Exited?
      ensures started == ServerPart(old(trace)) + Submissions(if cfg.benchmarking then 2 else 1) + [Return]
      ensures ended.k.pc.Stopped? ==> Iterations(cfg, budget, started, served) && ServerPart(loop) == served + [Stop]
      ensures ended.k.pc.Stopped? <==> After(cfg, g, trace).k.pc.RingFreed?
      ensures r.Returned? <==> After(cfg, g, trace).k.pc.RingFreed? && NoDeadClose(NotTaken(g, After(cfg, g, trace)))
      ensures ended.k.pc.Stopped? && EndsSettled(cfg, g, ended) ==> r.Returned?
      ensures r.Returned? ==> tracker.Valid() && tracker.nodes == []
      ensures r.Returned? ==>
        CloseAll(After(cfg, g, trace).k.conns, TrackedFds(After(cfg, g, trace).k)) == Some(k.conns)
      ensures r.Returned? ==> forall a :: a in k.ops ==> a in {ACCEPT_REQ, TIMER_REQ}
    {
      hide ListMatches, NotTaken, NoDeadClose, CloseAll, TrackedFds, Freed, Legal, After, Iterations, EndsSettled,
        ServerPart, Submissions;
      r, started, served := ServeUntilStopped(budget);
      loop, ended := trace, View();
      if r.Returned? {
        ghost var freed, ops, nodes;
        r, freed, ops, nodes := DoServiceLoopCleanup();
      }
    }
  }
}
