/** Runs of RingServer as a program produces them, action by action: what each kind of
    action does to the state a recorded trace reaches. */
module ServerTrace {
  import opened IouTypes
  import opened Wrapping
  import opened SubmissionRing
  import opened CompletionRing
  import opened ServerCore
  import opened RingServer
  import P = Protocol
  import I = ProtocolInvariant
  import H = ProtocolHandlers
  import T = ProtocolTheorems
  import Shutdown
  import RingShutdown

  // How a call ends: with its return value, or in exit(EXIT_FAILURE).
  datatype Outcome = Returned(value: nat) | ExitCalled

  // The server's own steps in a trace.
  ghost function ServerPart(trace: seq<RingAction>): seq<RingAction> {
    if trace == [] then []
    else ServerPart(trace[..|trace| - 1])
         + if KernelAction(trace[|trace| - 1]) then [] else [trace[|trace| - 1]]
  }

  lemma {:induction false} ServerPartGrows(trace: seq<RingAction>, act: RingAction)
    ensures ServerPart(trace + [act]) == ServerPart(trace) + if KernelAction(act) then [] else [act]
  {
    assert (trace + [act])[..|trace|] == trace;
  }

  // The kernel alone has acted since.
  ghost predicate Continues(trace: seq<RingAction>, trace': seq<RingAction>) {
    trace <= trace' && forall i :: |trace| <= i < |trace'| ==> KernelAction(trace'[i])
  }

  // No submission is ever refused for its tag.
  lemma {:induction false} NeverBadTag(cfg: Config, g: Geometry, trace: seq<RingAction>, s: System)
    requires Reaches(cfg, g, trace, s)
    ensures s.k.pc != Exited(BadTag)
  {
    hide Reaches, RingInv, I.Full, I.EchoSafe, Abstract;
    Guarantees(cfg, g, trace, s);
    AbstractPc(cfg, g, s);
  }

  lemma {:induction false} AbstractPc(cfg: Config, g: Geometry, s: System)
    requires RingInv(cfg, g, s)
    ensures Abstract(cfg, g, s).k == s.k
  {
  }

  lemma {:induction false} ContinuesSelf(trace: seq<RingAction>)
    ensures Continues(trace, trace)
  {
  }

  lemma {:induction false} ContinuesTransitive(a: seq<RingAction>, b: seq<RingAction>, c: seq<RingAction>)
    requires Continues(a, b) && Continues(b, c)
    ensures Continues(a, c)
  {
  }

  ghost predicate Reaches(cfg: Config, g: Geometry, trace: seq<RingAction>, s: System) {
    Fits(cfg, g) && Legal(cfg, g, trace) && After(cfg, g, trace) == s
  }

  lemma {:induction false} Extends(cfg: Config, g: Geometry, trace: seq<RingAction>, s: System, act: RingAction)
    requires Reaches(cfg, g, trace, s) && Enabled(cfg, g, s, act)
    ensures Reaches(cfg, g, trace + [act], Step(cfg, g, s, act))
    ensures ServerPart(trace + [act]) == ServerPart(trace) + if KernelAction(act) then [] else [act]
  {
    hide Step, Enabled, Init, Fits, ServerPart;
    ServerPartGrows(trace, act);
    var t := trace + [act];
    assert t[..|t| - 1] == trace && t[|t| - 1] == act;
    assert Legal(cfg, g, t);
  }

  // Everything proved about runs, for the state a trace reaches.
  lemma {:induction false} Guarantees(cfg: Config, g: Geometry, trace: seq<RingAction>, s: System)
    requires Reaches(cfg, g, trace, s)
    ensures RingInv(cfg, g, s) && I.Inv(cfg, Abstract(cfg, g, s))
  {
    hide Step, Enabled, P.Step, P.Enabled;
    RingsRefineQueues(cfg, g, trace);
    H.RunKeepsInv(cfg, Meanings(cfg, g, trace));
  }

  // The server's memory, but for the buffers and the control point.
  ghost predicate SameServer(s: System, s': System) {
    && s'.reader == s.reader && s'.cq.head == s.cq.head
    && s'.k.tracked == s.k.tracked && s'.k.timerArmed == s.k.timerArmed && s'.k.toSubmit == s.k.toSubmit
    && s'.k.conOf == s.k.conOf && s'.k.accepted == s.k.accepted && s'.k.closed == s.k.closed
    && s'.k.ops.Keys == s.k.ops.Keys
    && (forall a :: a in s.k.ops ==> s'.k.ops[a] == s.k.ops[a].(buf := s'.k.ops[a].buf))
  }

  // What the kernel leaves alone, at any time.
  ghost predicate KernelMoved(s: System, s': System) {
    && SameServer(s, s')
    && s'.stage == s.stage && s'.sq == s.sq.(head := s'.sq.head)
    && (s'.k.pc == s.k.pc || (s.k.pc.Entering? && s'.k.pc.Entering? && s'.k.pc.left <= s.k.pc.left))
  }

  lemma {:induction false} SameServerTransitive(s: System, t: System, u: System)
    requires SameServer(s, t) && SameServer(t, u)
    ensures SameServer(s, u)
  {
  }

  lemma {:induction false} SameLiveCount(s: System, s': System)
    requires SameServer(s, s')
    ensures T.LiveCount(s'.k) == T.LiveCount(s.k)
  {
  }

  // One step of a submission.
  lemma {:induction false} SubmitTick(cfg: Config, g: Geometry, trace: seq<RingAction>, s: System)
    requires Reaches(cfg, g, trace, s) && s.k.pc.Submitting? && s.k.pc.todo != []
    ensures Reaches(cfg, g, trace + [SubmitStep], SubmitEffect(cfg, g, s))
    ensures ServerPart(trace + [SubmitStep]) == ServerPart(trace) + [SubmitStep]
    ensures SameServer(s, SubmitEffect(cfg, g, s))
  {
    hide Reaches, Dispatch, ReadEffect, PostEffect, Perform, CanPerform, KernelReads, Pow2, BitAnd, ProducerStep,
      Configured, ServerPart;
    Extends(cfg, g, trace, s, SubmitStep);
  }

  lemma {:induction false} PerformMoves(cfg: Config, k: Core, i: nat, res: int, data: seq<Byte>)
    requires CanPerform(cfg, k, i, res, data)
    ensures var k' := Perform(cfg, k, i, res, data);
            && k'.tracked == k.tracked && k'.timerArmed == k.timerArmed && k'.toSubmit == k.toSubmit
            && k'.conOf == k.conOf && k'.accepted == k.accepted && k'.closed == k.closed && k'.pc == k.pc
            && k'.ops.Keys == k.ops.Keys
            && (forall a :: a in k.ops ==> k'.ops[a] == k.ops[a].(buf := k'.ops[a].buf))
  {
  }

  lemma {:induction false} KernelStepMoves(cfg: Config, g: Geometry, s: System, act: RingAction)
    requires Enabled(cfg, g, s, act) && KernelAction(act)
    ensures KernelMoved(s, Step(cfg, g, s, act))
  {
    hide Perform, CanPerform, Pow2, Store;
    if act.Complete? {
      PerformMoves(cfg, s.k, act.i, act.res, act.data);
    }
  }

  // An address the allocator could return.
  ghost function FreeBlock(k: Core): (a: Addr)
    ensures Allocatable(k, a)
  {
    UpperBound(k.ops.Keys + {NULL, ACCEPT_REQ, TIMER_REQ})
  }

  lemma {:induction false} HandleTick(cfg: Config, g: Geometry, trace: seq<RingAction>, s: System, block: Addr)
    requires Reaches(cfg, g, trace, s) && s.k.pc.Handling? && Allocatable(s.k, block)
    ensures Reaches(cfg, g, trace + [Handle(block)], s.(k := Dispatch(cfg, s.k, block)))
    ensures ServerPart(trace + [Handle(block)]) == ServerPart(trace) + [Handle(block)]
  {
    hide Reaches, ReadEffect, SubmitEffect, PostEffect, Perform, CanPerform, KernelReads, Dispatch, ServerPart;
    Extends(cfg, g, trace, s, Handle(block));
  }

  lemma {:induction false} ReadTick(cfg: Config, g: Geometry, trace: seq<RingAction>, s: System)
    requires Reaches(cfg, g, trace, s) && s.k.pc.LoopHead?
    ensures Reaches(cfg, g, trace + [ReadStep], ReadEffect(cfg, g, s))
    ensures ServerPart(trace + [ReadStep]) == ServerPart(trace) + [ReadStep]
  {
    hide Reaches, ReadEffect, SubmitEffect, PostEffect, Perform, CanPerform, KernelReads, Dispatch, ServerPart;
    Extends(cfg, g, trace, s, ReadStep);
  }

  lemma {:induction false} ControlTick(cfg: Config, g: Geometry, trace: seq<RingAction>, s: System, act: RingAction,
    k': Core)
    requires Reaches(cfg, g, trace, s)
    requires (act.Return? && s.k.pc.Submitting? && s.k.pc.todo == []
              && k' == s.k.(pc := LoopHead, toSubmit := s.k.toSubmit + s.k.pc.ret))
             || (act.LeaveEnter? && s.k.pc == Entering(0) && k' == s.k.(pc := LoopHead))
             || (act.Stop? && s.k.pc.LoopHead? && s.reader.Resting? && k' == s.k.(pc := Stopped))
             || (act.FreeRing? && s.k.pc.Stopped? && k' == s.k.(pc := RingFreed))
    ensures Reaches(cfg, g, trace + [act], s.(k := k'))
    ensures ServerPart(trace + [act]) == ServerPart(trace) + [act]
  {
    hide Reaches, ReadEffect, SubmitEffect, PostEffect, Perform, CanPerform, KernelReads, Dispatch, ServerPart;
    Extends(cfg, g, trace, s, act);
  }

  // The op of the event in the server's hands is in use, and if its CLOSE has
  // completed it is on the list.
  lemma {:induction false} EventIsKnown(cfg: Config, g: Geometry, trace: seq<RingAction>, s: System)
    requires Reaches(cfg, g, trace, s) && s.k.pc.Handling?
    ensures var a := s.k.pc.event.req.userData;
            && a in s.k.ops && s.stage.Idle? && s.reader.Resting?
            && (s.k.ops[a].tag.CloseConnection? ==> a in s.k.tracked && multiset(s.k.tracked)[a] == 1)
            && !s.k.ops[a].tag.Unknown?
    ensures forall b :: b in s.k.tracked ==> b in s.k.ops
  {
    Guarantees(cfg, g, trace, s);
    hide Reaches, I.Requests, I.Sockets, I.Echo, I.Accounted, I.Room, ValidSq, StageOk;
    H.EventFacts(cfg, Abstract(cfg, g, s));
  }

  // Removing a client's op from the list of ops is removing the node at its position.
  lemma {:induction false} WithoutAt(q: seq<Addr>, i: nat)
    requires i < |q| && multiset(q)[q[i]] == 1
    ensures Without(q, q[i]) == q[..i] + q[i + 1..] && q[i] !in Without(q, q[i])
  {
    assert q == q[..i] + [q[i]] + q[i + 1..];
    if i > 0 {
      assert q == [q[0]] + q[1..];
      assert q[i] == q[1..][i - 1] && q[1..][i - 1] in q[1..];
      WithoutAt(q[1..], i - 1);
    }
  }

  lemma {:induction false} AddTwice(t: uint32)
    ensures Add32(Add32(t, 1), 1) == Add32(t, 2)
    ensures Add32(t, 0) == t
  {
    AddIgnoresWrap(t + 1, 1);
  }

  ghost function Submissions(n: nat): seq<RingAction> {
    if n == 0 then [] else Submissions(n - 1) + Submission()
  }

  lemma {:induction false} KernelKeepsSubmission(s: System, s': System, a: Addr)
    requires KernelMoved(s, s')
    ensures SameServer(s, s') && s'.stage == s.stage && s'.sq.tail == s.sq.tail
    ensures s.k.pc.Submitting? ==> s'.k.pc == s.k.pc
    ensures a in s.k.ops <==> a in s'.k.ops
  {
    assert a in s.k.ops.Keys <==> a in s'.k.ops.Keys;
  }

  // The five stores of one submission.
  ghost function Submission(): seq<RingAction> {
    [SubmitStep, SubmitStep, SubmitStep, SubmitStep, SubmitStep]
  }

  lemma {:induction false} RefusedOnlyWhenFull(cfg: Config, g: Geometry, trace: seq<RingAction>, s: System)
    requires Reaches(cfg, g, trace, s) && s.k.pc.Submitting? && s.k.pc.todo != []
    ensures Full(cfg.ringSize, s.sq) ==> T.LiveCount(s.k) > cfg.ringSize
  {
    Guarantees(cfg, g, trace, s);
    T.RequestCount(cfg, Abstract(cfg, g, s));
  }

  lemma {:induction false} KernelMovedSelf(s: System)
    ensures KernelMoved(s, s)
  {
  }

  lemma {:induction false} KernelMovedTransitive(s: System, t: System, u: System)
    requires KernelMoved(s, t) && KernelMoved(t, u)
    ensures KernelMoved(s, u)
  {
    hide SameServer;
    SameServerTransitive(s, t, u);
  }

  lemma {:induction false} SamePc(s: System, s': System)
    requires KernelMoved(s, s') && !s.k.pc.Entering?
    ensures s'.k.pc == s.k.pc && s'.reader == s.reader && s'.stage == s.stage && s'.sq.tail == s.sq.tail
    ensures s'.k.tracked == s.k.tracked && s'.k.toSubmit == s.k.toSubmit
  {
  }

  // What a submission leaves of an op.
  lemma {:induction false} SameOp(s: System, s': System, a: Addr)
    requires SameServer(s, s') && a in s.k.ops
    ensures a in s'.k.ops && s'.k.ops[a] == s.k.ops[a].(buf := s'.k.ops[a].buf)
    ensures s'.k.tracked == s.k.tracked
  {
    assert a in s'.k.ops.Keys;
  }

  lemma {:induction false} SameCounters(s: System, s': System)
    requires SameServer(s, s')
    ensures s'.k.toSubmit == s.k.toSubmit && s'.reader == s.reader
  {
  }

  lemma {:induction false} Overwrites(ops: map<Addr, Op>, a: Addr, x: Op)
    ensures forall y {:trigger ops[a := y]} :: ops[a := x][a := y] == ops[a := y]
  {
  }

  // The results a handler does not accept, by the tag of the op it is called for.
  predicate RejectedFor(cfg: Config, tag: Tag, res: int) {
    match tag
    case AcceptedConnection => res < 0
    case CloseConnection => res != 0
    case RecvFromClient => res != 0 && res != cfg.msgSize
    case SendToClient => res < cfg.msgSize
    case TimerExpired => res != -ETIME
    case Unknown(_) => false
  }

  // How a handler that could allocate `block` ends: it exits when its result is rejected,
  // else only for a full ring, with more live ops than entries.
  ghost predicate Answered(cfg: Config, rejected: bool, r: Outcome, k: Core, block: Addr, tail: uint32, tail': uint32,
                           part: seq<RingAction>, part': seq<RingAction>) {
    && (r.ExitCalled? <==> k.pc.Exited?)
    && (k.pc == Exited(UnexpectedResult) <==> rejected)
    && (r.ExitCalled? && !rejected ==> k.pc == Exited(RingBusy) && T.LiveCount(k) > cfg.ringSize)
    && (r.Returned? ==>
          && k.pc == Submitting([], r.value, false)
          && tail' == Add32(tail, r.value)
          && part' == part + [Handle(block)] + Submissions(r.value))
  }

  lemma {:induction false} NoSubmissions()
    ensures forall part: seq<RingAction> {:trigger part + Submissions(0)} :: part + Submissions(0) == part
  {
  }

  lemma {:induction false} CloseAnswers(k: Core, a: Addr, res: int)
    ensures res != 0 ==> HandleClose(k, a, res) == Exit(k, UnexpectedResult)
  {
  }

  // The switch of service_cqe_events.
  lemma {:induction false} DispatchOn(cfg: Config, k: Core, block: Addr)
    requires k.pc.Handling? && k.pc.event.req.userData in k.ops
    ensures var a, res := k.pc.event.req.userData, k.pc.event.res;
            Dispatch(cfg, k, block) ==
            match k.ops[a].tag
            case AcceptedConnection => HandleAccept(cfg, k, a, res, block)
            case CloseConnection => HandleClose(k, a, res)
            case RecvFromClient => HandleRecv(cfg, k, a, res)
            case SendToClient => HandleSend(cfg, k, a, res)
            case TimerExpired => HandleTimer(k, res)
            case Unknown(_) => k.(pc := Submitting([], 0, false))
  {
    hide HandleAccept, HandleClose, HandleRecv, HandleSend, HandleTimer;
  }

  // Inside io_uring_enter, what is left to hand over is what the kernel has not read.
  lemma {:induction false} EnteringIsExact(cfg: Config, g: Geometry, trace: seq<RingAction>, s: System)
    requires Reaches(cfg, g, trace, s) && s.k.pc.Entering? && !cfg.sqpoll
    ensures Count(s.sq) == s.k.pc.left
  {
    Guarantees(cfg, g, trace, s);
  }

  // What one iteration of service_loop adds to the server's part of a trace: nothing
  // to take, and enter; or an event, its handler, and the counter.
  ghost predicate Iteration(cfg: Config, part: seq<RingAction>, part': seq<RingAction>) {
    || part' == part + [ReadStep] + (if cfg.sqpoll then [] else [LeaveEnter])
    || exists block, n :: part' == Serviced(part, block, n)
  }

  ghost function Serviced(part: seq<RingAction>, block: Addr, n: nat): seq<RingAction> {
    part + [ReadStep, ReadStep, ReadStep] + [Handle(block)] + Submissions(n) + [Return]
  }

  ghost predicate Iterations(cfg: Config, n: nat, part: seq<RingAction>, part': seq<RingAction>) {
    if n == 0 then part' == part
    else exists mid :: Iterations(cfg, n - 1, part, mid) && Iteration(cfg, mid, part')
  }

  lemma {:induction false} NoIterations(cfg: Config, part: seq<RingAction>)
    ensures Iterations(cfg, 0, part, part)
  {
  }

  lemma {:induction false} OneMore(cfg: Config, n: nat, part: seq<RingAction>, mid: seq<RingAction>,
    part': seq<RingAction>)
    requires Iterations(cfg, n, part, mid) && Iteration(cfg, mid, part')
    ensures Iterations(cfg, n + 1, part, part')
  {
    hide Iteration;
  }

  // Nothing the kernel may still do makes the cleanup fail.
  ghost predicate EndsSettled(cfg: Config, g: Geometry, s: System) {
    RingInv(cfg, g, s) && Shutdown.Settled(cfg, Abstract(cfg, g, s))
  }

  // The completions the server never took.
  ghost function NotTaken(g: Geometry, s: System): seq<Completion> {
    (if ValidCq(g.cqBits, s.cq) then Waiting(g.cqBits, s.cq) else []) + s.backlog
  }

  lemma {:induction false} CleanupFacts(cfg: Config, g: Geometry, trace: seq<RingAction>, s: System)
    requires Reaches(cfg, g, trace, s) && s.k.pc.RingFreed?
    ensures Shutdown.CloseAll(s.k.conns, Shutdown.TrackedFds(s.k)).Some? <==> Shutdown.NoDeadClose(NotTaken(g, s))
    ensures forall a :: a in s.k.tracked ==> a in s.k.ops
    ensures forall a :: a in s.k.ops ==> a in s.k.tracked || a in {ACCEPT_REQ, TIMER_REQ}
    ensures forall i, j :: 0 <= i < j < |s.k.tracked| ==> s.k.tracked[i] != s.k.tracked[j]
  {
    Guarantees(cfg, g, trace, s);
    hide Reaches, Shutdown.CloseAll, Shutdown.TrackedFds, Shutdown.NoDeadClose, I.Unique, I.Requests, I.Sockets, I.Echo,
      I.Accounted, I.Room, StageOk, ValidSq;
    assert NotTaken(g, s) == Abstract(cfg, g, s).cq;
    Shutdown.CleanupSucceedsIffIn(cfg, Abstract(cfg, g, s));
    forall i, j | 0 <= i < j < |s.k.tracked| ensures s.k.tracked[i] != s.k.tracked[j] {
      Shutdown.TrackedPositions(cfg, s.k, i, j);
    }
  }

  lemma {:induction false} CloseOne(conns: map<int, nat>, fds: seq<int>, i: nat)
    requires i < |fds|
    ensures fds[i] in conns ==>
              Shutdown.CloseAll(conns, fds[i..]) == Shutdown.CloseAll(conns - {fds[i]}, fds[i + 1..])
    ensures fds[i] !in conns ==> Shutdown.CloseAll(conns, fds[i..]).None?
  {
    assert fds[i..][1..] == fds[i + 1..];
  }

  lemma {:induction false} NothingLeft(conns: map<int, nat>, fds: seq<int>, i: nat)
    requires i == |fds|
    ensures Shutdown.CloseAll(conns, fds[i..]) == Some(conns)
  {
  }

  // The heap once the ops in `q` are freed.
  ghost function Freed(ops: map<Addr, Op>, q: seq<Addr>): map<Addr, Op> { ops - (set a | a in q) }

  lemma {:induction false} FreeNone(ops: map<Addr, Op>)
    ensures Freed(ops, []) == ops
  {
  }

  lemma {:induction false} FreeOneMore(ops: map<Addr, Op>, q: seq<Addr>, a: Addr)
    ensures Freed(ops, q + [a]) == Freed(ops, q) - {a}
    ensures a in ops && a !in q ==> a in Freed(ops, q) && Freed(ops, q)[a] == ops[a]
  {
  }

  lemma {:induction false} FdsOf(k: Core)
    ensures |Shutdown.TrackedFds(k)| == |k.tracked|
    ensures forall i :: 0 <= i < |k.tracked| && k.tracked[i] in k.ops ==>
              Shutdown.TrackedFds(k)[i] == k.ops[k.tracked[i]].fd
  {
  }

  lemma {:induction false} OnlyOwnRequestsLeft(k: Core)
    requires forall a :: a in k.ops ==> a in k.tracked || a in {ACCEPT_REQ, TIMER_REQ}
    ensures forall a :: a in Freed(k.ops, k.tracked) ==> a in {ACCEPT_REQ, TIMER_REQ}
  {
  }

  // A loop that ended settled is followed by a cleanup that succeeds.
  lemma {:induction false} SettledIsSafe(cfg: Config, g: Geometry, trace: seq<RingAction>, s: System,
                                         trace': seq<RingAction>, s': System)
    requires Reaches(cfg, g, trace, s) && s.k.pc.Stopped? && EndsSettled(cfg, g, s)
    requires Reaches(cfg, g, trace', s') && Continues(trace, trace')
    ensures Shutdown.NoDeadClose(NotTaken(g, s'))
  {
    var ks := trace'[|trace|..];
    assert trace + ks == trace';
    hide Legal, After, RingInv, Shutdown.Settled, Shutdown.NoDeadClose, Waiting;
    RingShutdown.SettledThroughoutOverRings(cfg, g, trace, ks);
    Shutdown.SettledIsAlive(cfg, Abstract(cfg, g, s'));
    NotTakenIsQueue(cfg, g, s');
  }

  lemma {:induction false} NotTakenIsQueue(cfg: Config, g: Geometry, s: System)
    requires RingInv(cfg, g, s)
    ensures NotTaken(g, s) == Abstract(cfg, g, s).cq
  {
  }
}
