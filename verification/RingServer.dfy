/** The io_uring server over its real queues: two rings with wrapping 32-bit counters,
    the server's stores one at a time, and the kernel's list of completions that find
    the completion ring full. It refines Protocol, so everything proved there holds of
    the server over the rings. */
module RingServer {
  import opened IouTypes
  import opened Wrapping
  import opened SubmissionRing
  import opened CompletionRing
  import opened ServerCore
  import P = Protocol
  import opened ProtocolInvariant
  import T = ProtocolTheorems
  import H = ProtocolHandlers

  // The ring sizes are the powers of two the kernel reports.
  datatype Geometry = Geometry(sqBits: nat, cqBits: nat)

  ghost predicate Fits(cfg: Config, g: Geometry) {
    g.sqBits <= 31 && g.cqBits <= 31 && cfg.ringSize <= Pow2(g.sqBits)
  }

  datatype System = System(
    k: Core,
    sq: SqRing, stage: Stage,    // and how far iou_config_and_submit is
    cq: CqRing, reader: Reader,  // and how far iou_get_cqe is
    backlog: seq<Completion>     // completions waiting for room in the ring
  )

  datatype RingAction =
    | ReadStep                   // the next step of iou_get_cqe
    | SubmitStep                 // the next step of iou_config_and_submit
    | Handle(block: Addr)
    | Return
    | LeaveEnter
    | Stop
    | FreeRing
    | Consume
    | Complete(i: nat, res: int, data: seq<Byte>)
    | Flush                      // the oldest waiting completion finds room

  predicate KernelAction(act: RingAction) { act.Consume? || act.Complete? || act.Flush? }

  const NO_OP := Op(Unknown(-1), 0, false, 0, [])

  // The op of the submission in progress.
  function Current(k: Core): (Addr, Op) {
    if k.pc.Submitting? && k.pc.todo != [] then
      var a := k.pc.todo[0];
      (a, if a in k.ops then k.ops[a] else NO_OP)
    else (NULL, NO_OP)
  }

  ghost predicate Enabled(cfg: Config, g: Geometry, s: System, act: RingAction) {
    && P.Running(s.k)
    && match act
       case ReadStep => s.k.pc.LoopHead?
       case SubmitStep => s.k.pc.Submitting? && s.k.pc.todo != []
       case Handle(block) => s.k.pc.Handling? && Allocatable(s.k, block)
       case Return => s.k.pc.Submitting? && s.k.pc.todo == []
       case LeaveEnter => s.k.pc == Entering(0)
       case Stop => s.k.pc.LoopHead? && s.reader.Resting?
       case FreeRing => s.k.pc.Stopped?
       case Consume => Count(s.sq) > 0 && (cfg.sqpoll || (s.k.pc.Entering? && s.k.pc.left > 0))
       case Complete(i, res, data) => CanPerform(cfg, s.k, i, res, data)
       case Flush => s.backlog != [] && HasRoom(g.cqBits, s.cq)
  }

  ghost function ReadEffect(cfg: Config, g: Geometry, s: System): System {
    var (r, rd) := ReaderStep(g.cqBits, s.cq, s.reader);
    var k :=
      if s.reader.Resting? && rd.Resting? then P.AfterSeeEmpty(cfg, s.k)
      else if s.reader.Copied? then s.k.(pc := Handling(s.reader.cqe))
      else s.k;
    s.(k := k, cq := r, reader := rd)
  }

  ghost function SubmitEffect(cfg: Config, g: Geometry, s: System): System
    requires s.k.pc.Submitting? && s.k.pc.todo != []
  {
    var (a, op) := Current(s.k);
    var (r, st) := ProducerStep(g.sqBits, cfg.ringSize, s.sq, s.stage, a, op);
    var k :=
      if s.stage.Idle? then P.AfterAcquire(cfg, s.k, st.Idle?)
      else if s.stage.Owned? && st.Idle? then Exit(s.k, BadTag)
      else if s.stage.Indexed? then s.k.(pc := Submitting(s.k.pc.todo[1..], s.k.pc.ret, false))
      else s.k;
    s.(k := k, sq := r, stage := st)
  }

  // Posting goes to the ring, unless it is full or others are already waiting.
  ghost function PostEffect(g: Geometry, s: System, c: Completion): System {
    if s.backlog == [] && HasRoom(g.cqBits, s.cq) then s.(cq := Post(g.cqBits, s.cq, c))
    else s.(backlog := s.backlog + [c])
  }

  ghost function Step(cfg: Config, g: Geometry, s: System, act: RingAction): System
    requires Enabled(cfg, g, s, act)
  {
    match act
    case ReadStep => ReadEffect(cfg, g, s)
    case SubmitStep => SubmitEffect(cfg, g, s)
    case Handle(block) => s.(k := Dispatch(cfg, s.k, block))
    case Return => s.(k := s.k.(pc := LoopHead, toSubmit := s.k.toSubmit + s.k.pc.ret))
    case LeaveEnter => s.(k := s.k.(pc := LoopHead))
    case Stop => s.(k := s.k.(pc := Stopped))
    case FreeRing => s.(k := s.k.(pc := RingFreed))
    case Consume =>
      s.(k := P.AfterConsume(s.k, KernelReads(g.sqBits, s.sq)), sq := DropHead(s.sq))
    case Complete(i, res, data) =>
      PostEffect(g, s.(k := Perform(cfg, s.k, i, res, data)), Completion(s.k.flight[i], res))
    case Flush =>
      s.(cq := Post(g.cqBits, s.cq, s.backlog[0]), backlog := s.backlog[1..])
  }

  // The rings as mmap delivers them.
  function Init(cfg: Config, g: Geometry): System {
    System(P.InitCore(cfg),
           SqRing(seq(Pow2(g.sqBits), _ => ZERO_SQE), seq(Pow2(g.sqBits), _ => 0), 0, 0), Idle,
           CqRing(seq(Pow2(g.cqBits), _ => NO_CQE), 0, 0), Resting, [])
  }

  ghost predicate Legal(cfg: Config, g: Geometry, acts: seq<RingAction>)
    decreases |acts|, 0
  {
    acts == [] || (
      && Legal(cfg, g, acts[..|acts| - 1])
      && Enabled(cfg, g, After(cfg, g, acts[..|acts| - 1]), acts[|acts| - 1])
    )
  }

  ghost function After(cfg: Config, g: Geometry, acts: seq<RingAction>): System
    requires Legal(cfg, g, acts)
    decreases |acts|, 1
  {
    if acts == [] then Init(cfg, g)
    else Step(cfg, g, After(cfg, g, acts[..|acts| - 1]), acts[|acts| - 1])
  }

  // -------------------------------------------------------------------------
  // Refinement.

  ghost predicate RingInv(cfg: Config, g: Geometry, s: System) {
    && Fits(cfg, g)
    && ValidSq(g.sqBits, s.sq) && Count(s.sq) <= cfg.ringSize
    && StageOk(g.sqBits, cfg.ringSize, s.sq, s.stage, Current(s.k).0, Current(s.k).1)
    && (!s.stage.Idle? <==> s.k.pc.Submitting? && s.k.pc.acquired)
    && (s.k.pc.Submitting? && s.k.pc.acquired ==> s.k.pc.todo != [])
    && ValidCq(g.cqBits, s.cq) && ReaderOk(g.cqBits, s.cq, s.reader)
    && (s.reader.Resting? || s.k.pc.LoopHead?)
  }

  // The two queues a system stands for.
  ghost function Abstract(cfg: Config, g: Geometry, s: System): P.State
    requires RingInv(cfg, g, s)
  {
    P.State(s.k, Pending(g.sqBits, s.sq), Waiting(g.cqBits, s.cq) + s.backlog)
  }

  // The protocol action a ring action amounts to, if it is visible at all.
  ghost function Meaning(cfg: Config, g: Geometry, s: System, act: RingAction): Option<P.Action> {
    match act
    case ReadStep =>
      if s.reader.Resting? && s.cq.head == s.cq.tail then Some(P.SeeEmpty)
      else if s.reader.Copied? then Some(P.TakeCqe)
      else None
    case SubmitStep =>
      if s.stage.Idle? then Some(P.Acquire)
      else if s.stage.Indexed? then Some(P.Publish)
      else if s.stage.Owned? && Configured(Current(s.k).0, Current(s.k).1).None? then Some(P.Publish)
      else None
    case Handle(block) => Some(P.Handle(block))
    case Return => Some(P.Return)
    case LeaveEnter => Some(P.LeaveEnter)
    case Stop => Some(P.Stop)
    case FreeRing => Some(P.FreeRing)
    case Consume => Some(P.Consume)
    case Complete(i, res, data) => Some(P.Complete(i, res, data))
    case Flush => None
  }

  ghost predicate Refines(cfg: Config, g: Geometry, s: System, act: RingAction)
    requires RingInv(cfg, g, s) && Enabled(cfg, g, s, act)
  {
    var s' := Step(cfg, g, s, act);
    && RingInv(cfg, g, s')
    && match Meaning(cfg, g, s, act)
       case None => Abstract(cfg, g, s') == Abstract(cfg, g, s)
       case Some(a) =>
         && P.Enabled(cfg, Abstract(cfg, g, s), a)
         && Abstract(cfg, g, s') == P.Step(cfg, Abstract(cfg, g, s), a)
  }

  lemma {:induction false} ReadRefines(cfg: Config, g: Geometry, s: System)
    requires RingInv(cfg, g, s) && Enabled(cfg, g, s, ReadStep)
    ensures Refines(cfg, g, s, ReadStep)
  {
    hide Pow2, BitAnd, ValidSq, StageOk, Configured;
    ReaderStepEffect(g.cqBits, s.cq, s.reader);
    CqTailFollowsHead(s.cq);
  }

  lemma {:induction false} SubmitRefines(cfg: Config, g: Geometry, s: System)
    requires RingInv(cfg, g, s) && Enabled(cfg, g, s, SubmitStep)
    ensures Refines(cfg, g, s, SubmitStep)
  {
    hide Pow2, BitAnd, ValidSq, ValidCq, ReaderOk;
    var (a, op) := Current(s.k);
    ProducerStepEffect(g.sqBits, cfg.ringSize, s.sq, s.stage, a, op);
  }

  lemma {:induction false} ConsumeRefines(cfg: Config, g: Geometry, s: System)
    requires RingInv(cfg, g, s) && Enabled(cfg, g, s, Consume)
    ensures Refines(cfg, g, s, Consume)
  {
    hide Pow2, BitAnd, ValidSq, ValidCq, ReaderOk;
    ConsumeTakesFirst(g.sqBits, s.sq);
    ConsumeKeepsStage(g.sqBits, cfg.ringSize, s.sq, s.stage, Current(s.k).0, Current(s.k).1);
  }

  // Completing a request does not change what the submission in progress asks for.
  lemma {:induction false} PerformKeepsCurrent(cfg: Config, k: Core, i: nat, res: int, data: seq<Byte>)
    requires CanPerform(cfg, k, i, res, data)
    ensures var k' := Perform(cfg, k, i, res, data);
            && k'.pc == k.pc && Current(k').0 == Current(k).0
            && Configured(Current(k').0, Current(k').1) == Configured(Current(k).0, Current(k).1)
  {
  }

  lemma {:induction false} CompleteRefines(cfg: Config, g: Geometry, s: System, i: nat, res: int, data: seq<Byte>)
    requires RingInv(cfg, g, s) && Enabled(cfg, g, s, Complete(i, res, data))
    ensures Refines(cfg, g, s, Complete(i, res, data))
  {
    PerformKeepsCurrent(cfg, s.k, i, res, data);
    hide Pow2, BitAnd, ValidSq, Configured, Perform, CanPerform;
    var c := Completion(s.k.flight[i], res);
    if s.backlog == [] && HasRoom(g.cqBits, s.cq) {
      PostAppends(g.cqBits, s.cq, c);
      PostKeepsReader(g.cqBits, s.cq, s.reader, c);
    }
  }

  lemma {:induction false} FlushRefines(cfg: Config, g: Geometry, s: System)
    requires RingInv(cfg, g, s) && Enabled(cfg, g, s, Flush)
    ensures Refines(cfg, g, s, Flush)
  {
    hide Pow2, BitAnd, ValidSq, StageOk, Configured;
    PostAppends(g.cqBits, s.cq, s.backlog[0]);
    PostKeepsReader(g.cqBits, s.cq, s.reader, s.backlog[0]);
  }

  lemma {:induction false} StepRefines(cfg: Config, g: Geometry, s: System, act: RingAction)
    requires RingInv(cfg, g, s) && Enabled(cfg, g, s, act)
    ensures Refines(cfg, g, s, act)
  {
    match act
    case ReadStep => ReadRefines(cfg, g, s);
    case SubmitStep => SubmitRefines(cfg, g, s);
    case Consume => ConsumeRefines(cfg, g, s);
    case Complete(i, res, data) => CompleteRefines(cfg, g, s, i, res, data);
    case Flush => FlushRefines(cfg, g, s);
    case Handle(block) =>
    case Return =>
    case LeaveEnter =>
    case Stop =>
    case FreeRing =>
  }

  // The protocol run a ring run amounts to.
  ghost function Meanings(cfg: Config, g: Geometry, acts: seq<RingAction>): seq<P.Action>
    requires Legal(cfg, g, acts)
  {
    if acts == [] then []
    else
      var n := |acts| - 1;
      var m := Meaning(cfg, g, After(cfg, g, acts[..n]), acts[n]);
      Meanings(cfg, g, acts[..n]) + if m.Some? then [m.value] else []
  }

  // The rings refine the queues: every run of the server over its rings is, step by
  // step, a run of the protocol, and ends in the state the rings stand for.
  lemma {:induction false} RingsRefineQueues(cfg: Config, g: Geometry, acts: seq<RingAction>)
    requires Fits(cfg, g) && Legal(cfg, g, acts)
    ensures RingInv(cfg, g, After(cfg, g, acts))
    ensures P.Legal(cfg, Meanings(cfg, g, acts))
    ensures P.After(cfg, Meanings(cfg, g, acts)) == Abstract(cfg, g, After(cfg, g, acts))
  {
    if acts == [] {
      InitRefines(cfg, g);
    } else {
      var n := |acts| - 1;
      var s, ms := After(cfg, g, acts[..n]), Meanings(cfg, g, acts[..n]);
      RingsRefineQueues(cfg, g, acts[..n]);
      StepRefines(cfg, g, s, acts[n]);
      var m := Meaning(cfg, g, s, acts[n]);
      if m.Some? {
        assert (ms + [m.value])[..|ms|] == ms;
      } else {
        assert ms + [] == ms;
      }
    }
  }

  lemma {:induction false} InitRefines(cfg: Config, g: Geometry)
    requires Fits(cfg, g)
    ensures RingInv(cfg, g, Init(cfg, g)) && Abstract(cfg, g, Init(cfg, g)) == P.Init(cfg)
  {
  }

  // -------------------------------------------------------------------------
  // What this gives for the server over the rings.

  // Whatever the kernel reads through the index array is the complete entry of a live
  // op, even while the server is filling the next one.
  lemma {:induction false} KernelReadsWholeEntries(cfg: Config, g: Geometry, acts: seq<RingAction>)
    requires Fits(cfg, g) && Legal(cfg, g, acts) && Enabled(cfg, g, After(cfg, g, acts), Consume)
    ensures var s := After(cfg, g, acts); var e := KernelReads(g.sqBits, s.sq);
            && T.LiveOp(s.k, e.userData) && e.userData in s.k.ops
            && Configured(e.userData, s.k.ops[e.userData]) == Some(e)
  {
    var s := After(cfg, g, acts);
    var ms := Meanings(cfg, g, acts);
    RingsRefineQueues(cfg, g, acts);
    hide Pow2, BitAnd, ValidSq, StageOk, Configured, Step, P.Step, Meanings, After, Legal, P.Legal, P.After;
    ConsumeTakesFirst(g.sqBits, s.sq);
    var e := KernelReads(g.sqBits, s.sq);
    assert Pending(g.sqBits, s.sq)[0] == e;
    T.TagIsFaithful(cfg, ms, e);
    T.OneRequestPerLiveOp(cfg, ms, e.userData);
    IdsContains(Pending(g.sqBits, s.sq), e);
  }

  // The backlog stays empty while the live ops do not outnumber the ring's entries.
  lemma {:induction false} NoBacklog(cfg: Config, g: Geometry, acts: seq<RingAction>)
    requires Fits(cfg, g) && Legal(cfg, g, acts) && AtMostLive(cfg, g, acts, Pow2(g.cqBits))
    ensures After(cfg, g, acts).backlog == []
  {
    if acts != [] {
      var n := |acts| - 1;
      NoBacklog(cfg, g, acts[..n]);
      CompletionFindsRoom(cfg, g, acts[..n], acts[n]);
    }
  }

  // In every state of the run at most `cap` ops are live.
  ghost predicate AtMostLive(cfg: Config, g: Geometry, acts: seq<RingAction>, cap: nat)
    requires Legal(cfg, g, acts)
  {
    && T.LiveCount(After(cfg, g, acts).k) <= cap
    && (acts != [] ==> AtMostLive(cfg, g, acts[..|acts| - 1], cap))
  }

  lemma {:induction false} CompletionFindsRoom(cfg: Config, g: Geometry, acts: seq<RingAction>, act: RingAction)
    requires Fits(cfg, g) && Legal(cfg, g, acts) && Enabled(cfg, g, After(cfg, g, acts), act)
    requires After(cfg, g, acts).backlog == []
    requires T.LiveCount(After(cfg, g, acts).k) <= Pow2(g.cqBits)
    ensures Step(cfg, g, After(cfg, g, acts), act).backlog == []
  {
    RingsRefineQueues(cfg, g, acts);
    hide Pow2, BitAnd, ValidSq, StageOk, Configured, Meanings, After, Legal, P.Legal, P.After, P.Step, CanPerform,
      Perform, Dispatch;
    if act.Complete? {
      var s := After(cfg, g, acts);
      StepRefines(cfg, g, s, act);
      T.CompletionsFit(cfg, Meanings(cfg, g, acts), P.Complete(act.i, act.res, act.data));
    }
  }

  // No submission over the rings is refused while the live ops fit ring_size.
  lemma {:induction false} NeverBusyOverRings(cfg: Config, g: Geometry, acts: seq<RingAction>)
    requires Fits(cfg, g) && Legal(cfg, g, acts) && AtMostLive(cfg, g, acts, cfg.ringSize)
    ensures After(cfg, g, acts).k.pc != Exited(RingBusy)
  {
    RingsRefineQueues(cfg, g, acts);
    MeaningsNeverMore(cfg, g, acts, cfg.ringSize);
    T.NeverBusy(cfg, Meanings(cfg, g, acts));
  }

  lemma {:induction false} MeaningsNeverMore(cfg: Config, g: Geometry, acts: seq<RingAction>, cap: nat)
    requires Fits(cfg, g) && Legal(cfg, g, acts) && AtMostLive(cfg, g, acts, cap)
    requires P.Legal(cfg, Meanings(cfg, g, acts))
    ensures T.NeverMoreThan(cfg, Meanings(cfg, g, acts), cap)
  {
    RingsRefineQueues(cfg, g, acts);
    if acts != [] {
      var n := |acts| - 1;
      RingsRefineQueues(cfg, g, acts[..n]);
      MeaningsNeverMore(cfg, g, acts[..n], cap);
      var m := Meaning(cfg, g, After(cfg, g, acts[..n]), acts[n]);
      var ms := Meanings(cfg, g, acts[..n]);
      if m.Some? {
        assert (ms + [m.value])[..|ms|] == ms;
      } else {
        assert ms + [] == ms;
      }
    }
  }
}
