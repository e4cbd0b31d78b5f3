/** The other direction of RingServer's refinement: what the protocol over queues can do,
    the server over its rings can do too. */
module RingLifting {
  import opened IouTypes
  import opened Wrapping
  import opened SubmissionRing
  import opened CompletionRing
  import opened ServerCore
  import opened RingServer
  import P = Protocol
  import T = ProtocolTheorems
  import opened ProtocolInvariant
  import CapacityBound
  import LifeCycle

  // Between two protocol actions.
  ghost predicate AtRest(s: System) { s.reader.Resting? && (s.stage.Idle? || s.stage.Zeroed?) }

  // The ring run amounts to the protocol run `ps` and ends at rest.
  ghost predicate Stands(cfg: Config, g: Geometry, acts: seq<RingAction>, ps: seq<P.Action>) {
    Fits(cfg, g) && Legal(cfg, g, acts) && AtRest(After(cfg, g, acts)) && Meanings(cfg, g, acts) == ps
  }

  lemma {:induction false} RingRunExtends(cfg: Config, g: Geometry, acts: seq<RingAction>, act: RingAction)
    requires Legal(cfg, g, acts) && Enabled(cfg, g, After(cfg, g, acts), act)
    ensures Legal(cfg, g, acts + [act]) && After(cfg, g, acts + [act]) == Step(cfg, g, After(cfg, g, acts), act)
  {
    hide Step, Enabled;
    assert (acts + [act])[..|acts|] == acts;
  }

  // One ring action more, and what it means.
  lemma {:induction false} Advance(cfg: Config, g: Geometry, acts: seq<RingAction>, act: RingAction)
    requires Fits(cfg, g) && Legal(cfg, g, acts) && Enabled(cfg, g, After(cfg, g, acts), act)
    ensures Legal(cfg, g, acts + [act]) && After(cfg, g, acts + [act]) == Step(cfg, g, After(cfg, g, acts), act)
    ensures RingInv(cfg, g, After(cfg, g, acts)) && RingInv(cfg, g, After(cfg, g, acts + [act]))
    ensures var m := Meaning(cfg, g, After(cfg, g, acts), act);
            Meanings(cfg, g, acts + [act]) == Meanings(cfg, g, acts) + if m.Some? then [m.value] else []
  {
    RingRunExtends(cfg, g, acts, act);
    RingsRefineQueues(cfg, g, acts);
    RingsRefineQueues(cfg, g, acts + [act]);
    hide Step, Enabled, RingInv, Abstract, Meaning, P.Step, P.Enabled, Legal, After;
    assert (acts + [act])[..|acts|] == acts;
  }

  // The ring action of the same name.
  function Same(act: P.Action): RingAction {
    match act
    case TakeCqe => ReadStep
    case SeeEmpty => ReadStep
    case Handle(block) => Handle(block)
    case Acquire => SubmitStep
    case Publish => SubmitStep
    case Return => Return
    case LeaveEnter => LeaveEnter
    case Stop => Stop
    case FreeRing => FreeRing
    case Consume => Consume
    case Complete(i, res, data) => Complete(i, res, data)
  }

  lemma {:induction false} SameIsEnabled(cfg: Config, g: Geometry, s: System, act: P.Action)
    requires RingInv(cfg, g, s) && AtRest(s) && P.Enabled(cfg, Abstract(cfg, g, s), act)
    requires !act.TakeCqe? && !act.Publish? && (act.SeeEmpty? ==> Abstract(cfg, g, s).cq == [])
    ensures Enabled(cfg, g, s, Same(act)) && Meaning(cfg, g, s, Same(act)) == Some(act)
  {
    hide Pow2, BitAnd, ValidSq, ValidCq, StageOk, ReaderOk, Configured, CanPerform;
    CqTailFollowsHead(s.cq);
  }

  lemma {:induction false} SameRests(cfg: Config, g: Geometry, s: System, act: P.Action)
    requires RingInv(cfg, g, s) && AtRest(s) && Enabled(cfg, g, s, Same(act))
    requires !act.TakeCqe? && !act.Publish? && Meaning(cfg, g, s, Same(act)) == Some(act)
    ensures AtRest(Step(cfg, g, s, Same(act)))
  {
    hide Pow2, BitAnd, ValidSq, ValidCq, StageOk, ReaderOk, Configured, CanPerform, Perform, Dispatch, KernelReads,
      Post;
  }

  // Most protocol actions are one ring action.
  lemma {:induction false} LiftSame(cfg: Config, g: Geometry, acts: seq<RingAction>, ps: seq<P.Action>, act: P.Action)
    requires Stands(cfg, g, acts, ps) && RingInv(cfg, g, After(cfg, g, acts))
    requires var q := Abstract(cfg, g, After(cfg, g, acts)); P.Enabled(cfg, q, act) && (act.SeeEmpty? ==> q.cq == [])
    requires !act.TakeCqe? && !act.Publish?
    ensures Stands(cfg, g, acts + [Same(act)], ps + [act])
  {
    hide Step, Enabled, RingInv, Abstract, Meaning, Meanings, P.Enabled, Legal, After, AtRest, Same;
    var s := After(cfg, g, acts);
    SameIsEnabled(cfg, g, s, act);
    SameRests(cfg, g, s, act);
    Advance(cfg, g, acts, Same(act));
  }

  // -------------------------------------------------------------------------
  // Taking a completion: three steps, after a flush if the ring itself is empty.

  lemma {:induction false} ReadMoves(cfg: Config, g: Geometry, s: System)
    requires RingInv(cfg, g, s) && s.k.pc.LoopHead?
    ensures Enabled(cfg, g, s, ReadStep)
    ensures var s', m := Step(cfg, g, s, ReadStep), Meaning(cfg, g, s, ReadStep);
            && s'.stage == s.stage
            && (s.reader.Resting? && s.cq.head != s.cq.tail ==> s'.reader.Observed? && m.None? && s'.k == s.k)
            && (s.reader.Observed? ==> s'.reader.Copied? && m.None? && s'.k == s.k)
            && (s.reader.Copied? ==> s'.reader.Resting? && m == Some(P.TakeCqe))
  {
    hide Pow2, BitAnd, ValidSq, ValidCq, StageOk, ReaderOk, Configured, Slot;
  }

  lemma {:induction false} FlushMoves(cfg: Config, g: Geometry, s: System)
    requires RingInv(cfg, g, s) && P.Running(s.k) && s.cq.head == s.cq.tail && s.backlog != []
    ensures Enabled(cfg, g, s, Flush) && Meaning(cfg, g, s, Flush) == None
    ensures var s' := Step(cfg, g, s, Flush);
            s'.k == s.k && s'.stage == s.stage && s'.reader == s.reader && s'.cq.head != s'.cq.tail
  {
    CqTailFollowsHead(s.cq);
    PostAppends(g.cqBits, s.cq, s.backlog[0]);
    CqTailFollowsHead(Step(cfg, g, s, Flush).cq);
  }

  lemma {:induction false} LiftRead(cfg: Config, g: Geometry, acts: seq<RingAction>, ps: seq<P.Action>)
    requires Stands(cfg, g, acts, ps) && RingInv(cfg, g, After(cfg, g, acts)) && After(cfg, g, acts).k.pc.LoopHead?
    requires After(cfg, g, acts).cq.head != After(cfg, g, acts).cq.tail
    ensures Stands(cfg, g, acts + [ReadStep, ReadStep, ReadStep], ps + [P.TakeCqe])
  {
    hide Step, Enabled, RingInv, Meaning, Meanings, Legal, After;
    var a1, a2, a3 := acts + [ReadStep], acts + [ReadStep] + [ReadStep], acts + [ReadStep] + [ReadStep] + [ReadStep];
    ReadMoves(cfg, g, After(cfg, g, acts));
    Advance(cfg, g, acts, ReadStep);
    ReadMoves(cfg, g, After(cfg, g, a1));
    Advance(cfg, g, a1, ReadStep);
    ReadMoves(cfg, g, After(cfg, g, a2));
    Advance(cfg, g, a2, ReadStep);
    assert a3 == acts + [ReadStep, ReadStep, ReadStep];
  }

  lemma {:induction false} LiftTake(cfg: Config, g: Geometry, acts: seq<RingAction>, ps: seq<P.Action>)
    returns (more: seq<RingAction>)
    requires Stands(cfg, g, acts, ps) && RingInv(cfg, g, After(cfg, g, acts))
    requires P.Enabled(cfg, Abstract(cfg, g, After(cfg, g, acts)), P.TakeCqe)
    ensures Stands(cfg, g, acts + more, ps + [P.TakeCqe])
  {
    hide Step, Enabled, RingInv, Meaning, Meanings, Legal, After;
    var s := After(cfg, g, acts);
    more := [ReadStep, ReadStep, ReadStep];
    if s.cq.head == s.cq.tail {
      EmptyRing(cfg, g, s);
      FlushMoves(cfg, g, s);
      Advance(cfg, g, acts, Flush);
      assert ps + [] == ps;
      LiftRead(cfg, g, acts + [Flush], ps);
      assert acts + [Flush] + more == acts + ([Flush] + more);
      more := [Flush] + more;
    } else {
      LiftRead(cfg, g, acts, ps);
    }
  }

  lemma {:induction false} EmptyRing(cfg: Config, g: Geometry, s: System)
    requires RingInv(cfg, g, s) && s.cq.head == s.cq.tail
    ensures Abstract(cfg, g, s).cq == s.backlog
  {
    CqTailFollowsHead(s.cq);
    assert Waiting(g.cqBits, s.cq) == [];
  }

  // -------------------------------------------------------------------------
  // Publishing: what is left of a submission once its entry is acquired.

  lemma {:induction false} SubmitMoves(cfg: Config, g: Geometry, s: System)
    requires RingInv(cfg, g, s) && !s.stage.Idle?
    ensures Enabled(cfg, g, s, SubmitStep)
    ensures var s', m := Step(cfg, g, s, SubmitStep), Meaning(cfg, g, s, SubmitStep);
            && s'.reader == s.reader
            && (s.stage.Zeroed? ==> s'.stage.Owned? && m.None?)
            && (s.stage.Owned? ==> (s'.stage.Filled? && m.None?) || (s'.stage.Idle? && m == Some(P.Publish)))
            && (s.stage.Filled? ==> s'.stage.Indexed? && m.None?)
            && (s.stage.Indexed? ==> s'.stage.Idle? && m == Some(P.Publish))
  {
    var (a, op) := Current(s.k);
    ProducerStepEffect(g.sqBits, cfg.ringSize, s.sq, s.stage, a, op);
    hide Pow2, BitAnd, ValidSq, ValidCq, ReaderOk, StageOk, Configured, Pending;
  }

  // From any point inside a submission its remaining steps amount to P.Publish.
  lemma {:induction false} LiftSubmit(cfg: Config, g: Geometry, acts: seq<RingAction>, ps: seq<P.Action>)
    returns (more: seq<RingAction>)
    requires Fits(cfg, g) && Legal(cfg, g, acts) && RingInv(cfg, g, After(cfg, g, acts))
    requires !After(cfg, g, acts).stage.Idle? && After(cfg, g, acts).reader.Resting?
    requires Meanings(cfg, g, acts) == ps
    ensures Stands(cfg, g, acts + more, ps + [P.Publish])
    decreases var st := After(cfg, g, acts).stage;
              if st.Zeroed? then 3 else if st.Owned? then 2 else if st.Filled? then 1 else 0
  {
    hide Step, Enabled, RingInv, Meaning, Meanings, Legal, After;
    SubmitMoves(cfg, g, After(cfg, g, acts));
    Advance(cfg, g, acts, SubmitStep);
    more := [];
    if !After(cfg, g, acts + [SubmitStep]).stage.Idle? {
      assert ps + [] == ps;
      more := LiftSubmit(cfg, g, acts + [SubmitStep], ps);
    } else {
      assert acts + [SubmitStep] + [] == acts + [SubmitStep];
    }
    assert acts + [SubmitStep] + more == acts + ([SubmitStep] + more);
    more := [SubmitStep] + more;
  }

  // -------------------------------------------------------------------------
  // Whole runs.

  lemma {:induction false} LiftStep(cfg: Config, g: Geometry, acts: seq<RingAction>, ps: seq<P.Action>, act: P.Action)
    returns (more: seq<RingAction>)
    requires Stands(cfg, g, acts, ps) && P.Legal(cfg, ps)
    requires P.Enabled(cfg, P.After(cfg, ps), act) && (act.SeeEmpty? ==> P.After(cfg, ps).cq == [])
    ensures Stands(cfg, g, acts + more, ps + [act])
    ensures act.Consume? || act.Complete? ==> forall m :: m in more ==> KernelAction(m)
  {
    hide Step, RingInv, Meaning, Meanings, Legal, After, P.Legal, P.After;
    RingsRefineQueues(cfg, g, acts);
    if act.TakeCqe? {
      more := LiftTake(cfg, g, acts, ps);
    } else if act.Publish? {
      AcquiredIsZeroed(cfg, g, After(cfg, g, acts));
      more := LiftSubmit(cfg, g, acts, ps);
    } else {
      LiftSame(cfg, g, acts, ps, act);
      more := [Same(act)];
    }
  }

  lemma {:induction false} AcquiredIsZeroed(cfg: Config, g: Geometry, s: System)
    requires RingInv(cfg, g, s) && AtRest(s) && P.Enabled(cfg, Abstract(cfg, g, s), P.Publish)
    ensures s.stage.Zeroed?
  {
  }

  // Every such run over the queues is what some run over the rings amounts to.
  lemma {:induction false} QueuesLiftToRings(cfg: Config, g: Geometry, acts: seq<P.Action>)
    returns (lifted: seq<RingAction>)
    requires Fits(cfg, g) && P.Legal(cfg, acts) && P.SeesTruly(cfg, acts)
    ensures Legal(cfg, g, lifted) && Meanings(cfg, g, lifted) == acts && AtRest(After(cfg, g, lifted))
    ensures RingInv(cfg, g, After(cfg, g, lifted)) && Abstract(cfg, g, After(cfg, g, lifted)) == P.After(cfg, acts)
  {
    if acts == [] {
      lifted := [];
    } else {
      hide Step, RingInv, Abstract, P.Step, P.Enabled;
      var n := |acts| - 1;
      lifted := QueuesLiftToRings(cfg, g, acts[..n]);
      var more := LiftStep(cfg, g, lifted, acts[..n], acts[n]);
      assert acts[..n] + [acts[n]] == acts;
      lifted := lifted + more;
    }
    RingsRefineQueues(cfg, g, lifted);
  }

  // What the kernel can do to the queues it can do to the rings, from any state at rest.
  lemma {:induction false} KernelLifts(cfg: Config, g: Geometry, acts: seq<RingAction>, ps: seq<P.Action>,
                                       ks: seq<P.Action>)
    returns (more: seq<RingAction>)
    requires P.Legal(cfg, ps) && Stands(cfg, g, acts, ps) && P.Legal(cfg, ps + ks)
    requires forall act :: act in ks ==> act.Consume? || act.Complete?
    ensures Stands(cfg, g, acts + more, ps + ks)
    ensures forall m :: m in more ==> KernelAction(m)
  {
    hide Step, RingInv, Abstract, P.Step, P.Enabled, Stands;
    if ks == [] {
      assert ps + ks == ps;
      more := [];
      assert acts + more == acts;
    } else {
      var n := |ks| - 1;
      assert (ps + ks)[..|ps| + n] == ps + ks[..n] && (ps + ks)[|ps| + n] == ks[n];
      assert ks[n] in ks;
      more := KernelLifts(cfg, g, acts, ps, ks[..n]);
      var last := LiftStep(cfg, g, acts + more, ps + ks[..n], ks[n]);
      assert acts + more + last == acts + (more + last);
      assert ps + ks[..n] + [ks[n]] == ps + ks;
      more := more + last;
    }
  }

  // -------------------------------------------------------------------------
  // So the capacity bound is exact over the rings as well.

  lemma {:induction false} LiveOverRings(cfg: Config, g: Geometry, acts: seq<RingAction>, cap: nat)
    requires Fits(cfg, g) && Legal(cfg, g, acts)
    requires P.Legal(cfg, Meanings(cfg, g, acts)) && T.NeverMoreThan(cfg, Meanings(cfg, g, acts), cap)
    ensures AtMostLive(cfg, g, acts, cap)
  {
    hide Step, Enabled, P.Step, P.Enabled, RingInv;
    RingsRefineQueues(cfg, g, acts);
    if acts != [] {
      var n := |acts| - 1;
      RingsRefineQueues(cfg, g, acts[..n]);
      var ms := Meanings(cfg, g, acts[..n]);
      var m := Meaning(cfg, g, After(cfg, g, acts[..n]), acts[n]);
      assert m.Some? ==> (ms + [m.value])[..|ms|] == ms;
      assert ms + [] == ms;
      LiveOverRings(cfg, g, acts[..n], cap);
    }
  }

  lemma {:induction false} OneMoreIsTooManyOverRings(cfg: Config, g: Geometry) returns (acts: seq<RingAction>)
    requires Fits(cfg, g) && CapacityBound.Plain(cfg)
    ensures Legal(cfg, g, acts) && AtMostLive(cfg, g, acts, cfg.ringSize + 1)
    ensures After(cfg, g, acts).k.pc == Exited(RingBusy)
  {
    var ps := CapacityBound.OneMoreIsTooMany(cfg);
    hide Legal, After, P.Legal, P.After, RingInv, T.NeverMoreThan, AtMostLive, Meanings, P.SeesTruly;
    acts := QueuesLiftToRings(cfg, g, ps);
    LiveOverRings(cfg, g, acts, cfg.ringSize + 1);
  }

  // -------------------------------------------------------------------------
  // And the rings carry every message of a client's whole life.

  lemma {:induction false} WholeLifeOverRings(cfg: Config, g: Geometry, m: seq<Byte>) returns (acts: seq<RingAction>)
    requires Fits(cfg, g) && LifeCycle.Serviceable(cfg) && |m| == cfg.msgSize
    ensures Legal(cfg, g, acts) && AtMostLive(cfg, g, acts, LifeCycle.CAP)
    ensures After(cfg, g, acts).k.pc.LoopHead? && LifeCycle.Served(After(cfg, g, acts).k, m)
  {
    var ps := LifeCycle.WholeLife(cfg, m);
    hide Legal, After, P.Legal, P.After, RingInv, T.NeverMoreThan, AtMostLive, Meanings, P.SeesTruly, LifeCycle.Served;
    acts := QueuesLiftToRings(cfg, g, ps);
    LiveOverRings(cfg, g, acts, LifeCycle.CAP);
  }
}
