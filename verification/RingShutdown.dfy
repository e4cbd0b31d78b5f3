/** The end of the io_uring server over its rings: when the cleanup is safe from whatever
    the kernel still does, and a run in which it is not. */
module RingShutdown {
  import opened IouTypes
  import opened ServerCore
  import opened RingServer
  import opened RingLifting
  import P = Protocol
  import opened ProtocolInvariant
  import H = ProtocolHandlers
  import opened Shutdown
  import ShutdownFailure

  ghost predicate ByKernelOnly(acts: seq<RingAction>) { forall act :: act in acts ==> KernelAction(act) }

  lemma {:induction false} RingsKeepFull(cfg: Config, g: Geometry, acts: seq<RingAction>)
    requires Fits(cfg, g) && Legal(cfg, g, acts) && !After(cfg, g, acts).k.pc.Exited?
    ensures RingInv(cfg, g, After(cfg, g, acts)) && Full(cfg, Abstract(cfg, g, After(cfg, g, acts)))
  {
    RingsRefineQueues(cfg, g, acts);
    H.RunKeepsInv(cfg, Meanings(cfg, g, acts));
  }

  lemma {:induction false} FreeingKeepsQueues(cfg: Config, g: Geometry, s: System)
    requires RingInv(cfg, g, s) && s.k.pc.Stopped?
    ensures var s' := s.(k := s.k.(pc := RingFreed));
            RingInv(cfg, g, s') && Abstract(cfg, g, s') == Abstract(cfg, g, s).(k := s'.k)
  {
    StepRefines(cfg, g, s, FreeRing);
  }

  lemma {:induction false} RingFreesTheRing(cfg: Config, g: Geometry, acts: seq<RingAction>)
    requires Fits(cfg, g) && Legal(cfg, g, acts) && After(cfg, g, acts).k.pc.Stopped?
    ensures RingInv(cfg, g, After(cfg, g, acts)) && Legal(cfg, g, acts + [FreeRing])
    ensures Succeeds(After(cfg, g, acts + [FreeRing]).k) <==> NoDeadClose(Abstract(cfg, g, After(cfg, g, acts)).cq)
  {
    hide Full;
    RingsKeepFull(cfg, g, acts);
    RingRunExtends(cfg, g, acts, FreeRing);
    RingsKeepFull(cfg, g, acts + [FreeRing]);
    FreeingKeepsQueues(cfg, g, After(cfg, g, acts));
    hide Legal, After, NoDeadClose, CloseAll, TrackedFds, Full, RingInv, Abstract;
    CleanupSucceedsIffIn(cfg, Abstract(cfg, g, After(cfg, g, acts + [FreeRing])));
  }

  lemma {:induction false} SettledStaysOverRings(cfg: Config, g: Geometry, s: System, act: RingAction)
    requires RingInv(cfg, g, s) && s.k.pc.Stopped? && Settled(cfg, Abstract(cfg, g, s))
    requires Enabled(cfg, g, s, act) && KernelAction(act)
    ensures RingInv(cfg, g, Step(cfg, g, s, act)) && Step(cfg, g, s, act).k.pc.Stopped?
    ensures Settled(cfg, Abstract(cfg, g, Step(cfg, g, s, act)))
  {
    StepRefines(cfg, g, s, act);
    hide Step, Enabled, RingInv, Settled, P.Step, P.Enabled;
    var m := Meaning(cfg, g, s, act);
    if m.Some? {
      SettledStays(cfg, Abstract(cfg, g, s), m.value);
    }
  }

  lemma {:induction false} SettledThroughoutOverRings(cfg: Config, g: Geometry, acts: seq<RingAction>,
    ks: seq<RingAction>)
    requires Fits(cfg, g) && Legal(cfg, g, acts + ks) && ByKernelOnly(ks) && Legal(cfg, g, acts)
    requires RingInv(cfg, g, After(cfg, g, acts)) && After(cfg, g, acts).k.pc.Stopped?
    requires Settled(cfg, Abstract(cfg, g, After(cfg, g, acts)))
    ensures RingInv(cfg, g, After(cfg, g, acts + ks)) && After(cfg, g, acts + ks).k.pc.Stopped?
    ensures Settled(cfg, Abstract(cfg, g, After(cfg, g, acts + ks)))
  {
    hide Settled, Step, Enabled, RingInv, Abstract, Fits;
    if ks == [] {
      assert acts + ks == acts;
    } else {
      var n := |ks| - 1;
      assert (acts + ks)[..|acts| + n] == acts + ks[..n] && (acts + ks)[|acts| + n] == ks[n];
      SettledThroughoutOverRings(cfg, g, acts, ks[..n]);
      assert ks[n] in ks;
      SettledStaysOverRings(cfg, g, After(cfg, g, acts + ks[..n]), ks[n]);
    }
  }

  // If the loop did not end settled, the kernel can make the cleanup fail.
  lemma {:induction false} DeadCloseAheadOverRings(cfg: Config, g: Geometry, acts: seq<RingAction>)
    returns (ks: seq<RingAction>)
    requires Fits(cfg, g) && Legal(cfg, g, acts) && RingInv(cfg, g, After(cfg, g, acts))
    requires After(cfg, g, acts).k.pc.Stopped? && !Settled(cfg, Abstract(cfg, g, After(cfg, g, acts)))
    ensures ByKernelOnly(ks) && Legal(cfg, g, acts + ks + [FreeRing])
    ensures !Succeeds(After(cfg, g, acts + ks + [FreeRing]).k)
  {
    var ps := Meanings(cfg, g, acts);
    RingsRefineQueues(cfg, g, acts);
    assert Stands(cfg, g, acts, ps);
    hide Step, Enabled, Legal, After, P.Step, P.Enabled, Settled, CloseAll, TrackedFds, NoDeadClose, Meanings, RingInv;
    var qs := DeadCloseAhead(cfg, ps);
    assert (ps + qs + [P.FreeRing])[..|ps + qs|] == ps + qs;
    ks := KernelLifts(cfg, g, acts, ps, qs);
    DeadAtFree(cfg, ps + qs);
    RingsRefineQueues(cfg, g, acts + ks);
    RingFreesTheRing(cfg, g, acts + ks);
  }

  lemma {:induction false} DeadAtFree(cfg: Config, acts: seq<P.Action>)
    requires P.Legal(cfg, acts + [P.FreeRing]) && !Succeeds(P.After(cfg, acts + [P.FreeRing]).k)
    ensures P.Legal(cfg, acts) && P.After(cfg, acts).k.pc.Stopped? && !NoDeadClose(P.After(cfg, acts).cq)
  {
    hide NoDeadClose, CloseAll, TrackedFds, Succeeds;
    assert (acts + [P.FreeRing])[..|acts|] == acts;
    FreesTheRing(cfg, acts);
  }

  // The theorem of Shutdown, over the rings: from the end of the loop the cleanup is
  // safe from everything the kernel may still do if and only if the loop ends settled.
  lemma {:induction false} CleanupIsSafeIffOverRings(cfg: Config, g: Geometry, acts: seq<RingAction>)
    requires Fits(cfg, g) && Legal(cfg, g, acts) && After(cfg, g, acts).k.pc.Stopped?
    ensures RingInv(cfg, g, After(cfg, g, acts))
    ensures (forall ks :: ByKernelOnly(ks) && Legal(cfg, g, acts + ks + [FreeRing]) ==>
               Succeeds(After(cfg, g, acts + ks + [FreeRing]).k))
            <==> Settled(cfg, Abstract(cfg, g, After(cfg, g, acts)))
  {
    RingsKeepFull(cfg, g, acts);
    hide Succeeds, Settled, Step, Enabled, RingInv, Abstract, Full;
    if Settled(cfg, Abstract(cfg, g, After(cfg, g, acts))) {
      forall ks | ByKernelOnly(ks) && Legal(cfg, g, acts + ks + [FreeRing])
        ensures Succeeds(After(cfg, g, acts + ks + [FreeRing]).k)
      {
        assert (acts + ks + [FreeRing])[..|acts + ks|] == acts + ks;
        SettledThroughoutOverRings(cfg, g, acts, ks);
        RingFreesTheRing(cfg, g, acts + ks);
        SettledIsAlive(cfg, Abstract(cfg, g, After(cfg, g, acts + ks)));
      }
    } else {
      var ks := DeadCloseAheadOverRings(cfg, g, acts);
    }
  }

  // A run over the rings, whatever their sizes, after which the assertion on close
  // fails: the only client hangs up, and its CLOSE is carried out after the loop's end.
  lemma {:induction false} CleanupCanFail(g: Geometry) returns (acts: seq<RingAction>)
    requires Fits(ShutdownFailure.DEMO, g)
    ensures Legal(ShutdownFailure.DEMO, g, acts) && After(ShutdownFailure.DEMO, g, acts).k.pc.RingFreed?
    ensures !Succeeds(After(ShutdownFailure.DEMO, g, acts).k)
  {
    var ps := ShutdownFailure.QueuesCanFail();
    hide Legal, After, P.Legal, P.After, CloseAll, TrackedFds, RingInv;
    P.NeverEmptyIsTrue(ShutdownFailure.DEMO, ps);
    acts := QueuesLiftToRings(ShutdownFailure.DEMO, g, ps);
  }
}
