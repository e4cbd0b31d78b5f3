/** The end of the io_uring server: do_service_loop_cleanup closes the descriptor of
    every tracked client, one after the other, and asserts that each close succeeds. */
module Shutdown {
  import opened IouTypes
  import opened ServerCore
  import opened Protocol
  import opened ProtocolInvariant
  import opened ProtocolSteps
  import opened ProtocolHandlers

  // The loop is over.
  predicate Ended(k: Core) { k.pc.Stopped? || k.pc.RingFreed? }

  // Successive close calls on a table of open descriptors; None once a close fails.
  function CloseAll(conns: map<int, nat>, fds: seq<int>): Option<map<int, nat>> {
    if fds == [] then Some(conns)
    else if fds[0] !in conns then None
    else CloseAll(conns - {fds[0]}, fds[1..])
  }

  // The descriptors the cleanup loop visits, in list order.
  function TrackedFds(k: Core): seq<int> {
    seq(|k.tracked|, i requires 0 <= i < |k.tracked| =>
      if k.tracked[i] in k.ops then k.ops[k.tracked[i]].fd else -1)
  }

  // Every assertion after a close holds.
  predicate Succeeds(k: Core) { CloseAll(k.conns, TrackedFds(k)).Some? }

  lemma {:induction false} CloseAllExact(conns: map<int, nat>, fds: seq<int>)
    requires forall i, j :: 0 <= i < j < |fds| ==> fds[i] != fds[j]
    ensures CloseAll(conns, fds).Some? <==> forall f :: f in fds ==> f in conns
    ensures CloseAll(conns, fds).Some? ==>
              CloseAll(conns, fds).value == map f | f in conns && f !in fds :: conns[f]
  {
    if fds == [] {
      assert conns == map f | f in conns && f !in fds :: conns[f];
    } else if fds[0] !in conns {
      assert fds[0] in fds;
    } else {
      CloseAllExact(conns - {fds[0]}, fds[1..]);
      assert fds == [fds[0]] + fds[1..];
      assert fds[0] !in fds[1..];
      assert (forall f :: f in fds ==> f in conns) <==>
             (forall f :: f in fds[1..] ==> f in conns - {fds[0]});
    }
  }

  lemma {:induction false} TrackedPositions(cfg: Config, k: Core, i: nat, j: nat)
    requires Heap(cfg, k) && i < j < |k.tracked|
    ensures k.tracked[i] != k.tracked[j]
  {
    var q := k.tracked;
    assert q == q[..j] + [q[j]] + q[j + 1..];
    assert q[i] == q[..j][i] && q[..j][i] in q[..j];
    assert q[i] in q;
  }

  lemma {:induction false} TrackedFdsDistinct(cfg: Config, s: State)
    requires Heap(cfg, s.k) && OwnSockets(cfg, s)
    ensures forall i, j :: 0 <= i < j < |TrackedFds(s.k)| ==> TrackedFds(s.k)[i] != TrackedFds(s.k)[j]
  {
    forall i: nat, j: nat | i < j < |s.k.tracked| ensures TrackedFds(s.k)[i] != TrackedFds(s.k)[j] {
      TrackedPositions(cfg, s.k, i, j);
      assert s.k.tracked[i] in s.k.tracked && s.k.tracked[j] in s.k.tracked;
    }
  }

  // The number of a descriptor closed by a waiting CLOSE completion has been handed
  // out again, to a connection the server has not been told about.
  ghost predicate Reassigned(cq: seq<Completion>, f: int) { exists j :: Unseen(cq, j, f) }

  // A tracked descriptor is open at shutdown exactly when no CLOSE completion for it
  // is waiting, or its number has been reassigned.
  lemma {:induction false} TrackedOpenIff(cfg: Config, s: State, a: Addr)
    requires Full(cfg, s) && Ended(s.k) && a in s.k.tracked
    ensures a in s.k.ops
    ensures s.k.ops[a].fd in s.k.conns <==>
              !ClosedBy(s.cq, |s.cq|, a) || Reassigned(s.cq, s.k.ops[a].fd)
  {
    hide Unique, Requests, Echo, Accounted, Room;
    var f := s.k.ops[a].fd;
    if f in s.k.conns && ClosedBy(s.cq, |s.cq|, a) {
      if b :| Holds(s.k, b, f) {
        assert b != a;
      }
    }
    if j :| Unseen(s.cq, j, f) {
      assert SocketOk(s.k, Events(s), j);
    }
  }

  lemma {:induction false} WaitingCloseIsTracked(cfg: Config, s: State, i: nat)
    requires Full(cfg, s) && Ended(s.k) && i < |s.cq| && IsClose(s.cq[i])
    ensures var a := s.cq[i].req.userData;
            a in s.k.tracked && a in s.k.ops && s.k.ops[a].fd == s.cq[i].req.fd && ClosedBy(s.cq, |s.cq|, a)
  {
    hide Unique, Sockets, Echo, Accounted, Room;
    assert s.cq[i] in Events(s);
    assert ReqOk(s.k, s.cq[i].req);
  }

  // The condition under which the cleanup closes every tracked descriptor: none of
  // them is already closed by a CLOSE completion still in the queue.
  ghost predicate NoDeadClose(cq: seq<Completion>) {
    forall i :: 0 <= i < |cq| && IsClose(cq[i]) ==> Reassigned(cq, cq[i].req.fd)
  }

  // The cleanup runs to its end, closing each tracked descriptor once, if and only if
  // that condition holds when the ring is freed.
  lemma {:induction false} CleanupSucceedsIff(cfg: Config, acts: seq<Action>)
    requires Legal(cfg, acts) && After(cfg, acts).k.pc.RingFreed?
    ensures var s := After(cfg, acts);
            CloseAll(s.k.conns, TrackedFds(s.k)).Some? <==> NoDeadClose(s.cq)
  {
    var s := After(cfg, acts);
    RunKeepsInv(cfg, acts);
    CleanupSucceedsIffIn(cfg, s);
  }

  lemma {:induction false} CleanupSucceedsIffIn(cfg: Config, s: State)
    requires Full(cfg, s) && Ended(s.k)
    ensures CloseAll(s.k.conns, TrackedFds(s.k)).Some? <==> NoDeadClose(s.cq)
  {
    hide Unique, Requests, Echo, Accounted, Room, OwnSockets, UnseenSockets, NoStraySocket, Reassigned;
    TrackedFdsDistinct(cfg, s);
    CloseAllExact(s.k.conns, TrackedFds(s.k));
    if forall f :: f in TrackedFds(s.k) ==> f in s.k.conns {
      forall i | 0 <= i < |s.cq| && IsClose(s.cq[i]) ensures Reassigned(s.cq, s.cq[i].req.fd) {
        WaitingCloseIsTracked(cfg, s, i);
        TrackedFdIn(s.k, s.cq[i].req.userData);
        TrackedOpenIff(cfg, s, s.cq[i].req.userData);
      }
    }
    if NoDeadClose(s.cq) {
      forall n | 0 <= n < |s.k.tracked| ensures TrackedFds(s.k)[n] in s.k.conns {
        var a := s.k.tracked[n];
        assert a in s.k.tracked;
        TrackedOpenIff(cfg, s, a);
        if ClosedBy(s.cq, |s.cq|, a) {
          var i :| 0 <= i < |s.cq| && IsClose(s.cq[i]) && s.cq[i].req.userData == a;
          WaitingCloseIsTracked(cfg, s, i);
        }
      }
    }
  }

  lemma {:induction false} TrackedFdIn(k: Core, a: Addr)
    requires a in k.tracked && a in k.ops
    ensures k.ops[a].fd in TrackedFds(k)
  {
    var i :| 0 <= i < |k.tracked| && k.tracked[i] == a;
    assert TrackedFds(k)[i] == k.ops[a].fd;
  }

  // After a cleanup that succeeds, the sockets still open are those accepted by the
  // kernel whose completion the server never took; if there is none, none is open.
  lemma {:induction false} CleanupLeavesUnseen(cfg: Config, acts: seq<Action>, f: int)
    requires Legal(cfg, acts) && After(cfg, acts).k.pc.RingFreed?
    requires var s := After(cfg, acts); CloseAll(s.k.conns, TrackedFds(s.k)).Some?
    ensures var s := After(cfg, acts);
            f in CloseAll(s.k.conns, TrackedFds(s.k)).value <==>
            Reassigned(s.cq, f) && f !in TrackedFds(s.k)
  {
    hide Unique, Requests, Echo, Accounted, Room;
    var s := After(cfg, acts);
    RunKeepsInv(cfg, acts);
    TrackedFdsDistinct(cfg, s);
    CloseAllExact(s.k.conns, TrackedFds(s.k));
    if a :| Holds(s.k, a, f) {
      TrackedFdIn(s.k, a);
    }
    if j :| Unseen(s.cq, j, f) {
      assert SocketOk(s.k, Events(s), j);
    }
  }

  // -------------------------------------------------------------------------
  // From the end of the loop. Benchmark results are saved and the ring is unmapped
  // before its descriptor is closed, and the kernel goes on until then.

  ghost predicate KernelOnly(acts: seq<Action>) {
    forall act :: act in acts ==> act.Consume? || act.Complete?
  }

  // No CLOSE the kernel can still carry out is left, and none it has carried out
  // leaves a number dead. Without kernel polling the entries in the SQ are never read.
  ghost predicate Settled(cfg: Config, s: State) {
    && (forall e :: e in s.k.flight ==> !e.opcode.Close?)
    && (cfg.sqpoll ==> forall e :: e in s.sq ==> !e.opcode.Close?)
    && NoDeadClose(s.cq)
  }

  lemma {:induction false} NoDeadCloseGrows(cq: seq<Completion>, c: Completion)
    requires NoDeadClose(cq) && !IsClose(c)
    ensures NoDeadClose(cq + [c])
  {
    forall i | 0 <= i < |cq + [c]| && IsClose((cq + [c])[i]) ensures Reassigned(cq + [c], (cq + [c])[i].req.fd) {
      assert IsClose(cq[i]);
      var j :| Unseen(cq, j, cq[i].req.fd);
      assert Unseen(cq + [c], j, cq[i].req.fd);
    }
  }

  lemma {:induction false} SettledStays(cfg: Config, s: State, act: Action)
    requires Settled(cfg, s) && s.k.pc.Stopped? && Enabled(cfg, s, act) && (act.Consume? || act.Complete?)
    ensures Settled(cfg, Step(cfg, s, act)) && Step(cfg, s, act).k.pc.Stopped?
  {
    hide NoDeadClose;
    if act.Complete? {
      assert s.k.flight[act.i] in s.k.flight;
      NoDeadCloseGrows(s.cq, Completion(s.k.flight[act.i], act.res));
    }
  }

  lemma {:induction false} SettledThroughout(cfg: Config, acts: seq<Action>, ks: seq<Action>)
    requires Legal(cfg, acts + ks) && KernelOnly(ks)
    requires Legal(cfg, acts) && After(cfg, acts).k.pc.Stopped? && Settled(cfg, After(cfg, acts))
    ensures After(cfg, acts + ks).k.pc.Stopped? && Settled(cfg, After(cfg, acts + ks))
  {
    hide Settled, Step, Enabled;
    if ks == [] {
      assert acts + ks == acts;
    } else {
      var n := |ks| - 1;
      assert (acts + ks)[..|acts| + n] == acts + ks[..n] && (acts + ks)[|acts| + n] == ks[n];
      SettledThroughout(cfg, acts, ks[..n]);
      assert ks[n] in ks;
      SettledStays(cfg, After(cfg, acts + ks[..n]), ks[n]);
    }
  }

  lemma {:induction false} FreesTheRing(cfg: Config, acts: seq<Action>)
    requires Legal(cfg, acts) && After(cfg, acts).k.pc.Stopped?
    ensures Legal(cfg, acts + [FreeRing])
    ensures Succeeds(After(cfg, acts + [FreeRing]).k) <==> NoDeadClose(After(cfg, acts).cq)
  {
    RunExtends(cfg, acts, FreeRing);
    hide Legal, After, NoDeadClose, CloseAll, TrackedFds;
    CleanupSucceedsIff(cfg, acts + [FreeRing]);
  }

  // The kernel can carry out any CLOSE in flight, and that leaves a dead number.
  lemma {:induction false} CloseLeavesDead(cfg: Config, acts: seq<Action>, i: nat)
    requires Legal(cfg, acts) && After(cfg, acts).k.pc.Stopped?
    requires i < |After(cfg, acts).k.flight| && After(cfg, acts).k.flight[i].opcode.Close?
    ensures var act := Complete(i, 0, []);
            && Legal(cfg, acts + [act]) && After(cfg, acts + [act]).k.pc.Stopped?
            && !NoDeadClose(After(cfg, acts + [act]).cq)
  {
    var s, act := After(cfg, acts), Complete(i, 0, []);
    RunKeepsInv(cfg, acts);
    FlightFacts(cfg, s, i);
    RunExtends(cfg, acts, act);
    RunKeepsInv(cfg, acts + [act]);
    ClosedIsDead(cfg, s, Step(cfg, s, act), i);
  }

  lemma {:induction false} ClosedIsDead(cfg: Config, s: State, s': State, i: nat)
    requires i < |s.k.flight| && s.k.flight[i].opcode.Close? && CanPerform(cfg, s.k, i, 0, [])
    requires s' == State(Perform(cfg, s.k, i, 0, []), s.sq, s.cq + [Completion(s.k.flight[i], 0)])
    requires Full(cfg, s') && Ended(s'.k)
    ensures !NoDeadClose(s'.cq)
  {
    hide Unique, Requests, Echo, Accounted, Room, OwnSockets, NoStraySocket;
    var f, n := s.k.flight[i].fd, |s.cq|;
    assert s'.cq[n] == Completion(s.k.flight[i], 0) && IsClose(s'.cq[n]);
    forall j: nat ensures !Unseen(s'.cq, j, f) {
      assert j < |s'.cq| && IsSocket(s'.cq[j]) ==> SocketOk(s'.k, Events(s'), j);
    }
  }

  // A continuation that makes the cleanup fail.
  lemma {:induction false} DeadCloseAhead(cfg: Config, acts: seq<Action>) returns (ks: seq<Action>)
    requires Legal(cfg, acts) && After(cfg, acts).k.pc.Stopped? && !Settled(cfg, After(cfg, acts))
    ensures KernelOnly(ks) && Legal(cfg, acts + ks + [FreeRing])
    ensures !Succeeds(After(cfg, acts + ks + [FreeRing]).k)
    decreases |After(cfg, acts).sq|
  {
    hide Legal, After, CloseAll, TrackedFds, NoDeadClose, Succeeds;
    var s := After(cfg, acts);
    if i :| 0 <= i < |s.k.flight| && s.k.flight[i].opcode.Close? {
      ks := [Complete(i, 0, [])];
      CloseLeavesDead(cfg, acts, i);
      FreesTheRing(cfg, acts + ks);
    } else if cfg.sqpoll && exists e :: e in s.sq && e.opcode.Close? {
      RunExtends(cfg, acts, Consume);
      var e :| e in s.sq && e.opcode.Close?;
      assert e in After(cfg, acts + [Consume]).k.flight || e in After(cfg, acts + [Consume]).sq by {
        assert s.sq == [s.sq[0]] + s.sq[1..];
      }
      ks := DeadCloseAhead(cfg, acts + [Consume]);
      assert acts + [Consume] + ks == acts + ([Consume] + ks);
      ks := [Consume] + ks;
    } else {
      ks := [];
      assert acts + ks == acts;
      FreesTheRing(cfg, acts);
    }
  }

  // Whatever the kernel does between the end of the loop and the freeing of the ring,
  // the cleanup succeeds: this holds if and only if the loop ends settled.
  lemma {:induction false} CleanupIsSafeIff(cfg: Config, acts: seq<Action>)
    requires Legal(cfg, acts) && After(cfg, acts).k.pc.Stopped?
    ensures (forall ks :: KernelOnly(ks) && Legal(cfg, acts + ks + [FreeRing]) ==>
               Succeeds(After(cfg, acts + ks + [FreeRing]).k))
            <==> Settled(cfg, After(cfg, acts))
  {
    hide Succeeds, Settled, Step, Enabled;
    if Settled(cfg, After(cfg, acts)) {
      forall ks | KernelOnly(ks) && Legal(cfg, acts + ks + [FreeRing])
        ensures Succeeds(After(cfg, acts + ks + [FreeRing]).k)
      {
        assert (acts + ks + [FreeRing])[..|acts + ks|] == acts + ks;
        SettledThroughout(cfg, acts, ks);
        FreesTheRing(cfg, acts + ks);
        SettledIsAlive(cfg, After(cfg, acts + ks));
      }
    } else {
      var ks := DeadCloseAhead(cfg, acts);
    }
  }

  lemma {:induction false} SettledIsAlive(cfg: Config, s: State)
    requires Settled(cfg, s)
    ensures NoDeadClose(s.cq)
  {
  }
}
