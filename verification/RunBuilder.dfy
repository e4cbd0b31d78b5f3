/** Runs built stretch by stretch, for the lemmas that show what can happen. */
module RunBuilder {
  import opened IouTypes
  import opened ServerCore
  import opened Protocol
  import opened ProtocolInvariant
  import opened ProtocolSteps
  import opened ProtocolHandlers
  import opened ProtocolTheorems

  // A run that exists over the rings too, in which at most `cap` ops are ever live.
  ghost predicate Ran(cfg: Config, cap: nat, acts: seq<Action>) {
    Legal(cfg, acts) && NeverMoreThan(cfg, acts, cap) && SeesTruly(cfg, acts)
  }

  ghost function Now(cfg: Config, cap: nat, acts: seq<Action>): State
    requires Ran(cfg, cap, acts)
  {
    After(cfg, acts)
  }

  lemma {:induction false} Do(cfg: Config, cap: nat, acts: seq<Action>, act: Action)
    requires Ran(cfg, cap, acts) && Enabled(cfg, Now(cfg, cap, acts), act)
    requires act.SeeEmpty? ==> Now(cfg, cap, acts).cq == []
    requires LiveCount(Step(cfg, Now(cfg, cap, acts), act).k) <= cap
    ensures Ran(cfg, cap, acts + [act]) && Now(cfg, cap, acts + [act]) == Step(cfg, Now(cfg, cap, acts), act)
  {
    hide Step, Enabled, LiveCount;
    RunExtends(cfg, acts, act);
    assert (acts + [act])[..|acts|] == acts;
  }

  lemma {:induction false} Sound(cfg: Config, cap: nat, acts: seq<Action>)
    requires Ran(cfg, cap, acts) && !Now(cfg, cap, acts).k.pc.Exited?
    ensures Full(cfg, Now(cfg, cap, acts))
  {
    hide Full, EchoSafe;
    RunKeepsInv(cfg, acts);
  }

  lemma {:induction false} RanLive(cfg: Config, cap: nat, acts: seq<Action>)
    requires Ran(cfg, cap, acts)
    ensures LiveCount(Now(cfg, cap, acts).k) <= cap
  {
  }

  // One submission.
  lemma {:induction false} Push(cfg: Config, cap: nat, acts: seq<Action>) returns (acts': seq<Action>)
    requires Ran(cfg, cap, acts) && |Now(cfg, cap, acts).sq| < cfg.ringSize
    requires var pc := Now(cfg, cap, acts).k.pc; pc.Submitting? && pc.todo != [] && !pc.acquired
    ensures Ran(cfg, cap, acts')
    ensures var s, s' := Now(cfg, cap, acts), Now(cfg, cap, acts');
            && s'.k == s.k.(pc := Submitting(s.k.pc.todo[1..], s.k.pc.ret, false)) && s'.cq == s.cq
            && |s'.sq| == |s.sq| + 1 && Ids(s'.sq) == Ids(s.sq) + multiset{s.k.pc.todo[0]}
  {
    hide Ran, Full, Configured, NeverMoreThan;
    var s := Now(cfg, cap, acts);
    Sound(cfg, cap, acts);
    RanLive(cfg, cap, acts);
    Do(cfg, cap, acts, Acquire);
    TodoIsKnown(cfg, s, s.k.pc.todo[0]);
    Do(cfg, cap, acts + [Acquire], Publish);
    IdsPush(s.sq, Configured(s.k.pc.todo[0], s.k.ops[s.k.pc.todo[0]]).value);
    acts' := acts + [Acquire] + [Publish];
  }

  // The end of a handler.
  lemma {:induction false} Finish(cfg: Config, cap: nat, acts: seq<Action>) returns (acts': seq<Action>)
    requires Ran(cfg, cap, acts) && Now(cfg, cap, acts).k.pc.Submitting? && Now(cfg, cap, acts).k.pc.todo == []
    ensures Ran(cfg, cap, acts')
    ensures var s, s' := Now(cfg, cap, acts), Now(cfg, cap, acts');
            s'.k == s.k.(pc := LoopHead, toSubmit := s'.k.toSubmit) && s'.cq == s.cq && s'.sq == s.sq
  {
    hide Ran;
    RanLive(cfg, cap, acts);
    Do(cfg, cap, acts, Return);
    acts' := acts + [Return];
  }

  // The kernel reads everything, as it may in kernel poll mode and must in io_uring_enter.
  lemma {:induction false} ReadAll(cfg: Config, cap: nat, acts: seq<Action>) returns (acts': seq<Action>)
    requires Ran(cfg, cap, acts)
    requires var pc := Now(cfg, cap, acts).k.pc; if cfg.sqpoll then pc.LoopHead? else pc.Entering?
    ensures Ran(cfg, cap, acts')
    ensures var s, s' := Now(cfg, cap, acts), Now(cfg, cap, acts');
            && s'.k == s.k.(flight := s'.k.flight, pc := if cfg.sqpoll then LoopHead else Entering(0))
            && s'.cq == s.cq && s'.sq == []
    decreases |Now(cfg, cap, acts).sq|
  {
    hide Ran, Heap, Unique, Requests, Sockets, Echo, Room;
    var s := Now(cfg, cap, acts);
    acts' := acts;
    Sound(cfg, cap, acts);
    if s.sq != [] {
      RanLive(cfg, cap, acts);
      Do(cfg, cap, acts, Consume);
      acts' := ReadAll(cfg, cap, acts + [Consume]);
    }
  }

  // The server finds nothing to take and hands over what it has published.
  lemma {:induction false} HandOver(cfg: Config, cap: nat, acts: seq<Action>) returns (acts': seq<Action>)
    requires Ran(cfg, cap, acts) && Now(cfg, cap, acts).k.pc.LoopHead? && Now(cfg, cap, acts).cq == []
    ensures Ran(cfg, cap, acts')
    ensures var s, s' := Now(cfg, cap, acts), Now(cfg, cap, acts');
            && s'.k == s.k.(flight := s'.k.flight, toSubmit := s'.k.toSubmit) && s'.cq == [] && s'.sq == []
  {
    hide Ran;
    RanLive(cfg, cap, acts);
    if cfg.sqpoll {
      acts' := ReadAll(cfg, cap, acts);
    } else {
      Do(cfg, cap, acts, SeeEmpty);
      acts' := ReadAll(cfg, cap, acts + [SeeEmpty]);
      RanLive(cfg, cap, acts');
      Do(cfg, cap, acts', LeaveEnter);
      acts' := acts' + [LeaveEnter];
    }
  }

  // The rest of a handler, up to the next time the server waits.
  lemma {:induction false} Submit(cfg: Config, cap: nat, acts: seq<Action>) returns (acts': seq<Action>)
    requires Ran(cfg, cap, acts) && Now(cfg, cap, acts).cq == []
    requires var s := Now(cfg, cap, acts);
             s.k.pc.Submitting? && !s.k.pc.acquired && |s.sq| + |s.k.pc.todo| <= cfg.ringSize
    ensures Ran(cfg, cap, acts')
    ensures var s, s' := Now(cfg, cap, acts), Now(cfg, cap, acts');
            && s'.k == s.k.(pc := LoopHead, flight := s'.k.flight, toSubmit := s'.k.toSubmit)
            && s'.cq == [] && s'.sq == []
    decreases |Now(cfg, cap, acts).k.pc.todo|
  {
    hide Ran;
    if Now(cfg, cap, acts).k.pc.todo == [] {
      acts' := Finish(cfg, cap, acts);
      acts' := HandOver(cfg, cap, acts');
    } else {
      acts' := Push(cfg, cap, acts);
      acts' := Submit(cfg, cap, acts');
    }
  }

  // A completion is taken and handled.
  lemma {:induction false} Take(cfg: Config, cap: nat, acts: seq<Action>, block: Addr) returns (acts': seq<Action>)
    requires Ran(cfg, cap, acts) && Now(cfg, cap, acts).k.pc.LoopHead? && |Now(cfg, cap, acts).cq| == 1
    requires var s := Now(cfg, cap, acts);
             && Allocatable(s.k, block)
             && LiveCount(Dispatch(cfg, s.k.(pc := Handling(s.cq[0])), block)) <= cap
    ensures Ran(cfg, cap, acts')
    ensures var s, s' := Now(cfg, cap, acts), Now(cfg, cap, acts');
            s' == State(Dispatch(cfg, s.k.(pc := Handling(s.cq[0])), block), s.sq, [])
  {
    hide Ran, Dispatch;
    RanLive(cfg, cap, acts);
    Do(cfg, cap, acts, TakeCqe);
    Do(cfg, cap, acts + [TakeCqe], Handle(block));
    acts' := acts + [TakeCqe] + [Handle(block)];
  }

  // The kernel carries a request out.
  lemma {:induction false} Finished(cfg: Config, cap: nat, acts: seq<Action>, i: nat, res: int, data: seq<Byte>)
    requires Ran(cfg, cap, acts) && CanPerform(cfg, Now(cfg, cap, acts).k, i, res, data)
    requires Running(Now(cfg, cap, acts).k)
    ensures Ran(cfg, cap, acts + [Complete(i, res, data)])
    ensures var s := Now(cfg, cap, acts);
            Now(cfg, cap, acts + [Complete(i, res, data)])
            == State(Perform(cfg, s.k, i, res, data), s.sq, s.cq + [Completion(s.k.flight[i], res)])
    ensures var s, s' := Now(cfg, cap, acts), Now(cfg, cap, acts + [Complete(i, res, data)]);
            s'.k.tracked == s.k.tracked && s'.k.pc == s.k.pc && |s'.k.flight| == |s.k.flight| - 1
  {
    PerformCounts(cfg, Now(cfg, cap, acts).k, i, res, data);
    hide Ran, Perform, CanPerform;
    RanLive(cfg, cap, acts);
    Do(cfg, cap, acts, Complete(i, res, data));
  }

  lemma {:induction false} PerformCounts(cfg: Config, k: Core, i: nat, res: int, data: seq<Byte>)
    requires CanPerform(cfg, k, i, res, data)
    ensures var k' := Perform(cfg, k, i, res, data);
            && k'.tracked == k.tracked && k'.timerArmed == k.timerArmed && k'.pc == k.pc
            && |k'.flight| == |k.flight| - 1
  {
  }

  // An address nobody uses, a descriptor nobody has.
  ghost function Block(k: Core): (a: Addr)
    ensures Allocatable(k, a)
  {
    UpperBound(k.ops.Keys + {NULL, ACCEPT_REQ, TIMER_REQ})
  }

  lemma {:induction false} UnusedFd(cfg: Config, k: Core) returns (fd: nat)
    ensures fd !in k.conns && fd != cfg.listenFd
  {
    var used := set f: nat | f in k.conns.Keys + {cfg.listenFd};
    fd := UpperBound(used);
    assert fd !in used;
  }

  lemma {:induction false} AcceptRequest(cfg: Config, s: State, i: nat)
    requires Full(cfg, s) && i < |s.k.flight| && s.k.flight[i].userData == ACCEPT_REQ
    ensures s.k.flight[i].opcode.Accept?
    ensures ACCEPT_REQ in s.k.ops && s.k.ops[ACCEPT_REQ].tag.AcceptedConnection?
  {
    FlightFacts(cfg, s, i);
  }

  // Where nothing else is waiting, the request of a live op is in flight.
  lemma {:induction false} InFlight(cfg: Config, cap: nat, acts: seq<Action>, a: Addr) returns (i: nat)
    requires Ran(cfg, cap, acts) && Now(cfg, cap, acts).k.pc.LoopHead?
    requires Now(cfg, cap, acts).sq == [] && Now(cfg, cap, acts).cq == [] && LiveOp(Now(cfg, cap, acts).k, a)
    ensures i < |Now(cfg, cap, acts).k.flight| && Now(cfg, cap, acts).k.flight[i].userData == a
  {
    hide Ran, Requests, Sockets, Echo, Accounted, Room;
    var s := Now(cfg, cap, acts);
    Sound(cfg, cap, acts);
    LiveOnce(cfg, s.k, a);
    assert Ids(s.sq) == multiset{} && Ids(Reqs(Events(s))) == multiset{};
    IdsWitness(s.k.flight, a);
    i :| 0 <= i < |s.k.flight| && s.k.flight[i].userData == a;
  }
}
