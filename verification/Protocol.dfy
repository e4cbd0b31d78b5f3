/** The io_uring server and the kernel as one transition system over FIFO queues.
    Server and kernel steps interleave freely between the server's own steps. */
module Protocol {
  import opened IouTypes
  import opened ServerCore

  datatype State = State(k: Core, sq: seq<Sqe>, cq: seq<Completion>)

  datatype Action =
    // the server
    | TakeCqe                // iou_get_cqe returned an event
    | SeeEmpty               // iou_get_cqe returned NULL
    | Handle(block: Addr)    // the handler, up to its first submission
    | Acquire                // iou_acquire_sqe
    | Publish                // the rest of iou_config_and_submit
    | Return                 // the handler's return value is added to the counter
    | LeaveEnter             // io_uring_enter returns
    | Stop                   // the loop sees that server_running was cleared
    | FreeRing               // iou_free closes the ring's descriptor
    // the kernel
    | Consume
    | Complete(i: nat, res: int, data: seq<Byte>)

  // The kernel serves the ring until its descriptor is closed.
  predicate Running(k: Core) { !k.pc.RingFreed? && !k.pc.Exited? }

  ghost predicate Enabled(cfg: Config, s: State, act: Action) {
    && Running(s.k)
    && match act
       case TakeCqe => s.k.pc.LoopHead? && s.cq != []
       case SeeEmpty => s.k.pc.LoopHead?
       case Handle(block) => s.k.pc.Handling? && Allocatable(s.k, block)
       case Acquire => s.k.pc.Submitting? && s.k.pc.todo != [] && !s.k.pc.acquired
       case Publish => s.k.pc.Submitting? && s.k.pc.todo != [] && s.k.pc.acquired
       case Return => s.k.pc.Submitting? && s.k.pc.todo == []
       // the contract of io_uring_enter: it hands over all of to_submit
       case LeaveEnter => s.k.pc == Entering(0)
       case Stop => s.k.pc.LoopHead?
       case FreeRing => s.k.pc.Stopped?
       // without SQPOLL the kernel reads the SQ only inside io_uring_enter
       case Consume => s.sq != [] && (cfg.sqpoll || (s.k.pc.Entering? && s.k.pc.left > 0))
       case Complete(i, res, data) => CanPerform(cfg, s.k, i, res, data)
  }

  // The SQE the call in progress asks for.
  function Asked(k: Core): Option<Sqe>
    requires k.pc.Submitting? && k.pc.todo != []
  {
    var a := k.pc.todo[0];
    if a in k.ops then Configured(a, k.ops[a]) else None
  }

  function AfterAcquire(cfg: Config, k: Core, full: bool): Core
    requires k.pc.Submitting?
  {
    if full then Exit(k, RingBusy) else k.(pc := k.pc.(acquired := true))
  }

  function AfterPublish(k: Core): Core
    requires k.pc.Submitting? && k.pc.todo != []
  {
    if Asked(k).None? then Exit(k, BadTag)
    else k.(pc := Submitting(k.pc.todo[1..], k.pc.ret, false))
  }

  function AfterSeeEmpty(cfg: Config, k: Core): Core {
    if cfg.sqpoll then k.(toSubmit := 0) else k.(pc := Entering(k.toSubmit), toSubmit := 0)
  }

  function AfterConsume(k: Core, e: Sqe): Core {
    k.(flight := k.flight + [e],
       pc := if k.pc.Entering? && k.pc.left > 0 then Entering(k.pc.left - 1) else k.pc)
  }

  ghost function Step(cfg: Config, s: State, act: Action): State
    requires Enabled(cfg, s, act)
  {
    var k := s.k;
    match act
    case TakeCqe => State(k.(pc := Handling(s.cq[0])), s.sq, s.cq[1..])
    case SeeEmpty => s.(k := AfterSeeEmpty(cfg, k))
    case Handle(block) => s.(k := Dispatch(cfg, k, block))
    case Acquire => s.(k := AfterAcquire(cfg, k, |s.sq| >= cfg.ringSize))
    case Publish =>
      State(AfterPublish(k), if Asked(k).Some? then s.sq + [Asked(k).value] else s.sq, s.cq)
    case Return => s.(k := k.(pc := LoopHead, toSubmit := k.toSubmit + k.pc.ret))
    case LeaveEnter => s.(k := k.(pc := LoopHead))
    case Stop => s.(k := k.(pc := Stopped))
    case FreeRing => s.(k := k.(pc := RingFreed))
    case Consume => State(AfterConsume(k, s.sq[0]), s.sq[1..], s.cq)
    case Complete(i, res, data) =>
      State(Perform(cfg, k, i, res, data), s.sq, s.cq + [Completion(k.flight[i], res)])
  }

  // service_loop before its first iteration: the accept request (and the benchmark's
  // timer request) are about to be submitted.
  function InitCore(cfg: Config): Core {
    var accept := map[ACCEPT_REQ := Op(AcceptedConnection, cfg.listenFd, false, 0, [])];
    var ops := if cfg.benchmarking then accept[TIMER_REQ := Op(TimerExpired, 0, false, 0, [])] else accept;
    var todo := if cfg.benchmarking then [ACCEPT_REQ, TIMER_REQ] else [ACCEPT_REQ];
    Core(ops, [], cfg.benchmarking, Submitting(todo, |todo|, false), 0, [], map[], [], [], map[], 0, 0)
  }

  function Init(cfg: Config): State { State(InitCore(cfg), [], []) }

  // Runs: the states reached by a sequence of actions, each enabled where it is taken.
  ghost predicate Legal(cfg: Config, acts: seq<Action>)
    decreases |acts|, 0
  {
    acts == [] || (
      && Legal(cfg, acts[..|acts| - 1])
      && Enabled(cfg, After(cfg, acts[..|acts| - 1]), acts[|acts| - 1])
    )
  }

  ghost function After(cfg: Config, acts: seq<Action>): State
    requires Legal(cfg, acts)
    decreases |acts|, 1
  {
    if acts == [] then Init(cfg)
    else Step(cfg, After(cfg, acts[..|acts| - 1]), acts[|acts| - 1])
  }

  predicate NeverSeesEmpty(acts: seq<Action>) { forall act :: act in acts ==> !act.SeeEmpty? }

  lemma {:induction false} RunExtends(cfg: Config, acts: seq<Action>, act: Action)
    requires Legal(cfg, acts) && Enabled(cfg, After(cfg, acts), act)
    ensures Legal(cfg, acts + [act]) && After(cfg, acts + [act]) == Step(cfg, After(cfg, acts), act)
  {
    hide Step, Enabled;
    assert (acts + [act])[..|acts|] == acts;
  }

  // iou_get_cqe returned NULL only where nothing was posted and not taken.
  ghost predicate SeesTruly(cfg: Config, acts: seq<Action>)
    requires Legal(cfg, acts)
  {
    acts == [] || (
      && SeesTruly(cfg, acts[..|acts| - 1])
      && (acts[|acts| - 1].SeeEmpty? ==> After(cfg, acts[..|acts| - 1]).cq == [])
    )
  }

  lemma {:induction false} NeverEmptyIsTrue(cfg: Config, acts: seq<Action>)
    requires Legal(cfg, acts) && NeverSeesEmpty(acts)
    ensures SeesTruly(cfg, acts)
  {
    hide Step, Enabled;
    if acts != [] {
      NeverEmptyIsTrue(cfg, acts[..|acts| - 1]);
    }
  }
}
