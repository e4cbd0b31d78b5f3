/** What one step of the io_uring server and one completion by the kernel do to the
    server's heap and to the kernel's tables. The two queues between them are left
    to the importing modules: FIFO sequences in Protocol, wrapping rings in RingServer. */
module ServerCore {
  import opened IouTypes

  // Why the process called exit.
  datatype Reason =
    | RingBusy         // iou_config_and_submit returned -EBUSY
    | BadTag           // iou_config_and_submit returned -EINVAL
    | UnexpectedResult // a CQE result the handler does not accept
    | UseAfterFree     // not an exit of the program: user_data pointed to freed memory

  datatype Pc =
    | LoopHead
    | Handling(event: Completion)                          // between iou_get_cqe and the handler's body
    | Submitting(todo: seq<Addr>, ret: nat, acquired: bool) // calls to iou_config_and_submit left to make
    | Entering(left: nat)                                  // inside a blocking io_uring_enter
    | Stopped                                              // the loop ended; the kernel still serves the ring
    | RingFreed                                            // the ring is closed; the rest of the cleanup follows
    | Exited(reason: Reason)

  datatype Core = Core(
    // the server's memory
    ops: map<Addr, Op>,
    tracked: seq<Addr>,       // the allocated_op of the tracker's nodes, head to tail
    timerArmed: bool,         // the timer request has not been handled yet
    pc: Pc,
    toSubmit: nat,            // io_events_to_submit
    // the kernel
    flight: seq<Sqe>,         // requests consumed from the SQ and not completed
    conns: map<int, nat>,     // open client sockets: fd to connection
    recvd: seq<seq<Byte>>,    // per connection, every byte received from the client
    sent: seq<seq<Byte>>,     // per connection, every byte sent to the client
    // history
    conOf: map<Addr, nat>,    // the connection a client op was created for
    accepted: nat,            // ACCEPT completions handled
    closed: nat               // CLOSE completions handled
  )

  // Removal of the node of `a` from the tracker's list.
  function Without(q: seq<Addr>, a: Addr): seq<Addr> {
    if q == [] then []
    else if q[0] == a then q[1..]
    else [q[0]] + Without(q[1..], a)
  }

  function Exit(k: Core, reason: Reason): Core { k.(pc := Exited(reason)) }

  // handle_cqe_accept and handle_new_client; `block` is what calloc returns.
  function HandleAccept(cfg: Config, k: Core, a: Addr, res: int, block: Addr): Core {
    if res < 0 then Exit(k, UnexpectedResult)
    else k.(
      ops := k.ops[block := Op(RecvFromClient, res, true, 0, seq(BufSize(cfg), _ => 0))],
      tracked := k.tracked + [block],
      conOf := k.conOf[block := if res in k.conns then k.conns[res] else 0],
      accepted := k.accepted + 1,
      pc := Submitting([block, a], 2, false))
  }

  // handle_cqe_close and handle_closing_client
  function HandleClose(k: Core, a: Addr, res: int): Core {
    if res != 0 then Exit(k, UnexpectedResult)
    else k.(
      ops := k.ops - {a},
      tracked := Without(k.tracked, a),
      conOf := k.conOf - {a},
      closed := k.closed + 1,
      pc := Submitting([], 0, false))
  }

  // handle_cqe_recv and prep_close_client_req
  function HandleRecv(cfg: Config, k: Core, a: Addr, res: int): Core
    requires a in k.ops
  {
    var op := k.ops[a].(busy := false);
    if res < 0 then Exit(k.(ops := k.ops[a := op]), UnexpectedResult)
    else if res == 0 then
      k.(ops := k.ops[a := op.(tag := CloseConnection)], pc := Submitting([a], 1, false))
    else if res != cfg.msgSize then Exit(k.(ops := k.ops[a := op]), UnexpectedResult)
    else
      k.(ops := k.ops[a := op.(tag := SendToClient, bufSendLen := res, busy := true)],
         pc := Submitting([a], 1, false))
  }

  // handle_cqe_send
  function HandleSend(cfg: Config, k: Core, a: Addr, res: int): Core
    requires a in k.ops
  {
    var op := k.ops[a].(busy := false);
    if res < 0 || res < cfg.msgSize then Exit(k.(ops := k.ops[a := op]), UnexpectedResult)
    else
      k.(ops := k.ops[a := op.(tag := RecvFromClient, busy := true)],
         pc := Submitting([a], 1, false))
  }

  // handle_cqe_timer
  function HandleTimer(k: Core, res: int): Core {
    if res != -ETIME then Exit(k, UnexpectedResult)
    else k.(timerArmed := false, pc := Submitting([], 0, false))
  }

  // service_cqe_events: dispatch on the tag stored in the op, up to the handler's
  // first submission. Only the CQE's user_data and res are looked at.
  function Dispatch(cfg: Config, k: Core, block: Addr): Core
    requires k.pc.Handling?
  {
    var a, res := k.pc.event.req.userData, k.pc.event.res;
    if a !in k.ops then Exit(k, UseAfterFree)
    else match k.ops[a].tag
      case AcceptedConnection => HandleAccept(cfg, k, a, res, block)
      case CloseConnection => HandleClose(k, a, res)
      case RecvFromClient => HandleRecv(cfg, k, a, res)
      case SendToClient => HandleSend(cfg, k, a, res)
      case TimerExpired => HandleTimer(k, res)
      case Unknown(_) => k.(pc := Submitting([], 0, false))
  }

  // The allocator may hand out any address that is not in use, freed ones included.
  predicate Allocatable(k: Core, block: Addr) {
    block !in k.ops && block !in {NULL, ACCEPT_REQ, TIMER_REQ}
  }

  // What the kernel may answer to the i-th request in flight.
  predicate CanPerform(cfg: Config, k: Core, i: nat, res: int, data: seq<Byte>) {
    && i < |k.flight|
    && var r := k.flight[i];
    && (res >= 0 ==>
        match r.opcode
        case Accept => res !in k.conns && res != cfg.listenFd
        case Recv => res <= r.len && |data| == res && OpenFor(k, r)
        case Send => res <= r.len && OpenFor(k, r)
        case Close => res == 0 && r.fd in k.conns
        case Timeout => false
        case Nop => res == 0)
  }

  predicate OpenFor(k: Core, r: Sqe) {
    && r.fd in k.conns && k.conns[r.fd] < |k.recvd| && k.conns[r.fd] < |k.sent|
    && r.addr in k.ops && r.len <= |k.ops[r.addr].buf|
  }

  function Drop<T>(s: seq<T>, i: nat): seq<T>
    requires i < |s|
  {
    s[..i] + s[i + 1..]
  }

  // The kernel carries the request out; posting the completion is the queue's part.
  function Perform(cfg: Config, k: Core, i: nat, res: int, data: seq<Byte>): Core
    requires CanPerform(cfg, k, i, res, data)
  {
    var r, rest := k.flight[i], k.(flight := Drop(k.flight, i));
    if res < 0 then rest
    else match r.opcode
      case Accept =>
        rest.(conns := k.conns[res := |k.recvd|], recvd := k.recvd + [[]], sent := k.sent + [[]])
      case Recv =>
        var op, c := k.ops[r.addr], k.conns[r.fd];
        rest.(ops := k.ops[r.addr := op.(buf := data + op.buf[res..])],
              recvd := k.recvd[c := k.recvd[c] + data])
      case Send =>
        var c := k.conns[r.fd];
        rest.(sent := k.sent[c := k.sent[c] + k.ops[r.addr].buf[..res]])
      case Close => rest.(conns := k.conns - {r.fd})
      case Timeout => rest
      case Nop => rest
  }
}
