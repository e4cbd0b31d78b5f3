/** The records the io_uring server and the kernel exchange: the per-request
    `struct iou_op`, the submission entry built from it, and its completion. */
module IouTypes {
  datatype Option<+T> = None | Some(value: T)

  // A pointer, as stored in the 64-bit `user_data` and `addr` fields.
  type Addr = nat

  const NULL: Addr := 0
  // The two requests that live on the stack of the service loop.
  const ACCEPT_REQ: Addr := 1
  const TIMER_REQ: Addr := 2

  const EBUSY: int := 16
  const EINVAL: int := 22
  const ETIME: int := 62

  type Byte = x: int | 0 <= x < 256

  // The tag `op->op`. C lets an enum hold any integer, hence Unknown.
  datatype Tag =
    | AcceptedConnection
    | CloseConnection
    | RecvFromClient
    | SendToClient
    | TimerExpired
    | Unknown(code: int)

  // `struct iou_op`. The union members that start with `int fd` share that field.
  datatype Op = Op(tag: Tag, fd: int, busy: bool, bufSendLen: nat, buf: seq<Byte>)

  datatype Opcode = Nop | Accept | Close | Recv | Send | Timeout

  // `addr` is the address of the op whose buffer (or timespec) is passed.
  datatype Sqe = Sqe(userData: Addr, opcode: Opcode, fd: int, addr: Addr, len: nat)

  const ZERO_SQE := Sqe(NULL, Nop, 0, NULL, 0)

  // The CQE proper is (req.userData, res); the rest of `req` is what the kernel
  // knows about the request and is never read by the server.
  datatype Completion = Completion(req: Sqe, res: int)

  // The build-time and setup parameters.
  datatype Config = Config(
    msgSize: nat,      // DEFAULT_BUFFER_SIZE
    ringSize: nat,     // IO_URING_RING_SIZE
    listenFd: int,
    sqpoll: bool,      // IO_URING_RUN_IN_KERNEL_POLL_MODE
    benchmarking: bool // DO_SERVER_SIDE_BENCHMARKING
  )

  // sizeof(con->buf): DEFAULT_BUFFER_SIZE + sizeof(void *)
  function BufSize(cfg: Config): nat { cfg.msgSize + 8 }

  // The iou_prep_*_sqe functions, writing over the acquired entry.
  function Prepare(a: Addr, op: Op, sqe: Sqe): Option<Sqe> {
    match op.tag
    case AcceptedConnection => Some(sqe.(opcode := Accept, fd := op.fd, addr := a))
    case CloseConnection => Some(sqe.(opcode := Close, fd := op.fd))
    case RecvFromClient => Some(sqe.(opcode := Recv, fd := op.fd, addr := a, len := |op.buf|))
    case SendToClient => Some(sqe.(opcode := Send, fd := op.fd, addr := a, len := op.bufSendLen))
    case TimerExpired => Some(sqe.(opcode := Timeout, addr := a, len := 1))
    case Unknown(_) => None
  }

  // The entry that asks the kernel for what `op` describes, and for nothing else.
  function Configured(a: Addr, op: Op): Option<Sqe> {
    Prepare(a, op, ZERO_SQE.(userData := a))
  }

  // An address above all of a set, so one that is not in use always exists.
  ghost function UpperBound(s: set<Addr>): (b: nat)
    ensures forall a :: a in s ==> a < b
  {
    if s == {} then 0
    else
      var a :| a in s;
      var b := UpperBound(s - {a});
      assert forall x :: x in s ==> x == a || x in s - {a};
      if a < b then b else a + 1
  }
}
