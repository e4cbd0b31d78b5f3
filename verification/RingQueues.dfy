/** The two rings in shared memory, updated in place. Each method is one of the points
    at which the other side may look; its contract equates the new ring with a step of
    the ring's specification. */
module RingQueues {
  import opened IouTypes
  import opened Wrapping
  import opened SubmissionRing
  import opened CompletionRing

  class SubmissionQueue {
    const bits: nat
    const ringSize: nat
    const sqes: array<Sqe>
    const slots: array<nat>
    var head: uint32
    var tail: uint32

    ghost function View(): SqRing
      reads this, sqes, slots
    {
      SqRing(sqes[..], slots[..], head, tail)
    }

    constructor (bits: nat, ringSize: nat)
      ensures this.bits == bits && this.ringSize == ringSize && fresh(sqes) && fresh(slots)
      ensures sqes.Length == Pow2(bits) && slots.Length == Pow2(bits)
      ensures View() == SqRing(seq(Pow2(bits), _ => ZERO_SQE), seq(Pow2(bits), _ => 0), 0, 0)
    {
      this.bits, this.ringSize := bits, ringSize;
      sqes := new Sqe[Pow2(bits)](_ => ZERO_SQE);
      slots := new nat[Pow2(bits)](_ => 0);
      head, tail := 0, 0;
    }

    // iou_acquire_sqe: None when the ring is full, else the tail and the zeroed entry's index.
    method AcquireSqe() returns (acquired: Option<(uint32, nat)>)
      requires sqes.Length == Pow2(bits)
      modifies sqes
      ensures acquired.None? <==> old(Full(ringSize, View()))
      ensures forall a, op ::
        ProducerStep(bits, ringSize, old(View()), Idle, a, op)
        == (View(), if acquired.None? then Idle else Zeroed(acquired.value.0, acquired.value.1))
      ensures acquired.Some? ==> acquired.value.0 == tail && acquired.value.1 < sqes.Length
    {
      var t := tail;
      if Sub32(t, head) >= ringSize {
        return None;
      }
      var index := Slot(bits, t);
      sqes[index] := ZERO_SQE;
      assert sqes[..] == Store(old(sqes[..]), index, ZERO_SQE);
      return Some((t, index));
    }

    method StoreUserData(ghost t: uint32, index: nat, a: Addr)
      requires index < sqes.Length
      modifies sqes
      ensures forall op ::
        (View(), Owned(t, index)) == ProducerStep(bits, ringSize, old(View()), Zeroed(t, index), a, op)
    {
      sqes[index] := sqes[index].(userData := a);
      assert sqes[..] == Store(old(sqes[..]), index, Load(old(sqes[..]), index).(userData := a));
    }

    // The switch over the operation; false for a tag it does not treat.
    method PrepareSqe(ghost t: uint32, index: nat, a: Addr, op: Op) returns (known: bool)
      requires index < sqes.Length
      modifies sqes
      ensures known <==> !op.tag.Unknown?
      ensures (View(), if known then Filled(t, index) else Idle)
              == ProducerStep(bits, ringSize, old(View()), Owned(t, index), a, op)
      ensures var was := old(sqes[index]);
        match op.tag
        case AcceptedConnection => sqes[index] == was.(opcode := Accept, fd := op.fd, addr := a)
        case CloseConnection => sqes[index] == was.(opcode := Close, fd := op.fd)
        case RecvFromClient => sqes[index] == was.(opcode := Recv, fd := op.fd, addr := a, len := |op.buf|)
        case SendToClient => sqes[index] == was.(opcode := Send, fd := op.fd, addr := a, len := op.bufSendLen)
        case TimerExpired => sqes[index] == was.(opcode := Timeout, addr := a, len := 1)
        case Unknown(_) => sqes[index] == was
    {
      var sqe := Prepare(a, op, sqes[index]);
      if sqe.None? {
        return false;
      }
      sqes[index] := sqe.value;
      assert sqes[..] == Store(old(sqes[..]), index, sqe.value);
      return true;
    }

    // iou_submit_sqe, first store
    method StoreIndex(ghost t: uint32, index: nat)
      requires index < slots.Length
      modifies slots
      ensures forall a, op ::
        (View(), Indexed(t, index)) == ProducerStep(bits, ringSize, old(View()), Filled(t, index), a, op)
    {
      slots[index] := index;
      assert slots[..] == Store(old(slots[..]), index, index);
    }

    // iou_submit_sqe, the release store
    method AdvanceTail(t: uint32, ghost index: nat)
      modifies this`tail
      ensures forall a, op ::
        (View(), Idle) == ProducerStep(bits, ringSize, old(View()), Indexed(t, index), a, op)
      ensures tail == Add32(t, 1)
    {
      tail := Add32(t, 1);
    }

    // The kernel's side.
    method KernelConsume() returns (e: Sqe)
      modifies this`head
      ensures e == KernelReads(bits, old(View())) && View() == DropHead(old(View()))
    {
      var s := Slot(bits, head);
      e := if s < slots.Length && slots[s] < sqes.Length then sqes[slots[s]] else ZERO_SQE;
      head := Add32(head, 1);
    }
  }

  class CompletionQueue {
    const bits: nat
    const cqes: array<Completion>
    var head: uint32
    var tail: uint32

    ghost function View(): CqRing
      reads this, cqes
    {
      CqRing(cqes[..], head, tail)
    }

    constructor (bits: nat)
      ensures this.bits == bits && fresh(cqes) && cqes.Length == Pow2(bits)
      ensures View() == CqRing(seq(Pow2(bits), _ => NO_CQE), 0, 0)
    {
      this.bits := bits;
      cqes := new Completion[Pow2(bits)](_ => NO_CQE);
      head, tail := 0, 0;
    }

    // iou_get_cqe: None when no event is seen, else the head it will read at.
    method Observe() returns (seen: Option<uint32>)
      ensures (View(), if seen.None? then Resting else Observed(seen.value))
              == ReaderStep(bits, View(), Resting)
    {
      return if head == tail then None else Some(head);
    }

    method CopyOut(h: uint32) returns (c: Completion)
      ensures (View(), Copied(h, c)) == ReaderStep(bits, View(), Observed(h))
    {
      var s := Slot(bits, h);
      c := if s < cqes.Length then cqes[s] else NO_CQE;
    }

    method Announce(h: uint32, ghost c: Completion)
      modifies this`head
      ensures (View(), Resting) == ReaderStep(bits, old(View()), Copied(h, c))
    {
      head := Add32(h, 1);
    }

    // The kernel's side.
    method KernelPost(c: Completion)
      requires cqes.Length == Pow2(bits)
      modifies this`tail, cqes
      ensures View() == Post(bits, old(View()), c)
    {
      cqes[Slot(bits, tail)] := c;
      assert cqes[..] == Store(old(cqes[..]), Slot(bits, tail), c);
      tail := Add32(tail, 1);
    }
  }
}
