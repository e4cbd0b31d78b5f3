/** The submission queue: one producer (the server) and one consumer (the kernel)
    over shared arrays, with two free-running 32-bit counters. The producer's
    `iou_config_and_submit` is split where another processor can look: acquire and
    zero an entry, store the user data, fill the operation's fields, store the slot
    index, advance the tail. */
module SubmissionRing {
  import opened IouTypes
  import opened Wrapping

  datatype SqRing = SqRing(sqes: seq<Sqe>, slots: seq<nat>, head: uint32, tail: uint32)

  // How far the producer is inside iou_config_and_submit.
  datatype Stage =
    | Idle
    | Zeroed(tail: uint32, index: nat)
    | Owned(tail: uint32, index: nat)
    | Filled(tail: uint32, index: nat)
    | Indexed(tail: uint32, index: nat)

  function Slot(bits: nat, counter: uint32): (s: nat)
    ensures s < Pow2(bits)
  {
    MaskIsModulo(counter, bits);
    BitAnd(counter, Pow2(bits) - 1)
  }

  function Count(r: SqRing): nat { Sub32(r.tail, r.head) }

  // The slot of the i-th unread entry.
  function SlotAt(bits: nat, head: uint32, i: nat): (s: nat)
    ensures s < Pow2(bits)
  {
    Slot(bits, Add32(head, i))
  }

  ghost predicate ValidSq(bits: nat, r: SqRing) {
    && bits <= 31
    && |r.sqes| == Pow2(bits) && |r.slots| == Pow2(bits)
    && Count(r) <= Pow2(bits)
    && forall i {:trigger SlotAt(bits, r.head, i)} ::
         0 <= i < Count(r) ==> r.slots[SlotAt(bits, r.head, i)] == SlotAt(bits, r.head, i)
  }

  // What the kernel can read, in order.
  ghost function Pending(bits: nat, r: SqRing): (q: seq<Sqe>)
    requires ValidSq(bits, r)
    ensures |q| == Count(r)
  {
    seq(Count(r), i requires 0 <= i < Count(r) => r.sqes[SlotAt(bits, r.head, i)])
  }

  function Store<T>(s: seq<T>, i: nat, x: T): seq<T> { if i < |s| then s[i := x] else s }

  function Load(s: seq<Sqe>, i: nat): Sqe { if i < |s| then s[i] else ZERO_SQE }

  // The entry the kernel reads next, through the index array.
  function KernelReads(bits: nat, r: SqRing): Sqe {
    var s := Slot(bits, r.head);
    if s < |r.slots| then Load(r.sqes, r.slots[s]) else ZERO_SQE
  }

  function DropHead(r: SqRing): SqRing { r.(head := Add32(r.head, 1)) }

  predicate Full(size: nat, r: SqRing) { Sub32(r.tail, r.head) >= size }

  // One step of iou_config_and_submit(op) with op at address `a`.
  function ProducerStep(bits: nat, size: nat, r: SqRing, st: Stage, a: Addr, op: Op): (SqRing, Stage) {
    match st
    case Idle =>
      if Full(size, r) then (r, Idle)
      else (r.(sqes := Store(r.sqes, Slot(bits, r.tail), ZERO_SQE)), Zeroed(r.tail, Slot(bits, r.tail)))
    case Zeroed(t, i) =>
      (r.(sqes := Store(r.sqes, i, Load(r.sqes, i).(userData := a))), Owned(t, i))
    case Owned(t, i) =>
      (match Prepare(a, op, Load(r.sqes, i))
       case None => (r, Idle)
       case Some(e) => (r.(sqes := Store(r.sqes, i, e)), Filled(t, i)))
    case Filled(t, i) => (r.(slots := Store(r.slots, i, i)), Indexed(t, i))
    case Indexed(t, i) => (r.(tail := Add32(t, 1)), Idle)
  }

  // What the producer may rely on in the middle of a submission.
  ghost predicate StageOk(bits: nat, size: nat, r: SqRing, st: Stage, a: Addr, op: Op)
    requires ValidSq(bits, r)
  {
    st.Idle? || (
      && st.tail == r.tail && st.index == Slot(bits, r.tail) && Count(r) < size
      && (st.Zeroed? ==> r.sqes[st.index] == ZERO_SQE)
      && (st.Owned? ==> r.sqes[st.index] == ZERO_SQE.(userData := a))
      && (st.Filled? || st.Indexed? ==> Configured(a, op) == Some(r.sqes[st.index]))
      && (st.Indexed? ==> r.slots[st.index] == st.index)
    )
  }

  lemma {:induction false} EntriesBelow32(bits: nat)
    requires bits <= 31
    ensures Pow2(bits) < TWO32
  {
    Pow2Divides(bits, 32);
    Pow2Of32();
    var q := Pow2(32 - bits);
    assert q >= 2;
    MulBounds(Pow2(bits), q - 1);
    assert Pow2(bits) * q == Pow2(bits) * (q - 1) + Pow2(bits);
  }

  lemma {:induction false} SlotAtIsModulo(bits: nat, head: uint32, i: nat)
    requires bits <= 31
    ensures SlotAt(bits, head, i) == (head + i) % Pow2(bits)
  {
    SlotIgnoresWrap(head + i, bits);
  }

  lemma {:induction false} TailFollowsHead(r: SqRing)
    ensures r.tail == Add32(r.head, Count(r))
  {
    hide BitAnd, Pow2;
    DivModUnique(r.head + Count(r), TWO32, if r.head + Count(r) < TWO32 then 0 else 1, r.tail);
  }

  // An unread entry and the entry being filled never share a slot.
  lemma {:induction false} SlotsApart(bits: nat, head: uint32, i: nat, j: nat)
    requires bits <= 31 && i < j < i + Pow2(bits)
    ensures SlotAt(bits, head, i) != SlotAt(bits, head, j)
  {
    hide BitAnd, Pow2;
    SlotAtIsModulo(bits, head, i);
    SlotAtIsModulo(bits, head, j);
    DistinctSlots(head + i, head + j, Pow2(bits));
  }

  lemma {:induction false} FreeSlotApart(bits: nat, r: SqRing)
    requires ValidSq(bits, r) && Count(r) < Pow2(bits)
    ensures forall i {:trigger SlotAt(bits, r.head, i)} ::
              0 <= i < Count(r) ==> SlotAt(bits, r.head, i) != Slot(bits, r.tail)
  {
    hide BitAnd, Pow2;
    TailFollowsHead(r);
    forall i | 0 <= i < Count(r) ensures SlotAt(bits, r.head, i) != Slot(bits, r.tail) {
      SlotsApart(bits, r.head, i, Count(r));
    }
  }

  // Writing the free entry or its index is invisible to the kernel.
  lemma {:induction false} FreeSlotWrite(bits: nat, r: SqRing, r': SqRing)
    requires ValidSq(bits, r) && Count(r) < Pow2(bits)
    requires r'.head == r.head && r'.tail == r.tail
    requires |r'.sqes| == |r.sqes| && |r'.slots| == |r.slots|
    requires forall s :: 0 <= s < |r.sqes| && s != Slot(bits, r.tail) ==>
                           r'.sqes[s] == r.sqes[s] && r'.slots[s] == r.slots[s]
    ensures ValidSq(bits, r') && Pending(bits, r') == Pending(bits, r)
  {
    hide BitAnd, Pow2;
    FreeSlotApart(bits, r);
  }

  lemma {:induction false} PublishAppends(bits: nat, r: SqRing)
    requires ValidSq(bits, r) && Count(r) < Pow2(bits)
    requires r.slots[Slot(bits, r.tail)] == Slot(bits, r.tail)
    ensures var r' := r.(tail := Add32(r.tail, 1));
            && Count(r') == Count(r) + 1
            && ValidSq(bits, r')
            && Pending(bits, r') == Pending(bits, r) + [r.sqes[Slot(bits, r.tail)]]
  {
    hide BitAnd, Pow2;
    var r' := r.(tail := Add32(r.tail, 1));
    EntriesBelow32(bits);
    TailFollowsHead(r);
    AddIgnoresWrap(r.head + Count(r), 1);
    AddIgnoresWrap(r.head, 0);
    DistanceIgnoresWrap(r.head, r.head + Count(r) + 1);
    assert Count(r') == Count(r) + 1;
  }

  lemma {:induction false} ConsumeTakesFirst(bits: nat, r: SqRing)
    requires ValidSq(bits, r) && Count(r) > 0
    ensures var r' := DropHead(r);
            && Count(r') == Count(r) - 1
            && ValidSq(bits, r')
            && [KernelReads(bits, r)] + Pending(bits, r') == Pending(bits, r)
  {
    hide BitAnd, Pow2;
    var r' := DropHead(r);
    EntriesBelow32(bits);
    TailFollowsHead(r);
    DistanceIgnoresWrap(r.head + 1, r.head + Count(r));
    assert Count(r') == Count(r) - 1;
    forall i: nat ensures SlotAt(bits, r'.head, i) == SlotAt(bits, r.head, i + 1) {
      AddIgnoresWrap(r.head + 1, i);
    }
    forall i | 0 <= i < Count(r')
      ensures r'.slots[SlotAt(bits, r'.head, i)] == SlotAt(bits, r'.head, i)
    {
      assert SlotAt(bits, r'.head, i) == SlotAt(bits, r.head, i + 1);
    }
    assert r.slots[SlotAt(bits, r.head, 0)] == SlotAt(bits, r.head, 0);
    forall i | 0 <= i < Count(r')
      ensures Pending(bits, r')[i] == Pending(bits, r)[i + 1]
    {
      assert SlotAt(bits, r'.head, i) == SlotAt(bits, r.head, i + 1);
    }
  }

  // Every producer step keeps the ring well formed; only the tail store is visible
  // to the kernel, and it appends exactly the entry the operation asked for. An
  // acquire that finds the ring full, or that is abandoned because the tag is
  // unknown, leaves the queue as it was.
  lemma {:induction false} ProducerStepEffect(bits: nat, size: nat, r: SqRing, st: Stage, a: Addr, op: Op)
    requires ValidSq(bits, r) && size <= Pow2(bits) && Count(r) <= size
    requires StageOk(bits, size, r, st, a, op)
    ensures var (r', st') := ProducerStep(bits, size, r, st, a, op);
            && ValidSq(bits, r') && Count(r') <= size
            && StageOk(bits, size, r', st', a, op)
            && (st.Indexed? ==> Configured(a, op).Some?)
            && (st.Indexed? ==> Pending(bits, r') == Pending(bits, r) + [Configured(a, op).value])
            && (!st.Indexed? ==> Pending(bits, r') == Pending(bits, r))
            && (st.Idle? ==> (st'.Idle? <==> |Pending(bits, r)| >= size))
            && (st.Owned? ==> (st'.Idle? <==> Configured(a, op).None?))
  {
    hide BitAnd, Pow2;
    var (r', st') := ProducerStep(bits, size, r, st, a, op);
    if st.Indexed? {
      PublishAppends(bits, r);
    } else if r' != r {
      FreeSlotWrite(bits, r, r');
    }
  }

  lemma {:induction false} ConsumeKeepsStage(bits: nat, size: nat, r: SqRing, st: Stage, a: Addr, op: Op)
    requires ValidSq(bits, r) && Count(r) > 0
    requires StageOk(bits, size, r, st, a, op)
    ensures ValidSq(bits, DropHead(r)) && StageOk(bits, size, DropHead(r), st, a, op)
  {
    hide BitAnd, Pow2;
    ConsumeTakesFirst(bits, r);
  }

  // -------------------------------------------------------------------------
  // Whole runs: any number of submissions, interleaved with kernel reads at any
  // of the points between the producer's stores.

  datatype Queue = Queue(
    ring: SqRing, stage: Stage, a: Addr, op: Op, // the call in progress
    published: seq<Sqe>,                         // entries asked for by calls that returned 0
    consumed: seq<Sqe>                           // entries as read by the kernel
  )

  datatype QueueAction =
    | Begin(a: Addr, op: Op) // iou_acquire_sqe at the start of a call
    | Continue               // the producer's next store
    | KernelConsume

  ghost predicate QueueEnabled(m: Queue, act: QueueAction) {
    match act
    case Begin(_, _) => m.stage.Idle?
    case Continue => !m.stage.Idle?
    case KernelConsume => Count(m.ring) > 0
  }

  ghost function QueueStep(bits: nat, size: nat, m: Queue, act: QueueAction): Queue {
    match act
    case Begin(a, op) =>
      var (r, st) := ProducerStep(bits, size, m.ring, Idle, a, op);
      m.(ring := r, stage := st, a := a, op := op)
    case Continue =>
      var (r, st) := ProducerStep(bits, size, m.ring, m.stage, m.a, m.op);
      var asked := Configured(m.a, m.op);
      m.(ring := r, stage := st,
         published := if m.stage.Indexed? && asked.Some? then m.published + [asked.value] else m.published)
    case KernelConsume =>
      m.(ring := DropHead(m.ring), consumed := m.consumed + [KernelReads(bits, m.ring)])
  }

  // The queue after a sequence of actions, and whether each was possible.
  ghost function QueueAfter(bits: nat, size: nat, m: Queue, acts: seq<QueueAction>): Queue {
    if acts == [] then m
    else QueueStep(bits, size, QueueAfter(bits, size, m, acts[..|acts| - 1]), acts[|acts| - 1])
  }

  ghost predicate QueueLegal(bits: nat, size: nat, m: Queue, acts: seq<QueueAction>) {
    acts == [] || (
      && QueueLegal(bits, size, m, acts[..|acts| - 1])
      && QueueEnabled(QueueAfter(bits, size, m, acts[..|acts| - 1]), acts[|acts| - 1])
    )
  }

  // The ring as the kernel hands it over.
  ghost predicate Fresh(bits: nat, size: nat, m: Queue) {
    && bits <= 31 && size <= Pow2(bits)
    && |m.ring.sqes| == Pow2(bits) && |m.ring.slots| == Pow2(bits)
    && m.ring.head == 0 && m.ring.tail == 0 && m.stage.Idle?
    && m.published == [] && m.consumed == []
  }

  ghost predicate QueueInv(bits: nat, size: nat, m: Queue) {
    && ValidSq(bits, m.ring) && size <= Pow2(bits) && Count(m.ring) <= size
    && StageOk(bits, size, m.ring, m.stage, m.a, m.op)
    && m.published == m.consumed + Pending(bits, m.ring)
    && m.ring.head == |m.consumed| % TWO32
    && m.ring.tail == |m.published| % TWO32
  }

  lemma {:induction false} ProducerKeepsQueueInv(bits: nat, size: nat, m: Queue, act: QueueAction)
    requires QueueInv(bits, size, m) && QueueEnabled(m, act) && !act.KernelConsume?
    ensures QueueInv(bits, size, QueueStep(bits, size, m, act))
  {
    hide BitAnd, Pow2;
    var m' := QueueStep(bits, size, m, act);
    ProducerStepEffect(bits, size, m.ring, m.stage, m'.a, m'.op);
    AddIgnoresWrap(|m.published|, 1);
    assert m'.published == m'.consumed + Pending(bits, m'.ring);
  }

  lemma {:induction false} ConsumeKeepsQueueInv(bits: nat, size: nat, m: Queue)
    requires QueueInv(bits, size, m) && QueueEnabled(m, KernelConsume)
    ensures QueueInv(bits, size, QueueStep(bits, size, m, KernelConsume))
  {
    hide BitAnd, Pow2;
    ConsumeTakesFirst(bits, m.ring);
    ConsumeKeepsStage(bits, size, m.ring, m.stage, m.a, m.op);
    AddIgnoresWrap(|m.consumed|, 1);
  }

  // The submission queue is a FIFO queue: whatever the interleaving and however
  // often the counters wrap, the kernel has read a prefix of the fully configured
  // entries, in order, once each; the rest is what it can still read, never more
  // than ring_size; and the counters are the true positions modulo 2^32.
  lemma {:induction false} QueueIsFifo(bits: nat, size: nat, m: Queue, acts: seq<QueueAction>)
    requires Fresh(bits, size, m) && QueueLegal(bits, size, m, acts)
    ensures var m' := QueueAfter(bits, size, m, acts);
            && QueueInv(bits, size, m')
            && m'.consumed <= m'.published
            && m'.published[|m'.consumed|..] == Pending(bits, m'.ring)
            && |m'.published| - |m'.consumed| <= size
            && Slot(bits, m'.ring.tail) == |m'.published| % Pow2(bits)
  {
    var n := |acts|;
    if n > 0 {
      QueueIsFifo(bits, size, m, acts[..n - 1]);
      var mid := QueueAfter(bits, size, m, acts[..n - 1]);
      if acts[n - 1].KernelConsume? {
        ConsumeKeepsQueueInv(bits, size, mid);
      } else {
        ProducerKeepsQueueInv(bits, size, mid, acts[n - 1]);
      }
    }
    var m' := QueueAfter(bits, size, m, acts);
    SlotIgnoresWrap(|m'.published|, bits);
  }
}
