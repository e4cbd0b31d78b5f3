/** The completion queue: the kernel posts, the server's `iou_get_cqe` takes. The
    server's part is split where the kernel can post in between: observe the tail,
    copy the entry out, announce the new head. */
module CompletionRing {
  import opened IouTypes
  import opened Wrapping
  import opened SubmissionRing

  datatype CqRing = CqRing(cqes: seq<Completion>, head: uint32, tail: uint32)

  datatype Reader =
    | Resting
    | Observed(head: uint32)
    | Copied(head: uint32, cqe: Completion)

  function Held(r: CqRing): nat { Sub32(r.tail, r.head) }

  ghost predicate ValidCq(bits: nat, r: CqRing) {
    bits <= 31 && |r.cqes| == Pow2(bits) && Held(r) <= Pow2(bits)
  }

  // What the server can take, in order.
  ghost function Waiting(bits: nat, r: CqRing): (q: seq<Completion>)
    requires ValidCq(bits, r)
    ensures |q| == Held(r)
  {
    seq(Held(r), i requires 0 <= i < Held(r) => r.cqes[SlotAt(bits, r.head, i)])
  }

  const NO_CQE := Completion(ZERO_SQE, 0)

  // One step of iou_get_cqe. It returns NULL when the first step stays Resting and
  // the copied entry when the last one is reached.
  function ReaderStep(bits: nat, r: CqRing, rd: Reader): (CqRing, Reader) {
    match rd
    case Resting => if r.head == r.tail then (r, Resting) else (r, Observed(r.head))
    case Observed(h) =>
      (r, Copied(h, if Slot(bits, h) < |r.cqes| then r.cqes[Slot(bits, h)] else NO_CQE))
    case Copied(h, _) => (r.(head := Add32(h, 1)), Resting)
  }

  // The kernel posts only into a free slot.
  predicate HasRoom(bits: nat, r: CqRing) { Held(r) < Pow2(bits) }

  function Post(bits: nat, r: CqRing, c: Completion): CqRing {
    r.(cqes := Store(r.cqes, Slot(bits, r.tail), c), tail := Add32(r.tail, 1))
  }

  ghost predicate ReaderOk(bits: nat, r: CqRing, rd: Reader)
    requires ValidCq(bits, r)
  {
    rd.Resting? || (
      && rd.head == r.head && Held(r) > 0
      && (rd.Copied? ==> rd.cqe == Waiting(bits, r)[0])
    )
  }

  lemma {:induction false} CqTailFollowsHead(r: CqRing)
    ensures r.tail == Add32(r.head, Held(r))
    ensures Held(r) == 0 <==> r.head == r.tail
  {
    DivModUnique(r.head + Held(r), TWO32, if r.head + Held(r) < TWO32 then 0 else 1, r.tail);
  }

  lemma {:induction false} PostAppends(bits: nat, r: CqRing, c: Completion)
    requires ValidCq(bits, r) && HasRoom(bits, r)
    ensures var r' := Post(bits, r, c);
            && Held(r') == Held(r) + 1
            && ValidCq(bits, r')
            && Waiting(bits, r') == Waiting(bits, r) + [c]
  {
    hide BitAnd, Pow2;
    var r' := Post(bits, r, c);
    EntriesBelow32(bits);
    CqTailFollowsHead(r);
    AddIgnoresWrap(r.head + Held(r), 1);
    DistanceIgnoresWrap(r.head, r.head + Held(r) + 1);
    assert Held(r') == Held(r) + 1;
    forall i | 0 <= i < Held(r) ensures SlotAt(bits, r.head, i) != Slot(bits, r.tail) {
      SlotsApart(bits, r.head, i, Held(r));
    }
  }

  lemma {:induction false} AnnounceDropsFirst(bits: nat, r: CqRing)
    requires ValidCq(bits, r) && Held(r) > 0
    ensures var r' := r.(head := Add32(r.head, 1));
            && Held(r') == Held(r) - 1
            && ValidCq(bits, r')
            && [r.cqes[Slot(bits, r.head)]] + Waiting(bits, r') == Waiting(bits, r)
  {
    hide BitAnd, Pow2;
    var r' := r.(head := Add32(r.head, 1));
    EntriesBelow32(bits);
    CqTailFollowsHead(r);
    DistanceIgnoresWrap(r.head + 1, r.head + Held(r));
    assert Held(r') == Held(r) - 1;
    forall i: nat ensures SlotAt(bits, r'.head, i) == SlotAt(bits, r.head, i + 1) {
      AddIgnoresWrap(r.head + 1, i);
    }
    assert SlotAt(bits, r.head, 0) == Slot(bits, r.head);
    forall i | 0 <= i < Held(r') ensures Waiting(bits, r')[i] == Waiting(bits, r)[i + 1] {
      assert SlotAt(bits, r'.head, i) == SlotAt(bits, r.head, i + 1);
    }
  }

  // A server step changes the queue only when it announces the new head, and then
  // it has the oldest entry in its hands; NULL is returned exactly when the queue
  // is observed empty.
  lemma {:induction false} ReaderStepEffect(bits: nat, r: CqRing, rd: Reader)
    requires ValidCq(bits, r) && ReaderOk(bits, r, rd)
    ensures var (r', rd') := ReaderStep(bits, r, rd);
            && ValidCq(bits, r') && ReaderOk(bits, r', rd')
            && (rd.Resting? ==> (rd'.Resting? <==> Waiting(bits, r) == []))
            && (!rd.Copied? ==> r' == r)
            && (rd.Copied? ==> rd'.Resting? && [rd.cqe] + Waiting(bits, r') == Waiting(bits, r))
  {
    hide BitAnd, Pow2;
    CqTailFollowsHead(r);
    assert SlotAt(bits, r.head, 0) == Slot(bits, r.head);
    if rd.Copied? {
      AnnounceDropsFirst(bits, r);
    }
  }

  lemma {:induction false} PostKeepsReader(bits: nat, r: CqRing, rd: Reader, c: Completion)
    requires ValidCq(bits, r) && HasRoom(bits, r) && ReaderOk(bits, r, rd)
    ensures ValidCq(bits, Post(bits, r, c)) && ReaderOk(bits, Post(bits, r, c), rd)
  {
    hide BitAnd, Pow2;
    PostAppends(bits, r, c);
  }

  // -------------------------------------------------------------------------
  // Whole runs.

  datatype Mailbox = Mailbox(ring: CqRing, reader: Reader, posted: seq<Completion>, taken: seq<Completion>)

  datatype MailAction = TakeStep | KernelPost(c: Completion)

  ghost predicate MailEnabled(bits: nat, m: Mailbox, act: MailAction) {
    act.KernelPost? ==> HasRoom(bits, m.ring)
  }

  ghost function MailStep(bits: nat, m: Mailbox, act: MailAction): Mailbox {
    match act
    case TakeStep =>
      var (r, rd) := ReaderStep(bits, m.ring, m.reader);
      m.(ring := r, reader := rd, taken := if m.reader.Copied? then m.taken + [m.reader.cqe] else m.taken)
    case KernelPost(c) => m.(ring := Post(bits, m.ring, c), posted := m.posted + [c])
  }

  ghost function MailAfter(bits: nat, m: Mailbox, acts: seq<MailAction>): Mailbox {
    if acts == [] then m
    else MailStep(bits, MailAfter(bits, m, acts[..|acts| - 1]), acts[|acts| - 1])
  }

  ghost predicate MailLegal(bits: nat, m: Mailbox, acts: seq<MailAction>) {
    acts == [] || (
      && MailLegal(bits, m, acts[..|acts| - 1])
      && MailEnabled(bits, MailAfter(bits, m, acts[..|acts| - 1]), acts[|acts| - 1])
    )
  }

  ghost predicate MailFresh(bits: nat, m: Mailbox) {
    && bits <= 31 && |m.ring.cqes| == Pow2(bits)
    && m.ring.head == 0 && m.ring.tail == 0 && m.reader.Resting?
    && m.posted == [] && m.taken == []
  }

  ghost predicate MailInv(bits: nat, m: Mailbox) {
    && ValidCq(bits, m.ring) && ReaderOk(bits, m.ring, m.reader)
    && m.posted == m.taken + Waiting(bits, m.ring)
    && m.ring.head == |m.taken| % TWO32
    && m.ring.tail == |m.posted| % TWO32
  }

  lemma {:induction false} TakeKeepsMailInv(bits: nat, m: Mailbox)
    requires MailInv(bits, m)
    ensures MailInv(bits, MailStep(bits, m, TakeStep))
  {
    hide BitAnd, Pow2;
    ReaderStepEffect(bits, m.ring, m.reader);
    AddIgnoresWrap(|m.taken|, 1);
  }

  lemma {:induction false} PostKeepsMailInv(bits: nat, m: Mailbox, c: Completion)
    requires MailInv(bits, m) && HasRoom(bits, m.ring)
    ensures MailInv(bits, MailStep(bits, m, KernelPost(c)))
  {
    hide BitAnd, Pow2;
    PostAppends(bits, m.ring, c);
    PostKeepsReader(bits, m.ring, m.reader, c);
    AddIgnoresWrap(|m.posted|, 1);
  }

  // The completion queue is a FIFO queue: under every interleaving what the server
  // has taken is a prefix of what the kernel posted, in order, once each, and an
  // entry it has copied but not yet announced is still the oldest one, whatever was
  // posted meanwhile.
  lemma {:induction false} MailboxIsFifo(bits: nat, m: Mailbox, acts: seq<MailAction>)
    requires MailFresh(bits, m) && MailLegal(bits, m, acts)
    ensures var m' := MailAfter(bits, m, acts);
            && MailInv(bits, m')
            && m'.taken <= m'.posted
            && m'.posted[|m'.taken|..] == Waiting(bits, m'.ring)
            && (m'.reader.Copied? ==> m'.taken + [m'.reader.cqe] <= m'.posted)
  {
    var n := |acts|;
    if n > 0 {
      MailboxIsFifo(bits, m, acts[..n - 1]);
      var mid := MailAfter(bits, m, acts[..n - 1]);
      match acts[n - 1]
      case TakeStep => TakeKeepsMailInv(bits, mid);
      case KernelPost(c) => PostKeepsMailInv(bits, mid, c);
    }
  }
}
