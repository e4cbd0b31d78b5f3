/** The growable vector of the poll server: two parallel arrays, one of pollfd records and
    one of private data pointers, updated in place. */
module PollFdVector {
  import opened IouTypes
  import opened Wrapping

  datatype Flag = PollIn | PollErr | PollHup | PollOther

  datatype PollFd = PollFd(fd: int, events: set<Flag>, revents: set<Flag>)

  // A slot of the two arrays.
  datatype Entry = Entry(pfd: PollFd, pd: Addr)

  const DATA_INITIAL_SIZE := 16
  const DATA_CAPACITY_EXTEND_MULT := 2

  const NO_FD := PollFd(-1, {}, {})

  // The vector as a value, with what it has cost so far.
  datatype Vec = Vec(
    entries: seq<Entry>,
    capacity: nat,
    carried: nat, // elements carried over by all extensions
    adds: nat,    // entries added
    peak: nat     // the largest size there has been
  )

  const EMPTY := Vec([], DATA_INITIAL_SIZE, 0, 0, 0)

  // None is the exit for want of room.
  function Added(v: Vec, e: Entry): Option<Vec> {
    var extended := if |v.entries| < v.capacity then v
                    else v.(capacity := v.capacity * 2 % TWO32, carried := v.carried + |v.entries|);
    if |v.entries| >= extended.capacity then None
    else Some(extended.(entries := v.entries + [e], adds := v.adds + 1,
                        peak := if |v.entries| + 1 > v.peak then |v.entries| + 1 else v.peak))
  }

  // Removal by moving the last entry into the gap.
  function SwapRemove(s: seq<Entry>, i: nat): (r: seq<Entry>)
    requires i < |s|
    ensures |r| == |s| - 1
  {
    if i == |s| - 1 then s[..i] else s[..|s| - 1][i := s[|s| - 1]]
  }

  // An entry whose descriptor is -1 is left alone.
  function Removed(v: Vec, i: nat): Vec {
    if i < |v.entries| && v.entries[i].pfd.fd != -1 then v.(entries := SwapRemove(v.entries, i)) else v
  }

  // The last entry is dropped, whatever the index was meant for.
  function WithoutLast(v: Vec): Vec
    requires v.entries != []
  {
    v.(entries := v.entries[..|v.entries| - 1])
  }

  class Vector {
    var data: array<PollFd>
    var pd: array<Addr>
    var size: uint32
    var capacity: uint32
    ghost var carried: nat
    ghost var adds: nat
    ghost var peak: nat

    ghost predicate Valid()
      reads this
    {
      data.Length == capacity && pd.Length == capacity && size <= capacity
    }

    // Slot i of both arrays.
    ghost function At(i: nat): Entry
      requires Valid() && i < capacity
      reads this, data, pd
    {
      Entry(data[i], pd[i])
    }

    ghost function Entries(): (es: seq<Entry>)
      requires Valid()
      reads this, data, pd
      ensures |es| == size
    {
      seq(size, i requires 0 <= i < size && Valid() reads this, data, pd => At(i))
    }

    ghost function View(): Vec
      requires Valid()
      reads this, data, pd
    {
      Vec(Entries(), capacity, carried, adds, peak)
    }

    // pollfdv_create
    constructor ()
      ensures Valid() && View() == EMPTY && fresh(data) && fresh(pd)
      ensures forall i :: 0 <= i < capacity ==> data[i].fd == -1
    {
      size, capacity := 0, DATA_INITIAL_SIZE;
      data := new PollFd[DATA_INITIAL_SIZE](_ => NO_FD);
      pd := new Addr[DATA_INITIAL_SIZE](_ => NULL);
      carried, adds, peak := 0, 0, 0;
    }

    // pollfdv_extend: realloc keeps what fits and leaves new slots as they come.
    method Extend()
      requires Valid() && size == capacity
      modifies this
      ensures data.Length == capacity && pd.Length == capacity && fresh(data) && fresh(pd)
      ensures capacity == old(capacity) * 2 % TWO32 && size == old(size)
      ensures carried == old(carried) + old(size) && adds == old(adds) && peak == old(peak)
      ensures size < capacity ==> Valid() && Entries() == old(Entries())
    {
      var newCapacity: uint32 := capacity * DATA_CAPACITY_EXTEND_MULT % TWO32;
      var newData := new PollFd[newCapacity];
      var newPd := new Addr[newCapacity];
      var kept := if capacity < newCapacity then capacity else newCapacity;
      forall i | 0 <= i < kept {
        newData[i] := data[i];
      }
      forall i | 0 <= i < kept {
        newPd[i] := pd[i];
      }
      data, pd, capacity := newData, newPd, newCapacity;
      carried := carried + size;
    }

    // pollfdv_add: false stands for exit(EXIT_FAILURE).
    method Add(conf: PollFd, privateData: Addr) returns (ok: bool)
      requires Valid()
      modifies this, data, pd
      ensures ok <==> Added(old(View()), Entry(conf, privateData)).Some?
      ensures ok ==> Valid() && Some(View()) == Added(old(View()), Entry(conf, privateData))
      ensures data == old(data) || fresh(data)
      ensures pd == old(pd) || fresh(pd)
      ensures ok ==> (fresh(data) <==> old(size == capacity)) && (fresh(pd) <==> old(size == capacity))
      ensures old(size < capacity) ==> data == old(data) && pd == old(pd)
      ensures data == old(data) ==> forall i :: 0 <= i < data.Length && i != old(size) ==> data[i] == old(data[i])
    {
      if size >= capacity {
        Extend();
      }
      if size >= capacity {
        return false;
      }
      data[size] := conf;
      pd[size] := privateData;
      size := size + 1;
      adds := adds + 1;
      peak := if size > peak then size else peak;
      assert Entries() == old(Entries()) + [Entry(conf, privateData)];
      return true;
    }

    // pollfdv_remove_index. An index past the size is harmless where the slot is outside
    // the arrays or marked free; otherwise the last entry is lost, and with no entry the
    // program would write before the arrays.
    method RemoveIndex(index: uint32)
      requires Valid() && (size > 0 || index >= capacity || data[index].fd == -1)
      modifies this`size, data, pd
      ensures Valid() && data == old(data) && pd == old(pd)
      ensures size < old(size) ==> data[size] == NO_FD && pd[size] == NULL
      ensures index < old(size) || index >= capacity || old(data[index].fd) == -1 ==>
        View() == Removed(old(View()), index)
      ensures old(size) <= index < capacity && old(data[index].fd) != -1 ==> View() == WithoutLast(old(View()))
    {
      if index >= capacity {
        return;
      }
      if data[index].fd == -1 {
        return;
      }
      if index != size - 1 {
        // replace the removed entry with the last one
        data[index] := data[size - 1];
        pd[index] := pd[size - 1];
      }
      // remove the last entry
      data[size - 1] := NO_FD;
      pd[size - 1] := NULL;
      size := size - 1;
    }
  }

  // -------------------------------------------------------------------------
  // The vector as a bag of pairs.

  lemma {:induction false} SwapRemoveBag(s: seq<Entry>, i: nat)
    requires i < |s|
    ensures multiset(SwapRemove(s, i)) == multiset(s) - multiset{s[i]}
  {
    var last := |s| - 1;
    assert s == s[..last] + [s[last]];
    if i < last {
      assert s[..last] == s[..i] + [s[i]] + s[i + 1..last];
      assert s[..last][i := s[last]] == s[..i] + [s[last]] + s[i + 1..last];
    }
  }

  // Adding inserts the pair it is given; removing deletes the pair at the index; each
  // descriptor keeps its private data, whatever is moved or reallocated.
  lemma {:induction false} VectorIsBag(v: Vec, e: Entry, i: nat)
    ensures Added(v, e).Some? ==> multiset(Added(v, e).value.entries) == multiset(v.entries) + multiset{e}
    ensures i < |v.entries| && v.entries[i].pfd.fd != -1 ==>
              multiset(Removed(v, i).entries) == multiset(v.entries) - multiset{v.entries[i]}
    ensures i < |v.entries| && v.entries[i].pfd.fd == -1 ==> Removed(v, i) == v
  {
    if i < |v.entries| {
      SwapRemoveBag(v.entries, i);
    }
  }

  // What was added last fills the gap of any entry removed after it, in place; removed
  // itself, it leaves the vector as it was. The capacity never shrinks.
  lemma {:induction false} AddThenRemove(v: Vec, e: Entry, i: nat)
    requires Added(v, e).Some? && i <= |v.entries|
    requires if i < |v.entries| then v.entries[i].pfd.fd != -1 else e.pfd.fd != -1
    ensures var w := Removed(Added(v, e).value, i);
            && w.entries == (if i < |v.entries| then v.entries[i := e] else v.entries)
            && w.capacity >= v.capacity
  {
    var s := v.entries + [e];
    assert s[..|v.entries|] == v.entries;
    assert s[i] == if i < |v.entries| then v.entries[i] else e;
  }

  // -------------------------------------------------------------------------
  // What growth costs over a whole run.

  datatype VecOp = Add(e: Entry) | RemoveAt(i: nat)

  ghost function AfterOps(ops: seq<VecOp>): Option<Vec> {
    if ops == [] then Some(EMPTY)
    else match AfterOps(ops[..|ops| - 1])
      case None => None
      case Some(v) =>
        match ops[|ops| - 1]
        case Add(e) => Added(v, e)
        case RemoveAt(i) => Some(Removed(v, i))
  }

  function AddCount(ops: seq<VecOp>): nat {
    if ops == [] then 0 else AddCount(ops[..|ops| - 1]) + if ops[|ops| - 1].Add? then 1 else 0
  }

  // The largest number of entries after any prefix of the run.
  ghost function MaxSize(ops: seq<VecOp>): nat {
    if ops == [] then 0
    else
      var before := MaxSize(ops[..|ops| - 1]);
      var size := if AfterOps(ops).Some? then |AfterOps(ops).value.entries| else 0;
      if size > before then size else before
  }

  ghost predicate GrowthOk(v: Vec) {
    && (exists n: nat :: v.capacity == DATA_INITIAL_SIZE * Pow2(n))
    && v.capacity < TWO32
    && |v.entries| <= v.peak <= v.adds && |v.entries| <= v.capacity
    && v.carried == v.capacity - DATA_INITIAL_SIZE
    && (v.capacity == DATA_INITIAL_SIZE || v.capacity < 2 * v.peak)
  }

  lemma {:induction false} OnlyWrapsAtTop(capacity: nat, n: nat)
    requires capacity == DATA_INITIAL_SIZE * Pow2(n) && capacity < TWO32
    ensures capacity <= 0x8000_0000
    ensures capacity * 2 % TWO32 == if capacity == 0x8000_0000 then 0 else capacity * 2
  {
    assert Pow2(14) == 0x4000;
    Pow2Divides(14, 28);
    assert Pow2(28) == 2 * Pow2(27);
    if n >= 28 {
      Pow2Grows(28, n);
    } else {
      Pow2Grows(n, 27);
    }
  }

  lemma {:induction false} Pow2Grows(a: nat, b: nat)
    requires a <= b
    ensures Pow2(a) <= Pow2(b)
    decreases b
  {
    if a < b {
      Pow2Grows(a, b - 1);
    }
  }

  // From an empty vector, through any adds and removes: the capacity is 16 times a
  // power of two and below twice the largest size, all extensions together carry
  // fewer than two elements per add, and an add is refused exactly when the vector
  // holds 2^31 entries, where doubling the capacity would wrap.
  lemma {:induction false} GrowthCost(ops: seq<VecOp>)
    requires AfterOps(ops).Some?
    ensures var v := AfterOps(ops).value;
            && GrowthOk(v)
            && v.adds == AddCount(ops) && v.peak == MaxSize(ops)
            && (v.carried == 0 || v.carried < 2 * AddCount(ops))
            && (forall e :: Added(v, e).None? <==> |v.entries| == 0x8000_0000)
  {
    if ops != [] {
      var rest := ops[..|ops| - 1];
      GrowthCost(rest);
      var v := AfterOps(rest).value;
      var n: nat :| v.capacity == DATA_INITIAL_SIZE * Pow2(n);
      if ops[|ops| - 1].Add? && |v.entries| == v.capacity {
        assert DATA_INITIAL_SIZE * Pow2(n + 1) == 2 * v.capacity;
        OnlyWrapsAtTop(v.capacity, n);
      }
    }
    var v := AfterOps(ops).value;
    assert EMPTY.capacity == DATA_INITIAL_SIZE * Pow2(0);
    var n: nat :| v.capacity == DATA_INITIAL_SIZE * Pow2(n);
    OnlyWrapsAtTop(v.capacity, n);
  }
}
