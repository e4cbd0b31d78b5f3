/** One sweep of the poll server over its vector, on values: what must hold of the slots
    not visited yet while handlers append entries and move the last one into the slot
    of a removed one. */
module PollSweep {
  import opened IouTypes
  import opened PollFdVector

  datatype Pair = Pair(fd: int, pd: Addr)

  // What a slot contributes: itself if it is ready, its descriptor, its private data.
  function ReadyPart(e: Entry): multiset<Entry> { if e.pfd.revents == {} then multiset{} else multiset{e} }

  function FdPart(e: Entry): multiset<int> { if e.pfd.fd == -1 then multiset{} else multiset{e.pfd.fd} }

  function PdPart(e: Entry): multiset<Addr> { if e.pd == NULL then multiset{} else multiset{e.pd} }

  function PairPart(e: Entry): multiset<Pair> { multiset{Pair(e.pfd.fd, e.pd)} }

  ghost function Collect<T>(f: Entry -> multiset<T>, s: seq<Entry>): multiset<T> {
    if s == [] then multiset{} else f(s[0]) + Collect(f, s[1..])
  }

  lemma {:induction false} CollectAppend<T>(f: Entry -> multiset<T>, a: seq<Entry>, b: seq<Entry>)
    ensures Collect(f, a + b) == Collect(f, a) + Collect(f, b)
  {
    if a == [] {
      assert a + b == b;
    } else {
      CollectAppend(f, a[1..], b);
      assert (a + b)[1..] == a[1..] + b;
    }
  }

  lemma {:induction false} CollectOne<T>(f: Entry -> multiset<T>, e: Entry)
    ensures Collect(f, [e]) == f(e)
  {
  }

  lemma {:induction false} NoPairs()
    ensures Collect(PairPart, []) == multiset{}
  {
  }

  lemma {:induction false} CollectAt<T>(f: Entry -> multiset<T>, s: seq<Entry>, i: nat)
    requires i < |s|
    ensures Collect(f, s) == Collect(f, s[..i]) + f(s[i]) + Collect(f, s[i + 1..])
    ensures Collect(f, s[i..]) == f(s[i]) + Collect(f, s[i + 1..])
  {
    assert s == s[..i] + s[i..];
    CollectAppend(f, s[..i], s[i..]);
    assert s[i..][1..] == s[i + 1..];
  }

  lemma {:induction false} CollectUpdate<T>(f: Entry -> multiset<T>, s: seq<Entry>, i: nat, e: Entry)
    requires i < |s| && f(e) == f(s[i])
    ensures Collect(f, s[i := e]) == Collect(f, s)
  {
    var t := s[i := e];
    CollectAt(f, s, i);
    CollectAt(f, t, i);
    assert t[..i] == s[..i] && t[i + 1..] == s[i + 1..];
  }

  // What lies ahead of a gap is the same entries, the last one first.
  lemma {:induction false} SwapRemoveShape(s: seq<Entry>, i: nat)
    requires i < |s|
    ensures SwapRemove(s, i)[..i] == s[..i]
    ensures i == |s| - 1 ==> SwapRemove(s, i)[i..] == s[i + 1..]
    ensures i < |s| - 1 ==> SwapRemove(s, i)[i..] == [s[|s| - 1]] + s[i + 1..|s| - 1]
    ensures i < |s| - 1 ==> s[i + 1..] == s[i + 1..|s| - 1] + [s[|s| - 1]]
  {
  }

  // Removal takes away one slot's part, from the whole and from what lies ahead.
  lemma {:induction false} CollectSwapRemove<T>(f: Entry -> multiset<T>, s: seq<Entry>, i: nat)
    requires i < |s|
    ensures Collect(f, SwapRemove(s, i)) + f(s[i]) == Collect(f, s)
    ensures Collect(f, SwapRemove(s, i)[i..]) == Collect(f, s[i + 1..])
  {
    hide Collect, SwapRemove;
    var last := |s| - 1;
    var r := SwapRemove(s, i);
    SwapRemoveShape(s, i);
    CollectAt(f, s, i);
    if i < last {
      CollectAppend(f, s[i + 1..last], [s[last]]);
      CollectAppend(f, [s[last]], s[i + 1..last]);
    }
    assert r == r[..i] + r[i..];
    CollectAppend(f, r[..i], r[i..]);
  }

  lemma {:induction false} CollectHas<T>(f: Entry -> multiset<T>, s: seq<Entry>, i: nat, x: T)
    requires i < |s| && x in f(s[i])
    ensures x in Collect(f, s)
    ensures i > 0 ==> x in Collect(f, s[1..])
  {
    CollectAt(f, s, i);
    if i > 0 {
      CollectAt(f, s[1..], i - 1);
    }
  }

  // -------------------------------------------------------------------------
  // Ownership.

  // The slots hold the listener first, then exactly the open descriptors and exactly
  // the allocated private data, each once, and every slot asks for input.
  ghost predicate Owned(ls: int, timer: int, es: seq<Entry>, open: set<int>, heap: set<Addr>) {
    && es != [] && es[0].pfd.fd == ls && es[0].pd == NULL
    && ls != -1 && ls !in open && -1 !in open && NULL !in heap
    && (timer != -1 ==> timer in open)
    && Collect(FdPart, es[1..]) == multiset(open)
    && Collect(PdPart, es[1..]) == multiset(heap)
    && (forall j :: 0 < j < |es| ==> (es[j].pd == NULL <==> timer != -1 && es[j].pfd.fd == timer))
    && (forall j :: 0 <= j < |es| ==> es[j].pfd.events == {PollIn})
  }

  lemma {:induction false} OwnedListener(ls: int, e: Entry)
    requires ls >= 0 && e.pfd.fd == ls && e.pd == NULL && e.pfd.events == {PollIn}
    ensures Owned(ls, -1, [e], {}, {})
  {
    assert [e][1..] == [];
  }

  lemma {:induction false} OwnedTimer(ls: int, timer: int, e: Entry, t: Entry)
    requires ls >= 0 && timer >= 0 && ls != timer
    requires e.pfd.fd == ls && e.pd == NULL && t.pfd.fd == timer && t.pd == NULL
    requires e.pfd.events == {PollIn} && t.pfd.events == {PollIn}
    ensures Owned(ls, timer, [e, t], {timer}, {})
  {
    assert [e, t][1..] == [t];
    CollectOne(FdPart, t);
    CollectOne(PdPart, t);
  }

  lemma {:induction false} OwnedSome(ls: int, timer: int, es: seq<Entry>, open: set<int>, heap: set<Addr>)
    requires Owned(ls, timer, es, open, heap)
    ensures es != []
  {
  }

  lemma {:induction false} OwnedEvents(ls: int, timer: int, es: seq<Entry>, open: set<int>, heap: set<Addr>, i: nat)
    requires Owned(ls, timer, es, open, heap) && i < |es|
    ensures es[i].pfd.events == {PollIn}
  {
  }

  // A connected client, or the timer.
  lemma {:induction false} OwnedFacts(ls: int, timer: int, es: seq<Entry>, open: set<int>, heap: set<Addr>, i: nat)
    requires Owned(ls, timer, es, open, heap) && 0 < i < |es|
    ensures es[i].pfd.fd != -1 ==> es[i].pfd.fd in open && es[i].pfd.fd != ls
    ensures es[i].pd != NULL ==> es[i].pd in heap
  {
    if es[i].pfd.fd != -1 { CollectHas(FdPart, es, i, es[i].pfd.fd); }
    if es[i].pd != NULL { CollectHas(PdPart, es, i, es[i].pd); }
  }

  // No descriptor is in two slots.
  lemma {:induction false} FdsDistinct(r: seq<Entry>, open: set<int>, i: nat, j: nat)
    requires Collect(FdPart, r) == multiset(open) && i < |r| && j < |r| && i != j && r[i].pfd.fd != -1
    ensures r[i].pfd.fd != r[j].pfd.fd
  {
    hide Collect;
    var fd := r[i].pfd.fd;
    CollectAt(FdPart, r, i);
    assert multiset(open)[fd] <= 1;
    if j < i && r[j].pfd.fd == fd {
      CollectHas(FdPart, r[..i], j, fd);
    }
    if i < j && r[j].pfd.fd == fd {
      assert r[i + 1..][j - 1 - i] == r[j];
      CollectHas(FdPart, r[i + 1..], j - 1 - i, fd);
    }
  }

  lemma {:induction false} CollectAdds<T>(f: Entry -> multiset<T>, s: seq<Entry>, e: Entry, own: set<T>, x: T)
    requires Collect(f, s) == multiset(own) && f(e) == multiset{x} && x !in own
    ensures Collect(f, s + [e]) == multiset(own + {x})
  {
    CollectAppend(f, s, [e]);
    CollectOne(f, e);
  }

  lemma {:induction false} CollectRemoves<T>(f: Entry -> multiset<T>, s: seq<Entry>, i: nat, own: set<T>, x: T)
    requires Collect(f, s) == multiset(own) && i < |s|
    requires f(s[i]) == multiset{x} || (f(s[i]) == multiset{} && x !in own)
    ensures Collect(f, SwapRemove(s, i)) == multiset(own - {x})
  {
    hide Collect, SwapRemove;
    CollectSwapRemove(f, s, i);
    assert multiset(own - {x}) == multiset(own) - multiset{x};
    if x !in own {
      assert own - {x} == own;
    } else {
      assert Collect(f, SwapRemove(s, i)) == multiset(own) - multiset{x};
    }
  }

  lemma {:induction false} OwnedAdd(ls: int, timer: int, es: seq<Entry>, open: set<int>, heap: set<Addr>, e: Entry)
    requires Owned(ls, timer, es, open, heap)
    requires e.pd != NULL && e.pd !in heap && e.pfd.fd !in open && e.pfd.fd != ls && e.pfd.events == {PollIn}
    ensures Owned(ls, timer, es + [e], open + (if e.pfd.fd == -1 then {} else {e.pfd.fd}), heap + {e.pd})
  {
    hide Collect;
    assert (es + [e])[1..] == es[1..] + [e];
    CollectAdds(PdPart, es[1..], e, heap, e.pd);
    if e.pfd.fd == -1 {
      CollectAppend(FdPart, es[1..], [e]);
      CollectOne(FdPart, e);
    } else {
      CollectAdds(FdPart, es[1..], e, open, e.pfd.fd);
    }
  }

  lemma {:induction false} SwapRemoveTail(es: seq<Entry>, i: nat)
    requires 0 < i < |es|
    ensures SwapRemove(es, i)[1..] == SwapRemove(es[1..], i - 1)
  {
  }

  lemma {:induction false} OwnedRemove(ls: int, timer: int, es: seq<Entry>, open: set<int>, heap: set<Addr>, i: nat)
    requires Owned(ls, timer, es, open, heap) && 0 < i < |es| && es[i].pfd.fd != -1
    ensures var fd, pd := es[i].pfd.fd, es[i].pd;
            Owned(ls, if fd == timer then -1 else timer, SwapRemove(es, i), open - {fd}, heap - {pd})
  {
    hide Collect;
    SwapRemoveTail(es, i);
    CollectRemoves(FdPart, es[1..], i - 1, open, es[i].pfd.fd);
    CollectRemoves(PdPart, es[1..], i - 1, heap, es[i].pd);
    forall j | 0 < j < |es| && j != i ensures es[j].pfd.fd != es[i].pfd.fd {
      FdsDistinct(es[1..], open, i - 1, j - 1);
    }
  }

  lemma {:induction false} OwnedTimerGone(ls: int, timer: int, es: seq<Entry>, open: set<int>, heap: set<Addr>, i: nat)
    requires Owned(ls, timer, es, open, heap) && 0 < i < |es| && es[i].pfd.fd == timer != -1
    ensures timer in open && Owned(ls, -1, SwapRemove(es, i), open - {timer}, heap)
  {
    OwnedRemove(ls, timer, es, open, heap, i);
    assert heap - {NULL} == heap;
  }

  lemma {:induction false} OwnedMarked(ls: int, timer: int, es: seq<Entry>, open: set<int>, heap: set<Addr>, i: nat,
    e: Entry)
    requires Owned(ls, timer, es, open, heap) && i < |es| && e == es[i].(pfd := es[i].pfd.(revents := e.pfd.revents))
    ensures Owned(ls, timer, es[i := e], open, heap)
  {
    hide Collect;
    if i > 0 {
      assert es[i := e][1..] == es[1..][i - 1 := e];
      CollectUpdate(FdPart, es[1..], i - 1, e);
      CollectUpdate(PdPart, es[1..], i - 1, e);
    } else {
      assert es[i := e][1..] == es[1..];
    }
  }

  // -------------------------------------------------------------------------
  // The sweep.

  // What the system answers to the n-th call of read_n_echo, accept_client and ppoll.
  datatype Echo = Eof | Message | Broken

  datatype Arrival = Arrived | Nobody | AcceptError

  // A call of ppoll may be interrupted; else it has flags to report on each descriptor.
  datatype World = World(
    echo: nat -> Echo, arrival: nat -> Arrival, interrupted: nat -> bool, flags: (nat, int) -> set<Flag>)

  // A call of read_n_echo or accept_client, the n-th of its kind.
  datatype Call = Call(n: nat, fd: int, buf: Addr)

  // What was done, and by which call.
  datatype How =
    | NewClient(n: nat, fd: int, pd: Addr) // the fd is -1 when there was nobody to accept
    | TimerClosed
    | HungUp
    | EndOfStream(n: nat)
    | Echoed(n: nat)
    | Ignored

  datatype Service = Service(entry: Entry, how: How)

  // The calls a service or a sequence of services consists of.
  function ReadBy(s: Service): seq<Call> {
    if s.how.EndOfStream? || s.how.Echoed? then [Call(s.how.n, s.entry.pfd.fd, s.entry.pd)] else []
  }

  function AcceptBy(s: Service): seq<Call> {
    if s.how.NewClient? then [Call(s.how.n, s.entry.pfd.fd, NULL)] else []
  }

  ghost function Calls(f: Service -> seq<Call>, log: seq<Service>): seq<Call> {
    if log == [] then [] else f(log[0]) + Calls(f, log[1..])
  }

  // What is known when a sweep begins: the system's answers, the listener, the timer, the
  // loop's bound, whether the vector was full, the ready entries, and every descriptor
  // with its private data.
  datatype Begun = Begun(
    world: World, ls: int, timer: int, size: nat, full: bool, ready: multiset<Entry>, pairs: multiset<Pair>)

  ghost function Beginning(w: World, ls: int, timer: int, es: seq<Entry>, capacity: nat): Begun {
    Begun(w, ls, timer, |es|, |es| == capacity, Collect(ReadyPart, es), Collect(PairPart, es))
  }

  ghost function Logged(log: seq<Service>): (m: multiset<Entry>)
    ensures |m| == |log|
  {
    if log == [] then multiset{}
    else Logged(log[..|log| - 1]) + multiset{log[|log| - 1].entry}
  }

  // The connections the services accepted, and what they closed.
  ghost function Gained(log: seq<Service>): multiset<Pair> {
    if log == [] then multiset{}
    else Gained(log[..|log| - 1]) + GainedBy(log[|log| - 1].how)
  }

  function GainedBy(how: How): multiset<Pair> {
    if how.NewClient? then multiset{Pair(how.fd, how.pd)} else multiset{}
  }

  ghost function Gone(log: seq<Service>): multiset<Pair> {
    if log == [] then multiset{}
    else Gone(log[..|log| - 1])
         + if Closes(log[|log| - 1].how) then PairPart(log[|log| - 1].entry) else multiset{}
  }

  // The timer has expired.
  predicate TimerGone(log: seq<Service>) { exists s :: s in log && s.how.TimerClosed? }

  lemma {:induction false} TimerGoneOne(log: seq<Service>, s: Service)
    ensures TimerGone(log + [s]) <==> TimerGone(log) || s.how.TimerClosed?
  {
    assert s in log + [s];
  }

  predicate Closes(how: How) { how.TimerClosed? || how.HungUp? || how.EndOfStream? }

  // The service an event calls for. What a client's input leads to is what the system
  // answered to the call it was read by.
  predicate Fitting(b: Begun, s: Service) {
    var p := s.entry.pfd;
    && p.fd != -1 && p.revents != {} && p.revents <= {PollIn, PollErr, PollHup}
    && if p.fd == b.ls then FittingAccept(b.world, s.how)
       else if p.fd == b.timer then s.how.TimerClosed?
       else FittingClient(b.world, p, s.how)
  }

  predicate FittingAccept(w: World, how: How) {
    how.NewClient? &&
    match w.arrival(how.n)
    case Arrived => how.fd >= 0
    case Nobody => how.fd == -1
    case AcceptError => false
  }

  predicate FittingClient(w: World, p: PollFd, how: How) {
    if PollHup in p.revents || PollErr in p.revents then how.HungUp?
    else if PollIn in p.revents then FittingInput(w, how)
    else how.Ignored?
  }

  predicate FittingInput(w: World, how: How) {
    (how.EndOfStream? || how.Echoed?) &&
    match w.echo(how.n)
    case Eof => how.EndOfStream?
    case Message => how.Echoed?
    case Broken => false
  }

  // The branch of handle_client_event that expects nothing is never taken.
  lemma {:induction false} NothingUnexpected(b: Begun, s: Service)
    requires Fitting(b, s)
    ensures !s.how.Ignored?
  {
    var flag :| flag in s.entry.pfd.revents;
    assert flag in {PollIn, PollErr, PollHup};
  }

  predicate Ready(e: Entry) { e.pfd.revents != {} }

  // What ppoll reports of a slot; `timer` is the timer now, `timer0` when it polled.
  predicate Reported(ls: int, timer0: int, timer: int, e: Entry) {
    Ready(e) ==>
      && e.pfd.fd != -1 && e.pfd.revents <= e.pfd.events + {PollErr, PollHup}
      && (e.pfd.fd == ls || e.pfd.fd == timer0 ==> e.pfd.revents == {PollIn})
      && (timer != timer0 ==> e.pfd.fd != timer0)
  }

  // The loop before its next iteration, with `i` the slot it looks at next: what was
  // serviced and what lies ahead make up the ready entries, all within the bound; what
  // lies behind is cleared, but for the listener if the vector was full; and the vector
  // holds what it held but for the services' effects.
  ghost predicate Sweeping(b: Begun, timer: int, es: seq<Entry>, i: nat, log: seq<Service>) {
    && i <= b.size && i <= |es|
    && timer == (if TimerGone(log) then -1 else b.timer)
    && Logged(log) + Collect(ReadyPart, es[i..]) == b.ready
    && Collect(PairPart, es) + Gone(log) == b.pairs + Gained(log)
    && (forall j :: i <= j < |es| ==> Reported(b.ls, b.timer, timer, es[j]))
    && (forall j :: i <= j < |es| && Ready(es[j]) ==> j < b.size)
    && (forall j :: 0 <= j < i && Ready(es[j]) ==> j == 0 && b.full)
    && (forall s :: s in log ==> Fitting(b, s))
  }

  lemma {:induction false} NothingReady(s: seq<Entry>)
    requires forall j :: 0 <= j < |s| ==> !Ready(s[j])
    ensures Collect(ReadyPart, s) == multiset{}
  {
    if s != [] {
      NothingReady(s[1..]);
    }
  }

  // While something is left to service it lies ahead, inside the vector and the bound.
  lemma {:induction false} MoreAhead(b: Begun, timer: int, es: seq<Entry>, i: nat, log: seq<Service>)
    requires Sweeping(b, timer, es, i, log)
    ensures |log| <= |b.ready|
    ensures |log| < |b.ready| ==> i < |es| && i < b.size
  {
    assert |b.ready| == |log| + |Collect(ReadyPart, es[i..])|;
    if i >= |es| || i >= b.size {
      NothingReady(es[i..]);
    }
  }

  // The three ways an iteration can go.

  lemma {:induction false} SweepSkips(b: Begun, timer: int, es: seq<Entry>, i: nat, log: seq<Service>)
    requires Sweeping(b, timer, es, i, log) && i < |es| && i < b.size && !Ready(es[i])
    ensures Sweeping(b, timer, es, i + 1, log)
  {
    CollectAt(ReadyPart, es, i);
  }

  lemma {:induction false} BothGain<T>(a: multiset<T>, b: multiset<T>, c: multiset<T>, d: multiset<T>,
    more: multiset<T>)
    requires a + b == c + d
    ensures (a + more) + b == c + (d + more)
  {
    assert (a + more) + b == (a + b) + more;
  }

  // The slot after `revents` is cleared.
  function Cleared(e: Entry): Entry { e.(pfd := e.pfd.(revents := {})) }

  // Serviced in place, with entries that are not ready appended. The slot is cleared,
  // but it may not be if it is the first and the vector was full.
  lemma {:induction false} SweepKeeps(b: Begun, timer: int, es: seq<Entry>, i: nat, log: seq<Service>,
                                      how: How, more: seq<Entry>, es': seq<Entry>)
    requires Sweeping(b, timer, es, i, log) && i < |es| && i < b.size && Ready(es[i])
    requires Fitting(b, Service(es[i], how)) && !Closes(how)
    requires Collect(PairPart, more) == GainedBy(how) && forall e :: e in more ==> !Ready(e)
    requires es' == (es + more)[i := Cleared(es[i])] || (i == 0 && b.full && es' == es + more)
    ensures Sweeping(b, timer, es', i + 1, log + [Service(es[i], how)])
  {
    hide Collect, Logged, Gone, Gained, GainedBy, TimerGone, Reported, Fitting;
    TimerGoneOne(log, Service(es[i], how));
    PairsKept(b, es, i, log, how, more, es');
    LogOne(log, Service(es[i], how));
    ReadyKept(es, i, more, es');
    SlotsKept(b, timer, es, i, more, es');
    var log' := log + [Service(es[i], how)];
    assert Logged(log') + Collect(ReadyPart, es'[i + 1..])
           == Logged(log) + (multiset{es[i]} + Collect(ReadyPart, es'[i + 1..]));
  }

  lemma {:induction false} ReadyKept(es: seq<Entry>, i: nat, more: seq<Entry>, es': seq<Entry>)
    requires i < |es| && Ready(es[i]) && forall e :: e in more ==> !Ready(e)
    requires es' == (es + more)[i := Cleared(es[i])] || es' == es + more
    ensures Collect(ReadyPart, es[i..]) == multiset{es[i]} + Collect(ReadyPart, es'[i + 1..])
  {
    hide Collect;
    CollectAt(ReadyPart, es, i);
    assert es'[i + 1..] == es[i + 1..] + more;
    CollectAppend(ReadyPart, es[i + 1..], more);
    NothingReady(more);
  }

  lemma {:induction false} SlotsKept(b: Begun, timer: int, es: seq<Entry>, i: nat, more: seq<Entry>, es': seq<Entry>)
    requires i < |es| && forall e :: e in more ==> !Ready(e)
    requires es' == (es + more)[i := Cleared(es[i])] || (i == 0 && b.full && es' == es + more)
    requires forall j :: i <= j < |es| ==> Reported(b.ls, b.timer, timer, es[j]) && (Ready(es[j]) ==> j < b.size)
    requires forall j :: 0 <= j < i && Ready(es[j]) ==> j == 0 && b.full
    ensures forall j :: i + 1 <= j < |es'| ==>
              Reported(b.ls, b.timer, timer, es'[j]) && (Ready(es'[j]) ==> j < b.size)
    ensures forall j :: 0 <= j < i + 1 && Ready(es'[j]) ==> j == 0 && b.full
  {
    forall j | i + 1 <= j < |es'| ensures Reported(b.ls, b.timer, timer, es'[j]) && (Ready(es'[j]) ==> j < b.size) {
      assert es'[j] == if j < |es| then es[j] else more[j - |es|];
    }
    forall j | 0 <= j < i + 1 && Ready(es'[j]) ensures j == 0 && b.full {
      assert j < i ==> es'[j] == es[j];
    }
  }

  lemma {:induction false} PairsKept(b: Begun, es: seq<Entry>, i: nat, log: seq<Service>,
                                     how: How, more: seq<Entry>, es': seq<Entry>)
    requires Collect(PairPart, es) + Gone(log) == b.pairs + Gained(log) && i < |es| && !Closes(how)
    requires Collect(PairPart, more) == GainedBy(how)
    requires es' == es + more || es' == (es + more)[i := Cleared(es[i])]
    ensures var log' := log + [Service(es[i], how)];
            Collect(PairPart, es') + Gone(log') == b.pairs + Gained(log')
  {
    hide Collect, Gone, Gained;
    LogOne(log, Service(es[i], how));
    CollectUpdate(PairPart, es + more, i, Cleared(es[i]));
    CollectAppend(PairPart, es, more);
    BothGain(Collect(PairPart, es), Gone(log), b.pairs, Gained(log), Collect(PairPart, more));
  }

  lemma {:induction false} AheadOfGap(es: seq<Entry>, i: nat, j: nat)
    requires i <= j < |es| - 1
    ensures exists m :: i < m < |es| && j <= m && SwapRemove(es, i)[j] == es[m]
  {
    var m := if j == i then |es| - 1 else j;
    assert SwapRemove(es, i)[j] == es[m];
  }

  // Serviced and removed: the loop looks at slot i again.
  lemma {:induction false} SweepRemoves(b: Begun, timer: int, es: seq<Entry>, i: nat, log: seq<Service>, how: How,
    timer': int)
    requires Sweeping(b, timer, es, i, log) && i < |es| && i < b.size && Ready(es[i])
    requires Fitting(b, Service(es[i], how))
    requires timer' == if how.TimerClosed? then -1 else timer
    requires how.TimerClosed? ==> forall j :: i < j < |es| && Ready(es[j]) ==> es[j].pfd.fd != b.timer
    requires Closes(how)
    ensures Sweeping(b, timer', SwapRemove(es, i), i, log + [Service(es[i], how)])
  {
    hide Collect, SwapRemove, Logged, Gone, Gained, TimerGone;
    var s := Service(es[i], how);
    TimerGoneOne(log, s);
    LogOne(log, s);
    CollectAt(ReadyPart, es, i);
    CollectSwapRemove(ReadyPart, es, i);
    CollectSwapRemove(PairPart, es, i);
    var r := SwapRemove(es, i);
    assert GainedBy(how) == multiset{};
    var log' := log + [s];
    assert Logged(log') + Collect(ReadyPart, r[i..]) == b.ready;
    assert Gained(log') == Gained(log);
    assert Gone(log') == Gone(log) + PairPart(es[i]);
    assert Collect(PairPart, r) + PairPart(es[i]) == Collect(PairPart, es);
    assert Collect(PairPart, r) + Gone(log') == b.pairs + Gained(log');
    assert forall x :: x in log' ==> Fitting(b, x);
    forall j | i <= j < |r| ensures Reported(b.ls, b.timer, timer', r[j]) && (Ready(r[j]) ==> j < b.size) {
      AheadOfGap(es, i, j);
    }
    SwapRemoveShape(es, i);
    forall j | 0 <= j < i && Ready(r[j]) ensures j == 0 && b.full {
      assert r[j] == r[..i][j] == es[j];
    }
  }

  lemma {:induction false} Associates(x: seq<Call>, y: seq<Call>, z: seq<Call>)
    ensures x + (y + z) == x + y + z
  {
  }

  lemma {:induction false} CallsAppend(f: Service -> seq<Call>, a: seq<Service>, b: seq<Service>)
    ensures Calls(f, a + b) == Calls(f, a) + Calls(f, b)
  {
    if a == [] {
      assert a + b == b;
    } else {
      var s, rest := a[0], a[1..];
      CallsAppend(f, rest, b);
      assert (a + b)[0] == s && (a + b)[1..] == rest + b;
      Associates(f(s), Calls(f, rest), Calls(f, b));
    }
  }

  lemma {:induction false} NoCalls()
    ensures Calls(ReadBy, []) == [] && Calls(AcceptBy, []) == []
  {
  }

  lemma {:induction false} CallsOfOne(s: Service)
    ensures Calls(ReadBy, [s]) == ReadBy(s) && Calls(AcceptBy, [s]) == AcceptBy(s)
  {
  }

  lemma {:induction false} LogOne(log: seq<Service>, s: Service)
    ensures Logged(log + [s]) == Logged(log) + multiset{s.entry}
    ensures Gained(log + [s]) == Gained(log) + GainedBy(s.how)
    ensures Gone(log + [s]) == Gone(log) + if Closes(s.how) then PairPart(s.entry) else multiset{}
  {
    assert (log + [s])[..|log|] == log;
  }

  // What ppoll leaves in the vector.
  ghost predicate Polled(ls: int, timer: int, es: seq<Entry>) {
    forall j :: 0 <= j < |es| ==> Reported(ls, timer, timer, es[j])
  }

  // What the n-th call of ppoll reports on an entry: of what it has to report, what was
  // asked for, and on a client also errors and hang-ups.
  function FlagsFor(w: World, n: nat, ls: int, timer: int, p: PollFd): (r: set<Flag>)
    ensures r <= p.events + {PollErr, PollHup} && (p.fd < 0 ==> r == {})
  {
    if p.fd < 0 then {}
    else w.flags(n, p.fd) * if p.fd == ls || p.fd == timer then p.events else p.events + {PollErr, PollHup}
  }

  function Marked(w: World, n: nat, ls: int, timer: int, e: Entry): Entry {
    e.(pfd := e.pfd.(revents := FlagsFor(w, n, ls, timer, e.pfd)))
  }

  // The n-th call of ppoll turns `es` into `es'`.
  ghost predicate ReportedOn(w: World, n: nat, ls: int, timer: int, es: seq<Entry>, es': seq<Entry>) {
    |es'| == |es| && forall j :: 0 <= j < |es| ==> es'[j] == Marked(w, n, ls, timer, es[j])
  }

  lemma {:induction false} MarkedIsReported(w: World, n: nat, ls: int, timer: int, e: Entry)
    requires e.pfd.events == {PollIn}
    ensures Reported(ls, timer, timer, Marked(w, n, ls, timer, e))
  {
    hide FlagsFor;
    var p := e.pfd;
    if p.fd == ls || p.fd == timer { InputOnly(w, n, ls, timer, p); }
  }

  lemma {:induction false} InputOnly(w: World, n: nat, ls: int, timer: int, p: PollFd)
    requires p.events == {PollIn} && (p.fd == ls || p.fd == timer)
    ensures FlagsFor(w, n, ls, timer, p) in {{}, {PollIn}}
  {
    var f := w.flags(n, p.fd);
    assert f * {PollIn} == if PollIn in f then {PollIn} else {};
  }

  lemma {:induction false} PolledNone(w: World, n: nat, ls: int, timer: int)
    ensures Polled(ls, timer, []) && |Collect(ReadyPart, [])| == 0 && ReportedOn(w, n, ls, timer, [], [])
  {
  }

  // One more slot is reported on.
  lemma {:induction false} PolledOneMore(w: World, n: nat, ls: int, timer: int, es0: seq<Entry>, es: seq<Entry>,
                                         es': seq<Entry>, i: nat)
    requires i < |es0| == |es| && Polled(ls, timer, es[..i]) && ReportedOn(w, n, ls, timer, es0[..i], es[..i])
    requires es[i..] == es0[i..] && es' == es[i := Marked(w, n, ls, timer, es[i])] && es[i].pfd.events == {PollIn}
    ensures Polled(ls, timer, es'[..i + 1]) && ReportedOn(w, n, ls, timer, es0[..i + 1], es'[..i + 1])
    ensures es'[i + 1..] == es0[i + 1..]
    ensures |Collect(ReadyPart, es'[..i + 1])| == |Collect(ReadyPart, es[..i])| + if Ready(es'[i]) then 1 else 0
  {
    hide Collect, Marked, Reported;
    assert es[i] == es[i..][0] && es[i + 1..] == es[i..][1..] && es0[i + 1..] == es0[i..][1..];
    MarkedIsReported(w, n, ls, timer, es[i]);
    assert es'[..i + 1] == es[..i] + [es'[i]];
    CollectAppend(ReadyPart, es[..i], [es'[i]]);
    CollectOne(ReadyPart, es'[i]);
  }

  lemma {:induction false} SweepStarts(w: World, ls: int, timer: int, es: seq<Entry>, capacity: nat)
    requires Polled(ls, timer, es)
    ensures Sweeping(Beginning(w, ls, timer, es, capacity), timer, es, 0, [])
  {
    assert es[0..] == es;
  }

  // What a finished sweep has done: every ready entry serviced once, by what its event
  // calls for, and the vector changed by that and nothing else. No event is left, but
  // the listener's may be if the vector was full.
  ghost predicate Swept(b: Begun, es: seq<Entry>, log: seq<Service>) {
    && Logged(log) == b.ready
    && (forall s :: s in log ==> Fitting(b, s))
    && Collect(PairPart, es) + Gone(log) == b.pairs + Gained(log)
    && (forall j :: 0 <= j < |es| && Ready(es[j]) ==> j == 0 && b.full)
  }

  lemma {:induction false} SweepEnds(b: Begun, timer: int, es: seq<Entry>, i: nat, log: seq<Service>)
    requires Sweeping(b, timer, es, i, log) && |log| == |b.ready|
    ensures Swept(b, es, log) && timer == if TimerGone(log) then -1 else b.timer
  {
    hide Collect, Logged, Gone, Gained, Fitting, Reported;
    assert |Collect(ReadyPart, es[i..])| == 0;
    forall j | i <= j < |es| ensures !Ready(es[j]) {
      assert es[i..][j - i] == es[j];
      if Ready(es[j]) { CollectHas(ReadyPart, es[i..], j - i, es[j]); }
    }
  }

  // What the handlers may rely on at a ready slot.
  lemma {:induction false} SlotFacts(b: Begun, timer: int, es: seq<Entry>, i: nat, log: seq<Service>,
                                     open: set<int>, heap: set<Addr>)
    requires Owned(b.ls, timer, es, open, heap) && Sweeping(b, timer, es, i, log)
    requires i < |es| && Ready(es[i])
    ensures var p := es[i].pfd;
            && -1 !in open && p.fd != -1 && p.revents != {} && p.revents <= {PollIn, PollErr, PollHup}
            && (timer == b.timer || timer == -1)
            && (p.fd == b.ls ==> i == 0 && PollIn in p.revents)
            && (p.fd == b.timer ==> PollIn in p.revents)
            && (p.fd == timer ==> i > 0 && forall j :: i < j < |es| ==> es[j].pfd.fd != b.timer)
            && (p.fd == b.timer ==> p.fd == timer || p.fd == b.ls)
            && (i == 0 ==> p.fd == b.ls)
  {
    hide Collect;
    if i > 0 {
      OwnedFacts(b.ls, timer, es, open, heap, i);
      if es[i].pfd.fd == timer {
        forall j | i < j < |es| ensures es[j].pfd.fd != b.timer {
          FdsDistinct(es[1..], open, i - 1, j - 1);
        }
      }
    }
  }

  // -------------------------------------------------------------------------
  // The cleanup.

  // What slots i and up still hold; the listener's descriptor is closed elsewhere.
  ghost predicate LeftToClose(ls: int, es: seq<Entry>, i: nat, open: set<int>, heap: set<Addr>) {
    && i <= |es| && es != [] && es[0].pfd.fd == ls && ls !in open && -1 !in open && NULL !in heap && ls != -1
    && var rest := if i == 0 then es[1..] else es[i..];
    && Collect(FdPart, rest) == multiset(open)
    && Collect(PdPart, rest) == multiset(heap)
  }

  lemma {:induction false} CleanupStarts(ls: int, timer: int, es: seq<Entry>, open: set<int>, heap: set<Addr>)
    requires Owned(ls, timer, es, open, heap)
    ensures LeftToClose(ls, es, 0, open, heap)
  {
  }

  lemma {:induction false} CleanupStep(ls: int, es: seq<Entry>, i: nat, open: set<int>, heap: set<Addr>)
    requires LeftToClose(ls, es, i, open, heap) && i < |es|
    ensures var fd, pd := es[i].pfd.fd, es[i].pd;
            && (i == 0 ==> fd == ls && LeftToClose(ls, es, 1, open, heap))
            && (i > 0 ==> fd != ls && (fd == -1 || fd in open) && (pd == NULL || pd in heap))
            && (i > 0 && fd != -1 ==> LeftToClose(ls, es, i + 1, open - {fd}, heap - {pd}))
  {
    if i > 0 {
      CollectAt(FdPart, es, i);
      CollectAt(PdPart, es, i);
      FirstOut(FdPart, es[i..], open, es[i].pfd.fd);
      FirstOut(PdPart, es[i..], heap, es[i].pd);
      assert es[i..][1..] == es[i + 1..];
    }
  }

  lemma {:induction false} FirstOut<T>(f: Entry -> multiset<T>, s: seq<Entry>, own: set<T>, x: T)
    requires s != [] && Collect(f, s) == multiset(own)
    requires f(s[0]) == multiset{x} || (f(s[0]) == multiset{} && x !in own)
    ensures f(s[0]) == multiset{x} ==> x in own
    ensures Collect(f, s[1..]) == multiset(own - {x})
  {
    assert multiset(own - {x}) == multiset(own) - multiset{x};
  }

  lemma {:induction false} CleanupEnds(ls: int, es: seq<Entry>, open: set<int>, heap: set<Addr>)
    requires LeftToClose(ls, es, |es|, open, heap)
    ensures open == {} && heap == {}
  {
    assert multiset(open) == multiset{} && multiset(heap) == multiset{};
    forall x ensures x !in open && x !in heap {
      assert multiset(open)[x] == 0 && multiset(heap)[x] == 0;
    }
  }

  // -------------------------------------------------------------------------
  // Each descriptor once.

  lemma {:induction false} AllFdsDistinct(ls: int, timer: int, es: seq<Entry>, open: set<int>, heap: set<Addr>,
                                          i: nat, j: nat)
    requires Owned(ls, timer, es, open, heap) && i < |es| && j < |es| && i != j && es[i].pfd.fd != -1
    ensures es[i].pfd.fd != es[j].pfd.fd
  {
    hide Collect;
    if i > 0 && j > 0 {
      FdsDistinct(es[1..], open, i - 1, j - 1);
    } else {
      OwnedFacts(ls, timer, es, open, heap, if i > 0 then i else j);
    }
  }

  lemma {:induction false} ReadyWhere(s: seq<Entry>, e: Entry) returns (p: nat)
    requires e in Collect(ReadyPart, s)
    ensures p < |s| && s[p] == e && Ready(e)
  {
    if e in ReadyPart(s[0]) {
      p := 0;
    } else {
      p := ReadyWhere(s[1..], e);
      p := p + 1;
    }
  }

  lemma {:induction false} ReadyTwice(s: seq<Entry>, e: Entry) returns (p: nat, q: nat)
    requires Collect(ReadyPart, s)[e] >= 2
    ensures p < q < |s| && s[p] == e && s[q] == e && Ready(e)
  {
    var rest := s[1..];
    assert Collect(ReadyPart, s) == ReadyPart(s[0]) + Collect(ReadyPart, rest);
    hide Collect;
    if e in ReadyPart(s[0]) {
      assert ReadyPart(s[0])[e] == 1;
      q := ReadyWhere(rest, e);
      p, q := 0, q + 1;
    } else {
      p, q := ReadyTwice(rest, e);
      p, q := p + 1, q + 1;
    }
  }

  lemma {:induction false} LoggedHas(log: seq<Service>, a: nat)
    requires a < |log|
    ensures log[a].entry in Logged(log)
  {
    if a < |log| - 1 {
      LoggedHas(log[..|log| - 1], a);
    }
  }

  lemma {:induction false} LoggedTwice(log: seq<Service>, a: nat, b: nat)
    requires a < b < |log| && log[a].entry == log[b].entry
    ensures Logged(log)[log[a].entry] >= 2
  {
    if b < |log| - 1 {
      LoggedTwice(log[..|log| - 1], a, b);
    } else {
      LoggedHas(log[..|log| - 1], a);
    }
  }

  // A log with exactly the ready entries of a polled vector names each ready
  // descriptor, and none of them twice.
  lemma {:induction false} OncePerDescriptor(ls: int, timer: int, es: seq<Entry>, open: set<int>, heap: set<Addr>,
                                             log: seq<Service>, a: nat, b: nat)
    requires Owned(ls, timer, es, open, heap) && Polled(ls, timer, es) && Logged(log) == Collect(ReadyPart, es)
    requires a < b < |log|
    ensures log[a].entry.pfd.fd != log[b].entry.pfd.fd
  {
    hide Collect, Logged;
    if log[a].entry == log[b].entry {
      LoggedTwice(log, a, b);
      var p, q := ReadyTwice(es, log[a].entry);
      AllFdsDistinct(ls, timer, es, open, heap, p, q);
    } else {
      LoggedHas(log, a);
      LoggedHas(log, b);
      var p := ReadyWhere(es, log[a].entry);
      var q := ReadyWhere(es, log[b].entry);
      AllFdsDistinct(ls, timer, es, open, heap, p, q);
    }
  }

  // -------------------------------------------------------------------------
  // Entries without a descriptor: accept_client found nobody, and was not asked twice.

  ghost predicate HasNoFd(es: seq<Entry>) { exists e :: e in es && e.pfd.fd == -1 }

  ghost predicate NobodyCame(log: seq<Service>) {
    exists s :: s in log && s.how.NewClient? && s.how.fd == -1
  }

  lemma {:induction false} NobodyYet(es: seq<Entry>)
    ensures HasNoFd(es) <==> HasNoFd(es) || NobodyCame([])
  {
  }

  lemma {:induction false} NobodySince(a: seq<Service>, b: seq<Service>)
    ensures NobodyCame(a + b) <==> NobodyCame(a) || NobodyCame(b)
  {
  }

  lemma {:induction false} WithFds(es: seq<Entry>)
    ensures !HasNoFd(es) <==> forall e :: e in es ==> e.pfd.fd != -1
  {
  }

  lemma {:induction false} SameFds(w: World, n: nat, ls: int, timer: int, es: seq<Entry>, es': seq<Entry>)
    requires ReportedOn(w, n, ls, timer, es, es')
    ensures HasNoFd(es) <==> HasNoFd(es')
  {
    if HasNoFd(es) {
      var j :| 0 <= j < |es| && es[j].pfd.fd == -1;
      assert es'[j] in es' && es'[j].pfd.fd == -1;
    }
    if HasNoFd(es') {
      var j :| 0 <= j < |es'| && es'[j].pfd.fd == -1;
      assert es[j] in es && es[j].pfd.fd == -1;
    }
  }

  lemma {:induction false} PairWhere(es: seq<Entry>, p: Pair) returns (i: nat)
    requires p in Collect(PairPart, es)
    ensures i < |es| && Pair(es[i].pfd.fd, es[i].pd) == p
  {
    if p in PairPart(es[0]) {
      i := 0;
    } else {
      i := PairWhere(es[1..], p);
      i := i + 1;
    }
  }

  lemma {:induction false} GainedWhere(log: seq<Service>, p: Pair)
    requires p in Gained(log)
    ensures exists s :: s in log && s.how.NewClient? && s.how.fd == p.fd && s.how.pd == p.pd
  {
    var s := log[|log| - 1];
    if p in GainedBy(s.how) {
      assert s in log && s.how.NewClient? && s.how.fd == p.fd && s.how.pd == p.pd;
    } else {
      GainedWhere(log[..|log| - 1], p);
    }
  }

  lemma {:induction false} GainedHas(log: seq<Service>, i: nat)
    requires i < |log| && log[i].how.NewClient?
    ensures Pair(log[i].how.fd, log[i].how.pd) in Gained(log)
  {
    if i < |log| - 1 {
      GainedHas(log[..|log| - 1], i);
    }
  }

  // What is serviced has a descriptor.
  lemma {:induction false} GoneHasFd(b: Begun, log: seq<Service>, p: Pair)
    requires (forall s :: s in log ==> Fitting(b, s)) && p in Gone(log)
    ensures p.fd != -1
  {
    hide FittingClient, FittingAccept;
    var s := log[|log| - 1];
    assert s in log && s.entry.pfd.fd != -1;
    if p !in PairPart(s.entry) {
      assert forall x :: x in log[..|log| - 1] ==> x in log;
      GoneHasFd(b, log[..|log| - 1], p);
    }
  }

  // A sweep leaves an entry without descriptor exactly when it found one or accepted one.
  lemma {:induction false} NoFdAfterSweep(b: Begun, es: seq<Entry>, log: seq<Service>, es': seq<Entry>)
    requires b.pairs == Collect(PairPart, es) && Swept(b, es', log)
    ensures HasNoFd(es') <==> HasNoFd(es) || NobodyCame(log)
  {
    hide Collect, Gone, Gained, Logged, Fitting;
    if HasNoFd(es') {
      var i :| 0 <= i < |es'| && es'[i].pfd.fd == -1;
      var p := Pair(-1, es'[i].pd);
      CollectHas(PairPart, es', i, p);
      NoFdIsKept(b, es, log, es', p);
      if p in Collect(PairPart, es) {
        var j := PairWhere(es, p);
        assert es[j] in es;
      } else {
        GainedWhere(log, p);
      }
    }
    if HasNoFd(es) || NobodyCame(log) {
      var p := NoFdPair(es, log);
      NoFdIsKept(b, es, log, es', p);
      var j := PairWhere(es', p);
      assert es'[j] in es';
    }
  }

  lemma {:induction false} NoFdPair(es: seq<Entry>, log: seq<Service>) returns (p: Pair)
    requires HasNoFd(es) || NobodyCame(log)
    ensures p.fd == -1 && (p in Collect(PairPart, es) || p in Gained(log))
  {
    if HasNoFd(es) {
      var i :| 0 <= i < |es| && es[i].pfd.fd == -1;
      p := Pair(-1, es[i].pd);
      CollectHas(PairPart, es, i, p);
    } else {
      var i :| 0 <= i < |log| && log[i].how.NewClient? && log[i].how.fd == -1;
      p := Pair(-1, log[i].how.pd);
      GainedHas(log, i);
    }
  }

  lemma {:induction false} NoFdIsKept(b: Begun, es: seq<Entry>, log: seq<Service>, es': seq<Entry>, p: Pair)
    requires b.pairs == Collect(PairPart, es) && Swept(b, es', log) && p.fd == -1
    ensures p in Collect(PairPart, es') <==> p in Collect(PairPart, es) || p in Gained(log)
  {
    hide Collect, Gone, Gained, Logged, Fitting;
    if p in Gone(log) { GoneHasFd(b, log, p); }
    assert (Collect(PairPart, es') + Gone(log))[p] == (b.pairs + Gained(log))[p];
  }

  // Nobody is ever waiting.
  const EMPTY_WORLD := World(_ => Message, _ => Nobody, _ => false, (_, _) => {PollIn})

  // A listener that is ready, and what an accept that finds nobody adds.
  const READY_LISTENER := Entry(PollFd(3, {PollIn}, {PollIn}), NULL)
  const NOBODY := Entry(PollFd(-1, {PollIn}, {}), 7)

  lemma {:induction false} NobodyIsOwned()
    ensures Owned(3, -1, [READY_LISTENER], {}, {})
    ensures Owned(3, -1, [Cleared(READY_LISTENER), NOBODY], {}, {7})
  {
    hide Collect;
    OwnedListener(3, READY_LISTENER);
    OwnedAdd(3, -1, [READY_LISTENER], {}, {}, NOBODY);
    assert [READY_LISTENER] + [NOBODY] == [READY_LISTENER, NOBODY];
    assert {} + {7} == {7};
    OwnedMarked(3, -1, [READY_LISTENER, NOBODY], {}, {7}, 0, Cleared(READY_LISTENER));
    assert [READY_LISTENER, NOBODY][0 := Cleared(READY_LISTENER)] == [Cleared(READY_LISTENER), NOBODY];
  }

  lemma {:induction false} NobodyIsSwept(capacity: nat)
    ensures Polled(3, -1, [READY_LISTENER])
    ensures Swept(Beginning(EMPTY_WORLD, 3, -1, [READY_LISTENER], capacity), [Cleared(READY_LISTENER), NOBODY],
                  [Service(READY_LISTENER, NewClient(0, -1, 7))])
  {
    hide Collect, Sweeping, Swept, Logged, Gained, Gone;
    var es, how, es' := [READY_LISTENER], NewClient(0, -1, 7), [Cleared(READY_LISTENER), NOBODY];
    var b := Beginning(EMPTY_WORLD, 3, -1, es, capacity);
    SweepStarts(EMPTY_WORLD, 3, -1, es, capacity);
    CollectOne(PairPart, NOBODY);
    assert es' == (es + [NOBODY])[0 := Cleared(es[0])];
    SweepKeeps(b, -1, es, 0, [], how, [NOBODY], es');
    assert [] + [Service(es[0], how)] == [Service(READY_LISTENER, how)];
    OneReady(READY_LISTENER);
    SweepEnds(b, -1, es', 1, [Service(READY_LISTENER, how)]);
  }

  // It does happen: a sweep in which the listener is ready and nobody is waiting. The
  // vector it leaves is one that the cleanup cannot close.
  lemma {:induction false} NobodyCanCome(capacity: nat)
    returns (es: seq<Entry>, log: seq<Service>, es': seq<Entry>, heap: set<Addr>)
    ensures Owned(3, -1, es, {}, {}) && Polled(3, -1, es) && !HasNoFd(es)
    ensures Swept(Beginning(EMPTY_WORLD, 3, -1, es, capacity), es', log) && NobodyCame(log)
    ensures Owned(3, -1, es', {}, heap) && HasNoFd(es')
  {
    hide Owned, Swept, Polled;
    es, log, heap := [READY_LISTENER], [Service(READY_LISTENER, NewClient(0, -1, 7))], {7};
    es' := [Cleared(READY_LISTENER), NOBODY];
    NobodyIsOwned();
    NobodyIsSwept(capacity);
    assert log[0] in log;
    NoFdAfterSweep(Beginning(EMPTY_WORLD, 3, -1, es, capacity), es, log, es');
  }

  lemma {:induction false} OneReady(e: Entry)
    requires Ready(e)
    ensures |Collect(ReadyPart, [e])| == 1
  {
    CollectOne(ReadyPart, e);
  }
}
