/** The poll server: ppoll reports events into the vector, and service_events sweeps over
    it in place while its handlers add and remove entries. What the system answers to
    each call is given beforehand, by `world`; which descriptors it hands out is left open. */
module PollServer {
  import opened IouTypes
  import opened Wrapping
  import opened PollFdVector
  import opened PollSweep
  import opened PollRun

  datatype Failure =
    | NoRoom           // pollfdv_add called exit
    | AcceptFailed     // assertion in accept_client
    | EchoFailed       // assertion or exit in read_n_echo
    | CloseFailed      // assertion after close
    | NotAllServiced   // assertion at the end of service_events

  datatype Outcome = Done | Failed(why: Failure)

  // A call ends the process for what the system answered during it, and for nothing
  // else but want of room: reads a to b and accepts c to d were its own.
  ghost predicate FailsRightly(w: World, r: Outcome, a: nat, b: nat, c: nat, d: nat) {
    && a <= b && c <= d
    && (r == Done || r == Failed(NoRoom) || r == Failed(EchoFailed) || r == Failed(AcceptFailed))
    && (r == Failed(EchoFailed) <==> Broke(w, a, b))
    && (r == Failed(AcceptFailed) <==> Missed(w, c, d))
    && (r == Failed(NoRoom) ==> c < d)
  }

  lemma {:induction false} NothingFailed(w: World, a: nat, c: nat)
    ensures FailsRightly(w, Done, a, a, c, c)
  {
    FailuresOfOne(w, a);
    FailuresOfOne(w, c);
  }

  lemma {:induction false} FailsOnce(w: World, r: Outcome, a: nat, a': nat, b: nat, c: nat, c': nat, d: nat)
    requires FailsRightly(w, Done, a, a', c, c') && FailsRightly(w, r, a', b, c', d)
    ensures FailsRightly(w, r, a, b, c, d)
  {
    FailuresSplit(w, a, a', b);
    FailuresSplit(w, c, c', d);
    hide Broke, Missed;
  }

  // The calls made since are those the services consist of, and none failed.
  ghost predicate Tallied(w: World, rs0: seq<Call>, rs: seq<Call>, cs0: seq<Call>, cs: seq<Call>,
                          log: seq<Service>) {
    && rs == rs0 + Calls(ReadBy, log) && cs == cs0 + Calls(AcceptBy, log)
    && FailsRightly(w, Done, |rs0|, |rs|, |cs0|, |cs|)
  }

  lemma {:induction false} NothingTallied(w: World, rs: seq<Call>, cs: seq<Call>)
    ensures Tallied(w, rs, rs, cs, cs, [])
  {
    NothingFailed(w, |rs|, |cs|);
    NoCalls();
  }

  lemma {:induction false} TalliedMore(w: World, rs0: seq<Call>, rs: seq<Call>, rs': seq<Call>,
                                       cs0: seq<Call>, cs: seq<Call>, cs': seq<Call>,
                                       log: seq<Service>, more: seq<Service>, r: Outcome)
    requires Tallied(w, rs0, rs, cs0, cs, log)
    requires FailsRightly(w, r, |rs|, |rs'|, |cs|, |cs'|)
    requires r == Done ==> rs' == rs + Calls(ReadBy, more) && cs' == cs + Calls(AcceptBy, more)
    ensures FailsRightly(w, r, |rs0|, |rs'|, |cs0|, |cs'|)
    ensures r == Done ==> Tallied(w, rs0, rs', cs0, cs', log + more)
  {
    hide FailsRightly, Calls;
    FailsOnce(w, r, |rs0|, |rs|, |rs'|, |cs0|, |cs|, |cs'|);
    CallsAppend(ReadBy, log, more);
    CallsAppend(AcceptBy, log, more);
    assert rs0 + Calls(ReadBy, log) + Calls(ReadBy, more) == rs0 + Calls(ReadBy, log + more);
    assert cs0 + Calls(AcceptBy, log) + Calls(AcceptBy, more) == cs0 + Calls(AcceptBy, log + more);
  }

  lemma {:induction false} TalliedSays(w: World, rs0: seq<Call>, rs: seq<Call>, cs0: seq<Call>,
                                       cs: seq<Call>, log: seq<Service>)
    requires Tallied(w, rs0, rs, cs0, cs, log)
    ensures rs == rs0 + Calls(ReadBy, log) && cs == cs0 + Calls(AcceptBy, log)
    ensures FailsRightly(w, Done, |rs0|, |rs|, |cs0|, |cs|)
  {
  }

  // The capacity wraps around only where the vector holds 2^31 entries.
  lemma {:induction false} Wraps(size: uint32, capacity: uint32)
    requires size == capacity && size > 0 && capacity * 2 % TWO32 <= size
    ensures 2 * size >= TWO32
  {
  }

  lemma {:induction false} NextIndex(i: uint32)
    requires i as nat < TWO32 - 1
    ensures Add32(i, 1) == i + 1 && Add32(Sub32(i, 1), 1) == i
  {
  }

  lemma {:induction false} NotByClose(w: World, r: Outcome, a: nat, b: nat, c: nat, d: nat)
    requires FailsRightly(w, r, a, b, c, d)
    ensures r != Failed(CloseFailed)
  {
  }

  lemma {:induction false} UnusedFd(open: set<int>, ls: int)
    ensures exists fd: int :: fd >= 0 && fd !in open && fd != ls
  {
    var used := set f: nat | f in open + {ls};
    assert UpperBound(used) !in used;
  }

  class Server {
    const world: World
    const ls: int
    const v: Vector
    var timer: int
    var open: set<int>   // the process's client sockets and timer
    var heap: set<Addr>  // the allocated pd_echo_connection structures
    var polls: nat       // calls of ppoll
    var readCalls: seq<Call> // calls of read_n_echo
    var acceptCalls: seq<Call>

    ghost predicate Valid()
      reads this, v, v.data, v.pd
    {
      v.Valid() && Owned(ls, timer, v.Entries(), open, heap)
    }

    // The loop of service_events between two iterations.
    ghost predicate InSweep(b: Begun, i: nat, log: seq<Service>)
      reads this, v, v.data, v.pd
    {
      && Valid() && b.ls == ls && b.world == world && Sweeping(b, timer, v.Entries(), i, log)
      && (i == 0 ==> (b.full <==> v.size == v.capacity))
    }

    // main and service_loop up to the loop; the timer is -1 when there is none.
    constructor (world: World, ls: int, timer: int)
      requires ls >= 0 && timer >= -1 && ls != timer
      ensures Valid() && this.world == world && this.ls == ls && this.timer == timer && heap == {}
      ensures fresh(v) && fresh(v.data) && fresh(v.pd)
      ensures open == if timer == -1 then {} else {timer}
      ensures v.Entries() == [Entry(PollFd(ls, {PollIn}, {}), NULL)]
                             + if timer == -1 then [] else [Entry(PollFd(timer, {PollIn}, {}), NULL)]
      ensures polls == 0 && readCalls == [] && acceptCalls == []
    {
      this.world, this.ls, this.timer := world, ls, timer;
      open, heap := if timer == -1 then {} else {timer}, {};
      polls, readCalls, acceptCalls := 0, [], [];
      v := new Vector();
      new;
      hide Owned;
      var listener := PollFd(ls, {PollIn}, {});
      var ok := v.Add(listener, NULL);
      assert v.Entries() == [Entry(listener, NULL)];
      OwnedListener(ls, Entry(listener, NULL));
      if timer != -1 {
        var timed := PollFd(timer, {PollIn}, {});
        ok := v.Add(timed, NULL);
        assert v.Entries() == [Entry(listener, NULL), Entry(timed, NULL)];
        OwnedTimer(ls, timer, Entry(listener, NULL), Entry(timed, NULL));
      }
    }

    // close(fd), then assert_zero
    method Close(fd: int) returns (r: Outcome)
      modifies `open
      ensures r == if fd in old(open) then Done else Failed(CloseFailed)
      ensures open == old(open) - {fd}
    {
      r := if fd in open then Done else Failed(CloseFailed);
      open := open - {fd};
    }

    // read_n_echo, on an open socket and memory that is allocated
    method ReadNEcho(fd: int, buf: Addr) returns (echo: Echo)
      requires fd in open && buf in heap
      modifies `readCalls
      ensures echo == world.echo(|old(readCalls)|) && readCalls == old(readCalls) + [Call(|old(readCalls)|, fd, buf)]
    {
      echo := world.echo(|readCalls|);
      readCalls := readCalls + [Call(|readCalls|, fd, buf)];
    }

    // accept_client: a descriptor that was not in use, -1 when nobody is waiting, None
    // for the failed assertion.
    method AcceptClient(socket: int) returns (fd: Option<int>)
      modifies `open, `acceptCalls
      ensures acceptCalls == old(acceptCalls) + [Call(|old(acceptCalls)|, socket, NULL)]
      ensures match world.arrival(|old(acceptCalls)|)
              case Arrived => fd.Some? && fd.value >= 0 && fd.value !in old(open) && fd.value != ls
              case Nobody => fd == Some(-1)
              case AcceptError => fd == None
      ensures open == old(open) + if fd.None? || fd.value == -1 then {} else {fd.value}
    {
      var arrival := world.arrival(|acceptCalls|);
      acceptCalls := acceptCalls + [Call(|acceptCalls|, socket, NULL)];
      match arrival {
        case Arrived =>
          var client: int :| client >= 0 && client !in open && client != ls by {
            UnusedFd(open, ls);
          }
          open := open + {client};
          return Some(client);
        case Nobody => return Some(-1);
        case AcceptError => return None;
      }
    }

    // poll_handle_new_client
    method PollHandleNewClient(socket: int) returns (r: Outcome, ghost added: Entry)
      requires Valid() && -1 !in open && ls != -1
      modifies `open, `heap, `acceptCalls, v, v.data, v.pd
      ensures acceptCalls == old(acceptCalls) + [Call(|old(acceptCalls)|, socket, NULL)]
      ensures r == Done || r == Failed(NoRoom) || r == Failed(AcceptFailed)
      ensures r == Failed(AcceptFailed) <==> world.arrival(|old(acceptCalls)|).AcceptError?
      ensures r == Failed(NoRoom) <==>
        !world.arrival(|old(acceptCalls)|).AcceptError? && old(v.size == v.capacity && v.capacity * 2 % TWO32 <= v.size)
      ensures r == Done ==>
        && Valid() && v.Entries() == old(v.Entries()) + [added]
        && added.pfd == PollFd(added.pfd.fd, {PollIn}, {})
        && FittingAccept(world, NewClient(|old(acceptCalls)|, added.pfd.fd, added.pd))
        && added.pd !in old(heap) && heap == old(heap) + {added.pd}
      ensures r == Done ==>
        && (v.data == old(v.data) || fresh(v.data)) && (v.pd == old(v.pd) || fresh(v.pd))
        && (v.data == old(v.data) <==> old(v.size < v.capacity))
    {
      hide Owned;
      ghost var es := v.Entries();
      added := Entry(NO_FD, NULL);
      var clientFd := AcceptClient(socket);
      if clientFd.None? {
        return Failed(AcceptFailed), added;
      }
      // allocate the client connection structure
      var con := Malloc();
      var conf := PollFd(clientFd.value, {PollIn}, {});
      added := Entry(conf, con);
      OwnedAdd(ls, timer, es, old(open), old(heap), added);
      var ok := v.Add(conf, con);
      if !ok {
        return Failed(NoRoom), added;
      }
      return Done, added;
    }

    // free, of memory that is allocated, or of no memory
    method Free(a: Addr)
      requires a == NULL || a in heap
      modifies `heap
      ensures heap == old(heap) - {a}
    {
      heap := heap - {a};
    }

    method Malloc() returns (a: Addr)
      modifies `heap
      ensures a != NULL && a !in old(heap) && heap == old(heap) + {a}
    {
      a :| a != NULL && a !in heap by { assert UpperBound(heap + {NULL}) !in heap + {NULL}; }
      heap := heap + {a};
    }

    // close_client: the socket is closed, its data freed, its slot given to the last entry.
    method CloseClient(index: uint32) returns (r: Outcome)
      requires Valid() && 0 < index < v.size && v.data[index].fd != -1 && v.data[index].fd != timer
      modifies `open, `heap, v`size, v.data, v.pd
      ensures r == Done && Valid() && v.Entries() == SwapRemove(old(v.Entries()), index)
      ensures old(v.pd[index] in heap) && heap == old(heap) - {old(v.pd[index])}
    {
      ghost var es := v.Entries();
      assert es[index] == v.At(index);
      OwnedFacts(ls, timer, es, open, heap, index);
      OwnedRemove(ls, timer, es, open, heap, index);
      r := Close(v.data[index].fd);
      Free(v.pd[index]);
      v.RemoveIndex(index);
    }

    // handle_client_event: without hang-up or error, input is read and echoed by one call
    // on the entry's own socket and buffer, and what it answers decides.
    method HandleClientEvent(index: uint32) returns (r: Outcome, removed: bool, ghost how: How)
      requires Valid() && 0 < index < v.size && v.data[index].fd != -1 && v.data[index].fd != timer
      modifies `open, `heap, `readCalls, v`size, v.data, v.pd
      ensures var p, n := old(v.data[index]), |old(readCalls)|;
        if PollHup in p.revents || PollErr in p.revents then
          r == Done && how == HungUp && readCalls == old(readCalls)
        else if PollIn in p.revents then
          && readCalls == old(readCalls) + [Call(n, p.fd, old(v.pd[index]))]
          && (r == Failed(EchoFailed) <==> world.echo(n).Broken?)
          && (world.echo(n).Eof? <==> r == Done && how == EndOfStream(n))
          && (world.echo(n).Message? <==> r == Done && how == Echoed(n))
        else
          r == Done && how == Ignored && readCalls == old(readCalls)
      ensures r == Done || r == Failed(EchoFailed)
      ensures r == Done ==> (removed <==> how.HungUp? || how.EndOfStream?)
      ensures r == Done ==>
        Valid() && v.Entries() == if removed then SwapRemove(old(v.Entries()), index) else old(v.Entries())
    {
      ClientFacts(index);
      hide Owned;
      removed, how, r := false, Ignored, Done;
      if PollHup in v.data[index].revents || PollErr in v.data[index].revents {
        // connection closed
        removed, how := true, HungUp;
        r := CloseClient(index);
      } else if PollIn in v.data[index].revents {
        // client sent data
        var con := v.pd[index];
        var echo := ReadNEcho(v.data[index].fd, con);
        if echo == Broken {
          return Failed(EchoFailed), false, how;
        }
        how := Echoed(|old(readCalls)|);
        if echo == Eof {
          // the connection closed
          removed, how := true, EndOfStream(|old(readCalls)|);
          r := CloseClient(index);
        }
      }
    }

    lemma ClientFacts(index: uint32)
      requires Valid() && 0 < index < v.size && v.data[index].fd != -1 && v.data[index].fd != timer
      ensures v.data[index].fd in open && v.pd[index] in heap
    {
      assert v.Entries()[index] == v.At(index);
      OwnedFacts(ls, timer, v.Entries(), open, heap, index);
    }

    // The timer branch of service_events.
    method TimerEvent(index: uint32) returns (r: Outcome)
      requires Valid() && 0 < index < v.size && timer != -1 && v.data[index].fd == timer
      modifies `open, `timer, v`size, v.data, v.pd
      ensures r == Done && Valid() && timer == -1 && v.Entries() == SwapRemove(old(v.Entries()), index)
    {
      hide Owned;
      ghost var es := v.Entries();
      assert es[index] == v.At(index);
      OwnedTimerGone(ls, timer, es, open, heap, index);
      // timer_expired
      r := Close(timer);
      // remove the current indexed element
      v.RemoveIndex(index);
      timer := -1;
    }

    // ev->revents = 0, where `ev` points into the array as it was before the handler
    // ran. If the handler made the array grow, the write may miss the new array; else
    // it clears the slot.
    method ClearRevents(ev: array<PollFd>, index: uint32)
      requires Valid() && index < v.size && index < ev.Length
      modifies ev, v.data
      ensures Valid()
      ensures v.Entries() == old(v.Entries())[index := Cleared(old(v.Entries())[index])]
              || (ev != v.data && v.Entries() == old(v.Entries()))
    {
      hide Owned;
      ghost var es := v.Entries();
      var movedAway: bool := *;
      ghost var cleared := Cleared(es[index]);
      OwnedMarked(ls, timer, es, open, heap, index, cleared);
      if ev == v.data || !movedAway {
        v.data[index] := v.data[index].(revents := {});
        assert v.Entries() == es[index := cleared];
      } else {
        ev[index] := ev[index].(revents := {});
        assert v.Entries() == es;
      }
    }

    // The end of an iteration that leaves slot i where it is.
    method FinishSlot(ev: array<PollFd>, i: uint32, ghost es: seq<Entry>, ghost more: seq<Entry>, ghost how: How,
                      ghost b: Begun, ghost log: seq<Service>)
      requires Valid() && b.ls == ls && Sweeping(b, timer, es, i, log) && i < |es| && i < b.size && Ready(es[i])
      requires i < ev.Length && v.Entries() == es + more && (ev == v.data || (i == 0 && b.full))
      requires b.world == world && Fitting(b, Service(es[i], how)) && !Closes(how)
      requires Collect(PairPart, more) == GainedBy(how) && forall e :: e in more ==> !Ready(e)
      modifies ev, v.data
      ensures InSweep(b, i + 1, log + [Service(es[i], how)])
    {
      hide Owned, Sweeping, Fitting, Collect, GainedBy, Closes;
      assert (es + more)[i] == es[i];
      ClearRevents(ev, i);
      SweepKeeps(b, timer, es, i, log, how, more, v.Entries());
    }

    // A ready listener.
    method ListenerEvent(i: uint32, ghost b: Begun, ghost log: seq<Service>) returns (r: Outcome, ghost how: How)
      requires InSweep(b, i, log) && i < v.size && i < b.size && v.data[i].revents != {} && v.data[i].fd == ls
      requires v.data[i].revents <= {PollIn, PollErr, PollHup}
      requires -1 !in open && ls != -1 && i == 0
      modifies `open, `heap, `acceptCalls, v, v.data, v.pd
      ensures acceptCalls == old(acceptCalls) + [Call(|old(acceptCalls)|, ls, NULL)]
      ensures r == Done ==>
        && InSweep(b, i + 1, log + [Service(old(v.At(i)), how)]) && !Closes(how)
        && AcceptBy(Service(old(v.At(i)), how)) == [Call(|old(acceptCalls)|, ls, NULL)]
      ensures r == Done ==> (v.data == old(v.data) || fresh(v.data)) && (v.pd == old(v.pd) || fresh(v.pd))
      ensures r == Done || r == Failed(NoRoom) || r == Failed(AcceptFailed)
      ensures r == Failed(AcceptFailed) <==> world.arrival(|old(acceptCalls)|).AcceptError?
      ensures r == Failed(NoRoom) ==> old(v.size == v.capacity && v.capacity * 2 % TWO32 <= v.size)
    {
      hide Owned, Sweeping, Collect;
      ghost var es := v.Entries();
      assert es[i] == v.At(i);
      var ev := v.data;
      ghost var added;
      r, added := PollHandleNewClient(v.data[i].fd);
      how := NewClient(|old(acceptCalls)|, added.pfd.fd, added.pd);
      if r == Done {
        CollectOne(PairPart, added);
        FinishSlot(ev, i, es, [added], how, b, log);
      }
    }

    // A ready client.
    method ClientEvent(i: uint32, ghost b: Begun, ghost log: seq<Service>)
      returns (r: Outcome, back: bool, ghost how: How)
      requires InSweep(b, i, log) && 0 < i < v.size && i < b.size && v.data[i].revents != {}
      requires v.data[i].revents <= {PollIn, PollErr, PollHup}
      requires v.data[i].fd !in {-1, ls, timer, b.timer}
      modifies `open, `heap, `readCalls, v`size, v.data, v.pd
      ensures r == Done ==>
        && InSweep(b, if back then i else i + 1, log + [Service(old(v.At(i)), how)])
        && readCalls == old(readCalls) + ReadBy(Service(old(v.At(i)), how))
        && AcceptBy(Service(old(v.At(i)), how)) == []
      ensures r == Done || r == Failed(EchoFailed)
      ensures old(readCalls) <= readCalls && |readCalls| <= |old(readCalls)| + 1
      ensures r == Failed(EchoFailed) <==> |readCalls| == |old(readCalls)| + 1 && world.echo(|old(readCalls)|).Broken?
    {
      hide Owned, Sweeping, Collect;
      ghost var es := v.Entries();
      assert es[i] == v.At(i);
      var ev := v.data;
      r, back, how := HandleClientEvent(i);
      if r == Done && back {
        SweepRemoves(b, timer, es, i, log, how, timer);
      } else if r == Done {
        NoPairs();
        assert v.Entries() == es + [];
        FinishSlot(ev, i, es, [], how, b, log);
      }
    }

    // One iteration of service_events on a ready slot. `back` says that the slot was
    // given to another entry, which comes next.
    method ServiceOne(i: uint32, ghost b: Begun, ghost log: seq<Service>)
      returns (r: Outcome, back: bool, ghost how: How)
      requires InSweep(b, i, log) && i < v.size && i < b.size && v.data[i].revents != {}
      modifies `timer, `open, `heap, `readCalls, `acceptCalls, v, v.data, v.pd
      ensures r == Done ==>
        && InSweep(b, if back then i else i + 1, log + [Service(old(v.At(i)), how)])
        && readCalls == old(readCalls) + ReadBy(Service(old(v.At(i)), how))
        && acceptCalls == old(acceptCalls) + AcceptBy(Service(old(v.At(i)), how))
        && (back ==> i > 0)
      ensures r == Done ==> (v.data == old(v.data) || fresh(v.data)) && (v.pd == old(v.pd) || fresh(v.pd))
      ensures FailsRightly(world, r, |old(readCalls)|, |readCalls|, |old(acceptCalls)|, |acceptCalls|)
      ensures r == Failed(NoRoom) ==> i == 0 && old(v.size == v.capacity && v.capacity * 2 % TWO32 <= v.size)
    {
      hide Owned, Sweeping, FittingClient, FittingAccept, Collect;
      ghost var es, timerWas := v.Entries(), timer;
      assert es[i] == v.At(i);
      SlotFacts(b, timer, es, i, log, open, heap);
      FailuresOfOne(world, |readCalls|);
      FailuresOfOne(world, |acceptCalls|);
      var ev := v.data;
      back := false;
      if ev[i].fd == ls && PollIn in ev[i].revents {
        // new client connection requested
        r, how := ListenerEvent(i, b, log);
      } else if ev[i].fd == timer && PollIn in ev[i].revents {
        // timer event
        r := TimerEvent(i);
        back, how := true, TimerClosed;
        SweepRemoves(b, timerWas, es, i, log, how, timer);
      } else {
        // client event
        r, back, how := ClientEvent(i, b, log);
      }
    }

    // service_events: every ready entry is serviced exactly once, by what its event
    // calls for, with no other effect; the assertion at the end never fires.
    method ServiceEvents(noEvents: nat) returns (r: Outcome, ghost log: seq<Service>)
      requires Valid() && Polled(ls, timer, v.Entries()) && |Collect(ReadyPart, v.Entries())| == noEvents
      modifies `timer, `open, `heap, `readCalls, `acceptCalls, v, v.data, v.pd
      ensures r == Done ==> Valid() && timer == if TimerGone(log) then -1 else old(timer)
      ensures r == Done ==> Swept(old(Beginning(world, ls, timer, v.Entries(), v.capacity)), v.Entries(), log)
      ensures r == Done ==>
        && readCalls == old(readCalls) + Calls(ReadBy, log) && acceptCalls == old(acceptCalls) + Calls(AcceptBy, log)
      ensures r == Done ==> (v.data == old(v.data) || fresh(v.data)) && (v.pd == old(v.pd) || fresh(v.pd))
      ensures FailsRightly(world, r, |old(readCalls)|, |readCalls|, |old(acceptCalls)|, |acceptCalls|)
      ensures r == Failed(NoRoom) ==> old(v.size == v.capacity && v.capacity * 2 % TWO32 <= v.size)
    {
      hide Owned, Sweeping, Collect, Logged, Fitting, Polled, Calls, ReadBy, AcceptBy, TimerGone, FailsRightly, Tallied,
        Add32, Sub32;
      ghost var b := Beginning(world, ls, timer, v.Entries(), v.capacity);
      var i: uint32 := 0;
      var size := v.size;
      var noServiced := 0;
      log := [];
      SweepStarts(world, ls, timer, v.Entries(), v.capacity);
      NothingTallied(world, readCalls, acceptCalls);
      while i < size && noServiced < noEvents
        invariant InSweep(b, i, log) && noServiced == |log|
        invariant (v.data == old(v.data) || fresh(v.data)) && (v.pd == old(v.pd) || fresh(v.pd))
        invariant Tallied(world, old(readCalls), readCalls, old(acceptCalls), acceptCalls, log)
        invariant i == 0 ==> v.size == old(v.size) && v.capacity == old(v.capacity)
        decreases noEvents - noServiced, size - i
      {
        MoreAhead(b, timer, v.Entries(), i, log);
        NextIndex(i);
        ghost var entry := v.At(i);
        assert v.Entries()[i] == entry;
        if v.data[i].revents == {} {
          SweepSkips(b, timer, v.Entries(), i, log);
          i := Add32(i, 1);
          continue;
        }
        noServiced := noServiced + 1;
        var back: bool;
        ghost var how;
        ghost var reads1, accepts1 := readCalls, acceptCalls;
        r, back, how := ServiceOne(i, b, log);
        CallsOfOne(Service(entry, how));
        TalliedMore(world, old(readCalls), reads1, readCalls, old(acceptCalls), accepts1, acceptCalls,
                    log, [Service(entry, how)], r);
        if r != Done {
          return;
        }
        log := log + [Service(entry, how)];
        if back {
          i := Sub32(i, 1); // recheck the current element after removal
        }
        i := Add32(i, 1);
      }
      TalliedSays(world, old(readCalls), readCalls, old(acceptCalls), acceptCalls, log);
      MoreAhead(b, timer, v.Entries(), i, log);
      SweepEnds(b, timer, v.Entries(), i, log);
      r := if noEvents - noServiced == 0 then Done else Failed(NotAllServiced);
    }

    // The kernel's report on one slot, in the call of ppoll that is going on.
    method Report(i: uint32) returns (any: bool)
      requires Valid() && i < v.size && polls > 0
      modifies v.data
      ensures Valid() && old(v.Entries())[i].pfd.events == {PollIn}
      ensures v.Entries() == old(v.Entries())[i := Marked(world, polls - 1, ls, timer, old(v.Entries())[i])]
      ensures any <==> Ready(v.Entries()[i])
    {
      hide Owned, FlagsFor;
      ghost var es := v.Entries();
      assert es[i] == v.At(i);
      OwnedEvents(ls, timer, es, open, heap, i);
      OwnedMarked(ls, timer, es, open, heap, i, Marked(world, polls - 1, ls, timer, es[i]));
      var reported := FlagsFor(world, polls - 1, ls, timer, v.data[i]);
      v.data[i] := v.data[i].(revents := reported);
      assert v.Entries() == es[i := Marked(world, polls - 1, ls, timer, es[i])];
      return reported != {};
    }

    // ppoll: None when a signal came, else the number of entries with events.
    method Ppoll() returns (noEvents: Option<nat>)
      requires Valid()
      modifies `polls, v.data
      ensures Valid() && polls == old(polls) + 1
      ensures noEvents.None? <==> world.interrupted(old(polls))
      ensures noEvents.None? ==> v.Entries() == old(v.Entries())
      ensures noEvents.Some? ==> ReportedOn(world, old(polls), ls, timer, old(v.Entries()), v.Entries())
      ensures noEvents.Some? ==> Polled(ls, timer, v.Entries()) && |Collect(ReadyPart, v.Entries())| == noEvents.value
    {
      hide Owned, Collect, Polled, ReportedOn, Marked, Ready;
      ghost var es0 := v.Entries();
      polls := polls + 1;
      if world.interrupted(polls - 1) {
        return None;
      }
      var i, count := 0, 0;
      PolledNone(world, polls - 1, ls, timer);
      while i < v.size
        modifies v.data
        invariant i <= v.size && Valid() && |Collect(ReadyPart, v.Entries()[..i])| == count
        invariant |v.Entries()| == |es0| && v.Entries()[i..] == es0[i..] && Polled(ls, timer, v.Entries()[..i])
        invariant ReportedOn(world, polls - 1, ls, timer, es0[..i], v.Entries()[..i])
      {
        ghost var es := v.Entries();
        var any := Report(i);
        PolledOneMore(world, polls - 1, ls, timer, es0, es, v.Entries(), i);
        count := if any then count + 1 else count;
        i := i + 1;
      }
      assert v.Entries()[..i] == v.Entries() && es0[..i] == es0;
      return Some(count);
    }

    // do_client_connections_cleanup: closes every descriptor and frees every private
    // data, once. It fails exactly when the vector holds an entry without descriptor.
    method DoClientConnectionsCleanup() returns (r: Outcome)
      requires Valid()
      modifies `open, `heap
      ensures r == Done <==> forall e :: e in v.Entries() ==> e.pfd.fd != -1
      ensures r == Done ==> open == {} && heap == {}
      ensures r == Done || r == Failed(CloseFailed)
    {
      hide Collect;
      ghost var es := v.Entries();
      CleanupStarts(ls, timer, es, open, heap);
      var i := 0;
      r := Done;
      while i < v.size
        invariant r == Done && i <= v.size && LeftToClose(ls, es, i, open, heap)
        invariant forall j :: 0 <= j < i ==> es[j].pfd.fd != -1
      {
        assert es[i] == v.At(i);
        CleanupStep(ls, es, i, open, heap);
        if v.data[i].fd == ls {
          i := i + 1;
          continue;
        }
        // close_timer or close, then assert_zero
        r := Close(v.data[i].fd);
        if r != Done {
          assert es[i] in v.Entries();
          return;
        }
        Free(v.pd[i]);
        i := i + 1;
      }
      CleanupEnds(ls, es, open, heap);
      assert v.Entries() == es;
    }

    // service_loop; the signal handler clears server_running after `budget` iterations.
    // Each iteration polls and services what is reported. If the loop ends, the cleanup
    // after it fails exactly when some accept found nobody.
    method ServiceLoop(budget: nat) returns (r: Outcome, ghost rounds: seq<Round>)
      requires Valid()
      modifies `timer, `open, `heap, `polls, `readCalls, `acceptCalls, v, v.data, v.pd
      ensures Run(world, ls, old(polls), old(timer), old(v.Entries()), rounds)
      ensures r == Done ==> open == {} && heap == {}
      ensures r == Done || r == Failed(CloseFailed) ==>
        && |rounds| == budget && polls == old(polls) + budget
        && v.Valid() && v.Entries() == Left(old(v.Entries()), rounds) && timer == LeftTimer(old(timer), rounds)
        && readCalls == old(readCalls) + Calls(ReadBy, Services(rounds))
        && acceptCalls == old(acceptCalls) + Calls(AcceptBy, Services(rounds))
        && (r == Failed(CloseFailed) <==> old(HasNoFd(v.Entries())) || NobodyCame(Services(rounds)))
      ensures r != Failed(CloseFailed) ==>
        FailsRightly(world, r, |old(readCalls)|, |readCalls|, |old(acceptCalls)|, |acceptCalls|)
      ensures r == Failed(NoRoom) ==> 2 * |Left(old(v.Entries()), rounds)| >= TWO32
    {
      hide Owned, Collect, Swept, HasNoFd, NobodyCame, Polled, Calls, Services, TimerAfter, FailsRightly, RoundFrom,
        Tallied;
      ghost var es0 := v.Entries();
      rounds := [];
      NobodyYet(es0);
      NoServices();
      NothingTallied(world, readCalls, acceptCalls);
      var n := 0;
      while n < budget
        invariant n == |rounds| <= budget && Valid() && polls == old(polls) + n
        invariant (v.data == old(v.data) || fresh(v.data)) && (v.pd == old(v.pd) || fresh(v.pd))
        invariant Run(world, ls, old(polls), old(timer), es0, rounds)
        invariant v.Entries() == Left(es0, rounds) && timer == LeftTimer(old(timer), rounds)
        invariant Tallied(world, old(readCalls), readCalls, old(acceptCalls), acceptCalls, Services(rounds))
        invariant HasNoFd(v.Entries()) <==> HasNoFd(es0) || NobodyCame(Services(rounds))
      {
        n := n + 1;
        ghost var rd, reads1, accepts1;
        reads1, accepts1 := readCalls, acceptCalls;
        r, rd := ServeOne();
        TalliedMore(world, old(readCalls), reads1, readCalls, old(acceptCalls), accepts1, acceptCalls,
                    Services(rounds), rd.log, r);
        if r != Done {
          return;
        }
        RunOneMore(world, ls, old(polls), old(timer), es0, rounds, rd);
        NobodySince(Services(rounds), rd.log);
        rounds := rounds + [rd];
      }
      TalliedSays(world, old(readCalls), readCalls, old(acceptCalls), acceptCalls, Services(rounds));
      ghost var es := v.Entries();
      r := DoClientConnectionsCleanup();
      WithFds(es);
    }

    // One iteration of service_loop.
    method ServeOne() returns (r: Outcome, ghost rd: Round)
      requires Valid()
      modifies `timer, `open, `heap, `polls, `readCalls, `acceptCalls, v, v.data, v.pd
      ensures polls == old(polls) + 1 && r != Failed(CloseFailed)
      ensures r == Failed(NoRoom) ==> 2 * old(|v.Entries()|) >= TWO32
      ensures FailsRightly(world, r, |old(readCalls)|, |readCalls|, |old(acceptCalls)|, |acceptCalls|)
      ensures r == Done ==>
        && Valid() && RoundFrom(world, ls, old(polls), old(v.Entries()), rd)
        && rd.timer == old(timer) && timer == TimerAfter(rd) && v.Entries() == rd.after
        && readCalls == old(readCalls) + Calls(ReadBy, rd.log)
        && acceptCalls == old(acceptCalls) + Calls(AcceptBy, rd.log)
        && (HasNoFd(v.Entries()) <==> old(HasNoFd(v.Entries())) || NobodyCame(rd.log))
        && (v.data == old(v.data) || fresh(v.data)) && (v.pd == old(v.pd) || fresh(v.pd))
    {
      hide Owned, Collect, Swept, HasNoFd, NobodyCame, Polled, Calls, FailsRightly, ReportedOn;
      ghost var es0 := v.Entries();
      rd := Round(true, timer, v.capacity, es0, [], es0);
      NoCalls();
      NobodyYet(es0);
      NothingFailed(world, |readCalls|, |acceptCalls|);
      var noEvents := Ppoll();
      OwnedSome(ls, timer, v.Entries(), open, heap);
      if noEvents.None? {
        // we just had a signal coming
        return Done, rd;
      }
      SameFds(world, old(polls), ls, timer, es0, v.Entries());
      ghost var es, timer0, capacity := v.Entries(), timer, v.capacity;
      ghost var log;
      r, log := ServiceEvents(noEvents.value);
      if r == Failed(NoRoom) {
        Wraps(|es|, capacity);
      }
      if r == Done {
        NoFdAfterSweep(Beginning(world, ls, timer0, es, capacity), es, log, v.Entries());
        rd := Round(false, timer0, capacity, es, log, v.Entries());
      }
      NotByClose(world, r, |old(readCalls)|, |readCalls|, |old(acceptCalls)|, |acceptCalls|);
    }
  }
}
