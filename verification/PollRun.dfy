/** Whole runs of the poll server: one record for each call of ppoll, and what the sweep
    after it did. */
module PollRun {
  import opened IouTypes
  import opened PollFdVector
  import opened PollSweep

  // One iteration of service_loop. `polled` is the vector as ppoll left it, `after` as
  // the sweep left it.
  datatype Round = Round(
    interrupted: bool, timer: int, capacity: nat, polled: seq<Entry>, log: seq<Service>, after: seq<Entry>)

  // The n-th call of ppoll, on the vector `before`, and what came of it.
  ghost predicate RoundFrom(w: World, ls: int, n: nat, before: seq<Entry>, rd: Round) {
    && rd.interrupted == w.interrupted(n)
    && if rd.interrupted then rd.polled == before && rd.log == [] && rd.after == before
       else
         && ReportedOn(w, n, ls, rd.timer, before, rd.polled) && Polled(ls, rd.timer, rd.polled)
         && Swept(Beginning(w, ls, rd.timer, rd.polled, rd.capacity), rd.after, rd.log)
  }

  function TimerAfter(rd: Round): int { if TimerGone(rd.log) then -1 else rd.timer }

  // The vector and the timer when all rounds are over.
  function Left(start: seq<Entry>, rounds: seq<Round>): seq<Entry> {
    if rounds == [] then start else rounds[|rounds| - 1].after
  }

  function LeftTimer(timer: int, rounds: seq<Round>): int {
    if rounds == [] then timer else TimerAfter(rounds[|rounds| - 1])
  }

  // Each round starts where the one before ended.
  ghost predicate Run(w: World, ls: int, n: nat, timer: int, start: seq<Entry>, rounds: seq<Round>) {
    rounds == [] ||
      var m := |rounds| - 1;
      && Run(w, ls, n, timer, start, rounds[..m])
      && RoundFrom(w, ls, n + m, Left(start, rounds[..m]), rounds[m])
      && rounds[m].timer == LeftTimer(timer, rounds[..m])
  }

  ghost function Services(rounds: seq<Round>): seq<Service> {
    if rounds == [] then [] else Services(rounds[..|rounds| - 1]) + rounds[|rounds| - 1].log
  }

  lemma {:induction false} RunOneMore(w: World, ls: int, n: nat, timer: int, start: seq<Entry>, rounds: seq<Round>,
                                      rd: Round)
    requires Run(w, ls, n, timer, start, rounds) && RoundFrom(w, ls, n + |rounds|, Left(start, rounds), rd)
    requires rd.timer == LeftTimer(timer, rounds)
    ensures Run(w, ls, n, timer, start, rounds + [rd])
    ensures Services(rounds + [rd]) == Services(rounds) + rd.log
    ensures Left(start, rounds + [rd]) == rd.after && LeftTimer(timer, rounds + [rd]) == TimerAfter(rd)
  {
    hide RoundFrom, Services, TimerAfter;
    assert (rounds + [rd])[..|rounds|] == rounds && (rounds + [rd])[|rounds|] == rd;
    ServicesOneMore(rounds, rd);
  }

  lemma {:induction false} ServicesOneMore(rounds: seq<Round>, rd: Round)
    ensures Services(rounds + [rd]) == Services(rounds) + rd.log
  {
    assert (rounds + [rd])[..|rounds|] == rounds;
  }

  // Some call of read_n_echo, of accept_client, ended the process.
  ghost predicate Broke(w: World, a: nat, b: nat) { exists n: nat :: a <= n < b && w.echo(n).Broken? }

  ghost predicate Missed(w: World, a: nat, b: nat) { exists n: nat :: a <= n < b && w.arrival(n).AcceptError? }

  lemma {:induction false} FailuresSplit(w: World, a: nat, b: nat, c: nat)
    requires a <= b <= c
    ensures Broke(w, a, c) <==> Broke(w, a, b) || Broke(w, b, c)
    ensures Missed(w, a, c) <==> Missed(w, a, b) || Missed(w, b, c)
  {
  }

  lemma {:induction false} FailuresOfOne(w: World, a: nat)
    ensures Broke(w, a, a + 1) <==> w.echo(a).Broken?
    ensures Missed(w, a, a + 1) <==> w.arrival(a).AcceptError?
    ensures !Broke(w, a, a) && !Missed(w, a, a)
  {
    if w.echo(a).Broken? { assert Broke(w, a, a + 1); }
    if w.arrival(a).AcceptError? { assert Missed(w, a, a + 1); }
  }

  lemma {:induction false} NoServices()
    ensures Services([]) == []
  {
  }
}
