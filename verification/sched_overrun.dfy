/** A run of the threads that stores past the end of terminated_threads: tasks that each fork
    the next one and return.  SchedThreads says exactly when that can happen. */
module SchedOverrun {
  import opened CircularQueues
  import opened SchedModel
  import opened SchedInvariant
  import opened SchedLimits
  import opened SchedThreads

  lemma MovesOn(x: Sys, moves: seq<(Id, Act)>, y: Sys, t: Id, a: Act)
    requires Interleaved(x, moves) == y && Enabled(y, t, a)
    ensures Interleaved(x, moves + [(t, a)]) == Do(y, t, a)
  {
    hide Enabled, Do;
    assert (moves + [(t, a)])[..|moves|] == moves;
  }

  lemma {:induction false} MovesAppend(x: Sys, a: seq<(Id, Act)>, b: seq<(Id, Act)>)
    ensures Interleaved(x, a + b) == Interleaved(Interleaved(x, a), b)
    decreases |b|
  {
    hide Enabled, Do;
    if b == [] {
      assert a + b == a;
    } else {
      assert (a + b)[..|a + b| - 1] == a + b[..|b| - 1];
      MovesAppend(x, a, b[..|b| - 1]);
    }
  }

  /** The moves lead from x to y. */
  predicate Leads(x: Sys, moves: seq<(Id, Act)>, y: Sys) { Interleaved(x, moves) == y }

  /** One move of a thread after others. */
  lemma Then(x: Sys, moves: seq<(Id, Act)>, y: Sys, t: Id, a: Act, z: Sys) returns (more: seq<(Id, Act)>)
    requires Leads(x, moves, y) && Enabled(y, t, a) && Do(y, t, a) == z
    ensures Leads(x, more, z)
  {
    hide Enabled, Do;
    more := moves + [(t, a)];
    MovesOn(x, moves, y, t, a);
  }

  // A task that forks the next one.

  /** Task n runs alone: no task is ready, and all before it have recorded themselves. */
  predicate Alone(x: Sys, n: nat) {
    && 1 <= n && |x.pc| == n + 1 && |x.s.tasks| == n + 1 && |x.recorded| == n - 1
    && x.pc[n].Handler? && AloneIn(x.s, n)
  }

  predicate AloneIn(s: Sched, n: nat) {
    && Formed(s) && 1 <= n < |s.tasks| && s.running == n && s.timeQuantum >= 2 && s.ready == Empty(MAX_PRIO + 1)
    && s.tasks[n] == Task(0, s.timeQuantum, false, false)
  }

  lemma AloneForks(s: Sched, n: nat)
    requires AloneIn(s, n)
    ensures Sorted(s) && MayCall(s, Fork(0)) && Sorted(Forked(s, 0))
    ensures Forked(s, 0).ready == Empty(MAX_PRIO + 1)[0 := [|s.tasks|]]
    ensures var v := Forked(s, 0);
            v.running == n && |v.tasks| == |s.tasks| + 1 && v.Current() == Task(0, s.timeQuantum - 1, false, false)
  {
    hide Check, Scan, Prepared;
    assert s.ready[0] == [] && [] + [|s.tasks|] == [|s.tasks|];
    ForkedIsSo(s, 0);
    ForkedSorted(s, 0);
  }

  lemma AloneIsSorted(s: Sched, n: nat)
    requires AloneIn(s, n)
    ensures Sorted(s) && MayCall(s, Fork(0)) && Forked(s, 0).ready == Empty(MAX_PRIO + 1)[0 := [|s.tasks|]]
    ensures var v := Forked(s, 0); Check(v) == v && v.running == n && |v.tasks| == |s.tasks| + 1
  {
    AloneForks(s, n);
    hide Check, Scan, Forked;
    TopAtMost(Forked(s, 0).ready, 1);
    CheckPicksHighest(Forked(s, 0));
  }

  /** The call of so_fork up to the new task at its gate. */
  lemma ForkBegins(x: Sys, n: nat) returns (moves: seq<(Id, Act)>, y: Sys)
    requires Alone(x, n)
    ensures Leads(x, moves, y)
    ensures y == x.(s := Created(x.s, 0), pc := x.pc[n := Queueing(n + 1, 0)] + [AtGate],
                    noThreads := x.noThreads + 1, notTerminated := x.notTerminated + 1)
  {
    hide Decrease, Check, Prepared;
    CreatedFormed(x.s, 0);
    var z := x.(s := Created(x.s, 0), noThreads := x.noThreads + 1);
    var y1 := z.(pc := x.pc[n := Posting(n + 1, 0)] + [Unborn]);
    var y2 := z.(pc := x.pc[n := Creating(n + 1, 0)] + [Posted], notTerminated := x.notTerminated + 1);
    y := z.(pc := x.pc[n := Queueing(n + 1, 0)] + [AtGate], notTerminated := x.notTerminated + 1);
    moves := [];
    moves := Then(x, moves, x, n, Call(Fork(0)), y1);
    assert y1.To(n + 1, Posted).To(n, Creating(n + 1, 0)).pc == y2.pc;
    moves := Then(x, moves, y1, n, Go, y2);
    assert y2.To(n + 1, AtGate).To(n, Queueing(n + 1, 0)).pc == y.pc;
    moves := Then(x, moves, y2, n, Go, y);
  }

  /** From there to the handler again: the new task waits in its ready queue. */
  lemma ForkEnds(x: Sys, n: nat, s: Sched, pc: seq<Pc>) returns (moves: seq<(Id, Act)>, y: Sys)
    requires AloneIn(s, n) && |s.tasks| == n + 1 == |pc| && x.s == Created(s, 0)
    requires x.pc == pc[n := Queueing(n + 1, 0)] + [AtGate]
    ensures Leads(x, moves, y) && y.s == Forked(s, 0) && y.pc == pc[n := Handler] + [AtGate] && y.recorded == x.recorded
  {
    hide Decrease, Check, Prepared;
    AloneIsSorted(s, n);
    CreatedFormed(s, 0);
    ReadyFormed(Created(s, 0), 0, n + 1);
    var v, op := Forked(s, 0), Fork(0);
    var y1 := x.(s := x.s.Ready(0, n + 1), pc := pc[n := Decreasing(op)] + [AtGate]);
    var y2 := x.(s := v, pc := pc[n := Checking(op)] + [AtGate]);
    var y3 := x.(s := v, base := v, ops := x.ops + [op], pc := pc[n := Testing(op)] + [AtGate]);
    y := y3.(pc := pc[n := Handler] + [AtGate]);
    assert v == Decrease(y1.s);
    Replaced(pc, n, Queueing(n + 1, 0), Decreasing(op));
    moves := Then(x, [], x, n, Go, y1);
    Replaced(pc, n, Decreasing(op), Checking(op));
    moves := Then(x, moves, y1, n, Go, y2);
    Replaced(pc, n, Checking(op), Testing(op));
    moves := Then(x, moves, y2, n, Go, y3);
    Replaced(pc, n, Testing(op), Handler);
    moves := Then(x, moves, y3, n, Go, y);
  }

  lemma Replaced(pc: seq<Pc>, n: nat, p: Pc, q: Pc)
    requires n < |pc|
    ensures (pc[n := p] + [AtGate])[n := q] == pc[n := q] + [AtGate]
  {}

  // Its handler returns.

  /** The state once task n has returned: the one task that is ready runs. */
  function Succeeded(v: Sched, n: nat): Sched
    requires n < |v.tasks| && n + 1 < |v.tasks|
  {
    v.(running := n + 1, mainRunning := false, ready := Empty(MAX_PRIO + 1),
       tasks := v.tasks[n := v.tasks[n].(workDone := true)][n + 1 := v.tasks[n + 1].(quantum := v.timeQuantum)])
  }

  /** Task n runs, and the next one alone is ready. */
  predicate Followed(v: Sched, n: nat) {
    && Formed(v) && Sorted(v) && 1 <= n && |v.tasks| == n + 2 && v.running == n
    && v.ready == Empty(MAX_PRIO + 1)[0 := [n + 1]] && !v.tasks[n].workDone && !v.tasks[n].waiting
  }

  lemma FinishSucceeds(v: Sched, n: nat)
    requires Followed(v, n)
    ensures MayCall(v, Finish) && Formed(Prepared(v, Finish)) && Check(Prepared(v, Finish)) == Succeeded(v, n)
  {
    PreparedSorted(v, Finish);
    var u := Prepared(v, Finish);
    TopIs(u.ready, 1);
    CheckPicksHighest(u);
    assert Dequeued([n + 1]) == [];
    assert u.Unready(0).ready == Empty(MAX_PRIO + 1);
    hide Check, Scan;
    assert TakeOver(u, 0).tasks == Succeeded(v, n).tasks;
  }

  lemma FollowedNext(s: Sched, n: nat)
    requires AloneIn(s, n) && |s.tasks| == n + 1
    ensures Followed(Forked(s, 0), n) && AloneIn(Succeeded(Forked(s, 0), n), n + 1)
  {
    AloneIsSorted(s, n);
    ForkedIsSo(s, 0);
    ForkedSorted(s, 0);
    var v := Forked(s, 0);
    assert v.tasks[n + 1] == Task(0, s.timeQuantum, false, false);
    FinishSucceeds(v, n);
    PreparedFormed(v, Finish);
    CheckFormed(Prepared(v, Finish));
  }

  /** From the handler to the broadcast of its end. */
  lemma FinishBegins(x: Sys, n: nat, pc: seq<Pc>) returns (moves: seq<(Id, Act)>, y: Sys)
    requires Followed(x.s, n) && |pc| == n + 1 && x.pc == pc[n := Handler] + [AtGate]
    ensures Leads(x, moves, y)
    ensures y.s == Succeeded(x.s, n) && y.pc == pc[n := Broadcasting(Finish)] + [AtGate] && y.recorded == x.recorded
  {
    FinishSucceeds(x.s, n);
    hide Check, Decrease, Scan;
    var v := Succeeded(x.s, n);
    var y1 := x.(s := Prepared(x.s, Finish), pc := pc[n := Checking(Finish)] + [AtGate]);
    var y2 := x.(s := v, base := v, ops := x.ops + [Finish], pc := pc[n := Testing(Finish)] + [AtGate]);
    y := y2.(pc := pc[n := Broadcasting(Finish)] + [AtGate]);
    Replaced(pc, n, Handler, Checking(Finish));
    moves := Then(x, [], x, n, Call(Finish), y1);
    Replaced(pc, n, Checking(Finish), Testing(Finish));
    moves := Then(x, moves, y1, n, Go, y2);
    Replaced(pc, n, Testing(Finish), Broadcasting(Finish));
    CheckFormed(Prepared(x.s, Finish));
    moves := Then(x, moves, y2, n, Go, y);
  }

  /** From there to its entry in terminated_threads; the next task leaves its gate. */
  lemma FinishEnds(x: Sys, n: nat) returns (moves: seq<(Id, Act)>, y: Sys)
    requires AloneIn(x.s, n + 1) && 1 <= n && |x.pc| == n + 2 == |x.s.tasks| && x.pc[n] == Broadcasting(Finish)
    requires x.pc[n + 1] == AtGate
    requires |x.recorded| == n - 1 < MAX_SIZE
    ensures Leads(x, moves, y) && Alone(y, n + 1)
  {
    hide Check, Decrease, Scan;
    var y1 := x.(pc := WakeAll(x.pc)[n := Recording]);
    var y2 := y1.To(n, SemWaiting).(recorded := x.recorded + [n]);
    y := y2.To(n + 1, Handler);
    moves := Then(x, [], x, n, Go, y1);
    moves := Then(x, moves, y1, n, Go, y2);
    moves := Then(x, moves, y2, n + 1, Go, y);
  }

  /** One task after another. */
  lemma {:induction false} NextAlone(x: Sys, n: nat) returns (moves: seq<(Id, Act)>, y: Sys)
    requires Alone(x, n) && n <= MAX_SIZE
    ensures Leads(x, moves, y) && Alone(y, n + 1)
  {
    var a, x1 := ForkBegins(x, n);
    var b, x2 := ForkEnds(x1, n, x.s, x.pc);
    FollowedNext(x.s, n);
    var c, x3 := FinishBegins(x2, n, x.pc);
    var d;
    d, y := FinishEnds(x3, n);
    hide Interleaved, Alone;
    moves := Join(x, a, x1, b, x2);
    moves := Join(x, moves, x2, c, x3);
    moves := Join(x, moves, x3, d, y);
  }

  lemma Join(x: Sys, a: seq<(Id, Act)>, y: Sys, b: seq<(Id, Act)>, z: Sys) returns (moves: seq<(Id, Act)>)
    requires Leads(x, a, y) && Leads(y, b, z)
    ensures Leads(x, moves, z)
  {
    moves := a + b;
    MovesAppend(x, a, b);
  }

  lemma {:induction false} AloneAt(x: Sys, n: nat) returns (moves: seq<(Id, Act)>, y: Sys)
    requires Alone(x, 1) && 1 <= n <= MAX_SIZE + 1
    ensures Leads(x, moves, y) && Alone(y, n)
    decreases n
  {
    if n == 1 {
      moves, y := [], x;
    } else {
      var a, z := AloneAt(x, n - 1);
      var b;
      b, y := NextAlone(z, n - 1);
      hide Interleaved, Alone;
      moves := Join(x, a, z, b, y);
    }
  }

  // The start, and the end.

  /** The main thread's so_fork, up to its new task at the gate. */
  lemma MainForks(x: Sys, timeQuantum: nat, io: nat) returns (moves: seq<(Id, Act)>, y: Sys)
    requires ValidInit(timeQuantum, io) && x == Start(timeQuantum, io)
    ensures Leads(x, moves, y)
    ensures y == x.(s := Created(x.s, 0), pc := [Queueing(1, 0), AtGate], noThreads := 1, notTerminated := 1)
  {
    CreatedFormed(x.s, 0);
    hide Check, Scan, Prepared, Decrease;
    var y1 := x.(s := Created(x.s, 0), noThreads := 1, pc := [Posting(1, 0), Unborn]);
    var y2 := y1.(pc := [Creating(1, 0), Posted], notTerminated := 1);
    y := y2.(pc := [Queueing(1, 0), AtGate]);
    moves := Then(x, [], x, 0, Call(Fork(0)), y1);
    moves := Then(x, moves, y1, 0, Go, y2);
    moves := Then(x, moves, y2, 0, Go, y);
  }

  lemma MainQueues(x: Sys, s: Sched) returns (moves: seq<(Id, Act)>, y: Sys)
    requires Formed(s) && |s.tasks| == 1 && x.s == Created(s, 0) && x.pc == [Queueing(1, 0), AtGate]
    ensures Leads(x, moves, y) && y == x.(s := Forked(s, 0), pc := [Checking(Fork(0)), AtGate])
  {
    CreatedFormed(s, 0);
    ReadyFormed(Created(s, 0), 0, 1);
    hide Check, Scan, Prepared;
    var y1 := x.(s := x.s.Ready(0, 1), pc := [Decreasing(Fork(0)), AtGate]);
    y := y1.(s := Forked(s, 0), pc := [Checking(Fork(0)), AtGate]);
    moves := Then(x, [], x, 0, Go, y1);
    moves := Then(x, moves, y1, 0, Go, y);
  }

  lemma FirstIsAlone(timeQuantum: nat, io: nat)
    requires ValidInit(timeQuantum, io) && timeQuantum >= 2
    ensures Check(Forked(Init(timeQuantum, io), 0)) == Crowd(timeQuantum, io, 1)
    ensures AloneIn(Crowd(timeQuantum, io, 1), 1)
    ensures |Crowd(timeQuantum, io, 1).tasks| == 2
  {
    var s, op := Init(timeQuantum, io), Fork(0);
    FirstFork(timeQuantum, io);
    InitOrderly(timeQuantum, io);
    ForkedIsSo(s, 0);
    assert [op][..0] == [] && After(s, []) == s;
    CrowdFormed(timeQuantum, io, 1);
    assert Crowd(timeQuantum, io, 1).ready == Empty(MAX_PRIO + 1);
  }

  /** The main thread gives way, and the first task is in its handler. */
  lemma FirstAlone(timeQuantum: nat, io: nat) returns (moves: seq<(Id, Act)>, y: Sys)
    requires ValidInit(timeQuantum, io) && timeQuantum >= 2
    ensures Leads(Start(timeQuantum, io), moves, y) && Alone(y, 1)
  {
    FirstIsAlone(timeQuantum, io);
    var x, op, u := Start(timeQuantum, io), Fork(0), Crowd(timeQuantum, io, 1);
    var a, z0 := MainForks(x, timeQuantum, io);
    var b, z := MainQueues(z0, x.s);
    moves := Join(x, a, z0, b, z);
    hide Check, Decrease, Prepared, Init, Crowd, Forked;
    var y1 := z.(s := u, base := u, ops := [op], pc := [Testing(op), AtGate]);
    var y2 := y1.(pc := [Broadcasting(op), AtGate]);
    var y3 := y1.(pc := [Ending, AtGate]);
    y := y1.(pc := [Ending, Handler]);
    moves := Then(x, moves, z, 0, Go, y1);
    moves := Then(x, moves, y1, 0, Go, y2);
    assert WakeAll(y2.pc) == y2.pc;
    moves := Then(x, moves, y2, 0, Go, y3);
    moves := Then(x, moves, y3, 1, Go, y);
  }

  lemma LastFinish(s: Sched, n: nat)
    requires AloneIn(s, n)
    ensures MayCall(s, Finish) && Formed(Prepared(s, Finish)) && Check(Prepared(s, Finish)) == Prepared(s, Finish)
    ensures Prepared(s, Finish).running == n
  {
    AloneIsSorted(s, n);
    PreparedSorted(s, Finish);
    TopIs(Prepared(s, Finish).ready, 0);
    CheckPicksHighest(Prepared(s, Finish));
  }

  /** A run from so_init in which a task is about to store past the end of
      terminated_threads: a task forks one and returns, MAX_SIZE times over, and the last
      one returns as well. */
  lemma {:induction false} OverrunIsReached(timeQuantum: nat, io: nat) returns (moves: seq<(Id, Act)>, t: Id)
    requires ValidInit(timeQuantum, io) && timeQuantum >= 2
    ensures var x := Interleaved(Start(timeQuantum, io), moves); t < |x.pc| && Overruns(x, t)
  {
    t := MAX_SIZE + 1;
    var x0 := Start(timeQuantum, io);
    var a, y := FirstAlone(timeQuantum, io);
    var b, z := AloneAt(y, t);
    var c, x := LastReturns(z, t);
    hide Interleaved, Alone, Start, Overruns;
    moves := Join(x0, a, y, b, z);
    moves := Join(x0, moves, z, c, x);
  }

  lemma LastReturns(x: Sys, t: Id) returns (moves: seq<(Id, Act)>, y: Sys)
    requires Alone(x, t) && t == MAX_SIZE + 1
    ensures Leads(x, moves, y) && t < |y.pc| && Overruns(y, t)
  {
    LastFinish(x.s, t);
    hide Check, Scan, Decrease;
    var s := Prepared(x.s, Finish);
    var y1 := x.To(t, Checking(Finish)).(s := s);
    var y2 := y1.To(t, Testing(Finish)).(base := s, ops := x.ops + [Finish]);
    y := y2.To(t, Recording);
    moves := Then(x, [], x, t, Call(Finish), y1);
    moves := Then(x, moves, y1, t, Go, y2);
    moves := Then(x, moves, y2, t, Go, y);
  }
}
