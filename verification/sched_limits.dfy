/** Where the account of SchedInvariant is lost: a wait while no other task is ready, and a
    fork or a return to a ready queue that is full.  Each with its exact condition, and with
    a run from so_init that gets there. */
module SchedLimits {
  import opened CircularQueues
  import opened SchedModel
  import opened SchedInvariant

  // so_wait.

  /** A task that waits keeps the account in order exactly when some task is ready: else
      it runs on although it stands in a waiting queue. */
  lemma {:induction false} WaitNeedsAnother(s: Sched, io: nat)
    requires Conserved(s) && Paced(s) && MayCall(s, Wait(io)) && Accepts(s, Wait(io))
    ensures Conserved(Apply(s, Wait(io))) <==> Top(s.ready) > 0
    ensures Top(s.ready) == 0 ==> var r := Apply(s, Wait(io));
                                  Formed(r) && r.running == s.running && s.running in r.blocked[io]
  {
    if Top(s.ready) > 0 {
      ApplyConserved(s, Wait(io));
    } else {
      LoneWaiterRunsOn(s, io);
    }
  }

  lemma LoneWaiterRunsOn(s: Sched, io: nat)
    requires Conserved(s) && Paced(s) && MayCall(s, Wait(io)) && Accepts(s, Wait(io)) && Top(s.ready) == 0
    ensures var r := Apply(s, Wait(io));
            Formed(r) && r.running == s.running && r.Current().waiting && s.running in r.blocked[io]
  {
    var u := Prepared(s, Wait(io));
    WaitMidway(s, io);
    DecreaseMidway(u);
    CheckPicksHighest(Decrease(u));
    RequeuedFormed(Decrease(u));
    Room(s, 0, io);
    assert s.running in u.blocked[io];
  }

  // so_fork.

  /** The state between two calls of a task, whatever the number of tasks. */
  ghost predicate Steady(s: Sched) { Orderly(s) && Accounted(s) && Flagged(s) && Paced(s) && !s.Current().waiting }

  /** The caller goes back to its ready queue: its quantum is spent, or the new task
      outranks it. */
  predicate GoesBack(s: Sched, p: nat)
    requires Formed(s)
  {
    s.running != MAIN && (s.Current().quantum == 1 || p > s.Current().priority)
  }

  /** The new task has a place in its queue, and so has the caller if it goes back. */
  predicate RoomToFork(s: Sched, p: nat)
    requires Formed(s) && p <= MAX_PRIO
  {
    && |s.ready[p]| < 1000
    && (GoesBack(s, p) ==> |s.ready[s.Current().priority]| + (if p == s.Current().priority then 1 else 0) < 1000)
  }

  /** The state in which so_fork reaches check_scheduler. */
  function Forked(s: Sched, p: nat): (v: Sched)
    requires Formed(s) && p <= MAX_PRIO
    ensures Formed(v)
  {
    CreatedFormed(s, p);
    ReadyFormed(Created(s, p), p, |s.tasks|);
    DecreaseFormed(Created(s, p).Ready(p, |s.tasks|));
    Decrease(Created(s, p).Ready(p, |s.tasks|))
  }

  lemma ForkedSorted(s: Sched, p: nat)
    requires Formed(s) && Sorted(s) && p <= MAX_PRIO
    ensures Sorted(Forked(s, p))
  {
    CreatedSorted(s, p);
    ReadySorted(Created(s, p), p, |s.tasks|);
    DecreaseSorted(Created(s, p).Ready(p, |s.tasks|));
  }

  lemma ForkedIsSo(s: Sched, p: nat)
    requires Formed(s) && p <= MAX_PRIO && MayCall(s, Fork(p))
    ensures var v := Forked(s, p);
            && Apply(s, Fork(p)) == Check(v)
            && v.ready == s.ready[p := Enqueued(s.ready[p], |s.tasks|)] && v.blocked == s.blocked
            && v.running == s.running && v.mainRunning == s.mainRunning && v.timeQuantum == s.timeQuantum
            && |v.tasks| == |s.tasks| + 1 && !v.tasks[|s.tasks|].workDone
            && (forall t :: 0 <= t < |s.tasks| ==> v.tasks[t].workDone == s.tasks[t].workDone)
            && v.Current() == s.Current().(quantum := (s.Current().quantum + WORD - 1) % WORD)
  {
    hide Check;
  }

  /** The caller yields, for want of quantum or to the new task, or goes on. */
  lemma ForkedYields(s: Sched, p: nat)
    requires Steady(s) && MayCall(s, Fork(p)) && p <= MAX_PRIO
    ensures var v := Forked(s, p);
            && p < Top(v.ready)
            && (s.running != MAIN ==>
                  && (Yields(v) <==> s.Current().quantum == 1)
                  && (Top(v.ready) > v.Current().priority + 1 <==> p > s.Current().priority))
  {
    ForkedIsSo(s, p);
    var v := Forked(s, p);
    assert v.ready[p] != [];
    TopOfOneMore(s.ready, p, v.ready[p]);
  }

  lemma TopOfOneMore(ready: seq<seq<Id>>, p: nat, q: seq<Id>)
    requires p < |ready| && q != []
    ensures Top(ready[p := q]) == if Top(ready) > p then Top(ready) else p + 1
  {
    TopIs(ready[p := q], if Top(ready) > p then Top(ready) else p + 1);
  }

  // A task in no place.

  /** The task is in no queue and is not the running one. */
  ghost predicate Nowhere(s: Sched, t: Id) { Queued(s)[t] == 0 && s.running != t }

  lemma NowhereIsLost(s: Sched, t: Id)
    requires Formed(s) && 1 <= t < |s.tasks| && !s.tasks[t].workDone && Nowhere(s, t)
    ensures !Accounted(s)
  {
    hide Queued;
    assert t in Unfinished(s) && Hand(s)[t] == 0;
  }

  /** Who takes over leaves the queues, and nobody enters them. */
  lemma TakeOverQueued(u: Sched, p: nat)
    requires Formed(u) && p <= MAX_PRIO && u.ready[p] != []
    ensures var y := TakeOver(u, p);
            && Formed(y) && OneMore(Queued(y), Queued(u), u.ready[p][0]) && y.running == u.ready[p][0]
                && |y.tasks| == |u.tasks|
            && (forall t :: 0 <= t < |u.tasks| ==> y.tasks[t].workDone == u.tasks[t].workDone)
  {
    assert u.ready[p][0] in u.ready[p];
    TakeOverFormed(u, p);
    UnreadyQueued(u, p);
    var y, x := TakeOver(u, p), u.Unready(p);
    assert y.ready == x.ready && y.blocked == x.blocked && Queued(y) == Queued(x);
  }

  lemma TakeOverLeavesNowhere(u: Sched, p: nat, t: Id)
    requires Formed(u) && p <= MAX_PRIO && u.ready[p] != [] && Queued(u)[t] == 0
    requires 1 <= t < |u.tasks| && !u.tasks[t].workDone
    ensures Formed(TakeOver(u, p)) && !Accounted(TakeOver(u, p))
  {
    TakeOverQueued(u, p);
    NowhereIsLost(TakeOver(u, p), t);
  }

  /** check_scheduler on a state with a task that is in no queue and does not stay, or that
      is not the running one: it is lost. */
  lemma CheckLoses(v: Sched, t: Id)
    requires Formed(v) && Sorted(v) && 1 <= t < |v.tasks| && !v.tasks[t].workDone && Nowhere(v, t)
    ensures Formed(Check(v)) && !Accounted(Check(v))
  {
    hide Check, Accounted;
    CheckPicksHighest(v);
    var top := Top(Requeued(v).ready);
    if Yields(v) {
      RequeuedLeaves(v, t);
      if top > 0 { TakeOverLeavesNowhere(Requeued(v), top - 1, t); } else { NowhereIsLost(Requeued(v), t); }
    } else if top > v.Current().priority + 1 {
      var c := v.Current().priority;
      ReadyLeaves(v, c, v.running, t);
      OvertakeIsTakeOver(v, top - 1);
      TakeOverLeavesNowhere(v.Ready(c, v.running), top - 1, t);
    } else {
      NowhereIsLost(v, t);
    }
  }

  lemma ReadyLeaves(u: Sched, p: nat, x: Id, t: Id)
    requires Formed(u) && p <= MAX_PRIO && 1 <= x < |u.tasks| && x != t
    ensures Formed(u.Ready(p, x)) && Queued(u.Ready(p, x))[t] == Queued(u)[t]
  {
    ReadyFormed(u, p, x);
    if |u.ready[p]| < MAX_SIZE {
      ReadyQueued(u, p, x);
    } else {
      assert u.ready[p := u.ready[p]] == u.ready;
    }
  }

  lemma RequeuedLeaves(v: Sched, t: Id)
    requires Formed(v) && Queued(v)[t] == 0 && v.running != t
    ensures var u := Requeued(v); Formed(u) && Queued(u)[t] == 0 && u.running == v.running && u.tasks == v.tasks
  {
    RequeuedFormed(v);
    if v.running != MAIN { ReadyLeaves(v, v.Current().priority, v.running, t); }
  }

  // The three outcomes of a fork.

  lemma NewTaskLost(s: Sched, p: nat)
    requires Steady(s) && MayCall(s, Fork(p)) && p <= MAX_PRIO && |s.ready[p]| >= MAX_SIZE
    ensures Formed(Apply(s, Fork(p))) && !Accounted(Apply(s, Fork(p)))
  {
    var v, n := Forked(s, p), |s.tasks|;
    ForkedIsSo(s, p);
    ForkedSorted(s, p);
    assert s.ready[p := s.ready[p]] == s.ready;
    assert n !in Unfinished(s) && Queued(s)[n] + Hand(s)[n] == 0;
    CheckLoses(v, n);
  }

  /** The caller's own queue is full when it goes back to it. */
  lemma CallerLost(s: Sched, p: nat)
    requires Steady(s) && MayCall(s, Fork(p)) && p <= MAX_PRIO && |s.ready[p]| < MAX_SIZE
    requires GoesBack(s, p) && |Forked(s, p).ready[s.Current().priority]| >= MAX_SIZE
    ensures Formed(Apply(s, Fork(p))) && !Accounted(Apply(s, Fork(p)))
  {
    ForkedIsSo(s, p);
    ForkedSorted(s, p);
    ForkedYields(s, p);
    assert Queued(s)[s.running] + Hand(s)[s.running] == 1;
    CallerNotQueued(s, p);
    FullCallerLeaves(Forked(s, p));
  }

  lemma FullCallerLeaves(v: Sched)
    requires Formed(v) && Sorted(v) && v.running != MAIN && !v.Current().waiting && !v.Current().workDone
    requires Yields(v) || Top(v.ready) > v.Current().priority + 1
    requires |v.ready[v.Current().priority]| >= MAX_SIZE && Queued(v)[v.running] == 0
    ensures Formed(Check(v)) && !Accounted(Check(v))
  {
    hide Queued, Check, Accounted;
    var c := v.Current().priority;
    CheckPicksHighest(v);
    assert v.Ready(c, v.running) == v by { assert v.ready[c := v.ready[c]] == v.ready; }
    if Yields(v) {
      assert Requeued(v) == v;
      TakeOverLeavesNowhere(v, Top(v.ready) - 1, v.running);
    } else {
      OvertakeIsTakeOver(v, Top(v.ready) - 1);
      TakeOverLeavesNowhere(v, Top(v.ready) - 1, v.running);
    }
  }

  lemma CallerNotQueued(s: Sched, p: nat)
    requires Formed(s) && p <= MAX_PRIO && |s.ready[p]| < MAX_SIZE && Queued(s)[s.running] == 0
    ensures Queued(Forked(s, p))[s.running] == 0
  {
    CreatedFormed(s, p);
    ReadyQueued(Created(s, p), p, |s.tasks|);
  }

  lemma ForkedBalanced(s: Sched, p: nat)
    requires Formed(s) && Accounted(s) && p <= MAX_PRIO && |s.ready[p]| < MAX_SIZE
    ensures Balanced(Forked(s, p), Hand(s))
  {
    hide Hand;
    var n, u := |s.tasks|, Created(s, p);
    CreatedFormed(s, p);
    assert Unfinished(u) == Unfinished(s) + {n};
    assert n !in Unfinished(s) && Queued(s)[n] + Hand(s)[n] == 0;
    ReadySettles(u, p, n, Hand(s));
    assert Unfinished(Forked(s, p)) == Unfinished(u);
  }

  lemma ForkedFlagged(s: Sched, p: nat)
    requires Formed(s) && Flagged(s) && p <= MAX_PRIO
    ensures Flagged(Forked(s, p))
  {
    CreatedFormed(s, p);
    ReadyFlagged(Created(s, p), p, |s.tasks|);
  }

  /** The caller back in its queue, and the front of the highest one in its place. */
  lemma ReturnSettles(v: Sched, p: nat)
    requires Formed(v) && Flagged(v) && v.running != MAIN && !v.Current().waiting
    requires Balanced(v, multiset{} + multiset{v.running})
    requires |v.ready[v.Current().priority]| < MAX_SIZE
    requires p <= MAX_PRIO && v.Ready(v.Current().priority, v.running).ready[p] != []
    ensures var u := v.Ready(v.Current().priority, v.running);
            Formed(u) && Formed(TakeOver(u, p)) && Accounted(TakeOver(u, p))
  {
    var c := v.Current().priority;
    var u := v.Ready(c, v.running);
    ReadyFlagged(v, c, v.running);
    ReadySettles(v, c, v.running, multiset{});
    TakeOverFormed(u, p);
    TakeOverAccounted(u, p);
  }

  lemma MainYields(s: Sched, p: nat)
    requires Steady(s) && MayCall(s, Fork(p)) && p <= MAX_PRIO && |s.ready[p]| < MAX_SIZE && s.running == MAIN
    ensures Formed(Apply(s, Fork(p))) && Accounted(Apply(s, Fork(p)))
  {
    var v := Forked(s, p);
    ForkedIsSo(s, p);
    ForkedSorted(s, p);
    ForkedFlagged(s, p);
    ForkedYields(s, p);
    ForkedBalanced(s, p);
    CheckPicksHighest(v);
    TakeOverFormed(v, Top(v.ready) - 1);
    TakeOverAccounted(v, Top(v.ready) - 1);
  }

  /** check_scheduler on a task that goes back to a queue with room for it. */
  lemma CallerReturns(v: Sched)
    requires Formed(v) && Sorted(v) && Flagged(v) && v.running != MAIN && !v.Current().waiting && !v.Current().workDone
    requires Yields(v) || Top(v.ready) > v.Current().priority + 1
    requires |v.ready[v.Current().priority]| < MAX_SIZE && Balanced(v, multiset{} + multiset{v.running})
    ensures Formed(Check(v)) && Accounted(Check(v))
  {
    hide Queued, Check, Accounted, Flagged, Balanced;
    var c := v.Current().priority;
    CheckPicksHighest(v);
    assert v.Ready(c, v.running).ready[c] != [];
    if Yields(v) {
      ReturnSettles(v, Top(Requeued(v).ready) - 1);
    } else {
      OvertakeIsTakeOver(v, Top(v.ready) - 1);
      ReturnSettles(v, Top(v.ready) - 1);
    }
  }

  lemma CallerStays(v: Sched)
    requires Formed(v) && Sorted(v) && Balanced(v, Hand(v)) && !Yields(v) && Top(v.ready) <= v.Current().priority + 1
    ensures Formed(Check(v)) && Accounted(Check(v))
  {
    CheckPicksHighest(v);
  }

  lemma CallerPlaced(s: Sched, p: nat)
    requires Steady(s) && MayCall(s, Fork(p)) && p <= MAX_PRIO && s.running != MAIN && RoomToFork(s, p)
    ensures Formed(Apply(s, Fork(p))) && Accounted(Apply(s, Fork(p)))
  {
    var v := Forked(s, p);
    ForkedIsSo(s, p);
    ForkedSorted(s, p);
    ForkedFlagged(s, p);
    ForkedYields(s, p);
    ForkedBalanced(s, p);
    hide Queued, Check, Accounted, Flagged, Balanced, Forked, Apply;
    assert Hand(s) == multiset{} + multiset{v.running} && Hand(v) == Hand(s);
    if GoesBack(s, p) { CallerReturns(v); } else { CallerStays(v); }
  }

  /** A fork keeps every unfinished task in its one place exactly when there is room for the
      new task and, if it goes back, for the caller; else one of them is lost in silence. */
  lemma ForkNeedsRoom(s: Sched, p: nat)
    requires Steady(s) && MayCall(s, Fork(p)) && p <= MAX_PRIO
    ensures Formed(Apply(s, Fork(p))) && (Accounted(Apply(s, Fork(p))) <==> RoomToFork(s, p))
  {
    ForkedIsSo(s, p);
    if |s.ready[p]| >= MAX_SIZE {
      NewTaskLost(s, p);
    } else if s.running == MAIN {
      MainYields(s, p);
    } else if RoomToFork(s, p) {
      CallerPlaced(s, p);
    } else {
      CallerLost(s, p);
    }
  }

  // Runs that get there.

  function Forks(n: nat): seq<Op> { seq(n, i => Fork(0)) }

  /** After n forks of priority 0: the first task runs and the others wait for it. */
  function Crowd(timeQuantum: nat, io: nat, n: nat): Sched
    requires 1 <= n <= timeQuantum
  {
    Sched(timeQuantum, io, 1, false,
          [MAIN_TASK.(quantum := WORD - 1), Task(0, timeQuantum - (n - 1), false, false)]
          + seq(n - 1, i => Task(0, timeQuantum, false, false)),
          Empty(MAX_PRIO + 1)[0 := seq(n - 1, i => i + 2)],
          Empty(MAX_EVENTS))
  }

  lemma CrowdFormed(timeQuantum: nat, io: nat, n: nat)
    requires ValidInit(timeQuantum, io) && 1 <= n <= timeQuantum && n <= MAX_SIZE + 1
    ensures var s := Crowd(timeQuantum, io, n); Formed(s) && Sorted(s) && |s.tasks| == n + 1
    ensures Top(Crowd(timeQuantum, io, n).ready) <= 1
  {
    TopAtMost(Crowd(timeQuantum, io, n).ready, 1);
  }

  /** The first fork: the main thread gives way to the new task. */
  lemma FirstFork(timeQuantum: nat, io: nat)
    requires ValidInit(timeQuantum, io)
    ensures After(Init(timeQuantum, io), [Fork(0)]) == Crowd(timeQuantum, io, 1)
  {
    var s, op := Init(timeQuantum, io), Fork(0);
    assert [op][..0] == [] && After(s, []) == s;
    InitOrderly(timeQuantum, io);
    ForkedIsSo(s, 0);
    ForkedSorted(s, 0);
    var v := Forked(s, 0);
    CheckPicksHighest(v);
    TopIs(v.ready, 1);
    assert v.ready[0] == [1] && Dequeued([1]) == seq(0, i => i + 2);
    assert TakeOver(v, 0).tasks == Crowd(timeQuantum, io, 1).tasks;
    assert TakeOver(v, 0).ready == Crowd(timeQuantum, io, 1).ready;
  }

  /** The others: the new task waits behind those before it. */
  lemma NextFork(timeQuantum: nat, io: nat, n: nat)
    requires ValidInit(timeQuantum, io) && 1 <= n < timeQuantum && n <= MAX_SIZE
    ensures Next(Crowd(timeQuantum, io, n), Fork(0)) == Crowd(timeQuantum, io, n + 1)
  {
    var s := Crowd(timeQuantum, io, n);
    CrowdFormed(timeQuantum, io, n);
    ForkedIsSo(s, 0);
    ForkedSorted(s, 0);
    var v := Forked(s, 0);
    TopAtMost(v.ready, 1);
    CheckPicksHighest(v);
    assert v.tasks == Crowd(timeQuantum, io, n + 1).tasks;
    assert seq(n - 1, i => i + 2) + [n + 1] == seq(n, i => i + 2);
    assert v.ready == Crowd(timeQuantum, io, n + 1).ready;
  }

  lemma {:induction false} ForksGather(timeQuantum: nat, io: nat, n: nat)
    requires ValidInit(timeQuantum, io) && 1 <= n <= timeQuantum && n <= MAX_SIZE + 1
    ensures After(Init(timeQuantum, io), Forks(n)) == Crowd(timeQuantum, io, n)
  {
    hide Next, Crowd, Init;
    if n == 1 {
      assert Forks(1) == [Fork(0)];
      FirstFork(timeQuantum, io);
    } else {
      assert Forks(n)[..n - 1] == Forks(n - 1);
      ForksGather(timeQuantum, io, n - 1);
      NextFork(timeQuantum, io, n - 1);
    }
  }

  lemma {:induction false} ForksArePolite(timeQuantum: nat, io: nat, n: nat)
    requires ValidInit(timeQuantum, io) && 1 <= n <= timeQuantum && n <= MAX_SIZE
    ensures PoliteRun(Init(timeQuantum, io), Forks(n))
  {
    hide Crowd, Init;
    forall k | 0 <= k < n
      ensures Polite(After(Init(timeQuantum, io), Forks(n)[..k]), Forks(n)[k])
    {
      assert Forks(n)[..k] == Forks(k);
      if k > 0 {
        ForksGather(timeQuantum, io, k);
        CrowdFormed(timeQuantum, io, k);
      } else {
        InitTasks(timeQuantum, io);
      }
    }
  }

  lemma InitTasks(timeQuantum: nat, io: nat)
    ensures After(Init(timeQuantum, io), []) == Init(timeQuantum, io) && |Init(timeQuantum, io).tasks| == 1
  {}

  /** One fork, and the only task may wait though none is ready: it then runs on from its
      waiting queue. */
  lemma {:induction false} LoneTaskMayWait()
    ensures var s := After(Init(1, 1), [Fork(0)]);
            && Conserved(s) && Paced(s) && MayCall(s, Wait(0)) && Accepts(s, Wait(0)) && Top(s.ready) == 0
            && var r := Apply(s, Wait(0));
               Formed(r) && !Conserved(r) && r.running == 1 && 1 in r.blocked[0]
  {
    assert Forks(1) == [Fork(0)];
    ForksArePolite(1, 1, 1);
    ConservedAlways(1, 1, [Fork(0)]);
    FirstFork(1, 1);
    TopIs(Crowd(1, 1, 1).ready, 0);
    WaitNeedsAnother(Crowd(1, 1, 1), 0);
  }

  lemma CrowdFlagged(timeQuantum: nat, io: nat, n: nat)
    requires ValidInit(timeQuantum, io) && 1 <= n <= timeQuantum && n <= MAX_SIZE + 1
    requires Formed(Crowd(timeQuantum, io, n))
    ensures Flagged(Crowd(timeQuantum, io, n)) && Paced(Crowd(timeQuantum, io, n))
    ensures MayCall(Crowd(timeQuantum, io, n), Fork(0)) && !Crowd(timeQuantum, io, n).Current().waiting
    ensures |Crowd(timeQuantum, io, n).ready[0]| == n - 1
  {}

  /** The queue is full, and every task is in its place. */
  lemma {:induction false} FullCrowdSteady(timeQuantum: nat, io: nat)
    requires ValidInit(timeQuantum, io) && timeQuantum > MAX_SIZE + 1
    ensures Steady(Crowd(timeQuantum, io, MAX_SIZE + 1))
  {
    var n := MAX_SIZE;
    ForksArePolite(timeQuantum, io, n);
    ConservedAlways(timeQuantum, io, Forks(n));
    PriorityAlways(timeQuantum, io, Forks(n));
    PriorityAlways(timeQuantum, io, Forks(n + 1));
    ForksGather(timeQuantum, io, n);
    ForksGather(timeQuantum, io, n + 1);
    CrowdFlagged(timeQuantum, io, n);
    CrowdFlagged(timeQuantum, io, n + 1);
    LastRoom(timeQuantum, io);
    NextFork(timeQuantum, io, n);
    hide Crowd, Apply;
    ForkNeedsRoom(Crowd(timeQuantum, io, n), 0);
  }

  lemma LastRoom(timeQuantum: nat, io: nat)
    requires ValidInit(timeQuantum, io) && timeQuantum > MAX_SIZE + 1 && Formed(Crowd(timeQuantum, io, MAX_SIZE))
    ensures RoomToFork(Crowd(timeQuantum, io, MAX_SIZE), 0)
  {}

  /** One fork more: the queue stays as it is, and the caller goes on. */
  lemma OneTooMany(timeQuantum: nat, io: nat)
    requires ValidInit(timeQuantum, io) && timeQuantum > MAX_SIZE + 1
    ensures var s := Crowd(timeQuantum, io, MAX_SIZE + 1);
            && Formed(s) && MayCall(s, Fork(0))
            && var r, n := Apply(s, Fork(0)), |s.tasks|;
               |r.tasks| == n + 1 && !r.tasks[n].workDone && r.ready == s.ready && r.blocked == s.blocked
                   && r.running == s.running
  {
    var s := Crowd(timeQuantum, io, MAX_SIZE + 1);
    CrowdFormed(timeQuantum, io, MAX_SIZE + 1);
    ForkedIsSo(s, 0);
    ForkedSorted(s, 0);
    var v := Forked(s, 0);
    assert s.ready[0 := s.ready[0]] == s.ready;
    CheckPicksHighest(v);
  }

  /** With a quantum of more than 1001 units, 1001 forks of one priority fill its ready queue,
      each task in its place; the task of the next fork is in no place. */
  lemma {:induction false} FullQueueLosesTask(timeQuantum: nat, io: nat)
    requires ValidInit(timeQuantum, io) && timeQuantum > 1001
    ensures var s, r := After(Init(timeQuantum, io), Forks(1001)), After(Init(timeQuantum, io), Forks(1002));
            && Steady(s) && |s.ready[0]| == 1000
            && Formed(r) && |r.tasks| == 1003 && !Accounted(r)
            && var lost := 1002;
               !r.tasks[lost].workDone && r.running != lost
               && (forall p :: 0 <= p <= MAX_PRIO ==> lost !in r.ready[p])
               && (forall d :: 0 <= d < MAX_EVENTS ==> lost !in r.blocked[d])
  {
    var n := MAX_SIZE + 1;
    FullCrowdSteady(timeQuantum, io);
    ForksGather(timeQuantum, io, n);
    CrowdFlagged(timeQuantum, io, n);
    CrowdFormed(timeQuantum, io, n);
    assert Forks(n + 1)[..n] == Forks(n);
    OneTooMany(timeQuantum, io);
    assert 1 == Crowd(timeQuantum, io, n).running;
    hide Crowd, Apply, Init;
    ForkNeedsRoom(Crowd(timeQuantum, io, n), 0);
    NotQueuedBefore(Crowd(timeQuantum, io, n), n + 1);
  }

  /** What has not been created is in no queue. */
  lemma NotQueuedBefore(s: Sched, t: Id)
    requires Formed(s) && t >= |s.tasks|
    ensures (forall p :: 0 <= p <= MAX_PRIO ==> t !in s.ready[p])
    ensures (forall d :: 0 <= d < MAX_EVENTS ==> t !in s.blocked[d])
  {}
}
