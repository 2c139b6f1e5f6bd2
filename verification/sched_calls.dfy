/** What each call does to the tasks and to the queues, before and after check_scheduler. */
module SchedCalls {
  import opened CircularQueues
  import opened SchedModel
  import opened SchedInvariant
  import opened SchedFairness

  /** The task is as it was, but for its quantum. */
  predicate SameButQuantum(k: Task, j: Task) { k == j.(quantum := k.quantum) }

  /** What a call leaves to check_scheduler: the queues it fills or empties, and the new or
      changed tasks. */
  predicate Hands(s: Sched, op: Op, v: Sched)
    requires Formed(s) && Formed(v) && Accepts(s, op)
  {
    && v.running == s.running && v.mainRunning == s.mainRunning && v.timeQuantum == s.timeQuantum && v.io == s.io
    && match op
       case Fork(p) =>
         && |v.tasks| == |s.tasks| + 1 && v.tasks[|s.tasks|] == Task(p, s.timeQuantum, false, false)
         && v.ready == s.ready[p := s.ready[p] + [|s.tasks|]] && v.blocked == s.blocked
         && (forall t :: 0 <= t < |s.tasks| && t != s.running ==> v.tasks[t] == s.tasks[t])
         && SameButQuantum(v.Current(), s.Current())
       case Wait(io) =>
         && |v.tasks| == |s.tasks| && v.ready == s.ready && v.blocked == s.blocked[io := s.blocked[io] + [s.running]]
         && (forall t :: 0 <= t < |s.tasks| && t != s.running ==> v.tasks[t] == s.tasks[t])
         && SameButQuantum(v.Current(), s.Current().(waiting := true))
       case Signal(io) =>
         && |v.tasks| == |s.tasks| && v.blocked == s.blocked[io := []]
         && (forall p :: 0 <= p <= MAX_PRIO ==> v.ready[p] == s.ready[p] + OfPriority(s.tasks, s.blocked[io], p))
         && (forall t :: 0 <= t < |s.tasks| && t != s.running ==>
               v.tasks[t] == if t in s.blocked[io] then s.tasks[t].(waiting := false) else s.tasks[t])
         && SameButQuantum(v.Current(), s.Current())
       case Exec =>
         && |v.tasks| == |s.tasks| && v.ready == s.ready && v.blocked == s.blocked
         && (forall t :: 0 <= t < |s.tasks| && t != s.running ==> v.tasks[t] == s.tasks[t])
         && SameButQuantum(v.Current(), s.Current())
       case Finish =>
         && |v.tasks| == |s.tasks| && v.ready == s.ready && v.blocked == s.blocked
         && (forall t :: 0 <= t < |s.tasks| && t != s.running ==> v.tasks[t] == s.tasks[t])
         && v.Current() == s.Current().(workDone := true)
  }

  /** A call costs a unit of quantum, but for the end of a handler; the main thread begins with
      none. */
  predicate Costs(s: Sched, op: Op, v: Sched)
    requires Formed(s) && Formed(v)
  {
    !op.Finish? ==>
      v.Current().quantum == if s.Current().quantum > 0 then s.Current().quantum - 1 else 0xFFFF_FFFF
  }

  lemma DecreaseHands(s: Sched, op: Op, u: Sched)
    requires Formed(s) && Paced(s) && MayCall(s, op) && Accepts(s, op) && !op.Finish?
    requires Formed(u) && Formed(Decrease(u))
    requires Hands(s, op, u) && u.Current().quantum == s.Current().quantum
    ensures Hands(s, op, Decrease(u)) && Costs(s, op, Decrease(u))
  {}

  lemma PreparedHands(s: Sched, op: Op)
    requires Conserved(s) && Paced(s) && MayCall(s, op) && Accepts(s, op) && (op.Fork? ==> |s.tasks| <= MAX_SIZE)
    ensures Formed(Prepared(s, op)) && Hands(s, op, Prepared(s, op))
    ensures Prepared(s, op).Current().quantum == s.Current().quantum
  {
    PreparedFormed(s, op);
    match op
    case Fork(p) => Room(s, p, 0);
    case Wait(io) => Room(s, 0, io);
    case Signal(io) =>
      DrainedIsWoken(s, io);
      DrainedPaced(s, io);
      SignalledIo(s, io);
      RunningNotBlocked(s, io);
    case _ =>
  }

  lemma {:induction false} SignalledIo(s: Sched, io: nat)
    requires Formed(s) && io < MAX_EVENTS
    ensures Drained(s, io).io == s.io
    decreases |s.blocked[io]|
  {
    if s.blocked[io] != [] {
      DrainStepFormed(s, io);
      SignalledIo(DrainStep(s, io), io);
    }
  }

  lemma RunningNotBlocked(s: Sched, io: nat)
    requires Conserved(s) && io < MAX_EVENTS
    ensures s.running !in s.blocked[io]
  {}

  /** The state that check_scheduler finds in a call, said without the functions that build
      it: the call is what it leaves there, and check_scheduler. */
  lemma CallHands(s: Sched, op: Op) returns (v: Sched)
    requires Conserved(s) && Paced(s) && MayCall(s, op) && Accepts(s, op) && (op.Fork? ==> |s.tasks| <= MAX_SIZE)
    ensures Formed(v) && Sorted(v) && Apply(s, op) == Check(v)
    ensures Hands(s, op, v) && Costs(s, op, v)
  {
    hide Check, Decrease, Prepared;
    PreparedHands(s, op);
    PreparedSorted(s, op);
    v := Prepared(s, op);
    if !op.Finish? {
      DecreaseFormed(v);
      DecreaseHands(s, op, v);
      DecreaseSorted(v);
      v := Decrease(v);
    }
  }

  // check_scheduler leaves what it does not move.

  /** The task runs or stands in the ready queue of its priority. */
  predicate Runnable(r: Sched, t: Id)
    requires Formed(r) && t < |r.tasks|
  {
    !r.tasks[t].waiting && !r.tasks[t].workDone && (r.running == t || t in r.ready[r.tasks[t].priority])
  }

  /** No device queue changes, and no task but the one that starts, which gets a whole
      quantum. */
  predicate Leaves(u: Sched, r: Sched) {
    && r.blocked == u.blocked && |r.tasks| == |u.tasks|
    && (forall t :: 0 <= t < |u.tasks| && t != r.running ==> r.tasks[t] == u.tasks[t])
    && r.running < |u.tasks|
    && (r.Current() == u.tasks[r.running] || r.Current() == u.tasks[r.running].(quantum := u.timeQuantum))
  }

  lemma TakeOverLeaves(u: Sched, p: nat)
    requires Formed(u) && p <= MAX_PRIO && u.ready[p] != []
    ensures Leaves(u, TakeOver(u, p))
  {
    assert u.ready[p][0] in u.ready[p];
  }

  lemma OvertakeLeaves(u: Sched, p: nat)
    requires Formed(u) && p <= MAX_PRIO && u.ready[p] != []
    ensures Leaves(u, Overtake(u, p))
  {
    assert u.ready[p][0] in u.ready[p];
  }

  /** check_scheduler moves no waiting task, and of a task it changes at most the quantum. */
  lemma CheckLeaves(v: Sched)
    requires Formed(v) && Sorted(v)
    ensures Leaves(v, Check(v))
  {
    hide Check, TakeOver, Overtake;
    CheckPicksHighest(v);
    RequeuedFormed(v);
    if Yields(v) && Top(Requeued(v).ready) > 0 {
      TakeOverLeaves(Requeued(v), Top(Requeued(v).ready) - 1);
    } else if !Yields(v) && Top(v.ready) > v.Current().priority + 1 {
      OvertakeLeaves(v, Top(v.ready) - 1);
    }
  }

  // The calls.

  /** so_signal wakes every task that waits for the device, whatever else is ready: none is
      left in its queue, and each of them runs or is ready when the call is over.  The other
      devices' queues are as they were. */
  lemma SignalWakes(s: Sched, io: nat)
    requires Conserved(s) && Paced(s) && MayCall(s, Signal(io)) && Accepts(s, Signal(io))
    ensures var r := Apply(s, Signal(io));
            && Formed(r) && r.blocked == s.blocked[io := []]
            && forall t :: t in s.blocked[io] ==> t < |r.tasks| && Runnable(r, t)
  {
    var v := CallHands(s, Signal(io));
    CheckLeaves(v);
    ApplyConserved(s, Signal(io));
    forall t | t in s.blocked[io]
      ensures t < |v.tasks| && Runnable(Check(v), t)
    {
      InBlocked(s, io, t);
      QueuedOnce(s, t);
      IsRunnable(Check(v), t);
    }
  }

  lemma IsRunnable(r: Sched, t: Id)
    requires Conserved(r) && 1 <= t < |r.tasks| && !r.tasks[t].workDone && !r.tasks[t].waiting
    ensures Runnable(r, t)
  {
    OnePlace(r, t);
    if t in Flat(r.blocked) {
      var d := FlatFrom(r.blocked, t);
      assert false;
    }
    if r.running != t {
      var p := FlatFrom(r.ready, t);
      assert t in r.ready[p];
    }
  }

  /** so_wait puts the caller last in the queue of the device that it names, and touches no
      other device's queue; the front of the highest ready queue takes over. */
  lemma WaitBlocks(s: Sched, io: nat)
    requires Conserved(s) && Paced(s) && MayCall(s, Wait(io)) && Accepts(s, Wait(io))
    ensures var r := Apply(s, Wait(io));
            && r.blocked == s.blocked[io := s.blocked[io] + [s.running]]
            && s.running < |r.tasks| && r.tasks[s.running].waiting
            && (Top(s.ready) > 0 ==> r.running == s.ready[Top(s.ready) - 1][0])
  {
    var v := CallHands(s, Wait(io));
    CheckLeaves(v);
    CheckPicksHighest(v);
    assert Requeued(v) == v;
  }

  /** so_fork adds one task, of the given priority and with a whole quantum, which runs or
      is ready when the call is over. */
  lemma ForkAdds(s: Sched, p: nat)
    requires Conserved(s) && Paced(s) && MayCall(s, Fork(p)) && Accepts(s, Fork(p)) && |s.tasks| <= MAX_SIZE
    ensures var r, n := Apply(s, Fork(p)), |s.tasks|;
            && Formed(r) && |r.tasks| == n + 1 && r.tasks[n].priority == p && r.tasks[n].quantum == s.timeQuantum
            && Runnable(r, n) && r.blocked == s.blocked
  {
    var v := CallHands(s, Fork(p));
    CheckLeaves(v);
    ApplyConserved(s, Fork(p));
    IsRunnable(Check(v), |s.tasks|);
  }

  /** The end of a handler: the task is finished and in no queue. */
  lemma FinishEnds(s: Sched)
    requires Conserved(s) && Paced(s) && MayCall(s, Finish)
    ensures var r := Apply(s, Finish);
            && s.running < |r.tasks| && r.tasks[s.running].workDone && r.blocked == s.blocked
            && (forall p :: 0 <= p < |r.ready| ==> s.running !in r.ready[p])
            && (Top(s.ready) > 0 ==> r.running == s.ready[Top(s.ready) - 1][0])
  {
    var v := CallHands(s, Finish);
    CheckLeaves(v);
    ApplyConserved(s, Finish);
    OnePlace(Check(v), s.running);
    CheckPicksHighest(v);
    assert Requeued(v) == v;
  }

  lemma GoesOn(s: Sched, v: Sched)
    requires Formed(s) && Orderly(s) && !s.mainRunning && Formed(v) && Sorted(v) && !Yields(v) && v.ready == s.ready
    requires !s.Current().workDone && v.running == s.running && v.Current().priority == s.Current().priority
    ensures Check(v) == v
  {
    CheckPicksHighest(v);
  }

  lemma FrontStarts(u: Sched, c: nat)
    requires Formed(u) && c <= MAX_PRIO && u.ready[c] != []
    ensures var r := TakeOver(u, c);
            && r.running == u.ready[c][0] && r.running < |r.tasks| && r.Current().quantum == u.timeQuantum
            && r.ready == u.ready[c := u.ready[c][1..]]
  {
    assert u.ready[c][0] in u.ready[c];
  }

  lemma LastUnitSpent(v: Sched, c: nat)
    requires Formed(v) && Sorted(v) && v.running != MAIN && v.Current().quantum == 0
    requires !v.Current().workDone && !v.Current().waiting && v.Current().priority == c
    requires |v.ready[c]| < MAX_SIZE && Top(v.ready) <= c + 1
    ensures var r, line := Check(v), v.ready[c] + [v.running];
            && r.running == line[0] && r.running < |r.tasks| && r.Current().quantum == v.timeQuantum
            && r.ready == v.ready[c := line[1..]]
  {
    hide Check, Scan, TakeOver, Overtake, Sorted;
    CheckPicksHighest(v);
    ReadyFormed(v, c, v.running);
    TopIs(v.Ready(c, v.running).ready, c + 1);
    FrontStarts(v.Ready(c, v.running), c);
  }

  /** so_exec: the caller goes on with a unit less, or, if that was its last one, goes to the
      end of its queue, whose front starts a whole quantum. */
  lemma ExecSpends(s: Sched)
    requires Conserved(s) && Paced(s) && Orderly(s) && MayCall(s, Exec)
    ensures var r, c, n := Apply(s, Exec), s.Current().priority, s.Current().quantum;
            && r.running < |r.tasks|
            && if n > 1 then r == s.(tasks := s.tasks[s.running := s.Current().(quantum := n - 1)])
               else r.running == (s.ready[c] + [s.running])[0] && r.Current().quantum == s.timeQuantum
                    && r.ready == s.ready[c := (s.ready[c] + [s.running])[1..]]
  {
    hide Check, Scan, Accounted, Flagged;
    var v := CallHands(s, Exec);
    if s.Current().quantum > 1 {
      assert v.tasks == s.tasks[s.running := s.Current().(quantum := s.Current().quantum - 1)];
      GoesOn(s, v);
    } else {
      Room(s, s.Current().priority, 0);
      LastUnitSpent(v, s.Current().priority);
    }
  }
}
