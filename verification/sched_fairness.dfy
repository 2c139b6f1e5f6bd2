/** What a signal does to the queues, and how long a ready task waits for its turn. */
module SchedFairness {
  import opened CircularQueues
  import opened SchedModel
  import opened SchedInvariant

  // Signals.

  /** The tasks of a queue that have a priority, in the order of the queue. */
  function OfPriority(tasks: seq<Task>, q: seq<Id>, p: nat): seq<Id>
    requires forall t :: t in q ==> t < |tasks|
  {
    if q == [] then []
    else
      assert q[0] in q && forall t :: t in q[1..] ==> t in q;
      (if tasks[q[0]].priority == p then [q[0]] else []) + OfPriority(tasks, q[1..], p)
  }

  lemma {:induction false} SamePriorities(a: seq<Task>, b: seq<Task>, q: seq<Id>, p: nat)
    requires |a| == |b| && forall t :: t in q ==> t < |a| && a[t].priority == b[t].priority
    ensures OfPriority(a, q, p) == OfPriority(b, q, p)
  {
    if q != [] {
      assert forall t :: t in q[1..] ==> t in q;
      SamePriorities(a, b, q[1..], p);
    }
  }

  /** The queues after a signal on a device. */
  predicate Woken(s: Sched, io: nat, r: Sched)
    requires Formed(s) && Formed(r) && io < MAX_EVENTS
  {
    && r.blocked == s.blocked[io := []] && |r.tasks| == |s.tasks|
    && (forall p :: 0 <= p <= MAX_PRIO ==> r.ready[p] == s.ready[p] + OfPriority(s.tasks, s.blocked[io], p))
    && (forall t :: 0 <= t < |s.tasks| ==>
          r.tasks[t] == if t in s.blocked[io] then s.tasks[t].(waiting := false) else s.tasks[t])
  }

  lemma StepReady(s: Sched, io: nat, p: nat)
    requires Conserved(s) && io < MAX_EVENTS && s.blocked[io] != [] && p <= MAX_PRIO
    ensures Formed(DrainStep(s, io))
    ensures var t := s.blocked[io][0];
            t < |s.tasks| && DrainStep(s, io).ready[p] == s.ready[p] + (if s.tasks[t].priority == p then [t] else [])
  {
    assert s.blocked[io][0] in s.blocked[io];
    DrainStepFormed(s, io);
    Room(s, p, io);
  }

  lemma {:induction false} WokenReady(s: Sched, io: nat, r: Sched, p: nat)
    requires Conserved(s) && io < MAX_EVENTS && s.blocked[io] != [] && p <= MAX_PRIO
    requires Formed(DrainStep(s, io)) && Formed(r) && Woken(DrainStep(s, io), io, r)
    ensures r.ready[p] == s.ready[p] + OfPriority(s.tasks, s.blocked[io], p)
  {
    var t, rest, u := s.blocked[io][0], s.blocked[io][1..], DrainStep(s, io);
    assert t in s.blocked[io] && forall x :: x in rest ==> x in s.blocked[io];
    StepReady(s, io, p);
    SamePriorities(s.tasks, u.tasks, rest, p);
    assert u.blocked[io] == rest;
    assert s.ready[p] + (if s.tasks[t].priority == p then [t] else []) + OfPriority(s.tasks, rest, p)
           == s.ready[p] + OfPriority(s.tasks, s.blocked[io], p);
  }

  lemma WokenTasks(s: Sched, io: nat, r: Sched, t: Id)
    requires Conserved(s) && io < MAX_EVENTS && s.blocked[io] != [] && t < |s.tasks|
    requires Formed(DrainStep(s, io)) && Formed(r) && Woken(DrainStep(s, io), io, r)
    ensures t < |r.tasks|
    ensures r.tasks[t] == if t in s.blocked[io] then s.tasks[t].(waiting := false) else s.tasks[t]
  {
    assert s.blocked[io][0] in s.blocked[io];
    assert s.blocked[io] == [s.blocked[io][0]] + s.blocked[io][1..];
  }

  lemma WokenStep(s: Sched, io: nat, r: Sched)
    requires Conserved(s) && io < MAX_EVENTS && s.blocked[io] != []
    requires Formed(DrainStep(s, io)) && Formed(r) && Woken(DrainStep(s, io), io, r)
    ensures Woken(s, io, r)
  {
    forall p | 0 <= p <= MAX_PRIO
      ensures r.ready[p] == s.ready[p] + OfPriority(s.tasks, s.blocked[io], p)
    {
      WokenReady(s, io, r, p);
    }
    forall t | 0 <= t < |s.tasks|
      ensures t < |r.tasks| && r.tasks[t] == if t in s.blocked[io] then s.tasks[t].(waiting := false) else s.tasks[t]
    {
      WokenTasks(s, io, r, t);
    }
    WokenBlocked(s, io);
  }

  lemma WokenBlocked(s: Sched, io: nat)
    requires Formed(s) && io < MAX_EVENTS && s.blocked[io] != []
    ensures |DrainStep(s, io).tasks| == |s.tasks| && |DrainStep(s, io).blocked| == MAX_EVENTS
    ensures DrainStep(s, io).blocked[io := []] == s.blocked[io := []]
  {
    assert s.blocked[io][0] in s.blocked[io];
  }

  /** A signal wakes every task that waits for the device: its queue ends up empty, each
      task joins the ready queue of its priority behind those already there, and within a
      priority in the order in which they began to wait. */
  lemma {:induction false} DrainedIsWoken(s: Sched, io: nat)
    requires Conserved(s) && io < MAX_EVENTS
    ensures Formed(Drained(s, io)) && Woken(s, io, Drained(s, io))
    decreases |s.blocked[io]|
  {
    if s.blocked[io] == [] {
      assert s.blocked[io := []] == s.blocked;
    } else {
      DrainStepConserved(s, io);
      DrainedIsWoken(DrainStep(s, io), io);
      WokenStep(s, io, Drained(s, io));
    }
  }

  // Bounded waiting.

  /** Task x is k places from the front of the running task's own priority, none higher is
      ready, and the running task has n units of quantum left. */
  ghost predicate InLine(s: Sched, p: nat, k: nat, n: nat, x: Id) {
    && Conserved(s) && Paced(s) && !s.mainRunning && !s.Current().workDone
    && s.Current().priority == p && s.Current().quantum == n
    && k < |s.ready[p]| && s.ready[p][k] == x
    && forall q :: p < q <= MAX_PRIO ==> s.ready[q] == []
  }

  /** A legal call that makes no task above a priority ready. */
  predicate Low(s: Sched, op: Op, p: nat) {
    && Formed(s) && MayCall(s, op) && Accepts(s, op)
    && match op
       case Fork(q) => q <= p && |s.tasks| <= MAX_SIZE
       case Signal(io) => forall t :: t in s.blocked[io] ==> t < |s.tasks| && s.tasks[t].priority <= p
       case _ => true
  }

  function Measure(s: Sched, k: nat, n: nat): nat { k * s.timeQuantum + n }

  lemma {:induction false} NoneOfPriority(tasks: seq<Task>, q: seq<Id>, p: nat)
    requires forall t :: t in q ==> t < |tasks| && tasks[t].priority != p
    ensures OfPriority(tasks, q, p) == []
  {
    if q != [] {
      assert q[0] in q && forall t :: t in q[1..] ==> t in q;
      NoneOfPriority(tasks, q[1..], p);
    }
  }

  /** The line, as it is when check_scheduler looks at it. */
  ghost predicate Lined(s: Sched, p: nat, k: nat, x: Id) {
    && Midway(s) && !s.mainRunning && s.Current().priority == p
    && k < |s.ready[p]| && s.ready[p][k] == x
    && forall q :: p < q <= MAX_PRIO ==> s.ready[q] == []
  }

  lemma SignalLined(s: Sched, io: nat, p: nat, k: nat, n: nat, x: Id)
    requires InLine(s, p, k, n, x) && Low(s, Signal(io), p)
    ensures Lined(Drained(s, io), p, k, x) && Drained(s, io).Current() == s.Current()
    ensures Drained(s, io).timeQuantum == s.timeQuantum
  {
    DrainedConserved(s, io);
    DrainedIsWoken(s, io);
    DrainedPaced(s, io);
    forall q | p < q <= MAX_PRIO
      ensures Drained(s, io).ready[q] == []
    {
      NoneOfPriority(s.tasks, s.blocked[io], q);
    }
  }

  /** The first part of a call leaves the line as it is, but for newcomers behind it. */
  lemma PreparedLined(s: Sched, op: Op, p: nat, k: nat, n: nat, x: Id)
    requires InLine(s, p, k, n, x) && Low(s, op, p) && Formed(Prepared(s, op)) && Midway(Prepared(s, op))
    ensures var u := Prepared(s, op);
            && Lined(u, p, k, x) && u.Current().quantum == n && u.timeQuantum == s.timeQuantum
            && u.Current().workDone == op.Finish? && (u.Current().waiting <==> op.Wait?)
  {
    match op
    case Signal(io) => SignalLined(s, io, p, k, n, x);
    case _ =>
  }

  lemma DecreaseLined(s: Sched, p: nat, k: nat, n: nat, x: Id)
    requires Lined(s, p, k, x) && s.Current().quantum == n && 1 <= n
    ensures var u := Decrease(s);
            Lined(u, p, k, x) && u.Current() == s.Current().(quantum := n - 1) && u.timeQuantum == s.timeQuantum
  {
    DecreaseMidway(s);
  }

  lemma LinedTop(s: Sched, p: nat, k: nat, x: Id)
    requires Lined(s, p, k, x)
    ensures Top(s.ready) == p + 1
  {}

  lemma RequeuedLined(s: Sched, p: nat, k: nat, x: Id)
    requires Lined(s, p, k, x) && Yields(s)
    ensures var u := Requeued(s);
            && Formed(u) && Top(u.ready) == p + 1 && k < |u.ready[p]| && u.ready[p][k] == x
            && u.timeQuantum == s.timeQuantum && (forall q :: p < q <= MAX_PRIO ==> u.ready[q] == [])
  {
    RequeuedFormed(s);
    TopIs(Requeued(s).ready, p + 1);
  }

  /** The running task must give way: the line moves up by one. */
  lemma LineMoves(s: Sched, p: nat, k: nat, x: Id)
    requires Lined(s, p, k, x) && Yields(s) && Conserved(Check(s)) && Paced(Check(s))
    ensures k == 0 ==> Check(s).running == x
    ensures k > 0 ==> InLine(Check(s), p, k - 1, s.timeQuantum, x) && Check(s).timeQuantum == s.timeQuantum
  {
    CheckPicksHighest(s);
    RequeuedLined(s, p, k, x);
    RequeuedBalanced(s);
    LineMovesUp(Requeued(s), p, k, x);
  }

  lemma LineMovesUp(u: Sched, p: nat, k: nat, x: Id)
    requires Formed(u) && p <= MAX_PRIO && k < |u.ready[p]| && u.ready[p][k] == x
    requires forall q :: p < q <= MAX_PRIO ==> u.ready[q] == []
    requires Conserved(TakeOver(u, p)) && Paced(TakeOver(u, p)) && Sorted(u) && Balanced(u, multiset{})
    ensures k == 0 ==> TakeOver(u, p).running == x
    ensures k > 0 ==> InLine(TakeOver(u, p), p, k - 1, u.timeQuantum, x) && TakeOver(u, p).timeQuantum == u.timeQuantum
  {
    var t := u.ready[p][0];
    assert t in u.ready[p];
    InReady(u, p, t);
    assert Queued(u)[t] + multiset{}[t] > 0 && t in Unfinished(u);
  }

  /** The running task goes on. */
  lemma LineStays(s: Sched, p: nat, k: nat, n: nat, x: Id)
    requires Lined(s, p, k, x) && !Yields(s) && s.Current().quantum == n && Conserved(Check(s)) && Paced(Check(s))
    ensures InLine(Check(s), p, k, n, x) && Check(s).timeQuantum == s.timeQuantum
  {
    CheckPicksHighest(s);
    LinedTop(s, p, k, x);
  }

  /** Where the line stands after a call. */
  ghost predicate Advanced(s: Sched, p: nat, x: Id, before: nat, k: nat, n: nat) {
    InLine(s, p, k, n, x) && Measure(s, k, n) < before
  }

  lemma {:induction false} LineAdvances(s: Sched, op: Op, p: nat, k: nat, n: nat, x: Id) returns (k': nat, n': nat)
    requires InLine(s, p, k, n, x) && Low(s, op, p)
    ensures Apply(s, op).running == x || Advanced(Apply(s, op), p, x, Measure(s, k, n), k', n')
  {
    var u := BeforeCheck(s, op, p, k, n, x);
    if Yields(u) {
      LineMoves(u, p, k, x);
      if k == 0 { k', n' := 0, 0; } else { k', n' := k - 1, s.timeQuantum; }
      MeasureDrops(k, n, s.timeQuantum);
    } else {
      LineStays(u, p, k, n - 1, x);
      k', n' := k, n - 1;
    }
  }

  lemma MeasureDrops(k: nat, n: nat, quantum: nat)
    requires n >= 1
    ensures k > 0 ==> (k - 1) * quantum + quantum < k * quantum + n
  {
    assert (k - 1) * quantum == k * quantum - quantum;
  }

  /** The state that check_scheduler sees in a call. */
  lemma {:induction false} BeforeCheck(s: Sched, op: Op, p: nat, k: nat, n: nat, x: Id) returns (u: Sched)
    requires InLine(s, p, k, n, x) && Low(s, op, p)
    ensures Lined(u, p, k, x) && Apply(s, op) == Check(u) && Conserved(Check(u)) && Paced(Check(u))
    ensures u.timeQuantum == s.timeQuantum && (!Yields(u) ==> u.Current().quantum == n - 1)
  {
    TopIs(s.ready, p + 1);
    ApplyConserved(s, op);
    PreparedMidway(s, op);
    u := Prepared(s, op);
    PreparedLined(s, op, p, k, n, x);
    if !op.Finish? {
      DecreaseLined(u, p, k, n, x);
      u := Decrease(u);
    }
  }

  lemma {:induction false} AfterFirst(s: Sched, ops: seq<Op>)
    requires ops != []
    ensures After(s, ops) == After(Next(s, ops[0]), ops[1..])
  {
    var init := ops[..|ops| - 1];
    if init != [] {
      AfterFirst(s, init);
      assert ops[1..][..|ops| - 2] == init[1..];
    }
  }

  lemma AfterOneMore(s: Sched, ops: seq<Op>, i: nat)
    requires i < |ops|
    ensures After(s, ops[..i + 1]) == After(Next(s, ops[0]), ops[1..][..i])
  {
    AfterFirst(s, ops[..i + 1]);
    assert ops[..i + 1][1..] == ops[1..][..i];
  }

  predicate LowRun(s: Sched, ops: seq<Op>, p: nat) {
    forall i :: 0 <= i < |ops| ==> Low(After(s, ops[..i]), ops[i], p)
  }

  lemma LowTail(s: Sched, ops: seq<Op>, p: nat)
    requires LowRun(s, ops, p) && ops != []
    ensures Low(s, ops[0], p) && LowRun(Next(s, ops[0]), ops[1..], p)
  {
    assert After(s, ops[..0]) == s;
    forall i | 0 <= i < |ops| - 1
      ensures Low(After(Next(s, ops[0]), ops[1..][..i]), ops[1..][i], p)
    {
      AfterOneMore(s, ops, i);
      assert Low(After(s, ops[..i + 1]), ops[i + 1], p);
    }
  }

  lemma {:induction false} LineSteps(s: Sched, op: Op, p: nat, k: nat, n: nat, x: Id) returns (k': nat, n': nat)
    requires InLine(s, p, k, n, x) && Low(s, op, p)
    ensures Next(s, op).running == x || Advanced(Next(s, op), p, x, Measure(s, k, n), k', n')
  {
    hide Apply;
    k', n' := LineAdvances(s, op, p, k, n, x);
  }

  lemma {:induction false} FirstStepArrives(s: Sched, ops: seq<Op>, x: Id)
    requires ops != [] && Next(s, ops[0]).running == x
    ensures After(s, ops[..1]).running == x
  {
    hide Next;
    AfterOneMore(s, ops, 0);
    assert ops[1..][..0] == [];
  }

  /** Round robin without starvation: while no task of a higher priority becomes ready, a
      task at place k of the ready queue of the running task's priority, which has n units
      left, is running after at most k * timeQuantum + n calls. */
  lemma {:induction false} BoundedWaiting(s: Sched, p: nat, k: nat, n: nat, x: Id, ops: seq<Op>) returns (j: nat)
    requires InLine(s, p, k, n, x) && |ops| >= Measure(s, k, n) && LowRun(s, ops, p)
    ensures j <= Measure(s, k, n) && After(s, ops[..j]).running == x
    decreases Measure(s, k, n)
  {
    assert ops != [];
    hide Next, After, LowRun, Low;
    LowTail(s, ops, p);
    var k', n' := LineSteps(s, ops[0], p, k, n, x);
    if Next(s, ops[0]).running == x {
      FirstStepArrives(s, ops, x);
      j := 1;
    } else {
      var i := BoundedWaiting(Next(s, ops[0]), p, k', n', x, ops[1..]);
      AfterOneMore(s, ops, i);
      j := i + 1;
    }
  }
}
