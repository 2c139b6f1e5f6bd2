/** The preemptive round-robin scheduler as functions on its state: every library call is
    one atomic operation here; that interleaved threads amount to this is proved in
    SchedThreads, that the imperative code computes it in SchedObject. */
module SchedModel {
  import opened CircularQueues

  const MAX_PRIO: nat := 5
  const MAX_EVENTS: nat := 256
  const WORD: nat := 0x1_0000_0000

  /** A thread structure, by its index in order of creation; the main thread's is 0. */
  type Id = nat

  const MAIN: Id := 0

  datatype Task = Task(priority: nat, quantum: nat, waiting: bool, workDone: bool)

  datatype Sched = Sched(
    timeQuantum: nat,
    io: nat,
    running: Id,
    mainRunning: bool,
    tasks: seq<Task>,
    ready: seq<seq<Id>>,
    blocked: seq<seq<Id>>)
  {
    function Current(): Task
      requires running < |tasks|
    {
      tasks[running]
    }

    function Set(t: Id, k: Task): Sched
      requires t < |tasks|
    {
      this.(tasks := tasks[t := k])
    }

    function Ready(p: nat, t: Id): Sched
      requires p < |ready|
    {
      this.(ready := ready[p := Enqueued(ready[p], t)])
    }

    function Unready(p: nat): Sched
      requires p < |ready|
    {
      this.(ready := ready[p := Dequeued(ready[p])])
    }

    function Block(io: nat, t: Id): Sched
      requires io < |blocked|
    {
      this.(blocked := blocked[io := Enqueued(blocked[io], t)])
    }

    function Unblock(io: nat): Sched
      requires io < |blocked|
    {
      this.(blocked := blocked[io := Dequeued(blocked[io])])
    }
  }

  predicate FormedTask(k: Task) { k.priority <= MAX_PRIO && k.quantum < WORD }

  predicate FormedQueue(q: seq<Id>, n: nat) { |q| <= MAX_SIZE && forall t :: t in q ==> 1 <= t < n }

  /** The shape of the state: every index and every counter in its range. */
  predicate Formed(s: Sched) {
    && |s.ready| == MAX_PRIO + 1 && |s.blocked| == MAX_EVENTS
    && 1 <= s.timeQuantum < WORD && s.io <= MAX_EVENTS && s.running < |s.tasks|
    && s.mainRunning == (s.running == MAIN)
    && (forall t :: 0 <= t < |s.tasks| ==> FormedTask(s.tasks[t]))
    && (forall p :: 0 <= p < |s.ready| ==> FormedQueue(s.ready[p], |s.tasks|))
    && (forall d :: 0 <= d < |s.blocked| ==> FormedQueue(s.blocked[d], |s.tasks|))
  }

  // so_init.

  const MAIN_TASK := Task(0, 0, false, false)

  function Empty(n: nat): seq<seq<Id>> { seq(n, i => []) }

  function Init(timeQuantum: nat, io: nat): Sched {
    Sched(timeQuantum, io, MAIN, true, [MAIN_TASK], Empty(MAX_PRIO + 1), Empty(MAX_EVENTS))
  }

  predicate ValidInit(timeQuantum: nat, io: nat) { 0 < timeQuantum < WORD && io <= MAX_EVENTS }

  // check_scheduler.

  /** The new running task, with a whole quantum. */
  function Dispatch(s: Sched, t: Id): Sched
    requires t < |s.tasks|
  {
    s.Set(t, s.tasks[t].(quantum := s.timeQuantum)).(running := t)
  }

  /** The running task is not a candidate any more. */
  predicate Gone(s: Sched)
    requires Formed(s)
  {
    s.Current().quantum == 0 || s.Current().workDone
  }

  function Requeued(s: Sched): Sched
    requires Formed(s)
  {
    var c := s.Current();
    if Gone(s) && s.running != MAIN && !c.workDone && !c.waiting then s.Ready(c.priority, s.running) else s
  }

  /** The loop over the ready queues, from priority i - 1 down. */
  function Scan(s: Sched, gone: bool, i: nat): Sched
    requires Formed(s) && i <= |s.ready|
  {
    if i == 0 then s
    else if s.ready[i - 1] == [] then Scan(s, gone, i - 1)
    else
      var t, c := s.ready[i - 1][0], s.Current();
      assert t in s.ready[i - 1];
      if gone || s.mainRunning || c.waiting then Dispatch(s.Unready(i - 1).(mainRunning := false), t)
      else if s.tasks[t].priority > c.priority then
        var u := s.Unready(i - 1);
        Dispatch(if !c.workDone && !c.waiting then u.Ready(c.priority, s.running) else u, t)
      else Scan(s, gone, i - 1)
  }

  // The shape is kept.

  lemma DequeuedFormed(q: seq<Id>, n: nat)
    requires FormedQueue(q, n)
    ensures FormedQueue(Dequeued(q), n)
  {
    if q != [] { assert forall t :: t in q[1..] ==> t in q; }
  }

  lemma SetFormed(s: Sched, t: Id, k: Task)
    requires Formed(s) && t < |s.tasks| && FormedTask(k)
    ensures Formed(s.Set(t, k))
  {}

  lemma ReadyFormed(s: Sched, p: nat, t: Id)
    requires Formed(s) && p <= MAX_PRIO && 1 <= t < |s.tasks|
    ensures Formed(s.Ready(p, t))
  {}

  lemma UnreadyFormed(s: Sched, p: nat)
    requires Formed(s) && p <= MAX_PRIO
    ensures Formed(s.Unready(p))
  {
    DequeuedFormed(s.ready[p], |s.tasks|);
  }

  lemma BlockFormed(s: Sched, io: nat, t: Id)
    requires Formed(s) && io < MAX_EVENTS && 1 <= t < |s.tasks|
    ensures Formed(s.Block(io, t))
  {}

  lemma UnblockFormed(s: Sched, io: nat)
    requires Formed(s) && io < MAX_EVENTS
    ensures Formed(s.Unblock(io))
  {
    DequeuedFormed(s.blocked[io], |s.tasks|);
  }

  lemma DispatchFormed(s: Sched, t: Id)
    requires Formed(s) && 1 <= t < |s.tasks|
    ensures Formed(Dispatch(s, t).(mainRunning := false))
  {}

  lemma RequeuedFormed(s: Sched)
    requires Formed(s)
    ensures Formed(Requeued(s))
  {
    if s.running != MAIN { ReadyFormed(s, s.Current().priority, s.running); }
  }

  function Check(s: Sched): Sched
    requires Formed(s)
  {
    RequeuedFormed(s);
    Scan(Requeued(s), Gone(s), |s.ready|)
  }

  // decrease_quantum.

  /** One unit less, in unsigned arithmetic. */
  function Decrease(s: Sched): Sched
    requires Formed(s)
  {
    var c := s.Current();
    s.Set(s.running, c.(quantum := (c.quantum + WORD - 1) % WORD))
  }

  // The calls.

  datatype Op = Fork(priority: nat) | Wait(io: nat) | Signal(io: nat) | Exec | Finish

  /** The call is made with arguments that the library accepts. */
  predicate Accepts(s: Sched, op: Op) {
    match op
    case Fork(p) => p <= MAX_PRIO
    case Wait(io) => io < s.io
    case Signal(io) => io < s.io
    case _ => true
  }

  /** so_fork, up to the new task's structure. */
  function Created(s: Sched, p: nat): Sched { s.(tasks := s.tasks + [Task(p, s.timeQuantum, false, false)]) }

  /** so_signal's loop. */
  function Drained(s: Sched, io: nat): Sched
    requires Formed(s) && io < |s.blocked|
    decreases |s.blocked[io]|
  {
    if s.blocked[io] == [] then s
    else
      assert s.blocked[io][0] in s.blocked[io];
      DrainStepFormed(s, io);
      Drained(DrainStep(s, io), io)
  }

  function DrainStep(s: Sched, io: nat): Sched
    requires Formed(s) && io < |s.blocked| && s.blocked[io] != []
  {
    var t := s.blocked[io][0];
    assert t in s.blocked[io];
    s.Unblock(io).Set(t, s.tasks[t].(waiting := false)).Ready(s.tasks[t].priority, t)
  }

  lemma DrainStepFormed(s: Sched, io: nat)
    requires Formed(s) && io < |s.blocked| && s.blocked[io] != []
    ensures Formed(DrainStep(s, io))
  {
    var t := s.blocked[io][0];
    assert t in s.blocked[io];
    var u := s.Unblock(io);
    UnblockFormed(s, io);
    SetFormed(u, t, s.tasks[t].(waiting := false));
    ReadyFormed(u.Set(t, s.tasks[t].(waiting := false)), s.tasks[t].priority, t);
  }

  /** What a call does before the quantum is decreased. */
  function Prepared(s: Sched, op: Op): Sched
    requires Formed(s) && Accepts(s, op)
  {
    match op
    case Fork(p) => Created(s, p).Ready(p, |s.tasks|)
    case Wait(io) => s.Set(s.running, s.Current().(waiting := true)).Block(io, s.running)
    case Signal(io) => Drained(s, io)
    case Exec => s
    case Finish => s.Set(s.running, s.Current().(workDone := true))
  }

  function Apply(s: Sched, op: Op): Sched
    requires Formed(s) && MayCall(s, op)
  {
    if !Accepts(s, op) then s
    else
      PreparedFormed(s, op);
      if op.Finish? then Check(Prepared(s, op))
      else
        DecreaseFormed(Prepared(s, op));
        Check(Decrease(Prepared(s, op)))
  }

  /** The calling task is alive; the main thread only forks. */
  predicate MayCall(s: Sched, op: Op)
    requires Formed(s)
  {
    !s.Current().workDone && (s.running == MAIN ==> op.Fork?)
  }

  lemma DecreaseFormed(s: Sched)
    requires Formed(s)
    ensures Formed(Decrease(s))
  {
    SetFormed(s, s.running, s.Current().(quantum := (s.Current().quantum + WORD - 1) % WORD));
  }

  lemma CreatedFormed(s: Sched, p: nat)
    requires Formed(s) && p <= MAX_PRIO
    ensures Formed(Created(s, p))
  {}

  lemma {:induction false} DrainedFormed(s: Sched, io: nat)
    requires Formed(s) && io < MAX_EVENTS
    ensures Formed(Drained(s, io)) && Drained(s, io).running == s.running
    decreases |s.blocked[io]|
  {
    if s.blocked[io] != [] {
      DrainStepFormed(s, io);
      DrainedFormed(DrainStep(s, io), io);
    }
  }

  lemma {:induction false} PreparedFormed(s: Sched, op: Op)
    requires Formed(s) && MayCall(s, op) && Accepts(s, op)
    ensures Formed(Prepared(s, op)) && Prepared(s, op).running == s.running
  {
    match op
    case Fork(p) =>
      CreatedFormed(s, p);
      ReadyFormed(Created(s, p), p, |s.tasks|);
    case Wait(io) =>
      SetFormed(s, s.running, s.Current().(waiting := true));
      BlockFormed(s.Set(s.running, s.Current().(waiting := true)), io, s.running);
    case Signal(io) => DrainedFormed(s, io);
    case Exec =>
    case Finish => SetFormed(s, s.running, s.Current().(workDone := true));
  }

  // What check_scheduler decides.

  /** The highest priority with a ready task, plus one; 0 when no task is ready. */
  function Top(ready: seq<seq<Id>>): (i: nat)
    ensures i <= |ready| && (i > 0 ==> ready[i - 1] != [])
    ensures forall p :: i <= p < |ready| ==> ready[p] == []
  {
    if ready == [] then 0
    else if ready[|ready| - 1] != [] then |ready|
    else Top(ready[..|ready| - 1])
  }

  /** A ready queue holds tasks of its own priority. */
  predicate Sorted(s: Sched)
    requires Formed(s)
  {
    forall p, t :: 0 <= p <= MAX_PRIO && t in s.ready[p] ==> s.tasks[t].priority == p
  }

  /** The running task has to give way to any ready one. */
  predicate Yields(s: Sched)
    requires Formed(s)
  {
    Gone(s) || s.mainRunning || s.Current().waiting
  }

  /** The front task of a ready queue takes over. */
  function TakeOver(s: Sched, p: nat): Sched
    requires Formed(s) && p <= MAX_PRIO && s.ready[p] != []
  {
    assert s.ready[p][0] in s.ready[p];
    Dispatch(s.Unready(p).(mainRunning := false), s.ready[p][0])
  }

  /** The front task of a ready queue takes over from one that could go on. */
  function Overtake(s: Sched, p: nat): Sched
    requires Formed(s) && p <= MAX_PRIO && s.ready[p] != []
  {
    assert s.ready[p][0] in s.ready[p];
    Dispatch(s.Unready(p).Ready(s.Current().priority, s.running), s.ready[p][0])
  }

  lemma TopStep(ready: seq<seq<Id>>, i: nat)
    requires 0 < i <= |ready|
    ensures Top(ready[..i]) == if ready[i - 1] != [] then i else Top(ready[..i - 1])
  {
    assert ready[..i][..i - 1] == ready[..i - 1] && ready[..i][i - 1] == ready[i - 1];
  }

  /** The front task of a ready queue takes over from one that it outranks. */
  function Outranked(s: Sched, p: nat): Sched
    requires Formed(s) && p <= MAX_PRIO && s.ready[p] != []
  {
    assert s.ready[p][0] in s.ready[p];
    var c, u := s.Current(), s.Unready(p);
    Dispatch(if !c.workDone && !c.waiting then u.Ready(c.priority, s.running) else u, s.ready[p][0])
  }

  /** One turn of the loop. */
  lemma ScanFront(s: Sched, gone: bool, i: nat)
    requires Formed(s) && i <= MAX_PRIO && s.ready[i] != []
    ensures s.ready[i][0] < |s.tasks|
    ensures Scan(s, gone, i + 1)
            == if gone || s.mainRunning || s.Current().waiting then TakeOver(s, i)
               else if s.tasks[s.ready[i][0]].priority > s.Current().priority then Outranked(s, i)
               else Scan(s, gone, i)
  {
    assert s.ready[i][0] in s.ready[i];
  }

  lemma ScanSkips(s: Sched, gone: bool, i: nat)
    requires Formed(s) && i <= MAX_PRIO && s.ready[i] == []
    ensures Scan(s, gone, i + 1) == Scan(s, gone, i)
  {}

  lemma ScanNothing(s: Sched, gone: bool)
    requires Formed(s)
    ensures Scan(s, gone, 0) == s && Top(s.ready[..0]) == 0
  {}

  lemma {:induction false} ScanYields(s: Sched, gone: bool, i: nat)
    requires Formed(s) && i <= |s.ready| && (gone || s.mainRunning || s.Current().waiting)
    ensures Top(s.ready[..i]) == 0 ==> Scan(s, gone, i) == s
    ensures Top(s.ready[..i]) > 0 ==> Scan(s, gone, i) == TakeOver(s, Top(s.ready[..i]) - 1)
  {
    hide Scan, TakeOver, Outranked;
    if i == 0 {
      ScanNothing(s, gone);
    } else {
      TopStep(s.ready, i);
      if s.ready[i - 1] == [] {
        ScanSkips(s, gone, i - 1);
        ScanYields(s, gone, i - 1);
      } else {
        ScanFront(s, gone, i - 1);
      }
    }
  }

  lemma {:induction false} ScanStays(s: Sched, i: nat)
    requires Formed(s) && Sorted(s) && i <= |s.ready| && !s.mainRunning && !s.Current().waiting
    requires Top(s.ready[..i]) <= s.Current().priority + 1
    ensures Scan(s, false, i) == s
  {
    hide Scan, TakeOver, Outranked;
    if i == 0 {
      ScanNothing(s, false);
    } else {
      TopStep(s.ready, i);
      if s.ready[i - 1] == [] {
        ScanSkips(s, false, i - 1);
      } else {
        assert s.ready[i - 1][0] in s.ready[i - 1];
        ScanFront(s, false, i - 1);
      }
      ScanStays(s, i - 1);
    }
  }

  lemma {:induction false} ScanPreempts(s: Sched, i: nat)
    requires Formed(s) && Sorted(s) && i <= |s.ready| && !s.mainRunning && !s.Current().waiting && !s.Current().workDone
    requires Top(s.ready[..i]) > s.Current().priority + 1
    ensures Scan(s, false, i) == Overtake(s, Top(s.ready[..i]) - 1)
  {
    hide Scan, TakeOver, Dispatch;
    if i == 0 {
      ScanNothing(s, false);
    } else {
      TopStep(s.ready, i);
      if s.ready[i - 1] == [] {
        ScanSkips(s, false, i - 1);
        ScanPreempts(s, i - 1);
      } else {
        assert s.ready[i - 1][0] in s.ready[i - 1];
        ScanFront(s, false, i - 1);
      }
    }
  }

  lemma TakeOverFormed(s: Sched, p: nat)
    requires Formed(s) && p <= MAX_PRIO && s.ready[p] != []
    ensures Formed(TakeOver(s, p))
  {
    assert s.ready[p][0] in s.ready[p];
    UnreadyFormed(s, p);
    DispatchFormed(s.Unready(p), s.ready[p][0]);
  }

  lemma OvertakeFormed(s: Sched, p: nat, requeue: bool)
    requires Formed(s) && !s.mainRunning && p <= MAX_PRIO && s.ready[p] != []
    ensures s.ready[p][0] < |s.tasks|
    ensures var u := if requeue then s.Unready(p).Ready(s.Current().priority, s.running) else s.Unready(p);
            Formed(Dispatch(u, s.ready[p][0]))
  {
    assert s.ready[p][0] in s.ready[p];
    UnreadyFormed(s, p);
    ReadyFormed(s.Unready(p), s.Current().priority, s.running);
    var u := if requeue then s.Unready(p).Ready(s.Current().priority, s.running) else s.Unready(p);
    DispatchFormed(u, s.ready[p][0]);
  }

  lemma {:induction false} ScanFormed(s: Sched, gone: bool, i: nat)
    requires Formed(s) && i <= |s.ready|
    ensures Formed(Scan(s, gone, i))
  {
    if i > 0 {
      if s.ready[i - 1] == [] {
        ScanFormed(s, gone, i - 1);
      } else if gone || s.mainRunning || s.Current().waiting {
        TakeOverFormed(s, i - 1);
      } else {
        OvertakeFormed(s, i - 1, !s.Current().workDone && !s.Current().waiting);
        ScanFormed(s, gone, i - 1);
      }
    }
  }

  lemma CheckFormed(s: Sched)
    requires Formed(s)
    ensures Formed(Check(s))
  {
    RequeuedFormed(s);
    ScanFormed(Requeued(s), Gone(s), |s.ready|);
  }

  /** check_scheduler in one: a task that must give way, once back in its queue if it is
      only out of quantum, is followed by the front of the highest queue with a task; any
      other only by one of a strictly higher priority, behind whose queue it waits. */
  lemma {:induction false} CheckPicksHighest(s: Sched)
    requires Formed(s) && Sorted(s)
    ensures Formed(Requeued(s))
    ensures var u, top := Requeued(s), Top(Requeued(s).ready);
            && (Yields(s) && top == 0 ==> Check(s) == u)
            && (Yields(s) && top > 0 ==> Check(s) == TakeOver(u, top - 1))
            && (!Yields(s) && top <= s.Current().priority + 1 ==> Check(s) == s)
            && (!Yields(s) && top > s.Current().priority + 1 ==>
                  Check(s) == Overtake(s, top - 1))
  {
    RequeuedFormed(s);
    var u := Requeued(s);
    assert u.ready[..|u.ready|] == u.ready;
    if Yields(s) {
      ScanYields(u, Gone(s), |u.ready|);
    } else if Top(u.ready) <= s.Current().priority + 1 {
      ScanStays(u, |u.ready|);
    } else {
      ScanPreempts(u, |u.ready|);
    }
  }
}
