/** What every run of the scheduler keeps: no ready task outranks the running one, every
    task is in exactly one place, and the running task has quantum left. */
module SchedInvariant {
  import opened CircularQueues
  import opened SchedModel

  /** One call; a call that the running task cannot make changes nothing. */
  function Next(s: Sched, op: Op): Sched { if Formed(s) && MayCall(s, op) then Apply(s, op) else s }

  function After(s: Sched, ops: seq<Op>): Sched {
    if ops == [] then s else Next(After(s, ops[..|ops| - 1]), ops[|ops| - 1])
  }

  // Priority order.

  /** A task that executes handler code is outranked by no ready task. */
  predicate Orderly(s: Sched) {
    && Formed(s) && Sorted(s)
    && (!s.mainRunning && !s.Current().workDone ==> Top(s.ready) <= s.Current().priority + 1)
  }

  lemma SetSorted(s: Sched, t: Id, k: Task)
    requires Formed(s) && Sorted(s) && t < |s.tasks| && FormedTask(k) && k.priority == s.tasks[t].priority
    ensures Formed(s.Set(t, k)) && Sorted(s.Set(t, k))
  {}

  lemma ReadySorted(s: Sched, p: nat, t: Id)
    requires Formed(s) && Sorted(s) && p <= MAX_PRIO && 1 <= t < |s.tasks| && s.tasks[t].priority == p
    ensures Formed(s.Ready(p, t)) && Sorted(s.Ready(p, t))
  {}

  lemma UnreadySorted(s: Sched, p: nat)
    requires Formed(s) && Sorted(s) && p <= MAX_PRIO
    ensures Formed(s.Unready(p)) && Sorted(s.Unready(p))
  {
    UnreadyFormed(s, p);
    if s.ready[p] != [] { assert forall t :: t in s.ready[p][1..] ==> t in s.ready[p]; }
  }

  lemma DispatchSorted(s: Sched, t: Id)
    requires Formed(s) && Sorted(s) && 1 <= t < |s.tasks|
    ensures var u := Dispatch(s, t).(mainRunning := false); Formed(u) && Sorted(u)
  {}

  lemma DrainStepSorted(s: Sched, io: nat)
    requires Formed(s) && Sorted(s) && io < MAX_EVENTS && s.blocked[io] != []
    ensures Formed(DrainStep(s, io)) && Sorted(DrainStep(s, io))
  {
    var t := s.blocked[io][0];
    assert t in s.blocked[io];
    var u := s.Unblock(io);
    UnblockFormed(s, io);
    SetSorted(u, t, s.tasks[t].(waiting := false));
    ReadySorted(u.Set(t, s.tasks[t].(waiting := false)), s.tasks[t].priority, t);
  }

  lemma {:induction false} DrainedSorted(s: Sched, io: nat)
    requires Formed(s) && Sorted(s) && io < MAX_EVENTS
    ensures Formed(Drained(s, io)) && Sorted(Drained(s, io))
    decreases |s.blocked[io]|
  {
    if s.blocked[io] != [] {
      DrainStepSorted(s, io);
      DrainedSorted(DrainStep(s, io), io);
    }
  }

  lemma CreatedSorted(s: Sched, p: nat)
    requires Formed(s) && Sorted(s) && p <= MAX_PRIO
    ensures Formed(Created(s, p)) && Sorted(Created(s, p))
  {
    CreatedFormed(s, p);
  }

  lemma {:induction false} PreparedSorted(s: Sched, op: Op)
    requires Formed(s) && Sorted(s) && MayCall(s, op) && Accepts(s, op)
    ensures Formed(Prepared(s, op)) && Sorted(Prepared(s, op))
  {
    PreparedFormed(s, op);
    match op
    case Fork(p) =>
      CreatedSorted(s, p);
      ReadySorted(Created(s, p), p, |s.tasks|);
    case Wait(io) => SetSorted(s, s.running, s.Current().(waiting := true));
    case Signal(io) => DrainedSorted(s, io);
    case Exec =>
    case Finish => SetSorted(s, s.running, s.Current().(workDone := true));
  }

  lemma DecreaseSorted(s: Sched)
    requires Formed(s) && Sorted(s)
    ensures Formed(Decrease(s)) && Sorted(Decrease(s))
  {
    DecreaseFormed(s);
  }

  lemma {:induction false} TopIs(ready: seq<seq<Id>>, i: nat)
    requires i <= |ready| && (i > 0 ==> ready[i - 1] != [])
    requires forall p :: i <= p < |ready| ==> ready[p] == []
    ensures Top(ready) == i
  {
    if |ready| > i { TopIs(ready[..|ready| - 1], i); }
  }

  lemma TopAtMost(ready: seq<seq<Id>>, i: nat)
    requires forall p :: i <= p < |ready| ==> ready[p] == []
    ensures Top(ready) <= i
  {}

  lemma TakeOverOrderly(s: Sched)
    requires Formed(s) && Sorted(s) && Top(s.ready) > 0
    ensures Orderly(TakeOver(s, Top(s.ready) - 1))
  {
    var p := Top(s.ready) - 1;
    assert s.ready[p][0] in s.ready[p];
    UnreadySorted(s, p);
    DispatchSorted(s.Unready(p), s.ready[p][0]);
    TopAtMost(s.Unready(p).ready, p + 1);
  }

  lemma OvertakeOrderly(s: Sched)
    requires Formed(s) && Sorted(s) && !Yields(s) && Top(s.ready) > s.Current().priority + 1
    ensures Orderly(Overtake(s, Top(s.ready) - 1))
  {
    var p, c := Top(s.ready) - 1, s.Current().priority;
    assert s.ready[p][0] in s.ready[p];
    UnreadySorted(s, p);
    ReadySorted(s.Unready(p), c, s.running);
    DispatchSorted(s.Unready(p).Ready(c, s.running), s.ready[p][0]);
    TopAtMost(s.Unready(p).Ready(c, s.running).ready, p + 1);
  }

  lemma RequeuedSorted(s: Sched)
    requires Formed(s) && Sorted(s)
    ensures Formed(Requeued(s)) && Sorted(Requeued(s))
  {
    RequeuedFormed(s);
    if s.running != MAIN { ReadySorted(s, s.Current().priority, s.running); }
  }

  lemma CheckOrderly(s: Sched)
    requires Formed(s) && Sorted(s)
    ensures Orderly(Check(s))
  {
    CheckPicksHighest(s);
    RequeuedSorted(s);
    if Yields(s) && Top(Requeued(s).ready) > 0 {
      TakeOverOrderly(Requeued(s));
    } else if !Yields(s) && Top(s.ready) > s.Current().priority + 1 {
      OvertakeOrderly(s);
    }
  }

  lemma {:induction false} ApplyOrderly(s: Sched, op: Op)
    requires Orderly(s) && MayCall(s, op)
    ensures Orderly(Apply(s, op))
  {
    if Accepts(s, op) {
      PreparedSorted(s, op);
      DecreaseSorted(Prepared(s, op));
      CheckOrderly(if op.Finish? then Prepared(s, op) else Decrease(Prepared(s, op)));
    }
  }

  lemma InitOrderly(timeQuantum: nat, io: nat)
    requires ValidInit(timeQuantum, io)
    ensures Orderly(Init(timeQuantum, io))
  {}

  /** Over every run, whatever is called: while a task executes handler code, no ready
      queue holds a task of a strictly higher priority. */
  lemma {:induction false} PriorityAlways(timeQuantum: nat, io: nat, ops: seq<Op>)
    requires ValidInit(timeQuantum, io)
    ensures Orderly(After(Init(timeQuantum, io), ops))
  {
    if ops == [] {
      InitOrderly(timeQuantum, io);
    } else {
      var s := After(Init(timeQuantum, io), ops[..|ops| - 1]);
      PriorityAlways(timeQuantum, io, ops[..|ops| - 1]);
      if MayCall(s, ops[|ops| - 1]) { ApplyOrderly(s, ops[|ops| - 1]); }
    }
  }

  // Conservation.

  function Flat(qs: seq<seq<Id>>): multiset<Id> {
    if qs == [] then multiset{} else Flat(qs[..|qs| - 1]) + multiset(qs[|qs| - 1])
  }

  lemma {:induction false} FlatUpdate(qs: seq<seq<Id>>, i: nat, q: seq<Id>)
    requires i < |qs|
    ensures forall t :: Flat(qs[i := q])[t] + multiset(qs[i])[t] == Flat(qs)[t] + multiset(q)[t]
  {
    var n := |qs| - 1;
    if i < n {
      assert qs[i := q][..n] == qs[..n][i := q];
      FlatUpdate(qs[..n], i, q);
    } else {
      assert qs[i := q][..n] == qs[..n];
    }
  }

  lemma {:induction false} FlatHas(qs: seq<seq<Id>>, i: nat)
    requires i < |qs|
    ensures multiset(qs[i]) <= Flat(qs)
  {
    if i < |qs| - 1 { FlatHas(qs[..|qs| - 1], i); }
  }

  lemma {:induction false} FlatFrom(qs: seq<seq<Id>>, t: Id) returns (i: nat)
    requires t in Flat(qs)
    ensures i < |qs| && t in qs[i]
  {
    var n := |qs| - 1;
    if t in qs[n] { i := n; } else { i := FlatFrom(qs[..n], t); }
  }

  /** Every place a task can be in a queue. */
  function Queued(s: Sched): multiset<Id> { Flat(s.ready) + Flat(s.blocked) }

  /** The running task, unless it is queued, finished, or the main thread. */
  function Hand(s: Sched): multiset<Id>
    requires Formed(s)
  {
    if s.running == MAIN || s.Current().workDone || s.Current().waiting then multiset{} else multiset{s.running}
  }

  function Unfinished(s: Sched): set<Id> { set t | 1 <= t < |s.tasks| && !s.tasks[t].workDone }

  /** Every unfinished task is in one place, and only once; no finished task is in any. */
  ghost predicate Accounted(s: Sched)
    requires Formed(s)
  {
    forall t :: Queued(s)[t] + Hand(s)[t] == if t in Unfinished(s) then 1 else 0
  }

  /** The waiting flag tells the kind of queue. */
  predicate Flagged(s: Sched)
    requires Formed(s)
  {
    && (forall p, t :: 0 <= p <= MAX_PRIO && t in s.ready[p] ==> !s.tasks[t].waiting)
    && (forall d, t :: 0 <= d < MAX_EVENTS && t in s.blocked[d] ==> s.tasks[t].waiting)
  }

  ghost predicate Conserved(s: Sched) {
    && Formed(s) && Sorted(s) && Accounted(s) && Flagged(s) && |s.tasks| <= MAX_SIZE + 1
    && !s.Current().waiting
  }

  /** Through the parts of a call the running task may have queued itself as a waiter. */
  ghost predicate Midway(s: Sched) {
    && Formed(s) && Sorted(s) && Accounted(s) && Flagged(s) && |s.tasks| <= MAX_SIZE + 1
  }

  /** The first n - 1 tasks ever created. */
  function Ids(n: nat): (ids: set<Id>)
    requires n >= 1
    ensures |ids| == n - 1 && forall t :: t in ids <==> 1 <= t < n
  {
    if n == 1 then {} else Ids(n - 1) + {n - 1}
  }

  lemma FewUnfinished(s: Sched)
    requires Formed(s)
    ensures |Unfinished(s)| <= |s.tasks| - 1
  {
    SubsetSize(Unfinished(s), Ids(|s.tasks|));
  }

  lemma {:induction false} SubsetSize(a: set<Id>, b: set<Id>)
    requires a <= b
    ensures |a| <= |b|
  {
    assert b == a + (b - a);
  }

  lemma SubmultisetSize(a: multiset<Id>, b: multiset<Id>)
    requires a <= b
    ensures |a| <= |b|
  {
    assert b == a + (b - a);
  }

  /** With at most MAX_SIZE tasks no queue is full when one more task is to be added. */
  lemma Room(s: Sched, p: nat, d: nat)
    requires Midway(s) && p <= MAX_PRIO && d < MAX_EVENTS
    ensures |s.ready[p]| + |s.blocked[d]| + |Hand(s)| <= |s.tasks| - 1
  {
    FewUnfinished(s);
    FlatHas(s.ready, p);
    FlatHas(s.blocked, d);
    SubmultisetSize(multiset(s.ready[p]) + multiset(s.blocked[d]) + Hand(s), multiset(Unfinished(s)));
  }

  /** The places of each task change by one occurrence. */
  ghost predicate OneMore(a: multiset<Id>, b: multiset<Id>, x: Id) {
    forall t :: b[t] == a[t] + if t == x then 1 else 0
  }

  lemma Appended(q: seq<Id>, x: Id)
    ensures OneMore(multiset(q), multiset(q + [x]), x)
  {}

  lemma Beheaded(q: seq<Id>)
    requires q != []
    ensures OneMore(multiset(q[1..]), multiset(q), q[0])
  {
    assert q == [q[0]] + q[1..];
  }

  lemma ReadyQueued(s: Sched, p: nat, t: Id)
    requires Formed(s) && p <= MAX_PRIO && |s.ready[p]| < MAX_SIZE
    ensures OneMore(Queued(s), Queued(s.Ready(p, t)), t)
  {
    FlatUpdate(s.ready, p, s.ready[p] + [t]);
    Appended(s.ready[p], t);
  }

  lemma UnreadyQueued(s: Sched, p: nat)
    requires Formed(s) && p <= MAX_PRIO && s.ready[p] != []
    ensures OneMore(Queued(s.Unready(p)), Queued(s), s.ready[p][0])
  {
    Beheaded(s.ready[p]);
    FlatUpdate(s.ready, p, s.ready[p][1..]);
  }

  lemma BlockQueued(s: Sched, d: nat, t: Id)
    requires Formed(s) && d < MAX_EVENTS && |s.blocked[d]| < MAX_SIZE
    ensures OneMore(Queued(s), Queued(s.Block(d, t)), t)
  {
    FlatUpdate(s.blocked, d, s.blocked[d] + [t]);
    Appended(s.blocked[d], t);
  }

  lemma UnblockQueued(s: Sched, d: nat)
    requires Formed(s) && d < MAX_EVENTS && s.blocked[d] != []
    ensures OneMore(Queued(s.Unblock(d)), Queued(s), s.blocked[d][0])
  {
    Beheaded(s.blocked[d]);
    FlatUpdate(s.blocked, d, s.blocked[d][1..]);
  }

  /** What is queued is unfinished, is not the running task, and is queued once. */
  lemma QueuedOnce(s: Sched, t: Id)
    requires Midway(s) && t in Queued(s)
    ensures t in Unfinished(s) && Queued(s)[t] == 1
    ensures s.running == t ==> s.Current().waiting
  {
    assert Queued(s)[t] + Hand(s)[t] <= 1;
  }

  lemma InReady(s: Sched, p: nat, t: Id)
    requires Formed(s) && p <= MAX_PRIO && t in s.ready[p]
    ensures Queued(s)[t] > 0
  {
    FlatHas(s.ready, p);
  }

  lemma InBlocked(s: Sched, d: nat, t: Id)
    requires Formed(s) && d < MAX_EVENTS && t in s.blocked[d]
    ensures Queued(s)[t] > 0
  {
    FlatHas(s.blocked, d);
  }

  /** The account with a given holder of what is in no queue. */
  ghost predicate Balanced(s: Sched, hand: multiset<Id>) {
    forall t :: Queued(s)[t] + hand[t] == if t in Unfinished(s) then 1 else 0
  }

  // The first part of a call.

  /** A flag may change freely while its thread is in no queue. */
  lemma SetFlagged(s: Sched, t: Id, k: Task)
    requires Formed(s) && Flagged(s) && t < |s.tasks| && FormedTask(k) && Queued(s)[t] == 0
    ensures Formed(s.Set(t, k)) && Flagged(s.Set(t, k))
  {
    forall p | 0 <= p <= MAX_PRIO
      ensures t !in s.ready[p]
    {
      if t in s.ready[p] { InReady(s, p, t); }
    }
    forall d | 0 <= d < MAX_EVENTS
      ensures t !in s.blocked[d]
    {
      if t in s.blocked[d] { InBlocked(s, d, t); }
    }
  }

  /** A task that was in no place is put in a queue. */
  lemma ReadySettles(u: Sched, p: nat, t: Id, hand: multiset<Id>)
    requires Formed(u) && p <= MAX_PRIO && |u.ready[p]| < MAX_SIZE && Balanced(u, hand + multiset{t})
    ensures Balanced(u.Ready(p, t), hand)
  {
    ReadyQueued(u, p, t);
    assert Unfinished(u.Ready(p, t)) == Unfinished(u);
  }

  lemma BlockSettles(u: Sched, d: nat, t: Id, hand: multiset<Id>)
    requires Formed(u) && d < MAX_EVENTS && |u.blocked[d]| < MAX_SIZE && Balanced(u, hand + multiset{t})
    ensures Balanced(u.Block(d, t), hand)
  {
    BlockQueued(u, d, t);
    assert Unfinished(u.Block(d, t)) == Unfinished(u);
  }

  lemma CreatedBalanced(s: Sched, p: nat)
    requires Conserved(s) && p <= MAX_PRIO
    ensures var n, u := |s.tasks|, Created(s, p);
            Formed(u) && Sorted(u) && Flagged(u) && Hand(u) == Hand(s) && Balanced(u, Hand(u) + multiset{n})
  {
    var n, u := |s.tasks|, Created(s, p);
    CreatedSorted(s, p);
    assert Unfinished(u) == Unfinished(s) + {n};
    assert n !in Unfinished(s) && Queued(s)[n] + Hand(s)[n] == 0;
  }

  lemma ForkMidway(s: Sched, p: nat)
    requires Conserved(s) && p <= MAX_PRIO && |s.tasks| <= MAX_SIZE
    ensures Midway(Created(s, p).Ready(p, |s.tasks|))
  {
    var n, u := |s.tasks|, Created(s, p);
    CreatedBalanced(s, p);
    Room(s, p, 0);
    ReadySorted(u, p, n);
    ReadyFlagged(u, p, n);
    ReadySettles(u, p, n, Hand(u));
  }

  lemma WaiterBalanced(s: Sched)
    requires Conserved(s) && s.running != MAIN && !s.Current().workDone
    ensures var u := s.Set(s.running, s.Current().(waiting := true));
            Formed(u) && Sorted(u) && Flagged(u) && Balanced(u, multiset{} + multiset{s.running})
  {
    var k := s.Current().(waiting := true);
    assert Queued(s)[s.running] + Hand(s)[s.running] <= 1;
    SetSorted(s, s.running, k);
    SetFlagged(s, s.running, k);
    assert Unfinished(s.Set(s.running, k)) == Unfinished(s);
  }

  lemma BlockFlagged(s: Sched, d: nat, t: Id)
    requires Formed(s) && Sorted(s) && Flagged(s) && d < MAX_EVENTS && 1 <= t < |s.tasks| && s.tasks[t].waiting
    ensures Formed(s.Block(d, t)) && Sorted(s.Block(d, t)) && Flagged(s.Block(d, t))
  {
    BlockFormed(s, d, t);
  }

  lemma WaitMidway(s: Sched, io: nat)
    requires Conserved(s) && s.running != MAIN && !s.Current().workDone && io < MAX_EVENTS
    ensures Midway(s.Set(s.running, s.Current().(waiting := true)).Block(io, s.running))
  {
    var u := s.Set(s.running, s.Current().(waiting := true));
    WaiterBalanced(s);
    Room(s, 0, io);
    BlockFlagged(u, io, s.running);
    BlockSettles(u, io, s.running, multiset{});
  }

  lemma FinishMidway(s: Sched)
    requires Conserved(s) && s.running != MAIN && !s.Current().workDone
    ensures Midway(s.Set(s.running, s.Current().(workDone := true)))
  {
    var u := s.Set(s.running, s.Current().(workDone := true));
    SetSorted(s, s.running, u.Current());
    assert Unfinished(u) == Unfinished(s) - {s.running};
    assert Queued(s)[s.running] + Hand(s)[s.running] == 1;
  }

  lemma UnblockFlagged(s: Sched, io: nat)
    requires Formed(s) && Flagged(s) && io < MAX_EVENTS && s.blocked[io] != []
    ensures Formed(s.Unblock(io)) && Flagged(s.Unblock(io))
  {
    UnblockFormed(s, io);
    assert forall t :: t in s.blocked[io][1..] ==> t in s.blocked[io];
  }

  lemma DrainStepFlagged(s: Sched, io: nat)
    requires Conserved(s) && io < MAX_EVENTS && s.blocked[io] != []
    ensures Formed(DrainStep(s, io)) && Flagged(DrainStep(s, io))
  {
    var t := s.blocked[io][0];
    assert t in s.blocked[io];
    var u, k := s.Unblock(io), s.tasks[t].(waiting := false);
    InBlocked(s, io, t);
    QueuedOnce(s, t);
    UnblockQueued(s, io);
    UnblockFlagged(s, io);
    SetFlagged(u, t, k);
    ReadyFormed(u.Set(t, k), k.priority, t);
  }

  lemma TakenOutBalanced(s: Sched, io: nat)
    requires Conserved(s) && io < MAX_EVENTS && s.blocked[io] != []
    ensures var t := s.blocked[io][0];
            && t < |s.tasks|
            && var u := s.Unblock(io).Set(t, s.tasks[t].(waiting := false));
               Formed(u) && Hand(u) == Hand(s) && Balanced(u, Hand(u) + multiset{t})
  {
    var t := s.blocked[io][0];
    assert t in s.blocked[io];
    UnblockFormed(s, io);
    UnblockQueued(s, io);
    var u := s.Unblock(io).Set(t, s.tasks[t].(waiting := false));
    assert Unfinished(u) == Unfinished(s);
    assert t != s.running;
  }

  lemma DrainStepConserved(s: Sched, io: nat)
    requires Conserved(s) && io < MAX_EVENTS && s.blocked[io] != []
    ensures Conserved(DrainStep(s, io))
  {
    TakenOutBalanced(s, io);
    var t := s.blocked[io][0];
    var u, k := s.Unblock(io).Set(t, s.tasks[t].(waiting := false)), s.tasks[t].priority;
    DrainStepSorted(s, io);
    DrainStepFlagged(s, io);
    Room(s, k, io);
    ReadySettles(u, k, t, Hand(u));
  }

  lemma {:induction false} DrainedConserved(s: Sched, io: nat)
    requires Conserved(s) && io < MAX_EVENTS
    ensures Conserved(Drained(s, io))
    decreases |s.blocked[io]|
  {
    if s.blocked[io] != [] {
      DrainStepConserved(s, io);
      DrainedConserved(DrainStep(s, io), io);
    }
  }

  /** The caller keeps to what the library expects: it waits only while some task is
      ready, and no more than MAX_SIZE tasks are ever created. */
  predicate Polite(s: Sched, op: Op) {
    match op
    case Fork(p) => |s.tasks| <= MAX_SIZE
    case Wait(io) => Top(s.ready) > 0
    case _ => true
  }

  lemma {:induction false} PreparedMidway(s: Sched, op: Op)
    requires Conserved(s) && MayCall(s, op) && Accepts(s, op) && Polite(s, op)
    ensures Midway(Prepared(s, op))
  {
    match op
    case Fork(p) => ForkMidway(s, p);
    case Wait(io) => WaitMidway(s, io);
    case Signal(io) => DrainedConserved(s, io);
    case Exec =>
    case Finish => FinishMidway(s);
  }

  lemma DecreaseMidway(s: Sched)
    requires Midway(s)
    ensures Midway(Decrease(s)) && Decrease(s).ready == s.ready
  {
    DecreaseSorted(s);
    assert Unfinished(Decrease(s)) == Unfinished(s);
  }

  // The second part.

  lemma ReadyFlagged(s: Sched, p: nat, t: Id)
    requires Formed(s) && Flagged(s) && p <= MAX_PRIO && 1 <= t < |s.tasks| && !s.tasks[t].waiting
    ensures Formed(s.Ready(p, t)) && Flagged(s.Ready(p, t))
  {
    ReadyFormed(s, p, t);
  }

  lemma UnreadyFlagged(s: Sched, p: nat)
    requires Formed(s) && Flagged(s) && p <= MAX_PRIO && s.ready[p] != []
    ensures Formed(s.Unready(p)) && Flagged(s.Unready(p))
  {
    UnreadyFormed(s, p);
    assert forall t :: t in s.ready[p][1..] ==> t in s.ready[p];
  }

  lemma RequeuedBalanced(s: Sched)
    requires Midway(s) && Yields(s)
    ensures var u := Requeued(s);
            Formed(u) && Sorted(u) && Flagged(u) && Balanced(u, multiset{}) && |u.tasks| == |s.tasks|
  {
    RequeuedSorted(s);
    var c := s.Current();
    if s.running != MAIN && !c.workDone && !c.waiting {
      Room(s, c.priority, 0);
      ReadyQueued(s, c.priority, s.running);
      ReadyFlagged(s, c.priority, s.running);
      assert Unfinished(Requeued(s)) == Unfinished(s);
    }
  }

  /** Whoever takes over was ready, and is now the running task. */
  lemma TakeOverConserved(u: Sched, p: nat)
    requires Formed(u) && Sorted(u) && Flagged(u) && Balanced(u, multiset{}) && |u.tasks| <= MAX_SIZE + 1
    requires p <= MAX_PRIO && u.ready[p] != []
    ensures Conserved(TakeOver(u, p))
    ensures TakeOver(u, p).Current().quantum == u.timeQuantum == TakeOver(u, p).timeQuantum
    ensures !TakeOver(u, p).Current().workDone
  {
    var t := u.ready[p][0];
    assert t in u.ready[p];
    FrontUnfinished(u, p);
    UnreadySorted(u, p);
    UnreadyFlagged(u, p);
    DispatchSorted(u.Unready(p), t);
    TakeOverAccounted(u, p);
  }

  lemma FrontUnfinished(u: Sched, p: nat)
    requires Formed(u) && Balanced(u, multiset{}) && p <= MAX_PRIO && u.ready[p] != []
    ensures u.ready[p][0] in Unfinished(u)
  {
    var t := u.ready[p][0];
    assert t in u.ready[p];
    InReady(u, p, t);
    assert Queued(u)[t] + multiset{}[t] > 0;
  }

  lemma TakeOverAccounted(u: Sched, p: nat)
    requires Formed(u) && Flagged(u) && Balanced(u, multiset{}) && p <= MAX_PRIO && u.ready[p] != []
    requires Formed(TakeOver(u, p))
    ensures Accounted(TakeOver(u, p))
  {
    var t := u.ready[p][0];
    assert t in u.ready[p];
    FrontUnfinished(u, p);
    UnreadyQueued(u, p);
    assert Unfinished(TakeOver(u, p)) == Unfinished(u);
  }

  lemma OvertakeConserved(s: Sched, p: nat)
    requires Midway(s) && !Yields(s) && p <= MAX_PRIO && s.ready[p] != [] && p != s.Current().priority
    ensures Conserved(Overtake(s, p)) && !Overtake(s, p).Current().workDone
    ensures Overtake(s, p).Current().quantum == s.timeQuantum == Overtake(s, p).timeQuantum
  {
    var c := s.Current().priority;
    var u := s.Ready(c, s.running);
    Room(s, c, 0);
    ReadyQueued(s, c, s.running);
    ReadyFlagged(s, c, s.running);
    ReadySorted(s, c, s.running);
    assert Unfinished(u) == Unfinished(s);
    TakeOverConserved(u, p);
    OvertakeIsTakeOver(s, p);
  }

  lemma OvertakeIsTakeOver(s: Sched, p: nat)
    requires Formed(s) && !Yields(s) && p <= MAX_PRIO && s.ready[p] != [] && p != s.Current().priority
    requires Formed(s.Ready(s.Current().priority, s.running))
    ensures Overtake(s, p) == TakeOver(s.Ready(s.Current().priority, s.running), p)
  {
    assert s.ready[p][0] in s.ready[p];
    var c := s.Current().priority;
    var q := Enqueued(s.ready[c], s.running);
    assert s.ready[c := q][p := Dequeued(s.ready[p])] == s.ready[p := Dequeued(s.ready[p])][c := q];
  }

  /** The running task has quantum left, and no more than a whole one. */
  predicate Paced(s: Sched)
    requires Formed(s)
  {
    !s.mainRunning && !s.Current().workDone ==> 1 <= s.Current().quantum <= s.timeQuantum
  }

  /** A finished task stays the running one only when no task is ready. */
  predicate Rested(s: Sched)
    requires Formed(s)
  {
    s.Current().workDone ==> Top(s.ready) == 0
  }

  lemma RequeuedSomebody(s: Sched)
    requires Midway(s) && Gone(s) && s.running != MAIN && !s.Current().workDone && !s.Current().waiting
    ensures Top(Requeued(s).ready) > 0
  {
    Room(s, s.Current().priority, 0);
    assert s.running in Requeued(s).ready[s.Current().priority];
  }

  lemma GivingWayConserved(s: Sched)
    requires Midway(s) && Yields(s) && Formed(Requeued(s)) && Top(Requeued(s).ready) > 0
    ensures Conserved(Check(s)) && Paced(Check(s)) && Rested(Check(s))
  {
    CheckPicksHighest(s);
    RequeuedBalanced(s);
    TakeOverConserved(Requeued(s), Top(Requeued(s).ready) - 1);
  }

  lemma YieldConserved(s: Sched)
    requires Midway(s) && Yields(s) && (s.mainRunning || s.Current().waiting ==> Top(s.ready) > 0)
    ensures Conserved(Check(s)) && Paced(Check(s)) && Rested(Check(s))
  {
    RequeuedFormed(s);
    if s.running != MAIN && !s.Current().workDone && !s.Current().waiting {
      RequeuedSomebody(s);
      GivingWayConserved(s);
    } else if Top(s.ready) > 0 {
      GivingWayConserved(s);
    } else {
      CheckPicksHighest(s);
    }
  }

  /** After check_scheduler the account is settled, if whoever must give way can. */
  lemma CheckConserved(s: Sched)
    requires Midway(s) && (s.mainRunning || s.Current().waiting ==> Top(s.ready) > 0)
    requires s.Current().quantum <= s.timeQuantum || s.mainRunning || s.Current().workDone
    ensures Conserved(Check(s)) && Paced(Check(s)) && Rested(Check(s))
  {
    if Yields(s) { YieldConserved(s); } else { GoingOnConserved(s); }
  }

  lemma GoingOnConserved(s: Sched)
    requires Midway(s) && !Yields(s) && s.Current().quantum <= s.timeQuantum
    ensures Conserved(Check(s)) && Paced(Check(s)) && Rested(Check(s))
  {
    CheckPicksHighest(s);
    var top := Top(s.ready);
    if top > s.Current().priority + 1 { OvertakeConserved(s, top - 1); }
  }

  // Runs.

  predicate Pending(s: Sched)
    requires Formed(s)
  {
    s.mainRunning || s.Current().workDone || s.Current().quantum <= s.timeQuantum
  }

  lemma DecreasePending(s: Sched)
    requires Midway(s) && Paced(s)
    ensures Pending(Decrease(s)) && Decrease(s).mainRunning == s.mainRunning
    ensures Decrease(s).Current().waiting == s.Current().waiting
  {}

  /** A call never makes the ready queues empty before it looks for the next task, and a
      fork or a wait that finds some ready task leaves some. */
  lemma PreparedKeepsPace(s: Sched, op: Op)
    requires Conserved(s) && Paced(s) && MayCall(s, op) && Accepts(s, op) && Polite(s, op)
    requires Formed(Prepared(s, op))
    ensures Paced(Prepared(s, op)) && Prepared(s, op).mainRunning == s.mainRunning
    ensures op.Fork? || op.Wait? ==> Top(Prepared(s, op).ready) > 0
    ensures !op.Wait? ==> !Prepared(s, op).Current().waiting
  {
    match op
    case Fork(p) =>
      Room(s, p, 0);
      assert |s.tasks| in Prepared(s, op).ready[p];
    case Signal(io) =>
      DrainedConserved(s, io);
      DrainedPaced(s, io);
    case _ =>
  }

  lemma {:induction false} DrainedPaced(s: Sched, io: nat)
    requires Conserved(s) && io < MAX_EVENTS
    ensures var d := Drained(s, io);
            d.mainRunning == s.mainRunning && d.running == s.running && d.timeQuantum == s.timeQuantum
            && s.running < |d.tasks| && d.Current() == s.Current()
    decreases |s.blocked[io]|
  {
    if s.blocked[io] != [] {
      assert s.blocked[io][0] in s.blocked[io];
      DrainStepConserved(s, io);
      DrainedPaced(DrainStep(s, io), io);
    }
  }

  lemma {:induction false} ApplyConserved(s: Sched, op: Op)
    requires Conserved(s) && Paced(s) && MayCall(s, op) && Polite(s, op)
    ensures Conserved(Apply(s, op)) && Paced(Apply(s, op)) && Rested(Apply(s, op))
  {
    if Accepts(s, op) {
      PreparedMidway(s, op);
      PreparedKeepsPace(s, op);
      var u := Prepared(s, op);
      if op.Finish? {
        CheckConserved(u);
      } else {
        DecreaseMidway(u);
        DecreasePending(u);
        CheckConserved(Decrease(u));
      }
    }
  }

  predicate PoliteRun(s: Sched, ops: seq<Op>) { forall k :: 0 <= k < |ops| ==> Polite(After(s, ops[..k]), ops[k]) }

  lemma {:induction false} FlatEmpty(n: nat)
    ensures Flat(Empty(n)) == multiset{}
  {
    if n > 0 {
      assert Empty(n)[..n - 1] == Empty(n - 1);
      FlatEmpty(n - 1);
    }
  }

  lemma InitConserved(timeQuantum: nat, io: nat)
    requires ValidInit(timeQuantum, io)
    ensures Conserved(Init(timeQuantum, io)) && Paced(Init(timeQuantum, io)) && Rested(Init(timeQuantum, io))
  {
    FlatEmpty(MAX_PRIO + 1);
    FlatEmpty(MAX_EVENTS);
    assert Unfinished(Init(timeQuantum, io)) == {};
  }

  /** Task conservation and the quantum, over every polite run. */
  lemma {:induction false} ConservedAlways(timeQuantum: nat, io: nat, ops: seq<Op>)
    requires ValidInit(timeQuantum, io) && PoliteRun(Init(timeQuantum, io), ops)
    ensures var s := After(Init(timeQuantum, io), ops); Conserved(s) && Paced(s) && Rested(s)
  {
    if ops == [] {
      InitConserved(timeQuantum, io);
    } else {
      var init, op := ops[..|ops| - 1], ops[|ops| - 1];
      var s := After(Init(timeQuantum, io), init);
      assert forall k :: 0 <= k < |init| ==> init[..k] == ops[..k];
      ConservedAlways(timeQuantum, io, init);
      if MayCall(s, op) { ApplyConserved(s, op); }
    }
  }

  /** What Conserved says of one task: an unfinished one is running, or once in the ready
      queue of its own priority and in no other, or once in one waiting queue and in no
      other; its waiting flag is set exactly in the last case.  A finished one is nowhere. */
  lemma OnePlace(s: Sched, t: Id)
    requires Conserved(s) && 1 <= t < |s.tasks|
    ensures s.tasks[t].workDone ==> (forall p :: 0 <= p <= MAX_PRIO ==> t !in s.ready[p])
                                    && (forall d :: 0 <= d < MAX_EVENTS ==> t !in s.blocked[d])
    ensures !s.tasks[t].workDone ==>
              (if s.running == t then 1 else 0) + Flat(s.ready)[t] + Flat(s.blocked)[t] == 1
    ensures forall p :: 0 <= p <= MAX_PRIO && t in s.ready[p] ==> p == s.tasks[t].priority
    ensures !s.tasks[t].workDone ==> (s.tasks[t].waiting <==> exists d :: 0 <= d < MAX_EVENTS && t in s.blocked[d])
  {
    assert Queued(s)[t] + Hand(s)[t] == if t in Unfinished(s) then 1 else 0;
    forall p | 0 <= p <= MAX_PRIO && t in s.ready[p]
      ensures !s.tasks[t].workDone
    {
      InReady(s, p, t);
    }
    forall d | 0 <= d < MAX_EVENTS && t in s.blocked[d]
      ensures !s.tasks[t].workDone
    {
      InBlocked(s, d, t);
    }
    if !s.tasks[t].workDone && s.tasks[t].waiting {
      if t in Flat(s.ready) {
        var p := FlatFrom(s.ready, t);
        assert false;
      }
      var d := FlatFrom(s.blocked, t);
      assert t in s.blocked[d];
    }
  }
}
