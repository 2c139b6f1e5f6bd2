/** The library's threads, interleaved at every lock, semaphore and thread creation, with
    spurious wakeups of the condition variable.  The calls of the threads amount to atomic
    calls in the order in which check_scheduler is reached. */
module SchedThreads {
  import opened CircularQueues
  import opened SchedModel
  import opened SchedInvariant

  /** Where a thread is. */
  datatype Pc =
    | Unborn                        // its structure is allocated and counted
    | Posted                        // and not_terminated_threads posted for it
    | AtGate                        // in wait_to_run, before the test
    | Asleep                        // in pthread_cond_wait
    | Handler                       // in handler code; for the main thread, in its own
    | Posting(child: Id, p: nat)    // so_fork, before sem_post
    | Creating(child: Id, p: nat)   // before pthread_create
    | Queueing(child: Id, p: nat)   // before the new task is enqueued
    | Decreasing(op: Op)            // before decrease_quantum
    | Checking(op: Op)              // before check_scheduler
    | Testing(op: Op)               // before preempted
    | Broadcasting(op: Op)          // before pthread_cond_broadcast
    | Recording                     // finished, before the entry in terminated_threads
    | SemWaiting                    // before sem_wait
    | SemReading                    // before sem_getvalue
    | SemPosting                    // before sem_post
    | Exited
    | Ending                        // so_end, before sem_getvalue
    | AwaitingAll                   // in its sem_wait
    | Joining                       // past it

  /** The state of the library and of its threads.  `base` and `ops` are history: the
      scheduler as of the last check_scheduler, and the calls that have reached it. */
  datatype Sys = Sys(
    s: Sched,
    pc: seq<Pc>,
    notTerminated: nat,
    allTerminated: nat,
    noThreads: nat,
    recorded: seq<Id>,
    base: Sched,
    ops: seq<Op>)
  {
    function To(t: Id, p: Pc): Sys
      requires t < |pc|
    {
      this.(pc := pc[t := p])
    }
  }

  /** What a thread does next: what its place says, a call of its handler's choice, a
      spurious wakeup, or (for the main thread) so_end without a fork. */
  datatype Act = Go | Call(op: Op) | Wake | End

  predicate Enabled(x: Sys, t: Id, a: Act) {
    && t < |x.pc| && Formed(x.s)
    && match a
       case Call(op) => x.pc[t].Handler? && Accepts(x.s, op) && (t == MAIN ==> op.Fork?)
       case Wake => x.pc[t].Asleep?
       case End => t == MAIN && x.pc[t].Handler?
       case Go => CanGo(x, t)
  }

  /** A thread that is about to store past the end of terminated_threads. */
  predicate Overruns(x: Sys, t: Id)
    requires t < |x.pc|
  {
    x.pc[t].Recording? && |x.recorded| >= MAX_SIZE
  }

  /** The step of a place is possible.  C gives a store past the end of an array no meaning,
      and such a store is no step. */
  predicate CanGo(x: Sys, t: Id)
    requires t < |x.pc|
  {
    match x.pc[t]
    case Unborn => false
    case Posted => false
    case Asleep => false
    case Handler => false
    case Posting(c, p) => c < |x.pc|
    case Creating(c, p) => c < |x.pc|
    case Queueing(c, p) => p < |x.s.ready|
    case Recording => |x.recorded| < MAX_SIZE
    case SemWaiting => x.notTerminated > 0
    case AwaitingAll => x.allTerminated > 0
    case Exited => false
    case Joining => false
    case _ => true
  }

  function WakeAll(pc: seq<Pc>): (r: seq<Pc>)
    ensures |r| == |pc|
  {
    seq(|pc|, i requires 0 <= i < |pc| => if pc[i].Asleep? then AtGate else pc[i])
  }

  /** Where a thread is when its call is over. */
  function Resumed(t: Id, op: Op, gate: bool): Pc {
    if t == MAIN then Ending else if op.Finish? then Recording else if gate then AtGate else Handler
  }

  /** The first part of a call: so_fork's new structure, or all that is done in one go. */
  function Begin(x: Sys, t: Id, op: Op): Sys
    requires t < |x.pc| && Formed(x.s) && Accepts(x.s, op)
  {
    match op
    case Fork(p) =>
      x.(s := Created(x.s, p), pc := x.pc[t := Posting(|x.pc|, p)] + [Unborn], noThreads := x.noThreads + 1)
    case Finish => x.To(t, Checking(op)).(s := Prepared(x.s, op))
    case _ => x.To(t, Decreasing(op)).(s := Prepared(x.s, op))
  }

  function Advance(x: Sys, t: Id): Sys
    requires t < |x.pc| && Formed(x.s) && CanGo(x, t)
  {
    match x.pc[t]
    case AtGate => x.To(t, if x.s.running == t then Handler else Asleep)
    case Posting(c, p) => x.To(c, Posted).To(t, Creating(c, p)).(notTerminated := x.notTerminated + 1)
    case Creating(c, p) => x.To(c, AtGate).To(t, Queueing(c, p))
    case Queueing(c, p) => x.To(t, Decreasing(Fork(p))).(s := x.s.Ready(p, c))
    case Decreasing(op) => x.To(t, Checking(op)).(s := Decrease(x.s))
    case Checking(op) =>
      var s := Check(x.s);
      x.To(t, if op.Wait? then Broadcasting(op) else Testing(op)).(s := s, base := s, ops := x.ops + [op])
    case Testing(op) => x.To(t, if x.s.running != t then Broadcasting(op) else Resumed(t, op, false))
    case Broadcasting(op) => x.(pc := WakeAll(x.pc)[t := Resumed(t, op, true)])
    case Recording => x.To(t, SemWaiting).(recorded := x.recorded + [t])
    case SemWaiting => x.To(t, SemReading).(notTerminated := x.notTerminated - 1)
    case SemReading => x.To(t, if x.notTerminated == 0 then SemPosting else Exited)
    case SemPosting => x.To(t, Exited).(allTerminated := x.allTerminated + 1)
    case Ending => x.To(t, if x.notTerminated != 0 then AwaitingAll else Joining)
    case AwaitingAll => x.To(t, Joining).(allTerminated := x.allTerminated - 1)
  }

  function Do(x: Sys, t: Id, a: Act): Sys
    requires Enabled(x, t, a)
  {
    match a
    case Call(op) => Begin(x, t, op)
    case Wake => x.To(t, AtGate)
    case End => x.To(t, Ending)
    case Go => Advance(x, t)
  }

  function Start(timeQuantum: nat, io: nat): Sys {
    Sys(Init(timeQuantum, io), [Handler], 0, 0, 0, [], Init(timeQuantum, io), [])
  }

  // The invariant.

  /** Between the gate and check_scheduler: the thread may change the scheduler's state. */
  predicate Active(p: Pc) {
    p.Handler? || p.Posting? || p.Creating? || p.Queueing? || p.Decreasing? || p.Checking?
  }

  /** Past check_scheduler, with a broadcast still to come or to be decided on. */
  predicate Rousing(p: Pc) { p.Testing? || p.Broadcasting? }

  predicate OfMain(p: Pc) { p.Ending? || p.AwaitingAll? || p.Joining? }

  predicate HasOp(p: Pc) { p.Decreasing? || p.Checking? || p.Testing? || p.Broadcasting? }

  /** The only threads that touch the scheduler's state are the running one, and it alone. */
  predicate Exclusive(x: Sys) { forall t :: 0 <= t < |x.pc| && Active(x.pc[t]) ==> x.s.running == t }

  /** A running thread that sleeps is going to be woken. */
  predicate Roused(x: Sys) {
    x.s.running < |x.pc| && x.pc[x.s.running].Asleep? ==>
      exists u :: 0 <= u < |x.pc| && u != x.s.running && Rousing(x.pc[u])
  }

  /** The main thread and the tasks have their own places. */
  predicate Placed(x: Sys) {
    && 0 < |x.pc|
    && (Active(x.pc[MAIN]) || Rousing(x.pc[MAIN]) || OfMain(x.pc[MAIN]))
    && (HasOp(x.pc[MAIN]) ==> x.pc[MAIN].op.Fork?)
    && (forall t :: 1 <= t < |x.pc| ==> !OfMain(x.pc[t]))
  }

  /** The state is that of the atomic calls, but for the running thread's call under way. */
  predicate Staged(x: Sys) {
    && Formed(x.base) && Formed(x.s) && |x.pc| == |x.s.tasks| && x.s.running == x.base.running
    && match x.pc[x.s.running]
       case Posting(c, p) => p <= MAX_PRIO && c == |x.base.tasks| && x.s == Created(x.base, p)
           && MayCall(x.base, Fork(p))
       case Creating(c, p) => p <= MAX_PRIO && c == |x.base.tasks| && x.s == Created(x.base, p)
           && MayCall(x.base, Fork(p))
       case Queueing(c, p) => p <= MAX_PRIO && c == |x.base.tasks| && x.s == Created(x.base, p)
           && MayCall(x.base, Fork(p))
       case Decreasing(op) => Accepts(x.base, op) && MayCall(x.base, op) && !op.Finish? && x.s == Prepared(x.base, op)
       case Checking(op) => Accepts(x.base, op) && MayCall(x.base, op) && Readied(x.base, op, x.s)
       case _ => x.s == x.base
  }

  predicate Readied(base: Sched, op: Op, s: Sched)
    requires Formed(base) && Accepts(base, op) && MayCall(base, op)
  {
    PreparedFormed(base, op);
    s == if op.Finish? then Prepared(base, op) else Decrease(Prepared(base, op))
  }

  /** The places of a thread whose handler has returned. */
  predicate Finished(p: Pc) {
    (HasOp(p) && p.op.Finish?) || p.Recording? || p.SemWaiting? || p.SemReading? || p.SemPosting? || p.Exited?
  }

  /** A task is done when its handler has returned. */
  predicate Faithful(x: Sys) {
    |x.pc| == |x.s.tasks| && forall t :: 0 <= t < |x.pc| ==> (x.s.tasks[t].workDone <==> Finished(x.pc[t]))
  }

  predicate Waiting(p: Pc) { p.Unborn? || p.Posted? || p.AtGate? || p.Asleep? }

  /** While the main thread is the running one, no task has run. */
  predicate Young(x: Sys) { x.s.running == MAIN ==> forall t :: 1 <= t < |x.pc| ==> Waiting(x.pc[t]) }

  /** A task between its allocation and its creation belongs to a so_fork under way. */
  predicate Born(x: Sys) {
    && x.s.running < |x.pc|
    && (forall t :: 0 <= t < |x.pc| && x.pc[t].Unborn? ==> Bears(x.pc[x.s.running], t, true))
    && (forall t :: 0 <= t < |x.pc| && x.pc[t].Posted? ==> Bears(x.pc[x.s.running], t, false))
    && match x.pc[x.s.running]
       case Posting(c, _) => c < |x.pc| && x.pc[c].Unborn?
       case Creating(c, _) => c < |x.pc| && x.pc[c].Posted?
       case _ => true
  }

  predicate Bears(p: Pc, child: Id, posting: bool) {
    if posting then p.Posting? && p.child == child else p.Creating? && p.child == child
  }

  predicate Coherent(x: Sys) {
    Placed(x) && Staged(x) && Exclusive(x) && Faithful(x) && Young(x) && Born(x)
  }

  // What the parts of a call leave alone.

  /** No task's end is touched. */
  predicate SameDone(a: Sched, b: Sched) {
    |a.tasks| == |b.tasks| && forall t :: 0 <= t < |a.tasks| ==> (a.tasks[t].workDone <==> b.tasks[t].workDone)
  }

  lemma {:induction false} DrainedDone(s: Sched, io: nat)
    requires Formed(s) && io < MAX_EVENTS
    ensures SameDone(s, Drained(s, io))
    decreases |s.blocked[io]|
  {
    if s.blocked[io] != [] {
      assert s.blocked[io][0] in s.blocked[io];
      DrainStepFormed(s, io);
      DrainedDone(DrainStep(s, io), io);
    }
  }

  lemma PreparedDone(s: Sched, op: Op)
    requires Formed(s) && Accepts(s, op) && !op.Fork?
    ensures |Prepared(s, op).tasks| == |s.tasks|
    ensures forall t :: 0 <= t < |s.tasks| ==>
              (Prepared(s, op).tasks[t].workDone <==> s.tasks[t].workDone || (op.Finish? && t == s.running))
  {
    if op.Signal? { DrainedDone(s, op.io); }
  }

  lemma {:induction false} ScanDone(s: Sched, gone: bool, i: nat)
    requires Formed(s) && i <= |s.ready|
    ensures SameDone(s, Scan(s, gone, i)) && (Scan(s, gone, i).running == s.running || Scan(s, gone, i).running != MAIN)
  {
    if i > 0 {
      if s.ready[i - 1] != [] { assert s.ready[i - 1][0] in s.ready[i - 1]; }
      ScanDone(s, gone, i - 1);
    }
  }

  /** check_scheduler never goes back to the main thread. */
  lemma CheckDone(s: Sched)
    requires Formed(s)
    ensures SameDone(s, Check(s)) && (Check(s).running == s.running || Check(s).running != MAIN)
  {
    RequeuedFormed(s);
    ScanDone(Requeued(s), Gone(s), |s.ready|);
  }

  // Steps keep the state staged.

  lemma CallStaged(x: Sys, t: Id, op: Op)
    requires Coherent(x) && Enabled(x, t, Call(op))
    ensures Staged(Begin(x, t, op))
  {
    assert x.s.running == t && x.s == x.base;
    assert !x.s.tasks[t].workDone;
    assert MayCall(x.base, op);
    PreparedFormed(x.base, op);
    if op.Fork? { CreatedFormed(x.s, op.priority); } else { PreparedDone(x.s, op); }
  }

  lemma ForkStaged(x: Sys, t: Id)
    requires Coherent(x) && t < |x.pc| && CanGo(x, t)
    requires x.pc[t].Posting? || x.pc[t].Creating? || x.pc[t].Queueing?
    ensures Staged(Advance(x, t))
  {
    assert x.s.running == t;
    if x.pc[t].Queueing? { PreparedFormed(x.base, Fork(x.pc[t].p)); }
  }

  lemma DecreaseStaged(x: Sys, t: Id)
    requires Coherent(x) && t < |x.pc| && CanGo(x, t) && x.pc[t].Decreasing?
    ensures Staged(Advance(x, t))
  {
    assert x.s.running == t;
    DecreaseFormed(x.s);
  }

  /** check_scheduler completes the running thread's call. */
  lemma CheckStaged(x: Sys, t: Id)
    requires Coherent(x) && t < |x.pc| && CanGo(x, t) && x.pc[t].Checking?
    ensures Staged(Advance(x, t))
    ensures Accepts(x.base, x.pc[t].op) && MayCall(x.base, x.pc[t].op) && Advance(x, t).s == Apply(x.base, x.pc[t].op)
  {
    assert x.s.running == t;
    CheckFormed(x.s);
    CheckDone(x.s);
    NewcomerWaits(x, t);
  }

  /** Whoever is dispatched is not in the middle of a call. */
  lemma NewcomerWaits(x: Sys, t: Id)
    requires Coherent(x) && t < |x.pc| && CanGo(x, t) && x.pc[t].Checking?
    requires Formed(Check(x.s)) && SameDone(x.s, Check(x.s))
    ensures !Active(Advance(x, t).pc[Check(x.s).running])
  {
    var n := Check(x.s).running;
    assert Active(x.pc[n]) ==> n == t;
  }

  predicate InCall(p: Pc) { p.Posting? || p.Creating? || p.Queueing? || p.Decreasing? || p.Checking? }

  /** The other steps do not touch the scheduler's state. */
  lemma AsideStaged(x: Sys, t: Id, p: Pc, y: Sys)
    requires Staged(x) && t < |x.pc| && !InCall(x.pc[t]) && !InCall(p)
    requires y.pc == x.pc[t := p] && y.s == x.s && y.base == x.base
    ensures Staged(y)
  {
    hide Scan, Check, Prepared, Decrease, Created;
    if x.s.running == t { assert x.s == x.base; }
  }

  // Steps keep the rest.

  predicate Ordered(x: Sys) {
    Placed(x) && Exclusive(x) && Faithful(x) && Young(x) && Born(x) && Roused(x)
  }

  lemma BirthOrdered(x: Sys, t: Id, op: Op)
    requires Coherent(x) && Roused(x) && Enabled(x, t, Call(op)) && op.Fork?
    ensures Ordered(Begin(x, t, op))
  {
    hide Scan, Check, Prepared, Drained, Decrease;
    assert x.s.running == t;
    CreatedFormed(x.s, op.priority);
  }

  lemma CallOrdered(x: Sys, t: Id, op: Op)
    requires Coherent(x) && Roused(x) && Enabled(x, t, Call(op)) && !op.Fork?
    ensures Ordered(Begin(x, t, op))
  {
    hide Scan, Check, Prepared, Drained, Decrease;
    assert x.s.running == t;
    PreparedFormed(x.s, op);
    PreparedDone(x.s, op);
  }

  lemma PostOrdered(x: Sys, t: Id)
    requires Coherent(x) && Roused(x) && t < |x.pc| && CanGo(x, t) && x.pc[t].Posting?
    ensures Ordered(Advance(x, t))
  {
    hide Scan, Check, Prepared, Drained, Decrease;
    assert x.s.running == t;
  }

  lemma CreateOrdered(x: Sys, t: Id)
    requires Coherent(x) && Roused(x) && t < |x.pc| && CanGo(x, t) && x.pc[t].Creating?
    ensures Ordered(Advance(x, t))
  {
    hide Scan, Check, Prepared, Drained, Decrease;
    assert x.s.running == t;
  }

  lemma QueueOrdered(x: Sys, t: Id)
    requires Coherent(x) && Roused(x) && t < |x.pc| && CanGo(x, t) && x.pc[t].Queueing?
    ensures Ordered(Advance(x, t))
  {
    hide Scan, Check;
    assert x.s.running == t;
  }

  lemma DecreaseOrdered(x: Sys, t: Id)
    requires Coherent(x) && Roused(x) && t < |x.pc| && CanGo(x, t) && x.pc[t].Decreasing?
    ensures Ordered(Advance(x, t))
  {
    hide Scan, Check, Prepared, Drained;
    assert x.s.running == t;
  }

  /** The running thread past its check_scheduler, which ends nobody. */
  predicate PastCheck(x: Sys, t: Id, p: Pc, y: Sys) {
    && t < |x.pc| && x.pc[t].Checking? && Rousing(p) && p.op == x.pc[t].op && y.pc == x.pc[t := p]
    && SameDone(x.s, y.s) && (y.s.running == x.s.running || y.s.running != MAIN) && y.s.running < |y.pc|
  }

  lemma PastCheckPlaced(x: Sys, t: Id, p: Pc, y: Sys)
    requires Placed(x) && Exclusive(x) && PastCheck(x, t, p, y)
    ensures Placed(y) && forall u :: 0 <= u < |y.pc| ==> !Active(y.pc[u])
  {}

  lemma PastCheckFaithful(x: Sys, t: Id, p: Pc, y: Sys)
    requires Faithful(x) && PastCheck(x, t, p, y)
    ensures Faithful(y)
  {}

  lemma PastCheckYoung(x: Sys, t: Id, p: Pc, y: Sys)
    requires Young(x) && Exclusive(x) && PastCheck(x, t, p, y)
    ensures Young(y)
  {
    assert Active(x.pc[t]);
  }

  lemma PastCheckBorn(x: Sys, t: Id, p: Pc, y: Sys)
    requires Born(x) && Exclusive(x) && PastCheck(x, t, p, y)
    ensures Born(y) && Roused(y)
  {
    assert Active(x.pc[t]) && Rousing(y.pc[t]);
    assert forall u :: 0 <= u < |x.pc| ==> !x.pc[u].Unborn? && !x.pc[u].Posted?;
    assert !Active(y.pc[y.s.running]);
  }

  lemma CheckOrdered(x: Sys, t: Id)
    requires Coherent(x) && Roused(x) && t < |x.pc| && CanGo(x, t) && x.pc[t].Checking?
    ensures Ordered(Advance(x, t))
  {
    CheckFormed(x.s);
    CheckDone(x.s);
    hide Check, Decrease, Placed, Exclusive, Faithful, Young, Born, Roused;
    var p, y := Advance(x, t).pc[t], Advance(x, t);
    PastCheckPlaced(x, t, p, y);
    PastCheckFaithful(x, t, p, y);
    PastCheckYoung(x, t, p, y);
    PastCheckBorn(x, t, p, y);
    NobodyActive(y);
  }

  lemma NobodyActive(y: Sys)
    requires forall u :: 0 <= u < |y.pc| ==> !Active(y.pc[u])
    ensures Exclusive(y)
  {}

  /** A place that a thread may be in instead of the one it is in, as the scheduler is. */
  predicate Fits(x: Sys, t: Id, p: Pc)
    requires t < |x.pc|
  {
    && (if t == MAIN then (Active(p) || Rousing(p) || OfMain(p)) && (HasOp(p) ==> p.op.Fork?) else !OfMain(p))
    && (Active(p) ==> x.s.running == t)
    && (Finished(p) <==> Finished(x.pc[t]))
    && (x.s.running == MAIN && t != MAIN ==> Waiting(p))
    && !BearsOrBorn(p) && !BearsOrBorn(x.pc[t])
  }

  predicate BearsOrBorn(p: Pc) { p.Unborn? || p.Posted? || p.Posting? || p.Creating? }

  /** A step of one thread from its place to another that fits. */
  lemma AsidePlaced(x: Sys, t: Id, p: Pc, y: Sys)
    requires Coherent(x) && t < |x.pc| && Fits(x, t, p)
    requires y.pc == x.pc[t := p] && y.s == x.s
    ensures Placed(y) && Exclusive(y) && Faithful(y)
  {
    hide Staged, Young, Born;
  }

  lemma AsideBorn(x: Sys, t: Id, p: Pc, y: Sys)
    requires Coherent(x) && t < |x.pc| && Fits(x, t, p)
    requires y.pc == x.pc[t := p] && y.s == x.s
    ensures Young(y) && Born(y)
  {
    hide Staged, Placed, Exclusive, Faithful;
  }

  lemma AsideRoused(x: Sys, t: Id, p: Pc, y: Sys)
    requires Roused(x) && t < |x.pc| && (p.Asleep? ==> x.s.running != t)
    requires Rousing(x.pc[t]) ==> Rousing(p) || (x.s.running < |x.pc| && !x.pc[x.s.running].Asleep?)
    requires y.pc == x.pc[t := p] && y.s == x.s
    ensures Roused(y)
  {
    if y.s.running < |y.pc| && y.pc[y.s.running].Asleep? {
      var u :| 0 <= u < |x.pc| && u != x.s.running && Rousing(x.pc[u]);
      assert Rousing(y.pc[u]);
    }
  }

  lemma AsideOrdered(x: Sys, t: Id, p: Pc, y: Sys)
    requires Coherent(x) && Roused(x) && t < |x.pc| && Fits(x, t, p) && (p.Asleep? ==> x.s.running != t)
    requires Rousing(x.pc[t]) ==> Rousing(p) || (x.s.running < |x.pc| && !x.pc[x.s.running].Asleep?)
    requires y.pc == x.pc[t := p] && y.s == x.s
    ensures Ordered(y)
  {
    AsidePlaced(x, t, p, y);
    AsideBorn(x, t, p, y);
    AsideRoused(x, t, p, y);
  }

  lemma TestOrdered(x: Sys, t: Id)
    requires Coherent(x) && Roused(x) && t < |x.pc| && CanGo(x, t) && x.pc[t].Testing?
    ensures Ordered(Advance(x, t))
  {
    assert Formed(x.s);
    hide Check, Decrease, Ordered, Staged, Born, Faithful, Roused;
    var p := Advance(x, t).pc[t];
    assert Fits(x, t, p);
    AsideOrdered(x, t, p, Advance(x, t));
  }

  /** All sleepers back at the gate. */
  function Awake(x: Sys): Sys { x.(pc := WakeAll(x.pc)) }

  lemma AwakePlaced(x: Sys)
    requires Coherent(x)
    ensures Placed(Awake(x)) && Exclusive(Awake(x)) && Faithful(Awake(x))
  {
    hide Staged, Young, Born;
  }

  lemma AwakeBorn(x: Sys)
    requires Coherent(x)
    ensures Young(Awake(x)) && Born(Awake(x))
  {
    hide Staged, Placed, Exclusive, Faithful;
  }

  lemma AwakeStaged(x: Sys)
    requires Coherent(x)
    ensures Staged(Awake(x))
  {
    hide Check, Prepared, Decrease, Created, Young, Born, Placed, Exclusive, Faithful;
  }

  lemma BroadcastOrdered(x: Sys, t: Id)
    requires Coherent(x) && Roused(x) && t < |x.pc| && CanGo(x, t) && x.pc[t].Broadcasting?
    ensures Ordered(Advance(x, t)) && Staged(Advance(x, t))
  {
    AwakePlaced(x);
    AwakeBorn(x);
    AwakeStaged(x);
    var y, p := Awake(x), Resumed(t, x.pc[t].op, true);
    assert y.pc[t] == x.pc[t] && !y.pc[y.s.running].Asleep?;
    BroadcastFits(x, t);
    hide Check, Decrease, Ordered, Staged, Born, Young, Faithful, Placed, Exclusive;
    AsideOrdered(y, t, p, Advance(x, t));
    AsideStaged(y, t, p, Advance(x, t));
  }

  lemma BroadcastFits(x: Sys, t: Id)
    requires Coherent(x) && t < |x.pc| && CanGo(x, t) && x.pc[t].Broadcasting?
    ensures Fits(Awake(x), t, Resumed(t, x.pc[t].op, true))
  {
    hide Staged, Born;
  }

  lemma GateOrdered(x: Sys, t: Id)
    requires Coherent(x) && Roused(x) && t < |x.pc| && CanGo(x, t) && x.pc[t].AtGate?
    ensures Ordered(Advance(x, t))
  {
    assert Formed(x.s);
    hide Check, Decrease, Ordered, Staged, Born, Faithful, Roused;
    var p := Advance(x, t).pc[t];
    assert Fits(x, t, p);
    AsideOrdered(x, t, p, Advance(x, t));
  }

  lemma WakeOrdered(x: Sys, t: Id)
    requires Coherent(x) && Roused(x) && Enabled(x, t, Wake)
    ensures Ordered(x.To(t, AtGate)) && Staged(x.To(t, AtGate))
  {
    assert Fits(x, t, AtGate);
    hide Ordered, Staged, Born, Faithful, Roused;
    AsideOrdered(x, t, AtGate, x.To(t, AtGate));
    AsideStaged(x, t, AtGate, x.To(t, AtGate));
  }

  lemma EndOrdered(x: Sys, t: Id)
    requires Coherent(x) && Roused(x) && Enabled(x, t, End)
    ensures Ordered(x.To(t, Ending)) && Staged(x.To(t, Ending))
  {
    assert Fits(x, t, Ending);
    hide Ordered, Staged, Born, Faithful, Roused;
    AsideOrdered(x, t, Ending, x.To(t, Ending));
    AsideStaged(x, t, Ending, x.To(t, Ending));
  }

  predicate Leaving(p: Pc) { p.Recording? || p.SemWaiting? || p.SemReading? || p.SemPosting? }

  lemma LeavesTo(x: Sys, t: Id)
    requires t < |x.pc| && Formed(x.s) && CanGo(x, t) && (Leaving(x.pc[t]) || OfMain(x.pc[t]))
    ensures var p, y := Advance(x, t).pc[t], Advance(x, t);
            && y.pc == x.pc[t := p] && y.s == x.s
            && (if OfMain(x.pc[t]) then OfMain(p) else Leaving(p) || p.Exited?)
  {
    hide Check, Decrease;
  }

  lemma LeavesFits(x: Sys, t: Id, p: Pc)
    requires Coherent(x) && t < |x.pc|
    requires if OfMain(x.pc[t]) then OfMain(p) else Leaving(x.pc[t]) && (Leaving(p) || p.Exited?)
    ensures Fits(x, t, p)
  {
    hide Staged, Born, Faithful;
  }

  lemma LeaveOrdered(x: Sys, t: Id)
    requires Coherent(x) && Roused(x) && t < |x.pc| && CanGo(x, t) && (Leaving(x.pc[t]) || OfMain(x.pc[t]))
    ensures Ordered(Advance(x, t))
  {
    LeavesTo(x, t);
    LeavesFits(x, t, Advance(x, t).pc[t]);
    hide Advance, Ordered, Born, Faithful, Roused, Placed, Young, Exclusive, Fits;
    AsideOrdered(x, t, Advance(x, t).pc[t], Advance(x, t));
  }

  // Semaphores and the record of finished tasks.

  /** Posted for, and not yet taken off the semaphore. */
  predicate Owing(p: Pc) {
    !p.Unborn? && !p.SemReading? && !p.SemPosting? && !p.Exited?
  }

  /** The tasks that the semaphore counts. */
  function Debts(pc: seq<Pc>): nat {
    if |pc| <= 1 then 0 else Debts(pc[..|pc| - 1]) + (if Owing(pc[|pc| - 1]) then 1 else 0)
  }

  lemma {:induction false} DebtsMove(pc: seq<Pc>, t: Id, p: Pc)
    requires t < |pc|
    ensures Debts(pc[t := p])
            == Debts(pc) + (if t > 0 && Owing(p) then 1 else 0) - (if t > 0 && Owing(pc[t]) then 1 else 0)
  {
    var n := |pc| - 1;
    if n > 0 {
      if t < n {
        assert pc[t := p][..n] == pc[..n][t := p];
        DebtsMove(pc[..n], t, p);
      } else {
        assert pc[t := p][..n] == pc[..n];
      }
    }
  }

  lemma DebtsBirth(pc: seq<Pc>)
    requires pc != []
    ensures Debts(pc + [Unborn]) == Debts(pc)
  {
    assert (pc + [Unborn])[..|pc|] == pc;
  }

  lemma {:induction false} DebtsWake(pc: seq<Pc>)
    ensures Debts(WakeAll(pc)) == Debts(pc)
  {
    if |pc| > 1 {
      assert WakeAll(pc)[..|pc| - 1] == WakeAll(pc[..|pc| - 1]);
      DebtsWake(pc[..|pc| - 1]);
    }
  }

  lemma {:induction false} DebtsSeen(pc: seq<Pc>, t: Id)
    requires 1 <= t < |pc| && Owing(pc[t])
    ensures Debts(pc) > 0
  {
    if t < |pc| - 1 { DebtsSeen(pc[..|pc| - 1], t); }
  }

  lemma {:induction false} DebtsFrom(pc: seq<Pc>) returns (t: Id)
    requires Debts(pc) > 0
    ensures 1 <= t < |pc| && Owing(pc[t])
  {
    if Owing(pc[|pc| - 1]) { t := |pc| - 1; } else { t := DebtsFrom(pc[..|pc| - 1]); }
  }

  predicate Recorded(p: Pc) { p.SemWaiting? || p.SemReading? || p.SemPosting? || p.Exited? }

  predicate Distinct(q: seq<Id>) { forall i, j :: 0 <= i < j < |q| ==> q[i] != q[j] }

  /** The semaphore counts the tasks posted for that have not taken it; terminated_threads
      holds the tasks that have recorded themselves, each once. */
  predicate Tallied(x: Sys) {
    && x.notTerminated == Debts(x.pc) && x.noThreads + 1 == |x.pc| && |x.recorded| <= MAX_SIZE
    && Distinct(x.recorded)
    && (forall t :: 0 <= t < |x.pc| ==> (t in x.recorded <==> Recorded(x.pc[t])))
    && (forall t :: t in x.recorded ==> t < |x.pc|)
  }

  lemma MoveTallied(x: Sys, t: Id, p: Pc, y: Sys)
    requires Tallied(x) && t < |x.pc| && Recorded(p) == Recorded(x.pc[t]) && (t > 0 ==> Owing(p) == Owing(x.pc[t]))
    requires y.pc == x.pc[t := p] && y.recorded == x.recorded && y.noThreads == x.noThreads
    requires y.notTerminated == x.notTerminated
    ensures Tallied(y)
  {
    DebtsMove(x.pc, t, p);
  }

  lemma BirthTallied(x: Sys, t: Id, p: nat)
    requires Tallied(x) && t < |x.pc| && x.pc[t].Handler? && Formed(x.s) && p <= MAX_PRIO
    ensures Tallied(Begin(x, t, Fork(p)))
  {
    DebtsMove(x.pc, t, Posting(|x.pc|, p));
    DebtsBirth(x.pc[t := Posting(|x.pc|, p)]);
  }

  /** Two threads move between places of threads that have not recorded themselves. */
  lemma PairTallied(x: Sys, c: Id, q: Pc, t: Id, p: Pc, y: Sys)
    requires Tallied(x) && 0 < c < |x.pc| && t < |x.pc| && c != t && (t > 0 ==> Owing(p) == Owing(x.pc[t])) && Owing(q)
    requires !Recorded(x.pc[c]) && !Recorded(q) && !Recorded(x.pc[t]) && !Recorded(p)
    requires y.pc == x.pc[c := q][t := p] && y.recorded == x.recorded && y.noThreads == x.noThreads
    requires y.notTerminated == x.notTerminated + (if Owing(x.pc[c]) then 0 else 1)
    ensures Tallied(y)
  {
    hide Debts;
    DebtsMove(x.pc, c, q);
    DebtsMove(x.pc[c := q], t, p);
  }

  lemma PostTallied(x: Sys, t: Id)
    requires Tallied(x) && Born(x) && Formed(x.s) && t < |x.pc| && t == x.s.running && x.pc[t].Posting? && CanGo(x, t)
    requires !x.pc[MAIN].Unborn?
    ensures Tallied(Advance(x, t))
  {
    var c, p := x.pc[t].child, x.pc[t].p;
    assert x.pc[c].Unborn?;
    hide Born, Check, Decrease, Created, Tallied;
    PairTallied(x, c, Posted, t, Creating(c, p), Advance(x, t));
  }

  lemma CreateTallied(x: Sys, t: Id)
    requires Tallied(x) && Born(x) && Formed(x.s) && t < |x.pc| && t == x.s.running && x.pc[t].Creating? && CanGo(x, t)
    requires !x.pc[MAIN].Posted?
    ensures Tallied(Advance(x, t))
  {
    var c, p := x.pc[t].child, x.pc[t].p;
    assert x.pc[c].Posted?;
    hide Born, Check, Decrease, Created, Tallied;
    PairTallied(x, c, AtGate, t, Queueing(c, p), Advance(x, t));
  }

  lemma BroadcastTallied(x: Sys, t: Id)
    requires Tallied(x) && Formed(x.s) && t < |x.pc| && x.pc[t].Broadcasting? && CanGo(x, t)
    ensures Tallied(Advance(x, t))
  {
    DebtsWake(x.pc);
    DebtsMove(WakeAll(x.pc), t, Resumed(t, x.pc[t].op, true));
  }

  lemma RecordTallied(x: Sys, t: Id)
    requires Tallied(x) && Formed(x.s) && t < |x.pc| && x.pc[t].Recording? && CanGo(x, t)
    ensures Tallied(Advance(x, t))
  {
    DebtsMove(x.pc, t, SemWaiting);
    assert t !in x.recorded;
  }

  lemma TakeTallied(x: Sys, t: Id)
    requires Tallied(x) && Formed(x.s) && 0 < t < |x.pc| && x.pc[t].SemWaiting? && CanGo(x, t)
    ensures Tallied(Advance(x, t))
  {
    DebtsMove(x.pc, t, SemReading);
  }

  /** The other steps move one thread between places that count alike. */
  lemma OtherTallied(x: Sys, t: Id)
    requires Tallied(x) && Placed(x) && Formed(x.s) && t < |x.pc| && CanGo(x, t)
    requires !x.pc[t].Posting? && !x.pc[t].Creating? && !x.pc[t].Broadcasting? && !x.pc[t].Recording?
    requires !x.pc[t].SemWaiting?
    ensures Tallied(Advance(x, t))
  {
    MoveTallied(x, t, Advance(x, t).pc[t], Advance(x, t));
  }

  // Shutdown.

  predicate Taken(p: Pc) { p.SemReading? || p.SemPosting? || p.Exited? }

  /** Every task has taken its post, and the main thread forks no more. */
  predicate Settled(x: Sys)
    requires x.pc != []
  {
    !Active(x.pc[MAIN]) && forall t :: 1 <= t < |x.pc| ==> Taken(x.pc[t])
  }

  /** A last task that is still to look at the semaphore, or to post. */
  predicate Closer(pc: seq<Pc>) { exists t :: 1 <= t < |pc| && (pc[t].SemReading? || pc[t].SemPosting?) }

  predicate Closing(x: Sys)
    requires x.pc != []
  {
    && (x.allTerminated > 0 || x.pc[MAIN].Joining? ==> Settled(x))
    && (forall t :: 1 <= t < |x.pc| && x.pc[t].SemPosting? ==> Settled(x))
    && (Settled(x) && |x.pc| > 1 && !x.pc[MAIN].Joining? ==> x.allTerminated > 0 || Closer(x.pc))
  }

  /** A semaphore at zero means that every task has taken its post. */
  lemma NobodyOwes(x: Sys)
    requires Coherent(x) && Tallied(x) && x.notTerminated == 0 && !Active(x.pc[MAIN])
    ensures Settled(x)
  {
    forall t | 1 <= t < |x.pc|
      ensures Taken(x.pc[t])
    {
      if Owing(x.pc[t]) { DebtsSeen(x.pc, t); }
      if x.pc[t].Unborn? { BearerOwes(x, t); }
    }
  }

  lemma BearerOwes(x: Sys, t: Id)
    requires Coherent(x) && 1 <= t < |x.pc| && x.pc[t].Unborn? && !Active(x.pc[MAIN])
    ensures Debts(x.pc) > 0
  {
    DebtsSeen(x.pc, x.s.running);
  }

  /** A task that has run leaves the main thread outside its fork. */
  lemma MainHasForked(x: Sys, t: Id)
    requires Coherent(x) && 1 <= t < |x.pc| && !Waiting(x.pc[t])
    ensures !Active(x.pc[MAIN])
  {}

  // What a step leaves alone.

  predicate Stays(p: Pc, q: Pc) {
    p == q || (p.Asleep? && q.AtGate?) || (p.Unborn? && q.Posted?) || (p.Posted? && q.AtGate?)
  }

  /** The threads other than the one that moves stay, or are woken, posted for or created;
      a new one is unborn. */
  predicate OthersIn(x: Sys, t: Id, y: Sys) {
    && |x.pc| <= |y.pc| && (forall u :: |x.pc| <= u < |y.pc| ==> y.pc[u].Unborn?)
    && (forall u :: 0 <= u < |x.pc| && u != t ==> Stays(x.pc[u], y.pc[u]))
  }

  lemma CallOthers(x: Sys, t: Id, op: Op)
    requires Enabled(x, t, Call(op))
    ensures OthersIn(x, t, Begin(x, t, op)) && (|Begin(x, t, op).pc| > |x.pc| ==> op.Fork?)
  {
    hide Prepared;
  }

  lemma GoOthers(x: Sys, t: Id)
    requires Coherent(x) && t < |x.pc| && CanGo(x, t)
    ensures OthersIn(x, t, Advance(x, t)) && |Advance(x, t).pc| == |x.pc|
  {
    hide Check, Decrease, Staged, Placed, Faithful, Young;
  }

  lemma DoOthers(x: Sys, t: Id, a: Act)
    requires Coherent(x) && Enabled(x, t, a)
    ensures OthersIn(x, t, Do(x, t, a))
    ensures |Do(x, t, a).pc| > |x.pc| ==> a.Call? && a.op.Fork?
  {
    hide Coherent, Begin, Advance;
    match a
    case Call(op) => CallOthers(x, t, op);
    case Go => GoOthers(x, t);
    case _ =>
  }

  /** What the moving thread does to the semaphores of the end. */
  predicate OwnMove(x: Sys, t: Id, a: Act, y: Sys) {
    t < |x.pc| && t < |y.pc|
    && var p, q := x.pc[t], y.pc[t];
       && (q.SemPosting? ==> a.Go? && p.SemReading? && x.notTerminated == 0)
       && (q.Joining? ==> a.Go? && (p.AwaitingAll? || (p.Ending? && x.notTerminated == 0)))
       && (Taken(q) && !Taken(p) ==> a.Go? && p.SemWaiting? && q.SemReading?)
       && (Taken(p) ==> Taken(q) && a.Go?)
       && (q.SemReading? ==> p.SemWaiting?)
       && (p.SemReading? && q.Exited? ==> x.notTerminated != 0)
       && (y.allTerminated > x.allTerminated <==> a.Go? && p.SemPosting?)
       && (y.allTerminated < x.allTerminated ==> p.AwaitingAll? && q.Joining?)
  }

  lemma EndMove(x: Sys, t: Id)
    requires t < |x.pc| && Formed(x.s) && CanGo(x, t) && (Leaving(x.pc[t]) || OfMain(x.pc[t]))
    ensures OwnMove(x, t, Go, Advance(x, t))
  {
    hide Check, Decrease, WakeAll;
  }

  lemma CallMove(x: Sys, t: Id)
    requires t < |x.pc| && Formed(x.s) && CanGo(x, t) && !Leaving(x.pc[t]) && !OfMain(x.pc[t])
    ensures OwnMove(x, t, Go, Advance(x, t))
  {
    hide Check, Decrease, WakeAll;
  }

  lemma GoMove(x: Sys, t: Id)
    requires t < |x.pc| && Formed(x.s) && CanGo(x, t)
    ensures OwnMove(x, t, Go, Advance(x, t))
  {
    hide Advance, OwnMove;
    if Leaving(x.pc[t]) || OfMain(x.pc[t]) { EndMove(x, t); } else { CallMove(x, t); }
  }

  lemma DoMove(x: Sys, t: Id, a: Act)
    requires Enabled(x, t, a)
    ensures OwnMove(x, t, a, Do(x, t, a))
  {
    hide Prepared, Advance, Created;
    if a.Go? { GoMove(x, t); }
  }

  /** The main thread does not come back to its own code, or to a call. */
  lemma MainMove(x: Sys, a: Act)
    requires Coherent(x) && Enabled(x, MAIN, a) && !Active(x.pc[MAIN])
    ensures !Active(Do(x, MAIN, a).pc[MAIN]) && a.Go?
  {
    hide Check, Decrease, Prepared, Staged, Faithful, Young, Born;
  }

  lemma SettledStays(x: Sys, t: Id, a: Act)
    requires Coherent(x) && Settled(x) && Enabled(x, t, a)
    ensures |Do(x, t, a).pc| == |x.pc| && Settled(Do(x, t, a))
  {
    hide Coherent, Do;
    DoOthers(x, t, a);
    DoMove(x, t, a);
    if t == MAIN { MainMove(x, a); }
  }

  lemma SettledOwesNothing(x: Sys)
    requires x.pc != [] && Settled(x)
    ensures Debts(x.pc) == 0
  {
    if Debts(x.pc) > 0 { var t := DebtsFrom(x.pc); }
  }

  /** Once settled, the last task's post or its look at the semaphore is not lost. */
  lemma SettledCloses(x: Sys, t: Id, a: Act)
    requires Coherent(x) && Tallied(x) && Closing(x) && Settled(x) && Enabled(x, t, a)
    ensures Closing(Do(x, t, a))
  {
    SettledStays(x, t, a);
    SettledOwesNothing(x);
    DoOthers(x, t, a);
    DoMove(x, t, a);
    hide Coherent, Do, Debts;
    var y := Do(x, t, a);
    if |y.pc| > 1 && !y.pc[MAIN].Joining? && y.allTerminated == 0 {
      assert x.allTerminated == 0 && Closer(x.pc);
      var u :| 1 <= u < |x.pc| && (x.pc[u].SemReading? || x.pc[u].SemPosting?);
      assert y.pc[u].SemReading? || y.pc[u].SemPosting?;
    }
  }

  /** Only a task that takes its post can be the last thing that was missing. */
  lemma BecomesSettled(x: Sys, t: Id, a: Act)
    requires Coherent(x) && !Settled(x) && Enabled(x, t, a) && |Do(x, t, a).pc| > 1 && Settled(Do(x, t, a))
    ensures 1 <= t < |x.pc| && x.pc[t].SemWaiting? && Do(x, t, a).pc[t].SemReading?
  {
    DoOthers(x, t, a);
    DoMove(x, t, a);
    var y := Do(x, t, a);
    if Active(x.pc[MAIN]) {
      assert x.s.running == MAIN;
      MainCallsLeaveTasks(x, t, a);
    } else {
      hide Coherent, Do;
      var u :| 1 <= u < |x.pc| && !Taken(x.pc[u]);
      assert Taken(y.pc[u]);
    }
  }

  /** While the main thread forks its tasks wait. */
  lemma MainCallsLeaveTasks(x: Sys, t: Id, a: Act)
    requires Coherent(x) && Active(x.pc[MAIN]) && Enabled(x, t, a) && |Do(x, t, a).pc| > 1
    ensures !Taken(Do(x, t, a).pc[|Do(x, t, a).pc| - 1])
  {
    DoOthers(x, t, a);
    DoMove(x, t, a);
    assert x.s.running == MAIN;
    hide Do, Staged, Placed, Faithful, Born;
    var y := Do(x, t, a);
    var u := |y.pc| - 1;
    assert u < |x.pc| ==> Waiting(x.pc[u]);
  }

  /** Until then nobody posts, and the step that settles is a task's taking of its post. */
  lemma UnsettledCloses(x: Sys, t: Id, a: Act)
    requires Coherent(x) && Tallied(x) && Closing(x) && !Settled(x) && Enabled(x, t, a)
    ensures Closing(Do(x, t, a))
  {
    NobodyPosts(x, t, a);
    if Settled(Do(x, t, a)) && |Do(x, t, a).pc| > 1 { BecomesSettled(x, t, a); }
    hide Coherent, Do, Tallied, Enabled;
  }

  lemma NobodyPosts(x: Sys, t: Id, a: Act)
    requires Coherent(x) && Tallied(x) && Closing(x) && !Settled(x) && Enabled(x, t, a)
    ensures var y := Do(x, t, a); y.pc != [] && y.allTerminated == 0 && !y.pc[MAIN].Joining?
                                  && forall u :: 1 <= u < |y.pc| ==> !y.pc[u].SemPosting?
  {
    hide Staged, Born, Young, Faithful;
    DoOthers(x, t, a);
    DoMove(x, t, a);
    if x.pc[t].SemReading? && x.notTerminated == 0 {
      SomebodyLooks(x, t);
    } else if x.pc[t].Ending? && x.notTerminated == 0 {
      MainEnds(x, t);
    } else {
      hide Coherent, Do, Tallied;
    }
  }

  /** A task that finds the semaphore at zero is the last to have taken its post. */
  lemma SomebodyLooks(x: Sys, t: Id)
    requires Coherent(x) && Tallied(x) && t < |x.pc| && x.pc[t].SemReading? && x.notTerminated == 0
    ensures Settled(x)
  {
    MainHasForked(x, t);
    NobodyOwes(x);
  }

  lemma MainEnds(x: Sys, t: Id)
    requires Coherent(x) && Tallied(x) && t < |x.pc| && x.pc[t].Ending? && x.notTerminated == 0
    ensures Settled(x)
  {
    NobodyOwes(x);
  }

  // Every interleaving.

  predicate Inv(x: Sys) { Coherent(x) && Roused(x) && Tallied(x) && Closing(x) }

  /** The calls that have reached check_scheduler, one after the other, lead to the base. */
  predicate Historic(x: Sys, timeQuantum: nat, io: nat) { x.base == After(Init(timeQuantum, io), x.ops) }

  /** The step of a thread that is Active at a place of its own. */
  lemma ActiveGoes(x: Sys, t: Id)
    requires Inv(x) && t < |x.pc| && CanGo(x, t) && Active(x.pc[t])
    ensures Staged(Advance(x, t)) && Ordered(Advance(x, t))
  {
    hide Scan, Check, Prepared, Drained, Decrease;
    match x.pc[t]
    case Posting(_, _) => ForkStaged(x, t); PostOrdered(x, t);
    case Creating(_, _) => ForkStaged(x, t); CreateOrdered(x, t);
    case Queueing(_, _) => ForkStaged(x, t); QueueOrdered(x, t);
    case Decreasing(_) => DecreaseStaged(x, t); DecreaseOrdered(x, t);
    case Checking(_) => CheckStaged(x, t); CheckOrdered(x, t);
  }

  lemma OthersGo(x: Sys, t: Id)
    requires Inv(x) && t < |x.pc| && CanGo(x, t) && !Active(x.pc[t])
    ensures Staged(Advance(x, t)) && Ordered(Advance(x, t))
  {
    if x.pc[t].Broadcasting? {
      BroadcastOrdered(x, t);
    } else {
      OtherStaged(x, t);
      match x.pc[t]
      case AtGate => GateOrdered(x, t);
      case Testing(_) => TestOrdered(x, t);
      case _ => LeaveOrdered(x, t);
    }
  }

  lemma OtherStaged(x: Sys, t: Id)
    requires Coherent(x) && t < |x.pc| && CanGo(x, t) && !Active(x.pc[t]) && !x.pc[t].Broadcasting?
    ensures Staged(Advance(x, t))
  {
    assert Formed(x.s);
    hide Check, Decrease, Staged, Placed, Exclusive, Faithful, Young, Born;
    AsideStaged(x, t, Advance(x, t).pc[t], Advance(x, t));
  }

  lemma GoTallied(x: Sys, t: Id)
    requires Inv(x) && t < |x.pc| && CanGo(x, t)
    ensures Tallied(Advance(x, t))
  {
    hide Scan, Check, Prepared, Drained, Decrease;
    match x.pc[t]
    case Posting(_, _) => PostTallied(x, t);
    case Creating(_, _) => CreateTallied(x, t);
    case Broadcasting(_) => BroadcastTallied(x, t);
    case Recording => RecordTallied(x, t);
    case SemWaiting => TakeTallied(x, t);
    case _ => OtherTallied(x, t);
  }

  lemma CallKeeps(x: Sys, t: Id, op: Op)
    requires Inv(x) && Enabled(x, t, Call(op))
    ensures Coherent(Begin(x, t, op)) && Roused(Begin(x, t, op)) && Tallied(Begin(x, t, op))
  {
    CallStaged(x, t, op);
    if op.Fork? {
      BirthOrdered(x, t, op);
      BirthTallied(x, t, op.priority);
    } else {
      CallOrdered(x, t, op);
      MoveTallied(x, t, Begin(x, t, op).pc[t], Begin(x, t, op));
    }
  }

  lemma GoKeeps(x: Sys, t: Id)
    requires Inv(x) && t < |x.pc| && CanGo(x, t)
    ensures Coherent(Advance(x, t)) && Roused(Advance(x, t)) && Tallied(Advance(x, t))
  {
    if Active(x.pc[t]) { ActiveGoes(x, t); } else { OthersGo(x, t); }
    GoTallied(x, t);
  }

  /** Every step of every thread keeps the invariant. */
  lemma {:induction false} StepKeeps(x: Sys, t: Id, a: Act)
    requires Inv(x) && Enabled(x, t, a)
    ensures Inv(Do(x, t, a))
  {
    hide Scan, Check, Prepared, Drained, Decrease;
    match a {
      case Call(op) => CallKeeps(x, t, op);
      case Go => GoKeeps(x, t);
      case Wake =>
        WakeOrdered(x, t);
        MoveTallied(x, t, AtGate, x.To(t, AtGate));
      case End =>
        EndOrdered(x, t);
        MoveTallied(x, t, Ending, x.To(t, Ending));
    }
    if Settled(x) { SettledCloses(x, t, a); } else { UnsettledCloses(x, t, a); }
  }

  lemma StepHistoric(x: Sys, t: Id, a: Act, timeQuantum: nat, io: nat)
    requires Inv(x) && Historic(x, timeQuantum, io) && Enabled(x, t, a)
    ensures Historic(Do(x, t, a), timeQuantum, io)
  {
    if a.Go? && x.pc[t].Checking? {
      var op := x.pc[t].op;
      CheckStaged(x, t);
      assert (x.ops + [op])[..|x.ops|] == x.ops;
    }
  }

  /** A schedule: which thread moves, and how; a move that is not possible is no move. */
  function Interleaved(x: Sys, moves: seq<(Id, Act)>): Sys {
    if moves == [] then x
    else
      var y := Interleaved(x, moves[..|moves| - 1]);
      var (t, a) := moves[|moves| - 1];
      if Enabled(y, t, a) then Do(y, t, a) else y
  }

  lemma StartInv(timeQuantum: nat, io: nat)
    requires ValidInit(timeQuantum, io)
    ensures Inv(Start(timeQuantum, io)) && Historic(Start(timeQuantum, io), timeQuantum, io)
  {
    InitOrderly(timeQuantum, io);
  }

  lemma {:induction false} InvAlways(timeQuantum: nat, io: nat, moves: seq<(Id, Act)>)
    requires ValidInit(timeQuantum, io)
    ensures var x := Interleaved(Start(timeQuantum, io), moves); Inv(x) && Historic(x, timeQuantum, io)
  {
    if moves == [] {
      StartInv(timeQuantum, io);
    } else {
      var init := moves[..|moves| - 1];
      var (t, a) := moves[|moves| - 1];
      InvAlways(timeQuantum, io, init);
      var y := Interleaved(Start(timeQuantum, io), init);
      if Enabled(y, t, a) {
        StepKeeps(y, t, a);
        StepHistoric(y, t, a, timeQuantum, io);
      }
    }
  }

  // What it means.

  /** Mutual exclusion: at most one thread executes handler code or a call up to its
      check_scheduler, and it is the running thread. */
  lemma {:induction false} MutualExclusion(timeQuantum: nat, io: nat, moves: seq<(Id, Act)>, t: Id, u: Id)
    requires ValidInit(timeQuantum, io)
    ensures var x := Interleaved(Start(timeQuantum, io), moves);
            t < |x.pc| && u < |x.pc| && Active(x.pc[t]) && Active(x.pc[u]) ==> t == u == x.s.running
  {
    InvAlways(timeQuantum, io, moves);
  }

  /** Only the running thread changes the scheduler's state, the running thread included. */
  lemma {:induction false} OnlyRunningChanges(timeQuantum: nat, io: nat, moves: seq<(Id, Act)>, t: Id, a: Act)
    requires ValidInit(timeQuantum, io)
    ensures var x := Interleaved(Start(timeQuantum, io), moves);
            Enabled(x, t, a) && Do(x, t, a).s != x.s ==> t == x.s.running && Active(x.pc[t])
  {
    hide Tallied, Closing, Young, Born, Roused, Check, Prepared, Decrease, Created;
    InvAlways(timeQuantum, io, moves);
  }

  /** No lost wakeup: when the running thread sleeps, another one has yet to broadcast, or
      to find that it must. */
  lemma {:induction false} NoLostWakeup(timeQuantum: nat, io: nat, moves: seq<(Id, Act)>) returns (u: Id)
    requires ValidInit(timeQuantum, io)
    ensures var x := Interleaved(Start(timeQuantum, io), moves);
            && x.s.running < |x.pc|
            && (x.pc[x.s.running].Asleep? ==>
                  && u < |x.pc| && u != x.s.running
                  && (x.pc[u].Broadcasting? || (x.pc[u].Testing? && CanGo(x, u) && Enabled(x, u, Go)
                                                && Advance(x, u).pc[u].Broadcasting?)))
  {
    InvAlways(timeQuantum, io, moves);
    var x := Interleaved(Start(timeQuantum, io), moves);
    u := 0;
    if x.pc[x.s.running].Asleep? {
      u :| 0 <= u < |x.pc| && u != x.s.running && Rousing(x.pc[u]);
    }
  }

  /** What a handler sees is the outcome of atomic calls, in the order in which they have
      reached check_scheduler: the properties of SchedInvariant hold of it. */
  lemma {:induction false} HandlerSeesAtomicCalls(timeQuantum: nat, io: nat, moves: seq<(Id, Act)>, t: Id)
    requires ValidInit(timeQuantum, io)
    ensures var x := Interleaved(Start(timeQuantum, io), moves);
            t < |x.pc| && x.pc[t].Handler? ==>
              && x.s == After(Init(timeQuantum, io), x.ops) && SchedInvariant.Orderly(x.s)
              && x.s.running == t && !x.s.Current().workDone
              && (PoliteRun(Init(timeQuantum, io), x.ops) ==> Conserved(x.s) && Paced(x.s))
  {
    hide Tallied, Closing, Young, Born;
    InvAlways(timeQuantum, io, moves);
    var x := Interleaved(Start(timeQuantum, io), moves);
    PriorityAlways(timeQuantum, io, x.ops);
    if PoliteRun(Init(timeQuantum, io), x.ops) { ConservedAlways(timeQuantum, io, x.ops); }
  }

  lemma {:induction false} DistinctCount(q: seq<Id>, ids: set<Id>)
    requires Distinct(q) && forall t :: t in q <==> t in ids
    ensures |q| == |ids|
  {
    if q == [] {
      assert ids == {};
    } else {
      var t, rest := q[|q| - 1], q[..|q| - 1];
      assert q == rest + [t];
      DistinctCount(rest, ids - {t});
    }
  }

  lemma SettledIsRecorded(x: Sys)
    requires Coherent(x) && Tallied(x) && Settled(x)
    ensures |x.recorded| == x.noThreads == |x.s.tasks| - 1
    ensures forall t :: 1 <= t <= x.noThreads ==> t in x.recorded && x.s.tasks[t].workDone
  {
    DistinctCount(x.recorded, Ids(|x.pc|));
  }

  /** Shutdown: when so_end is past its wait, terminated_threads holds exactly the forked
      tasks, each once, and all of them are finished. */
  lemma {:induction false} ShutdownSafe(timeQuantum: nat, io: nat, moves: seq<(Id, Act)>)
    requires ValidInit(timeQuantum, io)
    ensures var x := Interleaved(Start(timeQuantum, io), moves);
            x.pc != [] && (x.pc[MAIN].Joining? ==>
              && |x.recorded| == x.noThreads == |x.s.tasks| - 1 && x.noThreads <= MAX_SIZE && Distinct(x.recorded)
              && (forall t :: 1 <= t <= x.noThreads ==> t in x.recorded && x.s.tasks[t].workDone))
  {
    InvAlways(timeQuantum, io, moves);
    var x := Interleaved(Start(timeQuantum, io), moves);
    if x.pc[MAIN].Joining? { SettledIsRecorded(x); }
  }

  /** The tasks that have recorded themselves. */
  function Recorders(x: Sys): set<Id> { set t | 0 <= t < |x.pc| && Recorded(x.pc[t]) }

  /** The bound of terminated_threads, over every interleaving: a task's own entry is inside
      the array if and only if at most 1000 tasks, itself included, have recorded
      themselves by then; with at most 1000 tasks created no entry is outside it. */
  lemma {:induction false} RecordStaysInside(timeQuantum: nat, io: nat, moves: seq<(Id, Act)>, t: Id)
    requires ValidInit(timeQuantum, io)
    ensures var x := Interleaved(Start(timeQuantum, io), moves);
            t < |x.pc| && x.pc[t].Recording? ==>
              && (Overruns(x, t) <==> |Recorders(x) + {t}| > 1000)
              && (x.noThreads <= 1000 ==> !Overruns(x, t))
  {
    InvAlways(timeQuantum, io, moves);
    var x := Interleaved(Start(timeQuantum, io), moves);
    if t < |x.pc| && x.pc[t].Recording? {
      NoMainAmong(x);
      RecordersCount(x, t);
    }
  }

  lemma NoMainAmong(x: Sys)
    requires Coherent(x)
    ensures !Recorded(x.pc[MAIN]) && !x.pc[MAIN].Recording?
  {}

  lemma RecordersCount(x: Sys, t: Id)
    requires Tallied(x) && t < |x.pc| && x.pc[t].Recording? && !Recorded(x.pc[MAIN]) && t != MAIN
    ensures |Recorders(x) + {t}| == |x.recorded| + 1 <= x.noThreads
  {
    hide Debts, Orderly;
    DistinctCount(x.recorded, Recorders(x));
    assert t !in Recorders(x);
    SubsetSize(Recorders(x) + {t}, Ids(|x.pc|));
  }

  /** The semaphore's value is the number of tasks posted for that have not taken it. */
  lemma {:induction false} SemaphoreAccount(timeQuantum: nat, io: nat, moves: seq<(Id, Act)>)
    requires ValidInit(timeQuantum, io)
    ensures var x := Interleaved(Start(timeQuantum, io), moves);
            && x.notTerminated == Debts(x.pc)
            && forall t :: 1 <= t < |x.pc| && x.pc[t].SemWaiting? ==> CanGo(x, t)
  {
    InvAlways(timeQuantum, io, moves);
    var x := Interleaved(Start(timeQuantum, io), moves);
    forall t | 1 <= t < |x.pc| && x.pc[t].SemWaiting?
      ensures CanGo(x, t)
    {
      DebtsSeen(x.pc, t);
    }
  }

  /** so_end does not wait in vain: once every task has exited it can go on. */
  lemma {:induction false} SoEndGoesOn(timeQuantum: nat, io: nat, moves: seq<(Id, Act)>)
    requires ValidInit(timeQuantum, io)
    ensures var x := Interleaved(Start(timeQuantum, io), moves);
            x.pc != []
            && ((forall t :: 1 <= t < |x.pc| ==> x.pc[t].Exited?) && |x.pc| > 1 && x.pc[MAIN].AwaitingAll? ==>
                  CanGo(x, MAIN))
  {
    InvAlways(timeQuantum, io, moves);
  }

  // Progress.

  predicate CanMove(x: Sys, t: Id)
    requires t < |x.pc|
  {
    x.pc[t].Handler? || CanGo(x, t)
  }

  /** While the running task is unfinished some thread can move. */
  lemma {:induction false} SomebodyMoves(timeQuantum: nat, io: nat, moves: seq<(Id, Act)>) returns (t: Id)
    requires ValidInit(timeQuantum, io)
    ensures var x := Interleaved(Start(timeQuantum, io), moves);
            && Formed(x.s)
            && (x.s.running != MAIN && !x.s.Current().workDone ==> t < |x.pc| && CanMove(x, t))
  {
    InvAlways(timeQuantum, io, moves);
    var x := Interleaved(Start(timeQuantum, io), moves);
    t := x.s.running;
    if x.pc[t].Asleep? {
      t := NoLostWakeup(timeQuantum, io, moves);
    }
  }

  /** The threads are stuck only when every unfinished task waits for a device. */
  lemma {:induction false} StuckOnlyOnDevices(timeQuantum: nat, io: nat, moves: seq<(Id, Act)>)
    requires ValidInit(timeQuantum, io)
    ensures var x := Interleaved(Start(timeQuantum, io), moves);
            PoliteRun(Init(timeQuantum, io), x.ops) && x.s.running != MAIN
            && (forall t :: 0 <= t < |x.pc| ==> !CanMove(x, t)) ==>
              forall t :: 1 <= t < |x.s.tasks| && !x.s.tasks[t].workDone ==> x.s.tasks[t].waiting
  {
    InvAlways(timeQuantum, io, moves);
    var x := Interleaved(Start(timeQuantum, io), moves);
    var u := SomebodyMoves(timeQuantum, io, moves);
    var stuck := forall t :: 0 <= t < |x.pc| ==> !CanMove(x, t);
    if PoliteRun(Init(timeQuantum, io), x.ops) && x.s.running != MAIN && stuck {
      assert !CanMove(x, x.s.running);
      ConservedAlways(timeQuantum, io, x.ops);
      RestedWaits(x.s);
    }
  }

  /** When the running task is finished and no task is ready, the others wait. */
  lemma RestedWaits(s: Sched)
    requires Conserved(s) && Rested(s) && s.Current().workDone
    ensures forall t :: 1 <= t < |s.tasks| && !s.tasks[t].workDone ==> s.tasks[t].waiting
  {
    forall t | 1 <= t < |s.tasks| && !s.tasks[t].workDone
      ensures s.tasks[t].waiting
    {
      OnePlace(s, t);
      if t in Flat(s.ready) { var p := FlatFrom(s.ready, t); }
      var d := FlatFrom(s.blocked, t);
    }
  }
}
