/** The scheduler as the library keeps it: fields and ring buffers updated in place by
    check_scheduler, decrease_quantum and the calls.  Each method computes the function of
    SchedModel that the properties are proved about. */
module SchedObject {
  import opened CircularQueues
  import opened SchedModel

  const INVALID_TID: Id := 0

  type IdQueue = CircularQueue<Id>

  /** The memory of some queues. */
  ghost function Footprint(qs: seq<IdQueue>): set<object> {
    (set i | 0 <= i < |qs| :: qs[i] as object) + (set i | 0 <= i < |qs| :: qs[i].elem as object)
  }

  /** Queues in working order that share no memory. */
  ghost predicate Separate(qs: seq<IdQueue>)
    reads Footprint(qs)
  {
    && (forall i :: 0 <= i < |qs| ==> qs[i].Valid())
    && (forall i, j :: 0 <= i < j < |qs| ==> qs[i] != qs[j] && qs[i].elem != qs[j].elem)
  }

  ghost function AllContents(qs: seq<IdQueue>): (r: seq<seq<Id>>)
    requires Separate(qs)
    reads Footprint(qs)
    ensures |r| == |qs| && forall i :: 0 <= i < |qs| ==> r[i] == qs[i].Contents()
  {
    if qs == [] then []
    else
      assert Footprint(qs[..|qs| - 1]) <= Footprint(qs);
      AllContents(qs[..|qs| - 1]) + [qs[|qs| - 1].Contents()]
  }

  method NewQueues(n: nat) returns (qs: seq<IdQueue>)
    ensures |qs| == n && Separate(qs) && AllContents(qs) == Empty(n) && fresh(Footprint(qs))
  {
    qs := [];
    for i := 0 to n
      invariant |qs| == i && Separate(qs)
      invariant forall j :: 0 <= j < i ==> fresh(qs[j]) && fresh(qs[j].elem)
      invariant forall j :: 0 <= j < i ==> qs[j].Contents() == []
    {
      var q := new CircularQueue<Id>();
      qs := qs + [q];
    }
  }

  /** Adds to one queue of several. */
  method PutInto(qs: seq<IdQueue>, i: nat, t: Id)
    requires i < |qs| && Separate(qs)
    modifies qs[i], qs[i].elem
    ensures Separate(qs) && AllContents(qs) == old(AllContents(qs))[i := Enqueued(old(AllContents(qs))[i], t)]
  {
    qs[i].Enqueue(t);
  }

  /** Removes the front of one queue of several. */
  method TakeFrom(qs: seq<IdQueue>, i: nat) returns (t: Option<Id>)
    requires i < |qs| && Separate(qs)
    modifies qs[i], qs[i].elem
    ensures Separate(qs) && t == Head(old(AllContents(qs))[i])
    ensures AllContents(qs) == old(AllContents(qs))[i := Dequeued(old(AllContents(qs))[i])]
  {
    t := qs[i].Dequeue();
  }

  class Scheduler {
    const timeQuantum: nat
    const io: nat
    const ready: seq<IdQueue>
    const blocked: seq<IdQueue>
    var running: Id
    var mainRunning: bool
    var tasks: seq<Task>

    ghost predicate Valid()
      reads this, Footprint(ready), Footprint(blocked)
    {
      && Separate(ready) && Separate(blocked)
      && Footprint(ready) !! Footprint(blocked) && this !in Footprint(ready) && this !in Footprint(blocked)
    }

    ghost predicate Good()
      reads this, Footprint(ready), Footprint(blocked)
    {
      Valid() && Formed(View())
    }

    ghost function View(): Sched
      requires Separate(ready) && Separate(blocked)
      reads this, Footprint(ready), Footprint(blocked)
    {
      Sched(timeQuantum, io, running, mainRunning, tasks, AllContents(ready), AllContents(blocked))
    }

    constructor (timeQuantum: nat, io: nat, ready: seq<IdQueue>, blocked: seq<IdQueue>)
      requires ValidInit(timeQuantum, io) && Separate(ready) && Separate(blocked)
      requires Footprint(ready) !! Footprint(blocked)
      requires AllContents(ready) == Empty(MAX_PRIO + 1) && AllContents(blocked) == Empty(MAX_EVENTS)
      ensures Good() && View() == Init(timeQuantum, io)
      ensures this.ready == ready && this.blocked == blocked
    {
      this.timeQuantum, this.io := timeQuantum, io;
      this.ready, this.blocked := ready, blocked;
      running, mainRunning := MAIN, true;
      tasks := [MAIN_TASK];
    }

    /** enqueue on a ready queue. */
    method MakeReady(p: nat, t: Id)
      requires Good() && p <= MAX_PRIO && 1 <= t < |tasks|
      modifies Footprint(ready)
      ensures Good() && View() == old(View()).Ready(p, t)
    {
      ReadyFormed(View(), p, t);
      PutInto(ready, p, t);
    }

    method TakeReady(p: nat) returns (t: Option<Id>)
      requires Good() && p <= MAX_PRIO
      modifies Footprint(ready)
      ensures Good() && View() == old(View()).Unready(p) && t == Head(old(View()).ready[p])
    {
      UnreadyFormed(View(), p);
      t := TakeFrom(ready, p);
    }

    method MakeBlocked(d: nat, t: Id)
      requires Good() && d < MAX_EVENTS && 1 <= t < |tasks|
      modifies Footprint(blocked)
      ensures Good() && View() == old(View()).Block(d, t)
    {
      BlockFormed(View(), d, t);
      PutInto(blocked, d, t);
    }

    method TakeBlocked(d: nat) returns (t: Option<Id>)
      requires Good() && d < MAX_EVENTS
      modifies Footprint(blocked)
      ensures Good() && View() == old(View()).Unblock(d) && t == Head(old(View()).blocked[d])
    {
      UnblockFormed(View(), d);
      t := TakeFrom(blocked, d);
    }

    method SetTask(t: Id, k: Task)
      requires Good() && t < |tasks| && FormedTask(k)
      modifies this
      ensures Good() && View() == old(View()).Set(t, k)
    {
      SetFormed(View(), t, k);
      tasks := tasks[t := k];
    }

    method DecreaseQuantum()
      requires Good()
      modifies this
      ensures Good() && View() == Decrease(old(View()))
    {
      var c := tasks[running];
      SetTask(running, c.(quantum := (c.quantum + WORD - 1) % WORD));
    }

    /** The first lines of check_scheduler: is the running task still a candidate? */
    method GiveUp() returns (gone: bool)
      requires Good()
      modifies Footprint(ready)
      ensures Good() && View() == Requeued(old(View())) && gone == Gone(old(View()))
    {
      var curr := tasks[running];
      gone := false;
      if curr.quantum == 0 || curr.workDone {
        if running != MAIN && !curr.workDone && !curr.waiting {
          MakeReady(curr.priority, running);
        }
        gone := true;
      }
    }

    method FrontOf(i: nat) returns (t: Option<Id>)
      requires Good() && i <= MAX_PRIO
      ensures t == Head(View().ready[i])
    {
      t := ready[i].Front();
    }

    method LeaveMain()
      requires Valid()
      modifies this
      ensures Valid() && View() == old(View()).(mainRunning := false)
    {
      mainRunning := false;
    }

    /** The loop of check_scheduler at a queue with a task, when any ready task will do. */
    method TakeFront(i: nat, t: Id)
      requires Good() && i <= MAX_PRIO && Head(View().ready[i]) == Some(t)
      modifies this, Footprint(ready)
      ensures Valid() && t < |tasks| && Dispatch(View(), t) == TakeOver(old(View()), i)
    {
      assert t in View().ready[i];
      var front := TakeReady(i);
      LeaveMain();
    }

    /** The same when the running task could go on, but is outranked. */
    method TakeHigher(i: nat, t: Id)
      requires Good() && i <= MAX_PRIO && Head(View().ready[i]) == Some(t) && !mainRunning
      modifies this, Footprint(ready)
      ensures Valid() && t < |tasks| && Dispatch(View(), t) == Outranked(old(View()), i)
    {
      assert t in View().ready[i];
      var curr := tasks[running];
      var front := TakeReady(i);
      if !curr.workDone && !curr.waiting { MakeReady(curr.priority, running); }
    }

    /** One turn of the loop, at a queue with a task. */
    method TryFront(gone: bool, i: nat, t: Id) returns (taken: bool)
      requires Good() && i <= MAX_PRIO && Head(View().ready[i]) == Some(t)
      modifies this, Footprint(ready)
      ensures !taken ==> Good() && View() == old(View()) && Scan(View(), gone, i + 1) == Scan(View(), gone, i)
      ensures taken ==> Valid() && t < |tasks| && Dispatch(View(), t) == Scan(old(View()), gone, i + 1)
    {
      assert t in View().ready[i];
      ScanFront(View(), gone, i);
      var curr := tasks[running];
      if gone || mainRunning || curr.waiting {
        TakeFront(i, t);
        taken := true;
      } else if tasks[t].priority > curr.priority {
        TakeHigher(i, t);
        taken := true;
      } else {
        taken := false;
      }
    }

    method TryQueue(gone: bool, i: nat) returns (next: Option<Id>)
      requires Good() && i <= MAX_PRIO
      modifies this, Footprint(ready)
      ensures next.None? ==> Good() && View() == old(View()) && Scan(View(), gone, i + 1) == Scan(View(), gone, i)
      ensures next.Some? ==>
                && Valid() && next.value < |tasks|
                && Dispatch(View(), next.value) == Scan(old(View()), gone, i + 1)
    {
      next := FrontOf(i);
      if next.Some? {
        var taken := TryFront(gone, i, next.value);
        if !taken { next := None; }
      }
    }

    /** The loop: whoever takes over, already out of its queue. */
    method FindNext(gone: bool) returns (next: Option<Id>)
      requires Good()
      modifies this, Footprint(ready)
      ensures next.None? ==> Good() && View() == Scan(old(View()), gone, MAX_PRIO + 1)
      ensures next.Some? ==> Valid() && next.value < |tasks|
                             && Dispatch(View(), next.value) == Scan(old(View()), gone, MAX_PRIO + 1)
    {
      ghost var s := View();
      ghost var goal := Scan(s, gone, MAX_PRIO + 1);
      next := None;
      var i: nat := MAX_PRIO + 1;
      while i > 0
        invariant i <= MAX_PRIO + 1 && next.None? && Good() && View() == s && Scan(s, gone, i) == goal
      {
        i := i - 1;
        next := TryQueue(gone, i);
        if next.Some? { return; }
      }
    }

    method DispatchTask(t: Id)
      requires Valid() && t < |tasks| && Formed(Dispatch(View(), t))
      modifies this
      ensures Good() && View() == Dispatch(old(View()), t)
    {
      tasks := tasks[t := tasks[t].(quantum := timeQuantum)];
      running := t;
    }

    method CheckScheduler()
      requires Good()
      modifies this, Footprint(ready)
      ensures Good() && View() == Check(old(View()))
    {
      RequeuedFormed(View());
      CheckFormed(View());
      var gone := GiveUp();
      var next := FindNext(gone);
      if next.Some? { DispatchTask(next.value); }
    }

    // The calls.

    method NewTask(priority: nat) returns (t: Id)
      requires Good() && priority <= MAX_PRIO
      modifies this
      ensures Good() && View() == Created(old(View()), priority) && t == |old(tasks)|
    {
      CreatedFormed(View(), priority);
      t := |tasks|;
      tasks := tasks + [Task(priority, timeQuantum, false, false)];
    }

    /** What every call ends with. */
    method Reschedule()
      requires Good()
      modifies this, Footprint(ready)
      ensures Good() && Formed(Decrease(old(View()))) && View() == Check(Decrease(old(View())))
    {
      DecreaseQuantum();
      CheckScheduler();
    }

    method Fork(noFunction: bool, priority: nat) returns (tid: Id)
      requires Good() && MayCall(View(), SchedModel.Fork(priority))
      modifies this, Footprint(ready)
      ensures Good()
      ensures noFunction || priority > 5 ==> tid == INVALID_TID && View() == old(View())
      ensures !noFunction && priority <= 5 ==>
                tid == |old(tasks)| && View() == Apply(old(View()), SchedModel.Fork(priority))
    {
      if noFunction { return INVALID_TID; }
      if priority > MAX_PRIO { return INVALID_TID; }
      PreparedFormed(View(), SchedModel.Fork(priority));
      tid := NewTask(priority);
      MakeReady(priority, tid);
      Reschedule();
    }

    method Wait(device: nat) returns (r: int)
      requires Good() && MayCall(View(), SchedModel.Wait(device))
      modifies this, Footprint(ready), Footprint(blocked)
      ensures Good() && View() == Apply(old(View()), SchedModel.Wait(device))
      ensures r == if device >= io then -1 else 0
    {
      if device >= io { return -1; }
      PreparedFormed(View(), SchedModel.Wait(device));
      SetTask(running, tasks[running].(waiting := true));
      MakeBlocked(device, running);
      Reschedule();
      r := 0;
    }

    /** One turn of the loop of so_signal. */
    method WakeFront(device: nat) returns (woken: bool)
      requires Good() && device < MAX_EVENTS
      modifies this, Footprint(ready), Footprint(blocked)
      ensures Good() && woken == (old(View()).blocked[device] != [])
      ensures View() == if woken then DrainStep(old(View()), device) else old(View())
    {
      ghost var s := View();
      assert s.blocked[device] != [] ==> s.blocked[device][0] in s.blocked[device];
      var t := TakeBlocked(device);
      if t.None? {
        assert s.blocked[device := []] == s.blocked;
        return false;
      }
      SetTask(t.value, tasks[t.value].(waiting := false));
      MakeReady(tasks[t.value].priority, t.value);
      woken := true;
    }

    method WakeAll(device: nat) returns (n: nat)
      requires Good() && device < MAX_EVENTS
      modifies this, Footprint(ready), Footprint(blocked)
      ensures Good() && View() == Drained(old(View()), device) && n == |old(View()).blocked[device]|
    {
      ghost var s := View();
      n := 0;
      var woken := true;
      while woken
        invariant Good() && Drained(View(), device) == Drained(s, device)
        invariant n + |View().blocked[device]| == |s.blocked[device]|
        invariant !woken ==> View().blocked[device] == []
        decreases |View().blocked[device]|, woken
      {
        ghost var before := View();
        woken := WakeFront(device);
        if woken { n := n + 1; }
      }
    }

    method Signal(device: nat) returns (r: int)
      requires Good() && MayCall(View(), SchedModel.Signal(device))
      modifies this, Footprint(ready), Footprint(blocked)
      ensures Good() && View() == Apply(old(View()), SchedModel.Signal(device))
      ensures r == if device >= io then -1 else |old(View()).blocked[device]|
    {
      if device >= io { return -1; }
      PreparedFormed(View(), SchedModel.Signal(device));
      r := WakeAll(device);
      Reschedule();
    }

    method Exec()
      requires Good() && MayCall(View(), SchedModel.Exec)
      modifies this, Footprint(ready)
      ensures Good() && View() == Apply(old(View()), SchedModel.Exec)
    {
      Reschedule();
    }

    /** The end of a task's handler. */
    method Finish()
      requires Good() && MayCall(View(), SchedModel.Finish)
      modifies this, Footprint(ready)
      ensures Good() && View() == Apply(old(View()), SchedModel.Finish)
    {
      SetTask(running, tasks[running].(workDone := true));
      CheckScheduler();
    }
  }

  method NewScheduler(timeQuantum: nat, io: nat) returns (sch: Scheduler)
    requires ValidInit(timeQuantum, io)
    ensures fresh(sch) && sch.Good() && sch.View() == Init(timeQuantum, io)
    ensures fresh(Footprint(sch.ready)) && fresh(Footprint(sch.blocked))
  {
    var ready := NewQueues(MAX_PRIO + 1);
    var blocked := NewQueues(MAX_EVENTS);
    sch := new Scheduler(timeQuantum, io, ready, blocked);
  }

  /** The library: at most one scheduler at a time. */
  class Library {
    var sch: Scheduler?

    method SoInit(timeQuantum: nat, io: nat) returns (r: int)
      requires timeQuantum < WORD && io < WORD
      modifies this
      ensures r == if timeQuantum == 0 || io > 256 || old(sch) != null then -1 else 0
      ensures r == -1 ==> sch == old(sch)
      ensures r == 0 ==> sch != null && fresh(sch) && sch.Good() && sch.View() == Init(timeQuantum, io)
      ensures r == 0 ==> fresh(Footprint(sch.ready)) && fresh(Footprint(sch.blocked))
    {
      if timeQuantum == 0 { return -1; }
      if io > MAX_EVENTS { return -1; }
      if sch != null { return -1; }
      sch := NewScheduler(timeQuantum, io);
      r := 0;
    }
  }
}
