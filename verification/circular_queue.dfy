/** The ring buffer under the scheduler's queues: a first-in-first-out sequence of at most
    MAX_SIZE elements. */
module CircularQueues {
  datatype Option<T> = None | Some(value: T)

  const MAX_SIZE: nat := 1000

  /** The queue as a sequence: adding to a full one does nothing, and says nothing. */
  function Enqueued<T>(q: seq<T>, x: T): seq<T> { if |q| >= MAX_SIZE then q else q + [x] }

  function Dequeued<T>(q: seq<T>): seq<T> { if q == [] then [] else q[1..] }

  function Head<T>(q: seq<T>): Option<T> { if q == [] then None else Some(q[0]) }

  function Last<T>(q: seq<T>): Option<T> { if q == [] then None else Some(q[|q| - 1]) }

  /** The slot i places on from a slot. */
  function Slot(front: nat, i: nat): (k: nat)
    ensures k < MAX_SIZE
  {
    (front + i) % MAX_SIZE
  }

  predicate Live<T>(a: seq<Option<T>>, front: nat, n: nat) {
    && |a| == MAX_SIZE && front < MAX_SIZE && n <= MAX_SIZE
    && forall i :: 0 <= i < n ==> a[Slot(front, i)].Some?
  }

  /** The n elements from a slot on, around the end of the array. */
  function Window<T>(a: seq<Option<T>>, front: nat, n: nat): (q: seq<T>)
    requires Live(a, front, n)
    ensures |q| == n
  {
    seq(n, i requires 0 <= i < n => a[Slot(front, i)].value)
  }

  lemma SlotsApart(front: nat, i: nat, j: nat)
    requires front < MAX_SIZE && i < j < MAX_SIZE
    ensures Slot(front, i) != Slot(front, j)
  {}

  /** Slots add up around the end. */
  lemma SlotSteps(front: nat, i: nat, j: nat)
    ensures Slot(Slot(front, i), j) == Slot(front, i + j)
  {}

  lemma FirstSlot(front: nat)
    requires front < MAX_SIZE
    ensures Slot(front, 0) == front
  {}

  lemma SlotAfter(front: nat, n: nat)
    requires n > 0
    ensures Slot(Slot(front, n - 1), 1) == Slot(front, n)
  {
    SlotSteps(front, n - 1, 1);
  }

  lemma WindowGrows<T>(a: seq<Option<T>>, front: nat, n: nat, x: T)
    requires Live(a, front, n) && n < MAX_SIZE
    ensures var b := a[Slot(front, n) := Some(x)];
            Live(b, front, n + 1) && Window(b, front, n + 1) == Window(a, front, n) + [x]
  {
    forall i | 0 <= i < n
      ensures Slot(front, i) != Slot(front, n)
    {
      SlotsApart(front, i, n);
    }
  }

  lemma WindowShrinks<T>(a: seq<Option<T>>, front: nat, n: nat)
    requires Live(a, front, n) && n > 0
    ensures Live(a, Slot(front, 1), n - 1) && Window(a, Slot(front, 1), n - 1) == Window(a, front, n)[1..]
  {
    forall i | 0 <= i < n - 1
      ensures Slot(Slot(front, 1), i) == Slot(front, i + 1)
    {
      SlotSteps(front, 1, i);
    }
  }

  lemma WindowOfOne<T>(a: seq<Option<T>>, x: T)
    requires |a| == MAX_SIZE
    ensures var b := a[0 := Some(x)]; Live(b, 0, 1) && Window(b, 0, 1) == [x]
    ensures Slot(0, 0) == 0
  {}

  lemma WindowFirst<T>(a: seq<Option<T>>, front: nat, n: nat)
    requires Live(a, front, n) && n > 0
    ensures front < |a| && a[front] == Some(Window(a, front, n)[0])
  {
    FirstSlot(front);
  }

  class CircularQueue<T(==)> {
    const elem: array<Option<T>>
    var front: int
    var rear: int
    var noElem: int

    ghost predicate Valid()
      reads this, elem
    {
      && elem.Length == MAX_SIZE
      && 0 <= noElem <= MAX_SIZE
      && (noElem == 0 ==> front == -1 && rear == -1)
      && (noElem > 0 ==> front >= 0 && Live(elem[..], front, noElem) && rear == Slot(front, noElem - 1))
    }

    ghost function Contents(): (q: seq<T>)
      reads this, elem
      requires Valid()
      ensures |q| == noElem
    {
      if noElem == 0 then [] else Window(elem[..], front, noElem)
    }

    constructor ()
      ensures Valid() && Contents() == [] && fresh(elem)
    {
      elem := new Option<T>[MAX_SIZE](_ => None);
      front, rear, noElem := -1, -1, 0;
      new;
      Init();
    }

    method Init()
      requires elem.Length == MAX_SIZE
      modifies this, elem
      ensures Valid() && Contents() == []
      ensures forall i :: 0 <= i < MAX_SIZE ==> elem[i] == None
    {
      front, rear, noElem := -1, -1, 0;
      for i := 0 to MAX_SIZE
        invariant front == -1 && rear == -1 && noElem == 0
        invariant forall j :: 0 <= j < i ==> elem[j] == None
      {
        elem[i] := None;
      }
    }

    method IsFull() returns (full: bool)
      requires Valid()
      ensures full <==> |Contents()| == MAX_SIZE
    {
      full := noElem == MAX_SIZE;
    }

    method IsEmpty() returns (empty: bool)
      requires Valid()
      ensures empty <==> Contents() == []
    {
      empty := noElem == 0;
    }

    method Enqueue(x: T)
      requires Valid()
      modifies this, elem
      ensures Valid() && Contents() == Enqueued(old(Contents()), x)
    {
      hide Slot;
      var full := IsFull();
      if full { return; }
      var empty := IsEmpty();
      if empty {
        WindowOfOne(elem[..], x);
        front, rear := 0, 0;
        elem[rear] := Some(x);
        noElem := 1;
        return;
      }
      WindowGrows(elem[..], front, noElem, x);
      SlotAfter(front, noElem);
      rear := Slot(rear, 1);
      elem[rear] := Some(x);
      noElem := noElem + 1;
    }

    method Dequeue() returns (x: Option<T>)
      requires Valid()
      modifies this, elem
      ensures Valid()
      ensures x == Head(old(Contents())) && Contents() == Dequeued(old(Contents()))
    {
      var empty := IsEmpty();
      if empty { return None; }
      WindowFirst(elem[..], front, noElem);
      x := elem[front];
      if noElem == 1 {
        Init();
      } else {
        DropFront();
      }
    }

    /** The front moves on by one slot. */
    method DropFront()
      requires Valid() && noElem > 1
      modifies this`front, this`noElem
      ensures Valid() && Contents() == old(Contents())[1..]
    {
      ghost var a, f, n := elem[..], front, noElem;
      WindowShrinks(a, f, n);
      SlotSteps(f, 1, n - 2);
      hide Slot, Window, Live;
      front := Slot(front, 1);
      noElem := noElem - 1;
      assert elem[..] == a;
    }

    method Front() returns (x: Option<T>)
      requires Valid()
      ensures x == Head(Contents())
    {
      var empty := IsEmpty();
      if empty { return None; }
      WindowFirst(elem[..], front, noElem);
      x := elem[front];
    }

    method Rear() returns (x: Option<T>)
      requires Valid()
      ensures x == Last(Contents())
    {
      var empty := IsEmpty();
      if empty { return None; }
      x := elem[rear];
    }
  }

  // Any sequence of operations.

  datatype QueueOp<T> = Put(x: T) | Take

  /** What is taken out, in order, and what is left. */
  function Work<T>(q: seq<T>, ops: seq<QueueOp<T>>): (r: (seq<T>, seq<T>)) {
    if ops == [] then ([], q)
    else
      var (out, left) := Work(q, ops[..|ops| - 1]);
      match ops[|ops| - 1]
      case Put(x) => (out, Enqueued(left, x))
      case Take => (if left == [] then out else out + [left[0]], Dequeued(left))
  }

  /** What was put in, in order. */
  function Puts<T>(ops: seq<QueueOp<T>>): seq<T> {
    if ops == [] then []
    else Puts(ops[..|ops| - 1]) + match ops[|ops| - 1] case Put(x) => [x] case Take => []
  }

  predicate NeverFull<T>(q: seq<T>, ops: seq<QueueOp<T>>) {
    forall k :: 0 <= k < |ops| && ops[k].Put? ==> |Work(q, ops[..k]).1| < MAX_SIZE
  }

  /** First in, first out: while no Put meets a full queue, what has come out followed by
      what is left is what was there followed by what was put in. */
  lemma {:induction false} FirstInFirstOut<T>(q: seq<T>, ops: seq<QueueOp<T>>)
    requires NeverFull(q, ops)
    ensures Work(q, ops).0 + Work(q, ops).1 == q + Puts(ops)
  {
    if ops == [] {
      assert [] + q == q + [];
    } else {
      var init, op := ops[..|ops| - 1], ops[|ops| - 1];
      assert forall k :: 0 <= k < |init| ==> init[..k] == ops[..k];
      FirstInFirstOut(q, init);
      var (out, left) := Work(q, init);
      if op.Put? {
        assert out + (left + [op.x]) == (out + left) + [op.x];
        assert q + (Puts(init) + [op.x]) == (q + Puts(init)) + [op.x];
      } else {
        assert Puts(ops) == Puts(init) + [];
        if left != [] { assert out + [left[0]] + left[1..] == out + left; }
      }
    }
  }
}
