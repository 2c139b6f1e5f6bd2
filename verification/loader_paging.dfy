/** Runs of a demand-paged program: every access has the outcome that it would have with
    the whole image in memory from the start, and each page is mapped at most once. */
module LoaderPaging {
  import opened LoaderParser
  import opened LoaderImage

  datatype Access = Load(at: nat) | Store(at: nat, value: byte) | Fetch(at: nat)

  predicate Permits(r: Rights, op: Access) {
    match op
    case Load(_) => r.read
    case Store(_, _) => r.write
    case Fetch(_) => r.execute
  }

  /** The access goes through without a fault. */
  predicate Allowed(x: Image, op: Access) { op.at in x.memory && Permits(x.memory[op.at].rights, op) }

  function Perform(x: Image, op: Access): Image
    requires Allowed(x, op)
  {
    if op.Store? then x.(memory := x.memory[op.at := x.memory[op.at].(value := op.value)]) else x
  }

  function PageNo(s: Segment, size: nat, a: nat): nat
    requires size > 0 && a >= s.vaddr
  {
    (a - s.vaddr) / size
  }

  lemma FlipRows(mapped: seq<seq<bool>>, g: Program, i: nat, p: nat)
    requires Rows(mapped, g) && i < |mapped| && p < |mapped[i]|
    ensures Rows(mapped[i := mapped[i][p := true]], g)
  {}

  lemma MapPageFlips(x: Image, g: Program, i: nat, p: nat)
    requires Rows(x.mapped, g) && i < |g.segments| && p < |x.mapped[i]|
    ensures MapPage(x, g, i, p).mapped == x.mapped[i := x.mapped[i][p := true]]
  {}

  /** What a fault does to the table. */
  lemma FaultFlips(x: Image, g: Program, a: nat)
    requires Rows(x.mapped, g)
    ensures !Serves(x, g, a) ==> Fault(x, g, a) == x.(dead := true)
    ensures Serves(x, g, a) ==>
              var i := Find(g.segments, a, 0);
              && i < |x.mapped| && In(g.segments[i], a)
              && PageNo(g.segments[i], g.size, a) < |x.mapped[i]| && !x.mapped[i][PageNo(g.segments[i], g.size, a)]
              && Fault(x, g, a).mapped == x.mapped[i := x.mapped[i][PageNo(g.segments[i], g.size, a) := true]]
  {
    if Serves(x, g, a) {
      var i := Find(g.segments, a, 0);
      FaultHasEntry(g.segments[i], a, g.size);
      MapPageFlips(x, g, i, PageNo(g.segments[i], g.size, a));
    }
  }

  lemma FaultRows(x: Image, g: Program, a: nat)
    requires Rows(x.mapped, g)
    ensures Rows(Fault(x, g, a).mapped, g)
  {
    FaultFlips(x, g, a);
    if Serves(x, g, a) {
      var i := Find(g.segments, a, 0);
      FlipRows(x.mapped, g, i, PageNo(g.segments[i], g.size, a));
    }
  }

  /** An access is tried again after its fault, and faults again if it still may not. */
  function Attempt(x: Image, g: Program, op: Access): Image
    requires Rows(x.mapped, g)
  {
    if x.dead then x
    else if Allowed(x, op) then Perform(x, op)
    else
      FaultRows(x, g, op.at);
      var y := Fault(x, g, op.at);
      if y.dead then y
      else if Allowed(y, op) then Perform(y, op)
      else Fault(y, g, op.at)
  }

  lemma AttemptRows(x: Image, g: Program, op: Access)
    requires Rows(x.mapped, g)
    ensures Rows(Attempt(x, g, op).mapped, g)
  {
    FaultRows(x, g, op.at);
    FaultRows(Fault(x, g, op.at), g, op.at);
  }

  // The eager image: all of it prescribed, then overwritten by the stores.

  type Log = map<nat, byte>

  function Eager(s: Segment, file: File, log: Log, a: nat): byte
    requires a >= s.vaddr
  {
    if a in log then log[a] else Prescribed(s, file, a)
  }

  /** The access is one that the segments permit. */
  predicate Legal(g: Program, op: Access) {
    var i := Find(g.segments, op.at, 0);
    i < |g.segments| && Permits(RightsOf(g.segments[i].perm), op)
  }

  function Logged(g: Program, log: Log, op: Access): Log {
    if op.Store? && Legal(g, op) then log[op.at := op.value] else log
  }

  // The layout.

  /** The end of a segment's last page. */
  function SpanEnd(s: Segment, size: nat): nat
    requires size > 0
  {
    s.vaddr + PagesOf(s, size) * size
  }

  /** Segments share no page, and where there is more memory than file it may be written. */
  predicate LaidOut(g: Program) {
    && g.size > 0
    && (forall i :: 0 <= i < |g.segments| ==> Clears(g.segments[i]))
    && (forall i, j :: 0 <= i < j < |g.segments| ==>
          SpanEnd(g.segments[i], g.size) <= g.segments[j].vaddr
              || SpanEnd(g.segments[j], g.size) <= g.segments[i].vaddr)
  }

  lemma SpanHolds(s: Segment, size: nat)
    requires size > 0
    ensures MemEnd(s) <= SpanEnd(s, size)
  {
    assert s.memSize == s.memSize / size * size + s.memSize % size;
    assert (s.memSize / size + 1) * size == s.memSize / size * size + size;
  }

  lemma FindsOnly(g: Program, i: nat, a: nat)
    requires LaidOut(g) && i < |g.segments| && In(g.segments[i], a)
    ensures Find(g.segments, a, 0) == i
  {
    var k := Find(g.segments, a, 0);
    SpanHolds(g.segments[i], g.size);
    SpanHolds(g.segments[k], g.size);
  }

  /** No page of a segment reaches into another. */
  lemma PagesApart(g: Program, i: nat, p: nat, j: nat, a: nat)
    requires LaidOut(g) && i < |g.segments| && j < |g.segments| && i != j
    requires p < PagesOf(g.segments[i], g.size) && In(g.segments[j], a)
    ensures !InPage(g.segments[i], g.size, p, a)
  {
    PageInSpan(g.segments[i], g.size, p);
    SpanHolds(g.segments[j], g.size);
    ProductMonotone(0, p, g.size);
  }

  // Lazy is eager.

  /** One address of a segment: mapped with its page and as in the eager image, or not yet
      there and never stored to. */
  predicate Agrees(x: Image, g: Program, log: Log, i: nat, a: nat)
    requires Rows(x.mapped, g) && i < |g.segments| && In(g.segments[i], a)
  {
    var s := g.segments[i];
    FaultHasEntry(s, a, g.size);
    if x.mapped[i][PageNo(s, g.size, a)] then
      a in x.memory && x.memory[a] == Cell(Eager(s, g.file, log, a), RightsOf(s.perm))
    else a !in x.memory && a !in log
  }

  ghost predicate Refines(x: Image, g: Program, log: Log) {
    Rows(x.mapped, g)
    && forall i: nat, a: nat :: i < |g.segments| && In(g.segments[i], a) ==> Agrees(x, g, log, i, a)
  }

  lemma PerformRefines(x: Image, g: Program, log: Log, op: Access)
    requires LaidOut(g) && Refines(x, g, log) && Allowed(x, op)
    ensures Refines(Perform(x, op), g, Logged(g, log, op))
    ensures forall i: nat :: i < |g.segments| && In(g.segments[i], op.at) ==>
              Legal(g, op) && Perform(x, op).memory[op.at].value
                  == Eager(g.segments[i], g.file, Logged(g, log, op), op.at)
  {
    var y, log' := Perform(x, op), Logged(g, log, op);
    forall i: nat | i < |g.segments| && In(g.segments[i], op.at)
      ensures Legal(g, op)
    {
      assert Agrees(x, g, log, i, op.at);
      FindsOnly(g, i, op.at);
    }
    forall i: nat, a: nat | i < |g.segments| && In(g.segments[i], a)
      ensures Agrees(y, g, log', i, a)
    {
      assert Agrees(x, g, log, i, a);
    }
  }

  /** A page that is gained with the prescribed bytes, which no store has touched, keeps the
      agreement. */
  lemma GainRefines(x: Image, y: Image, g: Program, log: Log, i: nat, p: nat)
    requires LaidOut(g) && Refines(x, g, log) && i < |g.segments| && p < |x.mapped[i]| && !x.mapped[i][p]
    requires Gains(x, y, g, i, p) && Rows(y.mapped, g)
    ensures Refines(y, g, log)
  {
    forall j: nat, b: nat | j < |g.segments| && In(g.segments[j], b)
      ensures Agrees(y, g, log, j, b)
    {
      assert Agrees(x, g, log, j, b);
      FaultHasEntry(g.segments[j], b, g.size);
      if j == i {
        PageIsQuotient(g.segments[i], g.size, p, b);
      } else {
        PagesApart(g, i, p, j, b);
      }
    }
  }

  /** A served fault keeps the agreement, and the address is there. */
  lemma ServeRefines(x: Image, g: Program, log: Log, i: nat, a: nat)
    requires LaidOut(g) && Refines(x, g, log) && i < |g.segments| && In(g.segments[i], a) && Serves(x, g, a)
    ensures Refines(Fault(x, g, a), g, log) && Fault(x, g, a).dead == x.dead
    ensures a in Fault(x, g, a).memory && Fault(x, g, a).memory[a].rights == RightsOf(g.segments[i].perm)
  {
    FindsOnly(g, i, a);
    FaultHasEntry(g.segments[i], a, g.size);
    FaultRows(x, g, a);
    var p := PageNo(g.segments[i], g.size, a);
    MappedAsPrescribed(x, g, i, p);
    PageIsQuotient(g.segments[i], g.size, p, a);
    GainRefines(x, Fault(x, g, a), g, log, i, p);
  }

  /** The second fault on a page finds it mapped. */
  lemma SecondFaultKills(x: Image, g: Program, a: nat)
    requires Rows(x.mapped, g) && Serves(x, g, a)
    ensures Rows(Fault(x, g, a).mapped, g) && !Serves(Fault(x, g, a), g, a)
  {
    FaultRows(x, g, a);
    FaultFlips(x, g, a);
  }

  /** An unserved fault inside a segment means that the page is mapped. */
  lemma UnservedIsMapped(x: Image, g: Program, log: Log, i: nat, a: nat)
    requires LaidOut(g) && Refines(x, g, log) && i < |g.segments| && In(g.segments[i], a) && !Serves(x, g, a)
    ensures a in x.memory && x.memory[a].rights == RightsOf(g.segments[i].perm)
  {
    FindsOnly(g, i, a);
    FaultHasEntry(g.segments[i], a, g.size);
    assert Agrees(x, g, log, i, a);
  }

  /** One access to a segment: a legal one goes through, on the byte of the eager image, and
      an illegal one kills. */
  lemma {:induction false} AccessIsEager(x: Image, g: Program, log: Log, i: nat, op: Access)
    requires LaidOut(g) && Refines(x, g, log) && !x.dead && i < |g.segments| && In(g.segments[i], op.at)
    ensures Attempt(x, g, op).dead <==> !Legal(g, op)
    ensures Legal(g, op) ==>
              var y, log' := Attempt(x, g, op), Logged(g, log, op);
              && Refines(y, g, log')
              && op.at in y.memory && y.memory[op.at].value == Eager(g.segments[i], g.file, log', op.at)
  {
    FindsOnly(g, i, op.at);
    if Allowed(x, op) {
      PerformRefines(x, g, log, op);
    } else if Serves(x, g, op.at) {
      FaultedIsEager(x, g, log, i, op);
    } else {
      UnservedIsMapped(x, g, log, i, op.at);
    }
  }

  lemma FaultedIsEager(x: Image, g: Program, log: Log, i: nat, op: Access)
    requires LaidOut(g) && Refines(x, g, log) && !x.dead && i < |g.segments| && In(g.segments[i], op.at)
    requires !Allowed(x, op) && Serves(x, g, op.at) && Find(g.segments, op.at, 0) == i
    ensures Attempt(x, g, op).dead <==> !Legal(g, op)
    ensures Legal(g, op) ==>
              var y, log' := Attempt(x, g, op), Logged(g, log, op);
              && Refines(y, g, log')
              && op.at in y.memory && y.memory[op.at].value == Eager(g.segments[i], g.file, log', op.at)
  {
    ServeRefines(x, g, log, i, op.at);
    SecondFaultKills(x, g, op.at);
    var y := Fault(x, g, op.at);
    if Allowed(y, op) { PerformRefines(y, g, log, op); }
  }

  /** An access outside of every segment. */
  lemma OutsideKeeps(x: Image, g: Program, log: Log, op: Access)
    requires LaidOut(g) && Refines(x, g, log) && !x.dead && Find(g.segments, op.at, 0) == |g.segments|
    ensures !Attempt(x, g, op).dead ==> Refines(Attempt(x, g, op), g, Logged(g, log, op))
  {
    if Allowed(x, op) { PerformRefines(x, g, log, op); }
  }

  // Runs.

  function After(x: Image, g: Program, ops: seq<Access>): (y: Image)
    requires Rows(x.mapped, g)
    ensures Rows(y.mapped, g)
  {
    if ops == [] then x
    else
      var y := After(x, g, ops[..|ops| - 1]);
      AttemptRows(y, g, ops[|ops| - 1]);
      Attempt(y, g, ops[|ops| - 1])
  }

  function LogOf(g: Program, ops: seq<Access>): Log {
    if ops == [] then map[] else Logged(g, LogOf(g, ops[..|ops| - 1]), ops[|ops| - 1])
  }

  /** Before the program runs: nothing is mapped, and the address space of the segments
      is free. */
  ghost predicate Fresh(x: Image, g: Program) {
    && Rows(x.mapped, g) && !x.dead
    && (forall i, p :: 0 <= i < |x.mapped| && 0 <= p < |x.mapped[i]| ==> !x.mapped[i][p])
    && (forall i: nat, a: nat :: i < |g.segments| && In(g.segments[i], a) ==> a !in x.memory)
  }

  lemma FreshRefines(x: Image, g: Program)
    requires Fresh(x, g)
    ensures Refines(x, g, map[])
  {
    forall i: nat, a: nat | i < |g.segments| && In(g.segments[i], a)
      ensures Agrees(x, g, map[], i, a)
    {
      FaultHasEntry(g.segments[i], a, g.size);
    }
  }

  lemma {:induction false} DeathIsFinal(x: Image, g: Program, ops: seq<Access>, k: nat)
    requires Rows(x.mapped, g) && k <= |ops| && After(x, g, ops[..k]).dead
    ensures After(x, g, ops).dead
    decreases |ops| - k
  {
    if k < |ops| {
      assert ops[..k + 1][..k] == ops[..k];
      DeathIsFinal(x, g, ops, k + 1);
    } else {
      assert ops[..k] == ops;
    }
  }

  lemma LivedBefore(x: Image, g: Program, ops: seq<Access>, k: nat)
    requires Rows(x.mapped, g) && k <= |ops| && !After(x, g, ops).dead
    ensures !After(x, g, ops[..k]).dead
  {
    if After(x, g, ops[..k]).dead { DeathIsFinal(x, g, ops, k); }
  }

  /** While the process lives, its memory is the eager image. */
  lemma {:induction false} LivesEagerly(x: Image, g: Program, ops: seq<Access>)
    requires LaidOut(g) && Fresh(x, g) && !After(x, g, ops).dead
    ensures Refines(After(x, g, ops), g, LogOf(g, ops))
  {
    if ops == [] {
      FreshRefines(x, g);
    } else {
      var init, op := ops[..|ops| - 1], ops[|ops| - 1];
      LivedBefore(x, g, ops, |ops| - 1);
      LivesEagerly(x, g, init);
      var i := Find(g.segments, op.at, 0);
      if i < |g.segments| {
        AccessIsEager(After(x, g, init), g, LogOf(g, init), i, op);
      } else {
        OutsideKeeps(After(x, g, init), g, LogOf(g, init), op);
      }
    }
  }

  predicate InSegments(g: Program, ops: seq<Access>) {
    forall k :: 0 <= k < |ops| ==> Find(g.segments, ops[k].at, 0) < |g.segments|
  }

  /** The next access of a program that lives. */
  lemma {:induction false} NextKills(x: Image, g: Program, init: seq<Access>, op: Access)
    requires LaidOut(g) && Fresh(x, g) && Find(g.segments, op.at, 0) < |g.segments| && !After(x, g, init).dead
    ensures After(x, g, init + [op]).dead <==> !Legal(g, op)
  {
    assert Rows(x.mapped, g);
    hide Attempt, Fresh, LaidOut, Refines, In;
    assert (init + [op])[..|init|] == init;
    LivesEagerly(x, g, init);
    AccessIsEager(After(x, g, init), g, LogOf(g, init), Find(g.segments, op.at, 0), op);
  }

  /** A program that stays in its segments is killed if and only if one of its accesses is
      not permitted. */
  lemma {:induction false} KilledOnlyWhenIllegal(x: Image, g: Program, ops: seq<Access>)
    requires LaidOut(g) && Fresh(x, g) && InSegments(g, ops)
    ensures After(x, g, ops).dead <==> exists k :: 0 <= k < |ops| && !Legal(g, ops[k])
  {
    assert Rows(x.mapped, g);
    hide Attempt, Fresh, LaidOut, Legal;
    if ops != [] {
      var init, op := ops[..|ops| - 1], ops[|ops| - 1];
      assert init + [op] == ops && forall k :: 0 <= k < |init| ==> init[k] == ops[k];
      KilledOnlyWhenIllegal(x, g, init);
      if After(x, g, init).dead {
        var k :| 0 <= k < |init| && !Legal(g, init[k]);
        assert !Legal(g, ops[k]);
        DeathIsFinal(x, g, ops, |init|);
      } else {
        NextKills(x, g, init, op);
      }
    }
  }

  /** Lazy paging is transparent: in a run that lives, the byte that a load finds is that of
      the image the ABI prescribes, as overwritten by the stores before it. */
  lemma {:induction false} LoadsAreEager(x: Image, g: Program, ops: seq<Access>, k: nat)
    requires LaidOut(g) && Fresh(x, g) && !After(x, g, ops).dead
    requires k < |ops| && Find(g.segments, ops[k].at, 0) < |g.segments|
    ensures var s, a, y := g.segments[Find(g.segments, ops[k].at, 0)], ops[k].at, After(x, g, ops[..k + 1]);
            a in y.memory && y.memory[a].value == Eager(s, g.file, LogOf(g, ops[..k + 1]), a)
  {
    LivedBefore(x, g, ops, k);
    LivedBefore(x, g, ops, k + 1);
    LivesEagerly(x, g, ops[..k]);
    assert ops[..k + 1][..k] == ops[..k];
    AccessIsEager(After(x, g, ops[..k]), g, LogOf(g, ops[..k]), Find(g.segments, ops[k].at, 0), ops[k]);
  }

  /** What is prescribed, in the terms of the program header: the bytes of the file, then
      zeros. */
  lemma PrescribedByHeader(h: Phdr, k: nat, file: File, n: nat)
    requires Loadable(h, k) && n < h.memsz
    ensures Pow2(k) <= WORD
    ensures In(Converted(h, Pow2(k)), h.vaddr + n)
    ensures Prescribed(Converted(h, Pow2(k)), file, h.vaddr + n) == if n < h.filesz then file(h.offset + n) else 0
  {
    ConvertedIsAligned(h, k);
  }

  // The layout, in the terms of the program headers.

  function FirstPage(h: Phdr, size: nat): nat
    requires size > 0
  {
    h.vaddr / size
  }

  function LastPage(h: Phdr, size: nat): nat
    requires size > 0 && h.memsz > 0
  {
    (h.vaddr + h.memsz - 1) / size
  }

  /** Headers of the shape that the ABI asks for, with something to load, no two of them on
      one page, and writable where there is memory without a file. */
  predicate HeadersApart(hs: seq<Phdr>, k: nat) {
    && (forall i :: 0 <= i < |hs| ==> Loadable(hs[i], k) && hs[i].memsz > 0
                                      && (hs[i].memsz > hs[i].filesz ==> hs[i].flags & PF_W != 0))
    && (forall i, j :: 0 <= i < j < |hs| ==>
          LastPage(hs[i], Pow2(k)) < FirstPage(hs[j], Pow2(k)) || LastPage(hs[j], Pow2(k)) < FirstPage(hs[i], Pow2(k)))
  }

  lemma PagesAreCeiling(s: Segment, size: nat)
    requires size > 0 && s.memSize > 0
    ensures PagesOf(s, size) == (s.memSize - 1) / size + 1
  {
    var q, r := s.memSize / size, s.memSize % size;
    assert s.memSize == size * q + r;
    if r == 0 {
      assert s.memSize - 1 == size * (q - 1) + (size - 1);
      ModuloIs(size, q - 1, size - 1);
    } else {
      assert s.memSize - 1 == size * q + (r - 1);
      ModuloIs(size, q, r - 1);
    }
  }

  lemma SpanArithmetic(s: Segment, size: nat, f: nat)
    requires size > 0 && s.memSize > 0 && s.vaddr == f * size
    ensures SpanEnd(s, size) == ((MemEnd(s) - 1) / size + 1) * size
  {
    var x := s.memSize - 1;
    PagesAreCeiling(s, size);
    QuotientShifts(f, x, size);
    assert (f + (x / size + 1)) * size == f * size + (x / size + 1) * size;
  }

  /** The span of a converted header is its pages. */
  lemma SpanOfHeader(h: Phdr, k: nat)
    requires Loadable(h, k) && h.memsz > 0
    ensures Pow2(k) <= WORD
    ensures var size, s := Pow2(k), Converted(h, Pow2(k));
            s.vaddr == FirstPage(h, size) * size && SpanEnd(s, size) == (LastPage(h, size) + 1) * size
  {
    ConvertedIsAligned(h, k);
    AlignDownRounds(h.vaddr, k);
    var size, s := Pow2(k), Converted(h, Pow2(k));
    RoundedDown(h.vaddr, size);
    SpanArithmetic(s, size, FirstPage(h, size));
  }

  lemma RoundedDown(v: nat, size: nat)
    requires size > 0
    ensures v - v % size == v / size * size
  {}

  lemma QuotientShifts(f: nat, x: nat, size: nat)
    requires size > 0
    ensures (f * size + x) / size == f + x / size
  {
    var q, r := x / size, x % size;
    assert f * size + x == size * (f + q) + r by {
      assert x == size * q + r;
      assert size * (f + q) == f * size + size * q;
    }
    ModuloIs(size, f + q, r);
  }

  /** Such headers are converted to segments that share no page; no address that the fault
      handler computes for them leaves the word. */
  lemma HeadersLaidOut(hs: seq<Phdr>, k: nat, segments: seq<Segment>, file: File)
    requires HeadersApart(hs, k) && Pow2(k) <= WORD && (forall h :: h in hs ==> InWord(h))
    requires Converts(segments, hs, Pow2(k))
    ensures LaidOut(Program(segments, file, Pow2(k)))
    ensures forall i :: 0 <= i < |segments| ==> SpanEnd(segments[i], Pow2(k)) < WORD
  {
    forall i | 0 <= i < |hs|
      ensures SpanEnd(segments[i], Pow2(k)) < WORD
    {
      SpanInWord(hs[i], k);
    }
    forall i | 0 <= i < |hs|
      ensures Clears(segments[i])
    {
      assert Loadable(hs[i], k);
      ConvertedIsAligned(hs[i], k);
      PermissionsKept(hs[i].flags);
    }
    forall i, j | 0 <= i < j < |hs|
      ensures SpanEnd(segments[i], Pow2(k)) <= segments[j].vaddr || SpanEnd(segments[j], Pow2(k)) <= segments[i].vaddr
    {
      SpansApart(hs[i], hs[j], k);
      SpansApart(hs[j], hs[i], k);
    }
  }

  lemma NextMultiple(x: nat, size: nat)
    requires size > 0
    ensures (x / size + 1) * size <= x + size
  {
    RoundedDown(x, size);
    assert (x / size + 1) * size == x / size * size + size;
  }

  lemma SpanInWord(h: Phdr, k: nat)
    requires Loadable(h, k) && h.memsz > 0
    ensures Pow2(k) <= WORD && SpanEnd(Converted(h, Pow2(k)), Pow2(k)) < WORD
  {
    SpanOfHeader(h, k);
    NextMultiple(h.vaddr + h.memsz - 1, Pow2(k));
  }

  lemma SpansApart(a: Phdr, b: Phdr, k: nat)
    requires Loadable(a, k) && Loadable(b, k) && a.memsz > 0 && b.memsz > 0
    ensures Pow2(k) <= WORD
    ensures LastPage(a, Pow2(k)) < FirstPage(b, Pow2(k)) ==>
              SpanEnd(Converted(a, Pow2(k)), Pow2(k)) <= Converted(b, Pow2(k)).vaddr
  {
    SpanOfHeader(a, k);
    SpanOfHeader(b, k);
    if LastPage(a, Pow2(k)) < FirstPage(b, Pow2(k)) {
      ProductMonotone(LastPage(a, Pow2(k)) + 1, FirstPage(b, Pow2(k)), Pow2(k));
    }
  }

  // From the headers to a run.

  /** What was stored last at each address. */
  function Stores(ops: seq<Access>): Log {
    if ops == [] then map[]
    else
      match ops[|ops| - 1]
      case Store(a, v) => Stores(ops[..|ops| - 1])[a := v]
      case _ => Stores(ops[..|ops| - 1])
  }

  lemma {:induction false} StoresAre(ops: seq<Access>, a: nat)
    ensures a in Stores(ops) <==> exists l :: 0 <= l < |ops| && ops[l].Store? && ops[l].at == a
  {
    if ops != [] {
      var init := ops[..|ops| - 1];
      StoresAre(init, a);
      assert forall l :: 0 <= l < |init| ==> init[l] == ops[l];
    }
  }

  predicate SameAt(log: Log, stores: Log, a: nat) {
    (a in log <==> a in stores) && (a in log ==> log[a] == stores[a])
  }

  /** In a run that lives every store to a segment has counted. */
  lemma {:induction false} LogIsStores(x: Image, g: Program, ops: seq<Access>, i: nat, a: nat)
    requires LaidOut(g) && Fresh(x, g) && !After(x, g, ops).dead && i < |g.segments| && In(g.segments[i], a)
    ensures SameAt(LogOf(g, ops), Stores(ops), a)
  {
    if ops != [] {
      var init, op := ops[..|ops| - 1], ops[|ops| - 1];
      LivedBefore(x, g, ops, |ops| - 1);
      LogIsStores(x, g, init, i, a);
      if op.Store? && op.at == a { StoreIsLegal(x, g, init, op, i); }
    }
  }

  lemma {:induction false} StoreIsLegal(x: Image, g: Program, init: seq<Access>, op: Access, i: nat)
    requires LaidOut(g) && Fresh(x, g) && !After(x, g, init).dead && i < |g.segments| && In(g.segments[i], op.at)
    requires !Attempt(After(x, g, init), g, op).dead
    ensures Legal(g, op)
  {
    LivesEagerly(x, g, init);
    AccessIsEager(After(x, g, init), g, LogOf(g, init), i, op);
  }

  /** A load from a segment, in a run that lives. */
  lemma {:induction false} LoadFinds(x: Image, g: Program, ops: seq<Access>, j: nat, i: nat)
    requires LaidOut(g) && Fresh(x, g) && !After(x, g, ops).dead
    requires j < |ops| && ops[j].Load? && i < |g.segments| && In(g.segments[i], ops[j].at)
    ensures var y, a := After(x, g, ops[..j + 1]), ops[j].at;
            a in y.memory
            && y.memory[a].value == if a in Stores(ops[..j]) then Stores(ops[..j])[a]
                else Prescribed(g.segments[i], g.file, a)
  {
    var a := ops[j].at;
    FindsOnly(g, i, a);
    LoadsAreEager(x, g, ops, j);
    LivedBefore(x, g, ops, j);
    LogIsStores(x, g, ops[..j], i, a);
    assert ops[..j + 1][..j] == ops[..j] && ops[..j + 1][j] == ops[j];
  }

  /** The program that so_parse_exec makes of a file with these headers, 2^k being the size
      of a page; the headers have the shape of HeadersApart. */
  predicate LoadedFrom(g: Program, hs: seq<Phdr>, k: nat) {
    && (forall h :: h in Loads(hs) ==> InWord(h)) && HeadersApart(Loads(hs), k)
    && 0 < Pow2(k) == g.size <= WORD && Converts(g.segments, Loads(hs), g.size)
  }

  ghost predicate Lives(x: Image, g: Program, ops: seq<Access>) { Fresh(x, g) && !After(x, g, ops).dead }

  /** The loader end to end, in the terms of the program headers: in a run that lives, of
      the program that so_parse_exec makes of the file and so_execute starts, a load at
      p_vaddr + n finds what the program last stored there; if it has stored nothing there,
      byte p_offset + n of the file below p_filesz, and zero from there to p_memsz. */
  lemma {:induction false} LoadFindsFile(hs: seq<Phdr>, g: Program, k: nat, x: Image, ops: seq<Access>,
                                         h: Phdr, n: nat, j: nat)
    requires LoadedFrom(g, hs, k) && Lives(x, g, ops)
    requires h in Loads(hs) && n < h.memsz && j < |ops| && ops[j] == Load(h.vaddr + n)
    ensures var y, a, stored := After(x, g, ops[..j + 1]), h.vaddr + n, Stores(ops[..j]);
            && a in y.memory
            && y.memory[a].value == if a in stored then stored[a] else if n < h.filesz then g.file(h.offset + n) else 0
  {
    hide After, LaidOut, Fresh, Stores;
    var i :| 0 <= i < |Loads(hs)| && Loads(hs)[i] == h;
    HeadersLaidOut(Loads(hs), k, g.segments, g.file);
    assert Program(g.segments, g.file, Pow2(k)) == g;
    PrescribedByHeader(h, k, g.file, n);
    LoadFinds(x, g, ops, j, i);
  }

  // Who may do what, in the terms of the program headers.

  /** The segment flags of the ABI: 4 to read, 2 to write, 1 to execute. */
  predicate HeaderPermits(h: Phdr, op: Access) {
    match op
    case Load(_) => h.flags & 4 != 0
    case Store(_, _) => h.flags & 2 != 0
    case Fetch(_) => h.flags & 1 != 0
  }

  predicate InHeader(h: Phdr, a: nat) { h.vaddr <= a < h.vaddr + h.memsz }

  /** The memory of a header has the rights that its flags give: an access there is permitted
      if and only if the flag for it is set. */
  lemma LegalByHeader(hs: seq<Phdr>, g: Program, k: nat, h: Phdr, op: Access)
    requires LoadedFrom(g, hs, k) && h in Loads(hs) && InHeader(h, op.at)
    ensures Find(g.segments, op.at, 0) < |g.segments|
    ensures Legal(g, op) <==> HeaderPermits(h, op)
  {
    var i :| 0 <= i < |Loads(hs)| && Loads(hs)[i] == h;
    HeadersLaidOut(Loads(hs), k, g.segments, g.file);
    assert Program(g.segments, g.file, Pow2(k)) == g;
    PrescribedByHeader(h, k, g.file, op.at - h.vaddr);
    FindsOnly(g, i, op.at);
    PermissionsKept(h.flags);
  }

  /** Every access is to the memory of some header. */
  ghost predicate InHeaders(hs: seq<Phdr>, ops: seq<Access>) {
    forall j :: 0 <= j < |ops| ==> exists h :: h in Loads(hs) && InHeader(h, ops[j].at)
  }

  /** The access is to the memory of a header without the flag for it. */
  predicate Denied(hs: seq<Phdr>, op: Access) {
    exists h :: h in Loads(hs) && InHeader(h, op.at) && !HeaderPermits(h, op)
  }

  /** A program that stays in the memory of its headers is killed if and only if some access
      lacks its flag. */
  lemma {:induction false} KilledWhenDenied(hs: seq<Phdr>, g: Program, k: nat, x: Image, ops: seq<Access>)
    requires LoadedFrom(g, hs, k) && Fresh(x, g) && InHeaders(hs, ops)
    ensures After(x, g, ops).dead <==> exists j :: 0 <= j < |ops| && Denied(hs, ops[j])
  {
    hide After, LaidOut, Fresh, Legal, HeaderPermits;
    HeadersLaidOut(Loads(hs), k, g.segments, g.file);
    assert Program(g.segments, g.file, Pow2(k)) == g;
    forall j | 0 <= j < |ops|
      ensures Find(g.segments, ops[j].at, 0) < |g.segments| && (Legal(g, ops[j]) <==> !Denied(hs, ops[j]))
    {
      DeniedIsIllegal(hs, g, k, ops[j]);
    }
    KilledOnlyWhenIllegal(x, g, ops);
  }

  lemma DeniedIsIllegal(hs: seq<Phdr>, g: Program, k: nat, op: Access)
    requires LoadedFrom(g, hs, k) && exists h :: h in Loads(hs) && InHeader(h, op.at)
    ensures Find(g.segments, op.at, 0) < |g.segments| && (Legal(g, op) <==> !Denied(hs, op))
  {
    hide Legal, HeaderPermits, LoadedFrom;
    var h :| h in Loads(hs) && InHeader(h, op.at);
    LegalByHeader(hs, g, k, h, op);
    forall h' | h' in Loads(hs) && InHeader(h', op.at)
      ensures HeaderPermits(h', op) == Legal(g, op)
    {
      LegalByHeader(hs, g, k, h', op);
    }
  }

  // Outside of everything.

  /** The address is on no page of any segment. */
  predicate Stray(g: Program, a: nat)
    requires g.size > 0
  {
    forall i :: 0 <= i < |g.segments| ==> !(g.segments[i].vaddr <= a < SpanEnd(g.segments[i], g.size))
  }

  lemma FaultStaysOut(x: Image, g: Program, at: nat, a: nat)
    requires Rows(x.mapped, g) && Stray(g, a) && a !in x.memory
    ensures a !in Fault(x, g, at).memory
  {
    if Serves(x, g, at) {
      var i := Find(g.segments, at, 0);
      var p := PageNo(g.segments[i], g.size, at);
      FaultHasEntry(g.segments[i], at, g.size);
      PageInSpan(g.segments[i], g.size, p);
      ProductMonotone(0, p, g.size);
      OtherByte(x, g, i, p, a);
    }
  }

  lemma {:induction false} NeverThere(x: Image, g: Program, ops: seq<Access>, a: nat)
    requires Rows(x.mapped, g) && Stray(g, a) && a !in x.memory
    ensures a !in After(x, g, ops).memory
  {
    hide Fault, Stray;
    if ops != [] {
      var y, op := After(x, g, ops[..|ops| - 1]), ops[|ops| - 1];
      NeverThere(x, g, ops[..|ops| - 1], a);
      FaultStaysOut(y, g, op.at, a);
      FaultRows(y, g, op.at);
      FaultStaysOut(Fault(y, g, op.at), g, op.at, a);
    }
  }

  lemma StrayIsOutside(g: Program, a: nat)
    requires g.size > 0 && Stray(g, a)
    ensures Find(g.segments, a, 0) == |g.segments|
  {
    var i := Find(g.segments, a, 0);
    if i < |g.segments| { SpanHolds(g.segments[i], g.size); }
  }

  /** An access on no page of any segment, where the process had no memory before, kills. */
  lemma {:induction false} StrayAccessKills(x: Image, g: Program, ops: seq<Access>, op: Access)
    requires Rows(x.mapped, g) && Stray(g, op.at) && op.at !in x.memory
    ensures After(x, g, ops + [op]).dead
  {
    hide Stray;
    var y := After(x, g, ops);
    assert (ops + [op])[..|ops|] == ops;
    NeverThere(x, g, ops, op.at);
    StrayIsOutside(g, op.at);
    assert !Serves(y, g, op.at);
  }

  // How many faults are served.

  function Falses(row: seq<bool>): (n: nat)
    ensures n <= |row|
  {
    if row == [] then 0 else Falses(row[..|row| - 1]) + (if row[|row| - 1] then 0 else 1)
  }

  /** The pages not yet mapped. */
  function Unmapped(mapped: seq<seq<bool>>): nat {
    if mapped == [] then 0 else Unmapped(mapped[..|mapped| - 1]) + Falses(mapped[|mapped| - 1])
  }

  lemma {:induction false} FalsesFlip(row: seq<bool>, p: nat)
    requires p < |row| && !row[p]
    ensures Falses(row[p := true]) + 1 == Falses(row)
  {
    var n := |row| - 1;
    if p < n {
      assert row[p := true][..n] == row[..n][p := true];
      FalsesFlip(row[..n], p);
    } else {
      assert row[p := true][..n] == row[..n];
    }
  }

  lemma {:induction false} UnmappedFlip(mapped: seq<seq<bool>>, i: nat, p: nat)
    requires i < |mapped| && p < |mapped[i]| && !mapped[i][p]
    ensures Unmapped(mapped[i := mapped[i][p := true]]) + 1 == Unmapped(mapped)
  {
    var n := |mapped| - 1;
    if i < n {
      assert mapped[i := mapped[i][p := true]][..n] == mapped[..n][i := mapped[i][p := true]];
      UnmappedFlip(mapped[..n], i, p);
    } else {
      assert mapped[i := mapped[i][p := true]][..n] == mapped[..n];
      FalsesFlip(mapped[i], p);
    }
  }

  /** An access whose fault is served. */
  predicate IsServed(x: Image, g: Program, op: Access)
    requires Rows(x.mapped, g)
  {
    !x.dead && !Allowed(x, op) && Serves(x, g, op.at)
  }

  function Served(x: Image, g: Program, ops: seq<Access>): nat
    requires Rows(x.mapped, g)
  {
    if ops == [] then 0
    else
      Served(x, g, ops[..|ops| - 1])
      + if IsServed(After(x, g, ops[..|ops| - 1]), g, ops[|ops| - 1]) then 1 else 0
  }

  lemma {:induction false} AttemptCounts(x: Image, g: Program, op: Access)
    requires Rows(x.mapped, g)
    ensures Unmapped(Attempt(x, g, op).mapped) + (if IsServed(x, g, op) then 1 else 0) == Unmapped(x.mapped)
  {
    if !x.dead && !Allowed(x, op) {
      FaultFlips(x, g, op.at);
      if Serves(x, g, op.at) {
        SecondFaultKills(x, g, op.at);
        var i := Find(g.segments, op.at, 0);
        UnmappedFlip(x.mapped, i, PageNo(g.segments[i], g.size, op.at));
      }
    }
  }

  function Pages(segments: seq<Segment>, size: nat): nat
    requires size > 0
  {
    if segments == [] then 0
    else Pages(segments[..|segments| - 1], size) + PagesOf(segments[|segments| - 1], size)
  }

  lemma {:induction false} UnmappedAtMost(mapped: seq<seq<bool>>, g: Program)
    requires Rows(mapped, g)
    ensures Unmapped(mapped) <= Pages(g.segments, g.size)
  {
    if mapped != [] {
      UnmappedAtMost(mapped[..|mapped| - 1], g.(segments := g.segments[..|mapped| - 1]));
    }
  }

  /** Each served fault maps one page more, for good: over any run the served faults and
      the pages still unmapped add up to the pages unmapped at the start, which are no more
      than all the pages of all the segments. */
  lemma {:induction false} FaultsAreBounded(x: Image, g: Program, ops: seq<Access>)
    requires Rows(x.mapped, g)
    ensures Served(x, g, ops) + Unmapped(After(x, g, ops).mapped) == Unmapped(x.mapped)
    ensures Served(x, g, ops) <= Pages(g.segments, g.size)
  {
    UnmappedAtMost(x.mapped, g);
    if ops != [] {
      FaultsAreBounded(x, g, ops[..|ops| - 1]);
      AttemptCounts(After(x, g, ops[..|ops| - 1]), g, ops[|ops| - 1]);
    }
  }

  predicate IsMapped(x: Image, i: nat, p: nat) { i < |x.mapped| && p < |x.mapped[i]| && x.mapped[i][p] }

  lemma FaultKeepsMapped(x: Image, g: Program, a: nat, i: nat, p: nat)
    requires Rows(x.mapped, g) && IsMapped(x, i, p)
    ensures Rows(Fault(x, g, a).mapped, g) && IsMapped(Fault(x, g, a), i, p)
  {
    FaultRows(x, g, a);
    FaultFlips(x, g, a);
    hide Fault, Find, Rows;
  }

  lemma AttemptKeepsMapped(x: Image, g: Program, op: Access, i: nat, p: nat)
    requires Rows(x.mapped, g) && IsMapped(x, i, p)
    ensures IsMapped(Attempt(x, g, op), i, p)
  {
    FaultKeepsMapped(x, g, op.at, i, p);
    FaultKeepsMapped(Fault(x, g, op.at), g, op.at, i, p);
    hide Fault, Rows, Allowed;
  }

  /** A page once mapped stays mapped, so that none is mapped twice. */
  lemma {:induction false} MappedForGood(x: Image, g: Program, ops: seq<Access>, i: nat, p: nat)
    requires Rows(x.mapped, g) && i < |x.mapped| && p < |x.mapped[i]| && x.mapped[i][p]
    ensures After(x, g, ops).mapped[i][p]
  {
    hide Attempt;
    if ops != [] {
      MappedForGood(x, g, ops[..|ops| - 1], i, p);
      AttemptKeepsMapped(After(x, g, ops[..|ops| - 1]), g, ops[|ops| - 1], i, p);
    }
  }
}
