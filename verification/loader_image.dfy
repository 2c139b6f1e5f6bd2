/** Demand paging as functions on the process image: what a page fault maps, and why a
    program cannot tell the lazily built image from the one the System V ABI prescribes. */
module LoaderImage {
  import opened LoaderParser

  type byte = b: int | 0 <= b < 256

  type File = nat -> byte

  datatype Rights = Rights(read: bool, write: bool, execute: bool)

  datatype Cell = Cell(value: byte, rights: Rights)

  type Memory = map<nat, Cell>

  /** The process: its memory, the table of mapped pages, and whether the next fault kills
      it because the default handler is back. */
  datatype Image = Image(memory: Memory, mapped: seq<seq<bool>>, dead: bool)

  /** The executable, as the fault handler knows it. */
  datatype Program = Program(segments: seq<Segment>, file: File, size: nat)

  function RightsOf(perm: bv32): Rights { Rights(perm & PERM_R != 0, perm & PERM_W != 0, perm & PERM_X != 0) }

  function FileEnd(s: Segment): nat { s.vaddr + s.fileSize }

  function MemEnd(s: Segment): nat { s.vaddr + s.memSize }

  predicate In(s: Segment, a: nat) { s.vaddr <= a < MemEnd(s) }

  /** so_execute's page count. */
  function PagesOf(s: Segment, size: nat): nat
    requires size > 0
  {
    if s.memSize % size == 0 then s.memSize / size else s.memSize / size + 1
  }

  function PageStart(s: Segment, size: nat, p: nat): nat { s.vaddr + p * size }

  predicate InPage(s: Segment, size: nat, p: nat, a: nat) { PageStart(s, size, p) <= a < PageStart(s, size, p) + size }

  // mmap and memset.

  predicate Within(start: nat, len: nat, a: nat) { start <= a < start + len }

  function Mmap(m: Memory, start: nat, len: nat, rights: Rights, file: File, offset: nat): Memory {
    m + map a: nat | start <= a < start + len && Within(start, len, a) :: Cell(file(offset + (a - start)), rights)
  }

  function Memset(m: Memory, start: nat, end: nat): Memory {
    map a | a in m :: if start <= a < end then m[a].(value := 0) else m[a]
  }

  // The fault handler.

  /** The first segment from i on that an address lies in; their number if none. */
  function Find(segments: seq<Segment>, a: nat, i: nat): (k: nat)
    requires i <= |segments|
    ensures i <= k <= |segments| && (k < |segments| ==> In(segments[k], a))
    ensures forall j :: i <= j < k ==> !In(segments[j], a)
    decreases |segments| - i
  {
    if i == |segments| || In(segments[i], a) then i else Find(segments, a, i + 1)
  }

  /** The bytes of a page that the handler clears; none when the end is not beyond the start. */
  function ZeroStart(s: Segment, page: nat): nat { if page < FileEnd(s) then FileEnd(s) else page }

  function ZeroEnd(s: Segment, page: nat, size: nat): nat {
    if page + size > FileEnd(s) && MemEnd(s) >= page then
      if MemEnd(s) < page + size then MemEnd(s) else page + size
    else 0
  }

  /** The table has a row for each segment, with an entry for each of its pages. */
  predicate Rows(mapped: seq<seq<bool>>, g: Program) {
    g.size > 0 && |mapped| == |g.segments|
    && forall i :: 0 <= i < |mapped| ==> |mapped[i]| == PagesOf(g.segments[i], g.size)
  }

  lemma QuotientBelow(x: nat, y: nat, size: nat)
    requires size > 0 && x < y
    ensures x / size < (if y % size == 0 then y / size else y / size + 1)
  {
    var q, n := x / size, y / size;
    if q >= n + 1 {
      assert q * size == (n + 1) * size + (q - n - 1) * size;
    }
  }

  /** A fault inside a segment has its entry in the segment's row. */
  lemma FaultHasEntry(s: Segment, a: nat, size: nat)
    requires size > 0 && In(s, a)
    ensures (a - s.vaddr) / size < PagesOf(s, size)
  {
    QuotientBelow(a - s.vaddr, s.memSize, size);
  }

  /** The file's page at its place in memory, and its entry in the table. */
  function Entered(x: Image, g: Program, i: nat, p: nat): Image
    requires Rows(x.mapped, g) && i < |g.segments| && p < |x.mapped[i]|
  {
    var s := g.segments[i];
    Image(Mmap(x.memory, PageStart(s, g.size, p), g.size, RightsOf(s.perm), g.file, s.offset + p * g.size),
          x.mapped[i := x.mapped[i][p := true]], x.dead)
  }

  /** The bytes of a page beyond the segment's part of the file cleared; clearing bytes of a
      page that may not be written kills. */
  function Cleared(x: Image, s: Segment, page: nat, size: nat): Image {
    if ZeroEnd(s, page, size) <= ZeroStart(s, page) then x
    else if !RightsOf(s.perm).write then x.(dead := true)
    else x.(memory := Memset(x.memory, ZeroStart(s, page), ZeroEnd(s, page, size)))
  }

  function MapPage(x: Image, g: Program, i: nat, p: nat): Image
    requires Rows(x.mapped, g) && i < |g.segments| && p < |x.mapped[i]|
  {
    Cleared(Entered(x, g, i, p), g.segments[i], PageStart(g.segments[i], g.size, p), g.size)
  }

  /** The handler maps the page of the first segment that holds the address, the first
      time; otherwise it restores the default handler. */
  predicate Serves(x: Image, g: Program, a: nat)
    requires Rows(x.mapped, g)
  {
    var i := Find(g.segments, a, 0);
    i < |g.segments|
    && (FaultHasEntry(g.segments[i], a, g.size); !x.mapped[i][(a - g.segments[i].vaddr) / g.size])
  }

  function Fault(x: Image, g: Program, a: nat): Image
    requires Rows(x.mapped, g)
  {
    if Serves(x, g, a) then
      var i := Find(g.segments, a, 0);
      FaultHasEntry(g.segments[i], a, g.size);
      MapPage(x, g, i, (a - g.segments[i].vaddr) / g.size)
    else x.(dead := true)
  }

  // What a mapped page holds.

  /** The byte that the ABI prescribes at an address of a segment. */
  function Prescribed(s: Segment, file: File, a: nat): byte
    requires a >= s.vaddr
  {
    if a < FileEnd(s) then file(s.offset + (a - s.vaddr)) else 0
  }

  lemma ProductMonotone(a: nat, b: nat, c: nat)
    requires a <= b
    ensures a * c <= b * c
  {
    assert b * c == a * c + (b - a) * c;
  }

  /** Of a segment's addresses, a page holds those whose quotient is its number. */
  lemma PageIsQuotient(s: Segment, size: nat, p: nat, a: nat)
    requires size > 0 && a >= s.vaddr
    ensures InPage(s, size, p, a) <==> (a - s.vaddr) / size == p
  {
    var x := a - s.vaddr;
    var q := x / size;
    assert q * size <= x < q * size + size;
    if q < p { ProductMonotone(q + 1, p, size); }
    if p < q { ProductMonotone(p + 1, q, size); }
  }

  /** The pages of a segment end before its span does. */
  lemma PageInSpan(s: Segment, size: nat, p: nat)
    requires size > 0 && p < PagesOf(s, size)
    ensures PageStart(s, size, p) + size <= s.vaddr + PagesOf(s, size) * size
  {
    ProductMonotone(p + 1, PagesOf(s, size), size);
  }

  predicate Clears(s: Segment) { s.fileSize <= s.memSize && (s.memSize > s.fileSize ==> RightsOf(s.perm).write) }

  lemma ZeroedIsBss(s: Segment, page: nat, size: nat, a: nat)
    requires s.vaddr <= page <= a < page + size && a < MemEnd(s)
    ensures ZeroStart(s, page) <= a < ZeroEnd(s, page, size) <==> a >= FileEnd(s)
  {}

  /** What a mapped page holds at an address: the prescribed byte in the segment, and beyond its
      end what the file has there. */
  function Held(s: Segment, file: File, a: nat): byte
    requires a >= s.vaddr
  {
    if a < MemEnd(s) then Prescribed(s, file, a) else file(s.offset + (a - s.vaddr))
  }

  /** From x to y a page of a segment is mapped: it holds what the ABI prescribes at every
      address of the segment in it, and beyond the segment more of the file, with the
      segment's rights; nothing else changes. */
  ghost predicate Gains(x: Image, y: Image, g: Program, i: nat, p: nat)
    requires Rows(x.mapped, g) && i < |g.segments| && p < |x.mapped[i]|
  {
    var s := g.segments[i];
    && (forall a: nat :: InPage(s, g.size, p, a) ==>
          a in y.memory && y.memory[a] == Cell(Held(s, g.file, a), RightsOf(s.perm)))
    && (forall a: nat :: !InPage(s, g.size, p, a) ==>
          (a in y.memory <==> a in x.memory) && (a in x.memory ==> y.memory[a] == x.memory[a]))
    && y.dead == x.dead && y.mapped == x.mapped[i := x.mapped[i][p := true]]
  }

  /** Serving a fault kills if and only if bytes of the page have to be cleared, because the
      segment has memory there without a file, and the segment may not be written. */
  lemma ServingKills(x: Image, g: Program, i: nat, p: nat)
    requires Rows(x.mapped, g) && i < |g.segments| && p < |x.mapped[i]| && !x.dead
    ensures var s := g.segments[i];
            MapPage(x, g, i, p).dead
            <==> s.perm & PERM_W == 0 && exists a: nat :: InPage(s, g.size, p, a) && FileEnd(s) <= a < MemEnd(s)
  {
    hide Mmap, Memset;
    var s, page := g.segments[i], PageStart(g.segments[i], g.size, p);
    if ZeroStart(s, page) < ZeroEnd(s, page, g.size) { assert InPage(s, g.size, p, ZeroStart(s, page)); }
  }

  lemma MappedByte(x: Image, g: Program, i: nat, p: nat, a: nat)
    requires Rows(x.mapped, g) && i < |g.segments| && p < |x.mapped[i]| && Clears(g.segments[i])
    requires InPage(g.segments[i], g.size, p, a)
    ensures var s, y := g.segments[i], MapPage(x, g, i, p);
            a in y.memory && y.memory[a] == Cell(Held(s, g.file, a), RightsOf(s.perm))
  {
    hide Rows, RightsOf;
    var s := g.segments[i];
    if a < MemEnd(s) { ZeroedIsBss(s, PageStart(s, g.size, p), g.size, a); }
    assert Within(PageStart(s, g.size, p), g.size, a);
  }

  lemma OtherByte(x: Image, g: Program, i: nat, p: nat, a: nat)
    requires Rows(x.mapped, g) && i < |g.segments| && p < |x.mapped[i]| && !InPage(g.segments[i], g.size, p, a)
    ensures var y := MapPage(x, g, i, p);
            (a in y.memory <==> a in x.memory) && (a in x.memory ==> y.memory[a] == x.memory[a])
  {
    hide Rows, RightsOf;
  }

  lemma MapPageLives(x: Image, g: Program, i: nat, p: nat)
    requires Rows(x.mapped, g) && i < |g.segments| && p < |x.mapped[i]| && Clears(g.segments[i])
    ensures MapPage(x, g, i, p).dead == x.dead
    ensures MapPage(x, g, i, p).mapped == x.mapped[i := x.mapped[i][p := true]]
  {
    hide Mmap, Memset, RightsOf;
  }

  lemma MappedAsPrescribed(x: Image, g: Program, i: nat, p: nat)
    requires Rows(x.mapped, g) && i < |g.segments| && p < |x.mapped[i]| && Clears(g.segments[i])
    ensures Gains(x, MapPage(x, g, i, p), g, i, p)
  {
    hide MapPage, RightsOf, Prescribed, Held;
    var s, y := g.segments[i], MapPage(x, g, i, p);
    MapPageLives(x, g, i, p);
    forall a: nat | InPage(s, g.size, p, a)
      ensures a in y.memory && y.memory[a] == Cell(Held(s, g.file, a), RightsOf(s.perm))
    {
      MappedByte(x, g, i, p, a);
    }
    forall a: nat | !InPage(s, g.size, p, a)
      ensures (a in y.memory <==> a in x.memory) && (a in x.memory ==> y.memory[a] == x.memory[a])
    {
      OtherByte(x, g, i, p, a);
    }
  }
}
