/** The loader as it keeps its tables: the rows of mapped pages allocated by so_execute and
    the fault handler that fills them and the process's memory in place. */
module LoaderObject {
  import opened LoaderParser
  import opened LoaderImage
  import opened LoaderPaging

  type Row = array<int>

  ghost function RowsOf(rows: seq<Row>): set<object> { set i | 0 <= i < |rows| :: rows[i] as object }

  function Marks(row: seq<int>): (r: seq<bool>)
    ensures |r| == |row| && forall j :: 0 <= j < |row| ==> r[j] == (row[j] != 0)
  {
    seq(|row|, j requires 0 <= j < |row| => row[j] != 0)
  }

  /** The rows as the table of mapped pages. */
  ghost function Table(rows: seq<Row>): (t: seq<seq<bool>>)
    reads RowsOf(rows)
    ensures |t| == |rows| && forall i :: 0 <= i < |rows| ==> t[i] == Marks(rows[i][..])
  {
    if rows == [] then []
    else
      assert RowsOf(rows[..|rows| - 1]) <= RowsOf(rows);
      Table(rows[..|rows| - 1]) + [Marks(rows[|rows| - 1][..])]
  }

  predicate Apart(rows: seq<Row>) { forall i, j :: 0 <= i < j < |rows| ==> rows[i] != rows[j] }

  method NewRow(n: nat) returns (row: Row)
    ensures fresh(row) && row.Length == n && forall j :: 0 <= j < n ==> row[j] == 0
  {
    row := new int[n];
    for j := 0 to n
      invariant forall k :: 0 <= k < j ==> row[k] == 0
    {
      row[j] := 0;
    }
  }

  predicate Clear(t: seq<seq<bool>>) { forall i, p :: 0 <= i < |t| && 0 <= p < |t[i]| ==> !t[i][p] }

  /** so_execute's tables: a row for each segment, with an entry for each of its pages. */
  method NewRows(g: Program) returns (rows: seq<Row>)
    requires g.size > 0
    ensures fresh(RowsOf(rows)) && Apart(rows) && Rows(Table(rows), g) && Clear(Table(rows))
  {
    rows := [];
    for i := 0 to |g.segments|
      invariant |rows| == i && Apart(rows)
      invariant forall k :: 0 <= k < i ==> fresh(rows[k]) && rows[k].Length == PagesOf(g.segments[k], g.size)
      invariant forall k, j :: 0 <= k < i && 0 <= j < rows[k].Length ==> rows[k][j] == 0
    {
      var memSize := g.segments[i].memSize;
      var pages := if memSize % g.size == 0 then memSize / g.size else memSize / g.size + 1;
      var row := NewRow(pages);
      rows := rows + [row];
    }
  }

  /** What the handler does in the first segment that holds the address. */
  lemma HandlerDecides(x: Image, g: Program, a: nat, i: nat)
    requires Rows(x.mapped, g) && Find(g.segments, a, 0) == i < |g.segments|
    ensures var p := PageNo(g.segments[i], g.size, a);
            && p < |x.mapped[i]|
            && Fault(x, g, a) == if x.mapped[i][p] then x.(dead := true) else MapPage(x, g, i, p)
  {
    FaultHasEntry(g.segments[i], a, g.size);
  }

  class Loader {
    const program: Program
    const mappedPages: seq<Row>
    var memory: Memory
    var dead: bool

    ghost predicate Valid()
      reads this, RowsOf(mappedPages)
    {
      Apart(mappedPages) && Rows(Table(mappedPages), program)
    }

    ghost function View(): Image
      reads this, RowsOf(mappedPages)
    {
      Image(memory, Table(mappedPages), dead)
    }

    constructor (program: Program, rows: seq<Row>, memory: Memory)
      requires Apart(rows) && Rows(Table(rows), program)
      ensures Valid() && View() == Image(memory, Table(rows), false)
      ensures this.program == program && mappedPages == rows
    {
      this.program, mappedPages, this.memory, dead := program, rows, memory, false;
    }

    /** mapped_pages[i][p] = 1 */
    method MarkMapped(i: nat, p: nat)
      requires Valid() && i < |mappedPages| && p < mappedPages[i].Length
      modifies mappedPages[i]
      ensures Valid() && View() == old(View()).(mapped := old(View()).mapped[i := old(View()).mapped[i][p := true]])
    {
      FlipRows(Table(mappedPages), program, i, p);
      mappedPages[i][p] := 1;
      assert Marks(mappedPages[i][..]) == old(Marks(mappedPages[i][..]))[p := true];
    }

    method MapMemory(start: nat, rights: Rights, offset: nat)
      requires Valid()
      modifies this
      ensures Valid()
      ensures View() == old(View()).(memory := Mmap(old(memory), start, program.size, rights, program.file, offset))
    {
      memory := Mmap(memory, start, program.size, rights, program.file, offset);
    }

    /** memset on the process's memory, of which the page belongs to a segment. */
    method Clean(start: nat, len: nat, writable: bool)
      requires Valid() && len > 0
      modifies this
      ensures Valid()
      ensures View() == if writable then old(View()).(memory := Memset(old(memory), start, start + len))
                        else old(View()).(dead := true)
    {
      if writable { memory := Memset(memory, start, start + len); } else { dead := true; }
    }

    /** The length of the part of a page to be cleared. */
    method ZeroLength(s: Segment, page: nat) returns (start: nat, len: nat)
      ensures var end := ZeroEnd(s, page, program.size);
              if end > ZeroStart(s, page) then start == ZeroStart(s, page) && start + len == end else len == 0
    {
      start, len := 0, 0;
      if page + program.size > s.vaddr + s.fileSize {
        start := if page < s.vaddr + s.fileSize then s.vaddr + s.fileSize else page;
        if s.vaddr + s.memSize >= page {
          var end := if s.vaddr + s.memSize < page + program.size then s.vaddr + s.memSize else page + program.size;
          if end > start { len := end - start; }
        }
      }
    }

    /** Clears what a page holds beyond the segment's bytes in the file. */
    method ClearRest(s: Segment, page: nat, writable: bool)
      requires Valid() && writable == RightsOf(s.perm).write
      modifies this
      ensures Valid() && View() == Cleared(old(View()), s, page, program.size)
    {
      var start, len := ZeroLength(s, page);
      if len > 0 { Clean(start, len, writable); }
    }

    method EnterPage(i: nat, p: nat, page: nat, rights: Rights)
      requires Valid() && i < |program.segments| && p < mappedPages[i].Length
      requires rights == RightsOf(program.segments[i].perm) && page == PageStart(program.segments[i], program.size, p)
      modifies this, mappedPages[i]
      ensures Valid() && View() == Entered(old(View()), program, i, p)
    {
      MapMemory(page, rights, program.segments[i].offset + p * program.size);
      MarkMapped(i, p);
    }

    /** The service of a fault on a page that is not mapped yet. */
    method ServePage(i: nat, p: nat)
      requires Valid() && i < |program.segments| && p < mappedPages[i].Length
      modifies this, mappedPages[i]
      ensures Valid() && View() == MapPage(old(View()), program, i, p)
    {
      var s := program.segments[i];
      var rights := Rights(s.perm & PERM_R != 0, s.perm & PERM_W != 0, s.perm & PERM_X != 0);
      var page := s.vaddr + p * program.size;
      EnterPage(i, p, page, rights);
      ClearRest(s, page, rights.write);
    }

    /** The page of a fault in a segment. */
    method FaultPage(i: nat, a: nat) returns (p: nat)
      requires Valid() && i < |program.segments| && In(program.segments[i], a)
      ensures p == PageNo(program.segments[i], program.size, a) && p < mappedPages[i].Length
    {
      FaultHasEntry(program.segments[i], a, program.size);
      p := (a - program.segments[i].vaddr) / program.size;
    }

    /** The handler of SIGSEGV. */
    method Handle(a: nat)
      requires Valid()
      modifies this, RowsOf(mappedPages)
      ensures Valid() && View() == Fault(old(View()), program, a)
    {
      var i := 0;
      while i < |program.segments|
        invariant i <= |program.segments| && Find(program.segments, a, 0) == Find(program.segments, a, i)
        invariant Valid() && View() == old(View())
      {
        var s := program.segments[i];
        if a >= s.vaddr && a < s.vaddr + s.memSize {
          HandlerDecides(View(), program, a, i);
          var p := FaultPage(i, a);
          if mappedPages[i][p] == 0 {
            ServePage(i, p);
            return;
          } else {
            break;
          }
        }
        i := i + 1;
      }
      dead := true;
    }
  }

  /** so_execute, up to the jump to the program. */
  method Execute(exec: Executable, file: File, size: nat, memory: Memory) returns (loader: Loader)
    requires size > 0
    requires forall seg: Segment, a: nat :: seg in exec.segments[..] && In(seg, a) ==> a !in memory
    ensures fresh(loader) && fresh(RowsOf(loader.mappedPages)) && loader.Valid()
    ensures loader.program == Program(exec.segments[..], file, size)
    ensures Fresh(loader.View(), loader.program)
  {
    var g := Program(exec.segments[..], file, size);
    var rows := NewRows(g);
    loader := new Loader(g, rows, memory);
  }
}
