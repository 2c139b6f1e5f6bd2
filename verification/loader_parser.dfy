/** Reading the program headers of an executable into page-aligned segments. */
module LoaderParser {
  const WORD: nat := 0x1_0000_0000
  const PT_LOAD: nat := 1
  const PF_X: bv32 := 1
  const PF_W: bv32 := 2
  const PF_R: bv32 := 4
  const PERM_R: bv32 := 1
  const PERM_W: bv32 := 2
  const PERM_X: bv32 := 4

  /** A program header, as far as the loader reads it. */
  datatype Phdr = Phdr(kind: nat, vaddr: nat, offset: nat, filesz: nat, memsz: nat, flags: bv32)

  datatype Segment = Segment(vaddr: nat, fileSize: nat, memSize: nat, offset: nat, perm: bv32)

  // ALIGN_DOWN.

  function Pow2(k: nat): (p: nat)
    ensures p > 0
  {
    if k == 0 then 1 else 2 * Pow2(k - 1)
  }

  /** Bitwise and of natural numbers. */
  function And(x: nat, y: nat): nat {
    if x == 0 || y == 0 then 0 else 2 * And(x / 2, y / 2) + (if x % 2 == 1 && y % 2 == 1 then 1 else 0)
  }

  /** The complement in a word. */
  function Not(x: nat): nat
    requires x < WORD
  {
    WORD - 1 - x
  }

  function AlignDown(v: nat, a: nat): nat
    requires 0 < a <= WORD
  {
    And(v, Not(a - 1))
  }

  lemma {:induction false} AndWithOnes(v: nat, w: nat)
    requires v < Pow2(w)
    ensures And(v, Pow2(w) - 1) == v
  {
    if v != 0 {
      assert (Pow2(w) - 1) / 2 == Pow2(w - 1) - 1;
      AndWithOnes(v / 2, w - 1);
    }
  }

  lemma HalfModulo(v: nat, p: nat)
    requires p > 0
    ensures v % (2 * p) == 2 * (v / 2 % p) + v % 2
  {
    var q, r := v / 2 / p, v / 2 % p;
    assert v == 2 * (p * q + r) + v % 2;
    assert v == (2 * p) * q + (2 * r + v % 2) by { assert 2 * (p * q) == (2 * p) * q; }
    ModuloIs(2 * p, q, 2 * r + v % 2);
  }

  lemma ProductAtLeast(m: nat, d: nat)
    requires d > 0
    ensures m * d >= m
  {
    if d > 1 {
      ProductAtLeast(m, d - 1);
      assert m * d == m * (d - 1) + m;
    }
  }

  lemma ModuloIs(m: nat, q: nat, r: nat)
    requires r < m
    ensures (m * q + r) / m == q && (m * q + r) % m == r
  {
    var x := m * q + r;
    var y := x / m;
    if y < q {
      assert m * q == m * y + m * (q - y);
      ProductAtLeast(m, q - y);
    } else if q < y {
      assert m * y == m * q + m * (y - q);
      ProductAtLeast(m, y - q);
    }
  }

  lemma {:induction false} AndWithMask(v: nat, w: nat, k: nat)
    requires v < Pow2(w) && k <= w
    ensures Pow2(k) <= Pow2(w) && And(v, Pow2(w) - Pow2(k)) == v - v % Pow2(k)
  {
    if k == 0 {
      AndWithOnes(v, w);
    } else if v / 2 < Pow2(w - 1) {
      AndWithMask(v / 2, w - 1, k - 1);
      HalfModulo(v, Pow2(k - 1));
      assert (Pow2(w) - Pow2(k)) / 2 == Pow2(w - 1) - Pow2(k - 1);
      AndHalves(v, Pow2(w) - Pow2(k));
    }
  }

  lemma AndHalves(v: nat, m: nat)
    requires m % 2 == 0
    ensures And(v, m) == 2 * And(v / 2, m / 2)
  {}

  lemma WordIsPower()
    ensures Pow2(32) == WORD
  {
    assert Pow2(8) == 256;
    assert Pow2(16) == 65536;
    assert Pow2(24) == 65536 * 256;
  }

  /** For a power of two the mask rounds down to a multiple. */
  lemma AlignDownRounds(v: nat, k: nat)
    requires v < WORD && k <= 32
    ensures Pow2(k) <= WORD && AlignDown(v, Pow2(k)) == v - v % Pow2(k)
  {
    hide And;
    WordIsPower();
    AndWithMask(v, 32, k);
  }

  // Segments.

  /** Unsigned 32-bit arithmetic. */
  function Add(x: nat, y: nat): nat { (x + y) % WORD }

  function Sub(x: nat, y: nat): nat
    requires y <= WORD
  {
    (x + (WORD - y)) % WORD
  }

  function PermOf(flags: bv32): bv32 {
    (if flags & PF_X != 0 then PERM_X else 0)
    | (if flags & PF_R != 0 then PERM_R else 0)
    | (if flags & PF_W != 0 then PERM_W else 0)
  }

  predicate InWord(h: Phdr) { h.vaddr < WORD && h.offset < WORD && h.filesz < WORD && h.memsz < WORD }

  lemma {:induction false} AndAtMost(x: nat, y: nat)
    ensures And(x, y) <= x
  {
    if x != 0 && y != 0 { AndAtMost(x / 2, y / 2); }
  }

  function Converted(h: Phdr, pagesz: nat): Segment
    requires InWord(h) && 0 < pagesz <= WORD
  {
    AndAtMost(h.vaddr, Not(pagesz - 1));
    var vaddr := AlignDown(h.vaddr, pagesz);
    var diff := h.vaddr - vaddr;
    Segment(vaddr, Add(h.filesz, diff), Add(h.memsz, diff), Sub(h.offset, diff), PermOf(h.flags))
  }

  function Loads(hs: seq<Phdr>): seq<Phdr> {
    if hs == [] then []
    else Loads(hs[..|hs| - 1]) + (if hs[|hs| - 1].kind == PT_LOAD then [hs[|hs| - 1]] else [])
  }

  lemma {:induction false} LoadsAre(hs: seq<Phdr>)
    ensures |Loads(hs)| <= |hs| && forall h :: h in Loads(hs) <==> h in hs && h.kind == 1
  {
    if hs != [] {
      LoadsAre(hs[..|hs| - 1]);
      assert hs == hs[..|hs| - 1] + [hs[|hs| - 1]];
    }
  }

  lemma {:induction false} LoadsPrefix(hs: seq<Phdr>, i: nat)
    requires i < |hs|
    ensures Loads(hs[..i + 1]) == Loads(hs[..i]) + (if hs[i].kind == PT_LOAD then [hs[i]] else [])
    ensures |Loads(hs[..i + 1])| <= |Loads(hs)|
    decreases |hs| - i
  {
    assert hs[..i + 1][..i] == hs[..i];
    if i + 1 < |hs| {
      LoadsPrefix(hs, i + 1);
    } else {
      assert hs[..i + 1] == hs;
    }
  }

  class Executable {
    var baseAddr: nat
    var entry: nat
    var segmentsNo: nat
    var segments: array<Segment>

    constructor (entry: nat, n: nat)
      ensures baseAddr == WORD - 1 && this.entry == entry && segmentsNo == n
      ensures fresh(segments) && segments.Length == n
    {
      baseAddr, this.entry, segmentsNo := WORD - 1, entry, n;
      segments := new Segment[n](_ => Segment(0, 0, 0, 0, 0));
    }

    /** The next segment, and the base address so far. */
    method Append(j: nat, seg: Segment)
      requires j < segments.Length && IsBase(baseAddr, segments[..j])
      modifies this`baseAddr, segments
      ensures segments[..j + 1] == old(segments[..j]) + [seg] && IsBase(baseAddr, segments[..j + 1])
    {
      BaseGrows(baseAddr, segments[..j], seg);
      segments[j] := seg;
      assert segments[..j + 1] == old(segments[..j]) + [seg];
      if seg.vaddr < baseAddr { baseAddr := seg.vaddr; }
    }
  }

  method CountLoads(hs: seq<Phdr>) returns (n: nat)
    ensures n == |Loads(hs)|
  {
    n := 0;
    for i := 0 to |hs|
      invariant n == |Loads(hs[..i])|
    {
      LoadsPrefix(hs, i);
      if hs[i].kind == PT_LOAD { n := n + 1; }
    }
    assert hs[..|hs|] == hs;
  }

  method Convert(h: Phdr, pagesz: nat) returns (seg: Segment)
    requires InWord(h) && 0 < pagesz <= WORD
    ensures seg == Converted(h, pagesz)
  {
    AndAtMost(h.vaddr, Not(pagesz - 1));
    var vaddr := AlignDown(h.vaddr, pagesz);
    var diff := h.vaddr - vaddr;
    var perm: bv32 := 0;
    if h.flags & PF_X != 0 { perm := perm | PERM_X; }
    if h.flags & PF_R != 0 { perm := perm | PERM_R; }
    if h.flags & PF_W != 0 { perm := perm | PERM_W; }
    seg := Segment(vaddr, Add(h.filesz, diff), Add(h.memsz, diff), Sub(h.offset, diff), perm);
  }

  /** The segments of the loadable headers, in order. */
  predicate Converts(segs: seq<Segment>, hs: seq<Phdr>, pagesz: nat)
    requires (forall h :: h in hs ==> InWord(h)) && 0 < pagesz <= WORD
  {
    |segs| == |hs| && forall j :: 0 <= j < |hs| ==> segs[j] == Converted(hs[j], pagesz)
  }

  /** The lowest segment address, or all ones. */
  predicate IsBase(base: nat, segs: seq<Segment>) {
    && (forall seg :: seg in segs ==> base <= seg.vaddr)
    && (base == WORD - 1 || exists seg :: seg in segs && seg.vaddr == base)
  }

  lemma BaseGrows(base: nat, segs: seq<Segment>, seg: Segment)
    requires IsBase(base, segs)
    ensures IsBase(if seg.vaddr < base then seg.vaddr else base, segs + [seg])
  {
    assert forall s :: s in segs + [seg] <==> s in segs || s == seg;
    if !(seg.vaddr < base) && base != WORD - 1 {
      var s :| s in segs && s.vaddr == base;
      assert s in segs + [seg];
    }
  }

  lemma ConvertsGrows(segs: seq<Segment>, hs: seq<Phdr>, seg: Segment, h: Phdr, pagesz: nat)
    requires (forall x :: x in hs ==> InWord(x)) && InWord(h) && 0 < pagesz <= WORD
    requires Converts(segs, hs, pagesz) && seg == Converted(h, pagesz)
    ensures (forall x :: x in hs + [h] ==> InWord(x)) && Converts(segs + [seg], hs + [h], pagesz)
  {}

  /** The program header part of so_parse_exec. */
  method ParseExec(hs: seq<Phdr>, entry: nat, pagesz: nat) returns (exec: Executable)
    requires (forall h :: h in hs ==> InWord(h)) && 0 < pagesz <= WORD
    ensures fresh(exec) && fresh(exec.segments) && exec.entry == entry
    ensures exec.segmentsNo == |Loads(hs)| && (forall h :: h in Loads(hs) ==> InWord(h))
    ensures Converts(exec.segments[..], Loads(hs), pagesz) && IsBase(exec.baseAddr, exec.segments[..])
  {
    LoadsAre(hs);
    var n := CountLoads(hs);
    exec := new Executable(entry, n);
    var j := 0;
    for i := 0 to |hs|
      invariant j == |Loads(hs[..i])| <= n == exec.segments.Length == exec.segmentsNo
      invariant fresh(exec) && fresh(exec.segments) && exec.entry == entry
      invariant forall h :: h in Loads(hs[..i]) ==> InWord(h)
      invariant Converts(exec.segments[..j], Loads(hs[..i]), pagesz) && IsBase(exec.baseAddr, exec.segments[..j])
    {
      LoadsPrefix(hs, i);
      if hs[i].kind == PT_LOAD {
        var seg := Convert(hs[i], pagesz);
        ConvertsGrows(exec.segments[..j], Loads(hs[..i]), seg, hs[i], pagesz);
        exec.Append(j, seg);
        j := j + 1;
      }
    }
    assert hs[..|hs|] == hs && exec.segments[..j] == exec.segments[..];
  }

  // What a conversion keeps.

  /** What the System V ABI asks of a loadable header, for pages of 2^k bytes, and that
      its addresses, up to the end of its last page, and its offsets fit a word. */
  predicate Loadable(h: Phdr, k: nat) {
    && InWord(h) && k < 32 && h.kind == PT_LOAD
    && h.vaddr % Pow2(k) == h.offset % Pow2(k)
    && h.filesz <= h.memsz && h.vaddr + h.memsz + Pow2(k) <= WORD && h.offset + h.filesz < WORD
  }

  lemma NoWrap(x: nat, d: nat)
    ensures x + d < WORD ==> Add(x, d) == x + d
    ensures d <= x < WORD ==> Sub(x, d) == x - d
  {}

  /** A converted segment starts and is read from a page boundary, and holds the same bytes
      at the same addresses, preceded by less than a page of the file. */
  lemma ConvertedIsAligned(h: Phdr, k: nat)
    requires Loadable(h, k)
    ensures Pow2(k) <= WORD
    ensures var s := Converted(h, Pow2(k));
            && s.vaddr % Pow2(k) == 0 && s.offset % Pow2(k) == 0
            && s.vaddr <= h.vaddr < s.vaddr + Pow2(k)
            && h.vaddr - s.vaddr == h.offset - s.offset
            && s.vaddr + s.fileSize == h.vaddr + h.filesz && s.vaddr + s.memSize == h.vaddr + h.memsz
  {
    AlignDownRounds(h.vaddr, k);
    var p := Pow2(k);
    RoundedIsMultiple(h.vaddr, p);
    RoundedIsMultiple(h.offset, p);
    var diff := h.vaddr % p;
    assert diff < p;
    NoWrap(h.filesz, diff);
    NoWrap(h.memsz, diff);
    NoWrap(h.offset, diff);
  }

  lemma RoundedIsMultiple(v: nat, p: nat)
    requires p > 0
    ensures v % p <= v && (v - v % p) % p == 0
  {
    assert v - v % p == p * (v / p);
    if v < p {
      assert v % p == v;
    } else {
      ModuloIs(p, v / p, 0);
    }
  }

  /** The rights of a segment are those of its header. */
  lemma PermissionsKept(flags: bv32)
    ensures (PermOf(flags) & PERM_R != 0 <==> flags & PF_R != 0)
    ensures (PermOf(flags) & PERM_W != 0 <==> flags & PF_W != 0)
    ensures (PermOf(flags) & PERM_X != 0 <==> flags & PF_X != 0)
  {}
}
