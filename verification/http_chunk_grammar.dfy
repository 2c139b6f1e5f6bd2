/** What the parser takes for the line of a chunk size. */
module HttpChunkGrammar {
  import opened HttpModel
  import opened HttpBytes
  import opened HttpRun
  import opened HttpChunks

  /** k bytes of digits, then nothing or parameters. */
  predicate SizeBody(text: seq<byte>, k: nat) {
    && 0 < k <= |text| && '\r' !in text && (forall b :: b in text[..k] ==> SizeByte(b))
    && (k < |text| ==> text[k] == ';' || text[k] == ' ')
  }

  predicate IsSizeLine(text: seq<byte>, k: nat) {
    |text| > 1 && text[|text| - 2..] == "\r\n" && SizeBody(text[..|text| - 2], k)
  }

  predicate ReadsSize(c: Core, text: seq<byte>, k: nat) {
    && Chunked in c.flags && SizeBody(text, k)
    && (if c.state.ChunkSize? then k == |text| else c.state.ChunkParameters? && k < |text|)
  }

  lemma SizeAdvances(m: Machine, b: byte, text: seq<byte>, k: nat, skip: nat -> bool) returns (k': nat)
    requires ReadsSize(m.core, text, k) && Step(m, b, skip).Running?
    ensures var d := Step(m, b, skip).m.core;
            if b == '\r' then d.state.ChunkSizeAlmostDone? else ReadsSize(d, text + [b], k')
  {
    hide React, Heard;
    ChunkFrameReaction(m.core, b, skip);
    TablesAreClasses(b);
    hide UnHex, Token, NormalUrlChar, NameByte;
    k' := if m.core.state.ChunkSize? && SizeByte(b) then k + 1 else k;
    if b != '\r' { SizeGrows(text, b, k, k'); }
  }

  lemma SizeGrows(text: seq<byte>, b: byte, k: nat, k': nat)
    requires SizeBody(text, k) && b != '\r'
    requires if k' == k + 1 then k == |text| && SizeByte(b) else k' == k && (k == |text| ==> b == ';' || b == ' ')
    ensures SizeBody(text + [b], k')
  {
    hide SizeByte;
    if k' == k + 1 {
      assert (text + [b])[..k'] == text[..k] + [b];
    } else {
      assert (text + [b])[..k] == text[..k];
    }
  }

  lemma FirstSize(m: Machine, b: byte, skip: nat -> bool)
    requires AtChunk(m) && Step(m, b, skip).Running?
    ensures ReadsSize(Step(m, b, skip).m.core, [b], 1)
  {
    hide React, Heard;
    ChunkFrameReaction(m.core, b, skip);
    TablesAreClasses(b);
    hide UnHex, Token, NormalUrlChar, NameByte;
    NoReturn(b);
    assert [b][..1] == [b];
  }

  lemma NoReturn(b: byte)
    ensures SizeByte(b) ==> b != '\r'
  {}

  lemma {:induction false} PartOfSize(m: Machine, data: seq<byte>, skip: nat -> bool) returns (k: nat)
    requires AtChunk(m) && data != [] && '\r' !in data && Run(m, data, skip).Running?
    ensures ReadsSize(Run(m, data, skip).m.core, data, k) && SizeBody(data, k)
    decreases |data|
  {
    hide React, Step;
    var init, b := data[..|data| - 1], data[|data| - 1];
    assert init + [b] == data;
    if init == [] {
      assert data == [b];
      FirstSize(m, b, skip);
      k := 1;
    } else {
      k := PartOfSize(m, init, skip);
      k := SizeAdvances(Run(m, init, skip).m, b, init, k, skip);
    }
  }

  /** The run has taken a size line: it stands before the data, or before the trailer. */
  predicate TakesSize(m: Machine, data: seq<byte>, skip: nat -> bool) {
    && Run(m, data, skip).Running?
    && (Run(m, data, skip).m.core.state.ChunkData? || Run(m, data, skip).m.core.state.FieldStart?)
  }

  lemma SizeLineLast(m: Machine, b: byte, skip: nat -> bool)
    requires m.core.state.ChunkSizeAlmostDone? && Step(m, b, skip).Running?
    ensures b == '\n'
  {
    hide React, Heard;
    ChunkFrameReaction(m.core, b, skip);
  }

  lemma {:induction false} TakenIsSize(m: Machine, data: seq<byte>, skip: nat -> bool) returns (k: nat)
    requires AtChunk(m) && |data| > 2 && '\r' !in data[..|data| - 2] && TakesSize(m, data, skip)
    ensures IsSizeLine(data, k)
  {
    hide React, Step, ReadsSize;
    var n := |data| - 2;
    assert data[..n + 1][..n] == data[..n] && data[..n + 1][n] == data[n] && data[..|data| - 1] == data[..n + 1];
    var x := Run(m, data[..n + 1], skip).m;
    k := PartOfSize(m, data[..n], skip);
    var k' := SizeAdvances(Run(m, data[..n], skip).m, data[n], data[..n], k, skip);
    if data[n] == '\r' {
      SizeLineLast(x, data[n + 1], skip);
      assert ['\r'] + ['\n'] == "\r\n";
      assert data[n..] == [data[n]] + [data[n + 1]];
    } else {
      SizeGoesOn(x, data[..n] + [data[n]], k', data[n + 1], skip);
      assert false;
    }
  }

  lemma SizeGoesOn(m: Machine, text: seq<byte>, k: nat, b: byte, skip: nat -> bool)
    requires ReadsSize(m.core, text, k) && Step(m, b, skip).Running?
    ensures var s := Step(m, b, skip).m.core.state; !s.ChunkData? && !s.FieldStart?
  {
    hide Step;
    var k' := SizeAdvances(m, b, text, k, skip);
  }

  lemma {:induction false} SizeIsTaken(m: Machine, data: seq<byte>, k: nat, skip: nat -> bool)
    requires AtChunk(m) && IsSizeLine(data, k) && |data| <= MAX_HEADER_SIZE
    ensures TakesSize(m, data, skip)
  {
    hide React, HexValue, SizeByte;
    var text := data[..|data| - 2];
    var line := SizeLine(text[..k], text[k..]);
    assert text[..k] + text[k..] == text && text + "\r\n" == data;
    SizeLineRun(m, line, skip);
  }

  /** The language of size lines: of the texts of more than two bytes, within the header
      limit, with no CR before the last two bytes, exactly those are taken that are digits,
      parameters or none, and CR LF. */
  lemma {:induction false} SizeLineExactly(m: Machine, data: seq<byte>, skip: nat -> bool)
    requires AtChunk(m) && 2 < |data| <= MAX_HEADER_SIZE && '\r' !in data[..|data| - 2]
    ensures TakesSize(m, data, skip) <==> exists k: nat :: IsSizeLine(data, k)
  {
    hide React, IsSizeLine, TakesSize;
    if TakesSize(m, data, skip) {
      var k := TakenIsSize(m, data, skip);
    } else if k: nat :| IsSizeLine(data, k) {
      SizeIsTaken(m, data, k, skip);
    }
  }
}
