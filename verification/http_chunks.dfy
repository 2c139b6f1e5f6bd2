/** Chunked transfer coding (section 3.6.1 of RFC 2616): what is encoded is what
    on_body hears, and the message ends after the last chunk and a blank line. */
module HttpChunks {
  import opened HttpModel
  import opened HttpBytes
  import opened HttpRun
  import opened HttpBody
  import opened HttpGlide
  import opened HttpLines
  import opened HttpMessages

  function HexValue(s: seq<byte>): nat
    requires forall b :: b in s ==> SizeByte(b)
  {
    if s == [] then 0
    else
      assert forall b :: b in s[..|s| - 1] ==> b in s;
      HexValue(s[..|s| - 1]) * 16 + SizeDigit(s[|s| - 1])
  }

  /** A size line: hex digits in either case with any leading zeros, then parameters. */
  datatype SizeLine = SizeLine(digits: seq<byte>, parameters: seq<byte>) {
    predicate Valid() {
      && digits != [] && (forall b :: b in digits ==> SizeByte(b))
      && (parameters != [] ==> parameters[0] == ';' || parameters[0] == ' ')
      && (forall b :: b in parameters ==> b != '\r')
      && |digits| + |parameters| + 2 <= MAX_HEADER_SIZE
    }

    function Text(): seq<byte> { digits + parameters + "\r\n" }
  }

  datatype Chunk = Chunk(line: SizeLine, data: seq<byte>) {
    predicate Valid() {
      line.Valid() && data != [] && HexValue(line.digits) == |data| < 0x8000_0000_0000_0000
    }

    function Text(): seq<byte> { line.Text() + data + "\r\n" }
  }

  // One size line.

  /** In front of a size line. */
  predicate AtChunk(m: Machine) { m.core.state.ChunkSizeStart? && Chunked in m.core.flags && m.nread == 0 }

  function Sized(c: Core, n: nat): Core { c.(state := ChunkSize, contentLength := n % SIZE_MODULUS) }

  lemma FirstDigit(m: Machine, b: byte, skip: nat -> bool)
    requires AtChunk(m) && SizeByte(b)
    ensures Reaches(m, [b], Moved(m, Sized(m.core, SizeDigit(b)), 1, 1, []), skip)
  {
    hide React;
    TablesAreClasses(b);
    assert SizeDigit(b) % SIZE_MODULUS == UnHex(b);
    ChunkFrameReaction(m.core, b, skip);
    RunByte(m, b, skip);
    QuietStep(m, b, Sized(m.core, SizeDigit(b)), false, skip);
  }

  lemma HexDigitGlides(c: Core, n: nat, b: byte, skip: nat -> bool)
    requires Chunked in c.flags && SizeByte(b)
    ensures Glides(Sized(c, n), [b], Sized(c, n * 16 + SizeDigit(b)), [], [], skip)
  {
    hide React;
    WrapHex(n, SizeDigit(b));
    ChunkFrameReaction(Sized(c, n), b, skip);
    QuietByteGlides(Sized(c, n), b, Sized(c, n * 16 + SizeDigit(b)), skip);
  }

  lemma WrapHex(n: nat, d: nat)
    ensures (n % SIZE_MODULUS * 16 + d) % SIZE_MODULUS == (n * 16 + d) % SIZE_MODULUS
  {
    var q := n / SIZE_MODULUS;
    assert n * 16 + d == q * 16 * SIZE_MODULUS + (n % SIZE_MODULUS * 16 + d);
    WrapsAround(q * 16, n % SIZE_MODULUS * 16 + d);
  }

  lemma HexOneMore(s: seq<byte>, b: byte)
    requires (forall x :: x in s ==> SizeByte(x)) && SizeByte(b)
    ensures HexValue(s + [b]) == HexValue(s) * 16 + SizeDigit(b)
  {
    assert (s + [b])[..|s|] == s;
  }

  /** Digits after the first. */
  lemma {:induction false} DigitsGlide(c: Core, first: byte, s: seq<byte>, skip: nat -> bool) returns (n: nat)
    requires Chunked in c.flags && SizeByte(first) && forall b :: b in s ==> SizeByte(b)
    ensures n == HexValue([first] + s) && Glides(Sized(c, SizeDigit(first)), s, Sized(c, n), [], [], skip)
    decreases |s|
  {
    hide React, Reaches, Glides, UnHex, Sized;
    if s == [] {
      n := SizeDigit(first);
      assert [first] + s == [first] && [first][..0] == [];
      assert HexValue([first]) == SizeDigit(first);
      EmptyGlides(Sized(c, n), skip);
    } else {
      var init, b := s[..|s| - 1], s[|s| - 1];
      assert init + [b] == s && b in s && forall x :: x in init ==> x in s;
      var k := DigitsGlide(c, first, init, skip);
      assert [first] + s == [first] + init + [b];
      HexOneMore([first] + init, b);
      n := k * 16 + SizeDigit(b);
      HexDigitGlides(c, k, b, skip);
      GlidesOnSilently(Sized(c, SizeDigit(first)), init, Sized(c, k), [], [], [b], Sized(c, n), skip);
    }
  }

  lemma SizeReturnGlides(c: Core, skip: nat -> bool)
    requires Chunked in c.flags && (c.state.ChunkSize? || c.state.ChunkParameters?)
    ensures Glides(c, "\r", c.(state := ChunkSizeAlmostDone), [], [], skip)
  {
    hide React;
    ChunkFrameReaction(c, '\r', skip);
    QuietByteGlides(c, '\r', c.(state := ChunkSizeAlmostDone), skip);
  }

  lemma FirstParameterGlides(c: Core, b: byte, skip: nat -> bool)
    requires Chunked in c.flags && c.state.ChunkSize? && (b == ';' || b == ' ')
    ensures Glides(c, [b], c.(state := ChunkParameters), [], [], skip)
  {
    hide React;
    ChunkFrameReaction(c, b, skip);
    QuietByteGlides(c, b, c.(state := ChunkParameters), skip);
  }

  lemma {:induction false} MoreParametersGlide(c: Core, s: seq<byte>, skip: nat -> bool)
    requires Chunked in c.flags && c.state.ChunkParameters? && forall b :: b in s ==> b != '\r'
    ensures Glides(c, s, c, [], [], skip)
  {
    hide React;
    forall b | b in s
      ensures GlideByte(c, b, skip) == At(c)
    {
      ChunkFrameReaction(c, b, skip);
    }
    GlideStay(c, s, skip);
  }

  lemma {:induction false} AllParametersGlide(c: Core, first: byte, more: seq<byte>, skip: nat -> bool)
    requires Chunked in c.flags && c.state.ChunkSize? && (first == ';' || first == ' ')
    requires forall b :: b in more ==> b != '\r'
    ensures Glides(c, [first] + more, c.(state := ChunkParameters), [], [], skip)
  {
    hide React;
    var x := c.(state := ChunkParameters);
    FirstParameterGlides(c, first, skip);
    MoreParametersGlide(x, more, skip);
    GlidesOnSilently(c, [first], x, [], [], more, x, skip);
  }

  /** The parameters and the CR that ends them. */
  lemma {:induction false} ParametersGlide(c: Core, s: seq<byte>, skip: nat -> bool)
    requires Chunked in c.flags && c.state.ChunkSize?
    requires s != [] ==> s[0] == ';' || s[0] == ' '
    requires forall b :: b in s ==> b != '\r'
    ensures Glides(c, s + "\r", c.(state := ChunkSizeAlmostDone), [], [], skip)
  {
    hide React;
    if s == [] {
      assert s + "\r" == "\r";
      SizeReturnGlides(c, skip);
    } else {
      var x := c.(state := ChunkParameters);
      assert [s[0]] + s[1..] == s && forall b :: b in s[1..] ==> b in s;
      AllParametersGlide(c, s[0], s[1..], skip);
      SizeReturnGlides(x, skip);
      GlidesOnSilently(c, s, x, [], [], "\r", c.(state := ChunkSizeAlmostDone), skip);
    }
  }

  /** The fields after a size line: at the data, or at the trailer. */
  function AfterSize(c: Core, n: nat): Core {
    if n == 0 then c.(contentLength := 0, flags := c.flags + {Trailing}, state := FieldStart)
    else c.(contentLength := n, state := ChunkData)
  }

  /** The bytes of a size line between the first digit and the line feed. */
  lemma {:induction false} SizeRestGlides(c: Core, first: byte, more: seq<byte>, parameters: seq<byte>,
                                          skip: nat -> bool)
    returns (n: nat)
    requires Chunked in c.flags && SizeByte(first) && forall b :: b in more ==> SizeByte(b)
    requires parameters != [] ==> parameters[0] == ';' || parameters[0] == ' '
    requires forall b :: b in parameters ==> b != '\r'
    ensures n == HexValue([first] + more)
    ensures Glides(Sized(c, SizeDigit(first)), more + (parameters + "\r"),
                   Sized(c, n).(state := ChunkSizeAlmostDone), [], [], skip)
  {
    hide React;
    n := DigitsGlide(c, first, more, skip);
    ParametersGlide(Sized(c, n), parameters, skip);
    GlidesOnSilently(Sized(c, SizeDigit(first)), more, Sized(c, n), [], [],
                     parameters + "\r", Sized(c, n).(state := ChunkSizeAlmostDone), skip);
  }

  /** A whole size line is silent and leaves the chunk's size, modulo 2^64. */
  lemma {:induction false} SizeLineRun(m: Machine, line: SizeLine, skip: nat -> bool)
    requires AtChunk(m) && line.Valid()
    ensures Reaches(m, line.Text(),
                    Moved(m, AfterSize(m.core, HexValue(line.digits) % 0x1_0000_0000_0000_0000), 0, |line.Text()|, []),
                    skip)
  {
    hide React;
    var first, more := TextParts(line);
    var n := SizeRestGlides(m.core, first, more, line.parameters, skip);
    SizeLineParts(m, first, more + (line.parameters + "\r"), n, skip);
  }

  lemma {:induction false} FittingSizeRun(m: Machine, line: SizeLine, skip: nat -> bool)
    requires AtChunk(m) && line.Valid() && HexValue(line.digits) < SIZE_MODULUS
    ensures Reaches(m, line.Text(), Moved(m, AfterSize(m.core, HexValue(line.digits)), 0, |line.Text()|, []), skip)
  {
    hide React, Reaches, HexValue;
    SizeLineRun(m, line, skip);
    FitsInWord(HexValue(line.digits));
  }

  lemma FitsInWord(n: nat)
    requires n < SIZE_MODULUS
    ensures n % SIZE_MODULUS == n
  {}

  lemma TextParts(line: SizeLine) returns (first: byte, more: seq<byte>)
    requires line.Valid()
    ensures SizeByte(first) && (forall b :: b in more ==> SizeByte(b)) && line.digits == [first] + more
    ensures line.Text() == [first] + (more + (line.parameters + "\r") + "\n")
    ensures |more + (line.parameters + "\r")| + 2 <= MAX_HEADER_SIZE
  {
    first, more := line.digits[0], line.digits[1..];
    assert first in line.digits && forall b :: b in more ==> b in line.digits;
  }

  /** A silent glide, then the line feed. */
  lemma {:induction false} GlideToSizeEnd(m: Machine, text: seq<byte>, c: Core, skip: nat -> bool)
    requires Glides(m.core, text, c, [], [], skip) && c.state.ChunkSizeAlmostDone? && Chunked in c.flags
    requires m.nread + |text| < MAX_HEADER_SIZE
    ensures Reaches(m, text + "\n", Moved(m, AfterSize(c, c.contentLength), 0, |text + "\n"|, []), skip)
  {
    hide React;
    SilentGlideRun(m, text, c, skip);
    SizeLineEnd(Moved(m, c, m.nread + |text|, |text|, []), skip);
    MovesOnQuietly(m, text, c, m.nread + |text|, [], "\n", AfterSize(c, c.contentLength), 0, skip);
  }

  lemma {:induction false} SizeLineParts(m: Machine, first: byte, text: seq<byte>, n: nat, skip: nat -> bool)
    requires AtChunk(m) && SizeByte(first) && |text| + 2 <= MAX_HEADER_SIZE
    requires Glides(Sized(m.core, SizeDigit(first)), text, Sized(m.core, n).(state := ChunkSizeAlmostDone),
                    [], [], skip)
    ensures Reaches(m, [first] + (text + "\n"),
                    Moved(m, AfterSize(m.core, n % SIZE_MODULUS), 0, |[first] + (text + "\n")|, []), skip)
  {
    hide React;
    var c1, c2 := Sized(m.core, SizeDigit(first)), Sized(m.core, n).(state := ChunkSizeAlmostDone);
    FirstDigit(m, first, skip);
    GlideToSizeEnd(Moved(m, c1, 1, 1, []), text, c2, skip);
    SameAfterSize(m.core, n);
    MovesOnQuietly(m, [first], c1, 1, [], text + "\n", AfterSize(m.core, n % SIZE_MODULUS), 0, skip);
  }

  lemma SameAfterSize(c: Core, n: nat)
    ensures var d := Sized(c, n).(state := ChunkSizeAlmostDone);
            d.contentLength == n % SIZE_MODULUS && AfterSize(d, d.contentLength) == AfterSize(c, n % SIZE_MODULUS)
  {}

  lemma SizeLineEnd(m: Machine, skip: nat -> bool)
    requires m.core.state.ChunkSizeAlmostDone? && Chunked in m.core.flags && m.nread < MAX_HEADER_SIZE
    ensures Reaches(m, "\n", Moved(m, AfterSize(m.core, m.core.contentLength), 0, 1, []), skip)
  {
    hide React, Step;
    ChunkFrameReaction(m.core, '\n', skip);
    RunByte(m, '\n', skip);
    QuietStep(m, '\n', AfterSize(m.core, m.core.contentLength), true, skip);
  }

  // One chunk.

  lemma DataReturn(m: Machine, skip: nat -> bool)
    requires m.core.state.ChunkDataAlmostDone? && Chunked in m.core.flags
    ensures Reaches(m, "\r", Moved(m, m.core.(state := ChunkDataDone), m.nread, 1, []), skip)
  {
    hide React, Step, Run;
    ChunkFrameReaction(m.core, '\r', skip);
    RunByte(m, '\r', skip);
    QuietStep(m, '\r', m.core.(state := ChunkDataDone), false, skip);
  }

  lemma DataFeed(m: Machine, skip: nat -> bool)
    requires m.core.state.ChunkDataDone? && Chunked in m.core.flags
    ensures Reaches(m, "\n", Moved(m, m.core.(state := ChunkSizeStart), m.nread, 1, []), skip)
  {
    hide React, Step;
    ChunkFrameReaction(m.core, '\n', skip);
    RunByte(m, '\n', skip);
    QuietStep(m, '\n', m.core.(state := ChunkSizeStart), false, skip);
  }

  lemma {:induction false} DataEndRun(m: Machine, skip: nat -> bool)
    requires m.core.state.ChunkDataAlmostDone? && Chunked in m.core.flags
    ensures Reaches(m, "\r\n", Moved(m, m.core.(state := ChunkSizeStart), m.nread, 2, []), skip)
  {
    hide React;
    var c := m.core.(state := ChunkDataDone);
    DataReturn(m, skip);
    DataFeed(Moved(m, c, m.nread, 1, []), skip);
    MovesOnQuietly(m, "\r", c, m.nread, [], "\n", m.core.(state := ChunkSizeStart), m.nread, skip);
    assert "\r" + "\n" == "\r\n";
  }

  /** on_body hears the data of a chunk. */
  lemma {:induction false} ChunkDataRun(m: Machine, data: seq<byte>, skip: nat -> bool)
    requires m.core.state.ChunkData? && Chunked in m.core.flags && data != []
    requires m.core.contentLength == |data| < SIGNED_LIMIT
    ensures Reaches(m, data, Moved(m, m.core.(state := ChunkDataAlmostDone, contentLength := 0), m.nread, |data|,
                                   Octets(BodyData, data)), skip)
  {
    hide React;
    BodyRun(m, data, skip);
    assert Octets(BodyData, data) + Events([]) == Octets(BodyData, data);
  }

  lemma {:induction false} DataAndEnd(m: Machine, data: seq<byte>, skip: nat -> bool)
    requires m.core.state.ChunkData? && Chunked in m.core.flags && data != []
    requires m.core.contentLength == |data| < SIGNED_LIMIT
    ensures Reaches(m, data + "\r\n", Moved(m, m.core.(state := ChunkSizeStart, contentLength := 0), m.nread,
                                            |data + "\r\n"|, Octets(BodyData, data)), skip)
  {
    hide React;
    var c := m.core.(state := ChunkDataAlmostDone, contentLength := 0);
    ChunkDataRun(m, data, skip);
    DataEndRun(Moved(m, c, m.nread, |data|, Octets(BodyData, data)), skip);
    MovesOnQuietly(m, data, c, m.nread, Octets(BodyData, data), "\r\n", c.(state := ChunkSizeStart), m.nread, skip);
  }

  /** A whole chunk. */
  lemma {:induction false} ChunkRun(m: Machine, chunk: Chunk, skip: nat -> bool)
    requires AtChunk(m) && chunk.Valid()
    ensures Reaches(m, chunk.Text(), Moved(m, m.core.(contentLength := 0), 0, |chunk.Text()|,
                                           Octets(BodyData, chunk.data)), skip)
  {
    hide React;
    var line, data := chunk.line.Text(), chunk.data;
    var c := AfterSize(m.core, |data|);
    FittingSizeRun(m, chunk.line, skip);
    DataAndEnd(Moved(m, c, 0, |line|, []), data, skip);
    MovesOn(m, line, c, 0, [], data + "\r\n", m.core.(contentLength := 0), 0, Octets(BodyData, data), skip);
    assert line + (data + "\r\n") == chunk.Text();
    assert [] + Octets(BodyData, data) == Octets(BodyData, data);
  }

  // A chunked body.

  function Texts(chunks: seq<Chunk>): seq<byte> {
    if chunks == [] then [] else chunks[0].Text() + Texts(chunks[1..])
  }

  function AllData(chunks: seq<Chunk>): seq<byte> {
    if chunks == [] then [] else chunks[0].data + AllData(chunks[1..])
  }

  /** Body bytes heard after body bytes. */
  lemma {:induction false} BodyMovesOn(m: Machine, a: seq<byte>, x: seq<byte>, b: seq<byte>, y: seq<byte>,
                                       length: nat, skip: nat -> bool)
    requires var c := m.core.(contentLength := 0);
             && Reaches(m, a, Moved(m, c, 0, |a|, Octets(BodyData, x)), skip)
             && Reaches(Moved(m, c, 0, |a|, Octets(BodyData, x)), b,
                        Moved(Moved(m, c, 0, |a|, Octets(BodyData, x)), c.(contentLength := length), 0, |b|,
                              Octets(BodyData, y)), skip)
    ensures Reaches(m, a + b, Moved(m, m.core.(contentLength := length), 0, |a + b|, Octets(BodyData, x + y)), skip)
  {
    hide React;
    assert Octets(BodyData, x) + Octets(BodyData, y) == Octets(BodyData, x + y);
    var c := m.core.(contentLength := 0);
    MovesOn(m, a, c, 0, Octets(BodyData, x), b, c.(contentLength := length), 0, Octets(BodyData, y), skip);
  }

  lemma NoChunks(m: Machine, skip: nat -> bool)
    requires m.nread == 0
    ensures Reaches(m, [], Moved(m, m.core.(contentLength := m.core.contentLength), 0, 0, Octets(BodyData, [])), skip)
  {
    hide React;
    assert m.whole + [] == m.whole && m.parts + [] == m.parts;
  }

  lemma {:induction false} ChunksRun(m: Machine, chunks: seq<Chunk>, skip: nat -> bool) returns (length: nat)
    requires AtChunk(m) && forall k :: k in chunks ==> k.Valid()
    ensures Reaches(m, Texts(chunks), Moved(m, m.core.(contentLength := length), 0, |Texts(chunks)|,
                                            Octets(BodyData, AllData(chunks))), skip)
    decreases |chunks|
  {
    hide React;
    if chunks == [] {
      length := m.core.contentLength;
      NoChunks(m, skip);
    } else {
      var k, rest := chunks[0], chunks[1..];
      assert k in chunks && forall x :: x in rest ==> x in chunks;
      ChunkRun(m, k, skip);
      length := ChunksRun(Moved(m, m.core.(contentLength := 0), 0, |k.Text()|, Octets(BodyData, k.data)), rest, skip);
      BodyMovesOn(m, k.Text(), k.data, Texts(rest), AllData(rest), length, skip);
    }
  }

  // The last chunk and the trailer.

  /** The fields once a chunked message is complete: the lines of its trailer count. */
  function Ended(c: Core, trailer: seq<Header>): Core {
    var t := AfterBlock(c.(contentLength := 0, flags := c.flags + {Trailing}), trailer);
    t.(state := NewMessage(t))
  }

  lemma TrailerFeedReaction(c: Core, skip: nat -> bool)
    requires (c.state.FieldStart? || c.state.HeadersAlmostDone?) && Trailing in c.flags
    ensures React(c, '\n', skip) == Go(c.(state := NewMessage(c)), [MessageComplete], false)
  {
    hide React;
    if c.state.FieldStart? { FieldReaction(c, '\n', skip); } else { HeadersDoneReaction(c, '\n', skip); }
  }

  lemma {:induction false} TrailerFeed(m: Machine, skip: nat -> bool)
    requires (m.core.state.FieldStart? || m.core.state.HeadersAlmostDone?) && Trailing in m.core.flags
    requires m.nread < MAX_HEADER_SIZE
    ensures Reaches(m, "\n", Moved(m, m.core.(state := NewMessage(m.core)), m.nread + 1, 1, [Event(MessageComplete)]),
                    skip)
  {
    hide React;
    var c := m.core.(state := NewMessage(m.core));
    TrailerFeedReaction(m.core, skip);
    assert Events([MessageComplete]) == [Event(MessageComplete)];
    OnlyNotesHeard(Whole, m.core, [MessageComplete], c.state, '\n');
    OnlyNotesHeard(Parts, m.core, [MessageComplete], c.state, '\n');
    RunByte(m, '\n', skip);
  }

  /** The blank line after a trailer. */
  lemma {:induction false} TrailerEndRun(m: Machine, e: seq<byte>, skip: nat -> bool)
    requires m.core.state.FieldStart? && Trailing in m.core.flags && IsLineEnd(e) && m.nread + |e| <= MAX_HEADER_SIZE
    ensures Reaches(m, e, Moved(m, m.core.(state := NewMessage(m.core)), m.nread + |e|, |e|,
                                [Event(MessageComplete)]), skip)
  {
    hide React, Reaches, Glides;
    if e == "\n" {
      TrailerFeed(m, skip);
    } else {
      var c := m.core.(state := HeadersAlmostDone);
      assert "\r" + "\n" == e;
      ReturnGlides(m.core, skip);
      TrailerFeed(Moved(m, c, m.nread + 1, 1, []), skip);
      SilenceThenRun(m, "\r", c, "\n", m.core.(state := NewMessage(m.core)), m.nread + 2, [Event(MessageComplete)],
                     skip);
    }
  }

  lemma {:induction false} EndAfter(m: Machine, text: seq<byte>, x: Core, items: seq<Item>, e: seq<byte>,
                                    skip: nat -> bool)
    requires Glides(m.core, text, x, items, items, skip) && x.state.FieldStart? && Trailing in x.flags && IsLineEnd(e)
    requires m.nread + |text| + |e| <= MAX_HEADER_SIZE
    ensures Reaches(m, text + e, Moved(m, x.(state := NewMessage(x)), m.nread + |text + e|, |text + e|,
                                       items + [Event(MessageComplete)]), skip)
  {
    hide React, Reaches, Glides;
    TrailerEndRun(Moved(m, x, m.nread + |text|, |text|, items), e, skip);
    GlideThenRun(m, text, x, items, e, x.(state := NewMessage(x)), m.nread + |text| + |e|, [Event(MessageComplete)],
                 skip);
  }

  lemma BlockEnds(c: Core, trailer: seq<Header>, x: Core)
    requires c.state.FieldStart? && BlockDone(c, trailer, x)
    ensures x.state.FieldStart? && (Trailing in c.flags ==> Trailing in x.flags)
    ensures var t := AfterBlock(c, trailer); SameButScratch(x.(state := NewMessage(x)), t.(state := NewMessage(t)))
  {}

  lemma {:induction false} TrailerRun(m: Machine, trailer: seq<Header>, e: seq<byte>,
                                      skip: nat -> bool) returns (d: Core)
    requires m.core.state.FieldStart? && Trailing in m.core.flags && (forall h :: h in trailer ==> h.Valid())
    requires IsLineEnd(e) && m.nread + |BlockText(trailer)| + |e| <= MAX_HEADER_SIZE
    ensures var t := AfterBlock(m.core, trailer); SameButScratch(d, t.(state := NewMessage(t)))
    ensures var text := BlockText(trailer) + e;
            Reaches(m, text, Moved(m, d, m.nread + |text|, |text|, BlockHeard(trailer) + [Event(MessageComplete)]),
                    skip)
  {
    hide React, Reaches, Glides, AfterBlock, NewMessage, BlockText, BlockHeard, Moved, BlockDone, SameButScratch;
    var x := BlockGlides(m.core, trailer, skip);
    d := x.(state := NewMessage(x));
    BlockEnds(m.core, trailer, x);
    EndAfter(m, BlockText(trailer), x, BlockHeard(trailer), e, skip);
  }

  /** The last chunk, of size zero, the trailer, and the blank line that ends it. */
  lemma {:induction false} LastChunkRun(m: Machine, last: SizeLine, trailer: seq<Header>, e: seq<byte>,
                                        skip: nat -> bool)
    returns (d: Core)
    requires AtChunk(m) && last.Valid() && HexValue(last.digits) == 0 && (forall h :: h in trailer ==> h.Valid())
    requires IsLineEnd(e) && |BlockText(trailer)| + |e| <= MAX_HEADER_SIZE
    ensures SameButScratch(d, Ended(m.core, trailer))
    ensures var end := BlockText(trailer) + e;
            Reaches(m, last.Text() + end, Moved(m, d, |end|, |last.Text() + end|,
                                                BlockHeard(trailer) + [Event(MessageComplete)]), skip)
  {
    hide React;
    FittingSizeRun(m, last, skip);
    var c := AfterSize(m.core, 0);
    d := TrailerRun(Moved(m, c, 0, |last.Text()|, []), trailer, e, skip);
    var heard := BlockHeard(trailer) + [Event(MessageComplete)];
    SilenceMovesOn(m, last.Text(), c, BlockText(trailer) + e, d, heard, skip);
  }

  lemma {:induction false} SilenceMovesOn(m: Machine, a: seq<byte>, c: Core, b: seq<byte>, d: Core, heard: seq<Item>,
                                          skip: nat -> bool)
    requires Reaches(m, a, Moved(m, c, 0, |a|, []), skip)
    requires Reaches(Moved(m, c, 0, |a|, []), b, Moved(Moved(m, c, 0, |a|, []), d, |b|, |b|, heard), skip)
    ensures Reaches(m, a + b, Moved(m, d, |b|, |a + b|, heard), skip)
  {
    hide React;
    assert [] + heard == heard;
    MovesOn(m, a, c, 0, [], b, d, |b|, heard, skip);
  }

  /** The round trip: on_body hears exactly the data of the chunks, in order; the header
      callbacks hear the trailer, and the message completes once, after the blank line
      that ends it. */
  lemma {:induction false} ChunkedRoundTrip(m: Machine, chunks: seq<Chunk>, last: SizeLine, trailer: seq<Header>,
                                            e: seq<byte>, skip: nat -> bool)
    returns (d: Core)
    requires AtChunk(m) && forall k :: k in chunks ==> k.Valid()
    requires last.Valid() && HexValue(last.digits) == 0 && (forall h :: h in trailer ==> h.Valid())
    requires IsLineEnd(e) && |BlockText(trailer)| + |e| <= MAX_HEADER_SIZE
    ensures SameButScratch(d, Ended(m.core, trailer))
    ensures var end := BlockText(trailer) + e;
            var text := Texts(chunks) + (last.Text() + end);
            Reaches(m, text, Moved(m, d, |end|, |text|, Octets(BodyData, AllData(chunks))
                                                        + (BlockHeard(trailer) + [Event(MessageComplete)])), skip)
  {
    hide React;
    var n := ChunksRun(m, chunks, skip);
    var c := m.core.(contentLength := n);
    d := LastChunkRun(Moved(m, c, 0, |Texts(chunks)|, Octets(BodyData, AllData(chunks))), last, trailer, e, skip);
    var end := BlockText(trailer) + e;
    MovesOn(m, Texts(chunks), c, 0, Octets(BodyData, AllData(chunks)), last.Text() + end, d, |end|,
            BlockHeard(trailer) + [Event(MessageComplete)], skip);
  }

  // Sizes from 2^63 on.

  /** A chunk of 2^63 bytes or more: the source casts its size to a signed type, and the
      first byte of its data leaves what is defined. */
  lemma {:induction false} HugeChunkIsUndefined(m: Machine, line: SizeLine, x: byte, skip: nat -> bool)
    requires AtChunk(m) && line.Valid()
    requires 0x8000_0000_0000_0000 <= HexValue(line.digits) <= 0xFFFF_FFFF_FFFF_FFFF
    ensures Run(m, line.Text() + [x], skip) == Undef
  {
    hide React;
    FittingSizeRun(m, line, skip);
    var y := Moved(m, AfterSize(m.core, HexValue(line.digits)), 0, |line.Text()|, []);
    BodyReaction(y.core, x, skip);
    RunByte(y, x, skip);
    RunAppend(m, line.Text(), [x], skip);
  }
}
