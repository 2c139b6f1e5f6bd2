/** Whole requests: request line, header block and body, over any cutting into calls. */
module HttpRequests {
  import opened HttpModel
  import opened HttpRun
  import opened HttpInvariant
  import opened HttpChunks
  import opened HttpGlide
  import opened HttpLines
  import opened HttpMessages
  import opened HttpRequestLine
  import opened HttpSplit

  /** A request whose header block announces n body bytes, of which some have come. */
  datatype Sent = Sent(line: RequestLine, lineEnd: seq<byte>, headers: seq<Header>, blank: seq<byte>) {
    predicate Valid() {
      line.Valid() && IsLineEnd(lineEnd) && IsLineEnd(blank) && forall h :: h in headers ==> h.Valid()
    }

    function Head(): seq<byte> { line.Text(lineEnd) + (BlockText(headers) + blank) }

    function Heard(ch: Channel, n: nat, body: seq<byte>): seq<Item> {
      BEGIN + line.Heard(ch) + MessageHeard(headers, n, body)
    }
  }

  lemma {:induction false} LineReached(m: Machine, line: RequestLine, e: seq<byte>,
                                       skip: nat -> bool) returns (y: Machine)
    requires AwaitsRequest(m.core) && line.Valid() && IsLineEnd(e)
    requires m.nread + |line.Text(e)| <= MAX_HEADER_SIZE
    ensures Reaches(m, line.Text(e), y, skip)
    ensures y.core == Requested(m.core, line) && y.nread == m.nread + |line.Text(e)| && y.at == m.at + |line.Text(e)|
    ensures y.whole == m.whole + (BEGIN + line.Heard(Whole)) && y.parts == m.parts + (BEGIN + line.Heard(Parts))
  {
    hide React;
    RequestLineRoundTrip(m, line, e, skip);
    y := Onward(m, Requested(m.core, line), |line.Text(e)|, BEGIN + line.Heard(Whole), BEGIN + line.Heard(Parts));
  }

  /** A line that both channels hear in their way, then bytes both hear alike. */
  lemma {:induction false} LineThenMessage(m: Machine, a: seq<byte>, y: Machine, w: seq<Item>, q: seq<Item>,
                                           b: seq<byte>, d: Core, k: nat, items: seq<Item>, skip: nat -> bool)
    returns (z: Machine)
    requires Reaches(m, a, y, skip) && y.whole == m.whole + w && y.parts == m.parts + q
    requires Reaches(y, b, Moved(y, d, k, |b|, items), skip)
    ensures Reaches(m, a + b, z, skip) && z.core == d && z.nread == k && z.at == y.at + |b|
    ensures z.whole == m.whole + (w + items) && z.parts == m.parts + (q + items)
  {
    hide React;
    z := Moved(y, d, k, |b|, items);
    ReachesOn(m, a, y, b, z, skip);
    Associates(m.whole, w, items);
    Associates(m.parts, q, items);
  }

  /** The header block and the body, in one call. */
  lemma {:induction false} RestReached(m: Machine, r: Sent, y: Machine, n: nat, body: seq<byte>, skip: nat -> bool)
    returns (z: Machine)
    requires r.Valid() && y.core.state.FieldStart? && Announces(y.core, r.headers, n, skip) && |body| <= n
    requires y.nread + |BlockText(r.headers)| + |r.blank| <= MAX_HEADER_SIZE
    requires Reaches(m, r.line.Text(r.lineEnd), y, skip)
    requires y.whole == m.whole + (BEGIN + r.line.Heard(Whole)) && y.parts == m.parts + (BEGIN + r.line.Heard(Parts))
    ensures Reaches(m, r.Head() + body, z, skip)
    ensures z.whole == m.whole + r.Heard(Whole, n, body) && z.parts == m.parts + r.Heard(Parts, n, body)
    ensures z.core.contentLength + |body| == n
    ensures z.core.state == if |body| == n then NewMessage(AfterBlock(y.core, r.headers)) else BodyIdentity
  {
    hide React;
    var text, rest := r.line.Text(r.lineEnd), BlockText(r.headers) + r.blank + body;
    assert text + rest == r.Head() + body;
    var d := IdentityBody(y, r.headers, r.blank, n, body, skip);
    z := LineThenMessage(m, text, y, BEGIN + r.line.Heard(Whole), BEGIN + r.line.Heard(Parts),
                         rest, d, 0, MessageHeard(r.headers, n, body), skip);
  }

  /** A request in one call: the fields and what the callbacks hear of it. */
  lemma {:induction false} RequestRun(m: Machine, r: Sent, n: nat, body: seq<byte>,
                                      skip: nat -> bool) returns (z: Machine)
    requires AwaitsRequest(m.core) && r.Valid() && Announces(Requested(m.core, r.line), r.headers, n, skip)
    requires m.nread + |r.Head()| <= MAX_HEADER_SIZE && |body| <= n
    ensures Reaches(m, r.Head() + body, z, skip)
    ensures forall ch :: z.Hearing(ch) == m.Hearing(ch) + r.Heard(ch, n, body)
    ensures z.core.contentLength + |body| == n
    ensures z.core.state == if |body| == n then NewMessage(AfterBlock(Requested(m.core, r.line), r.headers))
            else BodyIdentity
  {
    hide React;
    var y := LineReached(m, r.line, r.lineEnd, skip);
    z := RestReached(m, r, y, n, body, skip);
  }

  /** The whole of it over any cutting: every callback hears its part of the request, and
      the request completes with the last of the announced body bytes and not before. */
  lemma {:induction false} RequestOverCalls(m: Machine, r: Sent, n: nat, body: seq<byte>,
                                            pieces: seq<seq<byte>>, skip: nat -> bool)
    requires Good(m) && AwaitsRequest(m.core) && r.Valid() && Announces(Requested(m.core, r.line), r.headers, n, skip)
    requires m.nread + |r.Head()| <= MAX_HEADER_SIZE && |body| <= n && Concat(pieces) == r.Head() + body
    ensures Calls(m, pieces, skip).Running?
    ensures forall ch :: Calls(m, pieces, skip).m.Hearing(ch) == m.Hearing(ch) + r.Heard(ch, n, body)
    ensures Calls(m, pieces, skip).m.core.contentLength + |body| == n
  {
    hide React;
    var z := RequestRun(m, r, n, body, skip);
    SplitInvariance(m, pieces, skip);
  }

  /** A request that gives no length, as most do, never completes: bytes that follow it,
      such as the next request, are its body.  The source's comments and tests expect
      such a request to end with its headers. */
  lemma {:induction false} RequestWithoutLength(m: Machine, r: Sent, rest: seq<byte>,
                                                skip: nat -> bool) returns (z: Machine)
    requires AwaitsRequest(m.core) && r.Valid() && GivesNoLength(r.headers)
    requires StaysHttp(AfterBlock(Requested(m.core, r.line), r.headers))
    requires Chunked !in BlockFlags(r.headers) && SkipBody !in BlockFlags(r.headers) && !skip(m.core.answered)
    requires m.nread + |r.Head()| <= MAX_HEADER_SIZE && |rest| < 0xFFFF_FFFF_FFFF_FFFF
    ensures Reaches(m, r.Head() + rest, z, skip) && z.core.state == BodyIdentity
    ensures forall ch :: z.Hearing(ch) == m.Hearing(ch) + (BEGIN + r.line.Heard(ch) + (BlockHeard(r.headers)
                                          + [Event(HeadersComplete)] + Octets(BodyData, rest)))
  {
    hide React, BlockText, BlockHeard, BlockFlags;
    NoLengthGiven(r.headers, ABSENT_LENGTH);
    z := RequestRun(m, r, ABSENT_LENGTH, rest, skip);
    var heard := BlockHeard(r.headers) + [Event(HeadersComplete)] + Octets(BodyData, rest);
    assert heard + [] == heard;
  }

  // Chunked requests.

  /** The block announces a chunked body, whatever lengths it gives. */
  predicate AnnouncesChunks(c: Core, hs: seq<Header>, skip: nat -> bool) {
    var a := AfterBlock(c, hs);
    StaysHttp(a) && Chunked in a.flags && SkipBody !in a.flags && !skip(c.answered)
  }

  lemma {:induction false} ChunkedHeadersRun(y: Machine, hs: seq<Header>, blank: seq<byte>, skip: nat -> bool)
    returns (x: Core)
    requires (forall h :: h in hs ==> h.Valid()) && IsLineEnd(blank)
    requires y.core.state.FieldStart? && AnnouncesChunks(y.core, hs, skip)
    requires y.nread + |BlockText(hs)| + |blank| <= MAX_HEADER_SIZE
    ensures x.state.ChunkSizeStart? && Chunked in x.flags && x.flags == y.core.flags + BlockFlags(hs)
    ensures SameMessage(x, y.core) && x.answered == y.core.answered + 1
    ensures Reaches(y, BlockText(hs) + blank,
                    Moved(y, x, 0, |BlockText(hs) + blank|, BlockHeard(hs) + [Event(HeadersComplete)]), skip)
  {
    hide React, Reaches, BlockText, BlockHeard;
    x := HeadersRun(y, hs, blank, skip);
    assert Events([HeadersComplete]) == [Event(HeadersComplete)];
  }

  /** What is heard of a chunked message after its request line. */
  function ChunkedHeard(hs: seq<Header>, chunks: seq<Chunk>, trailer: seq<Header>): seq<Item> {
    BlockHeard(hs) + [Event(HeadersComplete)]
    + (Octets(BodyData, AllData(chunks)) + (BlockHeard(trailer) + [Event(MessageComplete)]))
  }

  function ChunkedText(chunks: seq<Chunk>, last: SizeLine, trailer: seq<Header>, e: seq<byte>): seq<byte> {
    Texts(chunks) + (last.Text() + (BlockText(trailer) + e))
  }

  /** A chunked message from its header block to the end of its trailer: the data of the
      chunks, then the trailer's lines, and one completion.  The connection is kept alive
      or closed by the lines of the block and of the trailer together. */
  lemma {:induction false} ChunkedMessageRun(y: Machine, hs: seq<Header>, blank: seq<byte>, chunks: seq<Chunk>,
                                             last: SizeLine, trailer: seq<Header>, e: seq<byte>, skip: nat -> bool)
    returns (d: Core)
    requires (forall h :: h in hs ==> h.Valid()) && IsLineEnd(blank)
    requires y.core.state.FieldStart? && AnnouncesChunks(y.core, hs, skip)
    requires y.nread + |BlockText(hs)| + |blank| <= MAX_HEADER_SIZE
    requires (forall k :: k in chunks ==> k.Valid()) && last.Valid() && HexValue(last.digits) == 0
    requires (forall h :: h in trailer ==> h.Valid()) && IsLineEnd(e) && |BlockText(trailer)| + |e| <= MAX_HEADER_SIZE
    ensures d.flags == y.core.flags + BlockFlags(hs) + {Trailing} + BlockFlags(trailer)
    ensures SameMessage(d, y.core) && d.answered == y.core.answered + 1 && d.state == NewMessage(d)
    ensures var text := BlockText(hs) + blank + ChunkedText(chunks, last, trailer, e);
            Reaches(y, text, Moved(y, d, |BlockText(trailer) + e|, |text|, ChunkedHeard(hs, chunks, trailer)), skip)
  {
    hide React, Reaches, BlockText, BlockHeard, Texts, AllData, BlockFlags;
    var x := ChunkedHeadersRun(y, hs, blank, skip);
    var text, items := BlockText(hs) + blank, BlockHeard(hs) + [Event(HeadersComplete)];
    d := ChunkedRoundTrip(Moved(y, x, 0, |text|, items), chunks, last, trailer, e, skip);
    EndedFlags(x, trailer, d);
    MovesOn(y, text, x, 0, items, ChunkedText(chunks, last, trailer, e), d, |BlockText(trailer) + e|,
            Octets(BodyData, AllData(chunks)) + (BlockHeard(trailer) + [Event(MessageComplete)]), skip);
  }

  lemma EndedFlags(x: Core, trailer: seq<Header>, d: Core)
    requires SameButScratch(d, Ended(x, trailer))
    ensures d.flags == x.flags + {Trailing} + BlockFlags(trailer) && d.state == NewMessage(d)
    ensures SameMessage(d, x) && d.answered == x.answered
  {}

  /** A whole chunked request over any cutting into calls. */
  lemma {:induction false} ChunkedRequestOverCalls(m: Machine, r: Sent, chunks: seq<Chunk>, last: SizeLine,
                                                   trailer: seq<Header>, e: seq<byte>, pieces: seq<seq<byte>>,
                                                   skip: nat -> bool)
    requires Good(m) && AwaitsRequest(m.core) && r.Valid()
    requires AnnouncesChunks(Requested(m.core, r.line), r.headers, skip)
    requires m.nread + |r.Head()| <= MAX_HEADER_SIZE
    requires (forall k :: k in chunks ==> k.Valid()) && last.Valid() && HexValue(last.digits) == 0
    requires (forall h :: h in trailer ==> h.Valid()) && IsLineEnd(e) && |BlockText(trailer)| + |e| <= MAX_HEADER_SIZE
    requires Concat(pieces) == r.Head() + ChunkedText(chunks, last, trailer, e)
    ensures Calls(m, pieces, skip).Running?
    ensures forall ch :: Calls(m, pieces, skip).m.Hearing(ch)
                         == m.Hearing(ch) + (BEGIN + r.line.Heard(ch) + ChunkedHeard(r.headers, chunks, trailer))
  {
    hide React, Reaches, ChunkedText, ChunkedHeard, BlockText;
    var z := ChunkedRequestRun(m, r, chunks, last, trailer, e, skip);
    ReachesIsRun(m, Concat(pieces), z, skip);
    SplitInvariance(m, pieces, skip);
  }

  lemma ReachesIsRun(m: Machine, data: seq<byte>, z: Machine, skip: nat -> bool)
    requires Reaches(m, data, z, skip)
    ensures Run(m, data, skip) == Running(z)
  {}

  lemma {:induction false} ChunkedRequestRun(m: Machine, r: Sent, chunks: seq<Chunk>, last: SizeLine,
                                             trailer: seq<Header>, e: seq<byte>, skip: nat -> bool) returns (z: Machine)
    requires AwaitsRequest(m.core) && r.Valid() && AnnouncesChunks(Requested(m.core, r.line), r.headers, skip)
    requires m.nread + |r.Head()| <= MAX_HEADER_SIZE
    requires (forall k :: k in chunks ==> k.Valid()) && last.Valid() && HexValue(last.digits) == 0
    requires (forall h :: h in trailer ==> h.Valid()) && IsLineEnd(e) && |BlockText(trailer)| + |e| <= MAX_HEADER_SIZE
    ensures Reaches(m, r.Head() + ChunkedText(chunks, last, trailer, e), z, skip)
    ensures forall ch ::
              z.Hearing(ch) == m.Hearing(ch) + (BEGIN + r.line.Heard(ch) + ChunkedHeard(r.headers, chunks, trailer))
  {
    hide React, Reaches, ChunkedText, ChunkedHeard, BlockText, AnnouncesChunks, Requested, Octets;
    var y := LineReached(m, r.line, r.lineEnd, skip);
    RequestedStarts(m.core, r.line);
    var d := ChunkedMessageRun(y, r.headers, r.blank, chunks, last, trailer, e, skip);
    var text, rest := r.line.Text(r.lineEnd), BlockText(r.headers) + r.blank + ChunkedText(chunks, last, trailer, e);
    FourJoined(text, BlockText(r.headers), r.blank, ChunkedText(chunks, last, trailer, e));
    z := LineThenMessage(m, text, y, BEGIN + r.line.Heard(Whole), BEGIN + r.line.Heard(Parts),
                         rest, d, |BlockText(trailer) + e|, ChunkedHeard(r.headers, chunks, trailer), skip);
    Associates(BEGIN, r.line.Heard(Whole), ChunkedHeard(r.headers, chunks, trailer));
    Associates(BEGIN, r.line.Heard(Parts), ChunkedHeard(r.headers, chunks, trailer));
  }

  lemma FourJoined(a: seq<byte>, b: seq<byte>, c: seq<byte>, d: seq<byte>)
    ensures a + (b + c + d) == a + (b + c) + d
  {}

  lemma RequestedStarts(c: Core, line: RequestLine)
    ensures Requested(c, line).state.FieldStart?
  {
    hide MethodName;
  }
}
