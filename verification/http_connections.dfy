/** Whole connections: messages one after another, each with its body, up to the one that
    closes the connection or leaves HTTP; what is heard of them and where the parser is left
    is decided by their text. */
module HttpConnections {
  import opened HttpModel
  import opened HttpRun
  import opened HttpInvariant
  import opened HttpChunks
  import opened HttpGlide
  import opened HttpLines
  import opened HttpMessages
  import opened HttpOutcome
  import opened HttpRequestLine
  import opened HttpStatusLine
  import opened HttpRequests
  import opened HttpSplit
  import opened HttpProtocol

  /** How the body is framed: left out because on_headers_complete said so, of a given length,
      which may be zero, or chunked. */
  datatype Body =
    | LeftOut
    | Plain(bytes: seq<byte>)
    | InChunks(chunks: seq<Chunk>, last: SizeLine, trailer: seq<Header>, end: seq<byte>)

  /** What follows a start line. */
  datatype Payload = Payload(headers: seq<Header>, blank: seq<byte>, body: Body) {
    function Head(): seq<byte> { BlockText(headers) + blank }

    function Text(): seq<byte> {
      match body
      case LeftOut => Head()
      case Plain(bytes) => Head() + bytes
      case InChunks(chunks, last, trailer, end) => Head() + ChunkedText(chunks, last, trailer, end)
    }

    /** The lines that say whether the connection is kept. */
    function Lines(): seq<Header> { if body.InChunks? then headers + body.trailer else headers }

    function Heard(): seq<Item> {
      match body
      case LeftOut => BlockHeard(headers) + PARTING
      case Plain(bytes) =>
        if bytes == [] then BlockHeard(headers) + PARTING else MessageHeard(headers, |bytes|, bytes)
      case InChunks(chunks, _, trailer, _) => ChunkedHeard(headers, chunks, trailer)
    }

    /** The header byte counter at the end: that of the trailer. */
    function Leftover(): nat { if body.InChunks? then |BlockText(body.trailer) + body.end| else 0 }

    /** A payload of HTTP with the framing that its header lines announce; `skipped` is what
        on_headers_complete answers. */
    predicate Valid(skipped: bool) {
      && (forall h :: h in headers ==> h.Valid()) && IsLineEnd(blank) && !AsksForUpgrade(headers)
      && match body
         case LeftOut => skipped
         case Plain(bytes) => !skipped && !SaysChunked(headers) && BlockLength(headers, ABSENT_LENGTH) == |bytes|
         case InChunks(chunks, last, trailer, end) =>
           && !skipped && SaysChunked(headers) && (forall k :: k in chunks ==> k.Valid())
           && last.Valid() && HexValue(last.digits) == 0 && (forall h :: h in trailer ==> h.Valid())
           && IsLineEnd(end) && |BlockText(trailer)| + |end| <= MAX_HEADER_SIZE
    }
  }

  /** After a start line. */
  predicate Started(c: Core) {
    c.state.FieldStart? && c.flags == {} && c.contentLength == ABSENT_LENGTH && !c.upgrade
  }

  /** The fields of the start line are kept, and the parser goes where the text says. */
  predicate Ends(c: Core, lines: seq<Header>, d: Core) {
    SameMessage(d, c) && d.answered == c.answered + 1 && d.state == Onwards(c.kind, c.major, c.minor, lines)
  }

  lemma BlockDecides(c: Core, hs: seq<Header>, flags: set<Flag>)
    requires c.flags == {} && flags <= {Trailing, SkipBody}
    ensures NewMessage(c.(flags := BlockFlags(hs) + flags)) == Onwards(c.kind, c.major, c.minor, hs)
  {
    hide BlockFlags, AsksToClose, AsksToStay, AsksForUpgrade, SaysChunked;
    BlockFlagsAre(hs);
    OnwardsIsNewMessage(c.(flags := BlockFlags(hs) + flags), hs);
  }

  /** A message that ends with its headers. */
  lemma {:induction false} BodylessRun(y: Machine, p: Payload, skip: nat -> bool) returns (d: Core)
    requires Started(y.core) && y.core.verb != CONNECT && p.Valid(skip(y.core.answered))
    requires p.body.LeftOut? || p.body == Plain([])
    requires y.nread + |p.Head()| <= MAX_HEADER_SIZE
    ensures Ends(y.core, p.headers, d)
    ensures Reaches(y, p.Head(), Moved(y, d, 0, |p.Head()|, BlockHeard(p.headers) + PARTING), skip)
  {
    hide React, Reaches, BlockText, BlockHeard, BlockFlags, AsksToClose, AsksToStay, AsksForUpgrade, SaysChunked;
    var a := AfterBlock(y.core, p.headers);
    BlockFlagsAre(p.headers);
    BlockDecides(y.core, p.headers, {});
    d := HeadersRun(y, p.headers, p.blank, skip);
    assert Events(HeadedNotes(a, skip)) == PARTING;
    assert a.flags == BlockFlags(p.headers) + {};
  }

  lemma {:induction false} LengthInWord(hs: seq<Header>, before: nat)
    requires before < SIZE_MODULUS
    ensures BlockLength(hs, before) < SIZE_MODULUS
    decreases |hs|
  {
    if hs != [] { LengthInWord(hs[1..], LineLength(hs[0].Kind(), hs[0].value, before)); }
  }

  lemma {:induction false} PlainRun(y: Machine, p: Payload, skip: nat -> bool) returns (d: Core)
    requires Started(y.core) && y.core.verb != CONNECT && p.Valid(skip(y.core.answered))
    requires p.body.Plain? && p.body.bytes != []
    requires y.nread + |p.Head()| <= MAX_HEADER_SIZE
    ensures Ends(y.core, p.headers, d)
    ensures Reaches(y, p.Text(), Moved(y, d, 0, |p.Text()|, p.Heard()), skip)
  {
    hide React, Reaches, BlockText, BlockHeard, BlockFlags, AsksToClose, AsksToStay, AsksForUpgrade, SaysChunked;
    var a := AfterBlock(y.core, p.headers);
    BlockFlagsAre(p.headers);
    BlockDecides(y.core, p.headers, {});
    assert a.flags == BlockFlags(p.headers) + {};
    LengthInWord(p.headers, ABSENT_LENGTH);
    d := IdentityBody(y, p.headers, p.blank, |p.body.bytes|, p.body.bytes, skip);
  }

  lemma {:induction false} InChunksRun(y: Machine, p: Payload, skip: nat -> bool) returns (d: Core)
    requires Started(y.core) && y.core.verb != CONNECT && p.Valid(skip(y.core.answered)) && p.body.InChunks?
    requires y.nread + |p.Head()| <= MAX_HEADER_SIZE
    ensures Ends(y.core, p.Lines(), d)
    ensures Reaches(y, p.Text(), Moved(y, d, p.Leftover(), |p.Text()|, p.Heard()), skip)
  {
    hide React, Reaches, BlockText, BlockHeard, BlockFlags, AsksToClose, AsksToStay, AsksForUpgrade, SaysChunked;
    BlockFlagsAre(p.headers);
    d := ChunkedMessageRun(y, p.headers, p.blank, p.body.chunks, p.body.last, p.body.trailer, p.body.end, skip);
    TwoBlocks(p.headers, p.body.trailer);
    OnwardsIsNewMessage(d, p.Lines());
  }

  /** A payload of any framing: what is heard of it, and where it leaves the parser. */
  lemma {:induction false} PayloadRun(y: Machine, p: Payload, skip: nat -> bool) returns (d: Core)
    requires Started(y.core) && y.core.verb != CONNECT && p.Valid(skip(y.core.answered))
    requires y.nread + |p.Head()| <= MAX_HEADER_SIZE
    ensures Ends(y.core, p.Lines(), d)
    ensures Reaches(y, p.Text(), Moved(y, d, p.Leftover(), |p.Text()|, p.Heard()), skip)
  {
    hide React, Reaches;
    match p.body
    case LeftOut => d := BodylessRun(y, p, skip);
    case InChunks(_, _, _, _) => d := InChunksRun(y, p, skip);
    case Plain(bytes) =>
      if bytes == [] {
        assert p.Text() == p.Head();
        d := BodylessRun(y, p, skip);
      } else {
        d := PlainRun(y, p, skip);
      }
  }

  // Requests.

  datatype Message = Message(line: RequestLine, lineEnd: seq<byte>, payload: Payload) {
    predicate Valid(skipped: bool) {
      line.Valid() && IsLineEnd(lineEnd) && line.verb != CONNECT && payload.Valid(skipped)
    }

    function Head(): seq<byte> { line.Text(lineEnd) + payload.Head() }

    function Text(): seq<byte> { line.Text(lineEnd) + payload.Text() }

    function Heard(ch: Channel): seq<Item> { BEGIN + line.Heard(ch) + payload.Heard() }

    function Next(): State { Onwards(Request, line.version.Major(), line.version.Minor(), payload.Lines()) }
  }

  /** A complete request.  With a version of 1.1 or more the parser is dead after it if and
      only if some Connection line says close; with 1.0 or 0.9 it waits for the next request
      if and only if some such line says keep-alive. */
  lemma {:induction false} MessageRun(m: Machine, msg: Message, skip: nat -> bool) returns (z: Machine)
    requires AwaitsRequest(m.core) && !m.core.upgrade && msg.Valid(skip(m.core.answered))
    requires m.nread + |msg.Head()| <= MAX_HEADER_SIZE
    ensures Reaches(m, msg.Text(), z, skip)
    ensures forall ch :: z.Hearing(ch) == m.Hearing(ch) + msg.Heard(ch)
    ensures z.core.state == msg.Next() && z.core.kind.Request? && !z.core.upgrade
    ensures z.core.answered == m.core.answered + 1 && z.nread == msg.payload.Leftover()
  {
    hide React, Reaches, Requested, Onwards;
    var line, p := msg.line, msg.payload;
    var y := LineReached(m, line, msg.lineEnd, skip);
    RequestedHolds(m.core, line);
    var d := PayloadRun(y, p, skip);
    z := LineThenMessage(m, line.Text(msg.lineEnd), y, BEGIN + line.Heard(Whole), BEGIN + line.Heard(Parts),
                         p.Text(), d, p.Leftover(), p.Heard(), skip);
  }

  // Requests one after another.

  function Texts(msgs: seq<Message>): seq<byte> { if msgs == [] then [] else msgs[0].Text() + Texts(msgs[1..]) }

  function AllHeard(msgs: seq<Message>, ch: Channel): seq<Item> {
    if msgs == [] then [] else msgs[0].Heard(ch) + AllHeard(msgs[1..], ch)
  }

  /** Every message is valid, its head is within the header limit, and every one but the last
      keeps the connection; `answered` of them came before. */
  predicate Follow(msgs: seq<Message>, nread: nat, answered: nat, skip: nat -> bool) {
    msgs == []
    || (&& msgs[0].Valid(skip(answered)) && nread + |msgs[0].Head()| <= MAX_HEADER_SIZE
        && (|msgs| > 1 ==> msgs[0].Next() == StartReq)
        && Follow(msgs[1..], msgs[0].payload.Leftover(), answered + 1, skip))
  }

  lemma HeardOn(m: Machine, x: Machine, z: Machine, msg: Message, rest: seq<Message>)
    requires forall ch :: x.Hearing(ch) == m.Hearing(ch) + msg.Heard(ch)
    requires forall ch :: z.Hearing(ch) == x.Hearing(ch) + AllHeard(rest, ch)
    ensures forall ch :: z.Hearing(ch) == m.Hearing(ch) + AllHeard([msg] + rest, ch)
  {
    assert ([msg] + rest)[1..] == rest;
    forall ch
      ensures z.Hearing(ch) == m.Hearing(ch) + AllHeard([msg] + rest, ch)
    {
      Associates(m.Hearing(ch), msg.Heard(ch), AllHeard(rest, ch));
    }
  }

  /** A connection from its first message. */
  lemma FirstFollows(msgs: seq<Message>, nread: nat, answered: nat, skip: nat -> bool)
    requires msgs != [] && Follow(msgs, nread, answered, skip)
    ensures msgs[0].Valid(skip(answered)) && nread + |msgs[0].Head()| <= MAX_HEADER_SIZE
    ensures |msgs| > 1 ==> msgs[0].Next() == StartReq
    ensures Follow(msgs[1..], msgs[0].payload.Leftover(), answered + 1, skip)
    ensures Texts(msgs) == msgs[0].Text() + Texts(msgs[1..]) && [msgs[0]] + msgs[1..] == msgs
    ensures |msgs| == 1 ==> Texts(msgs) == msgs[0].Text() && forall ch :: AllHeard(msgs, ch) == msgs[0].Heard(ch)
  {}

  /** A whole connection in one call: every message is heard, in order, and the last one
      decides where the parser is left. */
  lemma {:induction false} ConnectionRun(m: Machine, msgs: seq<Message>, skip: nat -> bool) returns (z: Machine)
    requires AwaitsRequest(m.core) && !m.core.upgrade && Follow(msgs, m.nread, m.core.answered, skip)
    ensures Reaches(m, Texts(msgs), z, skip)
    ensures forall ch :: z.Hearing(ch) == m.Hearing(ch) + AllHeard(msgs, ch)
    ensures msgs != [] ==> z.core.state == msgs[|msgs| - 1].Next() && z.core.kind.Request?
    ensures z.core.answered == m.core.answered + |msgs| && !z.core.upgrade
    ensures msgs != [] ==> z.nread == msgs[|msgs| - 1].payload.Leftover()
    decreases |msgs|
  {
    hide React, Reaches, Onwards, Follow, Texts, AllHeard;
    if msgs == [] {
      z := m;
      NothingReaches(m, skip);
    } else {
      FirstFollows(msgs, m.nread, m.core.answered, skip);
      var x := MessageRun(m, msgs[0], skip);
      if |msgs| == 1 {
        z := x;
      } else {
        z := ConnectionRun(x, msgs[1..], skip);
        ReachesOn(m, msgs[0].Text(), x, Texts(msgs[1..]), z, skip);
        HeardOn(m, x, z, msgs[0], msgs[1..]);
      }
    }
  }

  lemma NothingReaches(m: Machine, skip: nat -> bool)
    ensures Reaches(m, Texts([]), m, skip)
    ensures forall ch :: m.Hearing(ch) == m.Hearing(ch) + AllHeard([], ch)
  {}

  /** The same over any cutting of the stream into calls. */
  lemma {:induction false} ConnectionOverCalls(m: Machine, msgs: seq<Message>, pieces: seq<seq<byte>>,
                                               skip: nat -> bool)
    requires Good(m) && AwaitsRequest(m.core) && !m.core.upgrade && Follow(msgs, m.nread, m.core.answered, skip)
    requires msgs != [] && Concat(pieces) == Texts(msgs)
    ensures Calls(m, pieces, skip).Running?
    ensures forall ch :: Calls(m, pieces, skip).m.Hearing(ch) == m.Hearing(ch) + AllHeard(msgs, ch)
    ensures Calls(m, pieces, skip).m.core.state == msgs[|msgs| - 1].Next()
  {
    hide React, Reaches, Onwards, Texts, AllHeard, Follow;
    var z := ConnectionRun(m, msgs, skip);
    ReachesIsRun(m, Concat(pieces), z, skip);
    SplitInvariance(m, pieces, skip);
  }

  /** After a message that does not keep the connection nothing more is taken or heard. */
  lemma {:induction false} ConnectionCloses(m: Machine, msgs: seq<Message>, rest: seq<byte>, skip: nat -> bool)
    requires AwaitsRequest(m.core) && !m.core.upgrade && Follow(msgs, m.nread, m.core.answered, skip)
    requires msgs != [] && rest != []
    requires var msg := msgs[|msgs| - 1];
             !Stays(msg.line.version.Major(), msg.line.version.Minor(), msg.payload.Lines())
    ensures var r := Run(m, Texts(msgs) + rest, skip);
            r.Failed? && (forall ch :: r.m.Hearing(ch) == m.Hearing(ch) + AllHeard(msgs, ch))
  {
    hide React, Texts, AllHeard, Follow, Stays;
    var z := ConnectionRun(m, msgs, skip);
    DeadStays(z, rest, skip);
    RunAppend(m, Texts(msgs), rest, skip);
  }

  // The last one may leave HTTP.

  /** A request that leaves HTTP: a CONNECT, or one with an Upgrade line that has a value. */
  predicate LeavesBy(r: Sent) { r.line.verb == CONNECT || AsksForUpgrade(r.headers) }

  function PartingHeard(r: Sent, ch: Channel): seq<Item> {
    BEGIN + r.line.Heard(ch) + (BlockHeard(r.headers) + PARTING)
  }

  /** The run stops at byte k of the stream, which is not HTTP any more. */
  predicate Parted(m: Machine, data: seq<byte>, k: nat, skip: nat -> bool) {
    && EndsAt(m, data, k, skip) && !AtLimit(Run(m, data[..k], skip).m)
    && Run(m, data, skip).Left? && Run(m, data, skip).m.core.upgrade
    && Run(m, data, skip).m.at == m.at + k
  }

  /** Such a request ends the run at the last byte of its head, whatever follows: it is heard
      with its headers, then its headers and it are complete, and the parser says upgrade. */
  lemma {:induction false} RequestParts(m: Machine, r: Sent, rest: seq<byte>, skip: nat -> bool)
    requires AwaitsRequest(m.core) && r.Valid() && (m.core.upgrade || LeavesBy(r))
    requires m.nread + |r.Head()| <= MAX_HEADER_SIZE
    ensures Parted(m, r.Head() + rest, |r.Head()| - 1, skip)
    ensures forall ch :: Run(m, r.Head() + rest, skip).m.Hearing(ch) == m.Hearing(ch) + PartingHeard(r, ch)
  {
    hide React, Run, Step, EndsAt, AtLimit, AsksForUpgrade, Requested, BlockText, BlockHeard, Octets;
    var y := LineReached(m, r.line, r.lineEnd, skip);
    RequestedHolds(m.core, r.line);
    var text, block := r.line.Text(r.lineEnd), BlockText(r.headers) + r.blank;
    LeavesHttp(y, r.headers, r.blank, rest, skip);
    EndsLater(m, text, y, block + rest, |block| - 1, skip);
    assert text + (block + rest) == r.Head() + rest;
    Associates(m.whole, BEGIN + r.line.Heard(Whole), BlockHeard(r.headers) + PARTING);
    Associates(m.parts, BEGIN + r.line.Heard(Parts), BlockHeard(r.headers) + PARTING);
  }

  /** Exactly these requests leave HTTP. */
  lemma {:induction false} PartsExactly(m: Machine, r: Sent, skip: nat -> bool)
    requires AwaitsRequest(m.core) && !m.core.upgrade && r.Valid() && m.nread + |r.Head()| <= MAX_HEADER_SIZE
    ensures Run(m, r.Head(), skip).Left? <==> LeavesBy(r)
    ensures Run(m, r.Head(), skip).Running? <==> !LeavesBy(r)
  {
    hide React, Run, Step, EndsAt, AtLimit, AsksForUpgrade, Requested, BlockText, BlockHeard, Octets, BlockFlags;
    if LeavesBy(r) {
      RequestParts(m, r, [], skip);
      assert r.Head() + [] == r.Head();
    } else {
      var y := LineReached(m, r.line, r.lineEnd, skip);
      RequestedHolds(m.core, r.line);
      BlockFlagsAre(r.headers);
      var d := HeadersRun(y, r.headers, r.blank, skip);
      var block := BlockText(r.headers) + r.blank;
      var items := BlockHeard(r.headers) + Events(HeadedNotes(AfterBlock(y.core, r.headers), skip));
      ReachesOn(m, r.line.Text(r.lineEnd), y, block, Moved(y, d, 0, |block|, items), skip);
    }
  }

  /** The same over any cutting into calls: the call that holds the last byte of the head
      returns there. */
  lemma {:induction false} RequestPartsOverCalls(m: Machine, r: Sent, rest: seq<byte>, pieces: seq<seq<byte>>,
                                                 skip: nat -> bool) returns (j: nat)
    requires Good(m) && AwaitsRequest(m.core) && r.Valid() && (m.core.upgrade || LeavesBy(r))
    requires m.nread + |r.Head()| <= MAX_HEADER_SIZE && Concat(pieces) == r.Head() + rest
    ensures Calls(m, pieces, skip).Left? && Calls(m, pieces, skip).m.core.upgrade
    ensures forall ch :: Calls(m, pieces, skip).m.Hearing(ch) == m.Hearing(ch) + PartingHeard(r, ch)
    ensures j < |pieces| && |Concat(pieces[..j])| < |r.Head()| <= |Concat(pieces[..j])| + |pieces[j]|
  {
    hide React, Run, Step, AtLimit, PartingHeard, LeavesBy;
    RequestParts(m, r, rest, skip);
    j := SplitEnds(m, pieces, |r.Head()| - 1, skip);
  }

  /** A connection whose messages keep it, and then a request that leaves HTTP. */
  lemma {:induction false} ConnectionParts(m: Machine, msgs: seq<Message>, r: Sent, rest: seq<byte>, skip: nat -> bool)
    requires AwaitsRequest(m.core) && !m.core.upgrade && Follow(msgs, m.nread, m.core.answered, skip)
    requires msgs != [] && msgs[|msgs| - 1].Next() == StartReq && r.Valid() && LeavesBy(r)
    requires msgs[|msgs| - 1].payload.Leftover() + |r.Head()| <= MAX_HEADER_SIZE
    ensures Parted(m, Texts(msgs) + (r.Head() + rest), |Texts(msgs) + r.Head()| - 1, skip)
    ensures forall ch :: Run(m, Texts(msgs) + (r.Head() + rest), skip).m.Hearing(ch)
                         == m.Hearing(ch) + (AllHeard(msgs, ch) + PartingHeard(r, ch))
  {
    hide React, Run, Step, EndsAt, AtLimit, Texts, AllHeard, Follow, LeavesBy, PartingHeard, Onwards;
    var z := ConnectionRun(m, msgs, skip);
    RequestParts(z, r, rest, skip);
    EndsLater(m, Texts(msgs), z, r.Head() + rest, |r.Head()| - 1, skip);
    ReachedAt(m, Texts(msgs), z, skip);
    forall ch { Associates(m.Hearing(ch), AllHeard(msgs, ch), PartingHeard(r, ch)); }
  }

  // Responses.

  /** A complete response, to a response parser or to one of either kind: after it the parser
      waits for the next response, or is dead, as the version and the lines say. */
  lemma {:induction false} ResponseRun(m: Machine, line: StatusLine, e: seq<byte>, p: Payload, skip: nat -> bool)
    returns (d: Core)
    requires AwaitsResponse(m.core) && !m.core.upgrade && m.core.verb != CONNECT && line.Valid() && IsLineEnd(e)
    requires p.Valid(skip(m.core.answered)) && m.nread + |line.Text(e)| + |p.Head()| <= MAX_HEADER_SIZE
    ensures d.status == Number(line.code) && d.kind.Response?
    ensures d.state == Onwards(Response, Number(line.major), Number(line.minor), p.Lines())
    ensures var text := line.Text(e) + p.Text();
            Reaches(m, text, Moved(m, d, p.Leftover(), |text|, BEGIN + p.Heard()), skip)
  {
    hide React, Reaches, Onwards, Number, IsNumber;
    var x := StatusLineRoundTrip(m, line, e, skip);
    var k := m.nread + |line.Text(e)|;
    d := PayloadRun(Moved(m, x, k, |line.Text(e)|, BEGIN), p, skip);
    MovesOn(m, line.Text(e), x, k, BEGIN, p.Text(), d, p.Leftover(), p.Heard(), skip);
  }
}
