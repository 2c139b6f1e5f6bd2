/** Header blocks and the bodies they announce: where a message ends is decided by its
    header lines alone, and an identity body is accounted for byte by byte. */
module HttpMessages {
  import opened HttpModel
  import opened HttpRun
  import opened HttpInvariant
  import opened HttpBody
  import opened HttpGlide
  import opened HttpLines
  import opened HttpSplit

  datatype Header = Header(name: seq<byte>, value: seq<byte>, end: seq<byte>) {
    function Kind(): HeaderState { NameState(LowerCase(name)) }

    predicate Valid() {
      IsName(name) && IsValue(value) && IsLineEnd(end) && (Kind().IsContentLength? ==> IsLengthText(value))
    }

    function Text(): seq<byte> { name + [':'] + (value + end) }

    function Heard(): seq<Item> { Octets(FieldData, name) + ValueItems(TrimLeft(value)) }
  }

  function ValueItems(s: seq<byte>): seq<Item> { if s == [] then [Blank] else Octets(ValueData, s) }

  function BlockText(hs: seq<Header>): seq<byte> {
    if hs == [] then [] else hs[0].Text() + BlockText(hs[1..])
  }

  function BlockHeard(hs: seq<Header>): seq<Item> {
    if hs == [] then [] else hs[0].Heard() + BlockHeard(hs[1..])
  }

  /** What the lines of a block set together: every flag earned, the last length given. */
  function BlockFlags(hs: seq<Header>): set<Flag> {
    if hs == [] then {} else LineFlags(hs[0].Kind(), hs[0].value) + BlockFlags(hs[1..])
  }

  function BlockLength(hs: seq<Header>, before: nat): nat {
    if hs == [] then before else BlockLength(hs[1..], LineLength(hs[0].Kind(), hs[0].value, before))
  }

  predicate BlockDone(c: Core, hs: seq<Header>, d: Core) {
    d == c.(headerState := d.headerState, index := d.index,
            flags := c.flags + BlockFlags(hs), contentLength := BlockLength(hs, c.contentLength))
  }

  lemma SpokenIsOctets(s: seq<byte>)
    ensures forall ch :: Spoken(ch, Field, s) == Octets(FieldData, s) && Valued(ch, s) == ValueItems(s)
  {}

  lemma {:induction false} HeaderGlides(c: Core, h: Header, skip: nat -> bool) returns (d: Core)
    requires c.state.FieldStart? && h.Valid()
    ensures LineDone(c, h.Kind(), h.value, d) && Glides(c, h.Text(), d, h.Heard(), h.Heard(), skip)
  {
    hide React;
    d := HeaderLine(c, h.name, h.value, h.end, skip);
    SpokenIsOctets(h.name);
    SpokenIsOctets(TrimLeft(h.value));
  }

  lemma BlockDoneOn(c: Core, h: Header, x: Core, rest: seq<Header>, d: Core)
    requires c.state.FieldStart? && LineDone(c, h.Kind(), h.value, x) && BlockDone(x, rest, d)
    ensures BlockDone(c, [h] + rest, d)
  {
    assert ([h] + rest)[1..] == rest;
    assert x.flags + BlockFlags(rest) == c.flags + (LineFlags(h.Kind(), h.value) + BlockFlags(rest));
  }

  /** A header block: its callbacks hear every name and value, and the fields hold what
      its lines say. */
  lemma {:induction false} BlockGlides(c: Core, hs: seq<Header>, skip: nat -> bool) returns (d: Core)
    requires c.state.FieldStart? && forall h :: h in hs ==> h.Valid()
    ensures BlockDone(c, hs, d) && Glides(c, BlockText(hs), d, BlockHeard(hs), BlockHeard(hs), skip)
    decreases |hs|
  {
    hide React;
    if hs == [] {
      d := c;
      assert c.flags + {} == c.flags;
    } else {
      var h, rest := hs[0], hs[1..];
      assert h in hs && (forall x :: x in rest ==> x in hs) && [h] + rest == hs;
      var x := HeaderGlides(c, h, skip);
      d := BlockGlides(x, rest, skip);
      BlockDoneOn(c, h, x, rest, d);
      GlidesOn(c, h.Text(), x, h.Heard(), h.Heard(), BlockText(rest), d, BlockHeard(rest), BlockHeard(rest), skip);
    }
  }

  // The blank line.

  /** The message is not handed over to another protocol, and this is not a trailer. */
  predicate StaysHttp(c: Core) {
    Trailing !in c.flags && Upgrade !in c.flags && !c.upgrade && !c.verb.CONNECT?
  }

  /** The message ends with its headers. */
  predicate NoBody(c: Core, skip: nat -> bool) {
    skip(c.answered) || SkipBody in c.flags || (Chunked !in c.flags && c.contentLength == 0)
  }

  function Headed(c: Core, skip: nat -> bool): Core {
    c.(flags := c.flags + (if skip(c.answered) then {SkipBody} else {}),
       answered := c.answered + 1,
       state := if NoBody(c, skip) then NewMessage(c) else if Chunked in c.flags then ChunkSizeStart else BodyIdentity)
  }

  function HeadedNotes(c: Core, skip: nat -> bool): seq<Note> {
    if NoBody(c, skip) then [HeadersComplete, MessageComplete] else [HeadersComplete]
  }

  lemma HeadersFeedReaction(c: Core, skip: nat -> bool)
    requires (c.state.FieldStart? || c.state.HeadersAlmostDone?) && StaysHttp(c)
    ensures React(c, '\n', skip) == Go(Headed(c, skip), HeadedNotes(c, skip), true)
    ensures Quiet(Headed(c, skip).state)
  {
    hide React;
    assert c.flags + {} == c.flags;
    if c.state.FieldStart? { FieldReaction(c, '\n', skip); } else { HeadersDoneReaction(c, '\n', skip); }
  }

  /** A byte that raises notifications and is not handed on. */
  lemma NotedStep(m: Machine, b: byte, d: Core, notes: seq<Note>, skip: nat -> bool)
    requires React(m.core, b, skip) == Go(d, notes, true) && !Delivers(m.core)
    requires Quiet(d.state)
    requires m.nread < MAX_HEADER_SIZE && !m.core.state.ChunkSizeStart? && !m.core.state.ValueStart?
    ensures Step(m, b, skip) == Running(Moved(m, d, 0, 1, Events(notes)))
  {
    hide React;
    OnlyNotesHeard(Whole, m.core, notes, d.state, b);
    OnlyNotesHeard(Parts, m.core, notes, d.state, b);
  }

  lemma {:induction false} HeadersFeed(m: Machine, skip: nat -> bool)
    requires (m.core.state.FieldStart? || m.core.state.HeadersAlmostDone?) && StaysHttp(m.core)
    requires m.nread < MAX_HEADER_SIZE
    ensures Reaches(m, "\n", Moved(m, Headed(m.core, skip), 0, 1, Events(HeadedNotes(m.core, skip))), skip)
  {
    hide React;
    HeadersFeedReaction(m.core, skip);
    NotedStep(m, '\n', Headed(m.core, skip), HeadedNotes(m.core, skip), skip);
    RunByte(m, '\n', skip);
  }

  lemma ReturnGlides(c: Core, skip: nat -> bool)
    requires c.state.FieldStart?
    ensures Glides(c, "\r", c.(state := HeadersAlmostDone), [], [], skip)
  {
    hide React;
    FieldReaction(c, '\r', skip);
    QuietByteGlides(c, '\r', c.(state := HeadersAlmostDone), skip);
  }

  lemma {:induction false} GlideReaches(m: Machine, a: seq<byte>, x: Core, items: seq<Item>, skip: nat -> bool)
    requires Glides(m.core, a, x, items, items, skip) && m.nread + |a| <= MAX_HEADER_SIZE
    ensures Reaches(m, a, Moved(m, x, m.nread + |a|, |a|, items), skip)
  {
    hide React;
    GlideRun(m, a, skip);
  }

  lemma {:induction false} GlideThenRun(m: Machine, a: seq<byte>, x: Core, items: seq<Item>,
                                        b: seq<byte>, d: Core, k: nat, more: seq<Item>, skip: nat -> bool)
    requires Glides(m.core, a, x, items, items, skip) && m.nread + |a| <= MAX_HEADER_SIZE
    requires Reaches(Moved(m, x, m.nread + |a|, |a|, items), b,
                     Moved(Moved(m, x, m.nread + |a|, |a|, items), d, k, |b|, more), skip)
    ensures Reaches(m, a + b, Moved(m, d, k, |a + b|, items + more), skip)
  {
    hide React;
    GlideReaches(m, a, x, items, skip);
    MovesOn(m, a, x, m.nread + |a|, items, b, d, k, more, skip);
  }

  /** The blank line after the headers. */
  lemma {:induction false} BlankLineRun(m: Machine, e: seq<byte>, skip: nat -> bool)
    requires m.core.state.FieldStart? && StaysHttp(m.core) && IsLineEnd(e) && m.nread + |e| <= MAX_HEADER_SIZE
    ensures Reaches(m, e, Moved(m, Headed(m.core, skip), 0, |e|, Events(HeadedNotes(m.core, skip))), skip)
  {
    hide React;
    if e == "\n" { HeadersFeed(m, skip); } else { BlankCrLfRun(m, skip); }
  }

  lemma {:induction false} BlankCrLfRun(m: Machine, skip: nat -> bool)
    requires m.core.state.FieldStart? && StaysHttp(m.core) && m.nread + 2 <= MAX_HEADER_SIZE
    ensures Reaches(m, "\r\n", Moved(m, Headed(m.core, skip), 0, 2, Events(HeadedNotes(m.core, skip))), skip)
  {
    hide React;
    SameHeaded(m.core, skip);
    HeadersFeed(Moved(m, m.core.(state := HeadersAlmostDone), m.nread + 1, 1, []), skip);
    ReturnThenFeed(m, Headed(m.core, skip), Events(HeadedNotes(m.core, skip)), skip);
  }

  lemma {:induction false} ReturnThenFeed(m: Machine, d: Core, items: seq<Item>, skip: nat -> bool)
    requires m.core.state.FieldStart? && m.nread + 2 <= MAX_HEADER_SIZE
    requires var y := Moved(m, m.core.(state := HeadersAlmostDone), m.nread + 1, 1, []);
             Reaches(y, "\n", Moved(y, d, 0, 1, items), skip)
    ensures Reaches(m, "\r\n", Moved(m, d, 0, 2, items), skip)
  {
    hide React;
    assert "\r" + "\n" == "\r\n";
    ReturnGlides(m.core, skip);
    SilenceThenRun(m, "\r", m.core.(state := HeadersAlmostDone), "\n", d, 0, items, skip);
  }

  lemma {:induction false} SilenceThenRun(m: Machine, a: seq<byte>, x: Core, b: seq<byte>, d: Core, k: nat,
                                          items: seq<Item>, skip: nat -> bool)
    requires Glides(m.core, a, x, [], [], skip) && m.nread + |a| <= MAX_HEADER_SIZE
    requires Reaches(Moved(m, x, m.nread + |a|, |a|, []), b,
                     Moved(Moved(m, x, m.nread + |a|, |a|, []), d, k, |b|, items), skip)
    ensures Reaches(m, a + b, Moved(m, d, k, |a + b|, items), skip)
  {
    hide React;
    assert [] + items == items;
    GlideThenRun(m, a, x, [], b, d, k, items, skip);
  }

  lemma SameHeaded(c: Core, skip: nat -> bool)
    ensures var d := c.(state := HeadersAlmostDone);
            Headed(d, skip) == Headed(c, skip) && HeadedNotes(d, skip) == HeadedNotes(c, skip)
  {}

  /** The fields when the blank line after a block has been read, but for the scratch of
      the matcher. */
  function AfterBlock(c: Core, hs: seq<Header>): Core {
    c.(flags := c.flags + BlockFlags(hs), contentLength := BlockLength(hs, c.contentLength))
  }

  /** The fields of the start line, and whether HTTP is still spoken. */
  predicate SameMessage(d: Core, c: Core) {
    && d.kind == c.kind && d.verb == c.verb && d.status == c.status && d.major == c.major && d.minor == c.minor
    && d.upgrade == c.upgrade
  }

  predicate SameButScratch(d: Core, c: Core) { d == c.(headerState := d.headerState, index := d.index) }

  lemma ScratchDoesNotDecide(x: Core, a: Core, skip: nat -> bool)
    requires SameButScratch(x, a)
    ensures StaysHttp(x) == StaysHttp(a) && HeadedNotes(x, skip) == HeadedNotes(a, skip)
    ensures SameButScratch(Headed(x, skip), Headed(a, skip))
  {}

  lemma {:induction false} BlankAfter(m: Machine, text: seq<byte>, x: Core, items: seq<Item>, e: seq<byte>,
                                      skip: nat -> bool)
    requires Glides(m.core, text, x, items, items, skip) && x.state.FieldStart? && StaysHttp(x) && IsLineEnd(e)
    requires m.nread + |text| + |e| <= MAX_HEADER_SIZE
    ensures Reaches(m, text + e, Moved(m, Headed(x, skip), 0, |text + e|, items + Events(HeadedNotes(x, skip))), skip)
  {
    hide React;
    BlankLineRun(Moved(m, x, m.nread + |text|, |text|, items), e, skip);
    GlideThenRun(m, text, x, items, e, Headed(x, skip), 0, Events(HeadedNotes(x, skip)), skip);
  }

  /** A header block and its blank line: the message ends there exactly when the callback
      said to skip the body, or no chunking and a length of zero were announced. */
  lemma {:induction false} HeadersRun(m: Machine, hs: seq<Header>, e: seq<byte>, skip: nat -> bool) returns (d: Core)
    requires m.core.state.FieldStart? && (forall h :: h in hs ==> h.Valid()) && IsLineEnd(e)
    requires StaysHttp(AfterBlock(m.core, hs)) && m.nread + |BlockText(hs)| + |e| <= MAX_HEADER_SIZE
    ensures SameButScratch(d, Headed(AfterBlock(m.core, hs), skip))
    ensures var text := BlockText(hs) + e;
            Reaches(m, text, Moved(m, d, 0, |text|,
                                   BlockHeard(hs) + Events(HeadedNotes(AfterBlock(m.core, hs), skip))), skip)
  {
    hide React;
    var x := BlockGlides(m.core, hs, skip);
    d := Headed(x, skip);
    ScratchDoesNotDecide(x, AfterBlock(m.core, hs), skip);
    BlankAfter(m, BlockText(hs), x, BlockHeard(hs), e, skip);
  }

  // Identity bodies.

  /** The block announces an identity body of the given length. */
  predicate Announces(c: Core, hs: seq<Header>, n: nat, skip: nat -> bool) {
    var a := AfterBlock(c, hs);
    && (forall h :: h in hs ==> h.Valid()) && StaysHttp(a)
    && Chunked !in a.flags && SkipBody !in a.flags && !skip(c.answered)
    && a.contentLength == n && 0 < n < SIZE_MODULUS
  }

  /** What is heard of a message whose header block announces n body bytes, when some of
      them have come: message_complete is there exactly when all of them are. */
  function MessageHeard(hs: seq<Header>, n: nat, body: seq<byte>): seq<Item> {
    BlockHeard(hs) + [Event(HeadersComplete)]
    + Octets(BodyData, body) + (if |body| == n then [Event(MessageComplete)] else [])
  }

  lemma {:induction false} BodyAfterHeaders(m: Machine, n: nat, body: seq<byte>, skip: nat -> bool) returns (d: Core)
    requires m.core.state.BodyIdentity? && m.core.contentLength == n && |body| <= n && m.nread == 0 && 0 < n
    ensures d == m.core.(contentLength := d.contentLength, state := d.state) && d.contentLength + |body| == n
    ensures d.state == if |body| == n then NewMessage(m.core) else BodyIdentity
    ensures Reaches(m, body, Moved(m, d, 0, |body|,
                                   Octets(BodyData, body) + (if |body| == n then [Event(MessageComplete)] else [])),
                                       skip)
  {
    hide React, BlockText;
    if body == [] {
      d := m.core;
      assert m.whole + ([] + []) == m.whole && m.parts + ([] + []) == m.parts;
    } else {
      d := BodyEnd(m.core, |body|);
      BodyRun(m, body, skip);
      assert Events([]) == [] && Events([MessageComplete]) == [Event(MessageComplete)];
    }
  }

  lemma {:induction false} AnnouncingHeadersRun(m: Machine, hs: seq<Header>, e: seq<byte>, n: nat, skip: nat -> bool)
    returns (x: Core)
    requires m.core.state.FieldStart? && Announces(m.core, hs, n, skip) && IsLineEnd(e)
    requires m.nread + |BlockText(hs)| + |e| <= MAX_HEADER_SIZE
    ensures x.state.BodyIdentity? && x.contentLength == n && x.answered == m.core.answered + 1
    ensures x.flags == m.core.flags + BlockFlags(hs) && NewMessage(x) == NewMessage(AfterBlock(m.core, hs))
    ensures SameMessage(x, m.core)
    ensures Reaches(m, BlockText(hs) + e,
                    Moved(m, x, 0, |BlockText(hs) + e|, BlockHeard(hs) + [Event(HeadersComplete)]), skip)
  {
    hide React, Reaches, Glides, BlockText, BlockHeard;
    x := HeadersRun(m, hs, e, skip);
    assert Events([HeadersComplete]) == [Event(HeadersComplete)];
  }

  /** The account of an identity body: at every point of it the bytes delivered and the
      length left add up to the announced length, and the message completes with the
      last byte and not before. */
  lemma {:induction false} IdentityBody(m: Machine, hs: seq<Header>, e: seq<byte>, n: nat, body: seq<byte>,
                                        skip: nat -> bool)
    returns (d: Core)
    requires m.core.state.FieldStart? && Announces(m.core, hs, n, skip) && IsLineEnd(e) && |body| <= n
    requires m.nread + |BlockText(hs)| + |e| <= MAX_HEADER_SIZE
    ensures d.contentLength + |body| == n
    ensures d.state == if |body| == n then NewMessage(AfterBlock(m.core, hs)) else BodyIdentity
    ensures d.flags == m.core.flags + BlockFlags(hs) && d.answered == m.core.answered + 1 && SameMessage(d, m.core)
    ensures var text := BlockText(hs) + e + body;
            Reaches(m, text, Moved(m, d, 0, |text|, MessageHeard(hs, n, body)), skip)
  {
    hide React;
    var x := AnnouncingHeadersRun(m, hs, e, n, skip);
    var text, items := BlockText(hs) + e, BlockHeard(hs) + [Event(HeadersComplete)];
    d := BodyAfterHeaders(Moved(m, x, 0, |text|, items), n, body, skip);
    BodyIsNext(m, text, x, items, n, body, d, skip);
  }

  lemma {:induction false} BodyIsNext(m: Machine, text: seq<byte>, x: Core, items: seq<Item>, n: nat,
                                      body: seq<byte>, d: Core, skip: nat -> bool)
    requires Reaches(m, text, Moved(m, x, 0, |text|, items), skip)
    requires var y := Moved(m, x, 0, |text|, items);
             Reaches(y, body, Moved(y, d, 0, |body|,
                                    Octets(BodyData, body) + (if |body| == n then [Event(MessageComplete)] else [])),
                                        skip)
    ensures Reaches(m, text + body,
                    Moved(m, d, 0, |text + body|,
                          items + Octets(BodyData, body) + (if |body| == n then [Event(MessageComplete)] else [])),
                              skip)
  {
    hide React;
    var end := if |body| == n then [Event(MessageComplete)] else [];
    MovesOn(m, text, x, 0, items, body, d, 0, Octets(BodyData, body) + end, skip);
    assert items + (Octets(BodyData, body) + end) == items + Octets(BodyData, body) + end;
  }

  /** The same over any cutting of the stream into calls. */
  lemma {:induction false} IdentityBodyOverCalls(m: Machine, hs: seq<Header>, e: seq<byte>, n: nat, body: seq<byte>,
                                                 pieces: seq<seq<byte>>, skip: nat -> bool)
    requires Good(m) && m.core.state.FieldStart? && Announces(m.core, hs, n, skip) && IsLineEnd(e) && |body| <= n
    requires m.nread + |BlockText(hs)| + |e| <= MAX_HEADER_SIZE
    requires Concat(pieces) == BlockText(hs) + e + body
    ensures Calls(m, pieces, skip).Running?
    ensures var z := Calls(m, pieces, skip).m;
            && z.core.contentLength + |body| == n
            && (forall ch :: z.Hearing(ch) == m.Hearing(ch) + MessageHeard(hs, n, body))
  {
    hide React;
    var d := IdentityBody(m, hs, e, n, body, skip);
    SplitInvariance(m, pieces, skip);
  }

  // No length given.

  predicate GivesNoLength(hs: seq<Header>) { forall h :: h in hs ==> !h.Kind().IsContentLength? }

  lemma {:induction false} NoLengthGiven(hs: seq<Header>, before: nat)
    requires GivesNoLength(hs)
    ensures BlockLength(hs, before) == before
  {
    if hs != [] {
      assert hs[0] in hs && forall h :: h in hs[1..] ==> h in hs;
      NoLengthGiven(hs[1..], before);
    }
  }

  /** A message that gives no length: an absent length is the largest size_t and not a
      negative number, so whatever follows the headers, up to 2^64 - 2 bytes of it, is
      body.  The next message on the connection is never seen. */
  lemma {:induction false} AbsentLengthTakesAll(m: Machine, hs: seq<Header>, e: seq<byte>, rest: seq<byte>,
                                                skip: nat -> bool)
    requires m.core.state.FieldStart? && m.core.contentLength == ABSENT_LENGTH && GivesNoLength(hs) && IsLineEnd(e)
    requires Announces(m.core, hs, BlockLength(hs, ABSENT_LENGTH), skip) && |rest| < ABSENT_LENGTH
    requires m.nread + |BlockText(hs)| + |e| <= MAX_HEADER_SIZE
    ensures Run(m, BlockText(hs) + e + rest, skip).Running?
    ensures var z := Run(m, BlockText(hs) + e + rest, skip).m;
            && z.core.state == BodyIdentity
            && (forall ch ::
                  z.Hearing(ch) == m.Hearing(ch) + BlockHeard(hs) + [Event(HeadersComplete)] + Octets(BodyData, rest))
  {
    hide React, BlockText, BlockHeard, BlockFlags;
    NoLengthGiven(hs, ABSENT_LENGTH);
    var d := IdentityBody(m, hs, e, ABSENT_LENGTH, rest, skip);
    HeardRegrouped(m.whole, BlockHeard(hs), rest);
    HeardRegrouped(m.parts, BlockHeard(hs), rest);
  }

  lemma HeardRegrouped(before: seq<Item>, block: seq<Item>, rest: seq<byte>)
    ensures before + (block + [Event(HeadersComplete)] + Octets(BodyData, rest) + [])
            == before + block + [Event(HeadersComplete)] + Octets(BodyData, rest)
  {}
}
