/** What the text of a message decides: whether the connection goes on after it, whether it
    leaves HTTP, and how its body is framed. */
module HttpOutcome {
  import opened HttpModel
  import opened HttpRun
  import opened HttpInvariant
  import opened HttpGlide
  import opened HttpLines
  import opened HttpMessages
  import opened HttpRequestLine
  import opened HttpSplit

  // What lines say.

  /** The line has the name, in either case and without the spaces after it. */
  predicate IsCalled(h: Header, name: string) { TrimRight(LowerCase(h.name)) == name }

  /** The line has the value, in either case and without the spaces around it. */
  predicate HasValue(h: Header, value: string) { LowerCase(TrimRight(TrimLeft(h.value))) == value }

  predicate IsConnectionLine(h: Header) { IsCalled(h, "connection") || IsCalled(h, "proxy-connection") }

  predicate AsksToClose(hs: seq<Header>) { exists h :: h in hs && IsConnectionLine(h) && HasValue(h, "close") }

  predicate AsksToStay(hs: seq<Header>) { exists h :: h in hs && IsConnectionLine(h) && HasValue(h, "keep-alive") }

  predicate AsksForUpgrade(hs: seq<Header>) { exists h :: h in hs && IsCalled(h, "upgrade") && TrimLeft(h.value) != [] }

  predicate SaysChunked(hs: seq<Header>) {
    exists h :: h in hs && IsCalled(h, "transfer-encoding") && HasValue(h, "chunked")
  }

  /** The flags of the parser and the words of the lines. */
  predicate FlagsAre(flags: set<Flag>, hs: seq<Header>) {
    && (Close in flags <==> AsksToClose(hs)) && (KeepAlive in flags <==> AsksToStay(hs))
    && (Upgrade in flags <==> AsksForUpgrade(hs)) && (Chunked in flags <==> SaysChunked(hs))
  }

  lemma LineFlagsAre(h: Header)
    ensures FlagsAre(LineFlags(h.Kind(), h.value), [h])
    ensures Trailing !in LineFlags(h.Kind(), h.value) && SkipBody !in LineFlags(h.Kind(), h.value)
  {
    assert h in [h];
    assert forall x :: x in [h] ==> x == h;
  }

  lemma OneMoreLine(h: Header, rest: seq<Header>)
    ensures AsksToClose([h] + rest) <==> AsksToClose([h]) || AsksToClose(rest)
    ensures AsksToStay([h] + rest) <==> AsksToStay([h]) || AsksToStay(rest)
    ensures AsksForUpgrade([h] + rest) <==> AsksForUpgrade([h]) || AsksForUpgrade(rest)
    ensures SaysChunked([h] + rest) <==> SaysChunked([h]) || SaysChunked(rest)
  {
    hide IsCalled, HasValue, IsConnectionLine;
    assert forall x :: x in [h] + rest <==> x in [h] || x in rest;
  }

  /** The flags that a block earns are what its lines say. */
  lemma {:induction false} BlockFlagsAre(hs: seq<Header>)
    ensures FlagsAre(BlockFlags(hs), hs) && Trailing !in BlockFlags(hs) && SkipBody !in BlockFlags(hs)
    decreases |hs|
  {
    hide LineFlags, AsksToClose, AsksToStay, AsksForUpgrade, SaysChunked;
    if hs == [] {
      NothingSaid();
    } else {
      LineFlagsAre(hs[0]);
      BlockFlagsAre(hs[1..]);
      OneMoreLine(hs[0], hs[1..]);
      assert [hs[0]] + hs[1..] == hs;
    }
  }

  lemma NothingSaid()
    ensures !AsksToClose([]) && !AsksToStay([]) && !AsksForUpgrade([]) && !SaysChunked([])
  {}

  /** Blocks together: a header block and a trailer. */
  lemma TwoBlocks(a: seq<Header>, b: seq<Header>)
    ensures FlagsAre(BlockFlags(a) + BlockFlags(b), a + b)
  {
    hide IsCalled, HasValue, IsConnectionLine;
    BlockFlagsAre(a);
    BlockFlagsAre(b);
    assert forall x :: x in a + b <==> x in a || x in b;
  }

  // Keeping the connection.

  /** HTTP/1.1 and later stay unless a line says close; anything earlier closes unless a line
      says keep-alive. */
  predicate Stays(major: nat, minor: nat, lines: seq<Header>) {
    if major >= 1 && minor >= 1 then !AsksToClose(lines) else AsksToStay(lines)
  }

  /** Where a complete message leaves the parser. */
  function Onwards(kind: ParserKind, major: nat, minor: nat, lines: seq<Header>): State {
    if !Stays(major, minor, lines) then Dead else if kind == Request then StartReq else StartRes
  }

  lemma OnwardsIsNewMessage(c: Core, lines: seq<Header>)
    requires FlagsAre(c.flags, lines)
    ensures NewMessage(c) == Onwards(c.kind, c.major, c.minor, lines)
  {}

  // Leaving HTTP.

  lemma LeaveReaction(c: Core, skip: nat -> bool) returns (d: Core)
    requires (c.state.FieldStart? || c.state.HeadersAlmostDone?) && Trailing !in c.flags && !StaysHttp(c)
    ensures React(c, '\n', skip) == Leave(d, [HeadersComplete, MessageComplete])
    ensures d == c.(upgrade := true, flags := d.flags, answered := c.answered + 1)
    ensures c.flags <= d.flags <= c.flags + {SkipBody}
  {
    hide React;
    if c.state.FieldStart? { FieldReaction(c, '\n', skip); } else { HeadersDoneReaction(c, '\n', skip); }
    d := OnHeadersDone(c, '\n', skip).core;
  }

  /** The machine that has left HTTP at a byte, with both notifications. */
  predicate LeftAt(m: Machine, r: Result, at: nat, items: seq<Item>) {
    && r.Left? && r.m.core.upgrade && r.m.at == m.at + at
    && r.m.whole == m.whole + items && r.m.parts == m.parts + items
  }

  const PARTING: seq<Item> := [Event(HeadersComplete), Event(MessageComplete)]

  lemma {:induction false} LeaveStep(m: Machine, skip: nat -> bool)
    requires (m.core.state.FieldStart? || m.core.state.HeadersAlmostDone?) && Trailing !in m.core.flags
    requires !StaysHttp(m.core) && m.nread < MAX_HEADER_SIZE
    ensures LeftAt(m, Step(m, '\n', skip), 0, PARTING)
  {
    hide React;
    var d := LeaveReaction(m.core, skip);
    assert Events([HeadersComplete, MessageComplete]) == PARTING;
    OnlyNotesHeard(Whole, m.core, [HeadersComplete, MessageComplete], d.state, '\n');
    OnlyNotesHeard(Parts, m.core, [HeadersComplete, MessageComplete], d.state, '\n');
  }

  /** The bytes before the last one of the block and its blank line. */
  lemma {:induction false} ToLastByte(m: Machine, hs: seq<Header>, e: seq<byte>, skip: nat -> bool)
    returns (y: Machine)
    requires m.core.state.FieldStart? && (forall h :: h in hs ==> h.Valid()) && IsLineEnd(e)
    requires m.nread + |BlockText(hs)| + |e| <= MAX_HEADER_SIZE
    ensures var text := BlockText(hs) + e; Reaches(m, text[..|text| - 1], y, skip)
    ensures y.core.state.FieldStart? || y.core.state.HeadersAlmostDone?
    ensures y.core.flags == m.core.flags + BlockFlags(hs) && y.core.verb == m.core.verb
    ensures y.core.upgrade == m.core.upgrade && y.nread + 1 == m.nread + |BlockText(hs) + e|
    ensures y == Moved(m, y.core, y.nread, |BlockText(hs) + e| - 1, BlockHeard(hs))
  {
    hide React, Reaches, Glides, BlockFlags, BlockHeard;
    var text := BlockText(hs) + e;
    var x := BlockGlides(m.core, hs, skip);
    GlideReaches(m, BlockText(hs), x, BlockHeard(hs), skip);
    y := Moved(m, x, m.nread + |BlockText(hs)|, |BlockText(hs)|, BlockHeard(hs));
    if e == "\n" {
      assert text[..|text| - 1] == BlockText(hs);
    } else {
      assert text[..|text| - 1] == BlockText(hs) + "\r";
      var d := x.(state := HeadersAlmostDone);
      ReturnGlides(x, skip);
      GlideReaches(y, "\r", d, [], skip);
      MovesOnQuietly(m, BlockText(hs), x, m.nread + |BlockText(hs)|, BlockHeard(hs), "\r", d,
                     m.nread + |BlockText(hs)| + 1, skip);
      y := Moved(m, d, m.nread + |BlockText(hs)| + 1, |BlockText(hs)| + 1, BlockHeard(hs));
    }
  }

  /** The stream leaves HTTP: the headers are heard, then both completions, and the run stops
      at the last byte of the blank line, whatever follows it. */
  lemma {:induction false} LeavesHttp(m: Machine, hs: seq<Header>, e: seq<byte>, rest: seq<byte>, skip: nat -> bool)
    requires m.core.state.FieldStart? && (forall h :: h in hs ==> h.Valid()) && IsLineEnd(e)
    requires Trailing !in m.core.flags && m.nread + |BlockText(hs)| + |e| <= MAX_HEADER_SIZE
    requires m.core.upgrade || m.core.verb == CONNECT || Upgrade in m.core.flags || AsksForUpgrade(hs)
    ensures LeftAt(m, Run(m, BlockText(hs) + e + rest, skip), |BlockText(hs) + e| - 1, BlockHeard(hs) + PARTING)
    ensures var all, k := BlockText(hs) + e + rest, |BlockText(hs) + e| - 1;
            EndsAt(m, all, k, skip) && !AtLimit(Run(m, all[..k], skip).m)
  {
    hide React, Run, Step, AsksForUpgrade;
    var text := BlockText(hs) + e;
    var all, k := text + rest, |text| - 1;
    var y := ToLastByte(m, hs, e, skip);
    BlockFlagsAre(hs);
    LeaveStep(y, skip);
    assert all[..k] == text[..k] && all[k] == '\n';
    RunEnds(m, y, all, k, skip);
    assert m.whole + BlockHeard(hs) + PARTING == m.whole + (BlockHeard(hs) + PARTING);
    assert m.parts + BlockHeard(hs) + PARTING == m.parts + (BlockHeard(hs) + PARTING);
  }
}
