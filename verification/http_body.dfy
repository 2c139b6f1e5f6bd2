/** Message bodies: reading many bytes in one go, what decides where a message ends,
    and the account of an identity body. */
module HttpBody {
  import opened HttpModel
  import opened HttpRun

  /** `n` body bytes, fewer than or as many as are left, in one go. */
  function BodyEnd(c: Core, n: nat): Core
    requires InBody(c.state) && (c.state.BodyIdentityEof? || n <= c.contentLength)
  {
    if c.state.BodyIdentityEof? then c
    else
      var left := c.(contentLength := c.contentLength - n);
      if left.contentLength > 0 then left
      else if c.state.ChunkData? then left.(state := ChunkDataAlmostDone)
      else left.(state := NewMessage(left))
  }

  function BodyNotes(c: Core, n: nat): seq<Note> {
    if c.state.BodyIdentity? && n == c.contentLength then [MessageComplete] else []
  }

  predicate CanReadBody(c: Core, n: nat) {
    && InBody(c.state) && n > 0
    && (c.state.BodyIdentityEof? || n <= c.contentLength)
    && (c.state.ChunkData? ==> Chunked in c.flags && c.contentLength < SIGNED_LIMIT)
  }

  /** The byte that follows `n` body bytes, when there is one. */
  lemma BodyByte(c: Core, n: nat, x: byte, skip: nat -> bool)
    requires CanReadBody(c, n + 1)
    ensures var now := if n == 0 then c else BodyEnd(c, n);
            && Delivers(now)
            && React(now, x, skip) == Go(BodyEnd(c, n + 1), BodyNotes(c, n + 1), false)
            && BodyNotes(c, n) == [] && now.state == c.state
  {
    hide React;
    BodyReaction(if n == 0 then c else BodyEnd(c, n), x, skip);
  }

  /** A body state has no data callback open afterwards. */
  lemma BodyIsSilent(c: Core, n: nat)
    requires CanReadBody(c, n)
    ensures forall ch :: SpanOf(ch, BodyEnd(c, n).state).Silent?
  {}

  /** What is heard of body bytes, and of the end of the message when they reach it. */
  function BodyItems(c: Core, bytes: seq<byte>): seq<Item> {
    Octets(BodyData, bytes) + Events(BodyNotes(c, |bytes|))
  }

  lemma BodyStep(m: Machine, x: byte, d: Core, notes: seq<Note>, skip: nat -> bool)
    requires Delivers(m.core) && React(m.core, x, skip) == Go(d, notes, false)
    requires forall ch :: SpanOf(ch, d.state).Silent?
    ensures var heard := [Octet(BodyData, x)] + Events(notes) + [];
            Step(m, x, skip) == Running(Machine(d, m.nread, m.at + 1, m.whole + heard, m.parts + heard))
  {}

  lemma {:induction false} BodyNext(m: Machine, init: seq<byte>, x: byte, skip: nat -> bool)
    requires CanReadBody(m.core, |init| + 1)
    ensures var n := |init|;
            var now := if n == 0 then m else Moved(m, BodyEnd(m.core, n), m.nread, n, BodyItems(m.core, init));
            Step(now, x, skip)
            == Running(Moved(m, BodyEnd(m.core, n + 1), m.nread, n + 1, BodyItems(m.core, init + [x])))
  {
    hide React;
    var n := |init|;
    BodyByte(m.core, n, x, skip);
    BodyIsSilent(m.core, n + 1);
    var now := if n == 0 then m else Moved(m, BodyEnd(m.core, n), m.nread, n, BodyItems(m.core, init));
    BodyStep(now, x, BodyEnd(m.core, n + 1), BodyNotes(m.core, n + 1), skip);
    BodyHeard(m.whole, init, x, BodyNotes(m.core, n + 1));
    BodyHeard(m.parts, init, x, BodyNotes(m.core, n + 1));
  }

  lemma BodyHeard(items: seq<Item>, init: seq<byte>, x: byte, notes: seq<Note>)
    ensures items + (Octets(BodyData, init) + Events([])) + ([Octet(BodyData, x)] + Events(notes) + [])
            == items + (Octets(BodyData, init + [x]) + Events(notes))
    ensures init == [] ==> items + ([Octet(BodyData, x)] + Events(notes) + [])
                           == items + (Octets(BodyData, init + [x]) + Events(notes))
  {
    assert Octets(BodyData, init + [x]) == Octets(BodyData, init) + [Octet(BodyData, x)];
  }

  /** Reading many body bytes in one go is reading them one by one. */
  lemma {:induction false} BodyRun(m: Machine, bytes: seq<byte>, skip: nat -> bool)
    requires CanReadBody(m.core, |bytes|)
    ensures Run(m, bytes, skip)
            == Running(Moved(m, BodyEnd(m.core, |bytes|), m.nread, |bytes|, BodyItems(m.core, bytes)))
    decreases |bytes|
  {
    hide React;
    var init, x := bytes[..|bytes| - 1], bytes[|bytes| - 1];
    assert init + [x] == bytes;
    if init != [] { BodyRun(m, init, skip); }
    BodyNext(m, init, x, skip);
  }
}
