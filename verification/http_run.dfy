/** Runs of the parser over a byte stream, and what the callbacks hear of it.
    Here every byte is handed on as it is read; that the source's marks and
    many-byte body reads come to the same is proved in HttpParserObject. */
module HttpRun {
  import opened HttpModel

  datatype DataKind = UrlData | PathData | QueryData | FragmentData | FieldData | ValueData | BodyData

  /** Something a callback hears: one byte of a data callback, a notification, or a header
      value without bytes. */
  datatype Item = Octet(kind: DataKind, b: byte) | Event(note: Note) | Blank

  /** The whole URL overlaps its parts, so what is heard is two streams, in each of
      which at most one data callback is open at a time. */
  datatype Channel = Whole | Parts

  datatype Span = Silent | Speaks(kind: DataKind)

  /** The data callback open on a channel while the parser is in a state. */
  function SpanOf(ch: Channel, s: State): Span {
    match s
    case Field => Speaks(FieldData)
    case Value => Speaks(ValueData)
    case Path => Speaks(if ch.Whole? then UrlData else PathData)
    case Query => Speaks(if ch.Whole? then UrlData else QueryData)
    case Fragment => Speaks(if ch.Whole? then UrlData else FragmentData)
    case _ => if ch.Whole? && InUrl(s) && !s.SpacesBeforeUrl? then Speaks(UrlData) else Silent
  }

  function Events(notes: seq<Note>): seq<Item> { seq(|notes|, i requires 0 <= i < |notes| => Event(notes[i])) }

  function Octets(k: DataKind, bytes: seq<byte>): seq<Item> {
    seq(|bytes|, i requires 0 <= i < |bytes| => Octet(k, bytes[i]))
  }

  /** The byte ends a header value before it has begun. */
  predicate Empties(s: State, b: byte) { s.ValueStart? && (b == '\r' || b == '\n') }

  /** The byte as part of the line: an empty value ends, or it is inside a span. */
  function Sound(ch: Channel, before: State, after: State, b: byte): seq<Item> {
    (if Empties(before, b) then [Blank] else []) + Voice(ch, after, b)
  }

  /** What a channel hears of one byte: a body byte, then notifications, then the byte as
      part of the line. */
  function Heard(ch: Channel, before: Core, notes: seq<Note>, after: State, b: byte): seq<Item> {
    (if Delivers(before) then [Octet(BodyData, b)] else [])
    + Events(notes)
    + Sound(ch, before.state, after, b)
  }

  function Voice(ch: Channel, s: State, b: byte): seq<Item> {
    match SpanOf(ch, s)
    case Silent => []
    case Speaks(k) => [Octet(k, b)]
  }

  /** The parser's fields, its header byte counter, the position in the current
      buffer, and all that was heard so far. */
  datatype Machine = Machine(core: Core, nread: nat, at: nat, whole: seq<Item>, parts: seq<Item>) {
    function Hearing(ch: Channel): seq<Item> { if ch.Whole? then whole else parts }
  }

  datatype Result =
    | Running(m: Machine)
    | Failed(m: Machine)
    | Left(m: Machine)
    | Aborted
    | Undef

  /** The last thing heard is a byte of the span. */
  predicate EndsIn(items: seq<Item>, k: DataKind) {
    items != [] && match items[|items| - 1]
                   case Octet(j, _) => j == k
                   case _ => false
  }

  /** In a header line, what was heard last is the name before the value has begun, and the
      value after. */
  predicate WordsIn(s: State, whole: seq<Item>, parts: seq<Item>) {
    && (s.Field? || s.ValueStart? ==> EndsIn(whole, FieldData) && EndsIn(parts, FieldData))
    && (s.Value? ==> EndsIn(whole, ValueData) && EndsIn(parts, ValueData))
  }

  predicate InWords(m: Machine) { WordsIn(m.core.state, m.whole, m.parts) }

  function Counted(m: Machine): nat { if ParsingHeader(m.core.state) then m.nread + 1 else m.nread }

  function Hear(m: Machine, b: byte, core: Core, notes: seq<Note>, nread: nat): Machine {
    Machine(core, nread, m.at + 1,
            m.whole + Heard(Whole, m.core, notes, core.state, b),
            m.parts + Heard(Parts, m.core, notes, core.state, b))
  }

  function Absorb(m: Machine, b: byte, r: Reaction, nread: nat): Result {
    match r
    case Go(c, notes, reset) => Running(Hear(m, b, c, notes, if reset then 0 else nread))
    case Fail(notes, c) => Failed(m.(core := c, whole := m.whole + Events(notes), parts := m.parts + Events(notes)))
    case Leave(c, notes) => Left(Hear(m, b, c, notes, 0).(at := m.at))
    case Abort => Aborted
    case Undefined => Undef
  }

  /** One iteration of the byte loop: the header limit, the counter assert, the switch. */
  function Step(m: Machine, b: byte, skip: nat -> bool): Result {
    var nread := Counted(m);
    if ParsingHeader(m.core.state) && nread > MAX_HEADER_SIZE then Failed(m)
    else if m.core.state.ChunkSizeStart? && nread != 1 then Aborted
    else Absorb(m, b, React(m.core, b, skip), nread)
  }

  function Run(m: Machine, data: seq<byte>, skip: nat -> bool): Result {
    if data == [] then Running(m)
    else
      match Run(m, data[..|data| - 1], skip)
      case Running(m') => Step(m', data[|data| - 1], skip)
      case r => r
  }

  /** A run over a concatenation continues where the first part ended. */
  lemma {:induction false} RunAppend(m: Machine, a: seq<byte>, b: seq<byte>, skip: nat -> bool)
    ensures Run(m, a, skip).Running? ==> Run(m, a + b, skip) == Run(Run(m, a, skip).m, b, skip)
    ensures !Run(m, a, skip).Running? ==> Run(m, a + b, skip) == Run(m, a, skip)
    decreases |b|
  {
    hide React, Step;
    if b == [] {
      assert a + b == a;
    } else {
      var b' := b[..|b| - 1];
      RunAppend(m, a, b', skip);
      assert (a + b)[..|a + b| - 1] == a + b';
    }
  }

  lemma RunByte(m: Machine, b: byte, skip: nat -> bool)
    ensures Run(m, [b], skip) == Step(m, b, skip)
  {
    hide React;
    assert [b][..0] == [];
    assert Run(m, [b][..0], skip) == Running(m);
  }

  /** The first byte first. */
  lemma {:induction false} RunCons(m: Machine, data: seq<byte>, skip: nat -> bool)
    requires data != []
    ensures Step(m, data[0], skip).Running? ==>
              Run(m, data, skip) == Run(Step(m, data[0], skip).m, data[1..], skip)
    ensures !Step(m, data[0], skip).Running? ==> Run(m, data, skip) == Step(m, data[0], skip)
  {
    hide React;
    RunByte(m, data[0], skip);
    RunAppend(m, [data[0]], data[1..], skip);
    assert [data[0]] + data[1..] == data;
  }

  /** The bytes up to a position, and from there to another. */
  lemma SliceOn(data: seq<byte>, p: nat, q: nat)
    requires p <= q <= |data|
    ensures data[..q] == data[..p] + data[p..q]
  {}

  lemma {:induction false} RunOn(m: Machine, m1: Machine, a: seq<byte>, b: seq<byte>, all: seq<byte>, skip: nat -> bool)
    requires all == a + b && Run(m, a, skip) == Running(m1)
    ensures Run(m, all, skip) == Run(m1, b, skip)
  {
    hide React;
    RunAppend(m, a, b, skip);
  }

  /** A run to a position, and on from there. */
  lemma {:induction false} RunFurther(m: Machine, m1: Machine, data: seq<byte>, p: nat, q: nat, skip: nat -> bool)
    requires p <= q <= |data| && Run(m, data[..p], skip) == Running(m1)
    ensures Run(m, data[..q], skip) == Run(m1, data[p..q], skip)
  {
    hide React;
    SliceOn(data, p, q);
    RunOn(m, m1, data[..p], data[p..q], data[..q], skip);
  }

  lemma {:induction false} RunEndsAfter(m: Machine, m1: Machine, a: seq<byte>, b: seq<byte>, all: seq<byte>,
                                        skip: nat -> bool)
    requires all == a + b && b != [] && Run(m, a, skip) == Running(m1) && !Step(m1, b[0], skip).Running?
    ensures Run(m, all, skip) == Step(m1, b[0], skip)
  {
    hide React;
    RunOn(m, m1, a, b, all, skip);
    RunCons(m1, b, skip);
  }

  /** A run that ends at a byte has ended for all that follows it. */
  lemma {:induction false} RunEnds(m: Machine, m1: Machine, data: seq<byte>, p: nat, skip: nat -> bool)
    requires p < |data| && Run(m, data[..p], skip) == Running(m1) && !Step(m1, data[p], skip).Running?
    ensures Run(m, data, skip) == Step(m1, data[p], skip)
  {
    hide React, Run, Step;
    assert data == data[..p] + data[p..];
    RunEndsAfter(m, m1, data[..p], data[p..], data, skip);
  }

  /** The machine after c and n bytes, of which both channels heard the items. */
  function Moved(m: Machine, c: Core, nread: nat, n: nat, items: seq<Item>): Machine {
    Machine(c, nread, m.at + n, m.whole + items, m.parts + items)
  }

  lemma MovedTwice(m: Machine, c: Core, k: nat, n: nat, items: seq<Item>, c': Core, k': nat, n': nat, more: seq<Item>)
    ensures Moved(Moved(m, c, k, n, items), c', k', n', more) == Moved(m, c', k', n + n', items + more)
  {
    assert m.whole + items + more == m.whole + (items + more);
    assert m.parts + items + more == m.parts + (items + more);
  }

  predicate Reaches(m: Machine, data: seq<byte>, m': Machine, skip: nat -> bool) { Run(m, data, skip) == Running(m') }

  lemma {:induction false} ReachesOn(m: Machine, a: seq<byte>, x: Machine, b: seq<byte>, y: Machine, skip: nat -> bool)
    requires Reaches(m, a, x, skip) && Reaches(x, b, y, skip)
    ensures Reaches(m, a + b, y, skip)
  {
    hide React;
    RunAppend(m, a, b, skip);
  }

  /** A byte that is taken moves the position by one. */
  lemma {:induction false} ReachedAt(m: Machine, data: seq<byte>, z: Machine, skip: nat -> bool)
    requires Reaches(m, data, z, skip)
    ensures z.at == m.at + |data|
    decreases |data|
  {
    hide React;
    if data != [] {
      ReachedAt(m, data[..|data| - 1], Run(m, data[..|data| - 1], skip).m, skip);
    }
  }

  /** On from a machine that has moved: what was heard adds up. */
  lemma {:induction false} MovesOn(m: Machine, a: seq<byte>, c: Core, k: nat, items: seq<Item>,
                                   b: seq<byte>, c': Core, k': nat, more: seq<Item>, skip: nat -> bool)
    requires Reaches(m, a, Moved(m, c, k, |a|, items), skip)
    requires Reaches(Moved(m, c, k, |a|, items), b, Moved(Moved(m, c, k, |a|, items), c', k', |b|, more), skip)
    ensures Reaches(m, a + b, Moved(m, c', k', |a + b|, items + more), skip)
  {
    hide React;
    MovedTwice(m, c, k, |a|, items, c', k', |b|, more);
    ReachesOn(m, a, Moved(m, c, k, |a|, items), b, Moved(m, c', k', |a + b|, items + more), skip);
  }

  lemma {:induction false} MovesOnQuietly(m: Machine, a: seq<byte>, c: Core, k: nat, items: seq<Item>,
                                          b: seq<byte>, c': Core, k': nat, skip: nat -> bool)
    requires Reaches(m, a, Moved(m, c, k, |a|, items), skip)
    requires Reaches(Moved(m, c, k, |a|, items), b, Moved(Moved(m, c, k, |a|, items), c', k', |b|, []), skip)
    ensures Reaches(m, a + b, Moved(m, c', k', |a + b|, items), skip)
  {
    hide React;
    MovesOn(m, a, c, k, items, b, c', k', [], skip);
    assert items + [] == items;
  }

  /** A byte that raises nothing and is not handed on. */
  lemma QuietStep(m: Machine, b: byte, c: Core, reset: bool, skip: nat -> bool)
    requires React(m.core, b, skip) == Go(c, [], reset) && !Delivers(m.core) && !m.core.state.ValueStart?
    requires SpanOf(Whole, c.state).Silent? && SpanOf(Parts, c.state).Silent?
    requires ParsingHeader(m.core.state) ==> m.nread < MAX_HEADER_SIZE
    requires m.core.state.ChunkSizeStart? ==> m.nread == 0
    ensures Step(m, b, skip) == Running(Moved(m, c, if reset then 0 else Counted(m), 1, []))
  {
    hide React;
    assert Heard(Whole, m.core, [], c.state, b) == [] && Heard(Parts, m.core, [], c.state, b) == [];
  }

  lemma Associates(a: seq<Item>, b: seq<Item>, c: seq<Item>)
    ensures a + b + c == a + (b + c)
  {}

  lemma OnlyNotesHeard(ch: Channel, before: Core, notes: seq<Note>, s: State, b: byte)
    requires !Delivers(before) && !Empties(before.state, b) && SpanOf(ch, s).Silent?
    ensures Heard(ch, before, notes, s, b) == Events(notes)
  {
    hide Events;
  }

  // Calls of http_parser_execute.

  /** On a full return the index and the header counter are stored in unsigned chars;
      the next buffer is read from its start. */
  function Save(m: Machine): Machine {
    m.(core := m.core.(index := m.core.index % 256), nread := m.nread % 256, at := 0)
  }

  /** One call on a non-empty buffer. */
  function Call(m: Machine, data: seq<byte>, skip: nat -> bool): Result {
    match Run(m, data, skip)
    case Running(m') => Running(Save(m'))
    case r => r
  }

  function Calls(m: Machine, pieces: seq<seq<byte>>, skip: nat -> bool): Result {
    if pieces == [] then Running(m)
    else
      match Calls(m, pieces[..|pieces| - 1], skip)
      case Running(m') => Call(m', pieces[|pieces| - 1], skip)
      case r => r
  }

  /** Calls over a concatenation continue where the first ones ended. */
  lemma {:induction false} CallsAppend(m: Machine, a: seq<seq<byte>>, b: seq<seq<byte>>, skip: nat -> bool)
    ensures Calls(m, a, skip).Running? ==> Calls(m, a + b, skip) == Calls(Calls(m, a, skip).m, b, skip)
    ensures !Calls(m, a, skip).Running? ==> Calls(m, a + b, skip) == Calls(m, a, skip)
    decreases |b|
  {
    hide Call;
    if b == [] {
      assert a + b == a;
    } else {
      var b' := b[..|b| - 1];
      CallsAppend(m, a, b', skip);
      assert (a + b)[..|a + b| - 1] == a + b';
    }
  }

  lemma OneCall(m: Machine, data: seq<byte>, skip: nat -> bool)
    ensures Calls(m, [data], skip) == Call(m, data, skip)
  {
    hide Call;
    assert [data][..0] == [];
    assert Calls(m, [], skip) == Running(m);
  }

  function Concat(pieces: seq<seq<byte>>): seq<byte> {
    if pieces == [] then [] else Concat(pieces[..|pieces| - 1]) + pieces[|pieces| - 1]
  }

  /** After http_parser_init; the fields it does not touch have any value an
      unsigned char can hold where that matters. */
  predicate Initial(m: Machine) {
    && m.core.state == (match m.core.kind case Request => StartReq case Response => StartRes case Both => StartReqOrRes)
    && m.core.flags == {} && !m.core.upgrade && m.core.verb == DELETE
    && m.core.index <= 255 && m.nread == 0 && m.core.contentLength < SIZE_MODULUS
    && m.at == 0 && m.whole == [] && m.parts == []
  }
}
