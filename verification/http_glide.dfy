/** Stretches of header bytes that raise no notification: what they do to the fields
    and what is heard of them, free of the machine around them. */
module HttpGlide {
  import opened HttpModel
  import opened HttpRun

  datatype Glided = Lost | At(core: Core)

  /** The fields after header bytes that each go on in silence. */
  function Glide(c: Core, data: seq<byte>, skip: nat -> bool): Glided {
    if data == [] then At(c)
    else
      match Glide(c, data[..|data| - 1], skip)
      case Lost => Lost
      case At(c') => GlideByte(c', data[|data| - 1], skip)
  }

  function GlideByte(c: Core, b: byte, skip: nat -> bool): Glided {
    if !ParsingHeader(c.state) || c.state.ChunkSizeStart? then Lost
    else
      match React(c, b, skip)
      case Go(c', notes, reset) => if notes == [] && !reset then At(c') else Lost
      case _ => Lost
  }

  function GlideSound(ch: Channel, c: Core, b: byte, skip: nat -> bool): seq<Item> {
    match GlideByte(c, b, skip)
    case Lost => []
    case At(c') => Sound(ch, c.state, c'.state, b)
  }

  /** What a channel hears of them. */
  function Voices(ch: Channel, c: Core, data: seq<byte>, skip: nat -> bool): seq<Item> {
    if data == [] then []
    else
      Voices(ch, c, data[..|data| - 1], skip)
      + match Glide(c, data[..|data| - 1], skip)
        case Lost => []
        case At(c') => GlideSound(ch, c', data[|data| - 1], skip)
  }

  lemma {:induction false} GlideAppend(c: Core, a: seq<byte>, b: seq<byte>, skip: nat -> bool)
    requires Glide(c, a, skip).At?
    ensures Glide(c, a + b, skip) == Glide(Glide(c, a, skip).core, b, skip)
    ensures forall ch :: Voices(ch, c, a + b, skip)
                         == Voices(ch, c, a, skip) + Voices(ch, Glide(c, a, skip).core, b, skip)
  {
    hide React, Glide, Voices;
    GlideFurther(c, a, b, skip);
    forall ch
      ensures Voices(ch, c, a + b, skip) == Voices(ch, c, a, skip) + Voices(ch, Glide(c, a, skip).core, b, skip)
    {
      VoicesFurther(ch, c, a, b, skip);
    }
  }

  lemma {:induction false} GlideFurther(c: Core, a: seq<byte>, b: seq<byte>, skip: nat -> bool)
    requires Glide(c, a, skip).At?
    ensures Glide(c, a + b, skip) == Glide(Glide(c, a, skip).core, b, skip)
    decreases |b|
  {
    hide React, GlideByte;
    if b == [] {
      assert a + b == a;
    } else {
      assert (a + b)[..|a + b| - 1] == a + b[..|b| - 1];
      GlideFurther(c, a, b[..|b| - 1], skip);
    }
  }

  lemma {:induction false} VoicesFurther(ch: Channel, c: Core, a: seq<byte>, b: seq<byte>, skip: nat -> bool)
    requires Glide(c, a, skip).At?
    ensures Voices(ch, c, a + b, skip) == Voices(ch, c, a, skip) + Voices(ch, Glide(c, a, skip).core, b, skip)
    decreases |b|
  {
    hide React, Glide, GlideSound;
    if b == [] {
      assert a + b == a;
    } else {
      var init := b[..|b| - 1];
      assert (a + b)[..|a + b| - 1] == a + init;
      GlideFurther(c, a, init, skip);
      VoicesFurther(ch, c, a, init, skip);
    }
  }

  /** The machine after a glide to c in which the channels heard w and q. */
  function Onward(m: Machine, c: Core, n: nat, w: seq<Item>, q: seq<Item>): Machine {
    Machine(c, m.nread + n, m.at + n, m.whole + w, m.parts + q)
  }

  lemma OnwardTwice(m: Machine, c: Core, n: nat, w: seq<Item>, q: seq<Item>, d: Core, k: nat, x: seq<Item>,
                    y: seq<Item>)
    ensures Onward(Onward(m, c, n, w, q), d, k, x, y) == Onward(m, d, n + k, w + x, q + y)
  {
    assert m.whole + w + x == m.whole + (w + x) && m.parts + q + y == m.parts + (q + y);
  }

  /** A machine under the header limit glides as its fields do. */
  lemma {:induction false} GlideRun(m: Machine, data: seq<byte>, skip: nat -> bool)
    requires Glide(m.core, data, skip).At? && m.nread + |data| <= MAX_HEADER_SIZE
    ensures Run(m, data, skip)
            == Running(Onward(m, Glide(m.core, data, skip).core, |data|,
                              Voices(Whole, m.core, data, skip), Voices(Parts, m.core, data, skip)))
  {
    hide React;
    if data == [] {
      assert m.whole + [] == m.whole && m.parts + [] == m.parts;
    } else {
      var init, b := data[..|data| - 1], data[|data| - 1];
      GlideRun(m, init, skip);
      var c := Glide(m.core, init, skip).core;
      var w, q := Voices(Whole, m.core, init, skip), Voices(Parts, m.core, init, skip);
      GlideByteStep(Onward(m, c, |init|, w, q), b, skip);
      var d := GlideByte(c, b, skip).core;
      OnwardTwice(m, c, |init|, w, q, d, 1, GlideSound(Whole, c, b, skip), GlideSound(Parts, c, b, skip));
    }
  }

  lemma GlideByteStep(m: Machine, b: byte, skip: nat -> bool)
    requires GlideByte(m.core, b, skip).At? && m.nread < MAX_HEADER_SIZE
    ensures var c := GlideByte(m.core, b, skip).core;
            Step(m, b, skip)
            == Running(Onward(m, c, 1, GlideSound(Whole, m.core, b, skip), GlideSound(Parts, m.core, b, skip)))
  {
    hide React;
    var c := GlideByte(m.core, b, skip).core;
    assert Events([]) == [];
    assert forall ch :: [] + [] + Sound(ch, m.core.state, c.state, b) == Sound(ch, m.core.state, c.state, b);
  }

  lemma {:induction false} GlideOne(c: Core, b: byte, skip: nat -> bool)
    requires GlideByte(c, b, skip).At?
    ensures Glide(c, [b], skip) == GlideByte(c, b, skip)
    ensures forall ch :: Voices(ch, c, [b], skip) == Sound(ch, c.state, GlideByte(c, b, skip).core.state, b)
  {
    hide React;
    assert [b][..0] == [];
    assert Glide(c, [], skip) == At(c);
  }

  function Spoken(ch: Channel, s: State, data: seq<byte>): seq<Item> {
    match SpanOf(ch, s)
    case Silent => []
    case Speaks(k) => seq(|data|, i requires 0 <= i < |data| => Octet(k, data[i]))
  }

  /** A stretch of bytes that each leave the fields as they are. */
  lemma {:induction false} GlideStay(c: Core, data: seq<byte>, skip: nat -> bool)
    requires forall b :: b in data ==> GlideByte(c, b, skip) == At(c)
    ensures Glide(c, data, skip) == At(c)
    ensures forall ch :: Voices(ch, c, data, skip) == Spoken(ch, c.state, data)
    decreases |data|
  {
    hide React;
    if data != [] {
      var init, b := data[..|data| - 1], data[|data| - 1];
      assert init + [b] == data;
      GlideStay(c, init, skip);
      StayIsNoEnd(c, b, skip);
      forall ch
        ensures Voices(ch, c, data, skip) == Spoken(ch, c.state, data)
      {
        SpokenOneMore(ch, c.state, init, b);
      }
    }
  }

  /** The end of a value leads on. */
  lemma StayIsNoEnd(c: Core, b: byte, skip: nat -> bool)
    requires GlideByte(c, b, skip) == At(c)
    ensures !Empties(c.state, b)
  {
    hide React;
    if c.state.ValueStart? { ValueStartReaction(c, b, skip); }
  }

  lemma SpokenOneMore(ch: Channel, s: State, init: seq<byte>, b: byte)
    ensures Spoken(ch, s, init) + Voice(ch, s, b) == Spoken(ch, s, init + [b])
  {}

  /** Every byte leaves the parser in one state. */
  predicate Inside(c: Core, data: seq<byte>, s: State, skip: nat -> bool) {
    data == []
    || (Inside(c, data[..|data| - 1], s, skip) && Glide(c, data, skip).At? && Glide(c, data, skip).core.state == s)
  }

  lemma InsideIsNoEnd(c: Core, b: byte, skip: nat -> bool)
    requires GlideByte(c, b, skip).At?
    requires var s := GlideByte(c, b, skip).core.state; s.Field? || s.Value?
    ensures !Empties(c.state, b)
  {
    hide React;
    if c.state.ValueStart? { ValueStartReaction(c, b, skip); }
  }

  /** Such bytes are heard in its span. */
  lemma {:induction false} GlideWithin(c: Core, data: seq<byte>, s: State, skip: nat -> bool)
    requires Inside(c, data, s, skip) && (s.Field? || s.Value?)
    ensures forall ch :: Voices(ch, c, data, skip) == Spoken(ch, s, data)
    decreases |data|
  {
    hide React;
    if data != [] {
      var init, b := data[..|data| - 1], data[|data| - 1];
      assert init + [b] == data;
      GlideWithin(c, init, s, skip);
      InsideIsNoEnd(Glide(c, init, skip).core, b, skip);
      forall ch
        ensures Voices(ch, c, data, skip) == Spoken(ch, s, data)
      {
        SpokenOneMore(ch, s, init, b);
      }
    }
  }

  predicate Quiet(s: State) { SpanOf(Whole, s).Silent? && SpanOf(Parts, s).Silent? }

  /** A glide from c to d in which the channels hear w and q. */
  predicate Glides(c: Core, data: seq<byte>, d: Core, w: seq<Item>, q: seq<Item>, skip: nat -> bool) {
    Glide(c, data, skip) == At(d) && Voices(Whole, c, data, skip) == w && Voices(Parts, c, data, skip) == q
  }

  lemma EmptyGlides(c: Core, skip: nat -> bool)
    ensures Glides(c, [], c, [], [], skip)
  {}

  lemma ByteGlides(c: Core, b: byte, d: Core, skip: nat -> bool)
    requires GlideByte(c, b, skip) == At(d)
    ensures Glides(c, [b], d, Sound(Whole, c.state, d.state, b), Sound(Parts, c.state, d.state, b), skip)
  {
    hide React;
    GlideOne(c, b, skip);
  }

  lemma QuietByteGlides(c: Core, b: byte, d: Core, skip: nat -> bool)
    requires GlideByte(c, b, skip) == At(d) && Quiet(d.state) && !c.state.ValueStart?
    ensures Glides(c, [b], d, [], [], skip)
  {
    hide React;
    GlideOne(c, b, skip);
  }

  lemma {:induction false} GlidesOn(c: Core, a: seq<byte>, x: Core, w: seq<Item>, q: seq<Item>,
                                    b: seq<byte>, d: Core, w': seq<Item>, q': seq<Item>, skip: nat -> bool)
    requires Glides(c, a, x, w, q, skip) && Glides(x, b, d, w', q', skip)
    ensures Glides(c, a + b, d, w + w', q + q', skip)
  {
    hide React;
    GlideAppend(c, a, b, skip);
  }

  /** A silent stretch before, or after. */
  lemma {:induction false} GlidesOnSilently(c: Core, a: seq<byte>, x: Core, w: seq<Item>, q: seq<Item>,
                                            b: seq<byte>, d: Core, skip: nat -> bool)
    requires Glides(c, a, x, w, q, skip) && Glides(x, b, d, [], [], skip)
    ensures Glides(c, a + b, d, w, q, skip)
  {
    hide React;
    GlidesOn(c, a, x, w, q, b, d, [], [], skip);
    assert w + [] == w && q + [] == q;
  }

  lemma {:induction false} GlidesAfterSilence(c: Core, a: seq<byte>, x: Core, b: seq<byte>, d: Core,
                                              w: seq<Item>, q: seq<Item>, skip: nat -> bool)
    requires Glides(c, a, x, [], [], skip) && Glides(x, b, d, w, q, skip)
    ensures Glides(c, a + b, d, w, q, skip)
  {
    hide React;
    GlidesOn(c, a, x, [], [], b, d, w, q, skip);
    assert [] + w == w && [] + q == q;
  }

  lemma {:induction false} SilentGlideRun(m: Machine, data: seq<byte>, d: Core, skip: nat -> bool)
    requires Glides(m.core, data, d, [], [], skip) && m.nread + |data| <= MAX_HEADER_SIZE
    ensures Reaches(m, data, Moved(m, d, m.nread + |data|, |data|, []), skip)
  {
    hide React;
    GlideRun(m, data, skip);
  }
}
