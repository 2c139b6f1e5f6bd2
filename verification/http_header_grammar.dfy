/** What the parser takes for a header line: a name, a colon and a value, which for a length
    is digits and blanks, or a name alone. */
module HttpHeaderGrammar {
  import opened HttpModel
  import opened HttpBytes
  import opened HttpRun
  import opened HttpInvariant
  import opened HttpGlide
  import opened HttpLines
  import opened HttpMessages
  import opened HttpGrammar

  // Lines without a colon.

  lemma {:induction false} NameGlides(c: Core, name: seq<byte>, skip: nat -> bool) returns (x: Core)
    requires c.state.FieldStart? && IsName(name)
    ensures x == c.(state := Field, headerState := x.headerState, index := x.index) && NamesField(x.headerState)
    ensures Glides(c, name, x, Octets(FieldData, name), Octets(FieldData, name), skip)
  {
    hide React, Matched, Glide, Voices;
    GlideName(c, name, skip);
    NameHeard(c, name, skip);
    MatchedKnows(LowerCase(name));
    SpokenIsOctets(name);
    var (h, i) := Matched(LowerCase(name));
    x := c.(state := Field, headerState := h, index := i);
  }

  /** A name that ends its line is heard, and sets nothing. */
  lemma {:induction false} BareLine(c: Core, name: seq<byte>, e: seq<byte>, skip: nat -> bool) returns (d: Core)
    requires c.state.FieldStart? && IsName(name) && IsLineEnd(e)
    ensures d == c.(headerState := d.headerState, index := d.index)
    ensures Glides(c, name + e, d, Octets(FieldData, name), Octets(FieldData, name), skip)
  {
    hide React, Glides;
    var x := NameGlides(c, name, skip);
    d := x.(state := FieldStart);
    NameEndGlides(x, e, skip);
    GlidesOnSilently(c, name, x, Octets(FieldData, name), Octets(FieldData, name), e, d, skip);
  }

  lemma NameFeedGlides(c: Core, skip: nat -> bool)
    requires c.state.Field?
    ensures Glides(c, "\n", c.(state := FieldStart), [], [], skip)
  {
    hide React, Glides, NextFieldState;
    FieldReaction(c, '\n', skip);
    QuietByteGlides(c, '\n', c.(state := FieldStart), skip);
  }

  lemma NameReturnGlides(c: Core, skip: nat -> bool)
    requires c.state.Field?
    ensures Glides(c, "\r", c.(state := HeaderAlmostDone), [], [], skip)
  {
    hide React, Glides, NextFieldState;
    FieldReaction(c, '\r', skip);
    QuietByteGlides(c, '\r', c.(state := HeaderAlmostDone), skip);
  }

  lemma LastFeedGlides(c: Core, skip: nat -> bool)
    requires c.state.HeaderAlmostDone? && NamesField(c.headerState)
    ensures Glides(c, "\n", c.(state := FieldStart), [], [], skip)
  {
    hide React, Glides;
    HeaderDoneReaction(c, '\n', skip);
    assert c.flags + {} == c.flags;
    QuietByteGlides(c, '\n', c.(state := FieldStart), skip);
  }

  lemma {:induction false} NameEndGlides(c: Core, e: seq<byte>, skip: nat -> bool)
    requires c.state.Field? && NamesField(c.headerState) && IsLineEnd(e)
    ensures Glides(c, e, c.(state := FieldStart), [], [], skip)
  {
    hide React, Glides;
    if e == "\n" {
      NameFeedGlides(c, skip);
    } else {
      NameReturnGlides(c, skip);
      LastFeedGlides(c.(state := HeaderAlmostDone), skip);
      assert "\r" + "\n" == e;
      GlidesOnSilently(c, "\r", c.(state := HeaderAlmostDone), [], [], "\n", c.(state := FieldStart), skip);
    }
  }

  // What has been read of a line.

  predicate IsLength(name: seq<byte>) { TrimRight(LowerCase(name)) == "content-length" }

  /** A name, a colon, and part of a value; k is the place of the colon. */
  predicate NamedValue(text: seq<byte>, k: nat) {
    && k < |text| && IsName(text[..k]) && text[k] == ':' && IsValue(text[k + 1..])
    && (IsLength(text[..k]) ==> IsLengthText(text[k + 1..]))
  }

  /** A whole line without its end. */
  predicate LineBody(text: seq<byte>, k: nat) { IsName(text) || NamedValue(text, k) }

  predicate ReadsField(c: Core, text: seq<byte>, k: nat) {
    match c.state
    case Field => IsName(text) && (c.headerState.IsContentLength? <==> IsLength(text))
    case ValueStart => NamedValue(text, k) && (c.headerState.IsContentLength? <==> IsLength(text[..k]))
    case Value => NamedValue(text, k) && (c.headerState.IsContentLength? <==> IsLength(text[..k]))
    case HeaderAlmostDone => text != [] && text[|text| - 1] == '\r' && LineBody(text[..|text| - 1], k)
    case _ => false
  }

  /** A header line with its end. */
  predicate IsFieldLine(text: seq<byte>, k: nat) {
    && text != [] && text[|text| - 1] == '\n'
    && (LineBody(text[..|text| - 1], k)
        || (|text| > 1 && text[|text| - 2] == '\r' && LineBody(text[..|text| - 2], k)))
  }

  lemma ValueOneMore(text: seq<byte>, k: nat, b: byte)
    requires NamedValue(text, k) && b != '\r' && b != '\n' && (IsLength(text[..k]) ==> IsNumeral(b) || b == ' ')
    ensures NamedValue(text + [b], k) && (text + [b])[..k] == text[..k]
  {
    assert (text + [b])[..k] == text[..k] && (text + [b])[k + 1..] == text[k + 1..] + [b];
  }

  lemma ColonRead(text: seq<byte>)
    requires IsName(text)
    ensures NamedValue(text + [':'], |text|) && (text + [':'])[..|text|] == text
  {
    assert (text + [':'])[..|text|] == text && (text + [':'])[|text| + 1..] == [];
  }

  lemma ReturnRead(text: seq<byte>, k: nat)
    requires LineBody(text, k)
    ensures (text + ['\r'])[..|text|] == text
  {}

  lemma FeedRead(text: seq<byte>, k: nat)
    requires LineBody(text, k) || (text != [] && text[|text| - 1] == '\r' && LineBody(text[..|text| - 1], k))
    ensures IsFieldLine(text + ['\n'], k)
  {
    hide LineBody;
    var all := text + ['\n'];
    assert all[..|all| - 1] == text && (text != [] ==> all[..|all| - 2] == text[..|text| - 1]);
  }

  /** What a byte makes of a line. */
  predicate FieldOn(d: Core, text: seq<byte>, k: nat) {
    if d.state.FieldStart? then IsFieldLine(text, k) else ReadsField(d, text, k)
  }

  lemma ValueStartAdvances(c: Core, text: seq<byte>, b: byte, d: Core, k: nat)
    requires c.state.ValueStart? && ReadsField(c, text, k) && OnValueStart(c, b) == Go(d, [], false)
    ensures FieldOn(d, text + [b], k)
  {
    hide NamedValue, IsFieldLine, IsLength, Lower;
    if b == '\n' {
      FeedRead(text, k);
    } else if b == '\r' {
      ReturnRead(text, k);
    } else {
      ValueOneMore(text, k, b);
    }
  }

  lemma ValueAdvances(c: Core, text: seq<byte>, b: byte, d: Core, k: nat)
    requires c.state.Value? && ReadsField(c, text, k) && OnValue(c, b) == Go(d, [], false)
    ensures FieldOn(d, text + [b], k)
  {
    hide NamedValue, IsFieldLine, IsLength, Lower;
    if b == '\n' {
      FeedRead(text, k);
    } else if b == '\r' {
      ReturnRead(text, k);
    } else {
      ValueOneMore(text, k, b);
    }
  }

  /** The matcher knows a length by its name. */
  lemma LengthRecognized(c: Core, name: seq<byte>, skip: nat -> bool)
    requires c.state.FieldStart? && IsName(name)
    ensures Glide(c, name, skip).At? && ReadsField(Glide(c, name, skip).core, name, |name|)
  {
    hide React, Glide, Matched;
    GlideName(c, name, skip);
    NameIsRecognized(LowerCase(name));
  }

  lemma {:induction false} FieldAdvances(c0: Core, text: seq<byte>, b: byte, k: nat, skip: nat -> bool)
    returns (k': nat)
    requires c0.state.FieldStart? && text != [] && Glide(c0, text + [b], skip).At? && Glide(c0, text, skip).At?
    requires var c := Glide(c0, text, skip).core; c.state.Field? && ReadsField(c, text, k)
    ensures FieldOn(Glide(c0, text + [b], skip).core, text + [b], k')
  {
    hide React, NamedValue, IsFieldLine, IsLength, NameByte;
    var c, d := Glide(c0, text, skip).core, Glide(c0, text + [b], skip).core;
    GlideAppend(c0, text, [b], skip);
    GlideOne(c, b, skip);
    FieldReaction(c, b, skip);
    NameTable(b);
    hide Token, Glide;
    k' := |text|;
    if NameByte(b) {
      LengthRecognized(c0, text + [b], skip);
    } else if b == ':' {
      ColonRead(text);
    } else if b == '\r' {
      ReturnRead(text, k');
    } else {
      FeedRead(text, k');
    }
  }

  lemma EndAdvancesField(c: Core, text: seq<byte>, b: byte, d: Core, k: nat)
    requires c.state.HeaderAlmostDone? && ReadsField(c, text, k) && OnHeaderDone(c, b) == Go(d, [], false)
    ensures FieldOn(d, text + [b], k)
  {
    hide LineBody, IsFieldLine;
    FeedRead(text, k);
  }

  lemma {:induction false} FirstFieldByte(c: Core, b: byte, skip: nat -> bool)
    requires c.state.FieldStart? && b != '\r' && b != '\n' && GlideByte(c, b, skip).At?
    ensures IsName([b])
  {
    hide React, NameByte;
    FieldReaction(c, b, skip);
    NameTable(b);
  }

  lemma {:induction false} MoreAdvances(c0: Core, text: seq<byte>, b: byte, k: nat, skip: nat -> bool) returns (k': nat)
    requires c0.state.FieldStart? && text != [] && Glide(c0, text + [b], skip).At? && Glide(c0, text, skip).At?
    requires ReadsField(Glide(c0, text, skip).core, text, k)
    ensures FieldOn(Glide(c0, text + [b], skip).core, text + [b], k')
  {
    var c, d := Glide(c0, text, skip).core, Glide(c0, text + [b], skip).core;
    assert GlideByte(c, b, skip) == At(d) by {
      hide React;
      GlideAppend(c0, text, [b], skip);
      GlideOne(c, b, skip);
    }
    hide React, Glide, NamedValue, IsFieldLine, IsLength, OnValueStart, OnValue, OnHeaderDone, OnField, FieldOn;
    k' := k;
    if c.state.Field? {
      k' := FieldAdvances(c0, text, b, k, skip);
    } else if c.state.ValueStart? {
      ValueStartReaction(c, b, skip);
      ValueStartAdvances(c, text, b, d, k);
    } else if c.state.Value? {
      ValueReaction(c, b, skip);
      ValueAdvances(c, text, b, d, k);
    } else {
      HeaderDoneReaction(c, b, skip);
      EndAdvancesField(c, text, b, d, k);
    }
  }

  lemma {:induction false} PartOfField(c: Core, data: seq<byte>, skip: nat -> bool) returns (k: nat)
    requires c.state.FieldStart? && Glide(c, data, skip).At? && data != [] && data[0] != '\r' && '\n' !in data
    ensures ReadsField(Glide(c, data, skip).core, data, k)
    decreases |data|
  {
    hide React, GlideByte, NamedValue, IsFieldLine, IsLength, IsName;
    var init, b := data[..|data| - 1], data[|data| - 1];
    assert init + [b] == data;
    if init == [] {
      assert data == [b] && Glide(c, [], skip) == At(c);
      FirstFieldByte(c, b, skip);
      LengthRecognized(c, data, skip);
      k := |data|;
    } else {
      k := PartOfField(c, init, skip);
      k := MoreAdvances(c, init, b, k, skip);
      if Glide(c, data, skip).core.state.FieldStart? { FieldLineEnds(data, k); }
    }
  }

  lemma FieldLineEnds(text: seq<byte>, k: nat)
    requires IsFieldLine(text, k)
    ensures text != [] && text[|text| - 1] == '\n'
  {}

  lemma {:induction false} TakenIsField(c: Core, data: seq<byte>, skip: nat -> bool) returns (k: nat)
    requires c.state.FieldStart? && OneLine(data) && data[0] != '\r' && data[0] != '\n' && TakesLine(c, data, skip)
    ensures IsFieldLine(data, k)
  {
    hide React, GlideByte, NamedValue, IsFieldLine, IsLength, IsName;
    var init, b := data[..|data| - 1], data[|data| - 1];
    assert init + [b] == data;
    k := PartOfField(c, init, skip);
    k := MoreAdvances(c, init, b, k, skip);
  }

  lemma {:induction false} FieldIsTaken(c: Core, data: seq<byte>, k: nat, skip: nat -> bool)
    requires c.state.FieldStart? && IsFieldLine(data, k)
    ensures TakesLine(c, data, skip)
  {
    hide React, LineBody, TakesLine;
    var e := if LineBody(data[..|data| - 1], k) then "\n" else "\r\n";
    assert data == data[..|data| - |e|] + e;
    BodyIsTaken(c, data[..|data| - |e|], e, k, skip);
  }

  lemma {:induction false} BodyIsTaken(c: Core, body: seq<byte>, e: seq<byte>, k: nat, skip: nat -> bool)
    requires c.state.FieldStart? && LineBody(body, k) && IsLineEnd(e)
    ensures TakesLine(c, body + e, skip)
  {
    hide React, IsName, IsValue, IsLengthText, LineDone, IsLineEnd, NameState, IsLength, LineFlags, LineLength;
    hide Spoken, Valued, Octets, TrimLeft, LowerCase;
    if IsName(body) {
      var d := BareLine(c, body, e, skip);
    } else {
      assert body == body[..k] + [':'] + body[k + 1..];
      NamedIsTaken(c, body[..k], body[k + 1..], e, skip);
      assert body + e == body[..k] + [':'] + (body[k + 1..] + e);
    }
  }

  lemma {:induction false} NamedIsTaken(c: Core, name: seq<byte>, v: seq<byte>, e: seq<byte>, skip: nat -> bool)
    requires c.state.FieldStart? && IsName(name) && IsValue(v) && IsLineEnd(e)
    requires IsLength(name) ==> IsLengthText(v)
    ensures TakesLine(c, name + [':'] + (v + e), skip)
  {
    hide React, IsName, IsValue, IsLengthText, LineDone, IsLineEnd, NameState, IsLength, LineFlags, LineLength;
    hide Spoken, Valued, Octets, TrimLeft, LowerCase, Glide, Voices;
    LengthIsLength(name);
    var d := HeaderLine(c, name, v, e, skip);
    DoneAtStart(c, name, v, d);
  }

  lemma LengthIsLength(name: seq<byte>)
    ensures NameState(LowerCase(name)).IsContentLength? <==> IsLength(name)
  {}

  lemma DoneAtStart(c: Core, name: seq<byte>, v: seq<byte>, d: Core)
    requires LineDone(c, NameState(LowerCase(name)), v, d)
    ensures d.state.FieldStart?
  {}

  /** The language of header lines: of the texts with one line feed, at the end, that do not
      begin a blank line, exactly those are taken that are a name, or a name, a colon and a
      value, which is of digits and blanks if the name is that of a length. */
  lemma {:induction false} HeaderLineExactly(c: Core, data: seq<byte>, skip: nat -> bool)
    requires c.state.FieldStart? && OneLine(data) && data[0] != '\r' && data[0] != '\n'
    ensures TakesLine(c, data, skip) <==> exists k: nat :: IsFieldLine(data, k)
  {
    hide React, Glide, IsFieldLine, TakesLine;
    if TakesLine(c, data, skip) {
      var k := TakenIsField(c, data, skip);
    } else if k: nat :| IsFieldLine(data, k) {
      FieldIsTaken(c, data, k, skip);
    }
  }
}
