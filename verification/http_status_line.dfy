/** Status lines (section 6.1 of RFC 2616): the version, the status code and the kind of the
    message are given back, for a response parser and for one of either kind. */
module HttpStatusLine {
  import opened HttpModel
  import opened HttpBytes
  import opened HttpRun
  import opened HttpGlide
  import opened HttpLines
  import opened HttpMessages
  import opened HttpRequestLine

  /** A status line, with `gap` more blanks than one before its code. */
  datatype StatusLine = StatusLine(major: seq<byte>, minor: seq<byte>, gap: nat, code: seq<byte>, reason: Part) {
    predicate Valid() {
      && IsNumber(major) && major[0] != '0' && IsNumber(minor) && IsNumber(code)
      && (reason.Present? ==> forall b :: b in reason.bytes ==> b != '\r' && b != '\n')
    }

    function VersionText(): seq<byte> { major + ("." + minor) }

    function Text(e: seq<byte>): seq<byte> {
      "HTTP/" + (VersionText() + (" " + (Spaces(gap) + (code + (reason.Text(' ') + e)))))
    }
  }

  predicate AwaitsResponse(c: Core) { (c.state.StartRes? && c.kind.Response?) || c.state.StartReqOrRes? }

  // Bytes of the line.

  /** A byte that leads silently from one state to another. */
  lemma StatusByteGlides(c: Core, b: byte, d: Core, skip: nat -> bool)
    requires InStatusLine(c.state) && OnStatusLine(c, b) == To(d, d.state) && Quiet(d.state)
    ensures Glides(c, [b], d, [], [], skip)
  {
    hide React, OnStatusLine;
    StatusLineReaction(c, b, skip);
    QuietByteGlides(c, b, d, skip);
  }

  /** Where a byte leads that is neither a digit nor part of the reason. */
  predicate Marks(s: State, b: byte, next: State) {
    match s
    case ResHT => b == 'T' && next == ResHTT
    case ResHTT => b == 'P' && next == ResHTTP
    case ResHTTP => b == '/' && next == ResFirstMajor
    case ResMajor => b == '.' && next == ResFirstMinor
    case ResMinor => b == ' ' && next == ResFirstStatus
    case ResLineAlmostDone => b == '\n' && next == FieldStart
    case _ =>
      && (s.ResStatusCode? || s.ResStatus?)
      && ((b == '\r' && next == ResLineAlmostDone) || (b == '\n' && next == FieldStart)
          || (b == ' ' && next == ResStatus))
  }

  lemma MarkByteGlides(c: Core, b: byte, next: State, skip: nat -> bool)
    requires Marks(c.state, b, next)
    ensures Glides(c, [b], c.(state := next), [], [], skip)
  {
    hide React, Glides, OnNextDigit, Shifted;
    StatusByteGlides(c, b, c.(state := next), skip);
  }

  lemma {:induction false} SlashGlides(c: Core, skip: nat -> bool)
    requires c.state.ResHT?
    ensures Glides(c, "TP/", c.(state := ResFirstMajor), [], [], skip)
  {
    hide React, Glides;
    var x, y := c.(state := ResHTT), c.(state := ResHTTP);
    MarkByteGlides(c, 'T', ResHTT, skip);
    MarkByteGlides(x, 'P', ResHTTP, skip);
    MarkByteGlides(y, '/', ResFirstMajor, skip);
    assert "TP/" == "T" + ("P" + "/");
    GlidesOnSilently(x, "P", y, [], [], "/", c.(state := ResFirstMajor), skip);
    GlidesOnSilently(c, "T", x, [], [], "P" + "/", c.(state := ResFirstMajor), skip);
  }

  lemma FirstDigits(c: Core, b: byte, skip: nat -> bool)
    requires IsNumeral(b)
    ensures c.state.ResFirstMajor? && b != '0' ==>
              Glides(c, [b], c.(state := ResMajor, major := Number([b])), [], [], skip)
    ensures c.state.ResFirstMinor? ==> Glides(c, [b], c.(state := ResMinor, minor := Number([b])), [], [], skip)
    ensures c.state.ResFirstStatus? ==> Glides(c, [b], c.(state := ResStatusCode, status := Number([b])), [], [], skip)
  {
    hide React, Glides;
    NumeralTable(b);
    assert [b][..0] == [] && Number([]) == 0;
    if c.state.ResFirstMajor? && b != '0' {
      StatusByteGlides(c, b, c.(state := ResMajor, major := Number([b])), skip);
    }
    if c.state.ResFirstMinor? { StatusByteGlides(c, b, c.(state := ResMinor, minor := Number([b])), skip); }
    if c.state.ResFirstStatus? { StatusByteGlides(c, b, c.(state := ResStatusCode, status := Number([b])), skip); }
  }

  lemma NextDigits(c: Core, b: byte, n: nat, skip: nat -> bool)
    requires IsNumeral(b) && n <= 999
    ensures c.state.ResMajor? && n == c.major * 10 + (b as int - 48) % 10 ==>
              Glides(c, [b], c.(major := n), [], [], skip)
    ensures c.state.ResMinor? && n == c.minor * 10 + (b as int - 48) % 10 ==>
              Glides(c, [b], c.(minor := n), [], [], skip)
    ensures c.state.ResStatusCode? && n == c.status * 10 + (b as int - 48) % 10 ==>
              Glides(c, [b], c.(status := n), [], [], skip)
  {
    hide React, Glides;
    NumeralTable(b);
    if c.state.ResMajor? && n == c.major * 10 + (b as int - 48) % 10 { StatusByteGlides(c, b, c.(major := n), skip); }
    if c.state.ResMinor? && n == c.minor * 10 + (b as int - 48) % 10 { StatusByteGlides(c, b, c.(minor := n), skip); }
    if c.state.ResStatusCode? && n == c.status * 10 + (b as int - 48) % 10 {
      StatusByteGlides(c, b, c.(status := n), skip);
    }
  }

  /** The fields while a number is read. */
  function WithNumber(c: Core, s: State, n: nat): Core {
    match s
    case ResMajor => c.(state := s, major := n)
    case ResMinor => c.(state := s, minor := n)
    case _ => c.(state := s, status := n)
  }

  /** The states before the first digit of a number and after it. */
  predicate Opens(first: State, next: State) {
    (first.ResFirstMajor? && next.ResMajor?) || (first.ResFirstMinor? && next.ResMinor?)
    || (first.ResFirstStatus? && next.ResStatusCode?)
  }

  lemma {:induction false} NumeralGlides(c: Core, s: seq<byte>, next: State, skip: nat -> bool)
    requires Opens(c.state, next) && IsNumber(s) && (next.ResMajor? ==> s[0] != '0')
    ensures Glides(c, s, WithNumber(c, next, Number(s)), [], [], skip)
    decreases |s|
  {
    hide React, Glides;
    if |s| == 1 {
      assert s == [s[0]];
      FirstDigits(c, s[0], skip);
    } else {
      var init, b := s[..|s| - 1], s[|s| - 1];
      NumberInit(s);
      var x := WithNumber(c, next, Number(init));
      NumeralGlides(c, init, next, skip);
      NextDigits(x, b, Number(s), skip);
      GlidesOnSilently(c, init, x, [], [], [b], WithNumber(c, next, Number(s)), skip);
    }
  }

  lemma {:induction false} VersionNumbersGlide(c: Core, line: StatusLine, skip: nat -> bool)
    requires c.state.ResFirstMajor? && line.Valid()
    ensures Glides(c, line.VersionText(),
                   c.(state := ResMinor, major := Number(line.major), minor := Number(line.minor)), [], [], skip)
  {
    hide React, Glides, Number, IsNumber;
    var x := c.(state := ResMajor, major := Number(line.major));
    var y := x.(state := ResFirstMinor);
    var z := c.(state := ResMinor, major := Number(line.major), minor := Number(line.minor));
    NumeralGlides(c, line.major, ResMajor, skip);
    MarkByteGlides(x, '.', ResFirstMinor, skip);
    NumeralGlides(y, line.minor, ResMinor, skip);
    GlidesOnSilently(x, ".", y, [], [], line.minor, z, skip);
    GlidesOnSilently(c, line.major, x, [], [], "." + line.minor, z, skip);
  }

  /** Blanks before the status code. */
  lemma {:induction false} CodeBlanksGlide(c: Core, n: nat, skip: nat -> bool)
    requires c.state.ResFirstStatus?
    ensures Glides(c, Spaces(n), c, [], [], skip)
  {
    hide React;
    StatusLineReaction(c, ' ', skip);
    GlideStay(c, Spaces(n), skip);
  }

  lemma {:induction false} CodeGlides(c: Core, line: StatusLine, skip: nat -> bool)
    requires c.state.ResMinor? && line.Valid()
    ensures Glides(c, " " + (Spaces(line.gap) + line.code), c.(state := ResStatusCode, status := Number(line.code)),
                   [], [], skip)
  {
    hide React, Glides, Number, IsNumber;
    var x, d := c.(state := ResFirstStatus), c.(state := ResStatusCode, status := Number(line.code));
    MarkByteGlides(c, ' ', ResFirstStatus, skip);
    CodeBlanksGlide(x, line.gap, skip);
    NumeralGlides(x, line.code, ResStatusCode, skip);
    GlidesOnSilently(x, Spaces(line.gap), x, [], [], line.code, d, skip);
    GlidesOnSilently(c, " ", x, [], [], Spaces(line.gap) + line.code, d, skip);
  }

  lemma {:induction false} ReasonBytesGlide(c: Core, s: seq<byte>, skip: nat -> bool)
    requires c.state.ResStatus? && forall b :: b in s ==> b != '\r' && b != '\n'
    ensures Glides(c, s, c, [], [], skip)
  {
    hide React;
    forall b | b in s ensures GlideByte(c, b, skip) == At(c) { StatusLineReaction(c, b, skip); }
    GlideStay(c, s, skip);
  }

  lemma {:induction false} ReasonGlides(c: Core, reason: Part, skip: nat -> bool)
    requires c.state.ResStatusCode?
    requires reason.Present? ==> forall b :: b in reason.bytes ==> b != '\r' && b != '\n'
    ensures Glides(c, reason.Text(' '), c.(state := if reason.Present? then ResStatus else ResStatusCode), [], [], skip)
  {
    hide React, Glides;
    if reason.Absent? {
      EmptyGlides(c, skip);
    } else {
      var x := c.(state := ResStatus);
      MarkByteGlides(c, ' ', ResStatus, skip);
      ReasonBytesGlide(x, reason.bytes, skip);
      GlidesOnSilently(c, [' '], x, [], [], reason.bytes, x, skip);
    }
  }

  lemma {:induction false} StatusEndGlides(c: Core, e: seq<byte>, skip: nat -> bool)
    requires (c.state.ResStatusCode? || c.state.ResStatus?) && IsLineEnd(e)
    ensures Glides(c, e, c.(state := FieldStart), [], [], skip)
  {
    hide React, Glides;
    if e == "\n" {
      MarkByteGlides(c, '\n', FieldStart, skip);
    } else {
      var x := c.(state := ResLineAlmostDone);
      MarkByteGlides(c, '\r', ResLineAlmostDone, skip);
      MarkByteGlides(x, '\n', FieldStart, skip);
      assert "\r" + "\n" == e;
      GlidesOnSilently(c, "\r", x, [], [], "\n", c.(state := FieldStart), skip);
    }
  }

  /** The fields after a status line. */
  function Answered(c: Core, line: StatusLine): Core {
    c.(state := FieldStart, major := Number(line.major), minor := Number(line.minor), status := Number(line.code))
  }

  /** From the status code to the end of the line. */
  lemma {:induction false} CodeToEndGlides(c: Core, line: StatusLine, e: seq<byte>, skip: nat -> bool)
    requires c.state.ResMinor? && line.Valid() && IsLineEnd(e)
    ensures Glides(c, " " + (Spaces(line.gap) + (line.code + (line.reason.Text(' ') + e))),
                   c.(state := FieldStart, status := Number(line.code)), [], [], skip)
  {
    hide React, Glides, Number, IsNumber;
    var x := c.(state := ResStatusCode, status := Number(line.code));
    var y := x.(state := if line.reason.Present? then ResStatus else ResStatusCode);
    var z := x.(state := FieldStart);
    CodeGlides(c, line, skip);
    ReasonGlides(x, line.reason, skip);
    StatusEndGlides(y, e, skip);
    GlidesOnSilently(x, line.reason.Text(' '), y, [], [], e, z, skip);
    var text := " " + (Spaces(line.gap) + line.code);
    GlidesOnSilently(c, text, x, [], [], line.reason.Text(' ') + e, z, skip);
    assert text + (line.reason.Text(' ') + e) == " " + (Spaces(line.gap) + (line.code + (line.reason.Text(' ') + e)));
  }

  /** What follows "HT". */
  lemma {:induction false} AfterHtGlides(c: Core, line: StatusLine, e: seq<byte>, skip: nat -> bool)
    requires c.state.ResHT? && line.Valid() && IsLineEnd(e)
    ensures |line.Text(e)| > 2 && line.Text(e)[..2] == "HT"
    ensures Glides(c, line.Text(e)[2..], Answered(c, line), [], [], skip)
  {
    hide React, Glides, Number, IsNumber;
    var x := c.(state := ResFirstMajor);
    var y := c.(state := ResMinor, major := Number(line.major), minor := Number(line.minor));
    var rest := " " + (Spaces(line.gap) + (line.code + (line.reason.Text(' ') + e)));
    SlashGlides(c, skip);
    VersionNumbersGlide(x, line, skip);
    CodeToEndGlides(y, line, e, skip);
    GlidesOnSilently(x, line.VersionText(), y, [], [], rest, Answered(c, line), skip);
    GlidesOnSilently(c, "TP/", x, [], [], line.VersionText() + rest, Answered(c, line), skip);
    assert "HTTP/" == "HT" + "TP/" && line.Text(e) == "HT" + ("TP/" + (line.VersionText() + rest));
  }

  // The line.

  /** The fields after the first two bytes. */
  function Greeted(c: Core): Core { Fresh(c).(kind := Response, state := ResHT) }

  /** The fields after the first byte. */
  function Hailed(c: Core): Core { Fresh(c).(state := if c.state.StartRes? then ResH else ResOrRespH) }

  lemma FirstByteHails(c: Core, skip: nat -> bool)
    requires AwaitsResponse(c)
    ensures React(c, 'H', skip) == Go(Hailed(c), [MessageBegin], false) && Quiet(Hailed(c).state)
  {
    hide React;
    StartReaction(c, 'H', skip);
  }

  lemma SecondByteGlides(c: Core, skip: nat -> bool)
    requires AwaitsResponse(c)
    ensures Glides(Hailed(c), "T", Greeted(c), [], [], skip)
  {
    hide React, Glides;
    var x := Hailed(c);
    if c.state.StartRes? {
      StatusByteGlides(x, 'T', Greeted(c), skip);
    } else {
      StartReaction(x, 'T', skip);
      QuietByteGlides(x, 'T', Greeted(c), skip);
    }
  }

  lemma {:induction false} AfterFirstGlides(c: Core, line: StatusLine, e: seq<byte>, skip: nat -> bool)
    returns (rest: seq<byte>)
    requires AwaitsResponse(c) && line.Valid() && IsLineEnd(e)
    ensures line.Text(e) == ['H'] + rest && Glides(Hailed(c), rest, Answered(Greeted(c), line), [], [], skip)
  {
    hide React, Glides, Number, IsNumber, Hailed, Answered, AwaitsResponse;
    AfterHtGlides(Greeted(c), line, e, skip);
    SecondByteGlides(c, skip);
    var tail := line.Text(e)[2..];
    GlidesOnSilently(Hailed(c), "T", Greeted(c), [], [], tail, Answered(Greeted(c), line), skip);
    rest := "T" + tail;
    assert line.Text(e) == line.Text(e)[..2] + tail && "HT" == "H" + "T";
  }

  lemma {:induction false} FirstByteRun(m: Machine, skip: nat -> bool)
    requires AwaitsResponse(m.core) && m.nread < MAX_HEADER_SIZE
    ensures Reaches(m, ['H'], Onward(m, Hailed(m.core), 1, BEGIN, BEGIN), skip)
  {
    hide React, Onward, Hailed;
    FirstByteHails(m.core, skip);
    BeginStep(m, 'H', Hailed(m.core), skip);
    RunByte(m, 'H', skip);
  }

  /** The round trip: a printed status line gives back its version and its code, after one
      message_begin, and the message is a response; no other callback hears any of it, and
      nothing is left of the message before. */
  lemma {:induction false} StatusLineRoundTrip(m: Machine, line: StatusLine, e: seq<byte>, skip: nat -> bool)
    returns (d: Core)
    requires AwaitsResponse(m.core) && line.Valid() && IsLineEnd(e) && m.nread + |line.Text(e)| <= MAX_HEADER_SIZE
    ensures d.status == Number(line.code) && d.major == Number(line.major) && d.minor == Number(line.minor)
    ensures d.kind.Response? && d.state.FieldStart? && d.flags == {} && d.contentLength == 0xFFFF_FFFF_FFFF_FFFF
    ensures d.verb == m.core.verb && d.upgrade == m.core.upgrade && d.answered == m.core.answered
    ensures Reaches(m, line.Text(e), Moved(m, d, m.nread + |line.Text(e)|, |line.Text(e)|, [Event(MessageBegin)]), skip)
  {
    hide React, Glides, Number, IsNumber, Hailed;
    d := Answered(Greeted(m.core), line);
    var rest := AfterFirstGlides(m.core, line, e, skip);
    hide Greeted, Answered, Reaches;
    FirstByteRun(m, skip);
    FirstThenGlide(m, 'H', Hailed(m.core), rest, d, [], [], skip);
    assert BEGIN + [] == [Event(MessageBegin)];
  }

  // Blank lines before a response.

  /** Blank lines before a status line: each of their bytes is heard as another beginning
      by a response parser. */
  lemma {:induction false} BlankLinesBegin(m: Machine, s: seq<byte>, skip: nat -> bool) returns (d: Core)
    requires m.core.state.StartRes? && (forall b :: b in s ==> b == '\r' || b == '\n')
    requires m.nread + |s| <= MAX_HEADER_SIZE
    ensures d == if s == [] then m.core else m.core.(flags := {}, contentLength := 0xFFFF_FFFF_FFFF_FFFF)
    ensures Reaches(m, s, Moved(m, d, m.nread + |s|, |s|, Begins(|s|)), skip)
    decreases |s|
  {
    hide React, Reaches, Begins;
    if s == [] {
      d := m.core;
      NothingBegins(m, skip);
    } else {
      var init, b := s[..|s| - 1], s[|s| - 1];
      assert init + [b] == s && b in s && forall x :: x in init ==> x in s;
      var c := BlankLinesBegin(m, init, skip);
      d := Fresh(c);
      BlankByteBegins(Moved(m, c, m.nread + |init|, |init|, Begins(|init|)), b, skip);
      MovesOn(m, init, c, m.nread + |init|, Begins(|init|), [b], d, m.nread + |s|, BEGIN, skip);
      OneMoreBegins(|init|);
    }
  }

  function Begins(n: nat): seq<Item> { seq(n, i => Event(MessageBegin)) }

  lemma OneMoreBegins(n: nat)
    ensures Begins(n) + BEGIN == Begins(n + 1)
  {}

  lemma NothingBegins(m: Machine, skip: nat -> bool)
    ensures Reaches(m, [], Moved(m, m.core, m.nread, 0, Begins(0)), skip)
  {
    assert Begins(0) == [] && m.whole + [] == m.whole && m.parts + [] == m.parts;
  }

  lemma {:induction false} BlankByteBegins(m: Machine, b: byte, skip: nat -> bool)
    requires m.core.state.StartRes? && (b == '\r' || b == '\n') && m.nread < MAX_HEADER_SIZE
    ensures Reaches(m, [b], Moved(m, Fresh(m.core), m.nread + 1, 1, BEGIN), skip)
  {
    hide React;
    StartReaction(m.core, b, skip);
    BeginStep(m, b, Fresh(m.core), skip);
    RunByte(m, b, skip);
  }

  /** Blank lines before a request, or where either may come, are silent. */
  lemma {:induction false} BlankLinesGlide(c: Core, s: seq<byte>, skip: nat -> bool)
    requires (c.state.StartReq? || c.state.StartReqOrRes?) && forall b :: b in s ==> b == '\r' || b == '\n'
    ensures Glides(c, s, c, [], [], skip)
  {
    hide React;
    StartReaction(c, '\r', skip);
    StartReaction(c, '\n', skip);
    GlideStay(c, s, skip);
  }
}
