/** What the parser takes for a status line: exactly what StatusLine prints. */
module HttpStatusGrammar {
  import opened HttpModel
  import opened HttpBytes
  import opened HttpRun
  import opened HttpGlide
  import opened HttpLines
  import opened HttpRequestLine
  import opened HttpGrammar
  import opened HttpStatusLine

  // What has been read, state by state.

  function MajorRead(l: StatusLine): seq<byte> { "HTTP/" + l.major }

  function MinorRead(l: StatusLine): seq<byte> { MajorRead(l) + "." + l.minor }

  function CodeRead(l: StatusLine): seq<byte> { MinorRead(l) + " " + Spaces(l.gap) + l.code }

  function WholeRead(l: StatusLine): seq<byte> { CodeRead(l) + l.reason.Text(' ') }

  predicate IsMajor(l: StatusLine) { IsNumber(l.major) && l.major[0] != '0' }

  predicate ReadsStatus(c: Core, l: StatusLine, text: seq<byte>) {
    match c.state
    case ResH => text == "H"
    case ResHT => text == "HT"
    case ResHTT => text == "HTT"
    case ResHTTP => text == "HTTP"
    case ResFirstMajor => text == "HTTP/"
    case ResMajor => IsMajor(l) && c.major == Number(l.major) && text == MajorRead(l)
    case ResFirstMinor => IsMajor(l) && text == MajorRead(l) + "."
    case ResMinor => IsMajor(l) && IsNumber(l.minor) && c.minor == Number(l.minor) && text == MinorRead(l)
    case ResFirstStatus => IsMajor(l) && IsNumber(l.minor) && text == MinorRead(l) + " " + Spaces(l.gap)
    case ResStatusCode => l.Valid() && l.reason.Absent? && c.status == Number(l.code) && text == WholeRead(l)
    case ResStatus => l.Valid() && l.reason.Present? && text == WholeRead(l)
    case ResLineAlmostDone => l.Valid() && text == WholeRead(l) + "\r"
    case _ => false
  }

  predicate IsStatusLine(text: seq<byte>, l: StatusLine) {
    l.Valid() && (text == l.Text("\n") || text == l.Text("\r\n"))
  }

  predicate StatusOn(d: Core, l: StatusLine, text: seq<byte>) {
    if d.state.FieldStart? then IsStatusLine(text, l) else InStatusLine(d.state) && ReadsStatus(d, l, text)
  }

  lemma TextIsRead(l: StatusLine, e: seq<byte>)
    ensures l.Text(e) == WholeRead(l) + e
  {}

  lemma FeedEnds(l: StatusLine, text: seq<byte>)
    requires l.Valid() && (text == WholeRead(l) || text == WholeRead(l) + "\r")
    ensures IsStatusLine(text + ['\n'], l)
  {
    TextIsRead(l, "\n");
    TextIsRead(l, "\r\n");
    assert "\r" + ['\n'] == "\r\n" && ['\n'] == "\n";
  }

  lemma GreetingAdvances(c: Core, b: byte, d: Core, l: StatusLine, text: seq<byte>)
    requires c.state.ResH? || c.state.ResHT? || c.state.ResHTT? || c.state.ResHTTP?
    requires ReadsStatus(c, l, text) && OnStatusLine(c, b) == Go(d, [], false)
    ensures StatusOn(d, l, text + [b])
  {
    hide MajorRead, MinorRead, WholeRead;
  }

  lemma MajorByte(c: Core, b: byte, d: Core, l: StatusLine, text: seq<byte>) returns (l': StatusLine)
    requires c.state.ResFirstMajor? || c.state.ResMajor?
    requires ReadsStatus(c, l, text) && OnStatusLine(c, b) == Go(d, [], false)
    ensures StatusOn(d, l', text + [b])
  {
    NumeralTable(b);
    hide IsDigit, IsNumber, Number, WholeRead, IsStatusLine;
    l' := l;
    if b == '.' {
      assert [b] == ".";
    } else {
      var digits := if c.state.ResFirstMajor? then [] else l.major;
      NumberOneMore(digits, b);
      NothingIsZero();
      l' := l.(major := digits + [b]);
      assert "HTTP/" + digits + [b] == "HTTP/" + (digits + [b]);
    }
  }

  lemma MinorByte(c: Core, b: byte, d: Core, l: StatusLine, text: seq<byte>) returns (l': StatusLine)
    requires c.state.ResFirstMinor? || c.state.ResMinor?
    requires ReadsStatus(c, l, text) && OnStatusLine(c, b) == Go(d, [], false)
    ensures StatusOn(d, l', text + [b])
  {
    NumeralTable(b);
    hide IsDigit, IsNumber, Number, WholeRead, MajorRead, IsStatusLine;
    l' := l;
    if b == ' ' {
      l' := l.(gap := 0);
      SameMajor(l, l');
      assert MinorRead(l) + [b] == MinorRead(l) + " " + Spaces(0);
    } else {
      var digits := if c.state.ResFirstMinor? then [] else l.minor;
      NumberOneMore(digits, b);
      NothingIsZero();
      l' := l.(minor := digits + [b]);
      SameMajor(l, l');
      assert MajorRead(l) + "." + digits + [b] == MajorRead(l) + "." + (digits + [b]);
    }
  }

  lemma SameMajor(l: StatusLine, l': StatusLine)
    requires l'.major == l.major
    ensures MajorRead(l') == MajorRead(l) && IsMajor(l') == IsMajor(l)
    ensures l'.minor == l.minor ==> MinorRead(l') == MinorRead(l)
  {}

  lemma FirstCodeByte(c: Core, b: byte, d: Core, l: StatusLine, text: seq<byte>) returns (l': StatusLine)
    requires c.state.ResFirstStatus? && ReadsStatus(c, l, text) && OnStatusLine(c, b) == Go(d, [], false)
    ensures StatusOn(d, l', text + [b])
  {
    NumeralTable(b);
    hide IsDigit, IsNumber, Number, MajorRead, MinorRead, IsStatusLine;
    if b == ' ' {
      l' := l.(gap := l.gap + 1);
      SameMajor(l, l');
      assert Spaces(l.gap + 1) == Spaces(l.gap) + [b];
    } else {
      NumberOneMore([], b);
      NothingIsZero();
      l' := l.(code := [] + [b], reason := Absent);
      SameMajor(l, l');
      assert WholeRead(l') == text + [b];
    }
  }

  lemma CodeByte(c: Core, b: byte, d: Core, l: StatusLine, text: seq<byte>) returns (l': StatusLine)
    requires c.state.ResStatusCode? && ReadsStatus(c, l, text) && OnStatusLine(c, b) == Go(d, [], false)
    ensures StatusOn(d, l', text + [b])
  {
    NumeralTable(b);
    hide IsDigit, IsNumber, Number, MajorRead, MinorRead, IsStatusLine;
    l' := l;
    if b == '\n' {
      FeedEnds(l, text);
    } else if b == '\r' {
      assert [b] == "\r";
    } else if b == ' ' {
      l' := l.(reason := Present([]));
      SameMajor(l, l');
      assert WholeRead(l') == text + [b];
    } else {
      NumberOneMore(l.code, b);
      l' := l.(code := l.code + [b]);
      SameMajor(l, l');
      assert WholeRead(l') == text + [b];
    }
  }

  lemma ReasonByte(c: Core, b: byte, d: Core, l: StatusLine, text: seq<byte>) returns (l': StatusLine)
    requires c.state.ResStatus? || c.state.ResLineAlmostDone?
    requires ReadsStatus(c, l, text) && OnStatusLine(c, b) == Go(d, [], false)
    ensures StatusOn(d, l', text + [b])
  {
    hide IsNumber, Number, MajorRead, MinorRead, CodeRead, IsStatusLine;
    l' := l;
    if b == '\n' {
      FeedEnds(l, text);
    } else if b == '\r' {
      assert [b] == "\r";
    } else {
      l' := l.(reason := Present(l.reason.bytes + [b]));
      SameCode(l, l');
      assert WholeRead(l') == text + [b];
    }
  }

  lemma SameCode(l: StatusLine, l': StatusLine)
    requires l' == l.(reason := l'.reason)
    ensures CodeRead(l') == CodeRead(l)
  {}

  /** Every byte that is taken is one of a status line. */
  lemma StatusAdvances(c: Core, b: byte, d: Core, l: StatusLine, text: seq<byte>, skip: nat -> bool)
    returns (l': StatusLine)
    requires InStatusLine(c.state) && ReadsStatus(c, l, text) && GlideByte(c, b, skip) == At(d)
    ensures StatusOn(d, l', text + [b])
  {
    hide React, OnStatusLine, StatusOn, ReadsStatus;
    StatusLineReaction(c, b, skip);
    if c.state.ResFirstMajor? || c.state.ResMajor? { l' := MajorByte(c, b, d, l, text); }
    else if c.state.ResFirstMinor? || c.state.ResMinor? { l' := MinorByte(c, b, d, l, text); }
    else if c.state.ResFirstStatus? { l' := FirstCodeByte(c, b, d, l, text); }
    else if c.state.ResStatusCode? { l' := CodeByte(c, b, d, l, text); }
    else if c.state.ResStatus? || c.state.ResLineAlmostDone? { l' := ReasonByte(c, b, d, l, text); }
    else { l' := l; GreetingAdvances(c, b, d, l, text); }
  }

  // The line.

  lemma {:induction false} PartOfStatus(c: Core, data: seq<byte>, skip: nat -> bool) returns (l: StatusLine)
    requires c.state.ResH? && Glide(c, data, skip).At? && '\n' !in data
    ensures var d := Glide(c, data, skip).core; InStatusLine(d.state) && ReadsStatus(d, l, "H" + data)
    decreases |data|
  {
    hide React, IsStatusLine, GlideByte, IsNumber, Number;
    if data == [] {
      l := StatusLine([], [], 0, [], Absent);
    } else {
      var init, b := data[..|data| - 1], data[|data| - 1];
      assert init + [b] == data && "H" + data == "H" + init + [b];
      var l0 := PartOfStatus(c, init, skip);
      l := StatusAdvances(Glide(c, init, skip).core, b, Glide(c, data, skip).core, l0, "H" + init, skip);
      if Glide(c, data, skip).core.state.FieldStart? { StatusEndsInFeed(l, "H" + data); }
    }
  }

  lemma StatusEndsInFeed(l: StatusLine, text: seq<byte>)
    requires IsStatusLine(text, l)
    ensures text != [] && text[|text| - 1] == '\n'
  {}

  lemma {:induction false} TakenIsStatus(c: Core, data: seq<byte>, skip: nat -> bool) returns (l: StatusLine)
    requires c.state.ResH? && OneLine(data) && TakesLine(c, data, skip)
    ensures IsStatusLine("H" + data, l)
  {
    hide React, IsStatusLine, GlideByte, IsNumber, Number, ReadsStatus;
    var init, b := data[..|data| - 1], data[|data| - 1];
    assert init + [b] == data && "H" + data == "H" + init + [b];
    var l0 := PartOfStatus(c, init, skip);
    l := StatusAdvances(Glide(c, init, skip).core, b, Glide(c, data, skip).core, l0, "H" + init, skip);
  }

  lemma {:induction false} StatusIsTaken(c: Core, data: seq<byte>, l: StatusLine, skip: nat -> bool)
    requires c.state.ResH? && IsStatusLine("H" + data, l)
    ensures TakesLine(c, data, skip)
  {
    hide React, Glides, Glide, Number, IsNumber;
    var e := if "H" + data == l.Text("\n") then "\n" else "\r\n";
    var x := c.(state := ResHT);
    StatusByteGlides(c, 'T', x, skip);
    AfterHtGlides(x, l, e, skip);
    assert data == ("H" + data)[1..] && l.Text(e)[1..] == "T" + l.Text(e)[2..];
    GlidesOnSilently(c, "T", x, [], [], l.Text(e)[2..], Answered(x, l), skip);
    GlidesToStart(c, data, Answered(x, l), skip);
  }

  lemma GlidesToStart(c: Core, data: seq<byte>, d: Core, skip: nat -> bool)
    requires Glides(c, data, d, [], [], skip) && d.state.FieldStart?
    ensures TakesLine(c, data, skip)
  {}

  /** The language of status lines: of the texts with one line feed, at the end, and an H
      before them that has been read, exactly those are taken that complete a status line. */
  lemma {:induction false} StatusLineExactly(c: Core, data: seq<byte>, skip: nat -> bool)
    requires c.state.ResH? && OneLine(data)
    ensures TakesLine(c, data, skip) <==> exists l: StatusLine :: IsStatusLine("H" + data, l)
  {
    hide React, Glide, IsStatusLine, TakesLine;
    if TakesLine(c, data, skip) {
      var l := TakenIsStatus(c, data, skip);
    } else if l: StatusLine :| IsStatusLine("H" + data, l) {
      StatusIsTaken(c, data, l, skip);
    }
  }
}
