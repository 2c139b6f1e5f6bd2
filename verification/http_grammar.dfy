/** What the parser takes for the rest of a request line, after the method: exactly what
    RequestLine prints, so that together with the round trip the grammar decides. */
module HttpGrammar {
  import opened HttpModel
  import opened HttpBytes
  import opened HttpRun
  import opened HttpGlide
  import opened HttpLines
  import opened HttpRequestLine
  import opened HttpWords

  // What has been read, state by state.

  /** Nothing after the origin yet. */
  predicate NoLocal(l: RequestLine) { l.path == [] && l.query.Absent? && l.fragment.Absent? }

  predicate HasPath(l: RequestLine) {
    && l.origin.Valid() && l.path != [] && (forall b :: b in l.path ==> UrlByte(b))
    && (l.path[0] == '/' || (l.path[0] == '*' && l.origin.NoOrigin?))
    && (l.query.Present? ==> IsQuery(l.query.bytes)) && (l.fragment.Present? ==> IsFragment(l.fragment.bytes))
  }

  predicate HasHost(l: RequestLine) { l.origin.Valid() && !l.origin.NoOrigin? && NoLocal(l) }

  predicate HasWord(l: RequestLine) { l.origin.Absolute? && IsWord(l.origin.schema) && NoLocal(l) }

  /** The whole URL has been read. */
  predicate HasUrl(l: RequestLine) { HasPath(l) || HasHost(l) }

  function Before(l: RequestLine): seq<byte> { Spaces(l.gap) + l.Url() }

  function Gap(v: Version): seq<byte> { if v.Printed? then " " + Spaces(v.gap) else [] }

  predicate ReadsOrigin(s: State, l: RequestLine, text: seq<byte>) {
    match s
    case SpacesBeforeUrl => l.origin.NoOrigin? && NoLocal(l) && text == Spaces(l.gap)
    case Schema => HasWord(l) && text == Spaces(l.gap) + l.origin.schema
    case SchemaSlash => HasWord(l) && text == Spaces(l.gap) + l.origin.schema + ":"
    case SchemaSlashSlash => HasWord(l) && text == Spaces(l.gap) + l.origin.schema + ":/"
    case Host => HasHost(l) && l.origin.port.Absent? && text == Before(l)
    case Port => HasHost(l) && l.origin.port.Present? && text == Before(l)
    case _ => false
  }

  predicate ReadsLocal(s: State, l: RequestLine, text: seq<byte>) {
    && HasPath(l) && text == Before(l)
    && match s
       case Path => l.query.Absent? && l.fragment.Absent?
       case QueryStart => l.query.Present? && l.fragment.Absent?
       case Query => l.query.Present? && l.fragment.Absent?
       case FragmentStart => l.fragment.Present?
       case Fragment => l.fragment.Present?
       case _ => false
  }

  predicate ReadsVersion(s: State, l: RequestLine, text: seq<byte>) {
    var v, before := l.version, Before(l) + Gap(l.version);
    && HasUrl(l) && v.Printed?
    && match s
       case HttpStart => text == before
       case HttpH => text == before + "H"
       case HttpHT => text == before + "HT"
       case HttpHTT => text == before + "HTT"
       case HttpHTTP => text == before + "HTTP"
       case FirstMajor => text == before + "HTTP/"
       case Major => IsNumber(v.major) && v.major[0] != '0' && text == before + "HTTP/" + v.major
       case FirstMinor => IsNumber(v.major) && v.major[0] != '0' && text == before + "HTTP/" + v.major + "."
       case Minor => v.Valid() && text == before + "HTTP/" + v.major + "." + v.minor
       case _ => false
  }

  /** The line, but for its line feed. */
  predicate ReadsEnd(l: RequestLine, text: seq<byte>) { l.Valid() && text == l.Rest("\r") }

  predicate Reads(c: Core, l: RequestLine, text: seq<byte>) {
    && (c.state.Major? ==> c.major == Number(l.version.MajorDigits()))
    && (c.state.Minor? ==> c.minor == Number(l.version.MinorDigits()))
    && if InLocal(c.state) then ReadsLocal(c.state, l, text)
       else if InUrl(c.state) then ReadsOrigin(c.state, l, text)
       else if c.state.LineAlmostDone? then ReadsEnd(l, text)
       else ReadsVersion(c.state, l, text)
  }

  /** The whole line. */
  predicate IsRest(l: RequestLine, text: seq<byte>) { l.Valid() && (text == l.Rest("\n") || text == l.Rest("\r\n")) }

  /** One byte more. */
  predicate ReadsOn(d: Core, l: RequestLine, text: seq<byte>) {
    if d.state.FieldStart? then IsRest(l, text) else (InUrl(d.state) || InVersion(d.state)) && Reads(d, l, text)
  }

  // One lemma per group of states.

  lemma BlanksAdvance(c: Core, b: byte, d: Core, l: RequestLine, text: seq<byte>) returns (l': RequestLine)
    requires c.state.SpacesBeforeUrl? && ReadsOrigin(c.state, l, text) && OnUrl(c, b) == Go(d, [], false)
    ensures l'.verb == l.verb && ReadsOn(d, l', text + [b])
  {
    HostTable(b);
    hide IsAlpha, IsDigit;
    if b == ' ' {
      l' := l.(gap := l.gap + 1);
      assert Spaces(l.gap) + [b] == Spaces(l.gap + 1);
    } else if b == '/' || b == '*' {
      l' := l.(path := [b]);
      assert Before(l') == text + [b];
    } else {
      l' := l.(origin := Absolute([b], [], Absent));
    }
  }

  /** A schema, or the first part of a host, and what may follow it. */
  lemma WordGrows(l: RequestLine, b: byte)
    requires HasWord(l)
    ensures IsLetter(b) ==>
              var l' := l.(origin := Absolute(l.origin.schema + [b], [], Absent));
              HasWord(l') && Spaces(l.gap) + l'.origin.schema == Spaces(l.gap) + l.origin.schema + [b]
    ensures b == '.' || IsNumeral(b) ==>
              var l' := l.(origin := Bare(l.origin.schema, [b], Absent));
              HasHost(l') && Before(l') == Spaces(l.gap) + l.origin.schema + [b]
  {}

  lemma WordEnds(l: RequestLine)
    requires HasWord(l)
    ensures var l' := l.(origin := Absolute(l.origin.schema, [], Absent));
            HasHost(l') && Before(l') == Spaces(l.gap) + l.origin.schema + ":/" + ['/']
  {}

  lemma SchemaAdvances(c: Core, b: byte, d: Core, l: RequestLine, text: seq<byte>) returns (l': RequestLine)
    requires c.state.Schema? && ReadsOrigin(c.state, l, text) && OnUrl(c, b) == Go(d, [], false)
    ensures l'.verb == l.verb && ReadsOn(d, l', text + [b])
  {
    HostTable(b);
    hide IsAlpha, IsDigit, HasHost, Before, IsWord, Spaces;
    WordGrows(l, b);
    if IsLetter(b) {
      l' := l.(origin := Absolute(l.origin.schema + [b], [], Absent));
    } else if b == ':' {
      l' := l;
      assert [b] == ":";
    } else {
      l' := l.(origin := Bare(l.origin.schema, [b], Absent));
    }
  }

  lemma SlashesAdvance(c: Core, b: byte, d: Core, l: RequestLine, text: seq<byte>) returns (l': RequestLine)
    requires c.state.SchemaSlash? || c.state.SchemaSlashSlash?
    requires ReadsOrigin(c.state, l, text) && OnUrl(c, b) == Go(d, [], false)
    ensures l'.verb == l.verb && ReadsOn(d, l', text + [b])
  {
    hide HasHost, Before, IsWord, Spaces;
    if c.state.SchemaSlash? {
      l' := l;
      assert Spaces(l.gap) + l.origin.schema + ":" + [b] == Spaces(l.gap) + l.origin.schema + ":/";
    } else {
      l' := l.(origin := Absolute(l.origin.schema, [], Absent));
      WordEnds(l);
    }
  }

  function MoreHost(o: Origin, b: byte): Origin
    requires !o.NoOrigin?
  {
    match o
    case Absolute(schema, host, port) => Absolute(schema, host + [b], port)
    case Bare(first, host, port) => Bare(first, host + [b], port)
  }

  function WithPort(o: Origin, port: Part): Origin {
    match o
    case NoOrigin => o
    case Absolute(schema, host, _) => Absolute(schema, host, port)
    case Bare(first, host, _) => Bare(first, host, port)
  }

  /** A blank after the URL. */
  lemma UrlEnds(l: RequestLine, text: seq<byte>) returns (l': RequestLine)
    requires HasUrl(l) && text == Before(l)
    ensures l'.verb == l.verb && ReadsVersion(HttpStart, l', text + [' '])
  {
    l' := l.(version := Printed(0, [], []));
    assert Before(l') + Gap(l'.version) == text + [' '];
  }

  lemma HostGrows(l: RequestLine, b: byte)
    requires HasHost(l)
    ensures l.origin.port.Absent? && HostByte(b) ==>
              var l' := l.(origin := MoreHost(l.origin, b));
              HasHost(l') && l'.origin.port.Absent? && Before(l') == Before(l) + [b]
    ensures l.origin.port.Absent? && b == ':' ==>
              var l' := l.(origin := WithPort(l.origin, Present([])));
              HasHost(l') && l'.origin.port.Present? && Before(l') == Before(l) + [b]
  {
    var o := l.origin;
    if o.port.Absent? && HostByte(b) {
      assert MoreHost(o, b).HostText() == o.HostText() + [b];
    }
  }

  lemma PortGrows(l: RequestLine, b: byte)
    requires HasHost(l) && l.origin.port.Present? && IsNumeral(b)
    ensures var l' := l.(origin := WithPort(l.origin, Present(l.origin.port.bytes + [b])));
            HasHost(l') && l'.origin.port.Present? && Before(l') == Before(l) + [b]
  {
    var o := l.origin;
    assert WithPort(o, Present(o.port.bytes + [b])).Text() == o.Text() + [b];
  }

  lemma PathBegins(l: RequestLine)
    requires HasHost(l)
    ensures var l' := l.(path := ['/']); HasPath(l') && Before(l') == Before(l) + ['/']
  {}

  lemma HostAdvances(c: Core, b: byte, d: Core, l: RequestLine, text: seq<byte>) returns (l': RequestLine)
    requires (c.state.Host? || c.state.Port?) && ReadsOrigin(c.state, l, text) && OnUrl(c, b) == Go(d, [], false)
    ensures l'.verb == l.verb && ReadsOn(d, l', text + [b])
  {
    HostTable(b);
    hide IsAlpha, IsDigit, HasHost, HasPath, Before, IsRest, ReadsEnd, ReadsVersion;
    if b == ' ' {
      l' := UrlEnds(l, text);
    } else if b == '/' {
      l' := l.(path := [b]);
      PathBegins(l);
      HostHasNoParts(l);
    } else if c.state.Port? {
      HostHasNoParts(l);
      l' := l.(origin := WithPort(l.origin, Present(l.origin.port.bytes + [b])));
      PortGrows(l, b);
    } else {
      HostHasNoParts(l);
      l' := l.(origin := if b == ':' then WithPort(l.origin, Present([])) else MoreHost(l.origin, b));
      HostGrows(l, b);
    }
  }

  lemma HostHasNoParts(l: RequestLine)
    requires HasHost(l)
    ensures !l.origin.NoOrigin? && l.query.Absent? && l.fragment.Absent?
  {}

  /** A byte more of the path, of the query, or of the fragment. */
  lemma PathGrows(l: RequestLine, b: byte)
    requires HasPath(l) && l.query.Absent? && l.fragment.Absent?
    ensures UrlByte(b) ==> var l' := l.(path := l.path + [b]); HasPath(l') && Before(l') == Before(l) + [b]
  {}

  lemma QueryGrows(l: RequestLine, b: byte, bytes: seq<byte>)
    requires HasPath(l) && l.fragment.Absent?
    requires if l.query.Absent? then b == '?' && bytes == []
             else bytes == l.query.bytes + [b] && (UrlByte(b) || b == '?')
    ensures var l' := l.(query := Present(bytes)); HasPath(l') && Before(l') == Before(l) + [b]
  {
    var l' := l.(query := Present(bytes));
    assert HasPath(l');
    hide HasPath, Spaces, UrlByte;
    assert l'.query.Text('?') == l.query.Text('?') + [b];
    Regroups(Spaces(l.gap), l.origin.Text(), l.path, l.query.Text('?'), [], b);
  }

  lemma FragmentGrows(l: RequestLine, b: byte, bytes: seq<byte>)
    requires HasPath(l)
    requires if l.fragment.Absent? then b == '#' && bytes == []
             else bytes == l.fragment.bytes + [b] && (UrlByte(b) || b == '?' || b == '#')
    ensures var l' := l.(fragment := Present(bytes)); HasPath(l') && Before(l') == Before(l) + [b]
  {
    var l' := l.(fragment := Present(bytes));
    assert HasPath(l');
    hide HasPath, Spaces, UrlByte;
    assert l'.fragment.Text('#') == l.fragment.Text('#') + [b];
    Regroups(Spaces(l.gap), l.origin.Text(), l.path, l.query.Text('?'), l.fragment.Text('#'), b);
  }

  lemma Regroups(a: seq<byte>, o: seq<byte>, p: seq<byte>, q: seq<byte>, f: seq<byte>, b: byte)
    ensures a + (o + (p + q + (f + [b]))) == a + (o + (p + q + f)) + [b]
    ensures f == [] ==> a + (o + (p + (q + [b]) + f)) == a + (o + (p + q + f)) + [b]
  {}

  lemma LocalGrows(c: Core, b: byte, d: Core, l: RequestLine, text: seq<byte>) returns (l': RequestLine)
    requires InLocal(c.state) && ReadsLocal(c.state, l, text) && OnUrl(c, b) == Go(d, [], false) && InLocal(d.state)
    ensures l'.verb == l.verb && ReadsLocal(d.state, l', text + [b])
  {
    UrlTable(b);
    hide NormalUrlChar, UrlByte, HasPath, Before;
    if d.state.Path? {
      l' := l.(path := l.path + [b]);
      PathGrows(l, b);
    } else if d.state.QueryStart? || d.state.Query? {
      var bytes := if c.state.Path? then [] else l.query.bytes + [b];
      l' := l.(query := Present(bytes));
      QueryGrows(l, b, bytes);
    } else {
      var bytes := if l.fragment.Absent? then [] else l.fragment.bytes + [b];
      l' := l.(fragment := Present(bytes));
      FragmentGrows(l, b, bytes);
    }
  }

  lemma LocalAdvances(c: Core, b: byte, d: Core, l: RequestLine, text: seq<byte>) returns (l': RequestLine)
    requires InLocal(c.state) && ReadsLocal(c.state, l, text) && OnUrl(c, b) == Go(d, [], false)
    ensures l'.verb == l.verb && ReadsOn(d, l', text + [b])
  {
    hide NormalUrlChar, HasPath, Before, IsRest, ReadsEnd;
    if InLocal(d.state) {
      l' := LocalGrows(c, b, d, l, text);
    } else if b == ' ' {
      l' := UrlEnds(l, text);
    } else {
      l' := LineEnds(l, text, b);
    }
  }

  /** A line end right after the URL. */
  lemma LineEnds(l: RequestLine, text: seq<byte>, b: byte) returns (l': RequestLine)
    requires HasPath(l) && text == Before(l)
    ensures l'.verb == l.verb
    ensures b == '\r' ==> ReadsEnd(l', text + [b])
    ensures b == '\n' ==> IsRest(l', text + [b])
  {
    l' := l.(version := Omitted);
    assert Spaces(l.gap) + (l.Url() + ([] + [b])) == Before(l) + [b];
  }

  lemma MarkAdvances(c: Core, b: byte, d: Core, l: RequestLine, text: seq<byte>)
    requires c.state.HttpStart? || c.state.HttpH? || c.state.HttpHT? || c.state.HttpHTT? || c.state.HttpHTTP?
    requires ReadsVersion(c.state, l, text) && OnVersion(c, b) == Go(d, [], false) && b != ' '
    ensures ReadsVersion(d.state, l, text + [b])
  {
    var before := Before(l) + Gap(l.version);
    assert before + "H" + [b] == before + ("H" + [b]) && before + "HT" + [b] == before + ("HT" + [b]);
    assert before + "HTT" + [b] == before + ("HTT" + [b]) && before + "HTTP" + [b] == before + ("HTTP" + [b]);
  }

  lemma NumberOneMore(s: seq<byte>, b: byte)
    requires IsNumeral(b)
    ensures Number(s + [b]) == Number(s) * 10 + NumeralValue(b)
    ensures (s == [] || IsNumber(s)) && Number(s + [b]) <= 999 ==> IsNumber(s + [b])
    ensures IsNumber(s) ==> s != [] && (s + [b])[0] == s[0]
  {
    assert (s + [b])[..|s|] == s;
  }

  lemma MajorAdvances(c: Core, b: byte, d: Core, l: RequestLine, text: seq<byte>) returns (l': RequestLine)
    requires (c.state.FirstMajor? || c.state.Major?) && ReadsVersion(c.state, l, text)
    requires c.state.Major? ==> c.major == Number(l.version.MajorDigits())
    requires OnVersion(c, b) == Go(d, [], false)
    ensures l'.verb == l.verb && ReadsOn(d, l', text + [b])
  {
    NumeralTable(b);
    hide IsDigit, IsNumber, Number, HasUrl, Before, Gap, IsRest, ReadsEnd, ReadsOrigin, ReadsLocal;
    if b == '.' {
      l' := l;
      assert [b] == ".";
    } else {
      var digits := if c.state.FirstMajor? then [] else l.version.major;
      NumberOneMore(digits, b);
      NothingIsZero();
      l' := l.(version := l.version.(major := digits + [b]));
      SameBefore(l, l');
      assert Before(l) + Gap(l.version) + "HTTP/" + digits + [b]
             == Before(l) + Gap(l.version) + "HTTP/" + (digits + [b]);
    }
  }

  lemma NothingIsZero()
    ensures Number([]) == 0
  {}

  lemma SameBefore(l: RequestLine, l': RequestLine)
    requires l' == l.(version := l'.version) && l.version.Printed? && l'.version.Printed?
    requires l'.version.gap == l.version.gap
    ensures Before(l') == Before(l) && HasUrl(l') == HasUrl(l) && Gap(l'.version) == Gap(l.version)
  {}

  /** A line end after the version. */
  lemma PrintedEnds(l: RequestLine, text: seq<byte>, b: byte)
    requires ReadsVersion(Minor, l, text)
    ensures b == '\r' ==> ReadsEnd(l, text + [b])
    ensures b == '\n' ==> IsRest(l, text + [b])
  {
    var v, e := l.version, [b];
    assert Before(l) + Gap(v) + "HTTP/" + v.major + "." + v.minor + e == l.Rest(e);
  }

  lemma MinorAdvances(c: Core, b: byte, d: Core, l: RequestLine, text: seq<byte>) returns (l': RequestLine)
    requires (c.state.FirstMinor? || c.state.Minor?) && ReadsVersion(c.state, l, text)
    requires c.state.Minor? ==> c.minor == Number(l.version.MinorDigits())
    requires OnVersion(c, b) == Go(d, [], false)
    ensures l'.verb == l.verb && ReadsOn(d, l', text + [b])
  {
    NumeralTable(b);
    hide IsDigit, IsNumber, Number, HasUrl, Before, Gap, IsRest, ReadsEnd, ReadsOrigin, ReadsLocal;
    if b == '\r' || b == '\n' {
      l' := l;
      PrintedEnds(l, text, b);
    } else {
      var v := l.version;
      var digits := if c.state.FirstMinor? then [] else v.minor;
      NumberOneMore(digits, b);
      NothingIsZero();
      l' := l.(version := v.(minor := digits + [b]));
      SameBefore(l, l');
      assert Before(l) + Gap(v) + "HTTP/" + v.major + "." + digits + [b]
             == Before(l) + Gap(v) + "HTTP/" + v.major + "." + (digits + [b]);
    }
  }

  lemma MarksAdvance(c: Core, b: byte, d: Core, l: RequestLine, text: seq<byte>) returns (l': RequestLine)
    requires c.state.HttpStart? || c.state.HttpH? || c.state.HttpHT? || c.state.HttpHTT? || c.state.HttpHTTP?
    requires ReadsVersion(c.state, l, text) && OnVersion(c, b) == Go(d, [], false)
    ensures l'.verb == l.verb && ReadsOn(d, l', text + [b])
  {
    if b == ' ' {
      l' := l.(version := l.version.(gap := l.version.gap + 1));
      assert Spaces(l.version.gap + 1) == Spaces(l.version.gap) + [b];
      assert Before(l') + Gap(l'.version) == text + [b];
    } else {
      l' := l;
      MarkAdvances(c, b, d, l, text);
    }
  }

  lemma EndAdvances(c: Core, b: byte, d: Core, l: RequestLine, text: seq<byte>)
    requires c.state.LineAlmostDone? && ReadsEnd(l, text) && OnVersion(c, b) == Go(d, [], false)
    ensures ReadsOn(d, l, text + [b])
  {
    assert l.Rest("\r") + "\n" == l.Rest("\r\n") by { assert "\r" + "\n" == "\r\n"; }
  }

  /** Every byte that is taken is one of a request line. */
  lemma Advances(c: Core, b: byte, d: Core, l: RequestLine, text: seq<byte>, skip: nat -> bool)
    returns (l': RequestLine)
    requires (InUrl(c.state) || InVersion(c.state)) && Reads(c, l, text) && GlideByte(c, b, skip) == At(d)
    ensures l'.verb == l.verb && ReadsOn(d, l', text + [b])
  {
    hide React, OnUrl, OnVersion, ReadsOn, ReadsLocal, ReadsOrigin, ReadsVersion, ReadsEnd;
    if InUrl(c.state) {
      UrlReaction(c, b, skip);
      if InLocal(c.state) { l' := LocalAdvances(c, b, d, l, text); }
      else if c.state.SpacesBeforeUrl? { l' := BlanksAdvance(c, b, d, l, text); }
      else if c.state.Host? || c.state.Port? { l' := HostAdvances(c, b, d, l, text); }
      else if c.state.Schema? { l' := SchemaAdvances(c, b, d, l, text); }
      else { l' := SlashesAdvance(c, b, d, l, text); }
    } else {
      VersionReaction(c, b, skip);
      if c.state.LineAlmostDone? { l' := l; EndAdvances(c, b, d, l, text); }
      else if c.state.FirstMajor? || c.state.Major? { l' := MajorAdvances(c, b, d, l, text); }
      else if c.state.FirstMinor? || c.state.Minor? { l' := MinorAdvances(c, b, d, l, text); }
      else { l' := MarksAdvance(c, b, d, l, text); }
    }
  }

  // The line.

  lemma NothingRead(c: Core) returns (l: RequestLine)
    requires c.state.SpacesBeforeUrl?
    ensures l.verb == c.verb && Reads(c, l, [])
  {
    l := RequestLine(c.verb, 0, NoOrigin, [], Absent, Absent, Omitted);
  }

  lemma RestEndsInFeed(l: RequestLine, text: seq<byte>)
    requires IsRest(l, text)
    ensures text != [] && text[|text| - 1] == '\n'
  {}

  lemma {:induction false} PartRead(c: Core, data: seq<byte>, skip: nat -> bool) returns (l: RequestLine)
    requires c.state.SpacesBeforeUrl? && Glide(c, data, skip).At? && '\n' !in data
    ensures var d := Glide(c, data, skip).core; (InUrl(d.state) || InVersion(d.state)) && Reads(d, l, data)
    ensures l.verb == c.verb
    decreases |data|
  {
    hide React, Reads, IsRest, GlideByte;
    if data == [] {
      l := NothingRead(c);
    } else {
      var init, b := data[..|data| - 1], data[|data| - 1];
      assert init + [b] == data;
      var l0 := PartRead(c, init, skip);
      l := Advances(Glide(c, init, skip).core, b, Glide(c, data, skip).core, l0, init, skip);
      if Glide(c, data, skip).core.state.FieldStart? { RestEndsInFeed(l, data); }
    }
  }

  /** The bytes are read, up to the header lines. */
  predicate TakesLine(c: Core, data: seq<byte>, skip: nat -> bool) {
    Glide(c, data, skip).At? && Glide(c, data, skip).core.state.FieldStart?
  }

  /** One line feed, and that at the end. */
  predicate OneLine(data: seq<byte>) { data != [] && data[|data| - 1] == '\n' && '\n' !in data[..|data| - 1] }

  lemma {:induction false} TakenIsPrinted(c: Core, data: seq<byte>, skip: nat -> bool) returns (l: RequestLine)
    requires c.state.SpacesBeforeUrl? && OneLine(data) && TakesLine(c, data, skip)
    ensures IsRest(l, data) && l.verb == c.verb
  {
    hide React, Reads, IsRest, GlideByte;
    var init, b := data[..|data| - 1], data[|data| - 1];
    assert init + [b] == data;
    var l0 := PartRead(c, init, skip);
    l := Advances(Glide(c, init, skip).core, b, Glide(c, data, skip).core, l0, init, skip);
  }

  lemma {:induction false} PrintedIsTaken(c: Core, data: seq<byte>, l: RequestLine, skip: nat -> bool)
    requires c.state.SpacesBeforeUrl? && IsRest(l, data)
    ensures TakesLine(c, data, skip)
  {
    hide React;
    var e := if data == l.Rest("\n") then "\n" else "\r\n";
    UrlAndVersionGlide(c, l, e, skip);
  }

  /** Exactly the lines of the grammar are taken: of all the texts with one line feed, at the
      end, those and only those that print a target and a version. */
  lemma {:induction false} TargetExactly(c: Core, data: seq<byte>, skip: nat -> bool)
    requires c.state.SpacesBeforeUrl? && OneLine(data)
    ensures TakesLine(c, data, skip) <==> exists l: RequestLine :: IsRest(l, data)
  {
    hide React, Glide, IsRest;
    if TakesLine(c, data, skip) {
      var l := TakenIsPrinted(c, data, skip);
    } else if l: RequestLine :| IsRest(l, data) {
      PrintedIsTaken(c, data, l, skip);
    }
  }

  // With the method before it.

  predicate InLine(s: State) { s.ReqMethod? || InUrl(s) || InVersion(s) }

  /** What has been read of a request line, its method being of k bytes once it is over. */
  predicate Progress(c: Core, text: seq<byte>, k: nat, l: RequestLine) {
    && c.kind.Request?
    && if c.state.ReqMethod? then InWord(c, text)
       else && (InUrl(c.state) || InVersion(c.state)) && k < |text| && text[k] == ' ' && l.verb == c.verb
            && Spells(text[..k], l.verb) && Reads(c, l, text[k + 1..])
  }

  /** A whole request line: a word for its method, a blank, and the rest. */
  predicate IsRequestLine(text: seq<byte>, k: nat, l: RequestLine) {
    k < |text| && text[k] == ' ' && Spells(text[..k], l.verb) && IsRest(l, text[k + 1..])
  }

  lemma GlidingKeeps(c: Core, b: byte, d: Core, skip: nat -> bool)
    requires (InUrl(c.state) || InVersion(c.state)) && GlideByte(c, b, skip) == At(d)
    ensures d.kind == c.kind && d.verb == c.verb
  {
    hide React;
    if InUrl(c.state) { UrlReaction(c, b, skip); } else { VersionReaction(c, b, skip); }
  }

  lemma WordProgress(c: Core, text: seq<byte>, b: byte, d: Core, skip: nat -> bool) returns (k: nat, l: RequestLine)
    requires c.state.ReqMethod? && c.kind.Request? && InWord(c, text) && GlideByte(c, b, skip) == At(d)
    ensures !d.state.FieldStart? && Progress(d, text + [b], k, l)
  {
    hide React, OnMethod, Spells, SoFar, Reads;
    MethodReaction(c, b, skip);
    WordAdvances(c, text, b, d);
    k := |text|;
    if d.state.SpacesBeforeUrl? {
      l := NothingRead(d);
      assert (text + [b])[..k] == text && (text + [b])[k + 1..] == [];
    } else {
      l := RequestLine(d.verb, 0, NoOrigin, [], Absent, Absent, Omitted);
    }
  }

  lemma ProgressOn(c: Core, text: seq<byte>, b: byte, d: Core, k: nat, l: RequestLine, skip: nat -> bool)
    returns (k': nat, l': RequestLine)
    requires InLine(c.state) && Progress(c, text, k, l) && GlideByte(c, b, skip) == At(d)
    ensures if d.state.FieldStart? then IsRequestLine(text + [b], k', l')
            else InLine(d.state) && Progress(d, text + [b], k', l')
  {
    hide React, GlideByte, Spells, InWord, Reads, IsRest;
    if c.state.ReqMethod? {
      k', l' := WordProgress(c, text, b, d, skip);
    } else {
      k' := k;
      l' := Advances(c, b, d, l, text[k + 1..], skip);
      GlidingKeeps(c, b, d, skip);
      assert (text + [b])[..k] == text[..k] && (text + [b])[k + 1..] == text[k + 1..] + [b];
    }
  }

  /** In the request line a byte that is taken raises nothing. */
  lemma StepGlides(m: Machine, b: byte, skip: nat -> bool)
    requires InLine(m.core.state) && Step(m, b, skip).Running?
    ensures GlideByte(m.core, b, skip) == At(Step(m, b, skip).m.core)
  {
    hide React, Heard;
    if m.core.state.ReqMethod? { MethodReaction(m.core, b, skip); MethodIsSilent(m.core, b); }
    else if InUrl(m.core.state) { UrlReaction(m.core, b, skip); UrlIsSilent(m.core, b); }
    else { VersionReaction(m.core, b, skip); VersionIsSilent(m.core, b); }
  }

  predicate IsLoud(r: Reaction) { r.Leave? || (r.Go? && (r.notes != [] || r.resetCounter)) }

  lemma MethodIsSilent(c: Core, b: byte)
    ensures !IsLoud(OnMethod(c, b))
  {}

  lemma UrlIsSilent(c: Core, b: byte)
    requires InUrl(c.state)
    ensures !IsLoud(OnUrl(c, b))
  {}

  lemma VersionIsSilent(c: Core, b: byte)
    requires InVersion(c.state)
    ensures !IsLoud(OnVersion(c, b))
  {}

  lemma FirstProgress(m: Machine, b: byte, skip: nat -> bool)
    requires m.core.state.StartReq? && m.core.kind.Request? && b != '\r' && b != '\n' && Step(m, b, skip).Running?
    ensures var d := Step(m, b, skip).m.core; d.state.ReqMethod? && d.kind.Request? && InWord(d, [b])
  {
    hide React, SoFar, Heard;
    StartReaction(m.core, b, skip);
    FirstOfWord(b);
  }

  lemma {:induction false} LineProgress(m: Machine, data: seq<byte>, skip: nat -> bool)
    returns (k: nat, l: RequestLine)
    requires m.core.state.StartReq? && m.core.kind.Request? && Run(m, data, skip).Running?
    requires data != [] && data[0] != '\r' && '\n' !in data
    ensures var d := Run(m, data, skip).m.core; InLine(d.state) && Progress(d, data, k, l)
    decreases |data|
  {
    hide React, Step, InWord, Reads, Spells, IsRest;
    var init, b := data[..|data| - 1], data[|data| - 1];
    assert init + [b] == data;
    if init == [] {
      FirstProgress(m, b, skip);
      k, l := 0, RequestLine(GET, 0, NoOrigin, [], Absent, Absent, Omitted);
    } else {
      var x := Run(m, init, skip).m;
      k, l := LineProgress(m, init, skip);
      StepGlides(x, b, skip);
      k, l := ProgressOn(x.core, init, b, Run(m, data, skip).m.core, k, l, skip);
      if Run(m, data, skip).m.core.state.FieldStart? { RestEndsInFeed(l, data[k + 1..]); }
    }
  }

  /** The run has taken all of the text and stands before the header lines. */
  predicate TakesRequest(m: Machine, data: seq<byte>, skip: nat -> bool) {
    Run(m, data, skip).Running? && Run(m, data, skip).m.core.state.FieldStart?
  }

  lemma {:induction false} TakenIsRequest(m: Machine, data: seq<byte>, skip: nat -> bool)
    returns (k: nat, l: RequestLine)
    requires m.core.state.StartReq? && m.core.kind.Request? && OneLine(data) && data[0] != '\r'
    requires TakesRequest(m, data, skip)
    ensures IsRequestLine(data, k, l)
  {
    hide React, Step, InWord, Reads, Spells, IsRest;
    var init, b := data[..|data| - 1], data[|data| - 1];
    assert init + [b] == data;
    if init == [] {
      assert data == [b];
      RunByte(m, b, skip);
      BlankStays(m, skip);
      assert false;
    } else {
      var x := Run(m, init, skip).m;
      k, l := LineProgress(m, init, skip);
      StepGlides(x, b, skip);
      k, l := ProgressOn(x.core, init, b, Run(m, data, skip).m.core, k, l, skip);
    }
  }

  lemma BlankStays(m: Machine, skip: nat -> bool)
    requires m.core.state.StartReq? && Step(m, '\n', skip).Running?
    ensures Step(m, '\n', skip).m.core.state.StartReq?
  {
    hide React, Heard;
    StartReaction(m.core, '\n', skip);
  }

  lemma {:induction false} RequestLineIsTaken(m: Machine, data: seq<byte>, k: nat, l: RequestLine, skip: nat -> bool)
    requires m.core.state.StartReq? && m.core.kind.Request? && IsRequestLine(data, k, l)
    requires m.nread + |data| <= MAX_HEADER_SIZE
    ensures TakesRequest(m, data, skip)
  {
    hide React, Glides, Reaches, Spells, Name, Candidate, MethodName;
    var w, rest, c := data[..k], data[k + 1..], Fresh(m.core).(kind := Request);
    var e := if rest == l.Rest("\n") then "\n" else "\r\n";
    var x := c.(state := SpacesBeforeUrl, verb := l.verb, index := |MethodName(l.verb)| + 1);
    var d := x.(state := FieldStart, major := l.version.Major(), minor := l.version.Minor());
    WordRestGlides(c, w, l.verb, skip);
    FirstOfSpelled(w, l.verb);
    UrlAndVersionGlide(x, l, e, skip);
    GlidesAfterSilence(InMethod(c, l.verb, 1), w[1..] + " ", x, rest, d, l.Heard(Whole), l.Heard(Parts), skip);
    FirstByteRun(m, l.verb, skip);
    AroundBlank(data, k);
    FirstThenGlide(m, w[0], InMethod(c, l.verb, 1), w[1..] + " " + rest, d, l.Heard(Whole), l.Heard(Parts), skip);
    var z := Onward(m, d, 1 + |w[1..] + " " + rest|, BEGIN + l.Heard(Whole), BEGIN + l.Heard(Parts));
    ReachesFields(m, data, z, skip);
  }

  lemma AroundBlank(data: seq<byte>, k: nat)
    requires 0 < k < |data| && data[k] == ' '
    ensures data == [data[..k][0]] + (data[..k][1..] + " " + data[k + 1..])
  {
    assert data == data[..k] + [data[k]] + data[k + 1..] && data[..k] == [data[..k][0]] + data[..k][1..];
  }

  lemma ReachesFields(m: Machine, data: seq<byte>, z: Machine, skip: nat -> bool)
    requires Reaches(m, data, z, skip) && z.core.state.FieldStart?
    ensures TakesRequest(m, data, skip)
  {}

  /** The language of request lines: of the texts with one line feed, at the end, within the
      header limit, a request parser takes exactly those that are a word for a method, a
      blank, blanks, a target, a version or none, and a line end. */
  lemma {:induction false} RequestLineExactly(m: Machine, data: seq<byte>, skip: nat -> bool)
    requires m.core.state.StartReq? && m.core.kind.Request? && OneLine(data) && data[0] != '\r'
    requires m.nread + |data| <= MAX_HEADER_SIZE
    ensures TakesRequest(m, data, skip) <==> exists k: nat, l: RequestLine :: IsRequestLine(data, k, l)
  {
    hide React, TakesRequest, IsRequestLine;
    if TakesRequest(m, data, skip) {
      var k, l := TakenIsRequest(m, data, skip);
    } else if k: nat, l: RequestLine :| IsRequestLine(data, k, l) {
      RequestLineIsTaken(m, data, k, l, skip);
    }
  }
}
