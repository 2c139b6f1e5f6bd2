/** Request lines (section 5.1 of RFC 2616): what is printed is what the parser's fields
    and the URL callbacks give back. */
module HttpRequestLine {
  import opened HttpModel
  import opened HttpBytes
  import opened HttpRun
  import opened HttpInvariant
  import opened HttpGlide
  import opened HttpLines
  import opened HttpMessages

  /** A part of the URL after its mark.  More marks at its start are not heard as part of it. */
  datatype Part = Absent | Present(bytes: seq<byte>) {
    function Bytes(mark: byte): seq<byte> { if Absent? then [] else Beyond(bytes, mark) }

    function Text(mark: byte): seq<byte> { if Absent? then [] else [mark] + bytes }
  }

  function Beyond(s: seq<byte>, mark: byte): seq<byte> {
    if s == [] || s[0] != mark then s else Beyond(s[1..], mark)
  }

  /** What stands before the path: schema and host, or a host alone, which the source tells
      from a schema by its first dot or digit. */
  datatype Origin = NoOrigin | Absolute(schema: seq<byte>, host: seq<byte>, port: Part)
                  | Bare(first: seq<byte>, host: seq<byte>, port: Part)
  {
    predicate Valid() {
      match this
      case NoOrigin => true
      case Absolute(schema, host, port) => IsWord(schema) && IsHost(host) && (port.Present? ==> IsPort(port.bytes))
      case Bare(first, host, port) =>
        && IsWord(first) && IsHost(host) && host != [] && (host[0] == '.' || IsNumeral(host[0]))
        && (port.Present? ==> IsPort(port.bytes))
    }

    function HostText(): seq<byte> {
      match this
      case NoOrigin => []
      case Absolute(schema, host, _) => schema + "://" + host
      case Bare(first, host, _) => first + host
    }

    function Text(): seq<byte> { if NoOrigin? then [] else HostText() + port.Text(':') }
  }

  /** The version, after any number of further blanks, or none: HTTP/0.9. */
  datatype Version = Omitted | Printed(gap: nat, major: seq<byte>, minor: seq<byte>) {
    predicate Valid() { Printed? ==> IsNumber(major) && major[0] != '0' && IsNumber(minor) }

    function Text(): seq<byte> {
      if Omitted? then [] else " " + (Spaces(gap) + ("HTTP/" + (major + ("." + minor))))
    }

    function MajorDigits(): seq<byte> { if Omitted? then [] else major }

    function MinorDigits(): seq<byte> { if Omitted? then [] else minor }

    function Major(): nat { if Omitted? then 0 else Number(major) }

    function Minor(): nat { if Omitted? then 9 else Number(minor) }
  }

  /** A request line, with `gap` more blanks than one before its URL. */
  datatype RequestLine = RequestLine(verb: Method, gap: nat, origin: Origin, path: seq<byte>, query: Part,
                                     fragment: Part, version: Version)
  {
    predicate Valid() {
      && origin.Valid() && (forall b :: b in path ==> UrlByte(b))
      && (if path != [] then path[0] == '/' || (path[0] == '*' && origin.NoOrigin?)
          else !origin.NoOrigin? && query.Absent? && fragment.Absent? && version.Printed?)
      && (query.Present? ==> IsQuery(query.bytes))
      && (fragment.Present? ==> IsFragment(fragment.bytes))
      && version.Valid()
    }

    function Url(): seq<byte> { origin.Text() + (path + query.Text('?') + fragment.Text('#')) }

    function Text(e: seq<byte>): seq<byte> { Name(verb) + " " + Rest(e) }

    function Rest(e: seq<byte>): seq<byte> { Spaces(gap) + (Url() + (version.Text() + e)) }

    /** What the URL callbacks hear: on_url everything, the others their part. */
    function Heard(ch: Channel): seq<Item> {
      if ch.Whole? then Octets(UrlData, Url())
      else Octets(PathData, path) + Octets(QueryData, query.Bytes('?')) + Octets(FragmentData, fragment.Bytes('#'))
    }
  }

  predicate IsWord(s: seq<byte>) { s != [] && forall b :: b in s ==> IsLetter(b) }

  predicate HostByte(b: byte) { IsLetter(b) || IsNumeral(b) || b == '.' || b == '-' }

  predicate IsHost(s: seq<byte>) { forall b :: b in s ==> HostByte(b) }

  predicate IsPort(s: seq<byte>) { forall b :: b in s ==> IsNumeral(b) }

  predicate IsQuery(s: seq<byte>) { forall b :: b in s ==> UrlByte(b) || b == '?' }

  predicate IsFragment(s: seq<byte>) { forall b :: b in s ==> UrlByte(b) || b == '?' || b == '#' }

  function Spaces(n: nat): seq<byte> { seq(n, i => ' ') }

  /** The value of a numeral in decimal. */
  function Number(s: seq<byte>): nat {
    if s == [] then 0 else Number(s[..|s| - 1]) * 10 + (s[|s| - 1] as int - 48) % 10
  }

  predicate IsNumber(s: seq<byte>) { s != [] && (forall b :: b in s ==> IsNumeral(b)) && Number(s) <= 999 }

  function Name(m: Method): (s: seq<byte>)
    ensures |s| == |MethodName(m)| >= 3 && forall i :: 0 <= i < |s| ==> s[i] == MethodName(m)[i]
  {
    NameIsPlain(m);
    seq(|MethodName(m)|, i requires 0 <= i < |MethodName(m)| => MethodName(m)[i])
  }

  predicate Plain(s: string) { forall i :: 0 <= i < |s| ==> '-' <= s[i] <= 'Z' }

  lemma NameIsPlain(m: Method)
    ensures |MethodName(m)| >= 3 && Plain(MethodName(m))
  {}

  // The method.

  /** The method the source takes the first n bytes of a name for. */
  function Candidate(m: Method, n: nat): Method {
    match m
    case CHECKOUT => if n <= 1 then CONNECT else CHECKOUT
    case COPY => if n <= 2 then CONNECT else COPY
    case MOVE => if n <= 1 then MKCOL else MOVE
    case MERGE => if n <= 1 then MKCOL else MERGE
    case MSEARCH => if n <= 1 then MKCOL else MSEARCH
    case MKACTIVITY => if n <= 2 then MKCOL else MKACTIVITY
    case PUT => if n <= 1 then POST else PUT
    case PROPFIND => if n <= 1 then POST else PROPFIND
    case PROPPATCH => if n <= 1 then POST else if n <= 4 then PROPFIND else PROPPATCH
    case UNSUBSCRIBE => if n <= 2 then UNLOCK else UNSUBSCRIBE
    case _ => m
  }

  lemma FirstCandidate(m: Method)
    ensures MethodOfFirst(Name(m)[0]) == (true, Candidate(m, 1))
  {}

  /** The candidate's name or a redirection takes each byte of the name. */
  predicate TakesByte(m: Method, n: nat, b: byte) {
    var c, d := Candidate(m, n), Candidate(m, n + 1);
    if LiteralAt(MethodName(c), n, b) then d == c else n < |MethodName(c)| && Redirect(c, n, b) == (true, d)
  }

  lemma CandidateTakes(m: Method, n: nat)
    requires 1 <= n < |Name(m)|
    ensures TakesByte(m, n, Name(m)[n])
  {
    if Candidate(m, n) != m { OtherCandidateTakes(m, n); }
  }

  lemma OtherCandidateTakes(m: Method, n: nat)
    requires 1 <= n < |Name(m)| && Candidate(m, n) != m
    ensures TakesByte(m, n, Name(m)[n])
  {
    hide Plain;
  }

  function InMethod(c: Core, m: Method, n: nat): Core { c.(state := ReqMethod, verb := Candidate(m, n), index := n) }

  lemma MethodByteGlides(c: Core, m: Method, n: nat, skip: nat -> bool)
    requires 1 <= n < |Name(m)|
    ensures GlideByte(InMethod(c, m, n), Name(m)[n], skip) == At(InMethod(c, m, n + 1))
  {
    hide React, OnMethod, Candidate, Redirect, MethodName;
    NameIsPlain(m);
    MethodReaction(InMethod(c, m, n), Name(m)[n], skip);
    CandidateTakes(m, n);
    MethodTakes(InMethod(c, m, n), Name(m)[n], Candidate(m, n + 1));
  }

  lemma MethodTakes(c: Core, b: byte, d: Method)
    requires b != '\0'
    requires if LiteralAt(MethodName(c.verb), c.index, b) then d == c.verb
             else c.index < |MethodName(c.verb)| && Redirect(c.verb, c.index, b) == (true, d)
    ensures OnMethod(c, b) == To(c.(verb := d, index := c.index + 1), ReqMethod)
  {}

  lemma MethodStepGlides(c: Core, m: Method, n: nat, skip: nat -> bool)
    requires 1 <= n < |Name(m)|
    ensures Glides(InMethod(c, m, n), [Name(m)[n]], InMethod(c, m, n + 1), [], [], skip)
  {
    hide React;
    MethodByteGlides(c, m, n, skip);
    QuietByteGlides(InMethod(c, m, n), Name(m)[n], InMethod(c, m, n + 1), skip);
  }

  lemma SliceGrows(s: seq<byte>, k: nat, n: nat)
    requires k <= n < |s|
    ensures s[k..n + 1] == s[k..n] + [s[n]]
  {}

  lemma {:induction false} MethodGlides(c: Core, m: Method, k: nat, n: nat, skip: nat -> bool)
    requires 1 <= k <= n <= |Name(m)|
    ensures Glides(InMethod(c, m, k), Name(m)[k..n], InMethod(c, m, n), [], [], skip)
  {
    hide React, Glides, MethodName, Candidate;
    if k == n {
      assert Name(m)[k..n] == [];
      EmptyGlides(InMethod(c, m, k), skip);
    } else {
      var x, b := InMethod(c, m, n - 1), Name(m)[n - 1];
      SliceGrows(Name(m), k, n - 1);
      MethodGlides(c, m, k, n - 1, skip);
      MethodStepGlides(c, m, n - 1, skip);
      GlidesOnSilently(InMethod(c, m, k), Name(m)[k..n - 1], x, [], [], [b], InMethod(c, m, n), skip);
    }
  }

  lemma CandidateEnds(m: Method)
    ensures Candidate(m, |Name(m)|) == m
  {}

  lemma MethodSpaceGlides(c: Core, m: Method, skip: nat -> bool)
    requires c.state.ReqMethod? && c.verb == m && c.index == |MethodName(m)|
    ensures Glides(c, " ", c.(state := SpacesBeforeUrl, index := c.index + 1), [], [], skip)
  {
    hide React, MethodName, Redirect;
    MethodReaction(c, ' ', skip);
    QuietByteGlides(c, ' ', c.(state := SpacesBeforeUrl, index := c.index + 1), skip);
  }

  /** The fields once the method and its blank are read. */
  function Named(c: Core, m: Method): Core {
    Fresh(c).(kind := Request, verb := m, index := |MethodName(m)| + 1, state := SpacesBeforeUrl)
  }

  predicate AwaitsRequest(c: Core) { (c.state.StartReq? && c.kind.Request?) || c.state.StartReqOrRes? }

  const BEGIN: seq<Item> := [Event(MessageBegin)]

  /** The fields after the first byte of the method name. */
  function Begun(c: Core, m: Method): Core {
    if c.state.StartReqOrRes? && m.HEAD? then Fresh(c).(state := ResOrRespH)
    else InMethod(Fresh(c).(kind := Request), m, 1)
  }

  lemma FirstIsLetter(m: Method)
    ensures 'A' <= Name(m)[0] <= 'Z' && (Name(m)[0] == 'H' <==> m.HEAD?)
  {}

  lemma AssignsCandidate(c: Core, m: Method)
    ensures AssignMethod(c, Name(m)[0]) == Go(InMethod(c, m, 1), [MessageBegin], false)
  {
    FirstCandidate(m);
  }

  lemma FirstByteReaction(c: Core, m: Method, skip: nat -> bool)
    requires AwaitsRequest(c)
    ensures React(c, Name(m)[0], skip) == Go(Begun(c, m), [MessageBegin], false)
    ensures Quiet(Begun(c, m).state)
  {
    hide React;
    FirstIsLetter(m);
    AssignsCandidate(Fresh(c).(kind := Request), m);
    StartsWith(c, Name(m)[0], Begun(c, m), skip);
  }

  lemma StartsWith(c: Core, b: byte, d: Core, skip: nat -> bool)
    requires AwaitsRequest(c) && 'A' <= b <= 'Z'
    requires if c.state.StartReqOrRes? && b == 'H' then d == Fresh(c).(state := ResOrRespH)
             else AssignMethod(Fresh(c).(kind := Request), b) == Go(d, [MessageBegin], false)
    ensures React(c, b, skip) == Go(d, [MessageBegin], false)
  {
    hide React, AssignMethod;
    StartReaction(c, b, skip);
    if c.state.StartReq? { assert Fresh(c) == Fresh(c).(kind := Request); }
  }

  lemma BeginStep(m: Machine, b: byte, d: Core, skip: nat -> bool)
    requires React(m.core, b, skip) == Go(d, [MessageBegin], false) && !Delivers(m.core)
    requires Quiet(d.state)
    requires ParsingHeader(m.core.state) && !m.core.state.ChunkSizeStart? && !m.core.state.ValueStart?
    requires m.nread < MAX_HEADER_SIZE
    ensures Step(m, b, skip) == Running(Onward(m, d, 1, BEGIN, BEGIN))
  {
    hide React;
    assert Events([MessageBegin]) == BEGIN;
    OnlyNotesHeard(Whole, m.core, [MessageBegin], d.state, b);
    OnlyNotesHeard(Parts, m.core, [MessageBegin], d.state, b);
  }

  lemma {:induction false} FirstByteRun(m: Machine, verb: Method, skip: nat -> bool)
    requires AwaitsRequest(m.core) && m.nread < MAX_HEADER_SIZE
    ensures Reaches(m, [Name(verb)[0]], Onward(m, Begun(m.core, verb), 1, BEGIN, BEGIN), skip)
  {
    hide React, Onward, Begun;
    FirstByteReaction(m.core, verb, skip);
    BeginStep(m, Name(verb)[0], Begun(m.core, verb), skip);
    RunByte(m, Name(verb)[0], skip);
  }

  lemma HeadByteGlides(c: Core, skip: nat -> bool)
    requires c.state.ResOrRespH?
    ensures Glides(c, "E", InMethod(c.(kind := Request), HEAD, 2), [], [], skip)
  {
    hide React;
    StartReaction(c, 'E', skip);
    QuietByteGlides(c, 'E', InMethod(c.(kind := Request), HEAD, 2), skip);
  }

  /** The rest of the name and the blank. */
  lemma {:induction false} NameRestGlides(c: Core, m: Method, k: nat, skip: nat -> bool)
    requires 1 <= k <= |Name(m)| && c.kind.Request?
    ensures Glides(InMethod(Fresh(c), m, k), Name(m)[k..] + " ", Named(c, m), [], [], skip)
  {
    hide React, Glides, MethodName;
    var f := Fresh(c);
    MethodGlides(f, m, k, |Name(m)|, skip);
    assert Name(m)[k..|Name(m)|] == Name(m)[k..];
    CandidateEnds(m);
    MethodSpaceGlides(InMethod(f, m, |Name(m)|), m, skip);
    GlidesOnSilently(InMethod(f, m, k), Name(m)[k..], InMethod(f, m, |Name(m)|), [], [], " ", Named(c, m), skip);
  }

  lemma HeadSplits()
    ensures |Name(HEAD)| == 4 && Name(HEAD)[1..] + " " == "E" + (Name(HEAD)[2..] + " ")
  {}

  /** HEAD, while the parser may still be reading a response. */
  lemma {:induction false} HeadRestGlides(c: Core, skip: nat -> bool)
    ensures Glides(Fresh(c).(state := ResOrRespH), Name(HEAD)[1..] + " ", Named(c, HEAD), [], [], skip)
  {
    hide React, Glides;
    var r, h := c.(kind := Request), Fresh(c).(state := ResOrRespH);
    var x := InMethod(Fresh(r), HEAD, 2);
    assert x == InMethod(h.(kind := Request), HEAD, 2) && Named(r, HEAD) == Named(c, HEAD);
    HeadSplits();
    hide Name, Named, InMethod, Fresh;
    HeadByteGlides(h, skip);
    NameRestGlides(r, HEAD, 2, skip);
    GlidesOnSilently(h, "E", x, [], [], Name(HEAD)[2..] + " ", Named(c, HEAD), skip);
  }

  lemma {:induction false} AfterFirstGlides(c: Core, m: Method, skip: nat -> bool)
    requires AwaitsRequest(c)
    ensures Glides(Begun(c, m), Name(m)[1..] + " ", Named(c, m), [], [], skip)
  {
    hide React, Glides;
    if c.state.StartReqOrRes? && m.HEAD? {
      HeadRestGlides(c, skip);
    } else {
      NameRestGlides(c.(kind := Request), m, 1, skip);
    }
  }

  // The URL.

  lemma UrlByteGlides(c: Core, b: byte, d: Core, skip: nat -> bool)
    requires GlideByte(c, b, skip) == At(d) && InUrl(c.state)
    ensures Glides(c, [b], d, Voice(Whole, d.state, b), Voice(Parts, d.state, b), skip)
  {
    hide React;
    ByteGlides(c, b, d, skip);
    assert forall ch :: Sound(ch, c.state, d.state, b) == Voice(ch, d.state, b);
  }

  lemma OctetsAppend(k: DataKind, a: seq<byte>, b: seq<byte>)
    ensures Octets(k, a) + Octets(k, b) == Octets(k, a + b)
  {}

  lemma SpokenFirst(ch: Channel, s: State, b: byte, rest: seq<byte>)
    ensures Voice(ch, s, b) + Spoken(ch, s, rest) == Spoken(ch, s, [b] + rest)
  {
    hide SpanOf;
    if SpanOf(ch, s).Speaks? {
      var k := SpanOf(ch, s).kind;
      assert Voice(ch, s, b) == Octets(k, [b]);
      OctetsAppend(k, [b], rest);
    }
  }

  /** A first byte that opens a stretch, and bytes that stay in it. */
  lemma {:induction false} StretchGlides(c: Core, s: seq<byte>, d: Core, skip: nat -> bool)
    requires s != [] && InUrl(c.state) && GlideByte(c, s[0], skip) == At(d)
    requires forall b :: b in s[1..] ==> GlideByte(d, b, skip) == At(d)
    ensures Glides(c, s, d, Spoken(Whole, d.state, s), Spoken(Parts, d.state, s), skip)
  {
    hide React;
    var b, rest := s[0], s[1..];
    assert [b] + rest == s;
    UrlByteGlides(c, b, d, skip);
    StayGlides(d, rest, skip);
    GlidesOn(c, [b], d, Voice(Whole, d.state, b), Voice(Parts, d.state, b),
             rest, d, Spoken(Whole, d.state, rest), Spoken(Parts, d.state, rest), skip);
    SpokenFirst(Whole, d.state, b, rest);
    SpokenFirst(Parts, d.state, b, rest);
  }

  lemma {:induction false} StayGlides(c: Core, s: seq<byte>, skip: nat -> bool)
    requires forall b :: b in s ==> GlideByte(c, b, skip) == At(c)
    ensures Glides(c, s, c, Spoken(Whole, c.state, s), Spoken(Parts, c.state, s), skip)
  {
    hide React;
    GlideStay(c, s, skip);
  }

  /** The byte begins the path. */
  predicate BeginsPath(s: State, b: byte) {
    if s.SpacesBeforeUrl? then b == '/' || b == '*' else (s.Host? || s.Port?) && b == '/'
  }

  lemma {:induction false} PathGlides(c: Core, s: seq<byte>, skip: nat -> bool)
    requires s != [] && BeginsPath(c.state, s[0]) && forall b :: b in s ==> UrlByte(b)
    ensures Glides(c, s, c.(state := Path), Octets(UrlData, s), Octets(PathData, s), skip)
  {
    hide React, NormalUrlChar;
    UrlReaction(c, s[0], skip);
    forall b | b in s[1..] ensures GlideByte(c.(state := Path), b, skip) == At(c.(state := Path)) {
      assert b in s;
      UrlTable(b);
      UrlReaction(c.(state := Path), b, skip);
    }
    StretchGlides(c, s, c.(state := Path), skip);
  }

  // Schema, host and port: on_url alone hears them.

  /** A byte of them that leads from one state to another. */
  lemma OriginByteGlides(c: Core, b: byte, s: State, skip: nat -> bool)
    requires InUrl(c.state) && OnUrl(c, b) == To(c, s)
    requires SpanOf(Whole, s) == Speaks(UrlData) && SpanOf(Parts, s).Silent?
    ensures GlideByte(c, b, skip) == At(c.(state := s))
    ensures Glides(c, [b], c.(state := s), Octets(UrlData, [b]), [], skip)
  {
    hide React;
    UrlReaction(c, b, skip);
    UrlByteGlides(c, b, c.(state := s), skip);
  }

  lemma {:induction false} SchemaGlides(c: Core, s: seq<byte>, skip: nat -> bool)
    requires c.state.SpacesBeforeUrl? && IsWord(s)
    ensures Glides(c, s, c.(state := Schema), Octets(UrlData, s), [], skip)
  {
    hide React;
    var d := c.(state := Schema);
    assert s[0] in s;
    AlphaIsNoMark(s[0]);
    OriginByteGlides(c, s[0], Schema, skip);
    forall b | b in s[1..] ensures GlideByte(d, b, skip) == At(d) {
      assert b in s;
      AlphaIsNoMark(b);
      OriginByteGlides(d, b, Schema, skip);
    }
    StretchGlides(c, s, d, skip);
  }

  lemma AlphaIsNoMark(b: byte)
    requires IsLetter(b)
    ensures IsAlpha(b) && b != '/' && b != '*' && b != ' '
  {}

  lemma {:induction false} HostBytesGlide(c: Core, s: seq<byte>, skip: nat -> bool)
    requires c.state.Host? && IsHost(s)
    ensures Glides(c, s, c, Octets(UrlData, s), [], skip)
  {
    hide React;
    forall b | b in s ensures GlideByte(c, b, skip) == At(c) {
      HostTable(b);
      OriginByteGlides(c, b, Host, skip);
    }
    StayGlides(c, s, skip);
  }

  lemma {:induction false} PortBytesGlide(c: Core, s: seq<byte>, skip: nat -> bool)
    requires c.state.Port? && IsPort(s)
    ensures Glides(c, s, c, Octets(UrlData, s), [], skip)
  {
    hide React;
    forall b | b in s ensures GlideByte(c, b, skip) == At(c) {
      HostTable(b);
      OriginByteGlides(c, b, Port, skip);
    }
    StayGlides(c, s, skip);
  }

  /** One stretch that on_url alone hears after another. */
  lemma {:induction false} OriginGlidesOn(c: Core, a: seq<byte>, x: Core, b: seq<byte>, d: Core, skip: nat -> bool)
    requires Glides(c, a, x, Octets(UrlData, a), [], skip) && Glides(x, b, d, Octets(UrlData, b), [], skip)
    ensures Glides(c, a + b, d, Octets(UrlData, a + b), [], skip)
  {
    hide React, Glides;
    GlidesOn(c, a, x, Octets(UrlData, a), [], b, d, Octets(UrlData, b), [], skip);
    OctetsAppend(UrlData, a, b);
    var nothing: seq<Item> := [];
    assert nothing + nothing == nothing;
  }

  lemma {:induction false} SchemaEndGlides(c: Core, skip: nat -> bool)
    requires c.state.Schema?
    ensures Glides(c, "://", c.(state := Host), Octets(UrlData, "://"), [], skip)
  {
    hide React, Glides;
    var x, y := c.(state := SchemaSlash), c.(state := SchemaSlashSlash);
    OriginByteGlides(c, ':', SchemaSlash, skip);
    OriginByteGlides(x, '/', SchemaSlashSlash, skip);
    OriginByteGlides(y, '/', Host, skip);
    OriginGlidesOn(c, [':'], x, ['/'], y, skip);
    OriginGlidesOn(c, [':'] + ['/'], y, ['/'], c.(state := Host), skip);
    assert [':'] + ['/'] + ['/'] == "://";
  }

  lemma {:induction false} HostGlides(c: Core, o: Origin, skip: nat -> bool)
    requires c.state.SpacesBeforeUrl? && o.Valid() && !o.NoOrigin?
    ensures Glides(c, o.HostText(), c.(state := Host), Octets(UrlData, o.HostText()), [], skip)
  {
    hide React, Glides;
    var x, d := c.(state := Schema), c.(state := Host);
    if o.Absolute? {
      SchemaGlides(c, o.schema, skip);
      SchemaEndGlides(x, skip);
      OriginGlidesOn(c, o.schema, x, "://", d, skip);
      HostBytesGlide(d, o.host, skip);
      OriginGlidesOn(c, o.schema + "://", d, o.host, d, skip);
    } else {
      SchemaGlides(c, o.first, skip);
      BareHostGlides(x, o.host, skip);
      OriginGlidesOn(c, o.first, x, o.host, d, skip);
    }
  }

  /** The dot or digit that shows a host, and the rest of it. */
  lemma {:induction false} BareHostGlides(c: Core, s: seq<byte>, skip: nat -> bool)
    requires c.state.Schema? && IsHost(s) && s != [] && (s[0] == '.' || IsNumeral(s[0]))
    ensures Glides(c, s, c.(state := Host), Octets(UrlData, s), [], skip)
  {
    hide React, Glides;
    var d := c.(state := Host);
    HostTable(s[0]);
    OriginByteGlides(c, s[0], Host, skip);
    assert forall b :: b in s[1..] ==> b in s;
    HostBytesGlide(d, s[1..], skip);
    OriginGlidesOn(c, [s[0]], d, s[1..], d, skip);
    assert [s[0]] + s[1..] == s;
  }

  lemma {:induction false} PortGlides(c: Core, port: seq<byte>, skip: nat -> bool)
    requires c.state.Host? && IsPort(port)
    ensures Glides(c, [':'] + port, c.(state := Port), Octets(UrlData, [':'] + port), [], skip)
  {
    hide React, Glides;
    var d := c.(state := Port);
    OriginByteGlides(c, ':', Port, skip);
    PortBytesGlide(d, port, skip);
    OriginGlidesOn(c, [':'], d, port, d, skip);
  }

  lemma {:induction false} OriginGlides(c: Core, o: Origin, skip: nat -> bool) returns (d: Core)
    requires c.state.SpacesBeforeUrl? && o.Valid()
    ensures d == c.(state := d.state)
    ensures if o.NoOrigin? then d.state.SpacesBeforeUrl? else d.state.Host? || d.state.Port?
    ensures Glides(c, o.Text(), d, Octets(UrlData, o.Text()), [], skip)
  {
    hide React, Glides;
    if o.NoOrigin? {
      d := c;
      EmptyGlides(c, skip);
      assert Octets(UrlData, []) == [];
    } else {
      var h := c.(state := Host);
      HostGlides(c, o, skip);
      if o.port.Absent? {
        d := h;
        assert o.HostText() + [] == o.HostText();
      } else {
        d := c.(state := Port);
        PortGlides(h, o.port.bytes, skip);
        OriginGlidesOn(c, o.HostText(), h, [':'] + o.port.bytes, d, skip);
      }
    }
  }

  lemma {:induction false} BeyondSplits(s: seq<byte>, mark: byte) returns (k: nat)
    ensures k <= |s| && Beyond(s, mark) == s[k..] && (forall b :: b in s[..k] ==> b == mark)
    ensures s[k..] != [] ==> s[k] != mark
  {
    if s == [] || s[0] != mark {
      k := 0;
    } else {
      var j := BeyondSplits(s[1..], mark);
      k := j + 1;
      assert s[k..] == s[1..][j..];
      assert s[..k] == [s[0]] + s[1..][..j];
    }
  }

  /** More marks where a part would begin: on_url alone hears them. */
  lemma {:induction false} MarksGlide(c: Core, s: seq<byte>, mark: byte, skip: nat -> bool)
    requires (c.state.QueryStart? && mark == '?') || (c.state.FragmentStart? && mark == '#')
    requires forall b :: b in s ==> b == mark
    ensures Glides(c, s, c, Octets(UrlData, s), [], skip)
  {
    hide React;
    UrlReaction(c, mark, skip);
    StayGlides(c, s, skip);
  }

  lemma {:induction false} QueryStretchGlides(c: Core, s: seq<byte>, skip: nat -> bool)
    requires c.state.QueryStart? && IsQuery(s) && s != [] && s[0] != '?'
    ensures Glides(c, s, c.(state := Query), Octets(UrlData, s), Octets(QueryData, s), skip)
  {
    hide React, NormalUrlChar;
    UrlTable(s[0]);
    UrlReaction(c, s[0], skip);
    forall b | b in s[1..] ensures GlideByte(c.(state := Query), b, skip) == At(c.(state := Query)) {
      assert b in s;
      UrlTable(b);
      UrlReaction(c.(state := Query), b, skip);
    }
    StretchGlides(c, s, c.(state := Query), skip);
  }

  lemma {:induction false} FragmentStretchGlides(c: Core, s: seq<byte>, skip: nat -> bool)
    requires c.state.FragmentStart? && IsFragment(s) && s != [] && s[0] != '#'
    ensures Glides(c, s, c.(state := Fragment), Octets(UrlData, s), Octets(FragmentData, s), skip)
  {
    hide React, NormalUrlChar;
    assert s[0] in s;
    UrlTable(s[0]);
    UrlReaction(c, s[0], skip);
    forall b | b in s[1..] ensures GlideByte(c.(state := Fragment), b, skip) == At(c.(state := Fragment)) {
      assert b in s;
      UrlTable(b);
      UrlReaction(c.(state := Fragment), b, skip);
    }
    StretchGlides(c, s, c.(state := Fragment), skip);
  }

  /** The marks before a part, and the part if there is any. */
  lemma {:induction false} MarksThenStretch(c: Core, marks: seq<byte>, rest: seq<byte>, d: Core, k: DataKind,
                                            skip: nat -> bool)
    requires Glides(c, marks, c, Octets(UrlData, marks), [], skip)
    requires if rest == [] then d == c else Glides(c, rest, d, Octets(UrlData, rest), Octets(k, rest), skip)
    ensures Glides(c, marks + rest, d, Octets(UrlData, marks + rest), Octets(k, rest), skip)
  {
    hide React, Glides;
    if rest == [] {
      assert marks + rest == marks && Octets(k, rest) == [];
    } else {
      GlidesOn(c, marks, c, Octets(UrlData, marks), [], rest, d, Octets(UrlData, rest), Octets(k, rest), skip);
      OctetsAppend(UrlData, marks, rest);
      assert [] + Octets(k, rest) == Octets(k, rest);
    }
  }

  lemma {:induction false} QueryBytesGlide(c: Core, s: seq<byte>, skip: nat -> bool) returns (d: Core)
    requires c.state.QueryStart? && IsQuery(s)
    ensures d == c.(state := if Beyond(s, '?') == [] then QueryStart else Query)
    ensures Glides(c, s, d, Octets(UrlData, s), Octets(QueryData, Beyond(s, '?')), skip)
  {
    hide React, Glides;
    var k := BeyondSplits(s, '?');
    assert s == s[..k] + s[k..] && forall b :: b in s[k..] ==> b in s;
    d := c.(state := if s[k..] == [] then QueryStart else Query);
    MarksGlide(c, s[..k], '?', skip);
    if s[k..] != [] { QueryStretchGlides(c, s[k..], skip); }
    MarksThenStretch(c, s[..k], s[k..], d, QueryData, skip);
  }

  lemma {:induction false} FragmentBytesGlide(c: Core, s: seq<byte>, skip: nat -> bool) returns (d: Core)
    requires c.state.FragmentStart? && IsFragment(s)
    ensures d == c.(state := if Beyond(s, '#') == [] then FragmentStart else Fragment)
    ensures Glides(c, s, d, Octets(UrlData, s), Octets(FragmentData, Beyond(s, '#')), skip)
  {
    hide React, Glides;
    var k := BeyondSplits(s, '#');
    assert s == s[..k] + s[k..] && forall b :: b in s[k..] ==> b in s;
    d := c.(state := if s[k..] == [] then FragmentStart else Fragment);
    MarksGlide(c, s[..k], '#', skip);
    if s[k..] != [] { FragmentStretchGlides(c, s[k..], skip); }
    MarksThenStretch(c, s[..k], s[k..], d, FragmentData, skip);
  }

  lemma QueryMarkGlides(c: Core, skip: nat -> bool)
    requires c.state.Path?
    ensures Glides(c, "?", c.(state := QueryStart), Octets(UrlData, "?"), [], skip)
  {
    hide React;
    UrlReaction(c, '?', skip);
    UrlByteGlides(c, '?', c.(state := QueryStart), skip);
  }

  lemma FragmentMarkGlides(c: Core, skip: nat -> bool)
    requires c.state.Path? || c.state.QueryStart? || c.state.Query?
    ensures Glides(c, "#", c.(state := FragmentStart), Octets(UrlData, "#"), [], skip)
  {
    hide React;
    UrlReaction(c, '#', skip);
    UrlByteGlides(c, '#', c.(state := FragmentStart), skip);
  }

  /** A mark that only on_url hears, and what follows it. */
  lemma {:induction false} MarkThenBytes(c: Core, mark: seq<byte>, x: Core, k: DataKind, s: seq<byte>,
                                         part: seq<byte>, d: Core, skip: nat -> bool)
    requires Glides(c, mark, x, Octets(UrlData, mark), [], skip)
    requires Glides(x, s, d, Octets(UrlData, s), Octets(k, part), skip)
    ensures Glides(c, mark + s, d, Octets(UrlData, mark + s), Octets(k, part), skip)
  {
    hide React;
    assert [] + Octets(k, part) == Octets(k, part);
    OctetsAppend(UrlData, mark, s);
    GlidesOn(c, mark, x, Octets(UrlData, mark), [], s, d, Octets(UrlData, s), Octets(k, part), skip);
  }

  lemma NothingGlides(c: Core, k: DataKind, skip: nat -> bool)
    ensures Glides(c, [], c, Octets(UrlData, []), Octets(k, []), skip)
  {}

  lemma {:induction false} QueryGlides(c: Core, q: Part, skip: nat -> bool) returns (d: Core)
    requires c.state.Path? && (q.Present? ==> IsQuery(q.bytes))
    ensures d == c.(state := d.state) && (d.state.Path? || d.state.QueryStart? || d.state.Query?)
    ensures Glides(c, q.Text('?'), d, Octets(UrlData, q.Text('?')), Octets(QueryData, q.Bytes('?')), skip)
  {
    hide React;
    if q.Absent? {
      d := c;
      NothingGlides(c, QueryData, skip);
    } else {
      QueryMarkGlides(c, skip);
      d := QueryBytesGlide(c.(state := QueryStart), q.bytes, skip);
      MarkThenBytes(c, "?", c.(state := QueryStart), QueryData, q.bytes, q.Bytes('?'), d, skip);
    }
  }

  lemma {:induction false} FragmentGlides(c: Core, f: Part, skip: nat -> bool) returns (d: Core)
    requires (c.state.Path? || c.state.QueryStart? || c.state.Query?) && (f.Present? ==> IsFragment(f.bytes))
    ensures InLocal(d.state) && d == c.(state := d.state)
    ensures Glides(c, f.Text('#'), d, Octets(UrlData, f.Text('#')), Octets(FragmentData, f.Bytes('#')), skip)
  {
    hide React;
    if f.Absent? {
      d := c;
      NothingGlides(c, FragmentData, skip);
    } else {
      FragmentMarkGlides(c, skip);
      d := FragmentBytesGlide(c.(state := FragmentStart), f.bytes, skip);
      MarkThenBytes(c, "#", c.(state := FragmentStart), FragmentData, f.bytes, f.Bytes('#'), d, skip);
    }
  }

  predicate InLocal(s: State) { s.Path? || s.QueryStart? || s.Query? || s.FragmentStart? || s.Fragment? }

  predicate InTarget(s: State) { s.Host? || s.Port? || InLocal(s) }

  /** The path, query and fragment. */
  lemma {:induction false} LocalGlides(c: Core, p: seq<byte>, q: Part, f: Part, skip: nat -> bool) returns (d: Core)
    requires p != [] && BeginsPath(c.state, p[0]) && (forall b :: b in p ==> UrlByte(b))
    requires (q.Present? ==> IsQuery(q.bytes)) && (f.Present? ==> IsFragment(f.bytes))
    ensures InLocal(d.state) && d == c.(state := d.state)
    ensures var text := p + q.Text('?') + f.Text('#');
            Glides(c, text, d, Octets(UrlData, text),
                   Octets(PathData, p) + Octets(QueryData, q.Bytes('?')) + Octets(FragmentData, f.Bytes('#')), skip)
  {
    hide React, Glides;
    var x := c.(state := Path);
    PathGlides(c, p, skip);
    var y := QueryGlides(x, q, skip);
    GlidesOn(c, p, x, Octets(UrlData, p), Octets(PathData, p),
             q.Text('?'), y, Octets(UrlData, q.Text('?')), Octets(QueryData, q.Bytes('?')), skip);
    OctetsAppend(UrlData, p, q.Text('?'));
    d := FragmentGlides(y, f, skip);
    GlidesOn(c, p + q.Text('?'), y, Octets(UrlData, p + q.Text('?')),
             Octets(PathData, p) + Octets(QueryData, q.Bytes('?')),
             f.Text('#'), d, Octets(UrlData, f.Text('#')), Octets(FragmentData, f.Bytes('#')), skip);
    OctetsAppend(UrlData, p + q.Text('?'), f.Text('#'));
  }

  /** The URL: on_url hears all of it, and its parts hear theirs. */
  lemma {:induction false} UrlGlides(c: Core, line: RequestLine, skip: nat -> bool) returns (d: Core)
    requires c.state.SpacesBeforeUrl? && line.Valid()
    ensures (if line.path == [] then d.state.Host? || d.state.Port? else InLocal(d.state)) && d == c.(state := d.state)
    ensures Glides(c, line.Url(), d, line.Heard(Whole), line.Heard(Parts), skip)
  {
    hide React, Glides, Octets, UrlByte, IsQuery, IsFragment, Beyond, IsHost, IsWord, IsNumber, Number;
    var o, text := line.origin.Text(), line.path + line.query.Text('?') + line.fragment.Text('#');
    var x := OriginGlides(c, line.origin, skip);
    if line.path == [] {
      d := x;
      NothingHeard(line);
    } else {
      d := LocalGlides(x, line.path, line.query, line.fragment, skip);
      GlidesOn(c, o, x, Octets(UrlData, o), [], text, d, Octets(UrlData, text), line.Heard(Parts), skip);
      OctetsAppend(UrlData, o, text);
      assert [] + line.Heard(Parts) == line.Heard(Parts);
    }
  }

  lemma NothingHeard(line: RequestLine)
    requires line.Valid() && line.path == []
    ensures line.Url() == line.origin.Text() && line.Heard(Parts) == []
  {}

  // The version.

  lemma UrlBlankGlides(c: Core, skip: nat -> bool)
    requires InTarget(c.state)
    ensures Glides(c, " ", c.(state := HttpStart), [], [], skip)
  {
    hide React;
    UrlReaction(c, ' ', skip);
    QuietByteGlides(c, ' ', c.(state := HttpStart), skip);
  }

  /** Blanks before the URL or the version. */
  lemma {:induction false} SpacesGlide(c: Core, n: nat, skip: nat -> bool)
    requires c.state.SpacesBeforeUrl? || c.state.HttpStart?
    ensures Glides(c, Spaces(n), c, [], [], skip)
  {
    hide React;
    if c.state.HttpStart? { VersionReaction(c, ' ', skip); } else { UrlReaction(c, ' ', skip); }
    GlideStay(c, Spaces(n), skip);
  }

  /** A byte of the version that leads silently from one state to another. */
  lemma VersionByteGlides(c: Core, b: byte, d: Core, skip: nat -> bool)
    requires InVersion(c.state) && OnVersion(c, b) == To(c.(major := d.major, minor := d.minor), d.state)
    requires d == c.(state := d.state, major := d.major, minor := d.minor) && Quiet(d.state)
    ensures Glides(c, [b], d, [], [], skip)
  {
    hide React;
    VersionReaction(c, b, skip);
    QuietByteGlides(c, b, d, skip);
  }

  /** Two of them. */
  lemma {:induction false} TwoVersionBytes(c: Core, x: Core, d: Core, text: seq<byte>, skip: nat -> bool)
    requires |text| == 2 && Quiet(x.state) && Quiet(d.state)
    requires InVersion(c.state) && OnVersion(c, text[0]) == To(c, x.state) && x == c.(state := x.state)
    requires InVersion(x.state) && OnVersion(x, text[1]) == To(x, d.state) && d == x.(state := d.state)
    ensures Glides(c, text, d, [], [], skip)
  {
    hide React, Glides;
    VersionByteGlides(c, text[0], x, skip);
    VersionByteGlides(x, text[1], d, skip);
    assert text == [text[0]] + [text[1]];
    GlidesOnSilently(c, [text[0]], x, [], [], [text[1]], d, skip);
  }

  lemma {:induction false} HtGlides(c: Core, skip: nat -> bool)
    requires c.state.HttpStart?
    ensures Glides(c, "HT", c.(state := HttpHT), [], [], skip)
  {
    hide React, Glides;
    TwoVersionBytes(c, c.(state := HttpH), c.(state := HttpHT), "HT", skip);
  }

  lemma {:induction false} TpGlides(c: Core, skip: nat -> bool)
    requires c.state.HttpHT?
    ensures Glides(c, "TP", c.(state := HttpHTTP), [], [], skip)
  {
    hide React, Glides;
    TwoVersionBytes(c, c.(state := HttpHTT), c.(state := HttpHTTP), "TP", skip);
  }

  lemma {:induction false} HttpGlides(c: Core, skip: nat -> bool)
    requires c.state.HttpStart?
    ensures Glides(c, "HTTP", c.(state := HttpHTTP), [], [], skip)
  {
    hide React, Glides;
    var x, d := c.(state := HttpHT), c.(state := HttpHTTP);
    HtGlides(c, skip);
    TpGlides(x, skip);
    assert "HT" + "TP" == "HTTP";
    GlidesOnSilently(c, "HT", x, [], [], "TP", d, skip);
  }

  lemma {:induction false} ProtocolNameGlides(c: Core, skip: nat -> bool)
    requires c.state.HttpStart?
    ensures Glides(c, "HTTP/", c.(state := FirstMajor), [], [], skip)
  {
    hide React, Glides;
    assert "HTTP" + "/" == "HTTP/";
    HttpGlides(c, skip);
    VersionByteGlides(c.(state := HttpHTTP), '/', c.(state := FirstMajor), skip);
    GlidesOnSilently(c, "HTTP", c.(state := HttpHTTP), [], [], "/", c.(state := FirstMajor), skip);
  }

  lemma {:induction false} ProtocolGlides(c: Core, n: nat, skip: nat -> bool)
    requires InTarget(c.state)
    ensures Glides(c, " " + (Spaces(n) + "HTTP/"), c.(state := FirstMajor), [], [], skip)
  {
    hide React, Glides;
    var x := c.(state := HttpStart);
    UrlBlankGlides(c, skip);
    SpacesGlide(x, n, skip);
    ProtocolNameGlides(x, skip);
    GlidesOnSilently(x, Spaces(n), x, [], [], "HTTP/", c.(state := FirstMajor), skip);
    GlidesOnSilently(c, " ", x, [], [], Spaces(n) + "HTTP/", c.(state := FirstMajor), skip);
  }

  lemma NumberGrows(s: seq<byte>)
    requires s != []
    ensures Number(s) == Number(s[..|s| - 1]) * 10 + (s[|s| - 1] as int - 48) % 10 >= Number(s[..|s| - 1])
  {}

  lemma FirstDigitGlides(c: Core, b: byte, skip: nat -> bool)
    requires IsNumeral(b)
    ensures c.state.FirstMajor? && b != '0' ==> Glides(c, [b], c.(state := Major, major := Number([b])), [], [], skip)
    ensures c.state.FirstMinor? ==> Glides(c, [b], c.(state := Minor, minor := Number([b])), [], [], skip)
  {
    hide React, Glides;
    NumeralTable(b);
    assert [b][..0] == [] && Number([]) == 0;
    if c.state.FirstMajor? && b != '0' {
      VersionByteGlides(c, b, c.(state := Major, major := Number([b])), skip);
    }
    if c.state.FirstMinor? { VersionByteGlides(c, b, c.(state := Minor, minor := Number([b])), skip); }
  }

  lemma NextDigitGlides(c: Core, b: byte, n: nat, skip: nat -> bool)
    requires IsNumeral(b) && n <= 999
    ensures c.state.Major? && n == c.major * 10 + (b as int - 48) % 10 ==>
              Glides(c, [b], c.(major := n), [], [], skip)
    ensures c.state.Minor? && n == c.minor * 10 + (b as int - 48) % 10 ==>
              Glides(c, [b], c.(minor := n), [], [], skip)
  {
    hide React, Glides;
    NumeralTable(b);
    if c.state.Major? && n == c.major * 10 + (b as int - 48) % 10 { VersionByteGlides(c, b, c.(major := n), skip); }
    if c.state.Minor? && n == c.minor * 10 + (b as int - 48) % 10 { VersionByteGlides(c, b, c.(minor := n), skip); }
  }

  lemma NumberInit(s: seq<byte>)
    requires IsNumber(s) && |s| > 1
    ensures IsNumber(s[..|s| - 1]) && s[..|s| - 1][0] == s[0] && IsNumeral(s[|s| - 1])
    ensures Number(s) == Number(s[..|s| - 1]) * 10 + (s[|s| - 1] as int - 48) % 10
    ensures s == s[..|s| - 1] + [s[|s| - 1]]
  {
    hide Number;
    NumberGrows(s);
    assert s[|s| - 1] in s;
    assert forall b :: b in s[..|s| - 1] ==> b in s;
  }

  lemma {:induction false} MajorGlides(c: Core, s: seq<byte>, skip: nat -> bool)
    requires c.state.FirstMajor? && IsNumber(s) && s[0] != '0'
    ensures Glides(c, s, c.(state := Major, major := Number(s)), [], [], skip)
    decreases |s|
  {
    hide React, Glides;
    if |s| == 1 {
      assert s == [s[0]] && IsNumeral(s[0]);
      FirstDigitGlides(c, s[0], skip);
    } else {
      var init, b := s[..|s| - 1], s[|s| - 1];
      NumberInit(s);
      var x := c.(state := Major, major := Number(init));
      MajorGlides(c, init, skip);
      NextDigitGlides(x, b, Number(s), skip);
      GlidesOnSilently(c, init, x, [], [], [b], c.(state := Major, major := Number(s)), skip);
    }
  }

  lemma {:induction false} MinorGlides(c: Core, s: seq<byte>, skip: nat -> bool)
    requires c.state.FirstMinor? && IsNumber(s)
    ensures Glides(c, s, c.(state := Minor, minor := Number(s)), [], [], skip)
    decreases |s|
  {
    hide React, Glides;
    if |s| == 1 {
      assert s == [s[0]] && IsNumeral(s[0]);
      FirstDigitGlides(c, s[0], skip);
    } else {
      var init, b := s[..|s| - 1], s[|s| - 1];
      NumberInit(s);
      var x := c.(state := Minor, minor := Number(init));
      MinorGlides(c, init, skip);
      NextDigitGlides(x, b, Number(s), skip);
      GlidesOnSilently(c, init, x, [], [], [b], c.(state := Minor, minor := Number(s)), skip);
    }
  }

  lemma PointGlides(c: Core, skip: nat -> bool)
    requires c.state.Major?
    ensures Glides(c, ".", c.(state := FirstMinor), [], [], skip)
  {
    hide React, Glides;
    VersionByteGlides(c, '.', c.(state := FirstMinor), skip);
  }

  /** Numerals of values up to 999, the first of them without a leading zero, are read. */
  lemma {:induction false} NumbersGlide(c: Core, major: seq<byte>, minor: seq<byte>, skip: nat -> bool)
    requires c.state.FirstMajor? && IsNumber(major) && major[0] != '0' && IsNumber(minor)
    ensures Glides(c, major + ("." + minor), c.(state := Minor, major := Number(major), minor := Number(minor)),
                   [], [], skip)
  {
    hide React, IsNumber, Number;
    var x, y, z := c.(state := Major, major := Number(major)), c.(state := FirstMinor, major := Number(major)),
                   c.(state := Minor, major := Number(major), minor := Number(minor));
    MajorGlides(c, major, skip);
    PointGlides(x, skip);
    MinorGlides(y, minor, skip);
    GlidesOnSilently(x, ".", y, [], [], minor, z, skip);
    GlidesOnSilently(c, major, x, [], [], "." + minor, z, skip);
  }

  lemma {:induction false} LineEndGlides(c: Core, e: seq<byte>, skip: nat -> bool)
    requires c.state.Minor? && IsLineEnd(e)
    ensures Glides(c, e, c.(state := FieldStart), [], [], skip)
  {
    hide React, Glides, Shifted, OnNextDigit;
    if e == "\n" {
      VersionByteGlides(c, '\n', c.(state := FieldStart), skip);
    } else {
      VersionByteGlides(c, '\r', c.(state := LineAlmostDone), skip);
      ReturnThenFeed(c, c.(state := LineAlmostDone), skip);
    }
  }

  lemma {:induction false} PrintedGlides(c: Core, v: Version, skip: nat -> bool)
    requires InTarget(c.state) && v.Printed? && v.Valid()
    ensures Glides(c, v.Text(), c.(state := Minor, major := v.Major(), minor := v.Minor()), [], [], skip)
  {
    hide React, Glides, IsNumber, Number;
    var x, y := c.(state := FirstMajor), c.(state := Minor, major := v.Major(), minor := v.Minor());
    ProtocolGlides(c, v.gap, skip);
    NumbersGlide(x, v.major, v.minor, skip);
    assert " " + (Spaces(v.gap) + "HTTP/") + (v.major + ("." + v.minor)) == v.Text();
    GlidesOnSilently(c, " " + (Spaces(v.gap) + "HTTP/"), x, [], [], v.major + ("." + v.minor), y, skip);
  }

  /** The last byte of a line that ends in CR LF. */
  lemma LastFeedGlides(c: Core, skip: nat -> bool)
    requires c.state.LineAlmostDone?
    ensures Glides(c, "\n", c.(state := FieldStart), [], [], skip)
  {
    hide React, Glides;
    VersionByteGlides(c, '\n', c.(state := FieldStart), skip);
  }

  lemma {:induction false} ReturnThenFeed(c: Core, x: Core, skip: nat -> bool)
    requires Glides(c, "\r", x, [], [], skip) && x.state.LineAlmostDone?
    ensures Glides(c, "\r\n", x.(state := FieldStart), [], [], skip)
  {
    hide React, Glides;
    LastFeedGlides(x, skip);
    assert "\r" + "\n" == "\r\n";
    GlidesOnSilently(c, "\r", x, [], [], "\n", x.(state := FieldStart), skip);
  }

  /** A line that ends with its URL is one of HTTP/0.9. */
  lemma {:induction false} NoVersionGlides(c: Core, e: seq<byte>, skip: nat -> bool)
    requires InLocal(c.state) && IsLineEnd(e)
    ensures Glides(c, e, c.(state := FieldStart, major := 0, minor := 9), [], [], skip)
  {
    hide React, Glides, OnUrl;
    UrlEndsLine(c);
    if e == "\n" {
      UrlReaction(c, '\n', skip);
      QuietByteGlides(c, '\n', c.(state := FieldStart, major := 0, minor := 9), skip);
    } else {
      var x := c.(state := LineAlmostDone, major := 0, minor := 9);
      UrlReaction(c, '\r', skip);
      QuietByteGlides(c, '\r', x, skip);
      ReturnThenFeed(c, x, skip);
    }
  }

  lemma UrlEndsLine(c: Core)
    requires InLocal(c.state)
    ensures OnUrl(c, '\r') == To(c.(major := 0, minor := 9), LineAlmostDone)
    ensures OnUrl(c, '\n') == To(c.(major := 0, minor := 9), FieldStart)
  {}

  lemma {:induction false} VersionGlides(c: Core, v: Version, e: seq<byte>, skip: nat -> bool)
    requires (if v.Printed? then InTarget(c.state) else InLocal(c.state)) && v.Valid() && IsLineEnd(e)
    ensures Glides(c, v.Text() + e, c.(state := FieldStart, major := v.Major(), minor := v.Minor()), [], [], skip)
  {
    hide React, Glides;
    var y, z := c.(state := Minor, major := v.Major(), minor := v.Minor()),
                c.(state := FieldStart, major := v.Major(), minor := v.Minor());
    if v.Printed? {
      PrintedGlides(c, v, skip);
      LineEndGlides(y, e, skip);
      GlidesOnSilently(c, v.Text(), y, [], [], e, z, skip);
    } else {
      NoVersionGlides(c, e, skip);
      assert [] + e == e;
    }
  }

  // The line.

  /** The fields after a request line. */
  function Requested(c: Core, line: RequestLine): Core {
    Named(c, line.verb).(state := FieldStart, major := line.version.Major(), minor := line.version.Minor())
  }

  lemma {:induction false} UrlAndVersionGlide(c: Core, line: RequestLine, e: seq<byte>, skip: nat -> bool)
    requires c.state.SpacesBeforeUrl? && line.Valid() && IsLineEnd(e)
    ensures var d := c.(state := FieldStart, major := line.version.Major(), minor := line.version.Minor());
            Glides(c, line.Rest(e), d, line.Heard(Whole), line.Heard(Parts), skip)
  {
    hide React, Glides;
    var z := c.(state := FieldStart, major := line.version.Major(), minor := line.version.Minor());
    SpacesGlide(c, line.gap, skip);
    var d := UrlGlides(c, line, skip);
    VersionGlides(d, line.version, e, skip);
    GlidesOnSilently(c, line.Url(), d, line.Heard(Whole), line.Heard(Parts), line.version.Text() + e, z, skip);
    GlidesAfterSilence(c, Spaces(line.gap), c, line.Url() + (line.version.Text() + e), z,
                       line.Heard(Whole), line.Heard(Parts), skip);
  }

  lemma {:induction false} NameThenGlides(c: Core, m: Method, rest: seq<byte>, d: Core, w: seq<Item>, q: seq<Item>,
                                          skip: nat -> bool)
    requires AwaitsRequest(c) && Glides(Named(c, m), rest, d, w, q, skip)
    ensures Glides(Begun(c, m), Name(m)[1..] + " " + rest, d, w, q, skip)
  {
    hide React;
    AfterFirstGlides(c, m, skip);
    GlidesAfterSilence(Begun(c, m), Name(m)[1..] + " ", Named(c, m), rest, d, w, q, skip);
  }

  /** All of the line but its first byte. */
  lemma {:induction false} LineRestGlides(c: Core, line: RequestLine, e: seq<byte>, skip: nat -> bool)
    requires AwaitsRequest(c) && line.Valid() && IsLineEnd(e)
    ensures Glides(Begun(c, line.verb), Name(line.verb)[1..] + " " + line.Rest(e), Requested(c, line),
                   line.Heard(Whole), line.Heard(Parts), skip)
  {
    hide React, Glides, Begun, Name;
    UrlAndVersionGlide(Named(c, line.verb), line, e, skip);
    NameThenGlides(c, line.verb, line.Rest(e), Requested(c, line), line.Heard(Whole), line.Heard(Parts), skip);
  }

  lemma {:induction false} FirstThenGlide(m: Machine, b: byte, x: Core, s: seq<byte>, d: Core, w: seq<Item>,
                                          q: seq<Item>,
                                          skip: nat -> bool)
    requires Reaches(m, [b], Onward(m, x, 1, BEGIN, BEGIN), skip) && Glides(x, s, d, w, q, skip)
    requires m.nread + 1 + |s| <= MAX_HEADER_SIZE
    ensures Reaches(m, [b] + s, Onward(m, d, 1 + |s|, BEGIN + w, BEGIN + q), skip)
  {
    hide React;
    var y := Onward(m, x, 1, BEGIN, BEGIN);
    GlideRun(y, s, skip);
    OnwardTwice(m, x, 1, BEGIN, BEGIN, d, |s|, w, q);
    ReachesOn(m, [b], y, s, Onward(m, d, 1 + |s|, BEGIN + w, BEGIN + q), skip);
  }

  lemma TextSplits(line: RequestLine, e: seq<byte>) returns (b: byte, s: seq<byte>)
    ensures |Name(line.verb)| > 0 && b == Name(line.verb)[0] && [b] + s == line.Text(e)
    ensures s == Name(line.verb)[1..] + " " + line.Rest(e)
  {
    NameIsPlain(line.verb);
    b, s := Name(line.verb)[0], Name(line.verb)[1..] + " " + line.Rest(e);
  }

  lemma RequestedHolds(c: Core, line: RequestLine)
    ensures Starts(c, line, Requested(c, line))
  {}

  /** What the fields hold after a request line: its method and version, and nothing of the
      message before it. */
  predicate Starts(c: Core, line: RequestLine, d: Core) {
    && d.state.FieldStart? && d.kind.Request? && d.verb == line.verb
    && d.major == line.version.Major() && d.minor == line.version.Minor()
    && d.flags == {} && d.contentLength == 0xFFFF_FFFF_FFFF_FFFF
    && d.upgrade == c.upgrade && d.answered == c.answered
  }

  /** The round trip: a printed request line gives back its method and version in the
      parser's fields, and to the URL callbacks its URL and the parts of it, in order,
      after one message_begin. */
  lemma {:induction false} RequestLineRoundTrip(m: Machine, line: RequestLine, e: seq<byte>, skip: nat -> bool)
    requires AwaitsRequest(m.core) && line.Valid() && IsLineEnd(e)
    requires m.nread + |line.Text(e)| <= MAX_HEADER_SIZE
    ensures var d := Requested(m.core, line);
            && Starts(m.core, line, d)
            && Reaches(m, line.Text(e),
                       Onward(m, d, |line.Text(e)|, BEGIN + line.Heard(Whole), BEGIN + line.Heard(Parts)), skip)
  {
    hide React;
    hide Reaches, Glides, Onward, Begun, Name, Requested, Starts;
    var b, s := TextSplits(line, e);
    FirstByteRun(m, line.verb, skip);
    LineRestGlides(m.core, line, e, skip);
    FirstThenGlide(m, b, Begun(m.core, line.verb), s, Requested(m.core, line), line.Heard(Whole), line.Heard(Parts),
                   skip);
    RequestedHolds(m.core, line);
  }

  /** The line of a request without a version, which ends right after its path, its query or
      its fragment, of which there may be the mark alone: it is one of HTTP/0.9. */
  lemma {:induction false} ShortLineRoundTrip(m: Machine, verb: Method, path: seq<byte>, query: Part, fragment: Part,
                                              e: seq<byte>, skip: nat -> bool)
    returns (d: Core)
    requires AwaitsRequest(m.core) && IsLineEnd(e)
    requires path != [] && (path[0] == '/' || path[0] == '*') && (forall b :: b in path ==> UrlByte(b))
    requires (query.Present? ==> IsQuery(query.bytes)) && (fragment.Present? ==> IsFragment(fragment.bytes))
    requires m.nread + |Name(verb) + " " + (path + query.Text('?') + fragment.Text('#') + e)| <= MAX_HEADER_SIZE
    ensures d.major == 0 && d.minor == 9 && d.verb == verb && d.state.FieldStart?
    ensures var url := path + query.Text('?') + fragment.Text('#');
            var text := Name(verb) + " " + (url + e);
            Reaches(m, text,
                    Onward(m, d, |text|, [Event(MessageBegin)] + Octets(UrlData, url),
                           [Event(MessageBegin)]
                           + (Octets(PathData, path) + Octets(QueryData, query.Bytes('?'))
                              + Octets(FragmentData, fragment.Bytes('#')))), skip)
  {
    hide React, Reaches, Name, Requested, Octets;
    var line := RequestLine(verb, 0, NoOrigin, path, query, fragment, Omitted);
    var url := path + query.Text('?') + fragment.Text('#');
    assert line.Url() == url by { assert [] + url == url; }
    assert line.Rest(e) == url + e by { assert Spaces(0) + (url + ([] + e)) == url + e; }
    RequestLineRoundTrip(m, line, e, skip);
    d := Requested(m.core, line);
  }
}
