/** What every byte keeps: the source's own asserts hold, the saved index fits its
    byte, and the notifications follow the message protocol. */
module HttpInvariant {
  import opened HttpModel
  import opened HttpRun

  /** Bound of `index` while a header name is matched. */
  function NameIndexLimit(h: HeaderState): nat {
    match h
    case HC => 0
    case HCO => 1
    case HCON => 2
    case MatchingConnection => 8
    case MatchingProxyConnection => 14
    case MatchingContentLength => 12
    case MatchingTransferEncoding => 15
    case MatchingUpgrade => 5
    case _ => 16
  }

  /** Bound of `index` while a header value is matched. */
  function ValueIndexLimit(h: HeaderState): nat {
    match h
    case MatchingChunked => 5
    case MatchingKeepAlive => 8
    case MatchingClose => 3
    case _ => 9
  }

  predicate NamesField(h: HeaderState) {
    !(h.MatchingChunked? || h.MatchingKeepAlive? || h.MatchingClose? || h.IsChunked? || h.IsKeepAlive? || h.IsClose?)
  }

  predicate NamesValue(h: HeaderState) {
    || h.General? || h.IsContentLength? || h.MatchingChunked? || h.MatchingKeepAlive? || h.MatchingClose?
    || h.IsChunked? || h.IsKeepAlive? || h.IsClose?
  }

  predicate SwallowsMismatch(m: Method) { m.CONNECT? || m.MKCOL? }

  predicate InTrailerLines(s: State) {
    s.FieldStart? || s.Field? || s.ValueStart? || s.Value? || s.HeaderAlmostDone? || s.HeadersAlmostDone?
  }

  predicate InChunk(s: State) { InChunkFrame(s) || s.ChunkData? }

  /** The fields of a parser that has run from http_parser_init. */
  predicate Valid(c: Core) {
    && c.index <= 255
    && c.contentLength < SIZE_MODULUS
    && (c.state.ReqMethod? ==>
          1 <= c.index <= MethodIndexLimit(c.verb))
    && (c.state.Field? ==> NamesField(c.headerState) && c.index <= NameIndexLimit(c.headerState))
    && (c.state.Value? ==> NamesValue(c.headerState) && c.index <= ValueIndexLimit(c.headerState))
    && (InChunk(c.state) ==> Chunked in c.flags)
    && (c.state.BodyIdentity? || c.state.ChunkData? ==> c.contentLength > 0)
    && !c.state.BodyIdentityEof?
    && (Trailing in c.flags ==>
          InTrailerLines(c.state) || c.state.Dead? || c.state.StartReq? || c.state.StartRes? || c.state.StartReqOrRes?)
  }

  /** From the end of a chunk-size line to the start of the next the counter is 0. */
  predicate CounterIsZero(s: State) { s.ChunkData? || s.ChunkDataAlmostDone? || s.ChunkDataDone? || s.ChunkSizeStart? }

  predicate Good(m: Machine) { Valid(m.core) && (CounterIsZero(m.core.state) ==> m.nread == 0) }

  lemma InitialIsGood(m: Machine)
    requires Initial(m)
    ensures Good(m)
  {}

  // One lemma per part of the switch.

  predicate Keeps(r: Reaction) {
    && !r.Abort?
    && (r.Go? ==> Valid(r.core) && (CounterIsZero(r.core.state) ==> r.resetCounter))
  }

  /** The first byte of a request. */
  lemma AssignMethodKeeps(c: Core, ch: byte)
    requires Valid(c) && InStart(c.state)
    ensures Keeps(AssignMethod(Fresh(c), ch)) && Keeps(AssignMethod(Fresh(c).(kind := Request), ch))
  {}

  lemma StartKeeps(c: Core, ch: byte)
    requires Valid(c) && InStart(c.state)
    ensures Keeps(OnStart(c, ch))
  {
    hide AssignMethod;
    AssignMethodKeeps(c, ch);
  }

  /** States entered by a byte of a start line. */
  predicate InStartLine(s: State) { InStatusLine(s) || InUrl(s) || InVersion(s) || s.FieldStart? }

  /** A byte of a start line changes at most the state, the version and the status. */
  predicate MovesInStartLine(c: Core, r: Reaction) {
    || (r.Fail? && r.notes == [])
    || (&& r.Go? && r.notes == [] && !r.resetCounter && InStartLine(r.core.state)
        && (InStatusLine(r.core.state) ==> InStatusLine(c.state))
        && r.core == c.(state := r.core.state, major := r.core.major, minor := r.core.minor, status := r.core.status))
  }

  lemma StatusLineMoves(c: Core, ch: byte)
    requires InStatusLine(c.state)
    ensures MovesInStartLine(c, OnStatusLine(c, ch))
  {
    hide Shifted, IsDigit;
  }

  lemma EndOfUrlMoves(c: Core, ch: byte)
    ensures MovesInStartLine(c, EndOfUrl(c, ch))
  {}

  lemma UrlMoves(c: Core, ch: byte)
    requires InUrl(c.state)
    ensures MovesInStartLine(c, OnUrl(c, ch))
  {
    hide NormalUrlChar, IsAlpha, IsDigit, EndOfUrl;
    EndOfUrlMoves(c, ch);
  }

  lemma VersionMoves(c: Core, ch: byte)
    requires InVersion(c.state)
    ensures MovesInStartLine(c, OnVersion(c, ch))
  {
    hide Shifted, IsDigit;
  }

  lemma StartLineKeeps(c: Core, r: Reaction)
    requires Valid(c) && (InStatusLine(c.state) || InUrl(c.state) || InVersion(c.state))
    requires MovesInStartLine(c, r)
    ensures Keeps(r)
  {
    hide NamesField, NamesValue, NameIndexLimit, ValueIndexLimit, MethodIndexLimit;
  }

  lemma NameIsShort(m: Method)
    ensures 3 <= |MethodName(m)| <= 11
  {}

  function MethodIndexLimit(m: Method): nat { |MethodName(m)| + (if SwallowsMismatch(m) then 1 else 0) }

  lemma RedirectKeeps(m: Method, i: nat, ch: byte)
    requires 1 <= i <= |MethodName(m)|
    ensures Redirect(m, i, ch).0 ==> i + 1 <= MethodIndexLimit(Redirect(m, i, ch).1)
  {}

  /** The scan of the method reads past the end of the name. */
  predicate PastMethodName(c: Core, ch: byte) {
    c.state.ReqMethod? && ch != '\0' && SwallowsMismatch(c.verb) && c.index == |MethodName(c.verb)| + 1
  }

  lemma MethodKeeps(c: Core, ch: byte)
    requires Valid(c) && c.state.ReqMethod?
    ensures Keeps(OnMethod(c, ch))
    // Only the two methods that swallow mismatches can walk off the end of their name.
    ensures OnMethod(c, ch).Undefined? <==> PastMethodName(c, ch)
  {
    hide MethodName, Redirect;
    NameIsShort(c.verb);
    if c.index <= |MethodName(c.verb)| { RedirectKeeps(c.verb, c.index, ch); }
  }

  lemma HeadersDoneKeeps(c: Core, ch: byte, skip: nat -> bool)
    requires Valid(c) && InTrailerLines(c.state)
    ensures Keeps(OnHeadersDone(c, ch, skip))
  {}

  lemma FieldStartKeeps(c: Core, ch: byte, skip: nat -> bool)
    requires Valid(c) && c.state.FieldStart?
    ensures Keeps(OnField(c, ch, skip))
  {
    HeadersDoneKeeps(c, ch, skip);
  }

  lemma NextFieldStateKeeps(h: HeaderState, i: nat, c: byte)
    requires NamesField(h) && i <= NameIndexLimit(h)
    ensures var (known, h', i') := NextFieldState(h, i, c);
            known && NamesField(h') && i' <= NameIndexLimit(h')
  {}

  /** A byte of a header line changes at most the state, the scratch of the matcher, the
      length and the flags. */
  predicate MovesInHeaderLine(c: Core, r: Reaction) {
    || r.Fail?
    || (&& r.Go? && r.notes == [] && !r.resetCounter && InTrailerLines(r.core.state)
        && r.core == c.(state := r.core.state, headerState := r.core.headerState, index := r.core.index,
                        contentLength := r.core.contentLength, flags := r.core.flags)
        && r.core.index <= 255 && r.core.contentLength < SIZE_MODULUS)
  }

  lemma HeaderLineKeeps(c: Core, r: Reaction)
    requires Valid(c) && MovesInHeaderLine(c, r)
    requires r.Go? && r.core.state.Field? ==>
               NamesField(r.core.headerState) && r.core.index <= NameIndexLimit(r.core.headerState)
    requires r.Go? && r.core.state.Value? ==>
               NamesValue(r.core.headerState) && r.core.index <= ValueIndexLimit(r.core.headerState)
    ensures Keeps(r)
  {}

  lemma FieldMoves(c: Core, ch: byte, skip: nat -> bool)
    requires Valid(c) && c.state.Field?
    ensures var r := OnField(c, ch, skip);
            && MovesInHeaderLine(c, r)
            && (r.Go? && r.core.state.Field? ==>
                  NamesField(r.core.headerState) && r.core.index <= NameIndexLimit(r.core.headerState))
            && (r.Go? ==> !r.core.state.Value?)
  {
    hide NextFieldState, OnHeadersDone;
    NextFieldStateKeeps(c.headerState, c.index, Token(ch));
  }

  lemma FieldKeeps(c: Core, ch: byte, skip: nat -> bool)
    requires Valid(c) && c.state.Field?
    ensures Keeps(OnField(c, ch, skip))
  {
    hide OnField;
    FieldMoves(c, ch, skip);
    HeaderLineKeeps(c, OnField(c, ch, skip));
  }

  lemma ValueStartMoves(c: Core, ch: byte)
    requires c.state.ValueStart? && c.index <= 255 && c.contentLength < SIZE_MODULUS
    ensures MovesInHeaderLine(c, OnValueStart(c, ch))
    ensures var r := OnValueStart(c, ch);
            r.Go? && r.core.state.Value? ==> NamesValue(r.core.headerState) && r.core.index == 0
    ensures OnValueStart(c, ch).Go? ==> !OnValueStart(c, ch).core.state.Field?
  {}

  lemma ValueStartKeeps(c: Core, ch: byte)
    requires Valid(c) && c.state.ValueStart?
    ensures Keeps(OnValueStart(c, ch))
  {
    hide OnValueStart;
    ValueStartMoves(c, ch);
    HeaderLineKeeps(c, OnValueStart(c, ch));
  }

  /** A value byte other than CR and LF stays in the value. */
  lemma ValueMoves(c: Core, ch: byte)
    requires NamesValue(c.headerState) && c.index <= ValueIndexLimit(c.headerState) && c.contentLength < SIZE_MODULUS
    requires ch != '\r' && ch != '\n'
    ensures var r := OnValue(c, ch);
            || r.Fail?
            || (&& r.Go? && r.notes == [] && !r.resetCounter
                && NamesValue(r.core.headerState) && r.core.index <= ValueIndexLimit(r.core.headerState)
                && r.core.contentLength < SIZE_MODULUS
                && r.core == c.(state := Value, headerState := r.core.headerState, index := r.core.index,
                                contentLength := r.core.contentLength))
  {}

  lemma ValueKeeps(c: Core, ch: byte)
    requires Valid(c) && c.state.Value?
    ensures Keeps(OnValue(c, ch))
  {
    if ch != '\r' && ch != '\n' {
      ValueMoves(c, ch);
    }
  }

  /** A byte of the chunked framing changes at most the state, the length and the flags. */
  predicate MovesInFrame(c: Core, r: Reaction) {
    || r.Fail?
    || (&& r.Go? && r.notes == []
        && r.core == c.(state := r.core.state, contentLength := r.core.contentLength, flags := r.core.flags)
        && r.core.contentLength < SIZE_MODULUS
        && (r.core.state.FieldStart? || (InChunk(r.core.state) && r.core.flags == c.flags))
        && Chunked in r.core.flags
        && (r.core.state.ChunkData? ==> r.core.contentLength > 0)
        && (CounterIsZero(r.core.state) ==> r.resetCounter || (CounterIsZero(c.state) && !c.state.ChunkSizeStart?)))
  }

  lemma ChunkFrameMoves(c: Core, ch: byte)
    requires InChunkFrame(c.state) && Chunked in c.flags && c.contentLength < SIZE_MODULUS
    ensures MovesInFrame(c, OnChunkFrame(c, ch))
  {}

  lemma ChunkFrameKeeps(c: Core, ch: byte)
    requires Valid(c) && InChunkFrame(c.state)
    ensures !OnChunkFrame(c, ch).Abort?
    ensures OnChunkFrame(c, ch).Go? ==>
              Valid(OnChunkFrame(c, ch).core)
              && (CounterIsZero(OnChunkFrame(c, ch).core.state) ==>
                    OnChunkFrame(c, ch).resetCounter || (CounterIsZero(c.state) && !c.state.ChunkSizeStart?))
  {
    hide OnChunkFrame;
    ChunkFrameMoves(c, ch);
  }

  lemma BodyKeeps(c: Core)
    requires Valid(c) && InBody(c.state)
    ensures !OnBody(c).Abort?
    ensures OnBody(c).Go? ==>
              Valid(OnBody(c).core) && (CounterIsZero(OnBody(c).core.state) ==> c.state.ChunkData?)
  {}

  lemma HeaderDoneKeeps(c: Core, ch: byte)
    requires Valid(c) && c.state.HeaderAlmostDone?
    ensures Keeps(OnHeaderDone(c, ch))
  {
    HeaderLineKeeps(c, OnHeaderDone(c, ch));
  }

  lemma ReactKeeps(c: Core, ch: byte, skip: nat -> bool)
    requires Valid(c)
    ensures !React(c, ch, skip).Abort?
    ensures React(c, ch, skip).Go? ==>
              Valid(React(c, ch, skip).core)
              && (CounterIsZero(React(c, ch, skip).core.state) ==>
                    React(c, ch, skip).resetCounter || (CounterIsZero(c.state) && !c.state.ChunkSizeStart?))
  {
    hide OnStart, OnStatusLine, OnMethod, OnUrl, OnVersion, OnField, OnValueStart, OnValue;
    hide OnHeaderDone, OnHeadersDone, OnBody, OnChunkFrame, Valid, MovesInStartLine;
    if InStart(c.state) { StartKeeps(c, ch); }
    else if InStatusLine(c.state) { StatusLineMoves(c, ch); StartLineKeeps(c, OnStatusLine(c, ch)); }
    else if c.state.ReqMethod? { MethodKeeps(c, ch); }
    else if InUrl(c.state) { UrlMoves(c, ch); StartLineKeeps(c, OnUrl(c, ch)); }
    else if InVersion(c.state) { VersionMoves(c, ch); StartLineKeeps(c, OnVersion(c, ch)); }
    else if c.state.FieldStart? { FieldStartKeeps(c, ch, skip); }
    else if c.state.Field? { FieldKeeps(c, ch, skip); }
    else if c.state.ValueStart? { ValueStartKeeps(c, ch); }
    else if c.state.Value? { ValueKeeps(c, ch); }
    else if c.state.HeaderAlmostDone? { HeaderDoneKeeps(c, ch); }
    else if c.state.HeadersAlmostDone? { HeadersDoneKeeps(c, ch, skip); }
    else if InBody(c.state) { BodyKeeps(c); }
    else { ChunkFrameKeeps(c, ch); }
  }

  // In a header line, what was heard last is its name or its value.

  lemma OthersLeadElsewhere(c: Core, ch: byte, skip: nat -> bool)
    ensures InStart(c.state) && OnStart(c, ch).Go? ==> !OnStart(c, ch).core.state.ValueStart?
    ensures OnHeadersDone(c, ch, skip).Go? ==> !OnHeadersDone(c, ch, skip).core.state.ValueStart?
    ensures OnHeaderDone(c, ch).Go? ==> !OnHeaderDone(c, ch).core.state.ValueStart?
    ensures InChunkFrame(c.state) && OnChunkFrame(c, ch).Go? ==> !OnChunkFrame(c, ch).core.state.ValueStart?
    ensures InBody(c.state) && OnBody(c).Go? ==> !OnBody(c).core.state.ValueStart?
  {}

  lemma MethodLeadsElsewhere(c: Core, ch: byte)
    ensures OnMethod(c, ch).Go? ==> !OnMethod(c, ch).core.state.ValueStart?
  {
    hide MethodName, Redirect;
  }

  lemma ValueLeadsElsewhere(c: Core, ch: byte)
    ensures OnValue(c, ch).Go? ==> !OnValue(c, ch).core.state.ValueStart?
  {
    hide MatchName;
  }

  lemma FieldLeadsToValue(c: Core, ch: byte, skip: nat -> bool)
    requires InField(c.state)
    ensures var r := OnField(c, ch, skip);
            r.Go? && r.core.state.ValueStart? ==> c.state.Field? && r.notes == []
  {
    hide NextFieldState, FirstFieldState, OnHeadersDone;
    OthersLeadElsewhere(c, ch, skip);
  }

  lemma ToValueStart(c: Core, ch: byte, skip: nat -> bool)
    ensures var r := React(c, ch, skip);
            r.Go? && r.core.state.ValueStart? ==>
              r.notes == [] && (c.state.Field? || (c.state.ValueStart? && !Empties(c.state, ch)))
  {
    hide OnStart, OnStatusLine, OnMethod, OnUrl, OnVersion, OnField, OnValue, OnHeaderDone, OnHeadersDone, OnBody,
        OnChunkFrame;
    OthersLeadElsewhere(c, ch, skip);
    if InStatusLine(c.state) { StatusLineMoves(c, ch); }
    else if c.state.ReqMethod? { MethodLeadsElsewhere(c, ch); }
    else if InUrl(c.state) { UrlMoves(c, ch); }
    else if InVersion(c.state) { VersionMoves(c, ch); }
    else if InField(c.state) { FieldLeadsToValue(c, ch, skip); }
    else if c.state.Value? { ValueLeadsElsewhere(c, ch); }
  }

  lemma SilentBeforeValue(ch: Channel, c: Core, b: byte)
    requires c.state.Field? || (c.state.ValueStart? && !Empties(c.state, b))
    ensures Heard(ch, c, [], ValueStart, b) == []
  {}

  lemma VoiceComesLast(ch: Channel, before: Core, notes: seq<Note>, s: State, b: byte, k: DataKind, items: seq<Item>)
    requires SpanOf(ch, s) == Speaks(k)
    ensures EndsIn(items + Heard(ch, before, notes, s, b), k)
  {
    hide SpanOf, Delivers, Empties, Events;
    assert Heard(ch, before, notes, s, b)[|Heard(ch, before, notes, s, b)| - 1] == Octet(k, b);
  }

  lemma HearingInWords(m: Machine, b: byte, c: Core, notes: seq<Note>, nread: nat)
    requires InWords(m)
    requires c.state.ValueStart? ==>
               notes == [] && (m.core.state.Field? || (m.core.state.ValueStart? && !Empties(m.core.state, b)))
    ensures InWords(Hear(m, b, c, notes, nread))
  {
    hide Heard;
    if c.state.ValueStart? {
      SilentBeforeValue(Whole, m.core, b);
      SilentBeforeValue(Parts, m.core, b);
      assert m.whole + [] == m.whole && m.parts + [] == m.parts;
    } else if c.state.Field? {
      VoiceComesLast(Whole, m.core, notes, c.state, b, FieldData, m.whole);
      VoiceComesLast(Parts, m.core, notes, c.state, b, FieldData, m.parts);
    } else if c.state.Value? {
      VoiceComesLast(Whole, m.core, notes, c.state, b, ValueData, m.whole);
      VoiceComesLast(Parts, m.core, notes, c.state, b, ValueData, m.parts);
    }
  }

  lemma StepInWords(m: Machine, b: byte, skip: nat -> bool)
    requires InWords(m) && Step(m, b, skip).Running?
    ensures InWords(Step(m, b, skip).m)
  {
    hide React, InWords, Hear, Empties;
    ToValueStart(m.core, b, skip);
    var r := React(m.core, b, skip);
    HearingInWords(m, b, r.core, r.notes, if r.resetCounter then 0 else Counted(m));
  }

  lemma {:induction false} RunInWords(m: Machine, data: seq<byte>, skip: nat -> bool)
    requires InWords(m) && Run(m, data, skip).Running?
    ensures InWords(Run(m, data, skip).m)
  {
    hide React, InWords, Step;
    if data != [] {
      var init := data[..|data| - 1];
      RunInWords(m, init, skip);
      StepInWords(Run(m, init, skip).m, data[|data| - 1], skip);
    }
  }

  // Where the source reads or points outside its objects.

  /** The scan of a swallowing method is past the end of its name, or the size of a chunk
      does not fit the signed type the source casts it to. */
  predicate LeavesItsObjects(c: Core, ch: byte) {
    PastMethodName(c, ch) || (c.state.ChunkData? && c.contentLength >= 0x8000_0000_0000_0000)
  }

  lemma OnlyTwoLeave(c: Core, ch: byte, skip: nat -> bool)
    ensures InStart(c.state) ==> !OnStart(c, ch).Undefined?
    ensures InField(c.state) ==> !OnField(c, ch, skip).Undefined?
    ensures !OnValueStart(c, ch).Undefined? && !OnHeaderDone(c, ch).Undefined? && !OnHeadersDone(c, ch, skip).Undefined?
    ensures InChunkFrame(c.state) ==> !OnChunkFrame(c, ch).Undefined?
  {}

  lemma ValueStaysInside(c: Core, ch: byte)
    ensures !OnValue(c, ch).Undefined?
  {
    hide MatchName;
  }

  lemma ChunkDataLeaves(c: Core)
    requires Valid(c) && InBody(c.state)
    ensures OnBody(c).Undefined? <==> c.state.ChunkData? && c.contentLength >= SIGNED_LIMIT
  {}

  /** The memory-safety condition of the whole switch, for every parser that has run from
      http_parser_init. */
  lemma UndefinedExactlyWhen(c: Core, ch: byte, skip: nat -> bool)
    requires Valid(c)
    ensures React(c, ch, skip).Undefined? <==> LeavesItsObjects(c, ch)
  {
    hide OnStart, OnStatusLine, OnMethod, OnUrl, OnVersion, OnField, OnValueStart, OnValue;
    hide OnHeaderDone, OnHeadersDone, OnBody, OnChunkFrame, Valid;
    OnlyTwoLeave(c, ch, skip);
    ValueStaysInside(c, ch);
    if InStatusLine(c.state) { StatusLineMoves(c, ch); }
    else if c.state.ReqMethod? { MethodKeeps(c, ch); }
    else if InUrl(c.state) { UrlMoves(c, ch); }
    else if InVersion(c.state) { VersionMoves(c, ch); }
    else if InBody(c.state) { ChunkDataLeaves(c); }
  }

  /** The run comes to such a byte, under the header limit. */
  predicate ComesToLeave(m: Machine, data: seq<byte>, k: nat, skip: nat -> bool) {
    k < |data| && Run(m, data[..k], skip).Running?
    && var at := Run(m, data[..k], skip).m;
       LeavesItsObjects(at.core, data[k]) && (ParsingHeader(at.core.state) ==> at.nread < MAX_HEADER_SIZE)
  }

  lemma StepUndefined(m: Machine, b: byte, skip: nat -> bool)
    requires Good(m)
    ensures Step(m, b, skip).Undef?
            <==> LeavesItsObjects(m.core, b) && (ParsingHeader(m.core.state) ==> m.nread < MAX_HEADER_SIZE)
  {
    hide React, Valid;
    UndefinedExactlyWhen(m.core, b, skip);
  }

  lemma ComesAtTheEnd(m: Machine, init: seq<byte>, b: byte, skip: nat -> bool)
    requires Good(m)
    ensures ComesToLeave(m, init + [b], |init|, skip)
            <==> Run(m, init, skip).Running? && Step(Run(m, init, skip).m, b, skip).Undef?
  {
    hide React, Valid, LeavesItsObjects, Step;
    RunKeeps(m, init, skip);
    assert (init + [b])[..|init|] == init;
    if Run(m, init, skip).Running? { StepUndefined(Run(m, init, skip).m, b, skip); }
  }

  lemma ComesBefore(m: Machine, init: seq<byte>, b: byte, k: nat, skip: nat -> bool)
    requires k < |init|
    ensures ComesToLeave(m, init + [b], k, skip) <==> ComesToLeave(m, init, k, skip)
  {
    hide React, Run, LeavesItsObjects;
    assert (init + [b])[..k] == init[..k];
  }

  /** A run leaves what C defines exactly where it comes to such a byte. */
  lemma {:induction false} RunUndefined(m: Machine, data: seq<byte>, skip: nat -> bool)
    requires Good(m)
    ensures Run(m, data, skip).Undef? <==> exists k :: ComesToLeave(m, data, k, skip)
  {
    hide React, Good, Step;
    if data != [] {
      var init, b := data[..|data| - 1], data[|data| - 1];
      assert init + [b] == data;
      RunUndefined(m, init, skip);
      ComesAtTheEnd(m, init, b, skip);
      forall k | 0 <= k < |init| { ComesBefore(m, init, b, k, skip); }
      OnlyUpToTheEnd(m, init, b, skip);
    }
  }

  lemma OnlyUpToTheEnd(m: Machine, init: seq<byte>, b: byte, skip: nat -> bool)
    requires forall k :: 0 <= k < |init| ==> (ComesToLeave(m, init + [b], k, skip) <==> ComesToLeave(m, init, k, skip))
    ensures (exists k :: ComesToLeave(m, init + [b], k, skip))
            <==> (exists k :: ComesToLeave(m, init, k, skip)) || ComesToLeave(m, init + [b], |init|, skip)
  {
    hide React, Run;
    forall k | ComesToLeave(m, init, k, skip) ensures ComesToLeave(m, init + [b], k, skip) {}
  }

  // A stream that does it.

  /** M, and n times X. */
  function Swallowed(n: nat): seq<byte> { if n == 0 then "M" else Swallowed(n - 1) + "X" }

  /** The request parser m after them: every X taken for a byte of MKCOL. */
  function Swallowing(m: Machine, n: nat): Machine {
    Machine(Fresh(m.core).(verb := MKCOL, index := n + 1, state := ReqMethod), n + 1, n + 1,
            [Event(MessageBegin)], [Event(MessageBegin)])
  }

  lemma TakesM(m: Machine, skip: nat -> bool)
    requires Initial(m) && m.core.kind.Request?
    ensures Step(m, 'M', skip) == Running(Swallowing(m, 0))
  {
    hide React;
    StartReaction(m.core, 'M', skip);
    assert Events([MessageBegin]) == [Event(MessageBegin)];
    hide Heard;
    OnlyNotesHeard(Whole, m.core, [MessageBegin], ReqMethod, 'M');
    OnlyNotesHeard(Parts, m.core, [MessageBegin], ReqMethod, 'M');
  }

  lemma TakesX(m: Machine, n: nat, skip: nat -> bool)
    requires n < 5
    ensures Step(Swallowing(m, n), 'X', skip) == Running(Swallowing(m, n + 1))
  {
    hide React;
    var x, d := Swallowing(m, n), Swallowing(m, n + 1);
    assert MethodName(MKCOL) == "MKCOL";
    MethodReaction(x.core, 'X', skip);
    QuietStep(x, 'X', d.core, false, skip);
    assert x.whole + [] == d.whole;
  }

  lemma {:induction false} SwallowsOn(m: Machine, n: nat, skip: nat -> bool)
    requires Initial(m) && m.core.kind.Request? && n <= 5
    ensures Run(m, Swallowed(n), skip) == Running(Swallowing(m, n))
  {
    hide React, Step, Swallowing;
    if n == 0 {
      RunByte(m, 'M', skip);
      TakesM(m, skip);
    } else {
      SwallowsOn(m, n - 1, skip);
      RunAppend(m, Swallowed(n - 1), "X", skip);
      RunByte(Swallowing(m, n - 1), 'X', skip);
      TakesX(m, n - 1, skip);
    }
  }

  /** From http_parser_init(HTTP_REQUEST), M and six times X read past the method's name. */
  lemma {:induction false} MethodWalksOff(m: Machine, skip: nat -> bool)
    requires Initial(m) && m.core.kind.Request?
    ensures Run(m, "MXXXXXX", skip) == Undef
  {
    hide React, Step, Swallowing, Run, Swallowed, Initial;
    SwallowsOn(m, 5, skip);
    SpellsOut();
    RunAppend(m, Swallowed(5), "X", skip);
    RunByte(Swallowing(m, 5), 'X', skip);
    SixthX(m, skip);
  }

  lemma SixthX(m: Machine, skip: nat -> bool)
    ensures Step(Swallowing(m, 5), 'X', skip) == Undef
  {
    hide React;
    assert MethodName(MKCOL) == "MKCOL";
    MethodReaction(Swallowing(m, 5).core, 'X', skip);
  }

  lemma SpellsOut()
    ensures Swallowed(5) + "X" == "MXXXXXX"
  {
    assert Swallowed(1) == "MX" && Swallowed(2) == Swallowed(1) + "X" && Swallowed(3) == Swallowed(2) + "X";
    assert Swallowed(4) == Swallowed(3) + "X" && Swallowed(5) == Swallowed(4) + "X";
  }

  lemma StepKeeps(m: Machine, b: byte, skip: nat -> bool)
    requires Good(m)
    ensures !Step(m, b, skip).Aborted?
    ensures Step(m, b, skip).Running? ==> Good(Step(m, b, skip).m)
  {
    hide React;
    ReactKeeps(m.core, b, skip);
  }

  lemma {:induction false} RunKeeps(m: Machine, data: seq<byte>, skip: nat -> bool)
    requires Good(m)
    ensures !Run(m, data, skip).Aborted?
    ensures Run(m, data, skip).Running? ==> Good(Run(m, data, skip).m)
  {
    hide React;
    if data != [] {
      var init := data[..|data| - 1];
      RunKeeps(m, init, skip);
      if Run(m, init, skip).Running? {
        StepKeeps(Run(m, init, skip).m, data[|data| - 1], skip);
      }
    }
  }

  /** Storing the index in an unsigned char loses nothing. */
  lemma SaveKeeps(m: Machine)
    requires Good(m)
    ensures Good(Save(m)) && Save(m).core == m.core
  {
    assert m.core.index % 256 == m.core.index;
  }

  lemma {:induction false} CallKeeps(m: Machine, data: seq<byte>, skip: nat -> bool)
    requires Good(m)
    ensures !Call(m, data, skip).Aborted?
    ensures Call(m, data, skip).Running? ==> Good(Call(m, data, skip).m)
  {
    hide React;
    RunKeeps(m, data, skip);
    if Run(m, data, skip).Running? {
      SaveKeeps(Run(m, data, skip).m);
    }
  }

  /** No assert of the source fails in any sequence of calls from http_parser_init. */
  lemma {:induction false} AssertsHold(m: Machine, pieces: seq<seq<byte>>, skip: nat -> bool)
    requires Good(m)
    ensures !Calls(m, pieces, skip).Aborted?
    ensures Calls(m, pieces, skip).Running? ==> Good(Calls(m, pieces, skip).m)
  {
    hide React;
    if pieces != [] {
      var init := pieces[..|pieces| - 1];
      AssertsHold(m, init, skip);
      if Calls(m, init, skip).Running? {
        CallKeeps(Calls(m, init, skip).m, pieces[|pieces| - 1], skip);
      }
    }
  }
}
