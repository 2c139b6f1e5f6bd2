/** The notification protocol of a request parser. */
module HttpProtocol {
  import opened HttpModel
  import opened HttpRun
  import opened HttpInvariant

  function NotesOf(items: seq<Item>): seq<Note> {
    if items == [] then []
    else
      NotesOf(items[..|items| - 1])
      + match items[|items| - 1]
        case Event(n) => [n]
        case _ => []
  }

  function Cycle(i: nat): Note {
    if i % 3 == 0 then MessageBegin else if i % 3 == 1 then HeadersComplete else MessageComplete
  }

  /** A prefix of (begin, headers complete, message complete) repeated. */
  predicate Protocol(notes: seq<Note>) { forall i :: 0 <= i < |notes| ==> notes[i] == Cycle(i) }

  predicate RequestParser(c: Core) {
    c.kind.Request? && !c.state.StartReqOrRes? && !c.state.ResOrRespH? && !c.state.StartRes? && !InStatusLine(c.state)
  }

  /** How many notifications of the current message have been raised. */
  function Phase(c: Core): nat {
    if c.state.Dead? || c.state.StartReq? then 0
    else if InTrailerLines(c.state) then (if Trailing in c.flags then 2 else 1)
    else if InChunk(c.state) || InBody(c.state) then 2
    else 1
  }

  predicate Continues(notes: seq<Note>, phase: nat) { forall i :: 0 <= i < |notes| ==> notes[i] == Cycle(phase + i) }

  /** A reaction raises the notifications that are due, and no others. */
  predicate InPhase(c: Core, r: Reaction) {
    match r
    case Go(c', notes, _) => RequestParser(c') && Continues(notes, Phase(c)) && (Phase(c) + |notes|) % 3 == Phase(c')
    case Fail(notes, _) => Continues(notes, Phase(c))
    case Leave(_, notes) => Continues(notes, Phase(c))
    case _ => true
  }

  lemma StartInPhase(c: Core, ch: byte)
    requires RequestParser(c) && InStart(c.state)
    ensures InPhase(c, OnStart(c, ch))
  {}

  lemma StartLineInPhase(c: Core, r: Reaction)
    requires Trailing !in c.flags && RequestParser(c) && (InUrl(c.state) || InVersion(c.state))
    requires MovesInStartLine(c, r)
    ensures InPhase(c, r)
  {}

  lemma NotInTrailer(c: Core)
    requires Valid(c) && (InUrl(c.state) || InVersion(c.state))
    ensures Trailing !in c.flags
  {}

  lemma HeadersDoneInPhase(c: Core, ch: byte, skip: nat -> bool)
    requires RequestParser(c) && InTrailerLines(c.state)
    ensures InPhase(c, OnHeadersDone(c, ch, skip))
  {
    hide ShouldKeepAlive;
    var r := OnHeadersDone(c, ch, skip);
    if r.Go? {
      assert r.notes == [HeadersComplete] || r.notes == [MessageComplete]
          || r.notes == [HeadersComplete, MessageComplete];
    }
  }

  lemma FieldStartInPhase(c: Core, ch: byte, skip: nat -> bool)
    requires RequestParser(c) && c.state.FieldStart?
    ensures InPhase(c, OnField(c, ch, skip))
  {
    hide OnHeadersDone, FirstFieldState;
    HeadersDoneInPhase(c, ch, skip);
  }

  predicate InHeaderLine(s: State) { s.Field? || s.ValueStart? || s.Value? || s.HeaderAlmostDone? }

  /** A byte of a header line, other than the one that ends the headers, is silent and
      leaves the parser among the header lines. */
  predicate SilentInHeaders(c: Core, r: Reaction) {
    || (r.Fail? && r.notes == [])
    || r.Abort?
    || (r.Go? && r.notes == [] && r.core.kind == c.kind && InTrailerLines(r.core.state)
        && (Trailing in r.core.flags <==> Trailing in c.flags))
  }

  lemma FieldSilent(c: Core, ch: byte, skip: nat -> bool)
    requires c.state.Field?
    ensures SilentInHeaders(c, OnField(c, ch, skip))
  {}

  lemma ValueStartSilent(c: Core, ch: byte)
    ensures c.state.ValueStart? ==> SilentInHeaders(c, OnValueStart(c, ch))
    ensures c.state.HeaderAlmostDone? ==> SilentInHeaders(c, OnHeaderDone(c, ch))
  {}

  lemma ValueSilent(c: Core, ch: byte)
    ensures SilentInHeaders(c, OnValue(c, ch))
  {}

  lemma HeaderLineInPhase(c: Core, ch: byte, skip: nat -> bool)
    requires RequestParser(c) && InHeaderLine(c.state)
    ensures InPhase(c, React(c, ch, skip))
  {
    hide OnField, OnValueStart, OnValue, OnHeaderDone, React;
    if c.state.Field? { FieldReaction(c, ch, skip); FieldSilent(c, ch, skip); }
    else if c.state.Value? { ValueReaction(c, ch, skip); ValueSilent(c, ch); }
    else if c.state.ValueStart? { ValueStartReaction(c, ch, skip); ValueStartSilent(c, ch); }
    else { HeaderDoneReaction(c, ch, skip); ValueStartSilent(c, ch); }
  }

  lemma MethodInPhase(c: Core, ch: byte)
    requires RequestParser(c) && c.state.ReqMethod?
    ensures InPhase(c, OnMethod(c, ch))
  {}

  lemma BodyInPhase(c: Core)
    requires Valid(c) && RequestParser(c) && InBody(c.state)
    ensures InPhase(c, OnBody(c))
  {}

  lemma ChunkFrameInPhase(c: Core, ch: byte)
    requires Valid(c) && RequestParser(c) && InChunkFrame(c.state)
    ensures InPhase(c, OnChunkFrame(c, ch))
  {
    hide OnChunkFrame;
    ChunkFrameMoves(c, ch);
    TrailingAfterSize(c, ch);
  }

  lemma TrailingAfterSize(c: Core, ch: byte)
    requires InChunkFrame(c.state)
    ensures var r := OnChunkFrame(c, ch);
            && (r.Go? && r.core.state.FieldStart? ==> Trailing in r.core.flags)
            && (r.Fail? ==> r.notes == [])
  {}

  /** A byte of the request line. */
  lemma RequestLineInPhase(c: Core, ch: byte)
    requires Valid(c) && RequestParser(c)
    ensures c.state.ReqMethod? ==> InPhase(c, OnMethod(c, ch))
    ensures InUrl(c.state) ==> InPhase(c, OnUrl(c, ch))
    ensures InVersion(c.state) ==> InPhase(c, OnVersion(c, ch))
  {
    hide OnMethod, OnUrl, OnVersion, Valid, InPhase;
    if c.state.ReqMethod? { MethodInPhase(c, ch); }
    else if InUrl(c.state) { UrlMoves(c, ch); NotInTrailer(c); StartLineInPhase(c, OnUrl(c, ch)); }
    else if InVersion(c.state) { VersionMoves(c, ch); NotInTrailer(c); StartLineInPhase(c, OnVersion(c, ch)); }
  }

  lemma ReactInPhase(c: Core, ch: byte, skip: nat -> bool)
    requires Valid(c) && RequestParser(c)
    ensures InPhase(c, React(c, ch, skip))
  {
    hide OnStart, OnStatusLine, OnMethod, OnUrl, OnVersion, OnField, OnValueStart, OnValue;
    hide OnHeaderDone, OnHeadersDone, OnBody, OnChunkFrame, Valid, InPhase;
    if InStart(c.state) { StartInPhase(c, ch); }
    else if c.state.FieldStart? { FieldStartInPhase(c, ch, skip); }
    else if c.state.HeadersAlmostDone? { HeadersDoneInPhase(c, ch, skip); }
    else if InHeaderLine(c.state) { HeaderLineInPhase(c, ch, skip); }
    else if InBody(c.state) { BodyInPhase(c); }
    else if InChunkFrame(c.state) { ChunkFrameInPhase(c, ch); }
    else { RequestLineInPhase(c, ch); }
  }

  lemma {:induction false} NotesAppend(a: seq<Item>, b: seq<Item>)
    ensures NotesOf(a + b) == NotesOf(a) + NotesOf(b)
    decreases |b|
  {
    if b == [] {
      assert a + b == a;
    } else {
      assert (a + b)[..|a + b| - 1] == a + b[..|b| - 1];
      NotesAppend(a, b[..|b| - 1]);
    }
  }

  lemma {:induction false} NotesOfEvents(notes: seq<Note>)
    ensures NotesOf(Events(notes)) == notes
    decreases |notes|
  {
    if notes != [] {
      var init := notes[..|notes| - 1];
      assert Events(notes)[..|notes| - 1] == Events(init);
      NotesOfEvents(init);
    }
  }

  lemma NoNotes(item: Item)
    requires !item.Event?
    ensures NotesOf([item]) == []
  {
    assert [item][..0] == [];
  }

  lemma VoiceHasNoNotes(ch: Channel, s: State, b: byte)
    ensures NotesOf(Voice(ch, s, b)) == []
  {
    hide SpanOf;
    if SpanOf(ch, s).Speaks? { NoNotes(Octet(SpanOf(ch, s).kind, b)); }
  }

  lemma SoundHasNoNotes(ch: Channel, before: State, after: State, b: byte)
    ensures NotesOf(Sound(ch, before, after, b)) == []
  {
    hide Voice, Empties;
    var blank := if Empties(before, b) then [Blank] else [];
    NoNotes(Blank);
    VoiceHasNoNotes(ch, after, b);
    NotesAppend(blank, Voice(ch, after, b));
  }

  /** Both channels hear the same notifications. */
  lemma NotesHeard(ch: Channel, before: Core, notes: seq<Note>, after: State, b: byte)
    ensures NotesOf(Heard(ch, before, notes, after, b)) == notes
  {
    hide Sound, Delivers, Events;
    var body := if Delivers(before) then [Octet(BodyData, b)] else [];
    NotesAppend(body + Events(notes), Sound(ch, before.state, after, b));
    NotesAppend(body, Events(notes));
    NotesOfEvents(notes);
    NoNotes(Octet(BodyData, b));
    SoundHasNoNotes(ch, before.state, after, b);
  }

  /** The state of a request parser agrees with what has been notified. */
  predicate OnProtocol(m: Machine) {
    && Good(m) && RequestParser(m.core)
    && Protocol(NotesOf(m.whole)) && |NotesOf(m.whole)| % 3 == Phase(m.core)
  }

  lemma ProtocolExtends(notes: seq<Note>, more: seq<Note>, phase: nat)
    requires Protocol(notes) && |notes| % 3 == phase && Continues(more, phase)
    ensures Protocol(notes + more)
  {
    forall i | 0 <= i < |notes + more|
      ensures (notes + more)[i] == Cycle(i)
    {
      if i >= |notes| {
        var j := i - |notes|;
        assert more[j] == Cycle(phase + j);
        assert (phase + j) % 3 == i % 3;
      }
    }
  }

  /** What was heard when a call stops, on whichever channel. */
  predicate StopsOnProtocol(r: Result) {
    (r.Failed? || r.Left? || r.Running?) ==> Protocol(NotesOf(r.m.whole))
  }

  /** A step's outcome adds the reaction's notifications to those heard. */
  predicate NotedBy(m: Machine, r: Reaction, s: Result) {
    match s
    case Running(m') => r.Go? && m'.core == r.core && NotesOf(m'.whole) == NotesOf(m.whole) + r.notes
    case Left(m') => r.Leave? && NotesOf(m'.whole) == NotesOf(m.whole) + r.notes
    case Failed(m') => m'.whole == m.whole || (r.Fail? && NotesOf(m'.whole) == NotesOf(m.whole) + r.notes)
    case _ => true
  }

  lemma StepNotes(m: Machine, b: byte, skip: nat -> bool)
    ensures NotedBy(m, React(m.core, b, skip), Step(m, b, skip))
  {
    hide React;
    match React(m.core, b, skip)
    case Go(c, notes, _) =>
      NotesHeard(Whole, m.core, notes, c.state, b);
      NotesAppend(m.whole, Heard(Whole, m.core, notes, c.state, b));
    case Fail(notes, _) =>
      NotesOfEvents(notes);
      NotesAppend(m.whole, Events(notes));
    case Leave(c, notes) =>
      NotesHeard(Whole, m.core, notes, c.state, b);
      NotesAppend(m.whole, Heard(Whole, m.core, notes, c.state, b));
    case _ =>
  }

  lemma OutcomeOnProtocol(m: Machine, r: Reaction, s: Result)
    requires OnProtocol(m) && InPhase(m.core, r) && NotedBy(m, r, s)
    requires s.Running? ==> Good(s.m)
    ensures StopsOnProtocol(s)
    ensures s.Running? ==> OnProtocol(s.m)
  {
    if r.Go? || r.Fail? || r.Leave? {
      ProtocolExtends(NotesOf(m.whole), r.notes, Phase(m.core));
    }
  }

  lemma StepOnProtocol(m: Machine, b: byte, skip: nat -> bool)
    requires OnProtocol(m)
    ensures StopsOnProtocol(Step(m, b, skip))
    ensures Step(m, b, skip).Running? ==> OnProtocol(Step(m, b, skip).m)
  {
    hide React;
    StepKeeps(m, b, skip);
    StepNotes(m, b, skip);
    ReactInPhase(m.core, b, skip);
    OutcomeOnProtocol(m, React(m.core, b, skip), Step(m, b, skip));
  }

  lemma {:induction false} RunOnProtocol(m: Machine, data: seq<byte>, skip: nat -> bool)
    requires OnProtocol(m)
    ensures StopsOnProtocol(Run(m, data, skip))
    ensures Run(m, data, skip).Running? ==> OnProtocol(Run(m, data, skip).m)
  {
    hide React;
    if data != [] {
      var init := data[..|data| - 1];
      RunOnProtocol(m, init, skip);
      if Run(m, init, skip).Running? {
        StepOnProtocol(Run(m, init, skip).m, data[|data| - 1], skip);
      }
    }
  }

  lemma {:induction false} CallOnProtocol(m: Machine, data: seq<byte>, skip: nat -> bool)
    requires OnProtocol(m)
    ensures StopsOnProtocol(Call(m, data, skip))
    ensures Call(m, data, skip).Running? ==> OnProtocol(Call(m, data, skip).m)
  {
    hide React;
    RunOnProtocol(m, data, skip);
    if Run(m, data, skip).Running? {
      SaveKeeps(Run(m, data, skip).m);
    }
  }

  /** Over any calls from http_parser_init(HTTP_REQUEST), up to and including the one
      that stops, the notifications follow the protocol. */
  lemma {:induction false} NotificationsFollowProtocol(m: Machine, pieces: seq<seq<byte>>, skip: nat -> bool)
    requires Initial(m) && m.core.kind.Request?
    ensures StopsOnProtocol(Calls(m, pieces, skip))
    ensures Calls(m, pieces, skip).Running? ==> OnProtocol(Calls(m, pieces, skip).m)
    decreases |pieces|
  {
    hide React;
    if pieces != [] {
      var init := pieces[..|pieces| - 1];
      NotificationsFollowProtocol(m, init, skip);
      if Calls(m, init, skip).Running? {
        CallOnProtocol(Calls(m, init, skip).m, pieces[|pieces| - 1], skip);
      }
    }
  }

  /** When a message completes and the connection is not to be kept alive, the parser
      is dead: it takes no further byte and nothing more is heard. */
  lemma {:induction false} NoBeginAfterClose(m: Machine, b: byte, rest: seq<byte>, skip: nat -> bool)
    requires Step(m, b, skip).Running?
    requires Completes(React(m.core, b, skip))
    requires !ShouldKeepAlive(Step(m, b, skip).m.core)
    ensures Step(m, b, skip).m.core.state == Dead
    ensures rest != [] ==> Run(m, [b] + rest, skip) == Failed(Step(m, b, skip).m)
  {
    hide React;
    CompletionRenews(m.core, b, skip);
    if rest != [] {
      RunCons(m, [b] + rest, skip);
      assert ([b] + rest)[1..] == rest;
      DeadStays(Step(m, b, skip).m, rest, skip);
    }
  }

  predicate Completes(r: Reaction) { r.Go? && MessageComplete in r.notes }

  lemma OnlyEndsComplete(c: Core, b: byte)
    ensures InStart(c.state) ==> !Completes(OnStart(c, b))
    ensures c.state.ReqMethod? ==> !Completes(OnMethod(c, b))
    ensures InChunkFrame(c.state) ==> !Completes(OnChunkFrame(c, b))
  {}

  lemma HeadersClose(c: Core, b: byte, skip: nat -> bool)
    ensures Completes(OnHeadersDone(c, b, skip)) ==>
              OnHeadersDone(c, b, skip).core.state == NewMessage(OnHeadersDone(c, b, skip).core)
  {}

  lemma BodyCloses(c: Core)
    ensures InBody(c.state) && Completes(OnBody(c)) ==> OnBody(c).core.state == NewMessage(OnBody(c).core)
  {}

  lemma FieldStartCloses(c: Core, b: byte, skip: nat -> bool)
    requires c.state.FieldStart? && Completes(OnField(c, b, skip))
    ensures OnField(c, b, skip) == OnHeadersDone(c, b, skip)
  {
    hide OnHeadersDone;
  }

  lemma CompletionRenews(c: Core, b: byte, skip: nat -> bool)
    requires Completes(React(c, b, skip))
    ensures React(c, b, skip).core.state == NewMessage(React(c, b, skip).core)
  {
    hide OnStart, OnStatusLine, OnMethod, OnUrl, OnVersion, OnField, OnValueStart, OnValue;
    hide OnHeaderDone, OnHeadersDone, OnBody, OnChunkFrame, NewMessage;
    if InStatusLine(c.state) { StatusLineMoves(c, b); }
    else if InUrl(c.state) { UrlMoves(c, b); }
    else if InVersion(c.state) { VersionMoves(c, b); }
    else if c.state.FieldStart? { FieldStartCloses(c, b, skip); HeadersClose(c, b, skip); }
    else if c.state.Field? { FieldSilent(c, b, skip); }
    else if c.state.Value? { ValueSilent(c, b); }
    else if InHeaderLine(c.state) { ValueStartSilent(c, b); }
    else if c.state.HeadersAlmostDone? { HeadersClose(c, b, skip); }
    else if InBody(c.state) { BodyCloses(c); }
    else { OnlyEndsComplete(c, b); }
  }

  lemma CompletionCloses(c: Core, b: byte, skip: nat -> bool)
    requires Completes(React(c, b, skip))
    ensures var d := React(c, b, skip).core;
            var stays := if d.major >= 1 && d.minor >= 1 then Close !in d.flags else KeepAlive in d.flags;
            d.state == if stays then (if d.kind == Request then StartReq else StartRes) else Dead
  {
    hide React;
    CompletionRenews(c, b, skip);
  }

  lemma {:induction false} DeadStays(m: Machine, data: seq<byte>, skip: nat -> bool)
    requires m.core.state == Dead && data != []
    ensures Run(m, data, skip) == Failed(m)
  {
    hide React;
    StartReaction(m.core, data[0], skip);
    RunCons(m, data, skip);
    assert m == m.(whole := m.whole + Events([]), parts := m.parts + Events([]));
  }

  /** The byte at k of the buffer that the next call is given completes a message, and the
      connection is not to be kept alive. */
  predicate ClosesAt(m: Machine, data: seq<byte>, k: nat, skip: nat -> bool) {
    k < |data| && Run(m, data[..k], skip).Running?
    && var at := Run(m, data[..k], skip).m;
       && Step(at, data[k], skip).Running? && Completes(React(at.core, data[k], skip))
       && !ShouldKeepAlive(Step(at, data[k], skip).m.core)
  }

  lemma {:induction false} ClosedInCall(m: Machine, data: seq<byte>, k: nat, skip: nat -> bool) returns (z: Machine)
    requires ClosesAt(m, data, k, skip)
    ensures k < |data| && Run(m, data[..k + 1], skip) == Running(z) && z.core.state == Dead
    ensures Run(m, data, skip) == if k + 1 < |data| then Failed(z) else Running(z)
  {
    hide React, Completes, ShouldKeepAlive, Step;
    var at := Run(m, data[..k], skip).m;
    z := Step(at, data[k], skip).m;
    NoBeginAfterClose(at, data[k], [], skip);
    assert data[..k + 1] == data[..k] + [data[k]];
    RunAppend(m, data[..k], [data[k]], skip);
    RunByte(at, data[k], skip);
    if k + 1 < |data| {
      assert data == data[..k + 1] + data[k + 1..];
      RunAppend(m, data[..k + 1], data[k + 1..], skip);
      DeadStays(z, data[k + 1..], skip);
    } else {
      assert data[..k + 1] == data;
    }
  }

  /** A dead parser fails every later non-empty call and is left as it is. */
  lemma {:induction false} DeadForGood(m: Machine, pieces: seq<seq<byte>>, skip: nat -> bool)
    requires m.core.state == Dead && pieces != [] && forall i :: 0 <= i < |pieces| ==> pieces[i] != []
    ensures Calls(m, pieces, skip) == Failed(m)
  {
    hide React, Run;
    DeadStays(m, pieces[0], skip);
    OneCall(m, pieces[0], skip);
    assert pieces == [pieces[0]] + pieces[1..];
    CallsAppend(m, [pieces[0]], pieces[1..], skip);
  }

  /** Over calls: once a message has completed and the connection is not to be kept alive,
      nothing is heard of any later byte or call, and the first of them is refused. */
  lemma {:induction false} SilenceAfterClose(m: Machine, before: seq<seq<byte>>, data: seq<byte>, k: nat,
                                             after: seq<seq<byte>>, skip: nat -> bool) returns (z: Machine)
    requires Calls(m, before, skip).Running? && ClosesAt(Calls(m, before, skip).m, data, k, skip)
    requires forall i :: 0 <= i < |after| ==> after[i] != []
    ensures k < |data| && Run(Calls(m, before, skip).m, data[..k + 1], skip) == Running(z) && z.core.state == Dead
    ensures var r := Calls(m, before + ([data] + after), skip);
            && (if k + 1 < |data| || after != [] then r.Failed? else r.Running?)
            && r.m.core.state == Dead && forall ch :: r.m.Hearing(ch) == z.Hearing(ch)
  {
    hide React, Run, ClosesAt;
    var y := Calls(m, before, skip).m;
    z := ClosedInCall(y, data, k, skip);
    CallsAppend(m, before, [data] + after, skip);
    CallsAppend(y, [data], after, skip);
    OneCall(y, data, skip);
    if k + 1 == |data| && after != [] { DeadForGood(Save(z), after, skip); }
  }
}
