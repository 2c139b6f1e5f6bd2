/** http_parser_execute as the source runs it: one loop over the buffer with local
    copies of the scanning state, marks into the buffer for the data callbacks,
    body reads of many bytes, and a save on return. */
module HttpParserObject {
  import opened HttpModel
  import opened HttpRun
  import opened HttpBody
  import opened HttpInvariant

  /** A callback invocation. */
  datatype Callback = Data(kind: DataKind, bytes: seq<byte>) | Notify(note: Note)

  predicate Hears(ch: Channel, k: DataKind) {
    match ch
    case Whole => !(k.PathData? || k.QueryData? || k.FragmentData?)
    case Parts => !k.UrlData?
  }

  /** What a channel hears of an invocation.  A value called back with no bytes is an empty
      value, unless bytes of a value were the last thing heard: then it is the end of that. */
  function Content(ch: Channel, before: seq<Item>, c: Callback): seq<Item> {
    match c
    case Data(k, bytes) =>
      if !Hears(ch, k) then []
      else if k.ValueData? && bytes == [] then (if EndsIn(before, ValueData) then [] else [Blank])
      else Octets(k, bytes)
    case Notify(n) => [Event(n)]
  }

  /** What a channel has heard through a sequence of callback invocations. */
  function Said(ch: Channel, calls: seq<Callback>): seq<Item> {
    if calls == [] then []
    else
      var before := Said(ch, calls[..|calls| - 1]);
      before + Content(ch, before, calls[|calls| - 1])
  }

  lemma SaidOneMore(ch: Channel, calls: seq<Callback>, c: Callback)
    ensures Said(ch, calls + [c]) == Said(ch, calls) + Content(ch, Said(ch, calls), c)
  {
    assert (calls + [c])[..|calls|] == calls;
  }

  /** The marks into the buffer, one for each data callback of the header states. */
  datatype Mark = Null | At(i: nat)
  datatype Marks = Marks(field: Mark, value: Mark, fragment: Mark, query: Mark, path: Mark, url: Mark) {
    function Of(k: DataKind): Mark {
      match k
      case FieldData => field
      case ValueData => value
      case FragmentData => fragment
      case QueryData => query
      case PathData => path
      case UrlData => url
      case BodyData => Null
    }

    function Put(k: DataKind, m: Mark): Marks {
      match k
      case FieldData => this.(field := m)
      case ValueData => this.(value := m)
      case FragmentData => this.(fragment := m)
      case QueryData => this.(query := m)
      case PathData => this.(path := m)
      case UrlData => this.(url := m)
      case BodyData => this
    }

    predicate Below(p: nat) {
      && (field.At? ==> field.i <= p) && (value.At? ==> value.i <= p) && (fragment.At? ==> fragment.i <= p)
      && (query.At? ==> query.i <= p) && (path.At? ==> path.i <= p) && (url.At? ==> url.i <= p)
    }

    /** At most one mark is open on each channel. */
    predicate OneOpen() {
      && (url.At? ==> field.Null? && value.Null?)
      && (field.At? ==> value.Null?)
      && (path.At? ==> query.Null? && fragment.Null? && field.Null? && value.Null?)
      && (query.At? ==> fragment.Null? && field.Null? && value.Null?)
      && (fragment.At? ==> field.Null? && value.Null?)
    }
  }

  const NO_MARKS: Marks := Marks(Null, Null, Null, Null, Null, Null)

  /** The marks that are open in a state. */
  predicate MarksOf(s: State, marks: Marks) {
    && (marks.field.At? <==> s.Field?)
    && (marks.value.At? <==> s.Value?)
    && (marks.path.At? <==> s.Path?)
    && (marks.query.At? <==> s.Query?)
    && (marks.fragment.At? <==> s.Fragment?)
    && (marks.url.At? <==> InUrl(s) && !s.SpacesBeforeUrl?)
  }

  function Since(k: DataKind, m: Mark, data: seq<byte>, p: nat): seq<Item> {
    if m.At? && m.i <= p <= |data| then Octets(k, data[m.i..p]) else []
  }

  /** The bytes that are marked but not yet called back. */
  function Pending(ch: Channel, marks: Marks, data: seq<byte>, p: nat): seq<Item> {
    if ch.Whole? && marks.url.At? then Since(UrlData, marks.url, data, p)
    else if ch.Parts? && marks.path.At? then Since(PathData, marks.path, data, p)
    else if ch.Parts? && marks.query.At? then Since(QueryData, marks.query, data, p)
    else if ch.Parts? && marks.fragment.At? then Since(FragmentData, marks.fragment, data, p)
    else if marks.field.At? then Since(FieldData, marks.field, data, p)
    else Since(ValueData, marks.value, data, p)
  }

  /** All a channel will have heard once the pending bytes are called back. */
  function Told(ch: Channel, calls: seq<Callback>, marks: Marks, data: seq<byte>, p: nat): seq<Item> {
    Said(ch, calls) + Pending(ch, marks, data, p)
  }

  /** Setting a mark at the current byte tells nothing yet. */
  lemma MarkTellsNothing(ch: Channel, k: DataKind, marks: Marks, data: seq<byte>, p: nat)
    requires p <= |data| && marks.Of(k).Null? && marks.Put(k, At(p)).OneOpen()
    ensures Pending(ch, marks.Put(k, At(p)), data, p) == Pending(ch, marks, data, p)
  {
    assert Octets(k, data[p..p]) == [];
  }

  /** A value cut at this byte has been heard in part. */
  predicate HeardInPart(k: DataKind, calls: seq<Callback>, marks: Marks, p: nat) {
    k.ValueData? && marks.value == At(p) ==>
      EndsIn(Said(Whole, calls), ValueData) && EndsIn(Said(Parts, calls), ValueData)
  }

  /** Calling back what is pending and clearing the mark tells nothing new. */
  lemma CallbackTellsPending(ch: Channel, k: DataKind, calls: seq<Callback>, marks: Marks, data: seq<byte>, p: nat)
    requires marks.Below(p) && p <= |data| && marks.OneOpen() && marks.Of(k).At? && HeardInPart(k, calls, marks, p)
    ensures Told(ch, calls + [Data(k, data[marks.Of(k).i..p])], marks.Put(k, Null), data, p)
            == Told(ch, calls, marks, data, p)
  {
    var c := Data(k, data[marks.Of(k).i..p]);
    SaidOneMore(ch, calls, c);
    if Hears(ch, k) {
      HeardMark(ch, k, marks, data, p);
      assert c.bytes == [] ==> Octets(k, c.bytes) == [] && marks.Of(k) == At(p);
      assert Said(ch, calls) + Octets(k, c.bytes) + [] == Said(ch, calls) + Octets(k, c.bytes);
    } else {
      UnheardMark(ch, k, marks, data, p);
      assert Said(ch, calls) + [] == Said(ch, calls);
    }
  }

  /** The open mark of a channel is all that is pending on it. */
  lemma HeardMark(ch: Channel, k: DataKind, marks: Marks, data: seq<byte>, p: nat)
    requires marks.OneOpen() && marks.Of(k).At? && Hears(ch, k) && marks.Below(p) && p <= |data|
    ensures Pending(ch, marks.Put(k, Null), data, p) == [] && marks.Of(k).i <= p
    ensures Pending(ch, marks, data, p) == Octets(k, data[marks.Of(k).i..p])
  {}

  lemma UnheardMark(ch: Channel, k: DataKind, marks: Marks, data: seq<byte>, p: nat)
    requires !Hears(ch, k)
    ensures Pending(ch, marks.Put(k, Null), data, p) == Pending(ch, marks, data, p)
  {}

  lemma SinceGrows(k: DataKind, m: Mark, data: seq<byte>, p: nat)
    requires m.At? && m.i <= p < |data|
    ensures Since(k, m, data, p + 1) == Since(k, m, data, p) + [Octet(k, data[p])]
  {
    assert data[m.i..p + 1] == data[m.i..p] + [data[p]];
  }

  /** What is pending is what the span of the state has open. */
  lemma PendingInSpan(ch: Channel, s: State, marks: Marks, data: seq<byte>, p: nat)
    requires MarksOf(s, marks)
    ensures Pending(ch, marks, data, p)
            == match SpanOf(ch, s)
               case Silent => []
               case Speaks(k) => Since(k, marks.Of(k), data, p)
    ensures SpanOf(ch, s).Speaks? ==> marks.Of(SpanOf(ch, s).kind).At?
  {
    hide Octets;
  }

  /** Moving past a byte adds it to whatever is open. */
  lemma PendingGrows(ch: Channel, s: State, marks: Marks, data: seq<byte>, p: nat)
    requires p < |data| && marks.Below(p) && MarksOf(s, marks)
    ensures Pending(ch, marks, data, p + 1) == Pending(ch, marks, data, p) + Voice(ch, s, data[p])
  {
    hide Pending, SpanOf, Since;
    PendingInSpan(ch, s, marks, data, p);
    PendingInSpan(ch, s, marks, data, p + 1);
    if SpanOf(ch, s).Speaks? {
      SinceGrows(SpanOf(ch, s).kind, marks.Of(SpanOf(ch, s).kind), data, p);
    }
  }

  /** How one iteration, or one call, comes out. */
  datatype Verdict = Proceed | Error | Exit | AssertFailed | OutOfBounds

  function Then(items: seq<Item>, notes: seq<Note>): seq<Item> {
    if notes == [] then items else items + Events(notes)
  }

  /** The locals of the byte loop: the fields, the counter, the marks, and the
      callbacks invoked so far. */
  datatype Locals = Locals(core: Core, nread: nat, marks: Marks, calls: seq<Callback>) {
    predicate Ready(p: nat) { MarksOf(core.state, marks) && marks.Below(p) }

    predicate Speaking(data: seq<byte>, p: nat) {
      WordsIn(core.state, Told(Whole, calls, marks, data, p), Told(Parts, calls, marks, data, p))
    }
  }

  /** A mark that is open was set at this byte, or was open before it in the same span. */
  predicate MarksGo(ch: Channel, s: State, marks: Marks, s': State, marks': Marks, p: nat) {
    match SpanOf(ch, s')
    case Silent => true
    case Speaks(k) => marks'.Of(k) == if SpanOf(ch, s) == Speaks(k) then marks.Of(k) else At(p)
  }

  predicate MarksFollow(a: Locals, b: Locals, p: nat) {
    && MarksGo(Whole, a.core.state, a.marks, b.core.state, b.marks, p)
    && MarksGo(Parts, a.core.state, a.marks, b.core.state, b.marks, p)
  }

  /** The callbacks `b` adds to `a` tell both channels `notes` and nothing else. */
  predicate Tells(a: Locals, notes: seq<Note>, b: Locals, data: seq<byte>, p: nat) {
    && Told(Whole, b.calls, b.marks, data, p) == Then(Told(Whole, a.calls, a.marks, data, p), notes)
    && Told(Parts, b.calls, b.marks, data, p) == Then(Told(Parts, a.calls, a.marks, data, p), notes)
  }

  /** They tell both channels of an empty value. */
  predicate TellsBlank(a: Locals, b: Locals, data: seq<byte>, p: nat) {
    && Told(Whole, b.calls, b.marks, data, p) == Told(Whole, a.calls, a.marks, data, p) + [Blank]
    && Told(Parts, b.calls, b.marks, data, p) == Told(Parts, a.calls, a.marks, data, p) + [Blank]
  }

  /** An iteration that began with `a` did what the reaction says. */
  predicate Follows(a: Locals, r: Reaction, v: Verdict, b: Locals, data: seq<byte>, p: nat)
    requires p < |data|
  {
    match r
    case Go(c, notes, reset) =>
      && v.Proceed? && b.core == c && b.nread == (if reset then 0 else a.nread)
      && b.Ready(p) && MarksFollow(a, b, p)
      && if Empties(a.core.state, data[p]) then notes == [] && TellsBlank(a, b, data, p)
         else Tells(a, notes, b, data, p)
    case Fail(notes, c) =>
      v.Error? && b.core == c && c.state == a.core.state && b.marks == a.marks && Tells(a, notes, b, data, p)
    case Leave(c, notes) => v.Exit? && b.core == c && b.marks == NO_MARKS && Unmarked(c) && Tells(a, notes, b, data, p)
    case Abort => v.AssertFailed?
    case Undefined => v.OutOfBounds?
  }

  // MARK, CALLBACK and CALLBACK2.

  method SetMark(k: DataKind, a: Locals, data: seq<byte>, p: nat) returns (b: Locals)
    requires p <= |data| && a.marks.Of(k).Null? && a.marks.Put(k, At(p)).OneOpen()
    ensures b == a.(marks := a.marks.Put(k, At(p)))
    ensures Tells(a, [], b, data, p)
  {
    MarkTellsNothing(Whole, k, a.marks, data, p);
    MarkTellsNothing(Parts, k, a.marks, data, p);
    b := a.(marks := a.marks.Put(k, At(p)));
  }

  /** The invocation that an open mark still owes. */
  function Owed(k: DataKind, marks: Marks, data: seq<byte>, p: nat): seq<Callback> {
    if marks.Of(k).At? && marks.Of(k).i <= p <= |data| then [Data(k, data[marks.Of(k).i..p])] else []
  }

  method CallBack(k: DataKind, a: Locals, data: seq<byte>, p: nat) returns (b: Locals)
    requires p <= |data| && a.marks.Below(p) && a.marks.OneOpen() && HeardInPart(k, a.calls, a.marks, p)
    ensures b == a.(marks := a.marks.Put(k, Null), calls := b.calls)
    ensures b.calls == a.calls + Owed(k, a.marks, data, p)
    ensures a.marks.Of(k).Null? ==> b == a
    ensures Tells(a, [], b, data, p)
  {
    b := a;
    if a.marks.Of(k).At? {
      CallbackTellsPending(Whole, k, a.calls, a.marks, data, p);
      CallbackTellsPending(Parts, k, a.calls, a.marks, data, p);
      b := b.(calls := b.calls + [Data(k, data[a.marks.Of(k).i..p])]);
    }
    b := b.(marks := b.marks.Put(k, Null));
  }

  method Raise(note: Note, a: Locals, ghost data: seq<byte>, ghost p: nat) returns (b: Locals)
    requires a.marks == NO_MARKS
    ensures b == a.(calls := b.calls)
    ensures Tells(a, [note], b, data, p)
  {
    SaidOneMore(Whole, a.calls, Notify(note));
    SaidOneMore(Parts, a.calls, Notify(note));
    assert Events([note]) == [Event(note)];
    b := a.(calls := a.calls + [Notify(note)]);
  }

  // The switch, one method for each part of it.

  /** An iteration that raises no notification and leaves the counter alone. */
  predicate Agrees(r: Reaction, v: Verdict, c: Core) {
    match r
    case Go(d, notes, reset) => v.Proceed? && c == d && notes == [] && !reset
    case Fail(notes, d) => v.Error? && c == d && notes == []
    case Abort => v.AssertFailed?
    case Undefined => v.OutOfBounds?
    case Leave(_, _) => false
  }

  predicate Unmarked(c: Core) { MarksOf(c.state, NO_MARKS) }

  // The ways an iteration follows its reaction.

  lemma SilentFollows(a: Locals, r: Reaction, v: Verdict, c: Core, data: seq<byte>, p: nat)
    requires p < |data| && a.marks == NO_MARKS && Agrees(r, v, c) && !a.core.state.ValueStart?
    requires (v.Proceed? ==> Unmarked(c)) && (v.Error? ==> c.state == a.core.state)
    ensures Follows(a, r, v, a.(core := c), data, p)
  {
    hide Told;
  }

  lemma FailingFollows(a: Locals, notes: seq<Note>, b: Locals, data: seq<byte>, p: nat)
    requires p < |data| && b.core.state == a.core.state && b.marks == a.marks && Tells(a, notes, b, data, p)
    ensures Follows(a, Fail(notes, b.core), Error, b, data, p)
  {
    hide Told;
  }

  /** No mark is open afterwards. */
  lemma QuietFollows(a: Locals, c: Core, notes: seq<Note>, reset: bool, b: Locals, data: seq<byte>, p: nat)
    requires p < |data| && Unmarked(c) && !a.core.state.ValueStart?
    requires b.core == c && b.marks == NO_MARKS && b.nread == (if reset then 0 else a.nread)
    requires Tells(a, notes, b, data, p)
    ensures Follows(a, Go(c, notes, reset), Proceed, b, data, p)
  {
    hide Told;
  }

  /** A span goes on. */
  lemma StayFollows(a: Locals, r: Reaction, v: Verdict, c: Core, data: seq<byte>, p: nat)
    requires p < |data| && a.Ready(p) && Agrees(r, v, c) && !Empties(a.core.state, data[p])
    requires v.Proceed? || v.Error? ==> c.state == a.core.state
    ensures Follows(a, r, v, a.(core := c), data, p)
  {
    hide Told;
  }

  /** A header name or value begins. */
  lemma BeginFollows(k: DataKind, a: Locals, c: Core, b: Locals, data: seq<byte>, p: nat)
    requires p < |data| && a.marks == NO_MARKS && !Empties(a.core.state, data[p])
    requires SpanOf(Whole, a.core.state).Silent? && SpanOf(Parts, a.core.state).Silent?
    requires (k.FieldData? && c.state.Field?) || (k.ValueData? && c.state.Value?)
    requires b == a.(core := c, marks := a.marks.Put(k, At(p)), calls := b.calls) && Tells(a, [], b, data, p)
    ensures Follows(a, Go(c, [], false), Proceed, b, data, p)
  {
    hide Told;
  }

  lemma BlankFollows(a: Locals, c: Core, b: Locals, data: seq<byte>, p: nat)
    requires p < |data| && Unmarked(c) && Empties(a.core.state, data[p]) && a.marks == NO_MARKS
    requires b == a.(calls := b.calls) && TellsBlank(a, b, data, p)
    ensures Follows(a, Go(c, [], false), Proceed, b.(core := c), data, p)
  {
    hide Told;
  }

  lemma TellsOn(a: Locals, b: Locals, c: Locals, data: seq<byte>, p: nat)
    requires Tells(a, [], b, data, p) && Tells(b, [], c, data, p)
    ensures Tells(a, [], c, data, p)
  {
    hide Told;
  }

  /** At most one mark is open on each channel in any state. */
  lemma OneMarkOpen(s: State, marks: Marks)
    requires MarksOf(s, marks)
    ensures marks.OneOpen()
  {}

  lemma StartIsUnmarked(s: State)
    requires InStart(s) || s.ResH? || s.ResHT? || s.ReqMethod?
    ensures MarksOf(s, NO_MARKS)
  {}

  method StartByte(a: Locals, data: seq<byte>, p: nat) returns (v: Verdict, b: Locals)
    requires p < |data| && a.Ready(p) && InStart(a.core.state)
    ensures Follows(a, OnStart(a.core, data[p]), v, b, data, p)
  {
    hide Told, Said, Pending, AssignMethod, Follows;
    var ch := data[p];
    var c := a.core;
    ghost var notes: seq<Note> := [];
    v, b := Proceed, a;
    match a.core.state {
      case Dead =>
        v := Error;
      case StartReqOrRes =>
        if ch != '\r' && ch != '\n' {
          c := c.(flags := {}, contentLength := ABSENT_LENGTH);
          b := Raise(MessageBegin, a, data, p);
          notes := [MessageBegin];
          if ch == 'H' {
            c := c.(state := ResOrRespH);
          } else {
            c := c.(kind := Request);
            v, c := AssignMethodByte(c, ch);
          }
        }
      case ResOrRespH =>
        if ch == 'T' {
          c := c.(kind := Response, state := ResHT);
        } else if ch != 'E' {
          v := Error;
        } else {
          c := c.(kind := Request, verb := HEAD, index := 2, state := ReqMethod);
        }
      case StartRes =>
        c := c.(flags := {}, contentLength := ABSENT_LENGTH);
        b := Raise(MessageBegin, a, data, p);
        notes := [MessageBegin];
        if ch == 'H' {
          c := c.(state := ResH);
        } else if ch != '\r' && ch != '\n' {
          v := Error;
        }
      case StartReq =>
        if ch != '\r' && ch != '\n' {
          c := c.(flags := {}, contentLength := ABSENT_LENGTH);
          b := Raise(MessageBegin, a, data, p);
          notes := [MessageBegin];
          if ch < 'A' || 'Z' < ch {
            v := Error;
          } else {
            v, c := AssignMethodByte(c, ch);
          }
        }
    }
    b := b.(core := c);
    if v == Proceed {
      StartIsUnmarked(c.state);
      hide MarksOf;
      QuietFollows(a, c, notes, false, b, data, p);
    } else { FailingFollows(a, notes, b, data, p); }
  }

  method AssignMethodByte(c: Core, ch: byte) returns (v: Verdict, c': Core)
    ensures v.Proceed? || v.Error?
    ensures AssignMethod(c, ch) == if v.Proceed? then Go(c', [MessageBegin], false) else Fail([MessageBegin], c')
    ensures c'.state == if v.Proceed? then ReqMethod else c.state
  {
    v := Proceed;
    c' := c.(verb := DELETE, index := 1);
    match ch {
      case 'C' => c' := c'.(verb := CONNECT); // or COPY, CHECKOUT
      case 'D' => c' := c'.(verb := DELETE);
      case 'G' => c' := c'.(verb := GET);
      case 'H' => c' := c'.(verb := HEAD);
      case 'L' => c' := c'.(verb := LOCK);
      case 'M' => c' := c'.(verb := MKCOL); // or MOVE, MKACTIVITY, MERGE, M-SEARCH
      case 'N' => c' := c'.(verb := NOTIFY);
      case 'O' => c' := c'.(verb := OPTIONS);
      case 'P' => c' := c'.(verb := POST); // or PROPFIND, PROPPATCH, PUT
      case 'R' => c' := c'.(verb := REPORT);
      case 'S' => c' := c'.(verb := SUBSCRIBE);
      case 'T' => c' := c'.(verb := TRACE);
      case 'U' => c' := c'.(verb := UNLOCK); // or UNSUBSCRIBE
      case _ => return Error, c';
    }
    c' := c'.(state := ReqMethod);
  }

  method MethodByte(c: Core, ch: byte) returns (v: Verdict, c': Core)
    requires c.state.ReqMethod?
    ensures Agrees(OnMethod(c, ch), v, c') && (c'.state.ReqMethod? || c'.state.SpacesBeforeUrl?)
    ensures v.Error? ==> c'.state == c.state
  {
    var index, verb := c.index, c.verb;
    var matcher := MethodName(verb);
    var state := ReqMethod;
    if ch == '\0' { return Error, c; }
    if index > |matcher| { return OutOfBounds, c; }
    if ch == ' ' && index == |matcher| {
      state := SpacesBeforeUrl;
    } else if index < |matcher| && ch == matcher[index] {
    } else if verb == CONNECT {
      if index == 1 && ch == 'H' {
        verb := CHECKOUT;
      } else if index == 2 && ch == 'P' {
        verb := COPY;
      }
    } else if verb == MKCOL {
      if index == 1 && ch == 'O' {
        verb := MOVE;
      } else if index == 1 && ch == 'E' {
        verb := MERGE;
      } else if index == 1 && ch == '-' {
        verb := MSEARCH;
      } else if index == 2 && ch == 'A' {
        verb := MKACTIVITY;
      }
    } else if index == 1 && verb == POST && ch == 'R' {
      verb := PROPFIND; // or PROPPATCH
    } else if index == 1 && verb == POST && ch == 'U' {
      verb := PUT;
    } else if index == 2 && verb == UNLOCK && ch == 'S' {
      verb := UNSUBSCRIBE;
    } else if index == 4 && verb == PROPFIND && ch == 'P' {
      verb := PROPPATCH;
    } else {
      return Error, c;
    }
    v, c' := Proceed, c.(verb := verb, index := index + 1, state := state);
  }

  method StatusByte(c: Core, ch: byte) returns (v: Verdict, c': Core)
    requires InStatusLine(c.state)
    ensures Agrees(OnStatusLine(c, ch), v, c') && (InStatusLine(c'.state) || c'.state.FieldStart?)
    ensures v.Error? ==> c'.state == c.state
  {
    v, c' := Proceed, c;
    match c.state {
      case ResH =>
        if ch != 'T' { v := Error; } else { c' := c.(state := ResHT); }
      case ResHT =>
        if ch != 'T' { v := Error; } else { c' := c.(state := ResHTT); }
      case ResHTT =>
        if ch != 'P' { v := Error; } else { c' := c.(state := ResHTTP); }
      case ResHTTP =>
        if ch != '/' { v := Error; } else { c' := c.(state := ResFirstMajor); }
      case ResFirstMajor =>
        if ch < '1' || ch > '9' { v := Error; } else { c' := c.(major := DigitValue(ch), state := ResMajor); }
      case ResMajor =>
        if ch == '.' {
          c' := c.(state := ResFirstMinor);
        } else if ch < '0' || ch > '9' {
          v := Error;
        } else {
          c' := c.(major := c.major * 10 + DigitValue(ch));
          if c'.major > 999 { v := Error; }
        }
      case ResFirstMinor =>
        if ch < '0' || ch > '9' { v := Error; } else { c' := c.(minor := DigitValue(ch), state := ResMinor); }
      case ResMinor =>
        if ch == ' ' {
          c' := c.(state := ResFirstStatus);
        } else if ch < '0' || ch > '9' {
          v := Error;
        } else {
          c' := c.(minor := c.minor * 10 + DigitValue(ch));
          if c'.minor > 999 { v := Error; }
        }
      case ResFirstStatus =>
        if ch < '0' || ch > '9' {
          if ch != ' ' { v := Error; }
        } else {
          c' := c.(status := DigitValue(ch), state := ResStatusCode);
        }
      case ResStatusCode =>
        if ch < '0' || ch > '9' {
          if ch == ' ' {
            c' := c.(state := ResStatus);
          } else if ch == '\r' {
            c' := c.(state := ResLineAlmostDone);
          } else if ch == '\n' {
            c' := c.(state := FieldStart);
          } else {
            v := Error;
          }
        } else {
          c' := c.(status := c.status * 10 + DigitValue(ch));
          if c'.status > 999 { v := Error; }
        }
      case ResStatus =>
        if ch == '\r' {
          c' := c.(state := ResLineAlmostDone);
        } else if ch == '\n' {
          c' := c.(state := FieldStart);
        }
      case ResLineAlmostDone =>
        if ch != '\n' { v := Error; } else { c' := c.(state := FieldStart); }
    }
  }

  predicate InAuthority(s: State) {
    s.Schema? || s.SchemaSlash? || s.SchemaSlashSlash? || s.Host? || s.Port?
  }

  predicate SinceHere(m: Mark, stays: bool, before: Mark, p: nat) { m.At? ==> m == if stays then before else At(p) }

  /** The marks in the URL: that of the whole since its first byte, those of the parts since
      theirs. */
  predicate UrlMarks(s: State, marks: Marks, marks': Marks, p: nat) {
    && SinceHere(marks'.url, InUrl(s) && !s.SpacesBeforeUrl?, marks.url, p)
    && SinceHere(marks'.path, s.Path?, marks.path, p)
    && SinceHere(marks'.query, s.Query?, marks.query, p)
    && SinceHere(marks'.fragment, s.Fragment?, marks.fragment, p)
  }

  /** From one state of the URL to another. */
  lemma UrlFollows(a: Locals, s: State, b: Locals, data: seq<byte>, p: nat)
    requires p < |data| && a.Ready(p) && InUrl(a.core.state) && InUrl(s)
    requires b.core == a.core.(state := s) && b.nread == a.nread && b.Ready(p)
    requires UrlMarks(a.core.state, a.marks, b.marks, p)
    requires Tells(a, [], b, data, p)
    ensures Follows(a, Go(b.core, [], false), Proceed, b, data, p)
  {
    hide Told, MarksFollow;
    UrlMarksFollow(a, b, p);
  }

  lemma UrlMarksFollow(a: Locals, b: Locals, p: nat)
    requires InUrl(a.core.state) && InUrl(b.core.state) && MarksOf(a.core.state, a.marks)
    requires MarksOf(b.core.state, b.marks)
    requires UrlMarks(a.core.state, a.marks, b.marks, p)
    ensures MarksFollow(a, b, p)
  {
    hide MarksGo;
    UrlMarksGo(Whole, a, b, p);
    UrlMarksGo(Parts, a, b, p);
  }

  lemma UrlMarksGo(ch: Channel, a: Locals, b: Locals, p: nat)
    requires InUrl(a.core.state) && InUrl(b.core.state) && MarksOf(a.core.state, a.marks)
    requires MarksOf(b.core.state, b.marks)
    requires UrlMarks(a.core.state, a.marks, b.marks, p)
    ensures MarksGo(ch, a.core.state, a.marks, b.core.state, b.marks, p)
  {}

  /** The same marks stay open. */
  lemma SameUrlMarks(a: Locals, s: State, p: nat)
    requires a.Ready(p) && InUrl(a.core.state) && InUrl(s) && MarksOf(s, a.marks)
    ensures UrlMarks(a.core.state, a.marks, a.marks, p)
  {}

  method UrlStays(a: Locals, s: State, data: seq<byte>, p: nat) returns (b: Locals)
    requires p < |data| && a.Ready(p) && InUrl(a.core.state) && InUrl(s) && MarksOf(s, a.marks)
    ensures Follows(a, To(a.core, s), Proceed, b, data, p)
  {
    hide Told, Follows;
    b := a.(core := a.core.(state := s));
    SameUrlMarks(a, s, p);
    UrlFollows(a, s, b, data, p);
  }

  /** A part of the URL begins at this byte. */
  method UrlPartBegins(k: DataKind, a: Locals, s: State, data: seq<byte>, p: nat) returns (b: Locals)
    requires p < |data| && a.Ready(p) && InUrl(a.core.state) && InUrl(s)
    requires a.marks.Of(k).Null? && MarksOf(s, a.marks.Put(k, At(p)))
    ensures Follows(a, To(a.core, s), Proceed, b, data, p)
  {
    hide Told, Follows, Said, Pending;
    OneMarkOpen(s, a.marks.Put(k, At(p)));
    b := SetMark(k, a, data, p);
    b := b.(core := a.core.(state := s));
    UrlFollows(a, s, b, data, p);
  }

  /** A part of the URL ends before this byte. */
  method UrlPartEnds(k: DataKind, a: Locals, s: State, data: seq<byte>, p: nat) returns (b: Locals)
    requires p < |data| && a.Ready(p) && InUrl(a.core.state) && InUrl(s) && !k.ValueData?
    requires MarksOf(s, a.marks.Put(k, Null))
    ensures Follows(a, To(a.core, s), Proceed, b, data, p)
  {
    hide Told, Follows, Said, Pending, SpanOf, MarksFollow;
    OneMarkOpen(a.core.state, a.marks);
    b := CallBack(k, a, data, p);
    b := b.(core := a.core.(state := s));
    UrlFollows(a, s, b, data, p);
  }

  /** The blank before the URL, and its first byte. */
  method UrlStartByte(a: Locals, data: seq<byte>, p: nat) returns (v: Verdict, b: Locals)
    requires p < |data| && a.Ready(p) && a.core.state.SpacesBeforeUrl?
    ensures Follows(a, OnUrl(a.core, data[p]), v, b, data, p)
  {
    hide Told, Said, Pending, Follows;
    var ch := data[p];
    v := Proceed;
    if ch == '/' || ch == '*' {
      b := UrlBegins(a, data, p);
    } else if IsAlpha(ch) {
      b := UrlPartBegins(UrlData, a, Schema, data, p);
    } else if ch == ' ' {
      b := UrlStays(a, SpacesBeforeUrl, data, p);
    } else {
      FailingFollows(a, [], a, data, p);
      v, b := Error, a;
    }
  }

  /** The URL begins with its path. */
  method UrlBegins(a: Locals, data: seq<byte>, p: nat) returns (b: Locals)
    requires p < |data| && a.Ready(p) && a.core.state.SpacesBeforeUrl?
    ensures Follows(a, To(a.core, Path), Proceed, b, data, p)
  {
    hide Told, Said, Pending, Follows;
    var b1 := SetMark(UrlData, a, data, p);
    b := SetMark(PathData, b1, data, p);
    TellsOn(a, b1, b, data, p);
    b := b.(core := a.core.(state := Path));
    UrlFollows(a, Path, b, data, p);
  }

  /** The URL up to its path. */
  method AuthorityByte(a: Locals, data: seq<byte>, p: nat) returns (v: Verdict, b: Locals)
    requires p < |data| && a.Ready(p) && InAuthority(a.core.state)
    ensures Follows(a, OnUrl(a.core, data[p]), v, b, data, p)
  {
    hide Told, Said, Pending, Follows;
    var ch, state := data[p], a.core.state;
    v, b := Proceed, a;
    match state {
      case Schema =>
        if ch == ':' {
          state := SchemaSlash;
        } else if ch == '.' || ('0' <= ch && ch <= '9') {
          state := Host;
        } else if !IsAlpha(ch) {
          v := Error;
        }
      case SchemaSlash =>
        if ch != '/' { v := Error; } else { state := SchemaSlashSlash; }
      case SchemaSlashSlash =>
        if ch != '/' { v := Error; } else { state := Host; }
      case Host =>
        if ch == ':' {
          state := Port;
        } else if ch == '/' {
          b := UrlPartBegins(PathData, a, Path, data, p);
          return;
        } else if ch == ' ' {
          b := UrlEnds(a, data, p);
          return;
        } else if !IsAlpha(ch) && !('0' <= ch && ch <= '9') && ch != '.' && ch != '-' {
          v := Error;
        }
      case Port =>
        if ch == '/' {
          b := UrlPartBegins(PathData, a, Path, data, p);
          return;
        } else if ch == ' ' {
          b := UrlEnds(a, data, p);
          return;
        } else if ch < '0' || ch > '9' {
          v := Error;
        }
    }
    if v == Error {
      FailingFollows(a, [], a, data, p);
    } else {
      b := UrlStays(a, state, data, p);
    }
  }

  /** A URL without a path ends. */
  method UrlEnds(a: Locals, data: seq<byte>, p: nat) returns (b: Locals)
    requires p < |data| && a.Ready(p) && (a.core.state.Host? || a.core.state.Port?)
    ensures Follows(a, To(a.core, HttpStart), Proceed, b, data, p)
  {
    hide Told, Said, Pending, Follows;
    OneMarkOpen(a.core.state, a.marks);
    b := CallBack(UrlData, a, data, p);
    b := b.(core := a.core.(state := HttpStart));
    QuietFollows(a, b.core, [], false, b, data, p);
  }

  predicate LastPart(s: State, part: DataKind) {
    match s
    case Path => part.PathData?
    case Query => part.QueryData?
    case Fragment => part.FragmentData?
    case QueryStart => part.UrlData?
    case FragmentStart => part.UrlData?
    case _ => false
  }

  lemma UrlMarksClear(s: State, part: DataKind, marks: Marks)
    requires MarksOf(s, marks) && LastPart(s, part)
    ensures marks.OneOpen() && marks.Put(UrlData, Null).OneOpen()
    ensures marks.Put(UrlData, Null).Put(part, Null) == NO_MARKS
  {}

  /** The URL and then its last part are called back. */
  method UrlCallBacks(part: DataKind, a: Locals, data: seq<byte>, p: nat) returns (b: Locals)
    requires p < |data| && a.Ready(p) && LastPart(a.core.state, part)
    ensures b == a.(marks := NO_MARKS, calls := b.calls) && Tells(a, [], b, data, p)
    ensures b.calls == a.calls + Owed(UrlData, a.marks, data, p)
                       + (if part.UrlData? then [] else Owed(part, a.marks, data, p))
  {
    hide Told, Said, Pending;
    UrlMarksClear(a.core.state, part, a.marks);
    var b1 := CallBack(UrlData, a, data, p);
    b := CallBack(part, b1, data, p);
    TellsOn(a, b1, b, data, p);
  }

  /** Blank, CR or LF after the URL. */
  method EndUrl(part: DataKind, a: Locals, data: seq<byte>, p: nat) returns (v: Verdict, b: Locals)
    requires p < |data| && a.Ready(p) && LastPart(a.core.state, part)
    ensures Follows(a, EndOfUrl(a.core, data[p]), v, b, data, p)
  {
    hide Told, Said, Pending, Follows;
    var ch := data[p];
    if ch != ' ' && ch != '\r' && ch != '\n' {
      FailingFollows(a, [], a, data, p);
      return Error, a;
    }
    v := Proceed;
    b := UrlCallBacks(part, a, data, p);
    if ch == ' ' {
      b := b.(core := b.core.(state := HttpStart));
    } else {
      b := b.(core := b.core.(major := 0, minor := 9, state := if ch == '\r' then LineAlmostDone else FieldStart));
    }
    QuietFollows(a, b.core, [], false, b, data, p);
  }

  method PathByte(a: Locals, data: seq<byte>, p: nat) returns (v: Verdict, b: Locals)
    requires p < |data| && a.Ready(p) && (a.core.state.Path? || a.core.state.QueryStart? || a.core.state.Query?)
    ensures Follows(a, OnUrl(a.core, data[p]), v, b, data, p)
  {
    hide Told, Said, Pending, Follows, EndOfUrl;
    var ch := data[p];
    v := Proceed;
    match a.core.state {
      case Path =>
        if NormalUrlChar(ch) {
          b := UrlStays(a, Path, data, p);
        } else if ch == '?' {
          b := UrlPartEnds(PathData, a, QueryStart, data, p);
        } else if ch == '#' {
          b := UrlPartEnds(PathData, a, FragmentStart, data, p);
        } else {
          v, b := EndUrl(PathData, a, data, p);
        }
      case QueryStart =>
        if NormalUrlChar(ch) {
          b := UrlPartBegins(QueryData, a, Query, data, p);
        } else if ch == '?' {
          b := UrlStays(a, QueryStart, data, p);
        } else if ch == '#' {
          b := UrlStays(a, FragmentStart, data, p);
        } else {
          v, b := EndUrl(UrlData, a, data, p);
        }
      case Query =>
        if NormalUrlChar(ch) || ch == '?' {
          b := UrlStays(a, Query, data, p);
        } else if ch == '#' {
          b := UrlPartEnds(QueryData, a, FragmentStart, data, p);
        } else {
          v, b := EndUrl(QueryData, a, data, p);
        }
    }
  }

  method FragmentByte(a: Locals, data: seq<byte>, p: nat) returns (v: Verdict, b: Locals)
    requires p < |data| && a.Ready(p) && (a.core.state.FragmentStart? || a.core.state.Fragment?)
    ensures Follows(a, OnUrl(a.core, data[p]), v, b, data, p)
  {
    hide Told, Said, Pending, Follows, EndOfUrl;
    var ch := data[p];
    v := Proceed;
    match a.core.state {
      case FragmentStart =>
        if NormalUrlChar(ch) || ch == '?' {
          b := UrlPartBegins(FragmentData, a, Fragment, data, p);
        } else if ch == '#' {
          b := UrlStays(a, FragmentStart, data, p);
        } else {
          v, b := EndUrl(UrlData, a, data, p);
        }
      case Fragment =>
        if NormalUrlChar(ch) || ch == '?' || ch == '#' {
          b := UrlStays(a, Fragment, data, p);
        } else {
          v, b := EndUrl(FragmentData, a, data, p);
        }
    }
  }

  method VersionByte(c: Core, ch: byte) returns (v: Verdict, c': Core)
    requires InVersion(c.state)
    ensures Agrees(OnVersion(c, ch), v, c') && (InVersion(c'.state) || c'.state.FieldStart?)
    ensures v.Error? ==> c'.state == c.state
  {
    v, c' := Proceed, c;
    match c.state {
      case HttpStart =>
        if ch == 'H' { c' := c.(state := HttpH); } else if ch != ' ' { v := Error; }
      case HttpH =>
        if ch != 'T' { v := Error; } else { c' := c.(state := HttpHT); }
      case HttpHT =>
        if ch != 'T' { v := Error; } else { c' := c.(state := HttpHTT); }
      case HttpHTT =>
        if ch != 'P' { v := Error; } else { c' := c.(state := HttpHTTP); }
      case HttpHTTP =>
        if ch != '/' { v := Error; } else { c' := c.(state := FirstMajor); }
      case FirstMajor =>
        if ch < '1' || ch > '9' { v := Error; } else { c' := c.(major := DigitValue(ch), state := Major); }
      case Major =>
        if ch == '.' {
          c' := c.(state := FirstMinor);
        } else if ch < '0' || ch > '9' {
          v := Error;
        } else {
          c' := c.(major := c.major * 10 + DigitValue(ch));
          if c'.major > 999 { v := Error; }
        }
      case FirstMinor =>
        if ch < '0' || ch > '9' { v := Error; } else { c' := c.(minor := DigitValue(ch), state := Minor); }
      case Minor =>
        if ch == '\r' {
          c' := c.(state := LineAlmostDone);
        } else if ch == '\n' {
          c' := c.(state := FieldStart);
        } else if ch < '0' || ch > '9' {
          v := Error;
        } else {
          c' := c.(minor := c.minor * 10 + DigitValue(ch));
          if c'.minor > 999 { v := Error; }
        }
      case LineAlmostDone =>
        if ch != '\n' { v := Error; } else { c' := c.(state := FieldStart); }
    }
  }

  method FieldStartByte(a: Locals, data: seq<byte>, p: nat, skip: nat -> bool) returns (v: Verdict, b: Locals)
    requires p < |data| && a.Ready(p) && a.core.state.FieldStart?
    ensures Follows(a, OnField(a.core, data[p], skip), v, b, data, p)
  {
    hide Told, Said, Pending, Follows, OnHeadersDone;
    var ch := data[p];
    if ch == '\r' {
      v, b := Proceed, a.(core := a.core.(state := HeadersAlmostDone));
      QuietFollows(a, b.core, [], false, b, data, p);
    } else if ch == '\n' {
      v, b := HeadersDone(a, data, p, skip);
    } else if Token(ch) == '\0' {
      FailingFollows(a, [], a, data, p);
      v, b := Error, a;
    } else {
      v := Proceed;
      b := SetMark(FieldData, a, data, p);
      var c := FirstNameByte(a.core, Token(ch));
      b := b.(core := c);
      BeginFollows(FieldData, a, c, b, data, p);
    }
  }

  method FirstNameByte(c: Core, x: byte) returns (c': Core)
    ensures c' == c.(index := 0, state := Field, headerState := FirstFieldState(x))
  {
    c' := c.(index := 0, state := Field);
    match x {
      case 'c' => c' := c'.(headerState := HC);
      case 'p' => c' := c'.(headerState := MatchingProxyConnection);
      case 't' => c' := c'.(headerState := MatchingTransferEncoding);
      case 'u' => c' := c'.(headerState := MatchingUpgrade);
      case _ => c' := c'.(headerState := General);
    }
  }

  /** Compare the next byte of a name or value with the literal being matched. */
  method MatchByte(lit: string, c: Core, x: byte, matched: HeaderState) returns (c': Core)
    requires |lit| > 0
    ensures c' == c.(index := c.index + 1, headerState := MatchName(lit, c.index + 1, x, c.headerState, matched))
  {
    c' := c.(index := c.index + 1);
    if c'.index >= |lit| || x != lit[c'.index] {
      c' := c'.(headerState := General);
    } else if c'.index == |lit| - 1 {
      c' := c'.(headerState := matched);
    }
  }

  method NameByte(c: Core, x: byte) returns (v: Verdict, c': Core)
    ensures var (known, h, i) := NextFieldState(c.headerState, c.index, x);
            if known then v.Proceed? && c' == c.(headerState := h, index := i) else v.AssertFailed?
  {
    v, c' := Proceed, c;
    match c.headerState {
      case General =>
      case HC => c' := c.(index := c.index + 1, headerState := if x == 'o' then HCO else General);
      case HCO => c' := c.(index := c.index + 1, headerState := if x == 'n' then HCON else General);
      case HCON =>
        c' := c.(index := c.index + 1);
        match x {
          case 'n' => c' := c'.(headerState := MatchingConnection);
          case 't' => c' := c'.(headerState := MatchingContentLength);
          case _ => c' := c'.(headerState := General);
        }
      case MatchingConnection => c' := MatchByte("connection", c, x, IsConnection);
      case MatchingProxyConnection => c' := MatchByte("proxy-connection", c, x, IsConnection);
      case MatchingContentLength => c' := MatchByte("content-length", c, x, IsContentLength);
      case MatchingTransferEncoding => c' := MatchByte("transfer-encoding", c, x, IsTransferEncoding);
      case MatchingUpgrade => c' := MatchByte("upgrade", c, x, IsUpgrade);
      case _ =>
        if c.headerState.IsConnection? || c.headerState.IsContentLength? || c.headerState.IsTransferEncoding?
           || c.headerState.IsUpgrade? {
          if x != ' ' { c' := c.(headerState := General); }
        } else {
          v := AssertFailed;
        }
    }
  }

  /** The byte after a header name. */
  method NameEndByte(a: Locals, data: seq<byte>, p: nat, ghost skip: nat -> bool) returns (v: Verdict, b: Locals)
    requires p < |data| && a.Ready(p) && a.core.state.Field? && Token(data[p]) == '\0'
    ensures Follows(a, OnField(a.core, data[p], skip), v, b, data, p)
  {
    hide Told, Said, Pending, Follows, OnHeadersDone, NextFieldState;
    var ch := data[p];
    if ch != ':' && ch != '\r' && ch != '\n' {
      FailingFollows(a, [], a, data, p);
      return Error, a;
    }
    v := Proceed;
    OneMarkOpen(a.core.state, a.marks);
    b := CallBack(FieldData, a, data, p);
    var state := if ch == ':' then ValueStart else if ch == '\r' then HeaderAlmostDone else FieldStart;
    b := b.(core := b.core.(state := state));
    QuietFollows(a, b.core, [], false, b, data, p);
  }

  lemma NothingPending(ch: Channel, calls: seq<Callback>, data: seq<byte>, p: nat)
    ensures Told(ch, calls, NO_MARKS, data, p) == Said(ch, calls)
  {
    hide Said;
    assert Pending(ch, NO_MARKS, data, p) == [];
  }

  lemma SaidBlank(ch: Channel, calls: seq<Callback>)
    requires EndsIn(Said(ch, calls), FieldData)
    ensures Said(ch, calls + [Data(ValueData, [])]) == Said(ch, calls) + [Blank]
  {
    SaidOneMore(ch, calls, Data(ValueData, []));
    hide Said;
  }

  /** An empty value is called back with no bytes, right after its name. */
  method EmptyValue(a: Locals, data: seq<byte>, p: nat) returns (b: Locals)
    requires p < |data| && a.marks == NO_MARKS && a.Speaking(data, p) && a.core.state.ValueStart?
    ensures b == a.(calls := b.calls) && TellsBlank(a, b, data, p)
  {
    hide Told, Said, Pending, EndsIn;
    NothingPending(Whole, a.calls, data, p);
    NothingPending(Parts, a.calls, data, p);
    SaidBlank(Whole, a.calls);
    SaidBlank(Parts, a.calls);
    b := a.(marks := a.marks.(value := At(p)));
    assert data[p..p] == [];
    b := b.(marks := a.marks, calls := b.calls + [Data(ValueData, data[p..p])]);
    NothingPending(Whole, b.calls, data, p);
    NothingPending(Parts, b.calls, data, p);
  }

  method EmptyValueByte(a: Locals, data: seq<byte>, p: nat) returns (b: Locals)
    requires p < |data| && a.Ready(p) && a.core.state.ValueStart? && a.Speaking(data, p)
    requires data[p] == '\r' || data[p] == '\n'
    ensures Follows(a, OnValueStart(a.core, data[p]), Proceed, b, data, p)
  {
    hide Told, Follows, TellsBlank;
    b := EmptyValue(a, data, p);
    var c := if data[p] == '\r' then a.core.(index := 0, headerState := General, state := HeaderAlmostDone)
             else a.core.(index := 0, state := FieldStart);
    BlankFollows(a, c, b, data, p);
    b := b.(core := c);
  }

  method FirstValueByte(c: Core, ch: byte) returns (v: Verdict, c': Core)
    requires ch != ' ' && ch != '\r' && ch != '\n'
    ensures Agrees(OnValueStart(c, ch), v, c') && (v.Proceed? ==> c'.state.Value?)
    ensures v.Proceed? || (v.Error? && c' == c)
  {
    v, c' := Proceed, c.(state := Value, index := 0);
    match c.headerState {
      case IsUpgrade =>
        c' := c'.(flags := c.flags + {Upgrade}, headerState := General);
      case IsTransferEncoding =>
        c' := c'.(headerState := if Lower(ch) == 'c' then MatchingChunked else General);
      case IsContentLength =>
        if ch < '0' || ch > '9' { return Error, c; }
        c' := c'.(contentLength := DigitValue(ch));
      case IsConnection =>
        if Lower(ch) == 'k' {
          c' := c'.(headerState := MatchingKeepAlive);
        } else if Lower(ch) == 'c' {
          c' := c'.(headerState := MatchingClose);
        } else {
          c' := c'.(headerState := General);
        }
      case _ =>
        c' := c'.(headerState := General);
    }
  }

  method ValueStartByte(a: Locals, data: seq<byte>, p: nat) returns (v: Verdict, b: Locals)
    requires p < |data| && a.Ready(p) && a.core.state.ValueStart? && a.Speaking(data, p)
    ensures Follows(a, OnValueStart(a.core, data[p]), v, b, data, p)
  {
    var ch := data[p];
    if ch == ' ' {
      StayFollows(a, OnValueStart(a.core, ch), Proceed, a.core, data, p);
      v, b := Proceed, a;
    } else if ch == '\r' || ch == '\n' {
      v := Proceed;
      b := EmptyValueByte(a, data, p);
    } else {
      hide Told, Said, Pending, Follows;
      b := SetMark(ValueData, a, data, p);
      var c;
      v, c := FirstValueByte(a.core, ch);
      if v == Proceed {
        b := b.(core := c);
        BeginFollows(ValueData, a, c, b, data, p);
      } else {
        FailingFollows(a, [], a, data, p);
        b := a;
      }
    }
  }

  /** In a value, what is not pending has been said. */
  lemma ValueIsHeardInPart(a: Locals, data: seq<byte>, p: nat)
    requires p <= |data| && a.Ready(p) && a.Speaking(data, p)
    ensures HeardInPart(ValueData, a.calls, a.marks, p)
  {
    if a.marks.value == At(p) {
      assert Pending(Whole, a.marks, data, p) == [] && Pending(Parts, a.marks, data, p) == [];
    }
  }

  method ValueByte(a: Locals, data: seq<byte>, p: nat) returns (v: Verdict, b: Locals)
    requires p < |data| && a.Ready(p) && a.core.state.Value? && a.Speaking(data, p)
    ensures Follows(a, OnValue(a.core, data[p]), v, b, data, p)
  {
    var ch, c := data[p], a.core;
    if ch != '\r' && ch != '\n' {
      v, c := InValueByte(c, ch);
      StayFollows(a, OnValue(a.core, ch), v, c, data, p);
      b := a.(core := c);
    } else {
      v := Proceed;
      ValueIsHeardInPart(a, data, p);
      hide Told, Said, Pending, Follows;
      OneMarkOpen(a.core.state, a.marks);
      b := CallBack(ValueData, a, data, p);
      if ch == '\r' { c := c.(state := HeaderAlmostDone); } else { v, c := HeaderDone(c, ch); }
      b := b.(core := c);
      QuietFollows(a, c, [], false, b, data, p);
    }
  }

  method InValueByte(c: Core, ch: byte) returns (v: Verdict, c': Core)
    requires c.state.Value? && ch != '\r' && ch != '\n'
    ensures Agrees(OnValue(c, ch), v, c') && c'.state.Value?
  {
    hide MatchName;
    v, c' := Proceed, c;
    match c.headerState {
      case General =>
      case IsConnection => v := AssertFailed;
      case IsTransferEncoding => v := AssertFailed;
      case IsContentLength =>
        if ch != ' ' {
          if ch < '0' || ch > '9' {
            v := Error;
          } else {
            c' := c.(contentLength := (c.contentLength * 10 + DigitValue(ch)) % SIZE_MODULUS);
          }
        }
      case MatchingChunked => c' := MatchByte("chunked", c, Lower(ch), IsChunked);
      case MatchingKeepAlive => c' := MatchByte("keep-alive", c, Lower(ch), IsKeepAlive);
      case MatchingClose => c' := MatchByte("close", c, Lower(ch), IsClose);
      case _ =>
        if !(c.headerState.IsChunked? || c.headerState.IsKeepAlive? || c.headerState.IsClose?) || ch != ' ' {
          c' := c.(headerState := General);
        }
    }
  }

  method HeaderDone(c: Core, ch: byte) returns (v: Verdict, c': Core)
    ensures Agrees(OnHeaderDone(c, ch), v, c') && (v.Proceed? ==> Unmarked(c')) && (v.Error? ==> c' == c)
  {
    if ch != '\n' { return Error, c; }
    v, c' := Proceed, c.(state := FieldStart);
    match c.headerState {
      case IsKeepAlive => c' := c'.(flags := c.flags + {KeepAlive});
      case IsClose => c' := c'.(flags := c.flags + {Close});
      case IsChunked => c' := c'.(flags := c.flags + {Chunked});
      case _ => assert c.flags + {} == c.flags;
    }
  }

  method HeadersDone(a: Locals, data: seq<byte>, p: nat, skip: nat -> bool) returns (v: Verdict, b: Locals)
    requires p < |data| && a.marks == NO_MARKS && Unmarked(a.core) && !a.core.state.ValueStart?
    ensures Follows(a, OnHeadersDone(a.core, data[p], skip), v, b, data, p)
  {
    if data[p] != '\n' {
      FailingFollows(a, [], a, data, p);
      v, b := Error, a;
    } else if Trailing in a.core.flags {
      hide Told, Follows;
      v := Proceed;
      b := Raise(MessageComplete, a, data, p);
      b := b.(core := a.core.(state := NewMessage(a.core)));
      QuietFollows(a, b.core, [MessageComplete], false, b, data, p);
    } else {
      v, b := AfterHeaders(a, data, p, skip);
    }
  }

  /** The fields once the callback for the headers has answered. */
  function Announced(c: Core, skip: nat -> bool): Core {
    c.(upgrade := c.upgrade || Upgrade in c.flags || c.verb.CONNECT?,
       flags := c.flags + (if skip(c.answered) then {SkipBody} else {}),
       answered := c.answered + 1)
  }

  method AfterHeaders(a: Locals, data: seq<byte>, p: nat, skip: nat -> bool) returns (v: Verdict, b: Locals)
    requires p < |data| && a.marks == NO_MARKS && Unmarked(a.core) && !a.core.state.ValueStart?
    requires data[p] == '\n' && Trailing !in a.core.flags
    ensures Follows(a, OnHeadersDone(a.core, data[p], skip), v, b, data, p)
  {
    hide Told, Said, Pending;
    var c := a.core;
    c := c.(upgrade := c.upgrade || Upgrade in c.flags || c.verb.CONNECT?);
    b := Raise(HeadersComplete, a, data, p);
    if skip(c.answered) {
      c := c.(flags := c.flags + {SkipBody});
    } else {
      assert c.flags + {} == c.flags;
    }
    c := c.(answered := c.answered + 1);
    assert c == Announced(a.core, skip);
    if c.upgrade || SkipBody in c.flags || (Chunked !in c.flags && c.contentLength == 0) {
      v, b := CompleteAfterHeaders(a, b, c, data, p, skip);
    } else {
      v, b := Proceed, b.(core := c.(state := if Chunked in c.flags then ChunkSizeStart else BodyIdentity), nread := 0);
      QuietFollows(a, b.core, [HeadersComplete], true, b, data, p);
    }
  }

  /** The message ends with its headers. */
  method CompleteAfterHeaders(a: Locals, b0: Locals, c0: Core, data: seq<byte>, p: nat, ghost skip: nat -> bool)
    returns (v: Verdict, b: Locals)
    requires p < |data| && a.marks == NO_MARKS && Unmarked(a.core) && !a.core.state.ValueStart?
    requires data[p] == '\n' && Trailing !in a.core.flags
    requires b0 == a.(calls := b0.calls) && Tells(a, [HeadersComplete], b0, data, p) && c0 == Announced(a.core, skip)
    requires c0.upgrade || SkipBody in c0.flags || (Chunked !in c0.flags && c0.contentLength == 0)
    ensures Follows(a, OnHeadersDone(a.core, data[p], skip), v, b, data, p)
  {
    hide Told, Said, Pending;
    b := Raise(MessageComplete, b0, data, p);
    RaisedTwice(a, HeadersComplete, b0, MessageComplete, b, data, p);
    if c0.upgrade {
      v, b := Exit, b.(core := c0, nread := 0);
    } else {
      v, b := Proceed, b.(core := c0.(state := NewMessage(c0)), nread := 0);
      QuietFollows(a, b.core, [HeadersComplete, MessageComplete], true, b, data, p);
    }
  }

  lemma RaisedTwice(a: Locals, m: Note, b: Locals, n: Note, c: Locals, data: seq<byte>, p: nat)
    requires Tells(a, [m], b, data, p) && Tells(b, [n], c, data, p)
    ensures Tells(a, [m, n], c, data, p)
  {
    ThenTwice(Told(Whole, a.calls, a.marks, data, p), m, n);
    ThenTwice(Told(Parts, a.calls, a.marks, data, p), m, n);
  }

  lemma ThenTwice(items: seq<Item>, m: Note, n: Note)
    ensures Then(Then(items, [m]), [n]) == Then(items, [m, n])
  {
    assert Events([m, n]) == Events([m]) + Events([n]);
  }

  method ChunkByte(c: Core, nread: nat, ch: byte) returns (v: Verdict, c': Core, nread': nat)
    requires InChunkFrame(c.state)
    ensures match OnChunkFrame(c, ch)
            case Go(d, notes, reset) => v.Proceed? && c' == d && notes == [] && nread' == (if reset then 0 else nread)
            case Fail(notes, d) => v.Error? && c' == d && notes == []
            case Abort => v.AssertFailed?
            case _ => false
    ensures Unmarked(c') && (v.Error? ==> c'.state == c.state)
  {
    if Chunked !in c.flags { return AssertFailed, c, nread; }
    v, c', nread' := Proceed, c, nread;
    match c.state {
      case ChunkSizeStart =>
        if UnHex(ch) == -1 { v := Error; } else { c' := c.(contentLength := UnHex(ch), state := ChunkSize); }
      case ChunkSize =>
        if ch == '\r' {
          c' := c.(state := ChunkSizeAlmostDone);
        } else if UnHex(ch) == -1 {
          if ch == ';' || ch == ' ' { c' := c.(state := ChunkParameters); } else { v := Error; }
        } else {
          c' := c.(contentLength := (c.contentLength * 16 + UnHex(ch)) % SIZE_MODULUS);
        }
      case ChunkParameters =>
        if ch == '\r' { c' := c.(state := ChunkSizeAlmostDone); }
      case ChunkSizeAlmostDone =>
        if ch != '\n' {
          v := Error;
        } else {
          nread' := 0;
          if c.contentLength == 0 {
            c' := c.(flags := c.flags + {Trailing}, state := FieldStart);
          } else {
            c' := c.(state := ChunkData);
          }
        }
      case ChunkDataAlmostDone =>
        if ch != '\r' { v := Error; } else { c' := c.(state := ChunkDataDone); }
      case ChunkDataDone =>
        if ch != '\n' { v := Error; } else { c' := c.(state := ChunkSizeStart); }
    }
  }

  /** The switch for every state but those of bodies. */
  method SwitchByte(a: Locals, data: seq<byte>, p: nat, skip: nat -> bool) returns (v: Verdict, b: Locals)
    requires p < |data| && a.Ready(p) && !InBody(a.core.state) && a.Speaking(data, p)
    ensures Follows(a, React(a.core, data[p], skip), v, b, data, p)
  {
    hide React, Follows, Told, OnStart, OnUrl, OnField, OnValueStart, OnValue, OnHeadersDone, OnChunkFrame, WordsIn;
    var c, s := a.core, a.core.state;
    if InStart(s) {
      StartReaction(c, data[p], skip);
      v, b := StartByte(a, data, p);
    } else if InUrl(s) {
      UrlReaction(c, data[p], skip);
      v, b := UrlByte(a, data, p);
    } else if s == FieldStart {
      FieldReaction(c, data[p], skip);
      v, b := FieldStartByte(a, data, p, skip);
    } else if s == Field {
      FieldReaction(c, data[p], skip);
      v, b := FieldByte(a, data, p, skip);
    } else if s == ValueStart {
      ValueStartReaction(c, data[p], skip);
      v, b := ValueStartByte(a, data, p);
    } else if s == Value {
      ValueReaction(c, data[p], skip);
      v, b := ValueByte(a, data, p);
    } else if s == HeadersAlmostDone {
      HeadersDoneReaction(c, data[p], skip);
      v, b := HeadersDone(a, data, p, skip);
    } else if InChunkFrame(s) {
      ChunkFrameReaction(c, data[p], skip);
      v, b := ChunkFrameByte(a, data, p);
    } else {
      v, b := SilentByte(a, data, p, skip);
    }
  }

  method UrlByte(a: Locals, data: seq<byte>, p: nat) returns (v: Verdict, b: Locals)
    requires p < |data| && a.Ready(p) && InUrl(a.core.state)
    ensures Follows(a, OnUrl(a.core, data[p]), v, b, data, p)
  {
    hide Follows, OnUrl, Told;
    var s := a.core.state;
    if s == SpacesBeforeUrl {
      v, b := UrlStartByte(a, data, p);
    } else if InAuthority(s) {
      v, b := AuthorityByte(a, data, p);
    } else if s == FragmentStart || s == Fragment {
      v, b := FragmentByte(a, data, p);
    } else {
      v, b := PathByte(a, data, p);
    }
  }

  method ChunkFrameByte(a: Locals, data: seq<byte>, p: nat) returns (v: Verdict, b: Locals)
    requires p < |data| && a.Ready(p) && InChunkFrame(a.core.state)
    ensures Follows(a, OnChunkFrame(a.core, data[p]), v, b, data, p)
  {
    hide OnChunkFrame, Told;
    var c, nread;
    v, c, nread := ChunkByte(a.core, a.nread, data[p]);
    b := a.(core := c, nread := nread);
  }

  method FieldByte(a: Locals, data: seq<byte>, p: nat, ghost skip: nat -> bool) returns (v: Verdict, b: Locals)
    requires p < |data| && a.Ready(p) && a.core.state.Field?
    ensures Follows(a, OnField(a.core, data[p], skip), v, b, data, p)
  {
    if Token(data[p]) == '\0' {
      v, b := NameEndByte(a, data, p, skip);
    } else {
      hide Follows, NextFieldState, Told;
      var c;
      v, c := NameByte(a.core, Token(data[p]));
      StayFollows(a, OnField(a.core, data[p], skip), v, c, data, p);
      b := a.(core := c);
    }
  }

  /** States in which no data callback is open and whose bytes raise nothing. */
  method SilentByte(a: Locals, data: seq<byte>, p: nat, ghost skip: nat -> bool) returns (v: Verdict, b: Locals)
    requires p < |data| && a.marks == NO_MARKS
    requires var s := a.core.state; InStatusLine(s) || s.ReqMethod? || InVersion(s) || s.HeaderAlmostDone?
    ensures Follows(a, React(a.core, data[p], skip), v, b, data, p)
  {
    hide Told, Said, Pending;
    hide React, OnStatusLine, OnMethod, OnVersion, OnHeaderDone, Follows;
    var c, s := a.core, a.core.state;
    if InStatusLine(s) {
      StatusLineReaction(c, data[p], skip);
      v, c := StatusByte(c, data[p]);
    } else if s == ReqMethod {
      MethodReaction(c, data[p], skip);
      v, c := MethodByte(c, data[p]);
    } else if InVersion(s) {
      VersionReaction(c, data[p], skip);
      v, c := VersionByte(c, data[p]);
    } else {
      HeaderDoneReaction(c, data[p], skip);
      v, c := HeaderDone(c, data[p]);
    }
    SilentFollows(a, React(a.core, data[p], skip), v, c, data, p);
    b := a.(core := c);
  }

  /** The run the locals stand for: what is pending counts as heard. */
  function AsMachine(a: Locals, data: seq<byte>, p: nat): Machine {
    Machine(a.core, a.nread, p, Told(Whole, a.calls, a.marks, data, p), Told(Parts, a.calls, a.marks, data, p))
  }

  predicate HeardBy(m: Machine, b: Locals, data: seq<byte>, p: nat) {
    m.at == p && m.whole == Told(Whole, b.calls, b.marks, data, p) && m.parts == Told(Parts, b.calls, b.marks, data, p)
  }

  /** The outcome of the step, or the steps, of one iteration. */
  predicate Outcome(r: Result, v: Verdict, b: Locals, data: seq<byte>, p: nat) {
    match v
    case Proceed => r == Running(AsMachine(b, data, p))
    case Error => r.Failed? && r.m.core == b.core && HeardBy(r.m, b, data, p)
    case Exit => r.Left? && r.m.core == b.core && b.marks == NO_MARKS && HeardBy(r.m, b, data, p)
    case AssertFailed => r.Aborted?
    case OutOfBounds => r.Undef?
  }

  lemma ThenIsAppend(items: seq<Item>, notes: seq<Note>)
    ensures Then(items, notes) == items + Events(notes)
  {
    assert Events([]) == [];
  }

  /** Passing a byte adds it to whatever is open. */
  lemma PassByte(ch: Channel, a: Locals, notes: seq<Note>, b: Locals, data: seq<byte>, p: nat)
    requires p < |data| && b.Ready(p) && !Delivers(a.core) && !Empties(a.core.state, data[p])
    requires Told(ch, b.calls, b.marks, data, p) == Then(Told(ch, a.calls, a.marks, data, p), notes)
    ensures Told(ch, b.calls, b.marks, data, p + 1)
            == Told(ch, a.calls, a.marks, data, p) + Heard(ch, a.core, notes, b.core.state, data[p])
  {
    hide Pending, Said, Octets, Delivers, SpanOf, Voice, Events;
    var before, x := Told(ch, a.calls, a.marks, data, p), Voice(ch, b.core.state, data[p]);
    PendingGrows(ch, b.core.state, b.marks, data, p);
    Associates(Said(ch, b.calls), Pending(ch, b.marks, data, p), x);
    ThenIsAppend(before, notes);
    assert Heard(ch, a.core, notes, b.core.state, data[p]) == Events(notes) + x;
    Associates(before, Events(notes), x);
  }

  /** Passing the end of an empty value. */
  lemma PassBlank(ch: Channel, a: Locals, b: Locals, data: seq<byte>, p: nat)
    requires p < |data| && b.Ready(p) && !Delivers(a.core) && Empties(a.core.state, data[p])
    requires Told(ch, b.calls, b.marks, data, p) == Told(ch, a.calls, a.marks, data, p) + [Blank]
    ensures Told(ch, b.calls, b.marks, data, p + 1)
            == Told(ch, a.calls, a.marks, data, p) + Heard(ch, a.core, [], b.core.state, data[p])
  {
    var before, x := Told(ch, a.calls, a.marks, data, p), Voice(ch, b.core.state, data[p]);
    PendingGrows(ch, b.core.state, b.marks, data, p);
    Associates(Said(ch, b.calls), Pending(ch, b.marks, data, p), x);
    Associates(before, [Blank], x);
    assert Heard(ch, a.core, [], b.core.state, data[p]) == [Blank] + x;
  }

  lemma FollowedOn(a: Locals, c: Core, notes: seq<Note>, reset: bool, b: Locals, data: seq<byte>, p: nat)
    requires p < |data| && !Delivers(a.core) && Follows(a, Go(c, notes, reset), Proceed, b, data, p)
    ensures Outcome(Absorb(AsMachine(a, data, p), data[p], Go(c, notes, reset), a.nread), Proceed, b, data, p + 1)
  {
    hide React, Heard, Told, Delivers;
    if Empties(a.core.state, data[p]) {
      PassBlank(Whole, a, b, data, p);
      PassBlank(Parts, a, b, data, p);
    } else {
      PassByte(Whole, a, notes, b, data, p);
      PassByte(Parts, a, notes, b, data, p);
    }
  }

  lemma FollowedToError(a: Locals, notes: seq<Note>, b: Locals, data: seq<byte>, p: nat)
    requires p < |data| && Follows(a, Fail(notes, b.core), Error, b, data, p)
    ensures Outcome(Absorb(AsMachine(a, data, p), data[p], Fail(notes, b.core), a.nread), Error, b, data, p)
  {
    hide Told, Events;
    ThenIsAppend(Told(Whole, a.calls, a.marks, data, p), notes);
    ThenIsAppend(Told(Parts, a.calls, a.marks, data, p), notes);
  }

  lemma FollowedOut(a: Locals, c: Core, notes: seq<Note>, b: Locals, data: seq<byte>, p: nat)
    requires p < |data| && !Delivers(a.core) && !a.core.state.ValueStart?
    requires Follows(a, Leave(c, notes), Exit, b, data, p)
    ensures Outcome(Absorb(AsMachine(a, data, p), data[p], Leave(c, notes), a.nread), Exit, b, data, p)
  {
    hide Told, Events, Heard, Delivers;
    UnmarkedIsSilent(c.state);
    ThenIsAppend(Told(Whole, a.calls, a.marks, data, p), notes);
    ThenIsAppend(Told(Parts, a.calls, a.marks, data, p), notes);
    OnlyNotesHeard(Whole, a.core, notes, c.state, data[p]);
    OnlyNotesHeard(Parts, a.core, notes, c.state, data[p]);
  }

  lemma UnmarkedIsSilent(s: State)
    requires MarksOf(s, NO_MARKS)
    ensures SpanOf(Whole, s).Silent? && SpanOf(Parts, s).Silent?
  {}

  /** A reaction that was followed is a step of the run. */
  lemma FollowsStep(a: Locals, r: Reaction, v: Verdict, b: Locals, data: seq<byte>, p: nat)
    requires p < |data| && !Delivers(a.core)
    requires Follows(a, r, v, b, data, p) && (r.Leave? ==> !a.core.state.ValueStart?)
    ensures Outcome(Absorb(AsMachine(a, data, p), data[p], r, a.nread), v, b, data, if v.Proceed? then p + 1 else p)
  {
    hide Told, Heard, Delivers, AsMachine;
    match r
    case Go(c, notes, reset) => FollowedOn(a, c, notes, reset, b, data, p);
    case Fail(notes, _) => FollowedToError(a, notes, b, data, p);
    case Leave(c, notes) => FollowedOut(a, c, notes, b, data, p);
    case _ =>
  }

  // Bodies.

  /** A body state has no data callback open, before or after. */
  lemma BodyIsUnmarked(c: Core, n: nat)
    requires CanReadBody(c, n)
    ensures Unmarked(c) && Unmarked(BodyEnd(c, n))
  {}

  /** on_body with the bytes from p up to q. */
  method CallBody(a: Locals, data: seq<byte>, p: nat, q: nat) returns (b: Locals)
    requires p <= q <= |data| && a.marks == NO_MARKS
    ensures b == a.(calls := b.calls)
    ensures Told(Whole, b.calls, b.marks, data, q)
            == Told(Whole, a.calls, a.marks, data, p) + Octets(BodyData, data[p..q])
    ensures Told(Parts, b.calls, b.marks, data, q)
            == Told(Parts, a.calls, a.marks, data, p) + Octets(BodyData, data[p..q])
  {
    hide Said, Octets;
    SaidOneMore(Whole, a.calls, Data(BodyData, data[p..q]));
    SaidOneMore(Parts, a.calls, Data(BodyData, data[p..q]));
    b := a.(calls := a.calls + [Data(BodyData, data[p..q])]);
  }

  /** What one iteration came to, for the run from p. */
  predicate Iterated(a: Locals, v: Verdict, b: Locals, data: seq<byte>, p: nat, q: nat, skip: nat -> bool) {
    && p < |data|
    && if v.Proceed? then
         && p < q <= |data| && b.Ready(q) && ((q == p + 1 && MarksFollow(a, b, p)) || Unmarked(b.core))
         && Run(AsMachine(a, data, p), data[p..q], skip) == Running(AsMachine(b, data, q))
       else
         && q == p && Outcome(Step(AsMachine(a, data, p), data[p], skip), v, b, data, p)
         && (v.Error? ==> b.core.state == a.core.state && b.marks == a.marks)
  }

  /** The assignments after on_body; true when the message is complete. */
  method BodyFields(c: Core, n: nat) returns (done: bool, c': Core)
    requires CanReadBody(c, n)
    ensures c' == BodyEnd(c, n)
    ensures BodyNotes(c, n) == if done then [MessageComplete] else []
  {
    done, c' := false, c;
    if c.state == BodyIdentity {
      c' := c'.(contentLength := c.contentLength - n);
      if c'.contentLength == 0 {
        done := true;
        c' := c'.(state := NewMessage(c'));
      }
    } else if c.state == ChunkData {
      if n == c.contentLength { c' := c'.(state := ChunkDataAlmostDone); }
      c' := c'.(contentLength := c'.contentLength - n);
    }
  }

  /** As many bytes as the buffer and the body allow. */
  function ToRead(c: Core, left: nat): nat {
    if !c.state.BodyIdentityEof? && c.contentLength < left then c.contentLength else left
  }

  /** The bytes up to q are read in one go. */
  method ReadBody(a: Locals, data: seq<byte>, p: nat, q: nat, ghost skip: nat -> bool) returns (b: Locals)
    requires p < q <= |data| && a.Ready(p) && CanReadBody(a.core, q - p)
    ensures b.Ready(q) && Unmarked(b.core)
    ensures Run(AsMachine(a, data, p), data[p..q], skip) == Running(AsMachine(b, data, q))
  {
    hide React;
    BodyRun(AsMachine(a, data, p), data[p..q], skip);
    BodyIsUnmarked(a.core, q - p);
    b := CallBody(a, data, p, q);
    var done, c := BodyFields(a.core, q - p);
    var bytes := Octets(BodyData, data[p..q]);
    Associates(Told(Whole, a.calls, a.marks, data, p), bytes, Events(BodyNotes(a.core, q - p)));
    Associates(Told(Parts, a.calls, a.marks, data, p), bytes, Events(BodyNotes(a.core, q - p)));
    if done {
      var b1 := Raise(MessageComplete, b, data, q);
      b := b1;
    } else {
      ThenIsAppend(Told(Whole, b.calls, b.marks, data, q), []);
      ThenIsAppend(Told(Parts, b.calls, b.marks, data, q), []);
    }
    b := b.(core := c);
  }

  /** One iteration in a body state whose asserts and bounds are met. */
  method TakeBody(a: Locals, data: seq<byte>, p: nat, ghost skip: nat -> bool) returns (b: Locals, q: nat)
    requires p < |data| && a.Ready(p) && InBody(a.core.state) && BodyCrash(a.core).Proceed?
    ensures p < q <= |data| && b.Ready(q) && Unmarked(b.core)
    ensures Run(AsMachine(a, data, p), data[p..q], skip) == Running(AsMachine(b, data, q))
  {
    hide React;
    var toRead := ToRead(a.core, |data| - p);
    if toRead == 0 {
      q := p + 1;
      b := EmptyBody(a, data, p, skip);
    } else {
      q := p + toRead;
      b := ReadBody(a, data, p, q, skip);
    }
  }

  /** The assert of the chunk states, and the cast of the chunk size to a signed type. */
  function BodyCrash(c: Core): Verdict {
    if c.state.ChunkData? && Chunked !in c.flags then AssertFailed
    else if c.state.ChunkData? && c.contentLength >= SIGNED_LIMIT then OutOfBounds
    else Proceed
  }

  lemma BodyCrashes(m: Machine, x: byte, b: Locals, data: seq<byte>, p: nat, skip: nat -> bool)
    requires InBody(m.core.state) && !BodyCrash(m.core).Proceed?
    ensures Outcome(Step(m, x, skip), BodyCrash(m.core), b, data, p)
  {}

  /** With no length left to read, a body state drops the byte. */
  method EmptyBody(a: Locals, data: seq<byte>, p: nat, ghost skip: nat -> bool) returns (b: Locals)
    requires p < |data| && a.Ready(p) && a.core.contentLength == 0
    requires a.core.state.BodyIdentity? || (a.core.state.ChunkData? && Chunked in a.core.flags)
    ensures b.Ready(p + 1) && Unmarked(b.core)
    ensures Run(AsMachine(a, data, p), data[p..p + 1], skip) == Running(AsMachine(b, data, p + 1))
  {
    hide React;
    var c := a.core;
    if c.state == ChunkData { c := c.(state := ChunkDataAlmostDone); }
    b := a.(core := c);
    EmptyBodyIsStep(a, b, data, p, skip);
    OneByte(a, b, data, p, skip);
  }

  lemma EmptyBodyIsStep(a: Locals, b: Locals, data: seq<byte>, p: nat, skip: nat -> bool)
    requires p < |data| && a.Ready(p) && InBody(a.core.state) && a.core.contentLength == 0
    requires OnBody(a.core) == Go(b.core, [], false) && b == a.(core := b.core) && Unmarked(b.core)
    requires !Delivers(a.core)
    ensures Step(AsMachine(a, data, p), data[p], skip) == Running(AsMachine(b, data, p + 1))
  {
    hide React;
    BodyStep(AsMachine(a, data, p), data[p], skip);
    FollowsStep(a, OnBody(a.core), Proceed, b, data, p);
  }

  lemma BodyStep(m: Machine, x: byte, skip: nat -> bool)
    requires InBody(m.core.state)
    ensures Step(m, x, skip) == Absorb(m, x, OnBody(m.core), m.nread)
  {
    hide React;
    BodyReaction(m.core, x, skip);
  }

  /** An iteration that takes one byte takes one step. */
  lemma OneByte(a: Locals, b: Locals, data: seq<byte>, p: nat, skip: nat -> bool)
    requires p < |data| && b.Ready(p + 1) && (MarksFollow(a, b, p) || Unmarked(b.core))
    requires Step(AsMachine(a, data, p), data[p], skip) == Running(AsMachine(b, data, p + 1))
    ensures Iterated(a, Proceed, b, data, p, p + 1, skip)
  {
    hide React, Step, Told;
    assert data[p..p + 1] == [data[p]];
    RunByte(AsMachine(a, data, p), data[p], skip);
  }

  /** The outcome of a switch on a byte that has been counted. */
  lemma SwitchIsStep(a: Locals, v: Verdict, b: Locals, data: seq<byte>, p: nat, skip: nat -> bool)
    requires p < |data| && !InBody(a.core.state)
    requires var n := Counted(AsMachine(a, data, p));
             && !(ParsingHeader(a.core.state) && n > MAX_HEADER_SIZE) && !(a.core.state.ChunkSizeStart? && n != 1)
             && Follows(a.(nread := n), React(a.core, data[p], skip), v, b, data, p)
    ensures Outcome(Step(AsMachine(a, data, p), data[p], skip), v, b, data, if v.Proceed? then p + 1 else p)
    ensures v.Proceed? ==> b.Ready(p + 1) && MarksFollow(a, b, p)
    ensures v.Error? ==> b.core.state == a.core.state && b.marks == a.marks
  {
    hide React;
    var r := React(a.core, data[p], skip);
    var n := Counted(AsMachine(a, data, p));
    NoExitInValue(a.core, data[p], skip);
    FollowsStep(a.(nread := n), r, v, b, data, p);
    CountedFirst(AsMachine(a, data, p), data[p], r, n, v, b, data, if v.Proceed? then p + 1 else p);
    if v.Proceed? { BelowGrows(a.(nread := n), r, v, b, data, p); }
  }

  lemma NoExitInValue(c: Core, x: byte, skip: nat -> bool)
    ensures c.state.ValueStart? ==> !React(c, x, skip).Leave?
  {
    hide React;
    if c.state.ValueStart? { ValueStartReaction(c, x, skip); }
  }

  lemma BelowGrows(a: Locals, r: Reaction, v: Verdict, b: Locals, data: seq<byte>, p: nat)
    requires p < |data| && Follows(a, r, v, b, data, p) && v.Proceed?
    ensures b.Ready(p + 1)
  {}

  /** Counting the byte before or after the switch makes no difference. */
  lemma CountedFirst(m: Machine, x: byte, r: Reaction, n: nat, v: Verdict, b: Locals, data: seq<byte>, p: nat)
    requires Outcome(Absorb(m.(nread := n), x, r, n), v, b, data, p)
    ensures Outcome(Absorb(m, x, r, n), v, b, data, p)
  {}

  /** The guards before the switch. */
  lemma GuardsAreStep(m: Machine, x: byte, skip: nat -> bool)
    ensures ParsingHeader(m.core.state) && Counted(m) > MAX_HEADER_SIZE ==> Step(m, x, skip) == Failed(m)
    ensures m.core.state.ChunkSizeStart? && 1 != Counted(m) <= MAX_HEADER_SIZE ==> Step(m, x, skip).Aborted?
  {}

  /** One iteration of the loop. */
  method Iterate(a: Locals, data: seq<byte>, p: nat, skip: nat -> bool) returns (v: Verdict, b: Locals, q: nat)
    requires p < |data| && a.Ready(p) && InWords(AsMachine(a, data, p))
    ensures Iterated(a, v, b, data, p, q, skip)
  {
    hide React;
    q := p;
    if !InBody(a.core.state) {
      v, b := HeaderIterate(a, data, p, skip);
      if v == Proceed {
        OneByte(a, b, data, p, skip);
        q := p + 1;
      }
    } else {
      v, b := BodyCrash(a.core), a;
      if v == Proceed {
        b, q := TakeBody(a, data, p, skip);
      } else {
        BodyCrashes(AsMachine(a, data, p), data[p], b, data, p, skip);
      }
    }
  }

  method HeaderIterate(a: Locals, data: seq<byte>, p: nat, skip: nat -> bool) returns (v: Verdict, b: Locals)
    requires p < |data| && a.Ready(p) && !InBody(a.core.state) && InWords(AsMachine(a, data, p))
    ensures Outcome(Step(AsMachine(a, data, p), data[p], skip), v, b, data, if v.Proceed? then p + 1 else p)
    ensures v.Proceed? ==> b.Ready(p + 1) && MarksFollow(a, b, p)
    ensures v.Error? ==> b.core.state == a.core.state && b.marks == a.marks
  {
    hide React;
    GuardsAreStep(AsMachine(a, data, p), data[p], skip);
    var a1 := a;
    if ParsingHeader(a.core.state) {
      a1 := a.(nread := a.nread + 1);
      if a1.nread > MAX_HEADER_SIZE { return Error, a; }
    }
    if a.core.state == ChunkSizeStart && a1.nread != 1 { return AssertFailed, a; }
    v, b := SwitchByte(a1, data, p, skip);
    SwitchIsStep(a, v, b, data, p, skip);
  }

  // The span that is open.

  function StateAfter(m: Machine, data: seq<byte>, n: nat, skip: nat -> bool): State
    requires n <= |data|
  {
    match Run(m, data[..n], skip)
    case Running(x) => x.core.state
    case _ => Dead
  }

  /** Where in this buffer the span that is open after n bytes begins. */
  function SpanStart(ch: Channel, m: Machine, data: seq<byte>, n: nat, skip: nat -> bool): (i: nat)
    requires n <= |data|
    ensures i <= n
  {
    if n == 0 then 0
    else if SpanOf(ch, StateAfter(m, data, n - 1, skip)) == SpanOf(ch, StateAfter(m, data, n, skip)) then
      SpanStart(ch, m, data, n - 1, skip)
    else n - 1
  }

  /** Each open mark is where its span begins. */
  predicate Anchored(ch: Channel, m: Machine, data: seq<byte>, n: nat, a: Locals, skip: nat -> bool) {
    n <= |data|
    && match SpanOf(ch, a.core.state)
       case Silent => true
       case Speaks(k) => a.marks.Of(k) == At(SpanStart(ch, m, data, n, skip))
  }

  lemma EntryIsAnchored(ch: Channel, a: Locals, data: seq<byte>, skip: nat -> bool)
    requires a.marks == RestoredMarks(a.core.state)
    ensures Anchored(ch, AsMachine(a, data, 0), data, 0, a, skip)
  {
    hide React, Run, StateAfter, AsMachine, SpanOf, RestoredMarks;
    RestoredAtStart(ch, a.core.state);
  }

  lemma BelowZero(marks: Marks, k: DataKind)
    requires marks.Below(0) && marks.Of(k).At?
    ensures marks.Of(k) == At(0)
  {}

  lemma RestoredAtStart(ch: Channel, s: State)
    ensures match SpanOf(ch, s)
            case Silent => true
            case Speaks(k) => RestoredMarks(s).Of(k) == At(0)
  {
    hide SpanOf, RestoredMarks, MarksOf, Pending;
    RestoredMarksFit(s);
    PendingInSpan(ch, s, RestoredMarks(s), [], 0);
    if SpanOf(ch, s).Speaks? { BelowZero(RestoredMarks(s), SpanOf(ch, s).kind); }
  }

  lemma StaysAnchored(ch: Channel, m: Machine, a: Locals, b: Locals, data: seq<byte>, p: nat, q: nat, skip: nat -> bool)
    requires p < q <= |data| && Anchored(ch, m, data, p, a, skip)
    requires (q == p + 1 && MarksGo(ch, a.core.state, a.marks, b.core.state, b.marks, p))
             || SpanOf(ch, b.core.state).Silent?
    requires StateAfter(m, data, p, skip) == a.core.state && StateAfter(m, data, q, skip) == b.core.state
    ensures Anchored(ch, m, data, q, b, skip)
  {
    hide React, Run, StateAfter, SpanOf;
  }

  /** Where the loop stands after n bytes. */
  predicate Standing(m: Machine, a: Locals, data: seq<byte>, n: nat, skip: nat -> bool) {
    && n <= |data| && a.Ready(n) && Run(m, data[..n], skip) == Running(AsMachine(a, data, n))
    && InWords(AsMachine(a, data, n))
    && Anchored(Whole, m, data, n, a, skip) && Anchored(Parts, m, data, n, a, skip)
  }

  lemma {:induction false} StandsOn(m: Machine, a: Locals, b: Locals, data: seq<byte>, p: nat, q: nat,
                                    skip: nat -> bool)
    requires Standing(m, a, data, p, skip) && Iterated(a, Proceed, b, data, p, q, skip)
    ensures Standing(m, b, data, q, skip)
  {
    hide React, InWords, Anchored, AsMachine, SpanOf;
    RunFurther(m, AsMachine(a, data, p), data, p, q, skip);
    RunInWords(AsMachine(a, data, p), data[p..q], skip);
    StandsIn(m, a, data, p, skip);
    StandsIn(m, b, data, q, skip);
    if Unmarked(b.core) { UnmarkedIsSilent(b.core.state); }
    StaysAnchored(Whole, m, a, b, data, p, q, skip);
    StaysAnchored(Parts, m, a, b, data, p, q, skip);
  }

  lemma StandsIn(m: Machine, a: Locals, data: seq<byte>, n: nat, skip: nat -> bool)
    requires n <= |data| && Run(m, data[..n], skip) == Running(AsMachine(a, data, n))
    ensures StateAfter(m, data, n, skip) == a.core.state
  {
    hide React, Run;
  }

  /** Where an error leaves the marks. */
  predicate StoppedIn(m: Machine, a: Locals, data: seq<byte>, n: nat, skip: nat -> bool) {
    a.Ready(n) && Anchored(Whole, m, data, n, a, skip) && Anchored(Parts, m, data, n, a, skip)
  }

  /** The byte loop. */
  method Loop(a0: Locals, data: seq<byte>, skip: nat -> bool) returns (n: nat, v: Verdict, a: Locals)
    requires Standing(AsMachine(a0, data, 0), a0, data, 0, skip)
    ensures n <= |data| && (v.Proceed? ==> n == |data| && Standing(AsMachine(a0, data, 0), a, data, n, skip))
    ensures v.Error? ==> StoppedIn(AsMachine(a0, data, 0), a, data, n, skip)
    ensures Outcome(Run(AsMachine(a0, data, 0), data, skip), v, a, data, n)
  {
    hide React, InWords, AsMachine, Anchored, Step;
    ghost var m := AsMachine(a0, data, 0);
    a, v, n := a0, Proceed, 0;
    while n < |data|
      invariant n <= |data| && v.Proceed? && Standing(m, a, data, n, skip)
    {
      var b, q;
      v, b, q := Iterate(a, data, n, skip);
      if v != Proceed {
        OutcomeEnds(m, a, v, b, data, n, skip);
        return n, v, b;
      }
      StandsOn(m, a, b, data, n, q, skip);
      a, n := b, q;
    }
    assert data[..n] == data;
  }

  lemma {:induction false} OutcomeEnds(m: Machine, a: Locals, v: Verdict, b: Locals, data: seq<byte>, n: nat,
                                       skip: nat -> bool)
    requires n < |data| && !v.Proceed? && Standing(m, a, data, n, skip) && Iterated(a, v, b, data, n, n, skip)
    ensures Outcome(Run(m, data, skip), v, b, data, n)
    ensures v.Error? ==> StoppedIn(m, b, data, n, skip)
  {
    hide React, Run, Step, InWords, SpanStart;
    RunEnds(m, AsMachine(a, data, n), data, n, skip);
  }

  // Entry and return.

  /** The marks a call begins with: spans cut by the previous return go on at once. */
  function RestoredMarks(s: State): Marks {
    Marks(if s == Field then At(0) else Null,
          if s == Value then At(0) else Null,
          if s == Fragment then At(0) else Null,
          if s == Query then At(0) else Null,
          if s == Path then At(0) else Null,
          if s == Path || s == Schema || s == SchemaSlash || s == SchemaSlashSlash || s == Port || s == QueryStart
             || s == Query || s == Host || s == FragmentStart || s == Fragment then At(0) else Null)
  }

  lemma RestoredTellsNothing(s: State, calls: seq<Callback>, data: seq<byte>)
    ensures MarksOf(s, RestoredMarks(s)) && RestoredMarks(s).Below(0)
    ensures Told(Whole, calls, RestoredMarks(s), data, 0) == Said(Whole, calls)
    ensures Told(Parts, calls, RestoredMarks(s), data, 0) == Said(Parts, calls)
  {
    RestoredPending(Whole, s, data);
    RestoredPending(Parts, s, data);
    RestoredMarksFit(s);
  }

  lemma RestoredPending(ch: Channel, s: State, data: seq<byte>)
    ensures Pending(ch, RestoredMarks(s), data, 0) == []
  {
    assert data[0..0] == [];
  }

  lemma RestoredMarksFit(s: State)
    ensures MarksOf(s, RestoredMarks(s)) && RestoredMarks(s).Below(0)
  {}

  /** Clearing other marks leaves what a mark owes. */
  lemma MarksOwe(marks: Marks, data: seq<byte>)
    ensures forall other: Marks, k: DataKind :: other.Of(k) == marks.Of(k) ==>
              Owed(k, other, data, |data|) == Owed(k, marks, data, |data|)
  {}

  method FlushLine(a: Locals, data: seq<byte>) returns (b: Locals)
    requires a.marks.Below(|data|) && a.marks.OneOpen() && HeardInPart(ValueData, a.calls, a.marks, |data|)
    ensures b == a.(marks := a.marks.(field := Null, value := Null), calls := b.calls)
    ensures b.calls == a.calls + Owed(FieldData, a.marks, data, |data|) + Owed(ValueData, a.marks, data, |data|)
    ensures Tells(a, [], b, data, |data|)
  {
    hide Told, Said, Pending, Owed;
    MarksOwe(a.marks, data);
    var h := CallBack(FieldData, a, data, |data|);
    b := CallBack(ValueData, h, data, |data|);
    TellsOn(a, h, b, data, |data|);
  }

  /** The callbacks of a full return, in the source's order. */
  method Flush(a: Locals, data: seq<byte>) returns (b: Locals)
    requires a.marks.Below(|data|) && a.marks.OneOpen() && HeardInPart(ValueData, a.calls, a.marks, |data|)
    ensures b == a.(marks := NO_MARKS, calls := b.calls)
    ensures b.calls == a.calls + Owed(FieldData, a.marks, data, |data|) + Owed(ValueData, a.marks, data, |data|)
                       + Owed(FragmentData, a.marks, data, |data|) + Owed(QueryData, a.marks, data, |data|)
                       + Owed(PathData, a.marks, data, |data|) + Owed(UrlData, a.marks, data, |data|)
    ensures Said(Whole, b.calls) == Told(Whole, a.calls, a.marks, data, |data|)
    ensures Said(Parts, b.calls) == Told(Parts, a.calls, a.marks, data, |data|)
  {
    hide Told, Said, Pending, Owed;
    MarksOwe(a.marks, data);
    var h := FlushLine(a, data);
    b := CallBack(FragmentData, h, data, |data|);
    b := CallBack(QueryData, b, data, |data|);
    b := CallBack(PathData, b, data, |data|);
    b := CallBack(UrlData, b, data, |data|);
    NothingPending(Whole, b.calls, data, |data|);
    NothingPending(Parts, b.calls, data, |data|);
  }

  /** A parser between calls. */
  function Between(c: Core, nread: nat, calls: seq<Callback>): Machine {
    Machine(c, nread, 0, Said(Whole, calls), Said(Parts, calls))
  }

  /** The bytes of the span open after n bytes. */
  function Unsaid(ch: Channel, m: Machine, s: State, data: seq<byte>, n: nat, skip: nat -> bool): seq<Item>
    requires n <= |data|
  {
    match SpanOf(ch, s)
    case Silent => []
    case Speaks(k) => Octets(k, data[SpanStart(ch, m, data, n, skip)..n])
  }

  /** How a call on a non-empty buffer comes out, when its run comes out as r.  On an error
      the bytes of the span that was open are never called back, and the locals of the scan
      are not stored; the fields assigned on the way stay as they were left. */
  predicate Returned(r: Result, m: Machine, data: seq<byte>, n: nat, v: Verdict, m': Machine, skip: nat -> bool) {
    match r
    case Running(e) => v.Proceed? && n == e.at && m' == Save(e)
    case Failed(e) =>
      && v.Error? && n == e.at && n <= |data|
      && e.whole == m'.whole + Unsaid(Whole, m, e.core.state, data, n, skip)
      && e.parts == m'.parts + Unsaid(Parts, m, e.core.state, data, n, skip)
      && m'.core == e.core.(state := Dead, headerState := m.core.headerState, index := m.core.index)
      && m'.nread == m.nread
    case Left(e) =>
      && v.Exit? && n == e.at && m'.whole == e.whole && m'.parts == e.parts && m'.nread == m.nread
      && m'.core == e.core.(state := m.core.state, headerState := m.core.headerState, index := m.core.index)
    case Aborted => v.AssertFailed?
    case Undef => v.OutOfBounds?
  }

  /** What is stored on return depends on how the loop ended. */
  method Finish(ghost r: Result, stored: Core, nread: nat, ghost calls: seq<Callback>,
                data: seq<byte>, n: nat, v: Verdict, a: Locals, ghost skip: nat -> bool)
    returns (stored': Core, nread': nat, calls': seq<Callback>)
    requires n <= |data| && Outcome(r, v, a, data, n)
    requires v.Proceed? ==> n == |data| && Standing(Between(stored, nread, calls), a, data, n, skip)
    requires v.Error? ==> StoppedIn(Between(stored, nread, calls), a, data, n, skip)
    ensures Returned(r, Between(stored, nread, calls), data, n, v, Between(stored', nread', calls'), skip)
  {
    hide React;
    if v == Proceed {
      ValueIsHeardInPart(a, data, n);
      var b := Flush(a, data);
      return b.core.(index := b.core.index % 256), b.nread % 256, b.calls;
    }
    if v == Error {
      OpenIsPending(Whole, Between(stored, nread, calls), a, data, n, skip);
      OpenIsPending(Parts, Between(stored, nread, calls), a, data, n, skip);
    }
    stored' := a.core.(state := if v == Error then Dead else stored.state, headerState := stored.headerState,
                       index := stored.index);
    nread', calls' := nread, a.calls;
    assert a.marks == NO_MARKS ==> Pending(Whole, a.marks, data, n) == [] && Pending(Parts, a.marks, data, n) == [];
  }

  /** What is pending is what the open span holds. */
  lemma OpenIsPending(ch: Channel, m: Machine, a: Locals, data: seq<byte>, n: nat, skip: nat -> bool)
    requires a.Ready(n) && Anchored(ch, m, data, n, a, skip)
    ensures Pending(ch, a.marks, data, n) == Unsaid(ch, m, a.core.state, data, n, skip)
  {
    hide React, SpanStart, Pending, SpanOf;
    PendingInSpan(ch, a.core.state, a.marks, data, n);
  }

  lemma EntryStands(stored: Core, nread: nat, calls: seq<Callback>, data: seq<byte>, skip: nat -> bool)
    requires InWords(Between(stored, nread, calls))
    ensures var a, m := Locals(stored, nread, RestoredMarks(stored.state), calls), Between(stored, nread, calls);
            AsMachine(a, data, 0) == m && Standing(m, a, data, 0, skip)
  {
    hide React;
    var a := Locals(stored, nread, RestoredMarks(stored.state), calls);
    RestoredTellsNothing(stored.state, calls, data);
    EntryIsAnchored(Whole, a, data, skip);
    EntryIsAnchored(Parts, a, data, skip);
  }

  lemma {:induction false} ReturnsInWords(m: Machine, data: seq<byte>, skip: nat -> bool)
    requires InWords(m)
    ensures Run(m, data, skip).Running? ==> InWords(Save(Run(m, data, skip).m))
  {
    hide React, Run;
    if Run(m, data, skip).Running? { RunInWords(m, data, skip); }
  }

  /** A struct http_parser, and the callbacks invoked on it so far. */
  class HttpParser {
    var fields: Core
    var nread: nat
    var calls: seq<Callback>

    /** The answers of on_headers_complete: true for 1, false for 0. */
    const skip: nat -> bool

    ghost function AsRun(): Machine
      reads this
    {
      Between(fields, nread, calls)
    }

    /** http_parser_init; the fields it does not assign keep what the memory held. */
    constructor Init(kind: ParserKind, memory: Core, skip: nat -> bool)
      requires memory.index <= 255 && memory.contentLength < SIZE_MODULUS
      ensures Initial(AsRun()) && InWords(AsRun()) && fields.kind == kind && this.skip == skip
    {
      hide React;
      var start := match kind case Request => StartReq case Response => StartRes case Both => StartReqOrRes;
      this.fields := memory.(kind := kind, state := start, upgrade := false, flags := {}, verb := DELETE);
      this.nread := 0;
      this.calls := [];
      this.skip := skip;
    }

    /** A call with no bytes stands for the end of the stream. */
    method ExecuteEmpty() returns (n: nat)
      modifies this`calls
      ensures var idle := fields.state.BodyIdentityEof? || (InStart(fields.state) && !fields.state.ResOrRespH?);
              n == if idle then 0 else 1
      ensures calls == old(calls) + if fields.state.BodyIdentityEof? then [Notify(MessageComplete)] else []
    {
      n := 0;
      match fields.state {
        case BodyIdentityEof => calls := calls + [Notify(MessageComplete)];
        case Dead =>
        case StartReqOrRes =>
        case StartRes =>
        case StartReq =>
        case _ => n := 1;
      }
    }

    /** A call with bytes.  It takes them all, or stops at byte n; `v` says why. */
    method Execute(data: seq<byte>) returns (n: nat, v: Verdict)
      requires data != [] && InWords(AsRun())
      modifies this
      ensures Returned(Run(old(AsRun()), data, skip), old(AsRun()), data, n, v, AsRun(), skip)
      ensures v.Proceed? ==> InWords(AsRun())
    {
      hide React, InWords, Run;
      var a := Locals(fields, nread, RestoredMarks(fields.state), calls);
      EntryStands(fields, nread, calls, data, skip);
      n, v, a := Loop(a, data, skip);
      ReturnsInWords(AsRun(), data, skip);
      fields, nread, calls := Finish(Run(AsRun(), data, skip), fields, nread, calls, data, n, v, a, skip);
    }
  }
}
