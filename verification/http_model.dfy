/** The transition function of the incremental HTTP parser: what one byte does to
    the parser's fields and which notifications it raises.  Strict mode. */
module HttpModel {

  /** An octet of the stream; the source switches on character literals. */
  type byte = c: char | c as int <= 255 witness '\0'

  const MAX_HEADER_SIZE: nat := 80 * 1024
  const SIZE_MODULUS: nat := 0x1_0000_0000_0000_0000
  const ABSENT_LENGTH: nat := SIZE_MODULUS - 1
  const SIGNED_LIMIT: nat := 0x8000_0000_0000_0000

  datatype ParserKind = Request | Response | Both

  datatype Flag = Chunked | KeepAlive | Close | Trailing | Upgrade | SkipBody

  datatype Method =
    | DELETE | GET | HEAD | POST | PUT | CONNECT | OPTIONS | TRACE | COPY | LOCK | MKCOL | MOVE
    | PROPFIND | PROPPATCH | UNLOCK | REPORT | MKACTIVITY | CHECKOUT | MERGE | MSEARCH
    | NOTIFY | SUBSCRIBE | UNSUBSCRIBE

  datatype State =
    | Dead
    | StartReqOrRes | ResOrRespH
    | StartRes | ResH | ResHT | ResHTT | ResHTTP
    | ResFirstMajor | ResMajor | ResFirstMinor | ResMinor
    | ResFirstStatus | ResStatusCode | ResStatus | ResLineAlmostDone
    | StartReq | ReqMethod | SpacesBeforeUrl
    | Schema | SchemaSlash | SchemaSlashSlash | Host | Port
    | Path | QueryStart | Query | FragmentStart | Fragment
    | HttpStart | HttpH | HttpHT | HttpHTT | HttpHTTP
    | FirstMajor | Major | FirstMinor | Minor | LineAlmostDone
    | FieldStart | Field | ValueStart | Value | HeaderAlmostDone
    | ChunkSizeStart | ChunkSize | ChunkParameters | ChunkSizeAlmostDone
    | HeadersAlmostDone
    | ChunkData | ChunkDataAlmostDone | ChunkDataDone
    | BodyIdentity | BodyIdentityEof

  datatype HeaderState =
    | General | HC | HCO | HCON
    | MatchingConnection | MatchingProxyConnection | MatchingContentLength
    | MatchingTransferEncoding | MatchingUpgrade
    | IsConnection | IsContentLength | IsTransferEncoding | IsUpgrade
    | MatchingChunked | MatchingKeepAlive | MatchingClose
    | IsChunked | IsKeepAlive | IsClose

  datatype Note = MessageBegin | HeadersComplete | MessageComplete

  /** The parser's fields other than the header byte counter.  `answered` counts the
      calls of on_headers_complete, whose results are the environment's. */
  datatype Core = Core(
    kind: ParserKind,
    flags: set<Flag>,
    state: State,
    headerState: HeaderState,
    index: nat,
    contentLength: nat,
    major: nat,
    minor: nat,
    status: nat,
    verb: Method,
    upgrade: bool,
    answered: nat)

  /** What one byte leads to.  A `Fail` leaves the fields it has assigned so far; `Abort` is
      a failed assert of the source and `Undefined` a read or a pointer outside its object. */
  datatype Reaction =
    | Go(core: Core, notes: seq<Note>, resetCounter: bool)
    | Fail(notes: seq<Note>, core: Core)
    | Leave(core: Core, notes: seq<Note>)
    | Abort
    | Undefined

  function MethodName(m: Method): string {
    match m
    case DELETE => "DELETE"
    case GET => "GET"
    case HEAD => "HEAD"
    case POST => "POST"
    case PUT => "PUT"
    case CONNECT => "CONNECT"
    case OPTIONS => "OPTIONS"
    case TRACE => "TRACE"
    case COPY => "COPY"
    case LOCK => "LOCK"
    case MKCOL => "MKCOL"
    case MOVE => "MOVE"
    case PROPFIND => "PROPFIND"
    case PROPPATCH => "PROPPATCH"
    case UNLOCK => "UNLOCK"
    case REPORT => "REPORT"
    case MKACTIVITY => "MKACTIVITY"
    case CHECKOUT => "CHECKOUT"
    case MERGE => "MERGE"
    case MSEARCH => "M-SEARCH"
    case NOTIFY => "NOTIFY"
    case SUBSCRIBE => "SUBSCRIBE"
    case UNSUBSCRIBE => "UNSUBSCRIBE"
  }

  /** size_t arithmetic. */
  lemma {:induction false} WrapsAround(q: nat, r: nat)
    ensures (q * SIZE_MODULUS + r) % SIZE_MODULUS == r % SIZE_MODULUS
  {
    if q > 0 {
      WrapsAround(q - 1, r);
      assert q * SIZE_MODULUS + r == (q - 1) * SIZE_MODULUS + r + SIZE_MODULUS;
    }
  }

  // The character tables.

  function Lower(c: byte): byte {
    if c as int / 32 % 2 == 0 then (c as int + 32) as char else c
  }

  predicate IsAlpha(c: byte) { 'a' <= Lower(c) <= 'z' }

  predicate IsDigit(c: byte) { '0' <= c <= '9' }

  function DigitValue(c: byte): nat
    requires IsDigit(c)
  {
    c as int - '0' as int
  }

  /** The token table: the lower-case form of a token byte, NUL for any other.
      Space, quote, slash and the closing brace are tokens in this table. */
  function Token(c: byte): byte {
    if 'A' <= c <= 'Z' then (c as int + 32) as char
    else if c < ' ' || c > '~' || c in "(),:;<=>?@[\\]{" then '\0'
    else c
  }

  /** The hex table has 128 initialisers; the other entries are zero. */
  function UnHex(c: byte): int {
    if '0' <= c <= '9' then c as int - '0' as int
    else if 'A' <= c <= 'F' then c as int - 'A' as int + 10
    else if 'a' <= c <= 'f' then c as int - 'a' as int + 10
    else if c as int >= 128 then 0
    else -1
  }

  predicate NormalUrlChar(c: byte) { '!' <= c <= '~' && c != '#' && c != '?' }

  /** `lit[i] == c` for a C string: past the last character there is only the NUL. */
  predicate LiteralAt(lit: string, i: nat, c: byte) { i < |lit| && lit[i] == c }

  predicate ParsingHeader(s: State) {
    !(s.ChunkData? || s.ChunkDataAlmostDone? || s.ChunkDataDone? || s.BodyIdentity? || s.BodyIdentityEof?)
  }

  predicate ShouldKeepAlive(c: Core) {
    if c.major > 0 && c.minor > 0 then Close !in c.flags else KeepAlive in c.flags
  }

  function NewMessage(c: Core): State {
    if !ShouldKeepAlive(c) then Dead else if c.kind.Request? then StartReq else StartRes
  }

  function To(c: Core, s: State): Reaction { Go(c.(state := s), [], false) }

  /** A number with one more digit; a byte that is no digit adds nothing. */
  function Shifted(n: nat, ch: byte): nat { if IsDigit(ch) then n * 10 + DigitValue(ch) else n }

  /** A digit after the first of a number up to 999: the field is assigned before the bound
      is checked. */
  function OnNextDigit(c: Core, ch: byte, d: Core, n: nat, s: State): Reaction {
    if !IsDigit(ch) then Fail([], c) else if Shifted(n, ch) > 999 then Fail([], d) else To(d, s)
  }

  function Expect(c: Core, ok: bool, s: State): Reaction { if ok then To(c, s) else Fail([], c) }

  // Start of a message.

  function MethodOfFirst(ch: byte): (m: (bool, Method)) {
    match ch
    case 'C' => (true, CONNECT)
    case 'D' => (true, DELETE)
    case 'G' => (true, GET)
    case 'H' => (true, HEAD)
    case 'L' => (true, LOCK)
    case 'M' => (true, MKCOL)
    case 'N' => (true, NOTIFY)
    case 'O' => (true, OPTIONS)
    case 'P' => (true, POST)
    case 'R' => (true, REPORT)
    case 'S' => (true, SUBSCRIBE)
    case 'T' => (true, TRACE)
    case 'U' => (true, UNLOCK)
    case _ => (false, DELETE)
  }

  function AssignMethod(c: Core, ch: byte): Reaction {
    var (known, m) := MethodOfFirst(ch);
    if known then Go(c.(verb := m, index := 1, state := ReqMethod), [MessageBegin], false)
    else Fail([MessageBegin], c.(verb := DELETE, index := 1))
  }

  function Fresh(c: Core): Core { c.(flags := {}, contentLength := ABSENT_LENGTH) }

  predicate InStart(s: State) { s.Dead? || s.StartReqOrRes? || s.ResOrRespH? || s.StartRes? || s.StartReq? }

  function OnStart(c: Core, ch: byte): Reaction
    requires InStart(c.state)
  {
    match c.state
    case Dead => Fail([], c)
    case StartReqOrRes =>
      if ch == '\r' || ch == '\n' then To(c, StartReqOrRes)
      else if ch == 'H' then Go(Fresh(c).(state := ResOrRespH), [MessageBegin], false)
      else AssignMethod(Fresh(c).(kind := Request), ch)
    case ResOrRespH =>
      if ch == 'T' then To(c.(kind := Response), ResHT)
      else if ch != 'E' then Fail([], c)
      else To(c.(kind := Request, verb := HEAD, index := 2), ReqMethod)
    case StartRes =>
      if ch == 'H' then Go(Fresh(c).(state := ResH), [MessageBegin], false)
      else if ch == '\r' || ch == '\n' then Go(Fresh(c), [MessageBegin], false)
      else Fail([MessageBegin], Fresh(c))
    case StartReq =>
      if ch == '\r' || ch == '\n' then To(c, StartReq)
      else if ch < 'A' || 'Z' < ch then Fail([MessageBegin], Fresh(c))
      else AssignMethod(Fresh(c), ch)
  }

  // Status line of a response.

  predicate InStatusLine(s: State) {
    || s.ResH? || s.ResHT? || s.ResHTT? || s.ResHTTP?
    || s.ResFirstMajor? || s.ResMajor? || s.ResFirstMinor? || s.ResMinor?
    || s.ResFirstStatus? || s.ResStatusCode? || s.ResStatus? || s.ResLineAlmostDone?
  }

  function OnStatusLine(c: Core, ch: byte): Reaction
    requires InStatusLine(c.state)
  {
    match c.state
    case ResH => Expect(c, ch == 'T', ResHT)
    case ResHT => Expect(c, ch == 'T', ResHTT)
    case ResHTT => Expect(c, ch == 'P', ResHTTP)
    case ResHTTP => Expect(c, ch == '/', ResFirstMajor)
    case ResFirstMajor =>
      if !IsDigit(ch) || ch == '0' then Fail([], c) else To(c.(major := DigitValue(ch)), ResMajor)
    case ResMajor =>
      if ch == '.' then To(c, ResFirstMinor)
      else OnNextDigit(c, ch, c.(major := Shifted(c.major, ch)), c.major, ResMajor)
    case ResFirstMinor =>
      if !IsDigit(ch) then Fail([], c) else To(c.(minor := DigitValue(ch)), ResMinor)
    case ResMinor =>
      if ch == ' ' then To(c, ResFirstStatus)
      else OnNextDigit(c, ch, c.(minor := Shifted(c.minor, ch)), c.minor, ResMinor)
    case ResFirstStatus =>
      if IsDigit(ch) then To(c.(status := DigitValue(ch)), ResStatusCode)
      else Expect(c, ch == ' ', ResFirstStatus)
    case ResStatusCode =>
      if ch == ' ' then To(c, ResStatus)
      else if ch == '\r' then To(c, ResLineAlmostDone)
      else if ch == '\n' then To(c, FieldStart)
      else OnNextDigit(c, ch, c.(status := Shifted(c.status, ch)), c.status, ResStatusCode)
    case ResStatus =>
      if ch == '\r' then To(c, ResLineAlmostDone)
      else if ch == '\n' then To(c, FieldStart)
      else To(c, ResStatus)
    case ResLineAlmostDone => Expect(c, ch == '\n', FieldStart)
  }

  // Request line: the method.

  /** The method a mismatching byte turns the candidate into; CONNECT and MKCOL
      swallow a byte that fits no alternative. */
  function Redirect(m: Method, i: nat, ch: byte): (r: (bool, Method)) {
    if m.CONNECT? then
      (true, if i == 1 && ch == 'H' then CHECKOUT else if i == 2 && ch == 'P' then COPY else CONNECT)
    else if m.MKCOL? then
      (true,
       if i == 1 && ch == 'O' then MOVE
       else if i == 1 && ch == 'E' then MERGE
       else if i == 1 && ch == '-' then MSEARCH
       else if i == 2 && ch == 'A' then MKACTIVITY
       else MKCOL)
    else if i == 1 && m.POST? && ch == 'R' then (true, PROPFIND)
    else if i == 1 && m.POST? && ch == 'U' then (true, PUT)
    else if i == 2 && m.UNLOCK? && ch == 'S' then (true, UNSUBSCRIBE)
    else if i == 4 && m.PROPFIND? && ch == 'P' then (true, PROPPATCH)
    else (false, m)
  }

  function OnMethod(c: Core, ch: byte): Reaction {
    var name := MethodName(c.verb);
    if ch == '\0' then Fail([], c)
    else if c.index > |name| then Undefined
    else if ch == ' ' && c.index == |name| then To(c.(index := c.index + 1), SpacesBeforeUrl)
    else if LiteralAt(name, c.index, ch) then To(c.(index := c.index + 1), ReqMethod)
    else
      var (ok, m) := Redirect(c.verb, c.index, ch);
      if ok then To(c.(verb := m, index := c.index + 1), ReqMethod) else Fail([], c)
  }

  // Request line: the URL.

  predicate InUrl(s: State) {
    || s.SpacesBeforeUrl? || s.Schema? || s.SchemaSlash? || s.SchemaSlashSlash? || s.Host? || s.Port?
    || s.Path? || s.QueryStart? || s.Query? || s.FragmentStart? || s.Fragment?
  }

  function Http09(c: Core): Core { c.(major := 0, minor := 9) }

  /** Blank, CR or LF after the URL; anything else is an error. */
  function EndOfUrl(c: Core, ch: byte): Reaction {
    if ch == ' ' then To(c, HttpStart)
    else if ch == '\r' then To(Http09(c), LineAlmostDone)
    else if ch == '\n' then To(Http09(c), FieldStart)
    else Fail([], c)
  }

  function OnUrl(c: Core, ch: byte): Reaction
    requires InUrl(c.state)
  {
    match c.state
    case SpacesBeforeUrl =>
      if ch == ' ' then To(c, SpacesBeforeUrl)
      else if ch == '/' || ch == '*' then To(c, Path)
      else Expect(c, IsAlpha(ch), Schema)
    case Schema =>
      if IsAlpha(ch) then To(c, Schema)
      else if ch == ':' then To(c, SchemaSlash)
      else Expect(c, ch == '.' || IsDigit(ch), Host)
    case SchemaSlash => Expect(c, ch == '/', SchemaSlashSlash)
    case SchemaSlashSlash => Expect(c, ch == '/', Host)
    case Host =>
      if IsAlpha(ch) || IsDigit(ch) || ch == '.' || ch == '-' then To(c, Host)
      else if ch == ':' then To(c, Port)
      else if ch == '/' then To(c, Path)
      else Expect(c, ch == ' ', HttpStart)
    case Port =>
      if IsDigit(ch) then To(c, Port)
      else if ch == '/' then To(c, Path)
      else Expect(c, ch == ' ', HttpStart)
    case Path =>
      if NormalUrlChar(ch) then To(c, Path)
      else if ch == '?' then To(c, QueryStart)
      else if ch == '#' then To(c, FragmentStart)
      else EndOfUrl(c, ch)
    case QueryStart =>
      if NormalUrlChar(ch) then To(c, Query)
      else if ch == '?' then To(c, QueryStart)
      else if ch == '#' then To(c, FragmentStart)
      else EndOfUrl(c, ch)
    case Query =>
      if NormalUrlChar(ch) || ch == '?' then To(c, Query)
      else if ch == '#' then To(c, FragmentStart)
      else EndOfUrl(c, ch)
    case FragmentStart =>
      if NormalUrlChar(ch) || ch == '?' then To(c, Fragment)
      else if ch == '#' then To(c, FragmentStart)
      else EndOfUrl(c, ch)
    case Fragment =>
      if NormalUrlChar(ch) || ch == '?' || ch == '#' then To(c, Fragment)
      else EndOfUrl(c, ch)
  }

  // Request line: the version.

  predicate InVersion(s: State) {
    || s.HttpStart? || s.HttpH? || s.HttpHT? || s.HttpHTT? || s.HttpHTTP?
    || s.FirstMajor? || s.Major? || s.FirstMinor? || s.Minor? || s.LineAlmostDone?
  }

  function OnVersion(c: Core, ch: byte): Reaction
    requires InVersion(c.state)
  {
    match c.state
    case HttpStart => if ch == 'H' then To(c, HttpH) else Expect(c, ch == ' ', HttpStart)
    case HttpH => Expect(c, ch == 'T', HttpHT)
    case HttpHT => Expect(c, ch == 'T', HttpHTT)
    case HttpHTT => Expect(c, ch == 'P', HttpHTTP)
    case HttpHTTP => Expect(c, ch == '/', FirstMajor)
    case FirstMajor =>
      if !IsDigit(ch) || ch == '0' then Fail([], c) else To(c.(major := DigitValue(ch)), Major)
    case Major =>
      if ch == '.' then To(c, FirstMinor)
      else OnNextDigit(c, ch, c.(major := Shifted(c.major, ch)), c.major, Major)
    case FirstMinor =>
      if !IsDigit(ch) then Fail([], c) else To(c.(minor := DigitValue(ch)), Minor)
    case Minor =>
      if ch == '\r' then To(c, LineAlmostDone)
      else if ch == '\n' then To(c, FieldStart)
      else OnNextDigit(c, ch, c.(minor := Shifted(c.minor, ch)), c.minor, Minor)
    case LineAlmostDone => Expect(c, ch == '\n', FieldStart)
  }

  // Header fields.

  /** The header state after one more (lower-case) name byte; None for a failed assert. */
  function NextFieldState(h: HeaderState, i: nat, c: byte): (r: (bool, HeaderState, nat)) {
    match h
    case General => (true, General, i)
    case HC => (true, if c == 'o' then HCO else General, i + 1)
    case HCO => (true, if c == 'n' then HCON else General, i + 1)
    case HCON =>
      (true, if c == 'n' then MatchingConnection else if c == 't' then MatchingContentLength else General, i + 1)
    case MatchingConnection => (true, MatchName("connection", i + 1, c, h, IsConnection), i + 1)
    case MatchingProxyConnection => (true, MatchName("proxy-connection", i + 1, c, h, IsConnection), i + 1)
    case MatchingContentLength => (true, MatchName("content-length", i + 1, c, h, IsContentLength), i + 1)
    case MatchingTransferEncoding => (true, MatchName("transfer-encoding", i + 1, c, h, IsTransferEncoding), i + 1)
    case MatchingUpgrade => (true, MatchName("upgrade", i + 1, c, h, IsUpgrade), i + 1)
    case IsConnection => (true, if c == ' ' then h else General, i)
    case IsContentLength => (true, if c == ' ' then h else General, i)
    case IsTransferEncoding => (true, if c == ' ' then h else General, i)
    case IsUpgrade => (true, if c == ' ' then h else General, i)
    case _ => (false, General, i)
  }

  function MatchName(lit: string, i: nat, c: byte, matching: HeaderState, matched: HeaderState): HeaderState {
    if !LiteralAt(lit, i, c) then General
    else if i == |lit| - 1 then matched
    else matching
  }

  function FirstFieldState(c: byte): HeaderState {
    match c
    case 'c' => HC
    case 'p' => MatchingProxyConnection
    case 't' => MatchingTransferEncoding
    case 'u' => MatchingUpgrade
    case _ => General
  }

  predicate InField(s: State) { s.FieldStart? || s.Field? }

  function OnField(c: Core, ch: byte, skip: nat -> bool): Reaction
    requires InField(c.state)
  {
    if c.state.FieldStart? then
      if ch == '\r' then To(c, HeadersAlmostDone)
      else if ch == '\n' then OnHeadersDone(c, ch, skip)
      else if Token(ch) == '\0' then Fail([], c)
      else To(c.(index := 0, headerState := FirstFieldState(Token(ch))), Field)
    else if Token(ch) != '\0' then
      var (known, h, i) := NextFieldState(c.headerState, c.index, Token(ch));
      if known then To(c.(headerState := h, index := i), Field) else Abort
    else if ch == ':' then To(c, ValueStart)
    else if ch == '\r' then To(c, HeaderAlmostDone)
    else if ch == '\n' then To(c, FieldStart)
    else Fail([], c)
  }

  // Header values.

  function OnValueStart(c: Core, ch: byte): Reaction {
    if ch == ' ' then To(c, ValueStart)
    else
      var c0 := c.(index := 0);
      if ch == '\r' then To(c0.(headerState := General), HeaderAlmostDone)
      else if ch == '\n' then To(c0, FieldStart)
      else
        match c.headerState
        case IsUpgrade => To(c0.(flags := c.flags + {Upgrade}, headerState := General), Value)
        case IsTransferEncoding =>
          To(c0.(headerState := if Lower(ch) == 'c' then MatchingChunked else General), Value)
        case IsContentLength =>
          if !IsDigit(ch) then Fail([], c) else To(c0.(contentLength := DigitValue(ch)), Value)
        case IsConnection =>
          To(c0.(headerState := if Lower(ch) == 'k' then MatchingKeepAlive
                                else if Lower(ch) == 'c' then MatchingClose
                                else General), Value)
        case _ => To(c0.(headerState := General), Value)
  }

  function OnValue(c: Core, ch: byte): Reaction {
    var low := Lower(ch);
    if ch == '\r' then To(c, HeaderAlmostDone)
    else if ch == '\n' then OnHeaderDone(c, ch)
    else
      match c.headerState
      case General => To(c, Value)
      case IsConnection => Abort
      case IsTransferEncoding => Abort
      case IsContentLength =>
        if ch == ' ' then To(c, Value)
        else if !IsDigit(ch) then Fail([], c)
        else To(c.(contentLength := (c.contentLength * 10 + DigitValue(ch)) % SIZE_MODULUS), Value)
      case MatchingChunked =>
        To(c.(index := c.index + 1,
              headerState := MatchName("chunked", c.index + 1, low, MatchingChunked, IsChunked)), Value)
      case MatchingKeepAlive =>
        To(c.(index := c.index + 1,
              headerState := MatchName("keep-alive", c.index + 1, low, MatchingKeepAlive, IsKeepAlive)), Value)
      case MatchingClose =>
        To(c.(index := c.index + 1,
              headerState := MatchName("close", c.index + 1, low, MatchingClose, IsClose)), Value)
      case IsChunked => To(c.(headerState := if ch == ' ' then IsChunked else General), Value)
      case IsKeepAlive => To(c.(headerState := if ch == ' ' then IsKeepAlive else General), Value)
      case IsClose => To(c.(headerState := if ch == ' ' then IsClose else General), Value)
      case _ => To(c.(headerState := General), Value)
  }

  function FlagOfLine(h: HeaderState): set<Flag> {
    match h
    case IsKeepAlive => {KeepAlive}
    case IsClose => {Close}
    case IsChunked => {Chunked}
    case _ => {}
  }

  function OnHeaderDone(c: Core, ch: byte): Reaction {
    if ch != '\n' then Fail([], c) else To(c.(flags := c.flags + FlagOfLine(c.headerState)), FieldStart)
  }

  // End of the headers, or of the trailer of a chunked message.

  function OnHeadersDone(c: Core, ch: byte, skip: nat -> bool): Reaction {
    if ch != '\n' then Fail([], c)
    else if Trailing in c.flags then Go(c.(state := NewMessage(c)), [MessageComplete], false)
    else
      var c1 := c.(upgrade := c.upgrade || Upgrade in c.flags || c.verb.CONNECT?,
                   flags := c.flags + (if skip(c.answered) then {SkipBody} else {}),
                   answered := c.answered + 1);
      if c1.upgrade then Leave(c1, [HeadersComplete, MessageComplete])
      else if SkipBody in c1.flags then
        Go(c1.(state := NewMessage(c1)), [HeadersComplete, MessageComplete], true)
      else if Chunked in c1.flags then Go(c1.(state := ChunkSizeStart), [HeadersComplete], true)
      else if c1.contentLength == 0 then
        Go(c1.(state := NewMessage(c1)), [HeadersComplete, MessageComplete], true)
      else
        // The length is a size_t: an absent one is 2^64 - 1, not negative, so the
        // source's last branch (no body, or body until end of file) is never taken.
        Go(c1.(state := BodyIdentity), [HeadersComplete], true)
  }

  // Chunked framing.

  predicate InChunkFrame(s: State) {
    || s.ChunkSizeStart? || s.ChunkSize? || s.ChunkParameters? || s.ChunkSizeAlmostDone?
    || s.ChunkDataAlmostDone? || s.ChunkDataDone?
  }

  function OnChunkFrame(c: Core, ch: byte): Reaction
    requires InChunkFrame(c.state)
  {
    if Chunked !in c.flags then Abort
    else
      match c.state
      case ChunkSizeStart =>
        if UnHex(ch) == -1 then Fail([], c) else To(c.(contentLength := UnHex(ch)), ChunkSize)
      case ChunkSize =>
        if ch == '\r' then To(c, ChunkSizeAlmostDone)
        else if UnHex(ch) != -1 then
          To(c.(contentLength := (c.contentLength * 16 + UnHex(ch)) % SIZE_MODULUS), ChunkSize)
        else Expect(c, ch == ';' || ch == ' ', ChunkParameters)
      case ChunkParameters => if ch == '\r' then To(c, ChunkSizeAlmostDone) else To(c, ChunkParameters)
      case ChunkSizeAlmostDone =>
        if ch != '\n' then Fail([], c)
        else if c.contentLength == 0 then Go(c.(flags := c.flags + {Trailing}, state := FieldStart), [], true)
        else Go(c.(state := ChunkData), [], true)
      case ChunkDataAlmostDone => Expect(c, ch == '\r', ChunkDataDone)
      case ChunkDataDone => Expect(c, ch == '\n', ChunkSizeStart)
  }

  // Bodies, one byte at a time.

  /** A body state hands this byte to on_body. */
  predicate Delivers(c: Core) {
    c.state.BodyIdentityEof? || ((c.state.BodyIdentity? || c.state.ChunkData?) && c.contentLength > 0)
  }

  predicate InBody(s: State) { s.BodyIdentity? || s.BodyIdentityEof? || s.ChunkData? }

  function OnBody(c: Core): Reaction
    requires InBody(c.state)
  {
    match c.state
    case BodyIdentityEof => To(c, BodyIdentityEof)
    case BodyIdentity =>
      if c.contentLength == 0 then To(c, BodyIdentity)
      else if c.contentLength == 1 then
        Go(c.(contentLength := 0, state := NewMessage(c)), [MessageComplete], false)
      else To(c.(contentLength := c.contentLength - 1), BodyIdentity)
    case ChunkData =>
      if Chunked !in c.flags then Abort
      else if c.contentLength >= SIGNED_LIMIT then Undefined
      else if c.contentLength <= 1 then To(c.(contentLength := 0), ChunkDataAlmostDone)
      else To(c.(contentLength := c.contentLength - 1), ChunkData)
  }

  /** One byte.  `skip(n)` is the n-th result of on_headers_complete (0 or 1). */
  function React(c: Core, ch: byte, skip: nat -> bool): Reaction {
    if InStart(c.state) then OnStart(c, ch)
    else if InStatusLine(c.state) then OnStatusLine(c, ch)
    else if c.state.ReqMethod? then OnMethod(c, ch)
    else if InUrl(c.state) then OnUrl(c, ch)
    else if InVersion(c.state) then OnVersion(c, ch)
    else if InField(c.state) then OnField(c, ch, skip)
    else if c.state.ValueStart? then OnValueStart(c, ch)
    else if c.state.Value? then OnValue(c, ch)
    else if c.state.HeaderAlmostDone? then OnHeaderDone(c, ch)
    else if c.state.HeadersAlmostDone? then OnHeadersDone(c, ch, skip)
    else if InBody(c.state) then OnBody(c)
    else OnChunkFrame(c, ch)
  }

  // The parts of the switch, one by one.

  lemma StartReaction(c: Core, ch: byte, skip: nat -> bool)
    requires InStart(c.state)
    ensures React(c, ch, skip) == OnStart(c, ch)
  {
    hide OnStart, OnStatusLine, OnMethod, OnUrl, OnVersion, OnField, OnValueStart, OnValue;
    hide OnHeaderDone, OnHeadersDone, OnBody, OnChunkFrame;
  }

  lemma StatusLineReaction(c: Core, ch: byte, skip: nat -> bool)
    requires InStatusLine(c.state)
    ensures React(c, ch, skip) == OnStatusLine(c, ch)
  {
    hide OnStart, OnStatusLine, OnMethod, OnUrl, OnVersion, OnField, OnValueStart, OnValue;
    hide OnHeaderDone, OnHeadersDone, OnBody, OnChunkFrame;
  }

  lemma MethodReaction(c: Core, ch: byte, skip: nat -> bool)
    requires c.state.ReqMethod?
    ensures React(c, ch, skip) == OnMethod(c, ch)
  {
    hide OnStart, OnStatusLine, OnMethod, OnUrl, OnVersion, OnField, OnValueStart, OnValue;
    hide OnHeaderDone, OnHeadersDone, OnBody, OnChunkFrame;
  }

  lemma UrlReaction(c: Core, ch: byte, skip: nat -> bool)
    requires InUrl(c.state)
    ensures React(c, ch, skip) == OnUrl(c, ch)
  {
    hide OnStart, OnStatusLine, OnMethod, OnUrl, OnVersion, OnField, OnValueStart, OnValue;
    hide OnHeaderDone, OnHeadersDone, OnBody, OnChunkFrame;
  }

  lemma VersionReaction(c: Core, ch: byte, skip: nat -> bool)
    requires InVersion(c.state)
    ensures React(c, ch, skip) == OnVersion(c, ch)
  {
    hide OnStart, OnStatusLine, OnMethod, OnUrl, OnVersion, OnField, OnValueStart, OnValue;
    hide OnHeaderDone, OnHeadersDone, OnBody, OnChunkFrame;
  }

  lemma FieldReaction(c: Core, ch: byte, skip: nat -> bool)
    requires InField(c.state)
    ensures React(c, ch, skip) == OnField(c, ch, skip)
  {
    hide OnStart, OnStatusLine, OnMethod, OnUrl, OnVersion, OnField, OnValueStart, OnValue;
    hide OnHeaderDone, OnHeadersDone, OnBody, OnChunkFrame;
  }

  lemma ValueStartReaction(c: Core, ch: byte, skip: nat -> bool)
    requires c.state.ValueStart?
    ensures React(c, ch, skip) == OnValueStart(c, ch)
  {
    hide OnStart, OnStatusLine, OnMethod, OnUrl, OnVersion, OnField, OnValueStart, OnValue;
    hide OnHeaderDone, OnHeadersDone, OnBody, OnChunkFrame;
  }

  lemma ValueReaction(c: Core, ch: byte, skip: nat -> bool)
    requires c.state.Value?
    ensures React(c, ch, skip) == OnValue(c, ch)
  {
    hide OnStart, OnStatusLine, OnMethod, OnUrl, OnVersion, OnField, OnValueStart, OnValue;
    hide OnHeaderDone, OnHeadersDone, OnBody, OnChunkFrame;
  }

  lemma HeaderDoneReaction(c: Core, ch: byte, skip: nat -> bool)
    requires c.state.HeaderAlmostDone?
    ensures React(c, ch, skip) == OnHeaderDone(c, ch)
  {
    hide OnStart, OnStatusLine, OnMethod, OnUrl, OnVersion, OnField, OnValueStart, OnValue;
    hide OnHeaderDone, OnHeadersDone, OnBody, OnChunkFrame;
  }

  lemma HeadersDoneReaction(c: Core, ch: byte, skip: nat -> bool)
    requires c.state.HeadersAlmostDone?
    ensures React(c, ch, skip) == OnHeadersDone(c, ch, skip)
  {
    hide OnStart, OnStatusLine, OnMethod, OnUrl, OnVersion, OnField, OnValueStart, OnValue;
    hide OnHeaderDone, OnHeadersDone, OnBody, OnChunkFrame;
  }

  lemma BodyReaction(c: Core, ch: byte, skip: nat -> bool)
    requires InBody(c.state)
    ensures React(c, ch, skip) == OnBody(c)
  {
    hide OnStart, OnStatusLine, OnMethod, OnUrl, OnVersion, OnField, OnValueStart, OnValue;
    hide OnHeaderDone, OnHeadersDone, OnBody, OnChunkFrame;
  }

  lemma ChunkFrameReaction(c: Core, ch: byte, skip: nat -> bool)
    requires InChunkFrame(c.state)
    ensures React(c, ch, skip) == OnChunkFrame(c, ch)
  {
    hide OnStart, OnStatusLine, OnMethod, OnUrl, OnVersion, OnField, OnValueStart, OnValue;
    hide OnHeaderDone, OnHeadersDone, OnBody, OnChunkFrame;
  }
}
