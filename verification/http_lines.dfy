/** Header lines: the byte-wise matching of names and values is comparison of strings. */
module HttpLines {
  import opened HttpModel
  import opened HttpBytes
  import opened HttpRun
  import opened HttpInvariant
  import opened HttpGlide

  function LowerCase(s: seq<byte>): (r: seq<byte>)
    ensures |r| == |s|
  {
    seq(|s|, i requires 0 <= i < |s| => ToLower(s[i]))
  }

  function TrimRight(s: seq<byte>): seq<byte> {
    if s == [] || s[|s| - 1] != ' ' then s else TrimRight(s[..|s| - 1])
  }

  function TrimLeft(s: seq<byte>): seq<byte> {
    if s == [] || s[0] != ' ' then s else TrimLeft(s[1..])
  }

  const CONNECTION := "connection"
  const PROXY_CONNECTION := "proxy-connection"
  const CONTENT_LENGTH := "content-length"
  const TRANSFER_ENCODING := "transfer-encoding"
  const UPGRADE := "upgrade"

  predicate IsName(s: seq<byte>) { s != [] && forall b :: b in s ==> NameByte(b) }

  /** The header state the source must be in after a name, by comparing strings. */
  function NameState(w: seq<byte>): HeaderState {
    var t := TrimRight(w);
    if t == CONNECTION || t == PROXY_CONNECTION then IsConnection
    else if t == CONTENT_LENGTH then IsContentLength
    else if t == TRANSFER_ENCODING then IsTransferEncoding
    else if t == UPGRADE then IsUpgrade
    else General
  }

  // The matcher.

  function Matched(w: seq<byte>): (r: (HeaderState, nat))
    requires w != []
  {
    if |w| == 1 then (FirstFieldState(w[0]), 0)
    else
      var (h, i) := Matched(w[..|w| - 1]);
      var (_, h', i') := NextFieldState(h, i, w[|w| - 1]);
      (h', i')
  }

  predicate Prefix(w: seq<byte>, lit: string) { |w| <= |lit| && w == lit[..|w|] }

  predicate NoPrefix(w: seq<byte>) {
    && !Prefix(w, CONNECTION) && !Prefix(w, PROXY_CONNECTION) && !Prefix(w, CONTENT_LENGTH)
    && !Prefix(w, TRANSFER_ENCODING) && !Prefix(w, UPGRADE)
  }

  predicate Matching(w: seq<byte>, i: nat, lit: string, from: nat) {
    from <= |w| == i + 1 < |lit| && Prefix(w, lit)
  }

  /** What each state of the matcher knows about the bytes read. */
  predicate Knows(w: seq<byte>, h: HeaderState, i: nat) {
    match h
    case HC => w == "c" && i == 0
    case HCO => w == "co" && i == 1
    case HCON => w == "con" && i == 2
    case MatchingConnection => Matching(w, i, CONNECTION, 4)
    case MatchingContentLength => Matching(w, i, CONTENT_LENGTH, 4)
    case MatchingProxyConnection => Matching(w, i, PROXY_CONNECTION, 1)
    case MatchingTransferEncoding => Matching(w, i, TRANSFER_ENCODING, 1)
    case MatchingUpgrade => Matching(w, i, UPGRADE, 1)
    case General => NoPrefix(w) && NameState(w) == General
    case _ => NamesField(h) && NameState(w) == h
  }

  lemma TrimRightOneMore(w: seq<byte>, c: byte)
    ensures TrimRight(w + [c]) == if c == ' ' then TrimRight(w) else w + [c]
  {
    assert (w + [c])[..|w|] == w;
  }

  /** Once off every literal, always off. */
  lemma GeneralStays(w: seq<byte>, c: byte)
    requires w != [] && Knows(w, General, 0)
    ensures Knows(w + [c], General, 0)
  {
    TrimRightOneMore(w, c);
    assert (w + [c])[..|w|] == w;
    assert forall lit :: Prefix(w + [c], lit) ==> Prefix(w, lit) by {
      forall lit | Prefix(w + [c], lit)
        ensures Prefix(w, lit)
      {
        assert lit[..|w|] == lit[..|w + [c]|][..|w|];
      }
    }
  }

  lemma PrefixShrinks(w: seq<byte>, c: byte, lit: string)
    requires Prefix(w + [c], lit)
    ensures Prefix(w, lit) && |w| < |lit| && lit[|w|] == c
    ensures w != [] ==> lit[0] == w[0]
  {
    assert lit[..|w|] == lit[..|w + [c]|][..|w|];
    assert (w + [c])[..|w|] == w;
    assert lit[|w|] == lit[..|w + [c]|][|w|];
  }

  lemma PrefixGrows(w: seq<byte>, c: byte, lit: string)
    requires Prefix(w, lit) && |w| < |lit| && lit[|w|] == c
    ensures Prefix(w + [c], lit)
  {
    assert lit[..|w| + 1] == lit[..|w|] + [lit[|w|]];
  }

  lemma {:induction false} TrimRightIsPrefix(w: seq<byte>)
    ensures |TrimRight(w)| <= |w| && TrimRight(w) == w[..|TrimRight(w)|]
    ensures forall i :: |TrimRight(w)| <= i < |w| ==> w[i] == ' '
    ensures w != [] && w[|w| - 1] != ' ' ==> TrimRight(w) == w
  {
    if w != [] && w[|w| - 1] == ' ' {
      TrimRightIsPrefix(w[..|w| - 1]);
    }
  }

  /** A literal is left for good by a byte that is not its next one, when what was read
      is a prefix of no other literal. */
  predicate OnlyPrefixOf(w: seq<byte>, lit: string) {
    && (lit == CONNECTION || !Prefix(w, CONNECTION))
    && (lit == PROXY_CONNECTION || !Prefix(w, PROXY_CONNECTION))
    && (lit == CONTENT_LENGTH || !Prefix(w, CONTENT_LENGTH))
    && (lit == TRANSFER_ENCODING || !Prefix(w, TRANSFER_ENCODING))
    && (lit == UPGRADE || !Prefix(w, UPGRADE))
  }

  predicate IsLiteral(lit: string) {
    lit == CONNECTION || lit == PROXY_CONNECTION || lit == CONTENT_LENGTH || lit == TRANSFER_ENCODING || lit == UPGRADE
  }

  lemma LiteralsApart(w: seq<byte>, lit: string)
    requires IsLiteral(lit) && Prefix(w, lit)
    requires |w| >= 4 || (|w| >= 1 && lit != CONNECTION && lit != CONTENT_LENGTH)
    ensures OnlyPrefixOf(w, lit)
  {
    assert w[0] == lit[0];
    if |w| >= 4 { assert w[3] == lit[3]; }
  }

  lemma LiteralHasNoSpace(lit: string, i: nat)
    requires IsLiteral(lit) && i < |lit|
    ensures lit[i] != ' '
  {}

  lemma PrefixIsTrimmed(w: seq<byte>, lit: string)
    requires w != [] && IsLiteral(lit) && Prefix(w, lit)
    ensures TrimRight(w) == w
  {
    assert w[|w| - 1] == lit[|w| - 1];
    LiteralHasNoSpace(lit, |w| - 1);
  }

  ghost predicate OffEveryLiteral(w: seq<byte>) { forall lit :: IsLiteral(lit) ==> !Prefix(w, lit) }

  lemma OffIsGeneral(w: seq<byte>)
    requires OffEveryLiteral(w) && forall lit :: IsLiteral(lit) ==> TrimRight(w) != lit
    ensures Knows(w, General, 0)
  {
    assert IsLiteral(CONNECTION) && IsLiteral(PROXY_CONNECTION) && IsLiteral(CONTENT_LENGTH);
    assert IsLiteral(TRANSFER_ENCODING) && IsLiteral(UPGRADE);
  }

  lemma OffIsNoLiteral(w: seq<byte>)
    requires OffEveryLiteral(w)
    ensures forall lit :: IsLiteral(lit) ==> w != lit
  {
    forall lit | IsLiteral(lit)
      ensures w != lit
    {
      if w == lit { assert Prefix(w, lit); }
    }
  }

  /** The next byte is not the literal's: no literal is left to match. */
  lemma MismatchIsGeneral(w: seq<byte>, c: byte, lit: string)
    requires w != [] && IsLiteral(lit) && Prefix(w, lit) && |w| < |lit| && lit[|w|] != c
    requires OnlyPrefixOf(w, lit)
    ensures Knows(w + [c], General, 0)
  {
    forall other | IsLiteral(other)
      ensures !Prefix(w + [c], other)
    {
      if Prefix(w + [c], other) {
        PrefixShrinks(w, c, other);
        OnlyOne(w, lit, other);
      }
    }
    TrimRightOneMore(w, c);
    PrefixIsTrimmed(w, lit);
    OffIsNoLiteral(w + [c]);
    ProperPrefixIsNoLiteral(w, lit);
    OffIsGeneral(w + [c]);
  }

  lemma OnlyOne(w: seq<byte>, lit: string, other: string)
    requires OnlyPrefixOf(w, lit) && IsLiteral(other) && Prefix(w, other)
    ensures other == lit
  {}

  lemma ProperPrefixIsNoLiteral(w: seq<byte>, lit: string)
    requires Prefix(w, lit) && |w| < |lit| && OnlyPrefixOf(w, lit)
    ensures forall other :: IsLiteral(other) ==> w != other
  {
    assert forall other :: IsLiteral(other) && w == other ==> Prefix(w, other);
  }

  lemma PrefixOfPart(w: seq<byte>, k: nat, lit: string)
    requires k <= |w|
    ensures Prefix(w, lit) ==> Prefix(w[..k], lit)
  {
    if Prefix(w, lit) { assert w[..k] == lit[..|w|][..k] == lit[..k]; }
  }

  /** The next byte is the literal's last. */
  lemma MatchEnds(w: seq<byte>, c: byte, lit: string)
    requires Prefix(w, lit) && |w| + 1 == |lit| && lit[|w|] == c && c != ' '
    ensures w + [c] == lit && TrimRight(w + [c]) == lit
  {
    PrefixGrows(w, c, lit);
    TrimRightOneMore(w, c);
    assert lit[..|lit|] == lit;
  }

  /** After a whole literal only spaces keep it. */
  lemma LiteralThenByte(w: seq<byte>, h: HeaderState, c: byte)
    requires w != [] && NameState(w) == h && h != General
    ensures c == ' ' ==> NameState(w + [c]) == h
    ensures c != ' ' ==> Knows(w + [c], General, 0)
  {
    TrimRightOneMore(w, c);
    TrimRightIsPrefix(w);
    if c != ' ' {
      LiteralsApart(TrimRight(w), TrimRight(w));
      forall other | IsLiteral(other)
        ensures !Prefix(w + [c], other)
      {
        PrefixOfPart(w + [c], |TrimRight(w)|, other);
        assert (w + [c])[..|TrimRight(w)|] == TrimRight(w);
        if Prefix(w + [c], other) { OnlyOne(TrimRight(w), TrimRight(w), other); }
      }
      OffIsNoLiteral(w + [c]);
      OffIsGeneral(w + [c]);
    }
  }

  /** One more byte of any literal while it is being matched. */
  lemma MatchHit(w: seq<byte>, i: nat, c: byte, lit: string, from: nat)
    requires 1 <= from && Matching(w, i, lit, from) && lit[i + 1] == c && c != ' '
    ensures i + 2 < |lit| ==> Matching(w + [c], i + 1, lit, from)
    ensures i + 2 == |lit| ==> TrimRight(w + [c]) == lit
  {
    if i + 2 == |lit| {
      MatchEnds(w, c, lit);
    } else {
      PrefixGrows(w, c, lit);
    }
  }

  lemma StartIsNoLiteral(w: seq<byte>)
    requires |w| <= 3
    ensures forall lit :: IsLiteral(lit) ==> w != lit
  {}

  /** The first three bytes, which two literals share. */
  lemma SharedStart(w: seq<byte>, h: HeaderState, i: nat, c: byte)
    requires Knows(w, h, i) && (h.HC? || h.HCO? || h.HCON?)
    ensures var (_, h', i') := NextFieldState(h, i, c); Knows(w + [c], h', i')
  {
    assert Prefix(w, CONNECTION) && Prefix(w, CONTENT_LENGTH);
    var (_, h', i') := NextFieldState(h, i, c);
    if h'.General? {
      forall lit | IsLiteral(lit)
        ensures !Prefix(w + [c], lit)
      {
        if Prefix(w + [c], lit) { PrefixShrinks(w, c, lit); }
      }
      TrimRightOneMore(w, c);
      PrefixIsTrimmed(w, CONNECTION);
      OffIsNoLiteral(w + [c]);
      StartIsNoLiteral(w);
      OffIsGeneral(w + [c]);
    }
  }

  /** One more byte, in every state of the matcher. */
  lemma MatchStep(w: seq<byte>, i: nat, c: byte, lit: string, h: HeaderState, matched: HeaderState, from: nat)
    requires IsLiteral(lit) && 1 <= from && Matching(w, i, lit, from)
    requires from >= 4 || (lit != CONNECTION && lit != CONTENT_LENGTH)
    ensures var h' := MatchName(lit, i + 1, c, h, matched);
            || (h' == General && Knows(w + [c], General, 0))
            || (h' == matched && TrimRight(w + [c]) == lit)
            || (h' == h && Matching(w + [c], i + 1, lit, from))
  {
    if lit[i + 1] == c {
      LiteralHasNoSpace(lit, i + 1);
      MatchHit(w, i, c, lit, from);
    } else {
      LiteralsApart(w, lit);
      MismatchIsGeneral(w, c, lit);
    }
  }

  predicate InLiteral(h: HeaderState) {
    h.MatchingConnection? || h.MatchingProxyConnection? || h.MatchingContentLength?
    || h.MatchingTransferEncoding? || h.MatchingUpgrade?
  }

  lemma NextKnows(w: seq<byte>, h: HeaderState, i: nat, c: byte)
    requires w != [] && NamesField(h) && Knows(w, h, i)
    ensures var (_, h', i') := NextFieldState(h, i, c); Knows(w + [c], h', i')
  {
    if InLiteral(h) {
      NextInLiteral(w, h, i, c);
    } else if h.General? {
      GeneralStays(w, c);
    } else if h.HC? || h.HCO? || h.HCON? {
      SharedStart(w, h, i, c);
    } else {
      LiteralThenByte(w, h, c);
    }
  }

  lemma NextInLiteral(w: seq<byte>, h: HeaderState, i: nat, c: byte)
    requires w != [] && InLiteral(h) && Knows(w, h, i)
    ensures var (_, h', i') := NextFieldState(h, i, c); Knows(w + [c], h', i')
  {
    hide Prefix, NoPrefix, MatchName;
    match h
    case MatchingConnection => MatchStep(w, i, c, CONNECTION, h, IsConnection, 4);
    case MatchingProxyConnection => MatchStep(w, i, c, PROXY_CONNECTION, h, IsConnection, 1);
    case MatchingContentLength => MatchStep(w, i, c, CONTENT_LENGTH, h, IsContentLength, 4);
    case MatchingTransferEncoding => MatchStep(w, i, c, TRANSFER_ENCODING, h, IsTransferEncoding, 1);
    case MatchingUpgrade => MatchStep(w, i, c, UPGRADE, h, IsUpgrade, 1);
  }

  lemma {:induction false} MatchedKnows(w: seq<byte>)
    requires w != []
    ensures NamesField(Matched(w).0) && Matched(w).1 <= NameIndexLimit(Matched(w).0)
    ensures Knows(w, Matched(w).0, Matched(w).1)
    decreases |w|
  {
    if |w| == 1 {
      FirstKnows(w[0]);
      assert w == [w[0]];
    } else {
      var init, c := w[..|w| - 1], w[|w| - 1];
      MatchedKnows(init);
      NextFieldStateKeeps(Matched(init).0, Matched(init).1, c);
      NextKnows(init, Matched(init).0, Matched(init).1, c);
      assert init + [c] == w;
    }
  }

  lemma FirstKnows(c: byte)
    ensures Knows([c], FirstFieldState(c), 0)
  {
    TrimRightOneMore([], c);
    assert [] + [c] == [c];
  }

  lemma SharedByTwo(w: seq<byte>, other: string)
    requires (w == "c" || w == "co" || w == "con") && IsLiteral(other) && Prefix(w, other)
    ensures other == CONNECTION || other == CONTENT_LENGTH
  {
    assert w[0] == other[0];
  }

  /** At the colon, the header state is one of the four recognised names' exactly when the
      lower-case name without trailing spaces is that name. */
  lemma NameIsRecognized(w: seq<byte>)
    requires w != []
    ensures var h := Matched(w).0;
            if h.IsConnection? || h.IsContentLength? || h.IsTransferEncoding? || h.IsUpgrade?
            then NameState(w) == h else NameState(w) == General
  {
    hide Matched;
    MatchedKnows(w);
    var (h, i) := Matched(w);
    if h.HC? || h.HCO? || h.HCON? {
      forall other | IsLiteral(other) && Prefix(w, other) { SharedByTwo(w, other); }
      PartIsNoName(w, CONNECTION, CONTENT_LENGTH);
    } else if h.MatchingConnection? { LiteralsApart(w, CONNECTION); PartIsNoName(w, CONNECTION, CONNECTION); }
    else if h.MatchingContentLength? {
      LiteralsApart(w, CONTENT_LENGTH); PartIsNoName(w, CONTENT_LENGTH, CONTENT_LENGTH);
    } else if h.MatchingProxyConnection? {
      LiteralsApart(w, PROXY_CONNECTION); PartIsNoName(w, PROXY_CONNECTION, PROXY_CONNECTION);
    } else if h.MatchingTransferEncoding? {
      LiteralsApart(w, TRANSFER_ENCODING); PartIsNoName(w, TRANSFER_ENCODING, TRANSFER_ENCODING);
    } else if h.MatchingUpgrade? { LiteralsApart(w, UPGRADE); PartIsNoName(w, UPGRADE, UPGRADE); }
  }

  /** A proper part of one or two literals is itself none. */
  lemma PartIsNoName(w: seq<byte>, lit: string, also: string)
    requires w != [] && IsLiteral(lit) && IsLiteral(also) && Prefix(w, lit) && |w| < |lit| && |w| < |also|
    requires forall other :: IsLiteral(other) && Prefix(w, other) ==> other == lit || other == also
    ensures NameState(w) == General
  {
    PrefixIsTrimmed(w, lit);
    forall other | IsLiteral(other)
      ensures w != other
    {
      assert w == other ==> other[..|w|] == other;
      assert w == other ==> Prefix(w, other);
    }
    assert IsLiteral(CONNECTION) && IsLiteral(PROXY_CONNECTION) && IsLiteral(CONTENT_LENGTH)
           && IsLiteral(TRANSFER_ENCODING) && IsLiteral(UPGRADE);
  }

  lemma {:induction false} GlideName(c: Core, name: seq<byte>, skip: nat -> bool)
    requires c.state.FieldStart? && IsName(name)
    ensures var (h, i) := Matched(LowerCase(name));
            Glide(c, name, skip) == At(c.(state := Field, headerState := h, index := i))
    decreases |name|
  {
    hide React;
    var w := LowerCase(name);
    if |name| == 1 {
      NameByteGlides(c, name[0], skip);
      GlideOne(c, name[0], skip);
      assert name == [name[0]];
    } else {
      var init, b := name[..|name| - 1], name[|name| - 1];
      assert LowerCase(init) == w[..|w| - 1];
      GlideName(c, init, skip);
      MatchedKnows(LowerCase(init));
      NameByteGlides(Glide(c, init, skip).core, b, skip);
    }
  }

  lemma NameByteGlides(c: Core, b: byte, skip: nat -> bool)
    requires NameByte(b)
    requires c.state.FieldStart?
             || (c.state.Field? && NamesField(c.headerState) && c.index <= NameIndexLimit(c.headerState))
    ensures Token(b) == ToLower(b)
    ensures var (_, h, i) := if c.state.FieldStart? then (true, FirstFieldState(ToLower(b)), 0)
                             else NextFieldState(c.headerState, c.index, ToLower(b));
            GlideByte(c, b, skip) == At(c.(state := Field, headerState := h, index := i))
  {
    hide React, NextFieldState, NameByte;
    NameTable(b);
    hide Token;
    FieldReaction(c, b, skip);
    if c.state.Field? { NextFieldStateKeeps(c.headerState, c.index, Token(b)); }
  }

  // Values.

  const CHUNKED := "chunked"
  const KEEP_ALIVE := "keep-alive"
  const CLOSE := "close"

  predicate IsValue(v: seq<byte>) { forall b :: b in v ==> b != '\r' && b != '\n' }

  predicate SameIgnoringCase(s: seq<byte>, lit: string) { LowerCase(s) == lit }

  /** The source compares by setting bit 5 of the byte. */
  predicate FoldPrefix(s: seq<byte>, lit: string) {
    |s| <= |lit| && forall k :: 0 <= k < |s| ==> Lower(s[k]) == lit[k]
  }

  /** The values a header state looks for. */
  predicate LooksFor(h: HeaderState, lit: string, matching: HeaderState, matched: HeaderState) {
    || (h.IsTransferEncoding? && lit == CHUNKED && matching == MatchingChunked && matched == IsChunked)
    || (h.IsConnection? && lit == KEEP_ALIVE && matching == MatchingKeepAlive && matched == IsKeepAlive)
    || (h.IsConnection? && lit == CLOSE && matching == MatchingClose && matched == IsClose)
  }

  predicate FoldEquals(s: seq<byte>, lit: string) { |s| == |lit| && FoldPrefix(s, lit) }

  /** Setting bit 5 compares as lower case does, for what these literals hold; carriage
      return, which would pass for a hyphen, cannot occur in a value. */
  lemma FoldIsLowerCase(s: seq<byte>, h: HeaderState, lit: string, matching: HeaderState, matched: HeaderState)
    requires IsValue(s) && LooksFor(h, lit, matching, matched)
    ensures FoldEquals(s, lit) <==> SameIgnoringCase(s, lit)
  {
    forall k | 0 <= k < |s| && |s| == |lit|
      ensures Lower(s[k]) == lit[k] <==> LowerCase(s)[k] == lit[k]
    {
      assert s[k] in s;
      LettersAndHyphens(h, lit, matching, matched, k);
    }
  }

  lemma LettersAndHyphens(h: HeaderState, lit: string, matching: HeaderState, matched: HeaderState, k: nat)
    requires LooksFor(h, lit, matching, matched) && k < |lit|
    ensures 'a' <= lit[k] <= 'z' || lit[k] == '-'
  {}

  predicate KnowsValue(s: seq<byte>, h: HeaderState, i: nat, lit: string, matching: HeaderState, matched: HeaderState) {
    if h == matching then |s| == i + 1 < |lit| && FoldPrefix(s, lit)
    else if h == matched then FoldEquals(TrimRight(s), lit)
    else h.General? && !FoldPrefix(s, lit) && !FoldEquals(TrimRight(s), lit)
  }

  function NextValueState(h: HeaderState, i: nat, x: byte, lit: string, matching: HeaderState, matched: HeaderState):
    (HeaderState, nat)
  {
    if h == matching then (MatchName(lit, i + 1, Lower(x), matching, matched), i + 1)
    else if h == matched && x == ' ' then (matched, i)
    else (General, i)
  }

  lemma ValueByteGlides(c: Core, x: byte, k: HeaderState, lit: string, matching: HeaderState, matched: HeaderState,
                        skip: nat -> bool)
    requires c.state.Value? && LooksFor(k, lit, matching, matched) && x != '\r' && x != '\n'
    requires c.headerState == matching || c.headerState == matched || c.headerState.General?
    ensures var (h, i) := NextValueState(c.headerState, c.index, x, lit, matching, matched);
            GlideByte(c, x, skip) == At(c.(headerState := h, index := i))
  {
    hide React, MatchName;
    ValueReaction(c, x, skip);
  }

  lemma NextKnowsValue(s: seq<byte>, h: HeaderState, i: nat, x: byte, k: HeaderState, lit: string,
                       matching: HeaderState, matched: HeaderState)
    requires s != [] && LooksFor(k, lit, matching, matched) && KnowsValue(s, h, i, lit, matching, matched)
    ensures var (h', i') := NextValueState(h, i, x, lit, matching, matched);
            KnowsValue(s + [x], h', i', lit, matching, matched)
  {
    TrimRightOneMore(s, x);
    FoldOneMore(s, x, lit);
    if h == matching { FoldPrefixIsTrimmed(s, k, lit, matching, matched); }
    else if h == matched { FoldedIsFull(s, lit); }
  }

  lemma FoldOneMore(s: seq<byte>, x: byte, lit: string)
    ensures FoldPrefix(s + [x], lit) <==> |s| < |lit| && FoldPrefix(s, lit) && Lower(x) == lit[|s|]
  {
    if FoldPrefix(s + [x], lit) {
      assert (s + [x])[|s|] == x;
      assert forall j :: 0 <= j < |s| ==> (s + [x])[j] == s[j];
    }
  }

  /** A part of a literal ends with no space. */
  lemma FoldPrefixIsTrimmed(s: seq<byte>, k: HeaderState, lit: string, matching: HeaderState, matched: HeaderState)
    requires s != [] && LooksFor(k, lit, matching, matched) && FoldPrefix(s, lit)
    ensures TrimRight(s) == s
  {
    LettersAndHyphens(k, lit, matching, matched, |s| - 1);
    assert Lower(s[|s| - 1]) == lit[|s| - 1];
  }

  lemma FoldedIsFull(s: seq<byte>, lit: string)
    requires FoldEquals(TrimRight(s), lit)
    ensures |s| >= |lit|
  {
    TrimRightIsPrefix(s);
  }

  lemma FirstMatchedByte(c: Core, x: byte, lit: string, matching: HeaderState, matched: HeaderState, skip: nat -> bool)
    requires c.state.ValueStart? && LooksFor(c.headerState, lit, matching, matched)
    requires x != '\r' && x != '\n' && x != ' ' && Lower(x) == lit[0]
    ensures GlideByte(c, x, skip) == At(c.(state := Value, headerState := matching, index := 0))
  {
    hide React;
    ValueStartReaction(c, x, skip);
  }

  lemma FirstPlainByte(c: Core, x: byte, skip: nat -> bool)
    requires c.state.ValueStart? && !c.headerState.IsContentLength?
    requires x != '\r' && x != '\n' && x != ' '
    requires c.headerState.IsTransferEncoding? ==> Lower(x) != 'c'
    requires c.headerState.IsConnection? ==> Lower(x) != 'k' && Lower(x) != 'c'
    ensures GlideByte(c, x, skip)
            == At(c.(state := Value, headerState := General, index := 0,
                     flags := c.flags + if c.headerState.IsUpgrade? then {Upgrade} else {}))
  {
    hide React;
    assert c.flags + {} == c.flags;
    ValueStartReaction(c, x, skip);
  }

  lemma LaterPlainByte(d: Core, x: byte, skip: nat -> bool)
    requires d.state.Value? && d.headerState.General? && x != '\r' && x != '\n'
    ensures GlideByte(d, x, skip) == At(d)
  {
    hide React;
    ValueReaction(d, x, skip);
  }

  /** A value whose first byte fits the literal, from its first byte on. */
  lemma {:induction false} MatchedValueGlides(c: Core, s: seq<byte>, lit: string, matching: HeaderState,
                                              matched: HeaderState, skip: nat -> bool)
    returns (h: HeaderState, i: nat)
    requires c.state.ValueStart? && LooksFor(c.headerState, lit, matching, matched)
    requires IsValue(s) && s != [] && s[0] != ' ' && Lower(s[0]) == lit[0]
    ensures Glide(c, s, skip) == At(c.(state := Value, headerState := h, index := i))
    ensures KnowsValue(s, h, i, lit, matching, matched)
    decreases |s|
  {
    hide React;
    if |s| == 1 {
      h, i := matching, 0;
      assert s[0] in s && s == [s[0]];
      FirstMatchedByte(c, s[0], lit, matching, matched, skip);
      GlideOne(c, s[0], skip);
    } else {
      var init, x := s[..|s| - 1], s[|s| - 1];
      assert init + [x] == s && x in s && forall b :: b in init ==> b in s;
      h, i := MatchedValueGlides(c, init, lit, matching, matched, skip);
      ValueByteGlides(c.(state := Value, headerState := h, index := i), x, c.headerState, lit, matching, matched, skip);
      NextKnowsValue(init, h, i, x, c.headerState, lit, matching, matched);
      var next := NextValueState(h, i, x, lit, matching, matched);
      h, i := next.0, next.1;
    }
  }

  /** A value nothing is looked for in, or whose first byte fits nothing. */
  lemma {:induction false} PlainValueGlides(c: Core, s: seq<byte>, skip: nat -> bool)
    requires c.state.ValueStart? && IsValue(s) && s != [] && s[0] != ' '
    requires !c.headerState.IsContentLength?
    requires c.headerState.IsTransferEncoding? ==> Lower(s[0]) != 'c'
    requires c.headerState.IsConnection? ==> Lower(s[0]) != 'k' && Lower(s[0]) != 'c'
    ensures Glide(c, s, skip)
            == At(c.(state := Value, headerState := General, index := 0,
                     flags := c.flags + if c.headerState.IsUpgrade? then {Upgrade} else {}))
  {
    hide React;
    assert s[0] in s;
    var d := c.(state := Value, headerState := General, index := 0,
                flags := c.flags + if c.headerState.IsUpgrade? then {Upgrade} else {});
    FirstPlainByte(c, s[0], skip);
    GlideOne(c, s[0], skip);
    forall b | b in s[1..]
      ensures GlideByte(d, b, skip) == At(d)
    {
      assert b in s;
      LaterPlainByte(d, b, skip);
    }
    GlideStay(d, s[1..], skip);
    GlideAppend(c, [s[0]], s[1..], skip);
    assert [s[0]] + s[1..] == s;
  }

  predicate IsLengthText(v: seq<byte>) { forall b :: b in v ==> IsNumeral(b) || b == ' ' }

  /** The number spelled by the digits of a text. */
  function Decimal(v: seq<byte>): nat {
    if v == [] then 0
    else
      var b := v[|v| - 1];
      if IsNumeral(b) then Decimal(v[..|v| - 1]) * 10 + NumeralValue(b) else Decimal(v[..|v| - 1])
  }

  lemma WrapDigit(n: nat, d: nat)
    ensures (n % SIZE_MODULUS * 10 + d) % SIZE_MODULUS == (n * 10 + d) % SIZE_MODULUS
  {
    var q := n / SIZE_MODULUS;
    assert n == q * SIZE_MODULUS + n % SIZE_MODULUS;
    assert n * 10 + d == (q * 10) * SIZE_MODULUS + (n % SIZE_MODULUS * 10 + d);
    WrapsAround(q * 10, n % SIZE_MODULUS * 10 + d);
  }

  function WithLength(c: Core, n: nat): Core { c.(state := Value, index := 0, contentLength := n % SIZE_MODULUS) }

  lemma {:induction false} LengthValueGlides(c: Core, s: seq<byte>, skip: nat -> bool) returns (n: nat)
    requires c.state.ValueStart? && c.headerState.IsContentLength? && IsLengthText(s) && s != [] && s[0] != ' '
    ensures Glide(c, s, skip) == At(WithLength(c, n)) && n == Decimal(s)
    decreases |s|
  {
    hide React;
    var init, x := s[..|s| - 1], s[|s| - 1];
    assert x in s && init + [x] == s && forall b :: b in init ==> b in s;
    if init == [] {
      FirstLengthByte(c, x, skip);
      n := Decimal([x]);
    } else {
      n := LengthValueGlides(c, init, skip);
      DecimalOneMore(init, x);
      LengthOneMore(c, init, n, x, skip);
      n := if IsNumeral(x) then n * 10 + NumeralValue(x) else n;
    }
  }

  lemma DecimalOneMore(v: seq<byte>, x: byte)
    ensures Decimal(v + [x]) == if IsNumeral(x) then Decimal(v) * 10 + NumeralValue(x) else Decimal(v)
  {
    assert (v + [x])[..|v|] == v;
  }

  lemma {:induction false} LengthOneMore(c: Core, s: seq<byte>, n: nat, x: byte, skip: nat -> bool)
    requires c.headerState.IsContentLength? && (IsNumeral(x) || x == ' ')
    requires Glide(c, s, skip) == At(WithLength(c, n))
    ensures Glide(c, s + [x], skip) == At(WithLength(c, if IsNumeral(x) then n * 10 + NumeralValue(x) else n))
  {
    hide React;
    LengthByteGlides(c, n, x, skip);
    GlideAppend(c, s, [x], skip);
  }

  lemma FirstLengthByte(c: Core, x: byte, skip: nat -> bool)
    requires c.state.ValueStart? && c.headerState.IsContentLength? && IsNumeral(x)
    ensures Glide(c, [x], skip) == At(WithLength(c, Decimal([x])))
  {
    hide React;
    DecimalOfOne(x);
    FirstLengthReaction(c, x, skip);
    GlideOne(c, x, skip);
  }

  lemma DecimalOfOne(x: byte)
    requires IsNumeral(x)
    ensures Decimal([x]) == NumeralValue(x) && NumeralValue(x) % SIZE_MODULUS == NumeralValue(x)
  {
    assert [x][..0] == [];
  }

  lemma FirstLengthReaction(c: Core, x: byte, skip: nat -> bool)
    requires c.state.ValueStart? && c.headerState.IsContentLength? && IsNumeral(x)
    ensures GlideByte(c, x, skip) == At(c.(state := Value, index := 0, contentLength := NumeralValue(x)))
  {
    hide React;
    ValueStartReaction(c, x, skip);
  }

  lemma LengthByteGlides(c: Core, n: nat, x: byte, skip: nat -> bool)
    requires c.headerState.IsContentLength? && (IsNumeral(x) || x == ' ')
    ensures Glide(WithLength(c, n), [x], skip)
            == At(WithLength(c, if IsNumeral(x) then n * 10 + NumeralValue(x) else n))
  {
    hide React;
    if IsNumeral(x) { WrapDigit(n, NumeralValue(x)); }
    ValueReaction(WithLength(c, n), x, skip);
    GlideOne(WithLength(c, n), x, skip);
  }

  // Whole lines.

  predicate IsLineEnd(e: seq<byte>) { e == "\n" || e == "\r\n" }

  /** What a line with a given name sets, by comparing strings. */
  function LineFlags(name: HeaderState, v: seq<byte>): set<Flag> {
    var t := TrimRight(TrimLeft(v));
    match name
    case IsUpgrade => if TrimLeft(v) == [] then {} else {Upgrade}
    case IsTransferEncoding => if SameIgnoringCase(t, CHUNKED) then {Chunked} else {}
    case IsConnection =>
      if SameIgnoringCase(t, KEEP_ALIVE) then {KeepAlive} else if SameIgnoringCase(t, CLOSE) then {Close} else {}
    case _ => {}
  }

  function LineLength(name: HeaderState, v: seq<byte>, before: nat): nat {
    if name.IsContentLength? && TrimLeft(v) != [] then Decimal(v) % 0x1_0000_0000_0000_0000 else before
  }

  /** The fields a header line leaves, but for the scratch of the matcher. */
  predicate LineDone(c: Core, name: HeaderState, v: seq<byte>, d: Core) {
    d == c.(state := FieldStart, headerState := d.headerState, index := d.index,
            flags := c.flags + LineFlags(name, v), contentLength := LineLength(name, v, c.contentLength))
  }

  lemma {:induction false} TrimLeftSplits(v: seq<byte>) returns (k: nat)
    ensures k <= |v| && TrimLeft(v) == v[k..] && (forall b :: b in v[..k] ==> b == ' ')
    ensures v[k..] != [] ==> v[k] != ' '
  {
    if v == [] || v[0] != ' ' {
      k := 0;
    } else {
      var j := TrimLeftSplits(v[1..]);
      k := j + 1;
      assert v[k..] == v[1..][j..];
      assert v[..k] == [v[0]] + v[1..][..j];
    }
  }

  /** The value, up to its line end: the flag it earns stands in the header state. */
  lemma {:induction false} ValueGlides(c: Core, s: seq<byte>, skip: nat -> bool) returns (d: Core)
    requires c.state.ValueStart? && IsValue(s) && s != [] && s[0] != ' '
    requires c.headerState.IsContentLength? ==> IsLengthText(s)
    ensures Glide(c, s, skip) == At(d)
    ensures d == c.(state := Value, headerState := d.headerState, index := d.index, flags := d.flags,
                    contentLength := LineLength(c.headerState, s, c.contentLength))
    ensures d.flags + FlagOfLine(d.headerState) == c.flags + LineFlags(c.headerState, s)
  {
    hide React;
    assert TrimLeft(s) == s;
    TrimmedIsValue(s);
    var k, t := c.headerState, TrimRight(s);
    if k.IsContentLength? {
      var n := LengthValueGlides(c, s, skip);
      d := WithLength(c, n);
    } else if k.IsTransferEncoding? && Lower(s[0]) == 'c' {
      var h, i := MatchedValueGlides(c, s, CHUNKED, MatchingChunked, IsChunked, skip);
      d := c.(state := Value, headerState := h, index := i);
      MatchedEarnsFlag(s, h, i, k, CHUNKED, MatchingChunked, IsChunked);
    } else if k.IsConnection? && (Lower(s[0]) == 'k' || Lower(s[0]) == 'c') {
      d := ConnectionValueGlides(c, s, skip);
    } else {
      PlainValueGlides(c, s, skip);
      d := Glide(c, s, skip).core;
      PlainEarnsNothing(s, k);
    }
  }

  lemma {:induction false} ConnectionValueGlides(c: Core, s: seq<byte>, skip: nat -> bool) returns (d: Core)
    requires c.state.ValueStart? && c.headerState.IsConnection? && IsValue(s) && s != [] && s[0] != ' '
    requires Lower(s[0]) == 'k' || Lower(s[0]) == 'c'
    ensures Glide(c, s, skip) == At(d)
    ensures d == c.(state := Value, headerState := d.headerState, index := d.index)
    ensures FlagOfLine(d.headerState) == LineFlags(c.headerState, s)
  {
    hide React, Glide, KnowsValue, FoldPrefix;
    assert TrimLeft(s) == s;
    var k, h, i := c.headerState, General, 0;
    if Lower(s[0]) == 'k' {
      h, i := MatchedValueGlides(c, s, KEEP_ALIVE, MatchingKeepAlive, IsKeepAlive, skip);
      MatchedEarnsFlag(s, h, i, k, KEEP_ALIVE, MatchingKeepAlive, IsKeepAlive);
      OtherFirstByte(s, k, CLOSE, MatchingClose, IsClose);
    } else {
      h, i := MatchedValueGlides(c, s, CLOSE, MatchingClose, IsClose, skip);
      MatchedEarnsFlag(s, h, i, k, CLOSE, MatchingClose, IsClose);
      OtherFirstByte(s, k, KEEP_ALIVE, MatchingKeepAlive, IsKeepAlive);
    }
    d := c.(state := Value, headerState := h, index := i);
  }

  lemma PlainEarnsNothing(s: seq<byte>, k: HeaderState)
    requires IsValue(s) && s != [] && s[0] != ' '
    requires k.IsTransferEncoding? ==> Lower(s[0]) != 'c'
    requires k.IsConnection? ==> Lower(s[0]) != 'k' && Lower(s[0]) != 'c'
    ensures LineFlags(k, s) == if k.IsUpgrade? then {Upgrade} else {}
  {
    assert TrimLeft(s) == s;
    if k.IsTransferEncoding? { OtherFirstByte(s, k, CHUNKED, MatchingChunked, IsChunked); }
    if k.IsConnection? {
      OtherFirstByte(s, k, KEEP_ALIVE, MatchingKeepAlive, IsKeepAlive);
      OtherFirstByte(s, k, CLOSE, MatchingClose, IsClose);
    }
  }

  lemma TrimmedIsValue(s: seq<byte>)
    requires IsValue(s)
    ensures IsValue(TrimRight(s))
  {
    TrimRightIsPrefix(s);
    assert forall b :: b in s[..|TrimRight(s)|] ==> b in s;
  }

  lemma MatchedEarnsFlag(s: seq<byte>, h: HeaderState, i: nat, k: HeaderState, lit: string,
                         matching: HeaderState, matched: HeaderState)
    requires s != [] && IsValue(s) && LooksFor(k, lit, matching, matched) && KnowsValue(s, h, i, lit, matching, matched)
    ensures FlagOfLine(h) == if SameIgnoringCase(TrimRight(s), lit) then FlagOfLine(matched) else {}
  {
    TrimmedIsValue(s);
    FoldIsLowerCase(TrimRight(s), k, lit, matching, matched);
    if h == matching { FoldPrefixIsTrimmed(s, k, lit, matching, matched); }
  }

  lemma OtherFirstByte(s: seq<byte>, k: HeaderState, lit: string, matching: HeaderState, matched: HeaderState)
    requires s != [] && s[0] != ' ' && IsValue(s) && LooksFor(k, lit, matching, matched) && Lower(s[0]) != lit[0]
    ensures !SameIgnoringCase(TrimRight(s), lit)
  {
    TrimmedIsValue(s);
    FoldIsLowerCase(TrimRight(s), k, lit, matching, matched);
    TrimRightIsPrefix(s);
    if TrimRight(s) != [] { assert TrimRight(s)[0] == s[0]; }
  }

  /** What is heard of a line end: the value, if it is over before it has begun. */
  function EndHeard(c: Core): seq<Item> { if c.state.ValueStart? then [Blank] else [] }

  /** What is heard of a value, leading spaces gone. */
  function Valued(ch: Channel, s: seq<byte>): seq<Item> { if s == [] then [Blank] else Spoken(ch, Value, s) }

  lemma LineEndSound(s: State, d: State, b: byte)
    requires (b == '\r' || b == '\n') && Quiet(d)
    ensures forall ch :: Sound(ch, s, d, b) == if s.ValueStart? then [Blank] else []
  {}

  /** The line end after a value, or after nothing but spaces. */
  lemma LineFeedGlides(c: Core, skip: nat -> bool) returns (d: Core)
    requires c.state.Value? || c.state.ValueStart? || c.state.HeaderAlmostDone?
    ensures Glides(c, "\n", d, EndHeard(c), EndHeard(c), skip)
    ensures d == c.(state := FieldStart, index := d.index,
                    flags := c.flags + if c.state.ValueStart? then {} else FlagOfLine(c.headerState))
  {
    hide React;
    assert c.flags + {} == c.flags;
    if c.state.Value? {
      ValueReaction(c, '\n', skip);
    } else if c.state.ValueStart? {
      ValueStartReaction(c, '\n', skip);
    } else {
      HeaderDoneReaction(c, '\n', skip);
    }
    d := GlideByte(c, '\n', skip).core;
    LineEndSound(c.state, d.state, '\n');
    ByteGlides(c, '\n', d, skip);
  }

  lemma CarriageReturnGlides(c: Core, skip: nat -> bool) returns (d: Core)
    requires c.state.Value? || c.state.ValueStart?
    ensures Glides(c, "\r", d, EndHeard(c), EndHeard(c), skip)
    ensures d == c.(state := HeaderAlmostDone, index := d.index,
                    headerState := if c.state.Value? then c.headerState else General)
  {
    hide React;
    if c.state.Value? { ValueReaction(c, '\r', skip); } else { ValueStartReaction(c, '\r', skip); }
    d := GlideByte(c, '\r', skip).core;
    LineEndSound(c.state, d.state, '\r');
    ByteGlides(c, '\r', d, skip);
  }

  lemma {:induction false} LineEndGlides(c: Core, e: seq<byte>, skip: nat -> bool) returns (d: Core)
    requires IsLineEnd(e) && (c.state.Value? || c.state.ValueStart?)
    ensures Glides(c, e, d, EndHeard(c), EndHeard(c), skip)
    ensures d == c.(state := FieldStart, headerState := d.headerState, index := d.index,
                    flags := c.flags + if c.state.Value? then FlagOfLine(c.headerState) else {})
  {
    hide React;
    if e == "\n" {
      d := LineFeedGlides(c, skip);
    } else {
      var x := CarriageReturnGlides(c, skip);
      d := LineFeedGlides(x, skip);
      assert e == "\r" + "\n";
      GlidesOnSilently(c, "\r", x, EndHeard(c), EndHeard(c), "\n", d, skip);
    }
  }

  lemma {:induction false} NameInside(c: Core, name: seq<byte>, skip: nat -> bool)
    requires c.state.FieldStart? && (name == [] || IsName(name))
    ensures Inside(c, name, Field, skip)
    decreases |name|
  {
    hide React;
    if name != [] {
      var init := name[..|name| - 1];
      assert forall b :: b in init ==> b in name;
      NameInside(c, init, skip);
      GlideName(c, name, skip);
    }
  }

  lemma {:induction false} ValueInside(c: Core, s: seq<byte>, skip: nat -> bool)
    requires c.state.ValueStart? && IsValue(s) && (s != [] ==> s[0] != ' ')
    requires c.headerState.IsContentLength? ==> IsLengthText(s)
    ensures Inside(c, s, Value, skip)
    decreases |s|
  {
    hide React;
    if s != [] {
      var init := s[..|s| - 1];
      assert forall b :: b in init ==> b in s;
      ValueInside(c, init, skip);
      var d := ValueGlides(c, s, skip);
    }
  }

  lemma {:induction false} NameHeard(c: Core, name: seq<byte>, skip: nat -> bool)
    requires c.state.FieldStart? && IsName(name)
    ensures forall ch :: Voices(ch, c, name, skip) == Spoken(ch, Field, name)
  {
    hide React;
    NameInside(c, name, skip);
    GlideWithin(c, name, Field, skip);
  }

  lemma {:induction false} ValueHeard(c: Core, s: seq<byte>, skip: nat -> bool)
    requires c.state.ValueStart? && IsValue(s) && (s != [] ==> s[0] != ' ')
    requires c.headerState.IsContentLength? ==> IsLengthText(s)
    ensures forall ch :: Voices(ch, c, s, skip) == Spoken(ch, Value, s)
  {
    hide React;
    ValueInside(c, s, skip);
    GlideWithin(c, s, Value, skip);
  }

  /** The value part of a line, from its first byte that is not a space. */
  lemma {:induction false} TrimmedLineGlides(c: Core, s: seq<byte>, e: seq<byte>, skip: nat -> bool) returns (d: Core)
    requires c.state.ValueStart? && IsValue(s) && IsLineEnd(e) && (s != [] ==> s[0] != ' ')
    requires c.headerState.IsContentLength? ==> IsLengthText(s)
    ensures Glides(c, s + e, d, Valued(Whole, s), Valued(Parts, s), skip)
    ensures LineDone(c, c.headerState, s, d)
  {
    hide React;
    if s == [] {
      assert s + e == e && TrimLeft(s) == [] && TrimRight(TrimLeft(s)) == [];
      d := LineEndGlides(c, e, skip);
    } else {
      ValueHeard(c, s, skip);
      var x := ValueGlides(c, s, skip);
      d := LineEndGlides(x, e, skip);
      GlidesOnSilently(c, s, x, Spoken(Whole, Value, s), Spoken(Parts, Value, s), e, d, skip);
    }
  }

  lemma {:induction false} SpacesGlide(c: Core, spaces: seq<byte>, skip: nat -> bool)
    requires c.state.ValueStart? && forall b :: b in spaces ==> b == ' '
    ensures Glides(c, spaces, c, [], [], skip)
  {
    hide React;
    ValueStartReaction(c, ' ', skip);
    GlideStay(c, spaces, skip);
  }

  /** The value part of a line, from the byte after the colon. */
  lemma {:induction false} ValueLineGlides(c: Core, v: seq<byte>, e: seq<byte>, skip: nat -> bool) returns (d: Core)
    requires c.state.ValueStart? && IsValue(v) && IsLineEnd(e)
    requires c.headerState.IsContentLength? ==> IsLengthText(v)
    ensures Glides(c, v + e, d, Valued(Whole, TrimLeft(v)), Valued(Parts, TrimLeft(v)), skip)
    ensures LineDone(c, c.headerState, v, d)
  {
    hide React;
    var k := TrimLeftSplits(v);
    var spaces, s := v[..k], v[k..];
    assert v == spaces + s && v + e == spaces + (s + e);
    assert forall b :: b in s ==> b in v;
    SpacesGlide(c, spaces, skip);
    d := TrimmedLineGlides(c, s, e, skip);
    GlidesAfterSilence(c, spaces, c, s + e, d, Valued(Whole, s), Valued(Parts, s), skip);
    SpacesMakeNoDifference(c, spaces, s, d);
  }

  lemma SpacesMakeNoDifference(c: Core, spaces: seq<byte>, s: seq<byte>, d: Core)
    requires (forall b :: b in spaces ==> b == ' ') && (s != [] ==> s[0] != ' ') && TrimLeft(spaces + s) == s
    requires LineDone(c, c.headerState, s, d)
    ensures LineDone(c, c.headerState, spaces + s, d)
  {
    DecimalSkipsSpaces(spaces, s);
    assert TrimLeft(s) == s;
  }

  lemma {:induction false} DecimalSkipsSpaces(spaces: seq<byte>, s: seq<byte>)
    requires forall b :: b in spaces ==> b == ' '
    ensures Decimal(spaces + s) == Decimal(s)
    decreases |spaces| + |s|
  {
    if s != [] {
      assert (spaces + s)[..|spaces + s| - 1] == spaces + s[..|s| - 1];
      DecimalSkipsSpaces(spaces, s[..|s| - 1]);
    } else if spaces != [] {
      var init := spaces[..|spaces| - 1];
      assert spaces + s == spaces && init + s == init && spaces[|spaces| - 1] in spaces;
      assert forall b :: b in init ==> b in spaces;
      DecimalSkipsSpaces(init, s);
    }
  }

  /** A whole header line.  The name is recognised, and its value earns its flag or sets
      the length, exactly as comparing strings would have it; on_header_field hears
      exactly the name, then on_header_value the value without its leading spaces, also
      when nothing of it is left. */
  lemma {:induction false} HeaderLine(c: Core, name: seq<byte>, v: seq<byte>, e: seq<byte>, skip: nat -> bool)
    returns (d: Core)
    requires c.state.FieldStart? && IsName(name) && IsValue(v) && IsLineEnd(e)
    requires NameState(LowerCase(name)).IsContentLength? ==> IsLengthText(v)
    ensures LineDone(c, NameState(LowerCase(name)), v, d)
    ensures Glides(c, name + [':'] + (v + e), d,
                   Spoken(Whole, Field, name) + Valued(Whole, TrimLeft(v)),
                   Spoken(Parts, Field, name) + Valued(Parts, TrimLeft(v)), skip)
  {
    hide React;
    NameIsRecognized(LowerCase(name));
    var x := NameAndColon(c, name, skip);
    d := ValueLineGlides(x, v, e, skip);
    ReadLine(c, name + [':'], x, Spoken(Whole, Field, name), Spoken(Parts, Field, name), v + e, d,
             Valued(Whole, TrimLeft(v)), Valued(Parts, TrimLeft(v)), NameState(LowerCase(name)), v, skip);
  }

  lemma {:induction false} ReadLine(c: Core, a: seq<byte>, x: Core, w: seq<Item>, q: seq<Item>, b: seq<byte>, d: Core,
                                    w': seq<Item>, q': seq<Item>, name: HeaderState, v: seq<byte>, skip: nat -> bool)
    requires Glides(c, a, x, w, q, skip) && Glides(x, b, d, w', q', skip) && LineDone(x, x.headerState, v, d)
    requires x == c.(state := ValueStart, headerState := x.headerState, index := x.index)
    requires LineFlags(x.headerState, v) == LineFlags(name, v)
    requires x.headerState.IsContentLength? <==> name.IsContentLength?
    ensures LineDone(c, name, v, d)
    ensures Glides(c, a + b, d, w + w', q + q', skip)
  {
    hide React;
    GlidesOn(c, a, x, w, q, b, d, w', q', skip);
  }

  lemma {:induction false} NameAndColon(c: Core, name: seq<byte>, skip: nat -> bool) returns (x: Core)
    requires c.state.FieldStart? && IsName(name)
    ensures x == c.(state := ValueStart, headerState := Matched(LowerCase(name)).0, index := x.index)
    ensures Glides(c, name + [':'], x, Spoken(Whole, Field, name), Spoken(Parts, Field, name), skip)
  {
    hide React;
    GlideName(c, name, skip);
    NameHeard(c, name, skip);
    var (h, i) := Matched(LowerCase(name));
    var y := c.(state := Field, headerState := h, index := i);
    x := y.(state := ValueStart);
    ColonGlides(y, skip);
    GlidesOnSilently(c, name, y, Spoken(Whole, Field, name), Spoken(Parts, Field, name), [':'], x, skip);
  }

  lemma ColonGlides(c: Core, skip: nat -> bool)
    requires c.state.Field?
    ensures Glides(c, [':'], c.(state := ValueStart), [], [], skip)
  {
    hide React;
    ColonByte(c, skip);
    QuietByteGlides(c, ':', c.(state := ValueStart), skip);
  }

  lemma ColonByte(c: Core, skip: nat -> bool)
    requires c.state.Field?
    ensures GlideByte(c, ':', skip) == At(c.(state := ValueStart))
  {
    hide React;
    FieldReaction(c, ':', skip);
  }
}
