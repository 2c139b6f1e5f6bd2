/** Errors outside of the lines that a grammar describes: where a message may begin, the
    strict line feeds, and what is heard of an error. */
module HttpErrors {
  import opened HttpModel
  import opened HttpRun

  /** The data of a chunk must be followed by CR LF, and a CR at the end of a header line, of
      the headers, or of a start line by LF. */
  lemma StrictEnds(m: Machine, b: byte, skip: nat -> bool)
    requires Chunked in m.core.flags && m.nread < MAX_HEADER_SIZE
    ensures m.core.state.ChunkDataAlmostDone? ==> (Step(m, b, skip).Running? <==> b == '\r')
    ensures m.core.state.ChunkDataDone? ==> (Step(m, b, skip).Running? <==> b == '\n')
    ensures m.core.state.HeaderAlmostDone? ==> (Step(m, b, skip).Running? <==> b == '\n')
    ensures m.core.state.HeadersAlmostDone? && b != '\n' ==> Step(m, b, skip).Failed?
  {
    hide React, Heard;
    if m.core.state.HeaderAlmostDone? { HeaderDoneReaction(m.core, b, skip); }
    else if m.core.state.HeadersAlmostDone? { HeadersDoneReaction(m.core, b, skip); }
    else if InChunkFrame(m.core.state) { ChunkFrameReaction(m.core, b, skip); }
  }

  /** Where a message may begin: with an H of HTTP or the first letter of a method, after
      blank lines or none.  Any other byte is heard as a beginning before it is an error. */
  lemma MayBegin(m: Machine, b: byte, skip: nat -> bool)
    requires m.nread < MAX_HEADER_SIZE
    ensures m.core.state.StartReq? || m.core.state.StartReqOrRes? ==>
              (Step(m, b, skip).Running? <==> b in "\r\nCDGHLMNOPRSTU")
    ensures m.core.state.StartRes? ==> (Step(m, b, skip).Running? <==> b in "\r\nH")
    ensures m.core.state.ResOrRespH? ==> (Step(m, b, skip).Running? <==> b in "TE")
    ensures m.core.state.Dead? ==> Step(m, b, skip).Failed?
    ensures m.core.state.StartReq? || m.core.state.StartReqOrRes? || m.core.state.StartRes? ==>
              var r := Step(m, b, skip);
              r.Running? || (r.Failed? && forall ch :: r.m.Hearing(ch) == m.Hearing(ch) + [Event(MessageBegin)])
  {
    hide React, Heard;
    assert Events([MessageBegin]) == [Event(MessageBegin)];
    if InStart(m.core.state) { StartReaction(m.core, b, skip); }
  }

  // Errors.

  predicate FailsQuietly(r: Reaction) { r.Fail? ==> r.notes == [] }

  lemma LinesFailQuietly(c: Core, b: byte)
    ensures InStatusLine(c.state) ==> FailsQuietly(OnStatusLine(c, b))
    ensures FailsQuietly(OnMethod(c, b))
    ensures InUrl(c.state) ==> FailsQuietly(OnUrl(c, b))
    ensures InVersion(c.state) ==> FailsQuietly(OnVersion(c, b))
  {}

  lemma HeadersFailQuietly(c: Core, b: byte, skip: nat -> bool)
    ensures InField(c.state) ==> FailsQuietly(OnField(c, b, skip))
    ensures FailsQuietly(OnValueStart(c, b)) && FailsQuietly(OnHeaderDone(c, b))
    ensures FailsQuietly(OnHeadersDone(c, b, skip))
  {
    hide NextFieldState, NewMessage;
  }

  lemma ValueFailsQuietly(c: Core, b: byte)
    ensures FailsQuietly(OnValue(c, b))
  {
    hide MatchName;
  }

  lemma BodyFailsQuietly(c: Core, b: byte)
    ensures InBody(c.state) ==> FailsQuietly(OnBody(c))
    ensures InChunkFrame(c.state) ==> FailsQuietly(OnChunkFrame(c, b))
  {
    hide NewMessage;
  }

  lemma ReactFailsQuietly(c: Core, b: byte, skip: nat -> bool)
    requires !InStart(c.state)
    ensures FailsQuietly(React(c, b, skip))
  {
    hide OnStart, OnStatusLine, OnMethod, OnUrl, OnVersion, OnField, OnValueStart, OnValue;
    hide OnHeaderDone, OnHeadersDone, OnBody, OnChunkFrame, FailsQuietly;
    LinesFailQuietly(c, b);
    HeadersFailQuietly(c, b, skip);
    ValueFailsQuietly(c, b);
    BodyFailsQuietly(c, b);
  }

  /** Inside a message an error is told to nobody: the run stops at the byte, which is not
      taken, and what was heard is what was heard before it. */
  lemma ErrorsAreSilent(m: Machine, b: byte, skip: nat -> bool)
    requires !InStart(m.core.state) && Step(m, b, skip).Failed?
    ensures var r := Step(m, b, skip);
            && r.m.at == m.at && r.m.nread == m.nread
            && (forall ch :: r.m.Hearing(ch) == m.Hearing(ch))
  {
    hide React, Heard;
    ReactFailsQuietly(m.core, b, skip);
    assert m.whole + Events([]) == m.whole && m.parts + Events([]) == m.parts;
  }
}
