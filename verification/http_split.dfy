/** Cutting the stream: however the bytes are divided over calls, the same messages
    are heard and the parser ends with the same fields. */
module HttpSplit {
  import opened HttpModel
  import opened HttpRun
  import opened HttpGlide
  import opened HttpInvariant

  /** The cut run and the uncut run differ at most in the position in their buffers and
      in the header counter, whose upper bits a return forgets. */
  predicate Similar(cut: Machine, whole: Machine) {
    && cut == whole.(nread := cut.nread, at := cut.at)
    && cut.nread <= whole.nread && cut.nread % 256 == whole.nread % 256
  }

  /** A step, for a given reaction to its byte. */
  function StepOn(m: Machine, x: byte, r: Reaction): Result {
    if ParsingHeader(m.core.state) && Counted(m) > MAX_HEADER_SIZE then Failed(m)
    else if m.core.state.ChunkSizeStart? && Counted(m) != 1 then Aborted
    else Absorb(m, x, r, Counted(m))
  }

  lemma StepIsStepOn(m: Machine, x: byte, skip: nat -> bool)
    ensures Step(m, x, skip) == StepOn(m, x, React(m.core, x, skip))
  {
    hide React;
  }

  lemma SameAfterCount(m: nat, n: nat)
    requires m % 256 == n % 256
    ensures (m + 1) % 256 == (n + 1) % 256
  {}

  lemma StepOnSimilar(a: Machine, b: Machine, x: byte, r: Reaction)
    requires Good(a) && Similar(a, b) && StepOn(b, x, r).Running?
    ensures StepOn(a, x, r).Running? && Similar(StepOn(a, x, r).m, StepOn(b, x, r).m)
  {
    hide Heard, Valid;
    SameAfterCount(a.nread, b.nread);
  }

  lemma StepSimilar(a: Machine, b: Machine, x: byte, skip: nat -> bool)
    requires Good(a) && Similar(a, b) && Step(b, x, skip).Running?
    ensures Step(a, x, skip).Running? && Similar(Step(a, x, skip).m, Step(b, x, skip).m)
  {
    hide React;
    StepIsStepOn(a, x, skip);
    StepIsStepOn(b, x, skip);
    StepOnSimilar(a, b, x, React(a.core, x, skip));
  }

  lemma {:induction false} RunSimilar(a: Machine, b: Machine, data: seq<byte>, skip: nat -> bool)
    requires Good(a) && Similar(a, b) && Run(b, data, skip).Running?
    ensures Run(a, data, skip).Running? && Similar(Run(a, data, skip).m, Run(b, data, skip).m)
  {
    hide React;
    if data != [] {
      var init := data[..|data| - 1];
      RunSimilar(a, b, init, skip);
      RunKeeps(a, init, skip);
      StepSimilar(Run(a, init, skip).m, Run(b, init, skip).m, data[|data| - 1], skip);
    }
  }

  /** What a return stores, seen from runs that differ as `Similar` allows. */
  lemma SaveSimilar(a: Machine, b: Machine)
    requires Good(a) && Similar(a, b)
    ensures Similar(Save(a), b) && Save(a) == Save(b)
  {
    SaveKeeps(a);
  }

  /** Any cutting of a stream that one call consumes is consumed as well, hears the
      same bytes and notifications on both channels in the same order, and leaves
      every stored field, the truncated header counter included, as the one call does. */
  lemma {:induction false} SplitInvariance(m: Machine, pieces: seq<seq<byte>>, skip: nat -> bool)
    requires Good(m) && Run(m, Concat(pieces), skip).Running?
    ensures Calls(m, pieces, skip).Running?
    ensures Similar(Calls(m, pieces, skip).m, Run(m, Concat(pieces), skip).m)
    ensures pieces != [] ==> Calls(m, pieces, skip) == Call(m, Concat(pieces), skip)
    decreases |pieces|
  {
    hide React;
    if pieces != [] {
      var init, last := pieces[..|pieces| - 1], pieces[|pieces| - 1];
      RunAppend(m, Concat(init), last, skip);
      SplitInvariance(m, init, skip);
      AssertsHold(m, init, skip);
      var cut, uncut := Calls(m, init, skip).m, Run(m, Concat(init), skip).m;
      RunSimilar(cut, uncut, last, skip);
      RunKeeps(cut, last, skip);
      SaveSimilar(Run(cut, last, skip).m, Run(uncut, last, skip).m);
    }
  }

  /** The run stands before a byte that the header limit refuses. */
  predicate AtLimit(m: Machine) { ParsingHeader(m.core.state) && m.nread >= 80 * 1024 }

  predicate MeetsLimit(m: Machine, data: seq<byte>, k: nat, skip: nat -> bool) {
    k < |data| && Run(m, data[..k], skip).Running? && AtLimit(Run(m, data[..k], skip).m)
  }

  lemma StepSimilarBack(a: Machine, b: Machine, x: byte, skip: nat -> bool)
    requires Good(b) && Similar(a, b) && Step(a, x, skip).Running? && !AtLimit(b)
    ensures Step(b, x, skip).Running?
  {
    hide React;
  }

  lemma {:induction false} RunSimilarBack(a: Machine, b: Machine, data: seq<byte>, skip: nat -> bool) returns (k: nat)
    requires Good(a) && Good(b) && Similar(a, b) && Run(a, data, skip).Running?
    ensures Run(b, data, skip).Running? || MeetsLimit(b, data, k, skip)
  {
    hide React;
    k := 0;
    if data != [] {
      var init, x := data[..|data| - 1], data[|data| - 1];
      k := RunSimilarBack(a, b, init, skip);
      if Run(b, init, skip).Running? {
        RunSimilar(a, b, init, skip);
        RunKeeps(b, init, skip);
        if AtLimit(Run(b, init, skip).m) {
          k := |init|;
        } else {
          StepSimilarBack(Run(a, init, skip).m, Run(b, init, skip).m, x, skip);
        }
      } else {
        assert data[..k] == init[..k];
      }
    }
  }

  /** What holds of the rest of a stream, carried over to the whole of it. */
  lemma {:induction false} LimitCarriesOver(m: Machine, a: seq<byte>, uncut: Machine, b: seq<byte>, k: nat,
                                            skip: nat -> bool)
    requires Run(m, a, skip) == Running(uncut)
    requires Run(uncut, b, skip).Running? || MeetsLimit(uncut, b, k, skip)
    ensures Run(m, a + b, skip).Running? || MeetsLimit(m, a + b, |a| + k, skip)
  {
    hide React;
    RunAppend(m, a, b, skip);
    if k < |b| {
      RunAppend(m, a, b[..k], skip);
      assert (a + b)[..|a| + k] == a + b[..k];
    }
  }

  lemma {:induction false} LimitStays(m: Machine, a: seq<byte>, b: seq<byte>, k: nat, skip: nat -> bool)
    requires MeetsLimit(m, a, k, skip)
    ensures MeetsLimit(m, a + b, k, skip)
  {
    hide React;
    assert (a + b)[..k] == a[..k];
  }

  lemma {:induction false} ConsumedOrLimit(m: Machine, pieces: seq<seq<byte>>, skip: nat -> bool)
    returns (k: nat)
    requires Good(m) && Calls(m, pieces, skip).Running?
    ensures Run(m, Concat(pieces), skip).Running? || MeetsLimit(m, Concat(pieces), k, skip)
    decreases |pieces|
  {
    hide React;
    k := 0;
    if pieces != [] {
      var init, last := pieces[..|pieces| - 1], pieces[|pieces| - 1];
      k := ConsumedOrLimit(m, init, skip);
      if Run(m, Concat(init), skip).Running? {
        SplitInvariance(m, init, skip);
        AssertsHold(m, init, skip);
        RunKeeps(m, Concat(init), skip);
        var cut, uncut := Calls(m, init, skip).m, Run(m, Concat(init), skip).m;
        k := RunSimilarBack(cut, uncut, last, skip);
        LimitCarriesOver(m, Concat(init), uncut, last, k, skip);
        k := |Concat(init)| + k;
      } else {
        LimitStays(m, Concat(init), last, k, skip);
      }
    }
  }

  /** At the limit the run is over. */
  lemma {:induction false} LimitFails(m: Machine, data: seq<byte>, k: nat, skip: nat -> bool)
    requires MeetsLimit(m, data, k, skip)
    ensures Run(m, data, skip) == Failed(Run(m, data[..k], skip).m)
  {
    hide React;
    RunEnds(m, Run(m, data[..k], skip).m, data, k, skip);
  }

  /** Of a cutting that is consumed: one call consumes the stream as well if and only if it
      meets the header limit nowhere.  The limit is the one thing that depends on the
      cutting. */
  lemma {:induction false} OnlyLimitDependsOnCutting(m: Machine, pieces: seq<seq<byte>>, skip: nat -> bool)
    requires Good(m) && Calls(m, pieces, skip).Running?
    ensures Run(m, Concat(pieces), skip).Running? <==> forall k :: !MeetsLimit(m, Concat(pieces), k, skip)
  {
    hide React, Run, MeetsLimit;
    var data := Concat(pieces);
    var _ := ConsumedOrLimit(m, pieces, skip);
    forall k | MeetsLimit(m, data, k, skip) ensures Run(m, data, skip).Failed? { LimitFails(m, data, k, skip); }
  }

  // Streams that are not consumed.

  /** The run comes to the byte at k and ends there. */
  predicate EndsAt(m: Machine, data: seq<byte>, k: nat, skip: nat -> bool) {
    k < |data| && Run(m, data[..k], skip).Running? && !Step(Run(m, data[..k], skip).m, data[k], skip).Running?
  }

  /** What comes before the part of a stream in which the run ends. */
  lemma {:induction false} EndsLater(m: Machine, a: seq<byte>, x: Machine, b: seq<byte>, k: nat, skip: nat -> bool)
    requires Reaches(m, a, x, skip) && EndsAt(x, b, k, skip)
    ensures EndsAt(m, a + b, |a| + k, skip) && Run(m, a + b, skip) == Run(x, b, skip)
    ensures Run(m, (a + b)[..|a| + k], skip) == Run(x, b[..k], skip)
  {
    hide React, Step;
    RunAppend(m, a, b, skip);
    RunAppend(m, a, b[..k], skip);
    assert (a + b)[..|a| + k] == a + b[..k];
  }

  /** Two runs have ended in the same way. */
  predicate EndsAlike(cut: Result, whole: Result) {
    match whole
    case Failed(m) => cut.Failed? && Similar(cut.m, m)
    case Left(m) => cut.Left? && Similar(cut.m, m)
    case Undef => cut.Undef?
    case _ => false
  }

  lemma StepOnEndsAlike(a: Machine, b: Machine, x: byte, r: Reaction)
    requires Good(a) && Good(b) && Similar(a, b) && !AtLimit(b) && !StepOn(b, x, r).Running? && !r.Abort?
    ensures EndsAlike(StepOn(a, x, r), StepOn(b, x, r))
  {
    hide Heard;
  }

  lemma StepEndsAlike(a: Machine, b: Machine, x: byte, skip: nat -> bool)
    requires Good(a) && Good(b) && Similar(a, b) && !AtLimit(b) && !Step(b, x, skip).Running?
    ensures EndsAlike(Step(a, x, skip), Step(b, x, skip))
  {
    hide React, StepOn, Step, EndsAlike;
    ReactKeeps(a.core, x, skip);
    StepIsStepOn(a, x, skip);
    StepIsStepOn(b, x, skip);
    StepOnEndsAlike(a, b, x, React(a.core, x, skip));
  }

  /** A run that ends at a byte ends there from a similar machine too. */
  lemma {:induction false} RunEndsAlike(a: Machine, b: Machine, data: seq<byte>, k: nat, skip: nat -> bool)
    requires Good(a) && Good(b) && Similar(a, b) && EndsAt(b, data, k, skip) && !AtLimit(Run(b, data[..k], skip).m)
    ensures EndsAt(a, data, k, skip) && EndsAlike(Run(a, data, skip), Run(b, data, skip))
  {
    hide React, Step, AtLimit, Similar, Good;
    RunSimilar(a, b, data[..k], skip);
    RunKeeps(a, data[..k], skip);
    RunKeeps(b, data[..k], skip);
    var x, y := Run(a, data[..k], skip).m, Run(b, data[..k], skip).m;
    StepEndsAlike(x, y, data[k], skip);
    RunEnds(b, y, data, k, skip);
    RunEnds(a, x, data, k, skip);
  }

  /** The end of a run over a concatenation, seen from its parts. */
  lemma {:induction false} EndInPart(m: Machine, a: seq<byte>, b: seq<byte>, k: nat, skip: nat -> bool)
    requires EndsAt(m, a + b, k, skip)
    ensures k < |a| ==> EndsAt(m, a, k, skip) && Run(m, a + b, skip) == Run(m, a, skip) && (a + b)[..k] == a[..k]
    ensures k >= |a| ==> Run(m, a, skip).Running? && EndsAt(Run(m, a, skip).m, b, k - |a|, skip)
                         && Run(Run(m, a, skip).m, b[..k - |a|], skip) == Run(m, (a + b)[..k], skip)
                         && Run(Run(m, a, skip).m, b, skip) == Run(m, a + b, skip)
  {
    hide React, Step;
    var y := Run(m, (a + b)[..k], skip).m;
    RunAppend(m, a, b, skip);
    if k < |a| {
      assert (a + b)[..k] == a[..k];
      RunEnds(m, y, a, k, skip);
    } else {
      assert (a + b)[..k] == a + b[..k - |a|];
      RunAppend(m, a, b[..k - |a|], skip);
    }
  }

  /** A stream whose one call ends at byte k, in an error, a handover to another protocol,
      or outside what C defines, but not at the header limit: every cutting of it ends at
      the same byte, in the piece that holds it, in the same way, with the same fields and
      with the same heard. */
  lemma {:induction false} SplitEnds(m: Machine, pieces: seq<seq<byte>>, k: nat, skip: nat -> bool) returns (j: nat)
    requires Good(m) && EndsAt(m, Concat(pieces), k, skip) && !AtLimit(Run(m, Concat(pieces)[..k], skip).m)
    ensures j < |pieces| && Calls(m, pieces[..j], skip).Running?
    ensures var before := |Concat(pieces[..j])|;
            before <= k && EndsAt(Calls(m, pieces[..j], skip).m, pieces[j], k - before, skip)
    ensures EndsAlike(Calls(m, pieces, skip), Run(m, Concat(pieces), skip))
    decreases |pieces|
  {
    hide React, Step, AtLimit, Similar, Good, EndsAt, Run, EndsAlike;
    if pieces == [] {
      NothingEnds(m, k, skip);
    } else {
      var init, last := pieces[..|pieces| - 1], pieces[|pieces| - 1];
      EndInPart(m, Concat(init), last, k, skip);
      if k < |Concat(init)| {
        j := SplitEnds(m, init, k, skip);
        assert pieces[..j] == init[..j];
        EndsNotRunning(Calls(m, init, skip), Run(m, Concat(init), skip));
      } else {
        j := |init|;
        SplitInvariance(m, init, skip);
        AssertsHold(m, init, skip);
        RunKeeps(m, Concat(init), skip);
        RunEndsAlike(Calls(m, init, skip).m, Run(m, Concat(init), skip).m, last, k - |Concat(init)|, skip);
        EndsNotRunning(Run(Calls(m, init, skip).m, last, skip), Run(m, Concat(pieces), skip));
      }
    }
  }

  lemma NothingEnds(m: Machine, k: nat, skip: nat -> bool)
    ensures !EndsAt(m, [], k, skip)
  {}

  lemma EndsNotRunning(cut: Result, whole: Result)
    requires EndsAlike(cut, whole)
    ensures !cut.Running?
  {}

  // The limit does depend on the cutting.

  function Blanks(n: nat): seq<byte> { seq(n, i => '\n') }

  lemma {:induction false} RunBlanks(m: Machine, n: nat, skip: nat -> bool)
    requires m.core.state == StartReq && m.nread + n <= MAX_HEADER_SIZE
    ensures Run(m, Blanks(n), skip) == Running(m.(nread := m.nread + n, at := m.at + n))
  {
    hide React, Run, Glide, Voices;
    BlankByte(m.core, skip);
    GlideStay(m.core, Blanks(n), skip);
    GlideRun(m, Blanks(n), skip);
    assert m.whole + [] == m.whole && m.parts + [] == m.parts;
  }

  lemma BlankByte(c: Core, skip: nat -> bool)
    requires c.state == StartReq
    ensures GlideByte(c, '\n', skip) == At(c)
  {
    hide React;
    StartReaction(c, '\n', skip);
  }

  lemma {:induction false} CallBlanks(m: Machine, n: nat, skip: nat -> bool)
    requires m.core.state == StartReq && m.nread + n <= MAX_HEADER_SIZE
    ensures Call(m, Blanks(n), skip) == Running(Save(m.(nread := m.nread + n)))
  {
    hide React;
    RunBlanks(m, n, skip);
  }

  /** One byte over the limit in one call is an error, though the last part of it alone
      is not. */
  lemma {:induction false} LimitInOneCall(m: Machine, skip: nat -> bool)
    requires Initial(m) && m.core.kind.Request?
    ensures Call(m, Blanks(256) + Blanks(81665), skip).Failed?
    ensures Call(m, Blanks(81665), skip).Running? && Call(m, Blanks(81920), skip).Running?
  {
    hide React;
    var all := Blanks(MAX_HEADER_SIZE + 1);
    assert Blanks(256) + Blanks(81665) == all;
    assert all[..|all| - 1] == Blanks(MAX_HEADER_SIZE);
    RunBlanks(m, MAX_HEADER_SIZE, skip);
    CallBlanks(m, 81665, skip);
    CallBlanks(m, 81920, skip);
  }

  /** Cut after 256 bytes, the stream of LimitInOneCall is consumed: the stored counter
      is back at zero there.  The limit is the one thing that depends on the cutting. */
  lemma {:induction false} LimitWhenCut(m: Machine, skip: nat -> bool)
    requires Initial(m) && m.core.kind.Request?
    ensures Call(m, Blanks(256), skip) == Running(m)
  {
    hide React;
    CounterForgets(m);
    CallBlanks(m, 256, skip);
  }

  lemma CounterForgets(m: Machine)
    requires Initial(m)
    ensures Save(m.(nread := m.nread + 256)) == m
  {}
}
