/** The client of the parser: a stream handed over as it arrives. */
module HttpFeed {
  import opened HttpModel
  import opened HttpRun
  import opened HttpInvariant
  import opened HttpSplit
  import opened HttpParserObject

  /** Calls http_parser_execute on each piece until one is not consumed.  If one call
      would have consumed the whole stream, every piece is consumed and the parser, with
      all its callbacks have heard, ends as after that one call. */
  method Feed(parser: HttpParser, pieces: seq<seq<byte>>) returns (consumed: bool)
    requires Good(parser.AsRun()) && InWords(parser.AsRun())
    requires forall i :: 0 <= i < |pieces| ==> pieces[i] != []
    modifies parser
    ensures var m, skip := old(parser.AsRun()), parser.skip;
            && (consumed <==> Calls(m, pieces, skip).Running?)
            && (consumed ==> Calls(m, pieces, skip) == Running(parser.AsRun()))
    ensures var m, skip := old(parser.AsRun()), parser.skip;
            Run(m, Concat(pieces), skip).Running? ==>
              consumed && (pieces != [] ==> Call(m, Concat(pieces), skip) == Running(parser.AsRun()))
  {
    hide React, Run, Good, InWords, Concat;
    ghost var m := parser.AsRun();
    if Run(m, Concat(pieces), parser.skip).Running? {
      SplitInvariance(m, pieces, parser.skip);
    }
    assert pieces[..0] == [];
    for i := 0 to |pieces|
      invariant Calls(m, pieces[..i], parser.skip) == Running(parser.AsRun()) && InWords(parser.AsRun())
    {
      var n, v := parser.Execute(pieces[i]);
      assert pieces[..i + 1][..i] == pieces[..i];
      if v != Proceed {
        assert pieces == pieces[..i + 1] + pieces[i + 1..];
        CallsAppend(m, pieces[..i + 1], pieces[i + 1..], parser.skip);
        return false;
      }
    }
    assert pieces[..|pieces|] == pieces;
    consumed := true;
  }
}
