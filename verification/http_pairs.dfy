/** The header callbacks of a client that pairs names with values as the parser's own test
    program does. */
module HttpPairs {
  import opened HttpModel
  import opened HttpRun
  import opened HttpLines
  import opened HttpMessages

  /** The headers collected, and whether the last callback was one for a name. */
  datatype Collected = Collected(headers: seq<(seq<byte>, seq<byte>)>, inName: bool) {
    /** A byte of a name opens a header unless the last callback was for a name too. */
    function TakeName(b: byte): Collected {
      if inName && headers != [] then
        var h := headers[|headers| - 1];
        Collected(headers[..|headers| - 1] + [(h.0 + [b], h.1)], true)
      else Collected(headers + [([b], [])], true)
    }

    function TakeValue(b: byte): Collected {
      if headers == [] then Collected([], false)
      else
        var h := headers[|headers| - 1];
        Collected(headers[..|headers| - 1] + [(h.0, h.1 + [b])], false)
    }
  }

  function Take(c: Collected, item: Item): Collected {
    match item
    case Octet(k, b) => if k.FieldData? then c.TakeName(b) else if k.ValueData? then c.TakeValue(b) else c
    case Blank => c.(inName := false)
    case Event(_) => c
  }

  function Collect(c: Collected, items: seq<Item>): Collected {
    if items == [] then c else Take(Collect(c, items[..|items| - 1]), items[|items| - 1])
  }

  lemma {:induction false} CollectAppend(c: Collected, a: seq<Item>, b: seq<Item>)
    ensures Collect(c, a + b) == Collect(Collect(c, a), b)
    decreases |b|
  {
    hide Take;
    if b == [] {
      assert a + b == a;
    } else {
      assert (a + b)[..|a + b| - 1] == a + b[..|b| - 1];
      CollectAppend(c, a, b[..|b| - 1]);
    }
  }

  lemma {:induction false} CollectName(c: Collected, name: seq<byte>)
    requires !c.inName && name != []
    ensures Collect(c, Octets(FieldData, name)) == Collected(c.headers + [(name, [])], true)
    decreases |name|
  {
    var init, b := name[..|name| - 1], name[|name| - 1];
    assert Octets(FieldData, name)[..|name| - 1] == Octets(FieldData, init) && init + [b] == name;
    if init != [] {
      CollectName(c, init);
      assert (c.headers + [(init, [])])[..|c.headers|] == c.headers;
    } else {
      assert Octets(FieldData, init) == [];
    }
  }

  lemma {:induction false} CollectValue(c: Collected, name: seq<byte>, value: seq<byte>)
    requires value != []
    ensures Collect(Collected(c.headers + [(name, [])], true), Octets(ValueData, value))
            == Collected(c.headers + [(name, value)], false)
    decreases |value|
  {
    var init, b := value[..|value| - 1], value[|value| - 1];
    assert Octets(ValueData, value)[..|value| - 1] == Octets(ValueData, init) && init + [b] == value;
    assert (c.headers + [(name, init)])[..|c.headers|] == c.headers;
    if init != [] {
      CollectValue(c, name, init);
    } else {
      assert Octets(ValueData, init) == [];
    }
  }

  lemma {:induction false} CollectHeader(c: Collected, h: Header)
    requires !c.inName && h.name != []
    ensures Collect(c, h.Heard()) == Collected(c.headers + [(h.name, TrimLeft(h.value))], false)
  {
    var v := TrimLeft(h.value);
    CollectAppend(c, Octets(FieldData, h.name), ValueItems(v));
    CollectName(c, h.name);
    if v != [] {
      CollectValue(c, h.name, v);
    } else {
      CollectAppend(Collected(c.headers + [(h.name, [])], true), [], [Blank]);
      assert [] + [Blank] == [Blank];
    }
  }

  /** The headers of a block, leading spaces of their values gone. */
  function PairsOf(hs: seq<Header>): seq<(seq<byte>, seq<byte>)> {
    if hs == [] then [] else [(hs[0].name, TrimLeft(hs[0].value))] + PairsOf(hs[1..])
  }

  lemma PairsJoin(before: seq<(seq<byte>, seq<byte>)>, hs: seq<Header>)
    requires hs != []
    ensures before + [(hs[0].name, TrimLeft(hs[0].value))] + PairsOf(hs[1..]) == before + PairsOf(hs)
  {}

  /** What is heard of a header block gives back every name with its value, the empty
      values among them, in order. */
  lemma {:induction false} HeadersCollected(c: Collected, hs: seq<Header>)
    requires !c.inName && forall h :: h in hs ==> h.Valid()
    ensures Collect(c, BlockHeard(hs)) == Collected(c.headers + PairsOf(hs), false)
    decreases |hs|
  {
    hide Take, TrimLeft, Octets, ValueItems;
    if hs == [] {
      assert c.headers + [] == c.headers;
    } else {
      assert hs[0] in hs && forall h :: h in hs[1..] ==> h in hs;
      var d := Collected(c.headers + [(hs[0].name, TrimLeft(hs[0].value))], false);
      CollectHeader(c, hs[0]);
      CollectAppend(c, hs[0].Heard(), BlockHeard(hs[1..]));
      HeadersCollected(d, hs[1..]);
      PairsJoin(c.headers, hs);
    }
  }
}
