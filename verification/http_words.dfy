/** What the parser takes for a method: every method name, and the words in which CONNECT or
    MKCOL swallow what fits no name. */
module HttpWords {
  import opened HttpModel
  import opened HttpRun
  import opened HttpGlide
  import opened HttpRequestLine

  /** The bytes of a word so far, while the candidate is v. */
  predicate SoFar(w: seq<byte>, v: Method) {
    && w != [] && '\0' !in w
    && match v
       case CONNECT => w[0] == 'C' && (|w| > 1 ==> w[1] != 'H') && (|w| > 2 ==> w[2] != 'P')
       case COPY => 3 <= |w| <= 4 && w[0] == 'C' && w[1] != 'H' && w[2..] == "PY"[..|w| - 2]
       case MKCOL =>
         w[0] == 'M' && (|w| > 1 ==> w[1] != 'O' && w[1] != 'E' && w[1] != '-') && (|w| > 2 ==> w[2] != 'A')
       case MKACTIVITY =>
         && 3 <= |w| <= 10 && w[0] == 'M' && w[1] != 'O' && w[1] != 'E' && w[1] != '-'
         && w[2..] == "ACTIVITY"[..|w| - 2]
       case _ => |w| <= |Name(v)| && w == Name(v)[..|w|]
  }

  /** The word is taken for the method: it is its name, or it is as long as CONNECT or MKCOL
      and turned into no other name, or its second byte is none that turns it into another
      and the rest is that of COPY or MKACTIVITY. */
  predicate Spells(w: seq<byte>, v: Method) {
    || w == Name(v)
    || (v == CONNECT && |w| == 7 && w[0] == 'C' && w[1] != 'H' && w[2] != 'P' && '\0' !in w)
    || (v == COPY && |w| == 4 && w[0] == 'C' && w[1] != 'H' && w[2..] == "PY" && '\0' !in w)
    || (v == MKCOL && |w| == 5 && w[0] == 'M' && w[1] != 'O' && w[1] != 'E' && w[1] != '-' && w[2] != 'A' && '\0' !in w)
    || (v == MKACTIVITY && |w| == 10 && w[0] == 'M' && w[1] != 'O' && w[1] != 'E' && w[1] != '-'
        && w[2..] == "ACTIVITY" && '\0' !in w)
  }

  lemma WholeWord(w: seq<byte>, v: Method)
    requires SoFar(w, v) && |w| == |Name(v)|
    ensures Spells(w, v)
  {
    if !v.CONNECT? && !v.COPY? && !v.MKCOL? && !v.MKACTIVITY? { assert Name(v)[..|w|] == Name(v); }
  }

  lemma FirstOfWord(b: byte)
    ensures MethodOfFirst(b).0 ==> SoFar([b], MethodOfFirst(b).1)
  {}

  predicate Swallows(v: Method) { v.CONNECT? || v.COPY? || v.MKCOL? || v.MKACTIVITY? }

  lemma LiteralGrows(w: seq<byte>, v: Method, b: byte)
    requires SoFar(w, v) && b != '\0' && LiteralAt(MethodName(v), |w|, b)
    ensures SoFar(w + [b], v)
  {
    if Swallows(v) { SwallowedLiteral(w, v, b); } else { PlainLiteral(w, v, b); }
  }

  lemma SwallowedLiteral(w: seq<byte>, v: Method, b: byte)
    requires Swallows(v) && SoFar(w, v) && b != '\0' && LiteralAt(MethodName(v), |w|, b)
    ensures SoFar(w + [b], v)
  {
    hide Name;
    assert MethodName(CONNECT) == "CONNECT" && MethodName(COPY) == "COPY" && MethodName(MKCOL) == "MKCOL"
           && MethodName(MKACTIVITY) == "MKACTIVITY";
    hide MethodName;
    assert |w| > 1 ==> (w + [b])[2..] == w[2..] + [b];
  }

  lemma PlainLiteral(w: seq<byte>, v: Method, b: byte)
    requires !Swallows(v) && SoFar(w, v) && b != '\0' && LiteralAt(MethodName(v), |w|, b)
    ensures SoFar(w + [b], v)
  {
    assert Name(v)[|w|] == b;
    hide MethodName, Name;
    assert Name(v)[..|w| + 1] == Name(v)[..|w|] + [Name(v)[|w|]];
  }

  lemma RedirectGrows(w: seq<byte>, v: Method, b: byte)
    requires SoFar(w, v) && b != '\0' && |w| <= |MethodName(v)| && !LiteralAt(MethodName(v), |w|, b)
    requires Redirect(v, |w|, b).0
    ensures SoFar(w + [b], Redirect(v, |w|, b).1)
  {
    if v.CONNECT? || v.MKCOL? { SwallowedGrows(w, v, b); } else { PlainRedirect(w, v, b); }
  }

  lemma SwallowedGrows(w: seq<byte>, v: Method, b: byte)
    requires v.CONNECT? || v.MKCOL?
    requires SoFar(w, v) && b != '\0' && !LiteralAt(MethodName(v), |w|, b)
    ensures SoFar(w + [b], Redirect(v, |w|, b).1)
  {
    hide Plain;
    var r := Redirect(v, |w|, b).1;
    if r == v {
      hide MethodName, Name;
    } else {
      assert |w| <= 2;
    }
  }

  lemma PlainRedirect(w: seq<byte>, v: Method, b: byte)
    requires !v.CONNECT? && !v.MKCOL? && SoFar(w, v) && b != '\0' && Redirect(v, |w|, b).0
    ensures SoFar(w + [b], Redirect(v, |w|, b).1)
  {
    hide Plain;
  }

  /** In the method, after a word's bytes. */
  predicate InWord(c: Core, w: seq<byte>) { c.state.ReqMethod? && c.index == |w| && SoFar(w, c.verb) }

  lemma WordAdvances(c: Core, w: seq<byte>, b: byte, d: Core)
    requires InWord(c, w) && OnMethod(c, b) == Go(d, [], false)
    ensures if d.state.SpacesBeforeUrl? then b == ' ' && Spells(w, c.verb) && d.verb == c.verb && d.kind == c.kind
            else InWord(d, w + [b]) && d.kind == c.kind
  {
    hide SoFar, MethodName, Redirect;
    if b == ' ' && c.index == |MethodName(c.verb)| {
      WholeWord(w, c.verb);
    } else if LiteralAt(MethodName(c.verb), c.index, b) {
      LiteralGrows(w, c.verb, b);
    } else {
      RedirectGrows(w, c.verb, b);
    }
  }

  // Every such word is taken.

  /** The candidate takes each byte of the word. */
  lemma SpelledTakes(w: seq<byte>, v: Method, n: nat)
    requires Spells(w, v) && 1 <= n < |w|
    ensures TakesByte(v, n, w[n]) && w[n] != '\0'
  {
    if w == Name(v) {
      NameIsPlain(v);
      CandidateTakes(v, n);
    } else {
      SwallowedTakes(w, v, n);
    }
  }

  lemma SwallowedTakes(w: seq<byte>, v: Method, n: nat)
    requires Spells(w, v) && w != Name(v) && 1 <= n < |w|
    ensures TakesByte(v, n, w[n]) && w[n] != '\0'
  {
    hide Name;
    assert w[n] in w && (n >= 2 ==> w[n] == w[2..][n - 2]);
  }

  lemma FirstOfSpelled(w: seq<byte>, v: Method)
    requires Spells(w, v)
    ensures |w| == |Name(v)| && w[0] == Name(v)[0]
  {}

  lemma {:induction false} WordStepGlides(c: Core, w: seq<byte>, v: Method, n: nat, skip: nat -> bool)
    requires Spells(w, v) && 1 <= n < |w|
    ensures Glides(InMethod(c, v, n), [w[n]], InMethod(c, v, n + 1), [], [], skip)
  {
    hide React, Glides, OnMethod, Candidate, Redirect, MethodName, Spells;
    SpelledTakes(w, v, n);
    MethodReaction(InMethod(c, v, n), w[n], skip);
    MethodTakes(InMethod(c, v, n), w[n], Candidate(v, n + 1));
    QuietByteGlides(InMethod(c, v, n), w[n], InMethod(c, v, n + 1), skip);
  }

  lemma {:induction false} WordGlides(c: Core, w: seq<byte>, v: Method, n: nat, skip: nat -> bool)
    requires Spells(w, v) && 1 <= n <= |w|
    ensures Glides(InMethod(c, v, 1), w[1..n], InMethod(c, v, n), [], [], skip)
  {
    hide React, Glides, MethodName, Candidate, Spells;
    if n == 1 {
      assert w[1..n] == [];
      EmptyGlides(InMethod(c, v, 1), skip);
    } else {
      assert w[1..n] == w[1..n - 1] + [w[n - 1]];
      WordGlides(c, w, v, n - 1, skip);
      WordStepGlides(c, w, v, n - 1, skip);
      GlidesOnSilently(InMethod(c, v, 1), w[1..n - 1], InMethod(c, v, n - 1), [], [], [w[n - 1]],
                       InMethod(c, v, n), skip);
    }
  }

  /** The rest of a word, and the blank after it. */
  lemma {:induction false} WordRestGlides(c: Core, w: seq<byte>, v: Method, skip: nat -> bool)
    requires Spells(w, v)
    ensures w != []
    ensures Glides(InMethod(c, v, 1), w[1..] + " ",
                   c.(state := SpacesBeforeUrl, verb := v, index := |MethodName(v)| + 1), [], [], skip)
  {
    hide React, Glides, MethodName, Candidate;
    FirstOfSpelled(w, v);
    hide Spells;
    WordGlides(c, w, v, |w|, skip);
    assert w[1..|w|] == w[1..];
    CandidateEnds(v);
    var x := InMethod(c, v, |w|);
    MethodSpaceGlides(x, v, skip);
    GlidesOnSilently(InMethod(c, v, 1), w[1..], x, [], [], " ",
                     c.(state := SpacesBeforeUrl, verb := v, index := |MethodName(v)| + 1), skip);
  }
}
