/** Classes of bytes as the grammar has them (section 2.2 of RFC 2616), and the parser's tables
    for them. */
module HttpBytes {
  import opened HttpModel

  predicate IsLetter(b: byte) { 'a' <= b <= 'z' || 'A' <= b <= 'Z' }

  predicate IsNumeral(b: byte) { '0' <= b <= '9' }

  function NumeralValue(b: byte): nat
    requires IsNumeral(b)
  {
    b as int - 48
  }

  function ToLower(b: byte): byte { if 'A' <= b <= 'Z' then (b as int + 32) as char else b }

  predicate IsHex(b: byte) { IsNumeral(b) || 'A' <= b <= 'F' || 'a' <= b <= 'f' }

  function HexDigit(b: byte): (d: nat)
    requires IsHex(b)
    ensures d < 16
  {
    if IsNumeral(b) then b as int - 48 else if b <= 'F' then b as int - 55 else b as int - 87
  }

  /** A byte that the parser reads as a digit of a chunk size: one of the upper half of the
      byte range, for which its table has no entry, counts as a zero. */
  predicate SizeByte(b: byte) { IsHex(b) || b as int >= 128 }

  function SizeDigit(b: byte): (d: nat)
    requires SizeByte(b)
    ensures d < 16
  {
    if IsHex(b) then HexDigit(b) else 0
  }

  /** A visible character but for the two marks of a URL. */
  predicate UrlByte(b: byte) { 33 <= b as int <= 126 && b != '#' && b != '?' }

  /** A byte of a header name: of a token, or one of four more that the parser lets through. */
  predicate NameByte(b: byte) { IsLetter(b) || IsNumeral(b) || b in "!#$%&'*+-.^_`|~" || b in " \"/}" }

  lemma NumeralTable(b: byte)
    ensures IsDigit(b) <==> IsNumeral(b)
    ensures IsNumeral(b) ==> DigitValue(b) == NumeralValue(b)
  {}

  lemma UrlTable(b: byte)
    ensures NormalUrlChar(b) <==> UrlByte(b)
  {}

  lemma HostTable(b: byte)
    ensures IsAlpha(b) <==> IsLetter(b)
    ensures IsDigit(b) <==> IsNumeral(b)
  {}

  lemma NameTable(b: byte)
    ensures Token(b) == if NameByte(b) then ToLower(b) else '\0'
    ensures NameByte(b) ==> ToLower(b) != '\0' && b != '\r' && b != '\n' && b != ':'
  {
    var extra, separators := "!#$%&'*+-.^_`|~ \"/}", "(),:;<=>?@[\\]{";
    assert forall i :: 0 <= i < |extra| ==> extra[i] !in separators;
    if !IsLetter(b) && !IsNumeral(b) && ' ' <= b <= '~' { assert b in extra || b in separators; }
  }

  /** The tables are these classes, and nothing else. */
  lemma TablesAreClasses(b: byte)
    ensures IsAlpha(b) <==> IsLetter(b)
    ensures IsDigit(b) <==> IsNumeral(b)
    ensures IsNumeral(b) ==> DigitValue(b) == NumeralValue(b)
    ensures NormalUrlChar(b) <==> UrlByte(b)
    ensures Token(b) == if NameByte(b) then ToLower(b) else '\0'
    ensures UnHex(b) == if SizeByte(b) then SizeDigit(b) else -1
  {
    hide Token, NameByte;
    NameTable(b);
  }
}
