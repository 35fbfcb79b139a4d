/** quote of juju/lib/under.py: bytes to names of letters, digits, '.', '-' and '_'. */
module Under {
  import opened Wrappers

  newtype byte = x: int | 0 <= x < 256

  /** _SAFE_CHARS */
  predicate Safe(b: byte) {
    65 <= b <= 90 || 97 <= b <= 122 || 48 <= b <= 57 || b == 46 || b == 45
  }

  const UNDERSCORE: byte := 95

  function HexDigit(d: int): (c: byte)
    requires 0 <= d < 16
    ensures Safe(c)
  {
    if d < 10 then (48 + d) as byte else (87 + d) as byte
  }

  function HexValue(c: byte): (d: Option<int>)
    ensures d.Some? ==> 0 <= d.value < 16
  {
    if 48 <= c <= 57 then Some(c as int - 48) else if 97 <= c <= 102 then Some(c as int - 87) else None
  }

  /** The character table: a safe character stands for itself, any other is "_%02x_". */
  function QuoteChar(b: byte): (q: seq<byte>)
    ensures |q| == 1 || |q| == 4
  {
    if Safe(b) then [b] else [UNDERSCORE, HexDigit(b as int / 16), HexDigit(b as int % 16), UNDERSCORE]
  }

  function Quote(s: seq<byte>): seq<byte> {
    if s == [] then [] else QuoteChar(s[0]) + Quote(s[1..])
  }

  /** Reads a quoted name back; None for what quote cannot have produced. */
  function Unquote(q: seq<byte>): Option<seq<byte>>
    decreases |q|
  {
    if q == [] then Some([])
    else if Safe(q[0]) then
      match Unquote(q[1..])
      case None => None
      case Some(rest) => Some([q[0]] + rest)
    else if q[0] == UNDERSCORE && |q| >= 4 && q[3] == UNDERSCORE && HexValue(q[1]).Some? && HexValue(q[2]).Some? then
      match Unquote(q[4..])
      case None => None
      case Some(rest) => Some([(HexValue(q[1]).value * 16 + HexValue(q[2]).value) as byte] + rest)
    else None
  }

  lemma HexRoundTrip(b: byte)
    ensures var hi, lo := HexValue(HexDigit(b as int / 16)), HexValue(HexDigit(b as int % 16));
            hi.Some? && lo.Some? && hi.value * 16 + lo.value == b as int
  {
  }

  /** quote has a left inverse on all byte strings. */
  lemma {:induction false} UnquoteOfQuote(s: seq<byte>)
    ensures Unquote(Quote(s)) == Some(s)
  {
    if s != [] {
      var q := QuoteChar(s[0]);
      UnquoteOfQuote(s[1..]);
      assert Quote(s)[|q|..] == Quote(s[1..]);
      if !Safe(s[0]) {
        HexRoundTrip(s[0]);
      }
      assert s == [s[0]] + s[1..];
    }
  }

  /** So different names never collide. */
  lemma QuoteIsInjective(s: seq<byte>, t: seq<byte>)
    requires Quote(s) == Quote(t)
    ensures s == t
  {
    UnquoteOfQuote(s);
    UnquoteOfQuote(t);
  }

  /** A letter, a digit, a dot or a dash. */
  predicate IsNameByte(b: byte) {
    var c := b as int;
    || 'A' as int <= c <= 'Z' as int || 'a' as int <= c <= 'z' as int || '0' as int <= c <= '9' as int
    || c == '.' as int || c == '-' as int
  }

  /** Only letters, digits, '.', '-' and '_' come out; and a string of the first four is left alone, no other. */
  lemma {:induction false} QuoteAlphabet(s: seq<byte>)
    ensures forall i :: 0 <= i < |Quote(s)| ==> IsNameByte(Quote(s)[i]) || Quote(s)[i] as int == '_' as int
    ensures Quote(s) == s <==> forall i :: 0 <= i < |s| ==> IsNameByte(s[i])
    ensures |Quote(s)| >= |s|
  {
    if s != [] {
      QuoteAlphabet(s[1..]);
      assert s == [s[0]] + s[1..];
      if Safe(s[0]) {
        assert Quote(s)[1..] == Quote(s[1..]);
      }
    }
  }

  const HEX := "0123456789abcdef"

  /** Any other byte is written between underscores, as two lower-case hexadecimal digits; and strings are
      quoted byte by byte. */
  lemma {:induction false} QuoteSpells(a: seq<byte>, b: byte, c: seq<byte>)
    ensures Quote([b]) == if IsNameByte(b) then [b]
                          else ['_' as int as byte,
                                HEX[b as int / 16] as int as byte,
                                HEX[b as int % 16] as int as byte,
                                '_' as int as byte]
    ensures Quote(a + [b] + c) == Quote(a) + Quote([b]) + Quote(c)
  {
    HexIsLower(b as int / 16);
    HexIsLower(b as int % 16);
    assert [b][1..] == [];
    QuoteConcat(a + [b], c);
    QuoteConcat(a, [b]);
  }

  lemma HexIsLower(d: int)
    requires 0 <= d < 16
    ensures 0 <= HEX[d] as int < 256 && HexDigit(d) == HEX[d] as int as byte
  {
    assert HEX == ['0', '1', '2', '3', '4', '5', '6', '7', '8', '9', 'a', 'b', 'c', 'd', 'e', 'f'];
  }

  lemma {:induction false} QuoteConcat(a: seq<byte>, b: seq<byte>)
    ensures Quote(a + b) == Quote(a) + Quote(b)
  {
    if a == [] {
      assert a + b == b;
    } else {
      assert (a + b)[1..] == a[1..] + b;
      QuoteConcat(a[1..], b);
    }
  }
}
