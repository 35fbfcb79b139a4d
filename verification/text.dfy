/** The few string operations the source leans on: split, decimal numbers, and regular expressions. */
module Text {
  import opened Wrappers

  // ------------------------------------------------------------------ split

  function FirstOf(s: string, c: char): (r: Option<nat>)
    ensures r.None? ==> c !in s
    ensures r.Some? ==> r.value < |s| && s[r.value] == c && c !in s[..r.value]
  {
    if s == [] then None
    else if s[0] == c then Some(0)
    else match FirstOf(s[1..], c)
      case None => None
      case Some(i) => assert s[..i + 1] == [s[0]] + s[1..][..i]; Some(i + 1)
  }

  function LastOf(s: string, c: char): (r: Option<nat>)
    ensures r.None? ==> c !in s
    ensures r.Some? ==> r.value < |s| && s[r.value] == c && c !in s[r.value + 1..]
  {
    if s == [] then None
    else if s[|s| - 1] == c then Some(|s| - 1)
    else
      var t := s[..|s| - 1];
      assert s == t + [s[|s| - 1]];
      match LastOf(t, c)
      case None => None
      case Some(i) => assert s[i + 1..] == t[i + 1..] + [s[|s| - 1]]; Some(i)
  }

  /** str.split(c) */
  function Split(s: string, c: char): (r: seq<string>)
    ensures |r| >= 1
    decreases |s|
  {
    match FirstOf(s, c)
    case None => [s]
    case Some(i) => [s[..i]] + Split(s[i + 1..], c)
  }

  lemma FirstAt(a: string, c: char, b: string)
    requires c !in a
    ensures FirstOf(a + [c] + b, c) == Some(|a|)
  {
    var s := a + [c] + b;
    assert s[|a|] == c;
    var i := FirstOf(s, c).value;
    assert forall j :: 0 <= j < |a| ==> s[j] in a;
    assert forall j :: 0 <= j < i ==> s[j] in s[..i];
  }

  lemma LastAt(a: string, c: char, b: string)
    requires c !in b
    ensures LastOf(a + [c] + b, c) == Some(|a|)
  {
    var s := a + [c] + b;
    assert s[|a|] == c;
    var i := LastOf(s, c).value;
    assert s[|a| + 1..] == b;
    assert forall j :: |a| < j < |s| ==> s[j] in s[|a| + 1..];
    assert forall j :: i < j < |s| ==> s[j] in s[i + 1..];
  }

  lemma SplitOne(a: string, c: char)
    requires c !in a
    ensures Split(a, c) == [a]
  {
  }

  lemma SplitAt(a: string, c: char, b: string)
    requires c !in a
    ensures Split(a + [c] + b, c) == [a] + Split(b, c)
  {
    FirstAt(a, c, b);
    var s := a + [c] + b;
    assert s[..|a|] == a && s[|a| + 1..] == b;
  }

  // --------------------------------------------------------------- decimals

  predicate IsDigit(c: char) { '0' <= c <= '9' }

  /** str.isdigit, over ASCII. */
  predicate IsNumber(s: string) {
    s != [] && forall i :: 0 <= i < |s| ==> IsDigit(s[i])
  }

  function DigitChar(d: nat): (c: char)
    requires d < 10
    ensures IsDigit(c) && c as int - '0' as int == d
  {
    ['0', '1', '2', '3', '4', '5', '6', '7', '8', '9'][d]
  }

  function DigitValue(c: char): (d: nat)
    requires IsDigit(c)
    ensures d < 10 && DigitChar(d) == c
  {
    c as int - '0' as int
  }

  /** "%s" of a natural number. */
  function Decimal(n: nat): (s: string)
    ensures IsNumber(s)
  {
    if n < 10 then [DigitChar(n)] else Decimal(n / 10) + [DigitChar(n % 10)]
  }

  /** int() of a string of digits. */
  function NumberOf(s: string): nat
    requires forall i :: 0 <= i < |s| ==> IsDigit(s[i])
  {
    if s == [] then 0 else 10 * NumberOf(s[..|s| - 1]) + DigitValue(s[|s| - 1])
  }

  lemma {:induction false} NumberOfDecimal(n: nat)
    ensures NumberOf(Decimal(n)) == n
  {
    if n < 10 {
      assert [DigitChar(n)][..0] == [];
    } else {
      NumberOfDecimal(n / 10);
      var s := Decimal(n);
      assert s[..|s| - 1] == Decimal(n / 10);
    }
  }

  predicate NoLeadingZero(s: string) {
    |s| > 1 ==> s[0] != '0'
  }

  lemma {:induction false} DecimalHasNoLeadingZero(n: nat)
    ensures NoLeadingZero(Decimal(n)) && (n > 0 ==> Decimal(n)[0] != '0')
  {
    if n >= 10 {
      DecimalHasNoLeadingZero(n / 10);
      assert Decimal(n)[0] == Decimal(n / 10)[0];
    }
  }

  /** A string of digits is the decimal of its value exactly when it has no leading zero. */
  lemma DecimalOfNumberIff(s: string)
    requires IsNumber(s)
    ensures Decimal(NumberOf(s)) == s <==> NoLeadingZero(s)
  {
    if NoLeadingZero(s) {
      DecimalOfNumber(s);
    } else {
      DecimalHasNoLeadingZero(NumberOf(s));
    }
  }

  lemma {:induction false} DecimalOfNumber(s: string)
    requires IsNumber(s) && NoLeadingZero(s)
    ensures Decimal(NumberOf(s)) == s
    ensures s[0] != '0' ==> NumberOf(s) > 0
    decreases |s|
  {
    hide NumberOf, Decimal;
    var t, c := s[..|s| - 1], s[|s| - 1];
    assert s == t + [c];
    if t == [] {
      OneDigit(c);
    } else {
      DecimalOfNumber(t);
      AppendDigit(t, c);
    }
  }

  lemma OneDigit(c: char)
    requires IsDigit(c)
    ensures NumberOf([c]) == DigitValue(c) && Decimal(DigitValue(c)) == [c]
  {
    assert [c][..0] == [];
  }

  lemma AppendDigit(t: string, c: char)
    requires IsNumber(t) && IsDigit(c)
    ensures NumberOf(t + [c]) == 10 * NumberOf(t) + DigitValue(c)
    ensures NumberOf(t) > 0 ==> Decimal(NumberOf(t + [c])) == Decimal(NumberOf(t)) + [c]
  {
    hide Decimal;
    assert (t + [c])[..|t|] == t;
    if NumberOf(t) > 0 { DecimalAppend(NumberOf(t), DigitValue(c)); }
  }

  lemma DecimalAppend(n: nat, d: nat)
    requires n > 0 && d < 10
    ensures Decimal(10 * n + d) == Decimal(n) + [DigitChar(d)]
  {
    TenTimes(n, d);
  }

  lemma TenTimes(n: nat, d: nat)
    requires d < 10
    ensures (10 * n + d) / 10 == n && (10 * n + d) % 10 == d
  {
  }

  // ---------------------------------------------------- regular expressions

  datatype Re = Eps | One(allowed: char -> bool) | Cat(left: Re, right: Re) | Alt(left: Re, right: Re) | Star(inner: Re)

  /** s is in the language of r. */
  ghost predicate Lang(r: Re, s: string)
    decreases r, |s|
  {
    match r
    case Eps => s == []
    case One(allowed) => |s| == 1 && allowed(s[0])
    case Cat(a, b) => exists i :: 0 <= i <= |s| && Lang(a, s[..i]) && Lang(b, s[i..])
    case Alt(a, b) => Lang(a, s) || Lang(b, s)
    case Star(a) => s == [] || exists i :: 0 < i <= |s| && Lang(a, s[..i]) && Lang(r, s[i..])
  }

  lemma LangOne(allowed: char -> bool, s: string)
    ensures Lang(One(allowed), s) <==> |s| == 1 && allowed(s[0])
  {
  }

  lemma LangCat(a: Re, b: Re, s: string) returns (i: nat)
    requires Lang(Cat(a, b), s)
    ensures i <= |s| && Lang(a, s[..i]) && Lang(b, s[i..])
  {
    i :| 0 <= i <= |s| && Lang(a, s[..i]) && Lang(b, s[i..]);
  }

  lemma CatLang(a: Re, b: Re, s: string, i: nat)
    requires i <= |s| && Lang(a, s[..i]) && Lang(b, s[i..])
    ensures Lang(Cat(a, b), s)
  {
  }

  function Plus(r: Re): Re {
    Cat(r, Star(r))
  }

  predicate All(allowed: char -> bool, s: string) {
    forall i :: 0 <= i < |s| ==> allowed(s[i])
  }

  lemma {:induction false} StarOfOne(allowed: char -> bool, s: string)
    ensures Lang(Star(One(allowed)), s) <==> All(allowed, s)
    decreases |s|
  {
    if s != [] {
      StarOfOne(allowed, s[1..]);
      if Lang(Star(One(allowed)), s) {
        var i :| 0 < i <= |s| && Lang(One(allowed), s[..i]) && Lang(Star(One(allowed)), s[i..]);
        assert s == [s[0]] + s[1..];
      }
      if All(allowed, s) {
        assert Lang(One(allowed), s[..1]);
      }
    }
  }

  lemma PlusOfOne(allowed: char -> bool, s: string)
    ensures Lang(Plus(One(allowed)), s) <==> s != [] && All(allowed, s)
  {
    if Lang(Plus(One(allowed)), s) {
      var i :| 0 <= i <= |s| && Lang(One(allowed), s[..i]) && Lang(Star(One(allowed)), s[i..]);
      StarOfOne(allowed, s[1..]);
      assert s == [s[0]] + s[1..];
    }
    if s != [] && All(allowed, s) {
      StarOfOne(allowed, s[1..]);
      assert Lang(One(allowed), s[..1]);
    }
  }
}
