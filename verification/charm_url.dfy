/** CharmURL and CharmCollection of juju/charm/url.py. */
module CharmUrl {
  import opened Wrappers
  import opened Text

  datatype CharmCollection = CharmCollection(schema: string, user: Option<string>, series: string)
  datatype CharmURL = CharmURL(collection: CharmCollection, name: string, revision: Option<nat>)

  datatype Error = NoSchema | InvalidSchema | InvalidForm | UsersNotAllowed | InvalidUser | NoSeries
                 | InvalidSeries | InvalidName | UserNeedsSchema

  // ---------------------------------------------------- the three expressions

  predicate Lower(c: char) { 'a' <= c <= 'z' }
  predicate LowerOrDigit(c: char) { Lower(c) || IsDigit(c) }
  predicate LowerOrDash(c: char) { Lower(c) || c == '-' }
  predicate UserChar(c: char) { LowerOrDigit(c) || 'A' <= c <= 'Z' || c == '+' || c == '.' || c == '-' }
  predicate Dash(c: char) { c == '-' }

  /** _USER_RE */
  function UserRe(): Re {
    Cat(One(LowerOrDigit), Plus(One(UserChar)))
  }

  /** _SERIES_RE */
  function SeriesRe(): Re {
    Cat(Plus(One(Lower)), Alt(Eps, Cat(Plus(One(LowerOrDash)), One(Lower))))
  }

  /** The group of _NAME_RE: a dash, then letters and digits with at least one letter among them. */
  function SegmentRe(): Re {
    Cat(One(Dash), Cat(Star(One(LowerOrDigit)), Cat(One(Lower), Star(One(LowerOrDigit)))))
  }

  /** _NAME_RE */
  function NameRe(): Re {
    Cat(One(Lower), Cat(Star(One(LowerOrDigit)), Star(SegmentRe())))
  }

  predicate IsUser(s: string) {
    |s| >= 2 && LowerOrDigit(s[0]) && All(UserChar, s[1..])
  }

  predicate IsSeries(s: string) {
    s != [] && All(LowerOrDash, s) && Lower(s[0]) && Lower(s[|s| - 1])
  }

  predicate HasLetter(s: string) {
    exists i :: 0 <= i < |s| && Lower(s[i])
  }

  predicate IsWord(s: string) {
    All(LowerOrDigit, s) && HasLetter(s)
  }

  /** Dash-separated words with a letter each; the first starts with a letter. */
  predicate IsName(s: string) {
    s != [] && Lower(s[0]) && IsWords(s)
  }

  predicate IsWords(s: string)
    decreases |s|
  {
    match FirstOf(s, '-')
    case None => IsWord(s)
    case Some(i) => IsWord(s[..i]) && IsWords(s[i + 1..])
  }

  lemma UserMatches(s: string)
    ensures Lang(UserRe(), s) <==> IsUser(s)
  {
    hide Lang;
    if Lang(UserRe(), s) {
      var i := LangCat(One(LowerOrDigit), Plus(One(UserChar)), s);
      LangOne(LowerOrDigit, s[..i]);
      PlusOfOne(UserChar, s[i..]);
    }
    if IsUser(s) {
      LangOne(LowerOrDigit, s[..1]);
      PlusOfOne(UserChar, s[1..]);
      CatLang(One(LowerOrDigit), Plus(One(UserChar)), s, 1);
    }
  }

  /** The optional end of a series. */
  function SeriesTailRe(): Re {
    Cat(Plus(One(LowerOrDash)), One(Lower))
  }

  lemma SeriesTail(t: string)
    ensures Lang(Alt(Eps, SeriesTailRe()), t) <==> t == [] || Lang(SeriesTailRe(), t)
  {
  }

  lemma SeriesTailMatches(t: string)
    ensures Lang(SeriesTailRe(), t) <==> |t| >= 2 && All(LowerOrDash, t) && Lower(t[|t| - 1])
  {
    hide Lang;
    if Lang(SeriesTailRe(), t) {
      var j := LangCat(Plus(One(LowerOrDash)), One(Lower), t);
      PlusOfOne(LowerOrDash, t[..j]);
      LangOne(Lower, t[j..]);
      assert t == t[..j] + t[j..];
    }
    if |t| >= 2 && All(LowerOrDash, t) && Lower(t[|t| - 1]) {
      PlusOfOne(LowerOrDash, t[..|t| - 1]);
      LangOne(Lower, t[|t| - 1..]);
      CatLang(Plus(One(LowerOrDash)), One(Lower), t, |t| - 1);
    }
  }

  lemma SeriesMatches(s: string)
    ensures Lang(SeriesRe(), s) <==> IsSeries(s)
  {
    hide Lang;
    var tail := Alt(Eps, SeriesTailRe());
    if Lang(SeriesRe(), s) {
      var i := LangCat(Plus(One(Lower)), tail, s);
      PlusOfOne(Lower, s[..i]);
      SeriesTail(s[i..]);
      SeriesTailMatches(s[i..]);
      assert s == s[..i] + s[i..];
    }
    if IsSeries(s) {
      var i := if All(Lower, s) then |s| else 1;
      PlusOfOne(Lower, s[..i]);
      SeriesTail(s[i..]);
      SeriesTailMatches(s[i..]);
      assert s[..|s|] == s;
      CatLang(Plus(One(Lower)), tail, s, i);
    }
  }

  /** What follows the first word of a name: dash-led words. */
  predicate IsTail(s: string) {
    s == [] || (s[0] == '-' && IsWords(s[1..]))
  }

  function WordRe(): Re {
    Cat(Star(One(LowerOrDigit)), LetterRe())
  }

  function LetterRe(): Re {
    Cat(One(Lower), Star(One(LowerOrDigit)))
  }

  lemma LetterMatches(t: string)
    ensures Lang(LetterRe(), t) <==> t != [] && Lower(t[0]) && All(LowerOrDigit, t)
  {
    hide Lang;
    if Lang(LetterRe(), t) {
      var j := LangCat(One(Lower), Star(One(LowerOrDigit)), t);
      LangOne(Lower, t[..j]);
      StarOfOne(LowerOrDigit, t[j..]);
      assert t == t[..j] + t[j..];
    }
    if t != [] && Lower(t[0]) && All(LowerOrDigit, t) {
      LangOne(Lower, t[..1]);
      StarOfOne(LowerOrDigit, t[1..]);
      CatLang(One(Lower), Star(One(LowerOrDigit)), t, 1);
    }
  }

  lemma WordMatches(s: string)
    ensures Lang(WordRe(), s) <==> IsWord(s)
  {
    hide Lang;
    if Lang(WordRe(), s) {
      var i := LangCat(Star(One(LowerOrDigit)), LetterRe(), s);
      StarOfOne(LowerOrDigit, s[..i]);
      LetterMatches(s[i..]);
      WordAround(s, i);
    }
    if IsWord(s) {
      var i :| 0 <= i < |s| && Lower(s[i]);
      StarOfOne(LowerOrDigit, s[..i]);
      LetterMatches(s[i..]);
      CatLang(Star(One(LowerOrDigit)), LetterRe(), s, i);
    }
  }

  lemma WordAround(s: string, i: nat)
    requires i < |s| && Lower(s[i]) && All(LowerOrDigit, s[..i]) && All(LowerOrDigit, s[i..])
    ensures IsWord(s)
  {
    assert s == s[..i] + s[i..];
  }

  lemma SegmentMatches(s: string)
    ensures Lang(SegmentRe(), s) <==> s != [] && s[0] == '-' && IsWord(s[1..])
  {
    hide Lang;
    if Lang(SegmentRe(), s) {
      var i := LangCat(One(Dash), WordRe(), s);
      LangOne(Dash, s[..i]);
      WordMatches(s[i..]);
    }
    if s != [] && s[0] == '-' && IsWord(s[1..]) {
      LangOne(Dash, s[..1]);
      WordMatches(s[1..]);
      CatLang(One(Dash), WordRe(), s, 1);
    }
  }

  lemma NoDashInWord(s: string)
    requires All(LowerOrDigit, s)
    ensures '-' !in s
  {
  }

  /** A word and, behind a dash, more words. */
  lemma WordsCons(w: string, rest: string)
    requires All(LowerOrDigit, w)
    ensures IsWords(w + ['-'] + rest) <==> IsWord(w) && IsWords(rest)
  {
    NoDashInWord(w);
    FirstAt(w, '-', rest);
    var s := w + ['-'] + rest;
    assert s[..|w|] == w && s[|w| + 1..] == rest;
  }

  lemma SingleWord(w: string)
    requires All(LowerOrDigit, w)
    ensures IsWords(w) <==> IsWord(w)
  {
    NoDashInWord(w);
  }

  lemma StarLang(a: Re, s: string) returns (i: nat)
    requires s != [] && Lang(Star(a), s)
    ensures 0 < i <= |s| && Lang(a, s[..i]) && Lang(Star(a), s[i..])
  {
    i :| 0 < i <= |s| && Lang(a, s[..i]) && Lang(Star(a), s[i..]);
  }

  lemma LangStar(a: Re, s: string, i: nat)
    requires 0 < i <= |s| && Lang(a, s[..i]) && Lang(Star(a), s[i..])
    ensures Lang(Star(a), s)
  {
  }

  lemma StarOfNothing(a: Re)
    ensures Lang(Star(a), [])
  {
  }

  /** The first word of a list of words ends at the first dash or at the end. */
  lemma WordsSplit(s: string) returns (n: nat)
    requires IsWords(s)
    ensures n <= |s| && IsWord(s[..n]) && IsTail(s[n..])
  {
    match FirstOf(s, '-')
    case None =>
      n := |s|;
      assert s[..n] == s;
    case Some(i) =>
      n := i;
      assert s[n..][1..] == s[n + 1..];
  }

  lemma WordsJoin(s: string, n: nat)
    requires n <= |s| && IsWord(s[..n]) && IsTail(s[n..])
    ensures IsWords(s)
  {
    hide IsWords, HasLetter, All;
    var w := s[..n];
    if n == |s| {
      assert s == w;
      SingleWord(w);
    } else {
      WordsCons(w, s[n..][1..]);
      CutAt(s, n);
    }
  }

  lemma CutAt(s: string, n: nat)
    requires n < |s|
    ensures s == s[..n] + [s[n]] + s[n..][1..]
  {
  }

  lemma {:induction false} TailMatches(s: string)
    ensures Lang(Star(SegmentRe()), s) <==> IsTail(s)
    decreases |s|
  {
    hide Lang, IsWords, IsWord;
    if s == [] {
      StarOfNothing(SegmentRe());
    } else {
      var t := s[1..];
      if Lang(Star(SegmentRe()), s) {
        var i := StarLang(SegmentRe(), s);
        SegmentMatches(s[..i]);
        TailMatches(s[i..]);
        assert s[..i][1..] == t[..i - 1] && s[i..] == t[i - 1..];
        WordsJoin(t, i - 1);
      }
      if IsTail(s) {
        var n := WordsSplit(t);
        assert s[..n + 1][1..] == t[..n] && s[n + 1..] == t[n..];
        SegmentMatches(s[..n + 1]);
        TailMatches(s[n + 1..]);
        LangStar(SegmentRe(), s, n + 1);
      }
    }
  }

  lemma LedByLetter(w: string)
    requires w != [] && Lower(w[0])
    ensures IsWord(w) <==> All(LowerOrDigit, w[1..])
  {
    assert w == [w[0]] + w[1..];
  }

  lemma NameMatches(s: string)
    ensures Lang(NameRe(), s) <==> IsName(s)
  {
    hide Lang, IsWords, IsWord, NameRe;
    if Lang(NameRe(), s) { NameIfMatched(s); }
    if IsName(s) { MatchedIfName(s); }
  }

  lemma NameIfMatched(s: string)
    requires Lang(NameRe(), s)
    ensures IsName(s)
  {
    hide Lang, IsWords, IsWord;
    var i := LangCat(One(Lower), Cat(Star(One(LowerOrDigit)), Star(SegmentRe())), s);
    LangOne(Lower, s[..i]);
    var t := s[i..];
    var j := LangCat(Star(One(LowerOrDigit)), Star(SegmentRe()), t);
    StarOfOne(LowerOrDigit, t[..j]);
    TailMatches(t[j..]);
    assert s[..j + 1][1..] == t[..j] && s[j + 1..] == t[j..];
    LedByLetter(s[..j + 1]);
    WordsJoin(s, j + 1);
  }

  lemma MatchedIfName(s: string)
    requires IsName(s)
    ensures Lang(NameRe(), s)
  {
    hide Lang, IsWords, IsWord, IsTail, All, HasLetter, SegmentRe;
    var n := WordsSplit(s);
    FirstWordIsLed(s, n);
    var t := s[1..];
    LedByLetter(s[..n]);
    assert s[..n][1..] == t[..n - 1] && s[n..] == t[n - 1..];
    RestMatches(t, n - 1);
    LangOne(Lower, s[..1]);
    CatLang(One(Lower), Cat(Star(One(LowerOrDigit)), Star(SegmentRe())), s, 1);
  }

  lemma RestMatches(t: string, k: nat)
    requires k <= |t| && All(LowerOrDigit, t[..k]) && IsTail(t[k..])
    ensures Lang(Cat(Star(One(LowerOrDigit)), Star(SegmentRe())), t)
  {
    hide Lang, IsTail, All, SegmentRe;
    StarOfOne(LowerOrDigit, t[..k]);
    TailMatches(t[k..]);
    CatLang(Star(One(LowerOrDigit)), Star(SegmentRe()), t, k);
  }

  lemma FirstWordIsLed(s: string, n: nat)
    requires s != [] && n <= |s| && IsWord(s[..n])
    ensures n > 0
  {
  }

  // --------------------------------------------------------- print and parse

  function StrCollection(c: CharmCollection): string {
    if c.user.None? then c.schema + ":" + c.series
    else c.schema + ":~" + c.user.value + "/" + c.series
  }

  function Str(u: CharmURL): string {
    StrCollection(u.collection) + "/" + StrName(u)
  }

  /** The last part of the URL: the name, and the revision when there is one. */
  function StrName(u: CharmURL): string {
    if u.revision.None? then u.name else u.name + "-" + Decimal(u.revision.value)
  }

  predicate StartsWithTilde(s: string) {
    s != [] && s[0] == '~'
  }

  /** The name and the revision, told apart at the last dash. */
  function ParseName(s: string): (string, Option<nat>) {
    match LastOf(s, '-')
    case None => (s, None)
    case Some(i) => if IsNumber(s[i + 1..]) then (s[..i], Some(NumberOf(s[i + 1..]))) else (s, None)
  }

  function ParseLast(schema: string, user: Option<string>, parts: seq<string>): Result<CharmURL, Error> {
    if |parts| != 2 then Err(NoSeries)
    else if !IsSeries(parts[0]) then Err(InvalidSeries)
    else
      var (name, revision) := ParseName(parts[1]);
      if !IsName(name) then Err(InvalidName)
      else Ok(CharmURL(CharmCollection(schema, user, parts[0]), name, revision))
  }

  function ParseRest(schema: string, rest: string): Result<CharmURL, Error> {
    var parts := Split(rest, '/');
    if |parts| != 2 && |parts| != 3 then Err(InvalidForm)
    else if StartsWithTilde(parts[0]) then
      if schema == "local" then Err(UsersNotAllowed)
      else
        var user := parts[0][1..];
        if !IsUser(user) then Err(InvalidUser)
        else ParseLast(schema, Some(user), parts[1..])
    else ParseLast(schema, None, parts)
  }

  /** CharmURL.parse */
  function Parse(s: string): Result<CharmURL, Error> {
    match FirstOf(s, ':')
    case None => Err(NoSchema)
    case Some(i) =>
      if s[..i] != "cs" && s[..i] != "local" then Err(InvalidSchema)
      else ParseRest(s[..i], s[i + 1..])
  }

  /** What infer makes of a string that does not parse. */
  function Expand(vague: string, series: string): string {
    var (schema, rest) :=
      match FirstOf(vague, ':')
      case None => ("cs", vague)
      case Some(i) => (vague[..i], vague[i + 1..]);
    var parts := Split(rest, '/');
    if |parts| == 1 then schema + ":" + series + "/" + rest
    else if |parts| == 2 && StartsWithTilde(parts[0]) then schema + ":" + parts[0] + "/" + series + "/" + parts[1]
    else schema + ":" + rest
  }

  /** CharmURL.infer */
  function Infer(vague: string, series: string): Result<CharmURL, Error> {
    if Parse(vague).Ok? then Parse(vague)
    else if StartsWithTilde(vague) then Err(UserNeedsSchema)
    else Parse(Expand(vague, series))
  }

  // --------------------------------------------------------------- round trips

  /** What a parsed URL looks like. */
  predicate IsUrl(u: CharmURL) {
    && (u.collection.schema == "cs" || (u.collection.schema == "local" && u.collection.user.None?))
    && (u.collection.user.Some? ==> IsUser(u.collection.user.value))
    && IsSeries(u.collection.series)
    && IsName(u.name)
  }

  lemma ParsedIsUrl(s: string)
    requires Parse(s).Ok?
    ensures IsUrl(Parse(s).value)
  {
  }

  lemma {:induction false} WordsEndWithLetters(s: string)
    requires IsWords(s)
    ensures match LastOf(s, '-')
            case None => !IsNumber(s)
            case Some(i) => !IsNumber(s[i + 1..])
    decreases |s|
  {
    hide LastOf, FirstOf, IsNumber, HasLetter, All;
    match FirstOf(s, '-')
    case None =>
      LettersAreNoNumber(s);
    case Some(i) =>
      WordsEndWithLetters(s[i + 1..]);
      LastOfSuffix(s, '-', i);
  }

  /** The last occurrence, searched behind an earlier one. */
  lemma LastOfSuffix(s: string, c: char, i: nat)
    requires i < |s| && s[i] == c
    ensures LastOf(s, c) == match LastOf(s[i + 1..], c) case None => Some(i) case Some(k) => Some(i + 1 + k)
    ensures LastOf(s[i + 1..], c).Some? ==>
              s[LastOf(s, c).value + 1..] == s[i + 1..][LastOf(s[i + 1..], c).value + 1..]
  {
    hide LastOf;
    var t := s[i + 1..];
    match LastOf(t, c)
    case None =>
      assert s == s[..i] + [c] + t;
      LastAt(s[..i], c, t);
    case Some(k) =>
      var a, b := s[..i + 1 + k], t[k + 1..];
      assert s == a + [c] + b;
      LastAt(a, c, b);
  }

  lemma LettersAreNoNumber(s: string)
    requires HasLetter(s)
    ensures !IsNumber(s)
  {
    var i :| 0 <= i < |s| && Lower(s[i]);
    assert !IsDigit(s[i]);
  }

  /** Each dashed word of a name has a letter, so a name alone is never read as name and revision. */
  lemma ParseNameOfStr(u: CharmURL)
    requires IsName(u.name)
    ensures ParseName(StrName(u)) == (u.name, u.revision)
  {
    if u.revision.None? {
      WordsEndWithLetters(u.name);
    } else {
      var d := Decimal(u.revision.value);
      assert '-' !in d by { assert forall i :: 0 <= i < |d| ==> IsDigit(d[i]); }
      LastAt(u.name, '-', d);
      var s := StrName(u);
      assert s == u.name + ['-'] + d && s[..|u.name|] == u.name && s[|u.name| + 1..] == d;
      NumberOfDecimal(u.revision.value);
    }
  }

  predicate PlainText(s: string) {
    '/' !in s && ':' !in s
  }

  lemma PlainJoin(a: string, c: char, b: string)
    requires PlainText(a) && PlainText(b) && c != '/' && c != ':'
    ensures PlainText(a + [c] + b)
  {
  }

  lemma {:induction false} WordsArePlain(s: string)
    requires IsWords(s)
    ensures PlainText(s)
    decreases |s|
  {
    hide FirstOf;
    match FirstOf(s, '-')
    case None =>
    case Some(i) =>
      WordsArePlain(s[i + 1..]);
      PlainJoin(s[..i], '-', s[i + 1..]);
      assert s == s[..i] + ['-'] + s[i + 1..];
  }

  lemma NamePartIsPlain(u: CharmURL)
    requires IsName(u.name)
    ensures PlainText(StrName(u)) && StrName(u) != [] && !StartsWithTilde(StrName(u))
  {
    WordsArePlain(u.name);
    if u.revision.Some? {
      var d := Decimal(u.revision.value);
      assert PlainText(d) by { assert forall i :: 0 <= i < |d| ==> IsDigit(d[i]); }
      assert StrName(u) == u.name + ['-'] + d;
    }
  }

  lemma UserIsPlain(s: string)
    requires IsUser(s)
    ensures PlainText(s)
  {
    assert s == [s[0]] + s[1..];
    assert forall c :: c in s[1..] ==> UserChar(c);
  }

  lemma ParseLastOfStr(u: CharmURL)
    requires IsUrl(u)
    ensures ParseLast(u.collection.schema, u.collection.user, [u.collection.series, StrName(u)]) == Ok(u)
  {
    ParseNameOfStr(u);
  }

  /** The text after the schema. */
  function StrRest(u: CharmURL): string {
    (if u.collection.user.Some? then ['~'] + u.collection.user.value + ['/'] else [])
        + u.collection.series + ['/'] + StrName(u)
  }

  lemma ParseRestNoUser(schema: string, series: string, name: string)
    requires '/' !in series && '/' !in name && !StartsWithTilde(series)
    ensures ParseRest(schema, series + ['/'] + name) == ParseLast(schema, None, [series, name])
  {
    hide Split, ParseLast;
    SplitOne(name, '/');
    SplitAt(series, '/', name);
    assert [series] + [name] == [series, name];
  }

  lemma ParseRestWithUser(user: string, series: string, name: string)
    requires '/' !in user && '/' !in series && '/' !in name && IsUser(user)
    ensures ParseRest("cs", ['~'] + user + ['/'] + (series + ['/'] + name))
        == ParseLast("cs", Some(user), [series, name])
  {
    hide Split, ParseLast, IsUser;
    SplitOne(name, '/');
    SplitAt(series, '/', name);
    SplitAt(['~'] + user, '/', series + ['/'] + name);
    assert [series] + [name] == [series, name];
    assert [['~'] + user] + [series, name] == [['~'] + user, series, name];
    assert [['~'] + user, series, name][1..] == [series, name];
    assert (['~'] + user)[1..] == user;
  }

  lemma ParseRestOfStr(u: CharmURL)
    requires IsUrl(u)
    ensures ParseRest(u.collection.schema, StrRest(u)) == Ok(u)
  {
    hide IsName, IsSeries, IsUser, ParseRest, ParseLast;
    var series, name := u.collection.series, StrName(u);
    PartsArePlain(u);
    ParseLastOfStr(u);
    if u.collection.user.None? {
      ParseRestNoUser(u.collection.schema, series, name);
      assert StrRest(u) == series + ['/'] + name;
    } else {
      var user := u.collection.user.value;
      ParseRestWithUser(user, series, name);
      assert StrRest(u) == ['~'] + user + ['/'] + (series + ['/'] + name);
    }
  }

  lemma PartsArePlain(u: CharmURL)
    requires IsUrl(u)
    ensures PlainText(u.collection.series) && !StartsWithTilde(u.collection.series)
    ensures PlainText(StrName(u))
    ensures u.collection.user.Some? ==> PlainText(u.collection.user.value)
  {
    NamePartIsPlain(u);
    if u.collection.user.Some? { UserIsPlain(u.collection.user.value); }
  }

  /** parse(str(u)) == u for every URL parse can return. */
  lemma ParseOfStr(u: CharmURL)
    requires IsUrl(u)
    ensures Parse(Str(u)) == Ok(u)
  {
    hide ParseRest, IsName, IsSeries, IsUser;
    ParseRestOfStr(u);
    var schema := u.collection.schema;
    assert ':' !in schema;
    FirstAt(schema, ':', StrRest(u));
    var s := schema + [':'] + StrRest(u);
    assert Str(u) == s;
    assert s[..|schema|] == schema && s[|schema| + 1..] == StrRest(u);
  }

  /** The URLs that parse can return are exactly the well-formed ones. */
  lemma ParseRangeIff(u: CharmURL)
    ensures (exists s :: Parse(s) == Ok(u)) <==> IsUrl(u)
  {
    if IsUrl(u) { ParseOfStr(u); }
    if s :| Parse(s) == Ok(u) { ParsedIsUrl(s); }
  }

  /** A text of name and revision: the revision in digits, leading zeros allowed. */
  ghost predicate Spells(part: string, u: CharmURL) {
    if u.revision.None? then part == u.name
    else exists d :: IsNumber(d) && NumberOf(d) == u.revision.value && part == u.name + ['-'] + d
  }

  lemma SpelledName(u: CharmURL, part: string)
    requires IsName(u.name) && Spells(part, u)
    ensures ParseName(part) == (u.name, u.revision) && PlainText(part)
  {
    hide NumberOf, IsName, ParseName;
    if u.revision.None? {
      NameAlone(u.name);
    } else {
      var d :| IsNumber(d) && NumberOf(d) == u.revision.value && part == u.name + ['-'] + d;
      NameAndDigits(u.name, d);
    }
  }

  lemma NameAlone(name: string)
    requires IsName(name)
    ensures ParseName(name) == (name, None) && PlainText(name)
  {
    WordsArePlain(name);
    WordsEndWithLetters(name);
  }

  lemma NameAndDigits(name: string, d: string)
    requires IsName(name) && IsNumber(d)
    ensures ParseName(name + ['-'] + d) == (name, Some(NumberOf(d))) && PlainText(name + ['-'] + d)
  {
    hide NumberOf, LastOf;
    WordsArePlain(name);
    hide IsName, IsWords;
    assert '-' !in d && PlainText(d) by { assert forall i :: 0 <= i < |d| ==> IsDigit(d[i]); }
    LastAt(name, '-', d);
    var part := name + ['-'] + d;
    assert part[..|name|] == name && part[|name| + 1..] == d;
    PlainJoin(name, '-', d);
  }

  lemma SpelledParses(u: CharmURL, part: string)
    requires IsUrl(u) && Spells(part, u)
    ensures Parse(StrCollection(u.collection) + "/" + part) == Ok(u)
  {
    hide Spells, IsName, IsSeries, IsUser, ParseRest, ParseName;
    SpelledName(u, part);
    PartsArePlain(u);
    var schema, series := u.collection.schema, u.collection.series;
    assert ParseLast(schema, u.collection.user, [series, part]) == Ok(u);
    hide ParseLast;
    var rest;
    if u.collection.user.None? {
      rest := series + ['/'] + part;
      ParseRestNoUser(schema, series, part);
    } else {
      rest := ['~'] + u.collection.user.value + ['/'] + (series + ['/'] + part);
      ParseRestWithUser(u.collection.user.value, series, part);
    }
    CollectionText(u.collection, part, rest);
    FirstAt(schema, ':', rest);
    var t := schema + [':'] + rest;
    assert t[..|schema|] == schema && t[|schema| + 1..] == rest;
  }

  lemma CollectionText(c: CharmCollection, part: string, rest: string)
    requires var path := c.series + ['/'] + part;
             rest == if c.user.None? then path else ['~'] + c.user.value + ['/'] + path
    ensures StrCollection(c) + "/" + part == c.schema + [':'] + rest
  {
    assert ":~" == [':'] + ['~'];
  }

  lemma NameSpells(part: string, u: CharmURL)
    requires ParseName(part) == (u.name, u.revision)
    ensures Spells(part, u)
  {
    if u.revision.Some? {
      var i := LastOf(part, '-').value;
      assert part == part[..i] + ['-'] + part[i + 1..];
    }
  }

  /** What parses, and to what: exactly the texts of well-formed URLs, with any number of leading zeros. */
  lemma ParsesIff(s: string, u: CharmURL)
    ensures Parse(s) == Ok(u) <==>
              IsUrl(u) && exists part :: Spells(part, u) && s == StrCollection(u.collection) + "/" + part
  {
    hide Parse, Spells, IsUrl, ParseName, LastPart;
    if Parse(s) == Ok(u) {
      ParsedIsUrl(s);
      var front := ParsedParts(s);
      var part := LastPart(s);
      NameSpells(part, u);
      assert Str(u) == (StrCollection(u.collection) + "/") + StrName(u);
      SamePrefix(front, StrCollection(u.collection) + "/", StrName(u));
    }
    if IsUrl(u) && exists part :: Spells(part, u) && s == StrCollection(u.collection) + "/" + part {
      var part :| Spells(part, u) && s == StrCollection(u.collection) + "/" + part;
      SpelledParses(u, part);
    }
  }

  lemma SamePrefix(a: string, b: string, c: string)
    requires a + c == b + c
    ensures a == b
  {
    assert |a| == |b|;
    assert (a + c)[..|a|] == a && (b + c)[..|b|] == b;
  }

  /** Two URLs with the same text are the same URL. */
  lemma StrIsInjective(u: CharmURL, v: CharmURL)
    requires IsUrl(u) && IsUrl(v) && Str(u) == Str(v)
    ensures u == v
  {
    ParseOfStr(u);
    ParseOfStr(v);
  }

  lemma CutAtFirst(s: string, c: char)
    requires FirstOf(s, c).Some?
    ensures var i := FirstOf(s, c).value; s == s[..i] + [c] + s[i + 1..]
  {
  }

  lemma JoinOfSplit(s: string)
    ensures var p := Split(s, '/');
            && (|p| == 2 ==> s == p[0] + ['/'] + p[1])
            && (|p| == 3 ==> s == p[0] + ['/'] + p[1] + ['/'] + p[2])
  {
    hide FirstOf;
    if |Split(s, '/')| > 1 {
      CutAtFirst(s, '/');
      var t := s[FirstOf(s, '/').value + 1..];
      assert Split(s, '/') == [s[..FirstOf(s, '/').value]] + Split(t, '/');
      if |Split(t, '/')| > 1 {
        CutAtFirst(t, '/');
        var v := t[FirstOf(t, '/').value + 1..];
        assert Split(t, '/') == [t[..FirstOf(t, '/').value]] + Split(v, '/');
        assert |Split(v, '/')| == 1 ==> Split(v, '/') == [v];
      } else {
        assert Split(t, '/') == [t];
      }
    }
  }

  /** The digits the revision was read from, if any, have no superfluous zero in front. */
  predicate CleanRevision(s: string) {
    match LastOf(s, '-')
    case None => true
    case Some(i) => IsNumber(s[i + 1..]) ==> NoLeadingZero(s[i + 1..])
  }

  lemma StrOfParseName(u: CharmURL, s: string)
    requires ParseName(s) == (u.name, u.revision)
    ensures StrName(u) == s <==> CleanRevision(s)
  {
    match LastOf(s, '-')
    case None =>
    case Some(i) =>
      if IsNumber(s[i + 1..]) {
        var d := s[i + 1..];
        DecimalOfNumberIff(d);
        assert s == s[..i] + ['-'] + d;
        if StrName(u) == s {
          assert StrName(u)[i + 1..] == Decimal(NumberOf(d));
        }
      }
  }

  lemma RestParts(schema: string, rest: string) returns (front: string)
    requires ParseRest(schema, rest).Ok?
    ensures var u, parts := ParseRest(schema, rest).value, Split(rest, '/');
            && rest == front + parts[|parts| - 1]
            && Str(u) == schema + [':'] + front + StrName(u)
            && ParseName(parts[|parts| - 1]) == (u.name, u.revision)
  {
    hide FirstOf, Split, ParseName, IsName, IsSeries, IsUser, StrName;
    var parts := Split(rest, '/');
    JoinOfSplit(rest);
    if |parts| == 2 {
      front := parts[0] + ['/'];
    } else {
      front := parts[0] + ['/'] + parts[1] + ['/'];
      assert parts[1..] == [parts[1], parts[2]];
      assert parts[0] == ['~'] + parts[0][1..];
    }
  }

  /** A URL that parses is some text that comes back unchanged, and its last part. */
  lemma ParsedParts(s: string) returns (front: string)
    requires Parse(s).Ok?
    ensures var u := Parse(s).value;
            && s == front + LastPart(s) && Str(u) == front + StrName(u)
            && ParseName(LastPart(s)) == (u.name, u.revision)
  {
    hide FirstOf, Split, ParseName, ParseRest, Str, StrName;
    CutAtFirst(s, ':');
    var i := FirstOf(s, ':').value;
    var tail := RestParts(s[..i], s[i + 1..]);
    front := s[..i] + [':'] + tail;
  }

  /** str(parse(s)) == s for every string that parses, exactly when its revision has no leading zero. */
  lemma StrOfParseIff(s: string)
    requires Parse(s).Ok?
    ensures Str(Parse(s).value) == s <==> CleanRevision(LastPart(s))
  {
    hide Parse, LastPart, Str, StrName, ParseName, CleanRevision;
    var front := ParsedParts(s);
    var u := Parse(s).value;
    StrOfParseName(u, LastPart(s));
    if Str(u) == s {
      assert s[|front|..] == LastPart(s);
      assert Str(u)[|front|..] == StrName(u);
    }
  }

  /** What follows the last slash of a URL that parses. */
  function LastPart(s: string): string
    requires Parse(s).Ok?
  {
    var parts := Split(s[FirstOf(s, ':').value + 1..], '/');
    parts[|parts| - 1]
  }

  // -------------------------------------------------------------------- infer

  /** infer leaves a full URL alone. */
  lemma InferOfStr(u: CharmURL, series: string)
    requires IsUrl(u)
    ensures Infer(Str(u), series) == Ok(u)
  {
    ParseOfStr(u);
  }

  /** Without the schema, when it is the charm store's and there is no user. */
  lemma InferFromName(u: CharmURL)
    requires IsUrl(u) && u.collection.schema == "cs" && u.collection.user.None?
    ensures Infer(StrName(u), u.collection.series) == Ok(u)
  {
    hide Split, FirstOf, IsName, IsSeries, IsUser, StrName, ParseRest;
    NamePartIsPlain(u);
    ParseOfStr(u);
    SplitOne(StrName(u), '/');
    assert FirstOf(StrName(u), ':') == None;
    assert Expand(StrName(u), u.collection.series) == Str(u);
  }

  lemma ExpandAfterSchema(schema: string, rest: string, series: string)
    requires ':' !in schema
    ensures var parts := Split(rest, '/');
            Expand(schema + [':'] + rest, series) ==
              if |parts| == 1 then schema + ":" + series + "/" + rest
              else if |parts| == 2 && StartsWithTilde(parts[0])
                  then schema + ":" + parts[0] + "/" + series + "/" + parts[1]
              else schema + ":" + rest
    ensures schema == "cs" || schema == "local" ==> Parse(schema + [':'] + rest) == ParseRest(schema, rest)
  {
    hide Split, FirstOf, ParseRest;
    var s := schema + [':'] + rest;
    FirstAt(schema, ':', rest);
    assert s[..|schema|] == schema && s[|schema| + 1..] == rest;
  }

  /** Without the schema, from series and name. */
  lemma InferFromSeries(u: CharmURL, series: string)
    requires IsUrl(u) && u.collection.schema == "cs" && u.collection.user.None?
    ensures Infer(u.collection.series + "/" + StrName(u), series) == Ok(u)
  {
    hide Split, FirstOf, IsName, IsSeries, IsUser, StrName, ParseRest;
    PartsArePlain(u);
    ParseOfStr(u);
    var vague := u.collection.series + ['/'] + StrName(u);
    assert vague == u.collection.series + "/" + StrName(u);
    SplitOne(StrName(u), '/');
    SplitAt(u.collection.series, '/', StrName(u));
    assert FirstOf(vague, ':') == None;
    assert !StartsWithTilde(vague);
    assert Expand(vague, series) == Str(u);
  }

  /** A user without a schema is refused. */
  lemma InferNeedsSchema(vague: string, series: string)
    requires StartsWithTilde(vague)
    ensures Infer(vague, series) == Err(UserNeedsSchema)
  {
    hide Split, ParseRest;
    if FirstOf(vague, ':').Some? {
      var i := FirstOf(vague, ':').value;
      assert vague[..i] != [] ==> vague[..i][0] == '~';
      assert vague[..i] != "cs" && vague[..i] != "local";
    }
  }

  /** Without the series. */
  lemma InferFromSchema(u: CharmURL)
    requires IsUrl(u) && u.collection.user.None?
    ensures Infer(u.collection.schema + [':'] + StrName(u), u.collection.series) == Ok(u)
  {
    hide Split, FirstOf, IsName, IsSeries, IsUser, StrName, ParseRest, Parse, Expand;
    var schema, name := u.collection.schema, StrName(u);
    assert ':' !in schema;
    NamePartIsPlain(u);
    ParseOfStr(u);
    SplitOne(name, '/');
    ShortFails(schema, name);
    ExpandAfterSchema(schema, name, u.collection.series);
    assert Expand(schema + [':'] + name, u.collection.series) == Str(u);
  }

  lemma InferFromUser(u: CharmURL)
    requires IsUrl(u) && u.collection.user.Some?
    ensures Infer("cs:~" + u.collection.user.value + "/" + StrName(u), u.collection.series) == Ok(u)
  {
    hide Split, FirstOf, IsName, IsSeries, IsUser, StrName, ParseRest, Parse, Expand, Str;
    var user, name := ['~'] + u.collection.user.value, StrName(u);
    PartsArePlain(u);
    ParseOfStr(u);
    SplitOne(name, '/');
    SplitAt(user, '/', name);
    var rest := user + ['/'] + name;
    ShortUserFails("cs", user, name, rest);
    ExpandAfterSchema("cs", rest, u.collection.series);
    UserText(u.collection.user.value, name);
    StrWithUser(u);
  }

  lemma StrWithUser(u: CharmURL)
    requires u.collection.user.Some? && u.collection.schema == "cs"
    ensures Str(u) == "cs" + ":" + (['~'] + u.collection.user.value) + "/" + u.collection.series + "/" + StrName(u)
  {
    assert ":~" == ":" + ['~'];
  }

  lemma UserText(user: string, name: string)
    ensures "cs" + [':'] + (['~'] + user + ['/'] + name) == "cs:~" + user + "/" + name
  {
  }

  lemma ShortFails(schema: string, rest: string)
    requires Split(rest, '/') == [rest]
    ensures ParseRest(schema, rest).Err?
  {
  }

  lemma ShortUserFails(schema: string, user: string, name: string, rest: string)
    requires Split(rest, '/') == [user, name] && StartsWithTilde(user)
    ensures ParseRest(schema, rest).Err?
  {
  }
}
