/**
 The pre-push review cycle marker and its cap (mcp/ground-control/lib/api-requirements.js): what the
 builder prints, the scanner reads back, and the cap counts. JavaScript strings are UTF-16 code units.
 */
module CycleMarker {
  import opened Wrappers

  newtype CodeUnit = u: int | 0 <= u < 0x1_0000
  type Text = seq<CodeUnit>

  const QUOTE: CodeUnit := 0x22
  const BACKSLASH: CodeUnit := 0x5c

  /** An ASCII literal. */
  function T(s: string): Text {
    seq(|s|, i requires 0 <= i < |s| => (s[i] as int % 0x80) as CodeUnit)
  }

  // ---- decimal numbers -------------------------------------------------------------

  predicate IsDigit(c: CodeUnit) {
    0x30 <= c <= 0x39
  }

  function Decimal(n: nat): Text {
    if n < 10 then [(0x30 + n) as CodeUnit] else Decimal(n / 10) + [(0x30 + n % 10) as CodeUnit]
  }

  function ParseDecimal(digits: Text): nat
    requires forall i :: 0 <= i < |digits| ==> IsDigit(digits[i])
  {
    if digits == [] then 0
    else
      assert IsDigit(digits[|digits| - 1]);
      ParseDecimal(digits[..|digits| - 1]) * 10 + (digits[|digits| - 1] as int - 0x30)
  }

  lemma {:induction false} DecimalRoundTrip(n: nat)
    ensures Decimal(n) != [] && forall i :: 0 <= i < |Decimal(n)| ==> IsDigit(Decimal(n)[i])
    ensures ParseDecimal(Decimal(n)) == n
  {
    if n >= 10 {
      DecimalRoundTrip(n / 10);
      var digits := Decimal(n);
      assert digits[..|digits| - 1] == Decimal(n / 10);
    } else {
      assert Decimal(n)[..0] == [];
    }
  }

  // ---- JSON string escaping, section 7 of RFC 8259 -----------------------------------

  function HexDigit(n: int): CodeUnit
    requires 0 <= n < 16
  {
    if n < 10 then (0x30 + n) as CodeUnit else (0x61 + n - 10) as CodeUnit
  }

  function HexValue(c: CodeUnit): Option<int> {
    if 0x30 <= c <= 0x39 then Some(c as int - 0x30)
    else if 0x61 <= c <= 0x66 then Some(c as int - 0x61 + 10)
    else if 0x41 <= c <= 0x46 then Some(c as int - 0x41 + 10)
    else None
  }

  function UnicodeEscape(c: CodeUnit): Text {
    var n := c as int;
    assert n / 16 < 0x1000 && n / 16 / 16 < 0x100;
    [BACKSLASH, 0x75, HexDigit(n / 16 / 16 / 16), HexDigit(n / 16 / 16 % 16), HexDigit(n / 16 % 16), HexDigit(n % 16)]
  }

  predicate IsHigh(c: CodeUnit) {
    0xd800 <= c <= 0xdbff
  }

  predicate IsLow(c: CodeUnit) {
    0xdc00 <= c <= 0xdfff
  }

  /** The two-character escapes JSON.stringify prefers. */
  function ShortEscape(c: CodeUnit): Option<CodeUnit> {
    if c == QUOTE || c == BACKSLASH then Some(c)
    else if c == 8 then Some(0x62)
    else if c == 9 then Some(0x74)
    else if c == 10 then Some(0x6e)
    else if c == 12 then Some(0x66)
    else if c == 13 then Some(0x72)
    else None
  }

  function EscapeUnit(c: CodeUnit): Text {
    if ShortEscape(c).Some? then [BACKSLASH, ShortEscape(c).value]
    else if c < 0x20 || IsHigh(c) || IsLow(c) then UnicodeEscape(c)
    else [c]
  }

  /** How many code units are escaped together: a surrogate pair, or one. */
  function HeadSize(s: Text): nat
    requires s != []
  {
    if |s| >= 2 && IsHigh(s[0]) && IsLow(s[1]) then 2 else 1
  }

  function EscapeHead(s: Text): Text
    requires s != []
  {
    if HeadSize(s) == 2 then s[..2] else EscapeUnit(s[0])
  }

  /** The inside of JSON.stringify(s): surrogate pairs stay, lone surrogates are escaped. */
  function Escape(s: Text): Text {
    if s == [] then [] else EscapeHead(s) + Escape(s[HeadSize(s)..])
  }

  function ShortValue(c: CodeUnit): Option<CodeUnit> {
    if c == QUOTE || c == BACKSLASH || c == 0x2f then Some(c)
    else if c == 0x62 then Some(8)
    else if c == 0x74 then Some(9)
    else if c == 0x6e then Some(10)
    else if c == 0x66 then Some(12)
    else if c == 0x72 then Some(13)
    else None
  }

  function HexQuad(s: Text): Option<CodeUnit>
    requires |s| == 4
  {
    var a :- HexValue(s[0]);
    var b :- HexValue(s[1]);
    var c :- HexValue(s[2]);
    var d :- HexValue(s[3]);
    var n := ((a * 16 + b) * 16 + c) * 16 + d;
    if 0 <= n < 0x1_0000 then Some(n as CodeUnit) else None
  }

  function Prepend(head: Text, tail: Option<Text>): Option<Text> {
    if tail.None? then None else Some(head + tail.value)
  }

  /** JSON.parse of the text between two quotes. */
  function Unescape(raw: Text): Option<Text> {
    if raw == [] then Some([])
    else if raw[0] == BACKSLASH then
      if |raw| < 2 then None
      else if raw[1] == 0x75 then
        if |raw| < 6 then None
        else
          var unit :- HexQuad(raw[2..6]);
          Prepend([unit], Unescape(raw[6..]))
      else
        var unit :- ShortValue(raw[1]);
        Prepend([unit], Unescape(raw[2..]))
    else if raw[0] < 0x20 || raw[0] == QUOTE then None
    else Prepend([raw[0]], Unescape(raw[1..]))
  }

  lemma UnescapeUnit(c: CodeUnit, rest: Text)
    ensures Unescape(EscapeUnit(c) + rest) == Prepend([c], Unescape(rest))
  {
    var e := EscapeUnit(c);
    var s := e + rest;
    if ShortEscape(c).Some? {
      assert s[2..] == rest;
    } else if c < 0x20 || IsHigh(c) || IsLow(c) {
      assert s[2..6] == e[2..6] && s[6..] == rest;
      HexQuadRoundTrip(c);
    } else {
      assert s[1..] == rest;
    }
  }

  lemma HexDigitRoundTrip(n: int)
    requires 0 <= n < 16
    ensures HexValue(HexDigit(n)) == Some(n)
  {
  }

  lemma HexDigits(n: int)
    requires 0 <= n < 0x1_0000
    ensures 0 <= n / 16 / 16 / 16 < 16
    ensures ((n / 16 / 16 / 16 * 16 + n / 16 / 16 % 16) * 16 + n / 16 % 16) * 16 + n % 16 == n
  {
    assert n / 16 < 0x1000 && n / 16 / 16 < 0x100;
    assert n / 16 / 16 / 16 * 16 + n / 16 / 16 % 16 == n / 16 / 16;
    assert n / 16 / 16 * 16 + n / 16 % 16 == n / 16;
  }

  lemma HexQuadRoundTrip(c: CodeUnit)
    ensures HexQuad(UnicodeEscape(c)[2..6]) == Some(c)
  {
    var n := c as int;
    HexDigits(n);
    HexDigitRoundTrip(n / 16 / 16 / 16);
    HexDigitRoundTrip(n / 16 / 16 % 16);
    HexDigitRoundTrip(n / 16 % 16);
    HexDigitRoundTrip(n % 16);
  }

  lemma UnescapeHead(s: Text, rest: Text)
    requires s != []
    ensures Unescape(EscapeHead(s) + rest) == Prepend(s[..HeadSize(s)], Unescape(rest))
  {
    if HeadSize(s) == 2 {
      var all := s[..2] + rest;
      assert all[1..] == [s[1]] + rest && all[1..][1..] == rest;
      if Unescape(rest).Some? {
        assert [s[0]] + ([s[1]] + Unescape(rest).value) == s[..2] + Unescape(rest).value;
      }
    } else {
      UnescapeUnit(s[0], rest);
      assert s[..1] == [s[0]];
    }
  }

  /** Reading an escaped string gives the string back, lone surrogates included. */
  lemma {:induction false} EscapeRoundTrip(s: Text)
    ensures Unescape(Escape(s)) == Some(s)
  {
    if s != [] {
      EscapeRoundTrip(s[HeadSize(s)..]);
      UnescapeHead(s, Escape(s[HeadSize(s)..]));
      assert s[..HeadSize(s)] + s[HeadSize(s)..] == s;
    }
  }

  // ---- the marker pattern --------------------------------------------------------------

  /** JavaScript's \\s. */
  predicate IsSpace(c: CodeUnit) {
    || 9 <= c <= 13 || c == 0x20 || c == 0xa0 || c == 0x1680 || 0x2000 <= c <= 0x200a
    || c == 0x2028 || c == 0x2029 || c == 0x202f || c == 0x205f || c == 0x3000 || c == 0xfeff
  }

  /** What the dot of a regular expression does not match. */
  predicate IsLineEnd(c: CodeUnit) {
    c == 10 || c == 13 || c == 0x2028 || c == 0x2029
  }

  function Literal(s: Text, literal: Text): Option<Text> {
    if literal <= s then Some(s[|literal|..]) else None
  }

  function SkipSpaces(s: Text): Text {
    if s != [] && IsSpace(s[0]) then SkipSpaces(s[1..]) else s
  }

  function SkipSomeSpaces(s: Text): Option<Text> {
    if s != [] && IsSpace(s[0]) then Some(SkipSpaces(s)) else None
  }

  function TakeDigits(s: Text): (r: (Text, Text))
    ensures forall i :: 0 <= i < |r.0| ==> IsDigit(r.0[i])
    ensures r.0 + r.1 == s
  {
    if s != [] && IsDigit(s[0]) then
      var (digits, rest) := TakeDigits(s[1..]);
      ([s[0]] + digits, rest)
    else ([], s)
  }

  /** A quoted run up to its first unescaped quote: the raw inside, and what follows the quote. */
  function TakeQuoted(s: Text): (r: Option<(Text, Text)>)
    ensures r.Some? ==> |r.value.1| < |s|
  {
    if s == [] then None
    else if s[0] == QUOTE then Some(([], s[1..]))
    else if s[0] == BACKSLASH then
      if |s| < 2 || IsLineEnd(s[1]) then None
      else
        var (raw, rest) :- TakeQuoted(s[2..]);
        Some((s[..2] + raw, rest))
    else
      var (raw, rest) :- TakeQuoted(s[1..]);
      Some(([s[0]] + raw, rest))
  }

  /** Everything after the first "-->". */
  function AfterClose(s: Text): (r: Option<Text>)
    ensures r.Some? ==> |r.value| < |s|
  {
    if |s| < 3 then None
    else if s[..3] == T("-->") then Some(s[3..])
    else AfterClose(s[1..])
  }

  datatype Match = Match(issue: nat, branch: Text, cycle: nat, rest: Text)

  /** The comment opening and the marker's name. */
  function TakeName(s: Text): (r: Option<Text>)
    ensures r.Some? ==> |r.value| < |s|
  {
    var afterOpen :- Literal(s, T("<!--"));
    var afterName :- Literal(SkipSpaces(afterOpen), T("gc:codex-prepush-cycle"));
    SkipSpacesShrinks(afterOpen);
    SkipSpacesShrinks(afterName);
    SkipSomeSpaces(afterName)
  }

  /** An attribute holding a number: its opening literal, digits, and a closing quote. */
  function TakeNumber(s: Text, opening: Text): (r: Option<(nat, Text)>)
    ensures r.Some? ==> |r.value.1| < |s|
  {
    var s1 :- Literal(s, opening);
    var (digits, s2) := TakeDigits(s1);
    assert |s2| <= |s1|;
    if digits == [] then None
    else
      var rest :- Literal(s2, T("\""));
      Some((ParseDecimal(digits), rest))
  }

  /** The quoted branch attribute with the spaces around it. */
  function TakeBranch(s: Text): (r: Option<(Text, Text)>)
    ensures r.Some? ==> |r.value.1| < |s|
  {
    var s1 :- SkipSomeSpaces(s);
    var s2 :- Literal(s1, T("branch=\""));
    var (raw, s3) :- TakeQuoted(s2);
    SkipSpacesShrinks(s);
    SkipSpacesShrinks(s3);
    var rest :- SkipSomeSpaces(s3);
    Some((raw, rest))
  }

  /** One match of the marker pattern at the start of the text. Every step of it is determined. */
  function MatchHere(s: Text): (m: Option<Match>)
    ensures m.Some? ==> |m.value.rest| < |s|
  {
    var s1 :- TakeName(s);
    var (issue, s2) :- TakeNumber(s1, T("issue=\""));
    var (branch, s3) :- TakeBranch(s2);
    var (cycle, s4) :- TakeNumber(s3, T("cycle=\""));
    var rest :- AfterClose(s4);
    Some(Match(issue, branch, cycle, rest))
  }

  lemma {:induction false} SkipSpacesShrinks(s: Text)
    ensures |SkipSpaces(s)| <= |s|
  {
    if s != [] && IsSpace(s[0]) {
      SkipSpacesShrinks(s[1..]);
    }
  }

  /** All leftmost matches, each search going on behind the previous match. */
  function Matches(s: Text): seq<Match>
    decreases |s|
  {
    if s == [] then []
    else
      match MatchHere(s)
      case Some(m) => [m] + Matches(m.rest)
      case None => Matches(s[1..])
  }

  datatype Entry = Entry(branch: Text, cycle: nat)

  function EntriesOf(matches: seq<Match>, issue: nat): seq<Entry> {
    if matches == [] then []
    else
      var rest := EntriesOf(matches[1..], issue);
      var m := matches[0];
      if m.issue != issue then rest
      else
        match Unescape(m.branch)
        case None => rest
        case Some(branch) => [Entry(branch, m.cycle)] + rest
  }

  function Parsed(body: Text, issue: nat): seq<Entry> {
    EntriesOf(Matches(body), issue)
  }

  /** The loop that collects the entries of one comment. */
  method ParseMarkerEntries(body: Text, issue: nat) returns (entries: seq<Entry>)
    ensures entries == Parsed(body, issue)
  {
    var matches := Matches(body);
    entries := [];
    var i := 0;
    assert matches[0..] == matches;
    while i < |matches|
      invariant 0 <= i <= |matches|
      invariant Parsed(body, issue) == entries + EntriesOf(matches[i..], issue)
    {
      var m := matches[i];
      assert matches[i..][1..] == matches[i + 1..];
      i := i + 1;
      if m.issue != issue {
        continue;
      }
      var branch := Unescape(m.branch);
      if branch.None? {
        continue;
      }
      entries := entries + [Entry(branch.value, m.cycle)];
    }
  }

  // ---- the marker builder ------------------------------------------------------------------

  function TrimStart(s: Text): Text {
    SkipSpaces(s)
  }

  function TrimEnd(s: Text): Text {
    if s != [] && IsSpace(s[|s| - 1]) then TrimEnd(s[..|s| - 1]) else s
  }

  function Trim(s: Text): Text {
    TrimEnd(TrimStart(s))
  }

  /** One completed review cycle, as it is recorded. */
  datatype Cycle = Cycle(issue: nat, branch: Text, number: nat, isOverride: bool, reason: Option<Text>, cap: nat)

  predicate HasReason(c: Cycle) {
    c.isOverride && c.reason.Some? && Trim(c.reason.value) != []
  }

  /** The optional attributes after the cycle number. */
  function Attributes(c: Cycle): Text {
    (if c.isOverride then T(" override=\"true\"") else [])
    + (if HasReason(c) then T(" reason=") + [QUOTE] + Escape(Trim(c.reason.value)) + [QUOTE] else [])
  }

  /** The human-readable part, which repeats the branch and the reason unescaped. */
  function Headline(c: Cycle): Text {
    HeadlineBody(c) + if HasReason(c) then T("\nOverride reason: ") + Trim(c.reason.value) else []
  }

  function HeadlineBody(c: Cycle): Text {
    T("_gc_codex_review pre-push cycle ") + Decimal(c.number)
    + (if c.isOverride then T(" (USER-AUTHORIZED OVERRIDE past cap ") + Decimal(c.cap) + T(") complete for issue #")
       else T(" of ") + Decimal(c.cap) + T(" complete for issue #"))
    + Decimal(c.issue) + T(" on branch '") + c.branch + T("'._")
    + T(" Posted by the MCP server") + T(" to enforce the pre-push hard-cap-") + Decimal(c.cap)
    + T(" contract (issues #796, #804, #906).") + T(" Do not edit or delete ") + [0x2014]
    + T(" used by the next `gc_codex_review`") + T(" (uncommitted) invocation") + T(" to count cycles.")
  }

  /** Everything after the quoted cycle number. */
  function Ending(c: Cycle): Text {
    Attributes(c) + (T(" -->") + (T("\n\n") + Headline(c)))
  }

  function Marker(c: Cycle): Text {
    T("<!--") + (T(" ") + (T("gc:codex-prepush-cycle") + (T(" ") + (T("issue=\"") + (Decimal(c.issue) + (T("\"")
    + (T(" ") + (T("branch=\"") + (Escape(c.branch) + ([QUOTE]
    + (T(" ") + (T("cycle=\"") + (Decimal(c.number) + (T("\"") + Ending(c)))))))))))))))
  }

  /** The text the scanner still searches after the marker's own match. */
  function FreeText(c: Cycle): Text {
    match AfterClose(Ending(c))
    case None => []
    case Some(rest) => rest
  }

  // ---- scanning what was built ---------------------------------------------------------------

  lemma LiteralAt(literal: Text, rest: Text)
    ensures Literal(literal + rest, literal) == Some(rest)
  {
  }

  lemma OneSpace(rest: Text)
    requires rest != [] && !IsSpace(rest[0])
    ensures SkipSomeSpaces(T(" ") + rest) == Some(rest) && SkipSpaces(T(" ") + rest) == rest
  {
    var s := T(" ") + rest;
    assert s[0] == T(" ")[0] && s[1..] == rest;
    assert SkipSpaces(rest) == rest;
  }

  lemma {:induction false} DigitsAt(digits: Text, rest: Text)
    requires forall i :: 0 <= i < |digits| ==> IsDigit(digits[i])
    requires rest != [] ==> !IsDigit(rest[0])
    ensures TakeDigits(digits + rest) == (digits, rest)
  {
    if digits == [] {
      assert digits + rest == rest;
    } else {
      assert (digits + rest)[1..] == digits[1..] + rest;
      DigitsAt(digits[1..], rest);
      assert [digits[0]] + digits[1..] == digits;
    }
  }

  function PrependRaw(head: Text, r: Option<(Text, Text)>): Option<(Text, Text)> {
    if r.None? then None else Some((head + r.value.0, r.value.1))
  }

  /** A run without quotes and backslashes is consumed as it stands. */
  lemma {:induction false} QuotedPlain(run: Text, rest: Text)
    requires QUOTE !in run && BACKSLASH !in run
    ensures TakeQuoted(run + rest) == PrependRaw(run, TakeQuoted(rest))
  {
    if run == [] {
      assert run + rest == rest;
      if TakeQuoted(rest).Some? {
        assert run + TakeQuoted(rest).value.0 == TakeQuoted(rest).value.0;
      }
    } else {
      assert (run + rest)[0] == run[0] && (run + rest)[1..] == run[1..] + rest;
      QuotedPlain(run[1..], rest);
      PrependTwice([run[0]], run[1..], TakeQuoted(rest));
      assert [run[0]] + run[1..] == run;
    }
  }

  lemma PrependTwice(a: Text, b: Text, tail: Option<(Text, Text)>)
    ensures PrependRaw(a, PrependRaw(b, tail)) == PrependRaw(a + b, tail)
  {
    if tail.Some? {
      assert a + (b + tail.value.0) == (a + b) + tail.value.0;
    }
  }

  /** A backslash takes the unit behind it along. */
  lemma QuotedEscape(unit: CodeUnit, rest: Text)
    requires !IsLineEnd(unit)
    ensures TakeQuoted([BACKSLASH, unit] + rest) == PrependRaw([BACKSLASH, unit], TakeQuoted(rest))
  {
    var s := [BACKSLASH, unit] + rest;
    assert s[2..] == rest && s[..2] == [BACKSLASH, unit];
  }

  lemma QuotedHex(c: CodeUnit, rest: Text)
    ensures TakeQuoted(UnicodeEscape(c) + rest) == PrependRaw(UnicodeEscape(c), TakeQuoted(rest))
  {
    var e := UnicodeEscape(c);
    QuotedEscape(0x75, e[2..] + rest);
    QuotedPlain(e[2..], rest);
    assert [BACKSLASH, 0x75] + (e[2..] + rest) == e + rest;
    PrependTwice([BACKSLASH, 0x75], e[2..], TakeQuoted(rest));
    assert [BACKSLASH, 0x75] + e[2..] == e;
  }

  /** One escaped unit is consumed whole, and never ends the quoted run. */
  lemma QuotedUnit(c: CodeUnit, rest: Text)
    ensures TakeQuoted(EscapeUnit(c) + rest) == PrependRaw(EscapeUnit(c), TakeQuoted(rest))
  {
    if ShortEscape(c).Some? {
      QuotedEscape(ShortEscape(c).value, rest);
    } else if c < 0x20 || IsHigh(c) || IsLow(c) {
      QuotedHex(c, rest);
    } else {
      QuotedPlain([c], rest);
    }
  }

  lemma QuotedHead(s: Text, rest: Text)
    requires s != []
    ensures TakeQuoted(EscapeHead(s) + rest) == PrependRaw(EscapeHead(s), TakeQuoted(rest))
  {
    if HeadSize(s) == 2 {
      assert s[..2] == [s[0], s[1]];
      QuotedPlain(s[..2], rest);
    } else {
      QuotedUnit(s[0], rest);
    }
  }

  lemma QuotedMore(s: Text, others: Text, rest: Text)
    requires s != []
    requires TakeQuoted(others + ([QUOTE] + rest)) == Some((others, rest))
    ensures TakeQuoted((EscapeHead(s) + others) + ([QUOTE] + rest)) == Some((EscapeHead(s) + others, rest))
  {
    QuotedHead(s, others + ([QUOTE] + rest));
    assert (EscapeHead(s) + others) + ([QUOTE] + rest) == EscapeHead(s) + (others + ([QUOTE] + rest));
  }

  /** The escaped branch is read back as one quoted run. */
  lemma {:induction false} QuotedAt(s: Text, rest: Text)
    ensures TakeQuoted(Escape(s) + ([QUOTE] + rest)) == Some((Escape(s), rest))
  {
    if s == [] {
      assert Escape(s) + ([QUOTE] + rest) == [QUOTE] + rest;
      assert ([QUOTE] + rest)[1..] == rest;
    } else {
      QuotedAt(s[HeadSize(s)..], rest);
      QuotedMore(s, Escape(s[HeadSize(s)..]), rest);
    }
  }

  lemma {:induction false} CloseIsFound(before: Text, after: Text)
    ensures AfterClose(before + (T(" -->") + after)).Some?
  {
    var s := before + (T(" -->") + after);
    if before == [] {
      assert s == T(" -->") + after;
      assert s[1..][..3] == T("-->");
    } else {
      assert s[1..] == before[1..] + (T(" -->") + after);
      CloseIsFound(before[1..], after);
    }
  }

  lemma NameAt(rest: Text)
    requires rest != [] && !IsSpace(rest[0])
    ensures TakeName(T("<!--") + (T(" ") + (T("gc:codex-prepush-cycle") + (T(" ") + rest)))) == Some(rest)
  {
    var name := T("gc:codex-prepush-cycle") + (T(" ") + rest);
    LiteralAt(T("<!--"), T(" ") + name);
    assert name[0] == T("gc:codex-prepush-cycle")[0];
    OneSpace(name);
    LiteralAt(T("gc:codex-prepush-cycle"), T(" ") + rest);
    OneSpace(rest);
  }

  lemma NumberAt(opening: Text, n: nat, rest: Text)
    ensures TakeNumber(opening + (Decimal(n) + (T("\"") + rest)), opening) == Some((n, rest))
  {
    LiteralAt(opening, Decimal(n) + (T("\"") + rest));
    DecimalRoundTrip(n);
    assert (T("\"") + rest)[0] == T("\"")[0];
    DigitsAt(Decimal(n), T("\"") + rest);
    LiteralAt(T("\""), rest);
  }

  lemma BranchAt(branch: Text, rest: Text)
    requires rest != [] && !IsSpace(rest[0])
    ensures TakeBranch(T(" ") + (T("branch=\"") + (Escape(branch) + ([QUOTE] + (T(" ") + rest)))))
         == Some((Escape(branch), rest))
  {
    var quoted := Escape(branch) + ([QUOTE] + (T(" ") + rest));
    assert (T("branch=\"") + quoted)[0] == T("branch=\"")[0];
    OneSpace(T("branch=\"") + quoted);
    LiteralAt(T("branch=\""), quoted);
    QuotedAt(branch, T(" ") + rest);
    OneSpace(rest);
  }

  /** The second half of the marker: branch, cycle, and whatever closes the comment. */
  lemma BranchAndCycleAt(branch: Text, n: nat, ending: Text)
    ensures var cycle := T("cycle=\"") + (Decimal(n) + (T("\"") + ending));
      && TakeBranch(T(" ") + (T("branch=\"") + (Escape(branch) + ([QUOTE] + (T(" ") + cycle)))))
           == Some((Escape(branch), cycle))
      && TakeNumber(cycle, T("cycle=\"")) == Some((n, ending))
  {
    var cycle := T("cycle=\"") + (Decimal(n) + (T("\"") + ending));
    assert cycle[0] == T("cycle=\"")[0];
    BranchAt(branch, cycle);
    NumberAt(T("cycle=\""), n, ending);
  }

  /** The first half: the comment's opening, the marker's name, and the issue. */
  lemma NameAndIssueAt(n: nat, rest: Text)
    ensures var issue := T("issue=\"") + (Decimal(n) + (T("\"") + rest));
      && TakeName(T("<!--") + (T(" ") + (T("gc:codex-prepush-cycle") + (T(" ") + issue)))) == Some(issue)
      && TakeNumber(issue, T("issue=\"")) == Some((n, rest))
  {
    var issue := T("issue=\"") + (Decimal(n) + (T("\"") + rest));
    assert issue[0] == T("issue=\"")[0];
    NameAt(issue);
    NumberAt(T("issue=\""), n, rest);
  }

  /** The marker's own match: issue, escaped branch and cycle, then the free text. */
  lemma MarkerMatches(c: Cycle)
    ensures MatchHere(Marker(c)) == Some(Match(c.issue, Escape(c.branch), c.number, FreeText(c)))
  {
    var ending := Ending(c);
    var cycle := T("cycle=\"") + (Decimal(c.number) + (T("\"") + ending));
    BranchAndCycleAt(c.branch, c.number, ending);
    NameAndIssueAt(c.issue, T(" ") + (T("branch=\"") + (Escape(c.branch) + ([QUOTE] + (T(" ") + cycle)))));
    CloseIsFound(Attributes(c), T("\n\n") + Headline(c));
  }

  /**
   Marker round trip: scanning a built comment returns its branch and cycle exactly, followed by
   whatever markers its free text happens to hold.
   */
  lemma MarkerRoundTrip(c: Cycle)
    ensures Parsed(Marker(c), c.issue) == [Entry(c.branch, c.number)] + Parsed(FreeText(c), c.issue)
    ensures forall other :: other != c.issue ==> Parsed(Marker(c), other) == Parsed(FreeText(c), other)
  {
    MarkerMatches(c);
    EscapeRoundTrip(c.branch);
    var own := Match(c.issue, Escape(c.branch), c.number, FreeText(c));
    var matches := Matches(Marker(c));
    assert matches == [own] + Matches(FreeText(c));
    assert matches[1..] == Matches(FreeText(c));
  }

  /** A comment counts as one cycle if and only if its free text holds no marker of the issue. */
  lemma CountsOnceIffFreeTextIsClean(c: Cycle)
    ensures |Parsed(Marker(c), c.issue)| == 1 <==> Parsed(FreeText(c), c.issue) == []
  {
    MarkerRoundTrip(c);
  }

  predicate OpensAt(s: Text, i: nat) {
    i + 4 <= |s| && s[i..i + 4] == T("<!--")
  }

  predicate HasOpening(s: Text) {
    exists i :: 0 <= i < |s| && OpensAt(s, i)
  }

  lemma NoOpeningNoMatch(s: Text)
    requires !OpensAt(s, 0)
    ensures MatchHere(s).None?
  {
  }

  /** Free text without "<!--" is clean, so a caller can check the branch and the reason. */
  lemma {:induction false} NoOpeningNoEntries(s: Text, issue: nat)
    requires !HasOpening(s)
    ensures Matches(s) == [] && Parsed(s, issue) == []
    decreases |s|
  {
    if s != [] {
      NoOpeningNoMatch(s);
      forall i | 0 <= i < |s[1..]| ensures !OpensAt(s[1..], i) {
        assert !OpensAt(s, i + 1);
        if i + 4 <= |s[1..]| {
          assert s[1..][i..i + 4] == s[i + 1..i + 5];
        }
      }
      NoOpeningNoEntries(s[1..], issue);
    }
  }

  lemma OpeningStartsWithLess(s: Text)
    requires s != []
    ensures OpensAt(s, 0) ==> s[0] == 0x3c
  {
    assert T("<!--")[0] == 0x3c;
    assert 4 <= |s| ==> s[0..4][0] == s[0];
  }

  /** Text without "<" in front of anything changes nothing the scanner finds. */
  lemma {:induction false} PlainTextIsSkipped(before: Text, s: Text)
    requires 0x3c !in before
    ensures Matches(before + s) == Matches(s)
    decreases |before|
  {
    var all := before + s;
    if before == [] {
      assert all == s;
    } else {
      assert all[0] == before[0] && before[0] in before;
      OpeningStartsWithLess(all);
      NoOpeningNoMatch(all);
      assert all[1..] == before[1..] + s;
      PlainTextIsSkipped(before[1..], s);
    }
  }

  /** No "<" anywhere: nothing a marker could open with. */
  predicate Plain(s: Text) {
    0x3c !in s
  }

  lemma PlainLiteral(s: string)
    requires forall i :: 0 <= i < |s| ==> s[i] as int < 0x80 && s[i] != '<'
    ensures Plain(T(s))
  {
    assert forall i :: 0 <= i < |s| ==> T(s)[i] != 0x3c;
  }

  lemma {:induction false} PlainDecimal(n: nat)
    ensures Plain(Decimal(n))
  {
    if n >= 10 {
      PlainDecimal(n / 10);
    }
  }

  lemma PlainHead(s: Text)
    requires s != [] && Plain(s)
    ensures Plain(EscapeHead(s))
  {
    assert s[0] in s;
    assert forall c :: c in s[..HeadSize(s)] ==> c in s;
  }

  lemma {:induction false} PlainEscape(s: Text)
    requires Plain(s)
    ensures Plain(Escape(s))
  {
    if s != [] {
      PlainHead(s);
      PlainEscape(s[HeadSize(s)..]);
    }
  }

  lemma {:induction false} PlainSkip(s: Text)
    requires Plain(s)
    ensures Plain(SkipSpaces(s))
  {
    if s != [] {
      PlainSkip(s[1..]);
    }
  }

  lemma {:induction false} PlainTrimEnd(s: Text)
    requires Plain(s)
    ensures Plain(TrimEnd(s))
  {
    if s != [] {
      PlainTrimEnd(s[..|s| - 1]);
    }
  }

  lemma {:induction false} PlainAfterClose(s: Text)
    requires Plain(s)
    ensures AfterClose(s).Some? ==> Plain(AfterClose(s).value)
  {
    if |s| >= 3 {
      PlainAfterClose(s[1..]);
    }
  }

  lemma PlainHasNoOpening(s: Text)
    requires Plain(s)
    ensures !HasOpening(s)
  {
    forall i | 0 <= i < |s| ensures !OpensAt(s, i) {
      assert T("<!--")[0] == 0x3c;
      if i + 4 <= |s| {
        assert s[i..i + 4][0] == s[i] && s[i] in s;
      }
    }
  }

  lemma PlainPosted()
    ensures Plain(T(" Posted by the MCP server")) && Plain(T(" to enforce the pre-push hard-cap-"))
  {
    PlainLiteral(" Posted by the MCP server");
    PlainLiteral(" to enforce the pre-push hard-cap-");
  }

  lemma PlainContract()
    ensures Plain(T(" contract (issues #796, #804, #906).")) && Plain(T(" Do not edit or delete "))
  {
    PlainLiteral(" contract (issues #796, #804, #906).");
    PlainLiteral(" Do not edit or delete ");
  }

  lemma PlainUsage()
    ensures Plain(T(" used by the next `gc_codex_review`")) && Plain(T(" (uncommitted) invocation"))
    ensures Plain(T(" to count cycles."))
  {
    PlainLiteral(" used by the next `gc_codex_review`");
    PlainLiteral(" (uncommitted) invocation");
    PlainLiteral(" to count cycles.");
  }

  lemma PlainOpening()
    ensures Plain(T("_gc_codex_review pre-push cycle ")) && Plain(T(" (USER-AUTHORIZED OVERRIDE past cap "))
  {
    PlainLiteral("_gc_codex_review pre-push cycle ");
    PlainLiteral(" (USER-AUTHORIZED OVERRIDE past cap ");
  }

  lemma PlainWording()
    ensures Plain(T(") complete for issue #")) && Plain(T(" of ")) && Plain(T(" complete for issue #"))
    ensures Plain(T(" on branch '")) && Plain(T("'._")) && Plain(T("\nOverride reason: "))
  {
    PlainLiteral(") complete for issue #");
    PlainLiteral(" of ");
    PlainLiteral(" complete for issue #");
    PlainLiteral(" on branch '");
    PlainLiteral("'._");
    PlainLiteral("\nOverride reason: ");
  }

  lemma PlainHeadline(c: Cycle)
    requires Plain(c.branch)
    requires HasReason(c) ==> Plain(Trim(c.reason.value))
    ensures Plain(Headline(c))
  {
    PlainBody(c);
    PlainWording();
  }

  lemma PlainBody(c: Cycle)
    requires Plain(c.branch)
    ensures Plain(HeadlineBody(c))
  {
    PlainDecimal(c.number);
    PlainDecimal(c.cap);
    PlainDecimal(c.issue);
    PlainPosted();
    PlainContract();
    PlainUsage();
    PlainOpening();
    PlainWording();
  }

  lemma PlainAttributes(c: Cycle)
    requires HasReason(c) ==> Plain(Trim(c.reason.value))
    ensures Plain(Attributes(c))
  {
    PlainLiteral(" override=\"true\"");
    PlainLiteral(" reason=");
    if HasReason(c) {
      PlainEscape(Trim(c.reason.value));
    }
  }

  lemma PlainTrim(s: Text)
    requires Plain(s)
    ensures Plain(Trim(s))
  {
    PlainSkip(s);
    PlainTrimEnd(TrimStart(s));
  }

  lemma PlainEnding(c: Cycle)
    requires Plain(c.branch)
    requires c.reason.Some? ==> Plain(c.reason.value)
    ensures Plain(Ending(c))
  {
    if c.reason.Some? {
      PlainTrim(c.reason.value);
    }
    PlainAttributes(c);
    PlainHeadline(c);
    PlainLiteral(" -->");
    PlainLiteral("\n\n");
  }

  lemma PlainFreeText(c: Cycle, issue: nat)
    requires Plain(c.branch)
    requires c.reason.Some? ==> Plain(c.reason.value)
    ensures Parsed(FreeText(c), issue) == []
  {
    PlainEnding(c);
    PlainAfterClose(Ending(c));
    PlainHasNoOpening(FreeText(c));
    NoOpeningNoEntries(FreeText(c), issue);
  }

  /** What a caller can check first: a branch and a reason without "<" make the comment count once. */
  lemma PlainCycleCountsOnce(c: Cycle, other: nat)
    requires Plain(c.branch)
    requires c.reason.Some? ==> Plain(c.reason.value)
    ensures Parsed(Marker(c), c.issue) == [Entry(c.branch, c.number)]
    ensures other != c.issue ==> Parsed(Marker(c), other) == []
  {
    PlainFreeText(c, c.issue);
    PlainFreeText(c, other);
    MarkerRoundTrip(c);
  }

  /** So a marker quoted verbatim behind plain text is counted as a cycle of its own. */
  lemma QuotedMarkerIsCounted(before: Text, c: Cycle)
    requires 0x3c !in before
    ensures |Parsed(before + Marker(c), c.issue)| >= 1
  {
    PlainTextIsSkipped(before, Marker(c));
    MarkerRoundTrip(c);
  }

  // ---- the cap ------------------------------------------------------------------------------------

  /** The number of cycles recorded over all comments of an issue. */
  function Count(comments: seq<Text>, issue: nat): nat {
    if comments == [] then 0
    else Count(comments[..|comments| - 1], issue) + |Parsed(comments[|comments| - 1], issue)|
  }

  datatype Refusal = OverrideMissingReason | CapReached

  function Blank(reason: Option<Text>): bool {
    reason.None? || Trim(reason.value) == []
  }

  /** The next cycle's number, or why there is none. */
  function EvaluateCap(prior: nat, cap: nat, overrideCap: bool, reason: Option<Text>): Result<nat, Refusal> {
    if overrideCap then (if Blank(reason) then Err(OverrideMissingReason) else Ok(prior + 1))
    else if prior >= cap then Err(CapReached)
    else Ok(prior + 1)
  }

  /** What happens on one issue: a review is requested, or somebody else comments. */
  datatype Event = Review(branch: Text, overrideCap: bool, reason: Option<Text>) | Comment(text: Text)

  datatype Thread = Thread(comments: seq<Text>, completed: seq<Cycle>)

  function Complete(t: Thread, c: Cycle): Thread {
    Thread(t.comments + [Marker(c)], t.completed + [c])
  }

  /** The cycle a review request completes, unless the cap refuses it. */
  function NextCycle(t: Thread, e: Event, issue: nat, cap: nat): Option<Cycle>
    requires e.Review?
  {
    match EvaluateCap(Count(t.comments, issue), cap, e.overrideCap, e.reason)
    case Err(_) => None
    case Ok(next) => Some(Cycle(issue, e.branch, next, e.overrideCap, e.reason, cap))
  }

  function Handle(t: Thread, e: Event, issue: nat, cap: nat): Thread {
    match e
    case Comment(text) => t.(comments := t.comments + [text])
    case Review(_, _, _) =>
      match NextCycle(t, e, issue, cap)
      case None => t
      case Some(c) => Complete(t, c)
  }

  function HandleAll(events: seq<Event>, issue: nat, cap: nat): Thread {
    if events == [] then Thread([], [])
    else Handle(HandleAll(events[..|events| - 1], issue, cap), events[|events| - 1], issue, cap)
  }

  lemma CountAppended(comments: seq<Text>, comment: Text, issue: nat)
    ensures Count(comments + [comment], issue) == Count(comments, issue) + |Parsed(comment, issue)|
  {
    assert (comments + [comment])[..|comments|] == comments;
  }

  ghost predicate NumberedAndCapped(t: Thread, issue: nat, cap: nat) {
    && Count(t.comments, issue) == |t.completed|
    && (forall i :: 0 <= i < |t.completed| ==> t.completed[i].number == i + 1)
    && (forall i :: 0 <= i < |t.completed| && t.completed[i].number > cap ==> HasReason(t.completed[i]))
  }

  lemma CleanMarkerCountsOnce(c: Cycle)
    requires Parsed(FreeText(c), c.issue) == []
    ensures |Parsed(Marker(c), c.issue)| == 1
  {
    CountsOnceIffFreeTextIsClean(c);
  }

  lemma CompletionKeepsNumbering(t: Thread, c: Cycle, comment: Text, issue: nat, cap: nat)
    requires NumberedAndCapped(t, issue, cap)
    requires |Parsed(comment, issue)| == 1
    requires c.number == |t.completed| + 1 && (c.number > cap ==> HasReason(c))
    ensures NumberedAndCapped(Thread(t.comments + [comment], t.completed + [c]), issue, cap)
  {
    CountAppended(t.comments, comment, issue);
  }

  ghost predicate CleanCycle(c: Cycle, issue: nat) {
    Parsed(FreeText(c), issue) == []
  }

  lemma CommentKeepsNumbering(t: Thread, text: Text, issue: nat, cap: nat)
    requires NumberedAndCapped(t, issue, cap)
    requires Parsed(text, issue) == []
    ensures NumberedAndCapped(Handle(t, Comment(text), issue, cap), issue, cap)
  {
    CountAppended(t.comments, text, issue);
  }

  lemma ReviewKeepsNumbering(t: Thread, c: Cycle)
    requires NumberedAndCapped(t, c.issue, c.cap)
    requires EvaluateCap(Count(t.comments, c.issue), c.cap, c.isOverride, c.reason) == Ok(c.number)
    requires CleanCycle(c, c.issue)
    ensures NumberedAndCapped(Complete(t, c), c.issue, c.cap)
  {
    CleanMarkerCountsOnce(c);
    CompletionKeepsNumbering(t, c, Marker(c), c.issue, c.cap);
  }

  /** Nobody else's comment, and no free text of the server's own comment, carries a marker of the issue. */
  ghost predicate CleanEvent(t: Thread, e: Event, issue: nat, cap: nat) {
    match e
    case Comment(text) => Parsed(text, issue) == []
    case Review(_, _, _) =>
      var c := NextCycle(t, e, issue, cap);
      c.Some? ==> CleanCycle(c.value, issue)
  }

  ghost predicate CleanRun(events: seq<Event>, issue: nat, cap: nat) {
    events != [] ==>
      var before := events[..|events| - 1];
      CleanRun(before, issue, cap) && CleanEvent(HandleAll(before, issue, cap), events[|events| - 1], issue, cap)
  }

  /** One event keeps the numbering, whichever way the cap decides. */
  lemma EventKeepsNumbering(t: Thread, e: Event, issue: nat, cap: nat)
    requires NumberedAndCapped(t, issue, cap)
    requires CleanEvent(t, e, issue, cap)
    ensures NumberedAndCapped(Handle(t, e, issue, cap), issue, cap)
  {
    match e
    case Comment(text) => CommentKeepsNumbering(t, text, issue, cap);
    case Review(_, _, _) =>
      var c := NextCycle(t, e, issue, cap);
      if c.Some? {
        ReviewKeepsNumbering(t, c.value);
      }
  }

  lemma {:induction false} CleanRunsAreNumbered(events: seq<Event>, issue: nat, cap: nat)
    requires CleanRun(events, issue, cap)
    ensures NumberedAndCapped(HandleAll(events, issue, cap), issue, cap)
  {
    if events != [] {
      var last := |events| - 1;
      CleanRunsAreNumbered(events[..last], issue, cap);
      EventKeepsNumbering(HandleAll(events[..last], issue, cap), events[last], issue, cap);
    }
  }

  /** By how much the comments count for more than the completed cycles. */
  function Excess(t: Thread, issue: nat): int {
    Count(t.comments, issue) - |t.completed|
  }

  lemma CompletionExcess(t: Thread, c: Cycle)
    ensures Excess(Complete(t, c), c.issue) == Excess(t, c.issue) + |Parsed(FreeText(c), c.issue)|
  {
    CountAppended(t.comments, Marker(c), c.issue);
    MarkerRoundTrip(c);
  }

  lemma EventExcess(t: Thread, e: Event, issue: nat, cap: nat)
    ensures Excess(Handle(t, e, issue, cap), issue) >= Excess(t, issue)
    ensures Excess(Handle(t, e, issue, cap), issue) == Excess(t, issue) <==> CleanEvent(t, e, issue, cap)
  {
    match e
    case Comment(text) => CountAppended(t.comments, text, issue);
    case Review(_, _, _) => ReviewExcess(t, e, issue, cap);
  }

  lemma ReviewExcess(t: Thread, e: Event, issue: nat, cap: nat)
    requires e.Review?
    ensures var c, after := NextCycle(t, e, issue, cap), Handle(t, e, issue, cap);
      Excess(after, issue) == Excess(t, issue) + if c.Some? then |Parsed(FreeText(c.value), issue)| else 0
  {
    var c := NextCycle(t, e, issue, cap);
    if c.Some? {
      CompletionExcess(t, c.value);
    }
  }

  lemma {:induction false} RunExcess(events: seq<Event>, issue: nat, cap: nat)
    ensures Excess(HandleAll(events, issue, cap), issue) >= 0
    ensures Excess(HandleAll(events, issue, cap), issue) == 0 <==> CleanRun(events, issue, cap)
  {
    if events != [] {
      var last := |events| - 1;
      RunExcess(events[..last], issue, cap);
      EventExcess(HandleAll(events[..last], issue, cap), events[last], issue, cap);
    }
  }

  /**
   Over any run on one issue, under any branch names, completed cycles are counted as often as they
   happened, numbered 1, 2, 3 and so on, and past the cap only with an override and a reason, if and
   only if no foreign comment and no free text of a completed cycle carries a marker of the issue.
   */
  lemma CyclesAreNumberedAndCapped(events: seq<Event>, issue: nat, cap: nat)
    ensures NumberedAndCapped(HandleAll(events, issue, cap), issue, cap) <==> CleanRun(events, issue, cap)
  {
    RunExcess(events, issue, cap);
    if CleanRun(events, issue, cap) {
      CleanRunsAreNumbered(events, issue, cap);
    }
  }

  /** What a caller can check of an event: foreign comments open no comment, branch and reason hold no "<". */
  ghost predicate PlainEvent(e: Event) {
    match e
    case Comment(text) => !HasOpening(text)
    case Review(branch, _, reason) => Plain(branch) && (reason.Some? ==> Plain(reason.value))
  }

  lemma PlainEventIsClean(t: Thread, e: Event, issue: nat, cap: nat)
    requires PlainEvent(e)
    ensures CleanEvent(t, e, issue, cap)
  {
    match e
    case Comment(text) => NoOpeningNoEntries(text, issue);
    case Review(_, _, _) =>
      var c := NextCycle(t, e, issue, cap);
      if c.Some? {
        PlainFreeText(c.value, issue);
      }
  }

  /** So plain runs are numbered and capped without any further condition. */
  lemma {:induction false} PlainRunsAreNumberedAndCapped(events: seq<Event>, issue: nat, cap: nat)
    requires forall i :: 0 <= i < |events| ==> PlainEvent(events[i])
    ensures NumberedAndCapped(HandleAll(events, issue, cap), issue, cap)
  {
    if events != [] {
      var before, last := events[..|events| - 1], events[|events| - 1];
      PlainRunsAreNumberedAndCapped(before, issue, cap);
      PlainEventIsClean(HandleAll(before, issue, cap), last, issue, cap);
      EventKeepsNumbering(HandleAll(before, issue, cap), last, issue, cap);
    }
  }

  // ---- exactly which reviews take place -----------------------------------------------------------

  lemma {:induction false} TrimStartIsBlank(s: Text)
    ensures TrimStart(s) == [] <==> forall c :: c in s ==> IsSpace(c)
    ensures TrimStart(s) != [] ==> !IsSpace(TrimStart(s)[0])
  {
    if s != [] && IsSpace(s[0]) {
      TrimStartIsBlank(s[1..]);
      assert s == [s[0]] + s[1..];
    }
  }

  lemma {:induction false} TrimEndKeepsFirst(s: Text)
    requires s != [] && !IsSpace(s[0])
    ensures TrimEnd(s) != []
  {
    if IsSpace(s[|s| - 1]) {
      TrimEndKeepsFirst(s[..|s| - 1]);
    }
  }

  /** A reason with something in it. */
  ghost predicate Says(reason: Option<Text>) {
    reason.Some? && exists c :: c in reason.value && !IsSpace(c)
  }

  lemma BlankMeaning(reason: Option<Text>)
    ensures Blank(reason) <==> !Says(reason)
  {
    if reason.Some? {
      TrimStartIsBlank(reason.value);
      if TrimStart(reason.value) != [] {
        TrimEndKeepsFirst(TrimStart(reason.value));
      }
    }
  }

  lemma HandledReview(t: Thread, e: Event, issue: nat, cap: nat, prior: nat)
    requires e.Review? && prior == Count(t.comments, issue)
    ensures var answer := EvaluateCap(prior, cap, e.overrideCap, e.reason);
      Handle(t, e, issue, cap).completed
        == if answer.Ok? then t.completed + [Cycle(issue, e.branch, answer.value, e.overrideCap, e.reason, cap)]
           else t.completed
  {
  }

  lemma CapMeaning(prior: nat, cap: nat, overrideCap: bool, reason: Option<Text>)
    ensures EvaluateCap(prior, cap, overrideCap, reason)
      == if overrideCap && !Says(reason) then Err(OverrideMissingReason)
         else if !overrideCap && prior >= cap then Err(CapReached)
         else Ok(prior + 1)
  {
    BlankMeaning(reason);
  }

  lemma HandledLast(events: seq<Event>, e: Event, issue: nat, cap: nat)
    ensures HandleAll(events + [e], issue, cap) == Handle(HandleAll(events, issue, cap), e, issue, cap)
  {
    assert (events + [e])[..|events|] == events;
  }

  /**
   After every clean run a requested review takes place if and only if fewer cycles than the cap took
   place, or it overrides the cap with a reason that says something; it is then the next cycle, as asked.
   */
  lemma ReviewTakesPlaceIff(events: seq<Event>, issue: nat, cap: nat, branch: Text, overrideCap: bool,
                            reason: Option<Text>, t: Thread)
    requires CleanRun(events, issue, cap) && t == HandleAll(events, issue, cap)
    ensures HandleAll(events + [Review(branch, overrideCap, reason)], issue, cap).completed
      == if (if overrideCap then Says(reason) else |t.completed| < cap)
         then t.completed + [Cycle(issue, branch, |t.completed| + 1, overrideCap, reason, cap)] else t.completed
  {
    CleanRunsAreNumbered(events, issue, cap);
    HandledLast(events, Review(branch, overrideCap, reason), issue, cap);
    CapMeaning(|t.completed|, cap, overrideCap, reason);
    HandledReview(t, Review(branch, overrideCap, reason), issue, cap, |t.completed|);
  }
}
