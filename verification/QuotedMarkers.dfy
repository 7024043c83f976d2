/**
 What a marker quoted in an override reason does to the count (mcp/ground-control/lib/api-requirements.js):
 the comment that repeats the reason counts twice, so numbers are skipped and the cap is used up early.
 */
module QuotedMarkers {
  import opened Wrappers
  import opened CycleMarker

  // ---- text without ">" ----------------------------------------------------------------

  /** No ">" anywhere: nothing that could close a comment. */
  predicate Unclosed(s: Text) {
    0x3e !in s
  }

  lemma UnclosedLiteral(s: string)
    requires forall i :: 0 <= i < |s| ==> s[i] as int < 0x80 && s[i] != '>'
    ensures Unclosed(T(s))
  {
    assert forall i :: 0 <= i < |s| ==> T(s)[i] != 0x3e;
  }

  lemma {:induction false} UnclosedDecimal(n: nat)
    ensures Unclosed(Decimal(n))
  {
    if n >= 10 {
      UnclosedDecimal(n / 10);
    }
  }

  lemma UnclosedHead(s: Text)
    requires s != [] && Unclosed(s)
    ensures Unclosed(EscapeHead(s))
  {
    assert s[0] in s;
    assert forall c :: c in s[..HeadSize(s)] ==> c in s;
  }

  lemma {:induction false} UnclosedEscape(s: Text)
    requires Unclosed(s)
    ensures Unclosed(Escape(s))
  {
    if s != [] {
      UnclosedHead(s);
      UnclosedEscape(s[HeadSize(s)..]);
    }
  }

  /** The first comment end behind such text is the one that follows it. */
  lemma {:induction false} CloseBehind(before: Text, rest: Text)
    requires Unclosed(before)
    ensures AfterClose(before + (T("-->") + rest)) == Some(rest)
    decreases |before|
  {
    var close := T("-->");
    assert close[0] == 0x2d && close[1] == 0x2d && close[2] == 0x3e && |close| == 3;
    var s := before + (close + rest);
    if before == [] {
      assert s == close + rest && s[..3] == close && s[3..] == rest;
    } else {
      assert s[2] == if |before| > 2 then before[2] else close[2 - |before|];
      assert s[..3][2] == s[2] && s[2] != 0x3e;
      assert s[1..] == before[1..] + (close + rest);
      CloseBehind(before[1..], rest);
    }
  }

  // ---- escaping in pieces -----------------------------------------------------------------

  /** Escaping goes piece by piece, unless the cut goes through a surrogate pair. */
  lemma {:induction false} EscapeInTwo(a: Text, b: Text)
    requires b != [] ==> !IsLow(b[0])
    ensures Escape(a + b) == Escape(a) + Escape(b)
    decreases |a|
  {
    if a == [] {
      assert a + b == b && [] + Escape(b) == Escape(b);
    } else {
      var k := HeadSize(a);
      assert HeadSize(a + b) == k && (a + b)[k..] == a[k..] + b && EscapeHead(a + b) == EscapeHead(a);
      EscapeInTwo(a[k..], b);
      Regroup(EscapeHead(a), Escape(a[k..]), Escape(b));
    }
  }

  lemma Regroup(a: Text, b: Text, c: Text)
    ensures a + (b + c) == (a + b) + c
  {
  }

  lemma EscapedClose()
    ensures Escape(T("-->")) == T("-->")
  {
    var dash, close: CodeUnit := 0x2d, 0x3e;
    assert T("-->") == [dash, dash, close];
    assert [dash, dash, close][1..] == [dash, close] && [dash, close][1..] == [close] && [close][1..] == [];
    assert Escape([close]) == [close] && Escape([dash, close]) == [dash] + [close];
    assert Escape([dash, dash, close]) == [dash] + ([dash] + [close]);
  }

  /** A comment end inside a string stays a comment end in its escaped form. */
  lemma EscapeKeepsClose(before: Text, rest: Text)
    requires rest != [] ==> !IsLow(rest[0])
    ensures Escape(before + (T("-->") + rest)) == Escape(before) + (T("-->") + Escape(rest))
  {
    assert T("-->")[0] == 0x2d;
    EscapeInTwo(before, T("-->") + rest);
    EscapeInTwo(T("-->"), rest);
    EscapedClose();
  }

  // ---- the shape of a plain marker --------------------------------------------------------------

  function BranchPart(c: Cycle): Text {
    T(" ") + (T("branch=\"") + (Escape(c.branch) + [QUOTE]))
  }

  function IssuePart(c: Cycle): Text {
    T("<!--") + (T(" ") + (T("gc:codex-prepush-cycle") + (T(" ") + (T("issue=\"") + (Decimal(c.issue) + T("\""))))))
  }

  function CyclePart(c: Cycle): Text {
    T(" ") + (T("cycle=\"") + (Decimal(c.number) + T("\"")))
  }

  /** Everything of a marker up to its quoted cycle number. */
  function Front(c: Cycle): Text {
    IssuePart(c) + (BranchPart(c) + CyclePart(c))
  }

  lemma MarkerInTwo(c: Cycle)
    ensures Marker(c) == Front(c) + Ending(c)
  {
    var e := Ending(c);
    var afterCycle := T(" ") + (T("cycle=\"") + (Decimal(c.number) + (T("\"") + e)));
    var afterBranch := T(" ") + (T("branch=\"") + (Escape(c.branch) + ([QUOTE] + afterCycle)));
    CycleInTwo(c, e);
    BranchInTwo(c, afterCycle);
    IssueInTwo(c, afterBranch);
    assert IssuePart(c) + (BranchPart(c) + (CyclePart(c) + e)) == Front(c) + e;
  }

  lemma CycleInTwo(c: Cycle, e: Text)
    ensures T(" ") + (T("cycle=\"") + (Decimal(c.number) + (T("\"") + e))) == CyclePart(c) + e
  {
  }

  lemma BranchInTwo(c: Cycle, e: Text)
    ensures T(" ") + (T("branch=\"") + (Escape(c.branch) + ([QUOTE] + e))) == BranchPart(c) + e
  {
  }

  lemma IssueInTwo(c: Cycle, e: Text)
    ensures T("<!--") + (T(" ") + (T("gc:codex-prepush-cycle") + (T(" ") + (T("issue=\"")
      + (Decimal(c.issue) + (T("\"") + e)))))) == IssuePart(c) + e
  {
  }

  lemma UnclosedFront(c: Cycle)
    requires Unclosed(c.branch)
    ensures Unclosed(Front(c))
  {
    UnclosedDecimal(c.issue);
    UnclosedDecimal(c.number);
    UnclosedEscape(c.branch);
    UnclosedLiteral("<!--");
    UnclosedLiteral(" ");
    UnclosedLiteral("gc:codex-prepush-cycle");
    UnclosedLiteral("issue=\"");
    UnclosedLiteral("branch=\"");
    UnclosedLiteral("cycle=\"");
    UnclosedLiteral("\"");
  }

  /** An ordinary cycle, as it may be quoted: no override, and a branch without angle brackets. */
  predicate Ordinary(c: Cycle) {
    !c.isOverride && Plain(c.branch) && Unclosed(c.branch)
  }

  /** The text behind an ordinary marker's comment end. */
  function Visible(c: Cycle): Text {
    T("\n\n") + Headline(c)
  }

  lemma OrdinaryEnding(c: Cycle)
    requires !c.isOverride
    ensures Ending(c) == T(" ") + (T("-->") + Visible(c))
  {
    assert T(" -->") == T(" ") + T("-->");
    Regroup(T(" "), T("-->"), Visible(c));
    assert [] + (T(" -->") + Visible(c)) == T(" -->") + Visible(c);
  }

  lemma OrdinaryMarker(c: Cycle)
    requires Ordinary(c)
    ensures Marker(c) == (Front(c) + T(" ")) + (T("-->") + Visible(c))
  {
    MarkerInTwo(c);
    OrdinaryEnding(c);
    Regroup(Front(c), T(" "), T("-->") + Visible(c));
  }

  lemma VisibleIsPlain(c: Cycle)
    requires Ordinary(c)
    ensures Plain(Visible(c)) && !IsLow(Visible(c)[0])
  {
    PlainHeadline(c);
    PlainLiteral("\n\n");
    assert T("\n\n")[0] == 10;
  }

  predicate EndsIn(s: Text, unit: CodeUnit) {
    s != [] && s[|s| - 1] == unit
  }

  lemma VisibleEndsInDot(c: Cycle)
    requires !c.isOverride
    ensures EndsIn(Visible(c), 0x2e)
  {
    assert EndsIn(T(" to count cycles."), 0x2e);
    assert EndsIn(HeadlineBody(c), 0x2e);
    assert Headline(c) == HeadlineBody(c) + [];
  }

  // ---- quotable text --------------------------------------------------------------------------------

  /** Text that closes one comment, shows something plain behind it, and survives trimming. */
  ghost predicate Shaped(m: Text, cut: Text, visible: Text) {
    && m == cut + (T("-->") + visible)
    && cut != [] && cut[0] == 0x3c && Unclosed(cut)
    && EndsIn(visible, 0x2e) && Plain(visible) && !IsLow(visible[0])
  }

  /** Such text that the scanner reads as one marker of the issue. */
  ghost predicate Quotable(m: Text, issue: nat) {
    |Parsed(m, issue)| == 1 && exists cut, visible :: Shaped(m, cut, visible)
  }

  lemma ShapedIsTrimmed(m: Text, cut: Text, visible: Text)
    requires Shaped(m, cut, visible)
    ensures Trim(m) == m && m != []
  {
    assert m[0] == 0x3c && m[|m| - 1] == 0x2e;
  }

  /** Every ordinary comment of the server is quotable. */
  lemma OrdinaryIsQuotable(c: Cycle)
    requires Ordinary(c) && c.reason.None?
    ensures Quotable(Marker(c), c.issue)
  {
    OrdinaryMarker(c);
    OrdinaryShape(c);
    ShapedCounts(Marker(c), Front(c) + T(" "), Visible(c), c);
  }

  lemma ShapedCounts(m: Text, cut: Text, visible: Text, c: Cycle)
    requires Ordinary(c) && c.reason.None? && m == Marker(c) && Shaped(m, cut, visible)
    ensures Quotable(m, c.issue)
  {
    PlainCycleCountsOnce(c, c.issue);
  }

  lemma FrontOpens(c: Cycle)
    ensures Front(c) != [] && Front(c)[0] == 0x3c
  {
    assert T("<!--")[0] == 0x3c;
    assert IssuePart(c)[0] == 0x3c;
  }

  lemma OrdinaryShape(c: Cycle)
    requires Ordinary(c)
    ensures Shaped((Front(c) + T(" ")) + (T("-->") + Visible(c)), Front(c) + T(" "), Visible(c))
  {
    UnclosedFront(c);
    FrontOpens(c);
    VisibleIsPlain(c);
    VisibleEndsInDot(c);
    ShapeOf(Front(c), Visible(c));
  }

  lemma ShapeOf(front: Text, visible: Text)
    requires front != [] && front[0] == 0x3c && Unclosed(front)
    requires EndsIn(visible, 0x2e) && Plain(visible) && !IsLow(visible[0])
    ensures Shaped((front + T(" ")) + (T("-->") + visible), front + T(" "), visible)
  {
    UnclosedLiteral(" ");
  }

  // ---- a reason that quotes such text ------------------------------------------------------------------

  /** The attributes of an override up to the end of the comment its reason quotes. */
  function Opening(cut: Text): Text {
    T(" override=\"true\"") + (T(" reason=") + [QUOTE]) + Escape(cut)
  }

  /** Everything of the override's comment between the quoted comment end and the repeated reason. */
  function Between(c: Cycle, visible: Text): Text {
    (Escape(visible) + [QUOTE]) + (T(" -->") + (T("\n\n") + (HeadlineBody(c) + T("\nOverride reason: "))))
  }

  lemma EndingWithReason(c: Cycle, m: Text)
    requires c.isOverride && c.reason == Some(m) && Trim(m) == m && m != []
    ensures Ending(c) == (T(" override=\"true\"") + (T(" reason=") + [QUOTE] + Escape(m) + [QUOTE]))
      + (T(" -->") + (T("\n\n") + (HeadlineBody(c) + (T("\nOverride reason: ") + m))))
  {
  }

  /** The concatenations regrouped. */
  lemma QuotingPieces(a: Text, b: Text, e: Text, v: Text, n: Text, body: Text, r: Text, m: Text)
    ensures (a + (b + [QUOTE] + (e + (T("-->") + v)) + [QUOTE])) + (T(" -->") + (n + (body + (r + m))))
         == (a + (b + [QUOTE]) + e) + (T("-->") + (((v + [QUOTE]) + (T(" -->") + (n + (body + r)))) + m))
  {
  }

  lemma QuotingEnding(c: Cycle, m: Text, cut: Text, visible: Text)
    requires c.isOverride && c.reason == Some(m) && Shaped(m, cut, visible)
    ensures Ending(c) == Opening(cut) + (T("-->") + (Between(c, visible) + m))
  {
    ShapedIsTrimmed(m, cut, visible);
    EndingWithReason(c, m);
    EscapeKeepsClose(cut, visible);
    QuotingPieces(T(" override=\"true\""), T(" reason="), Escape(cut), Escape(visible), T("\n\n"), HeadlineBody(c),
                  T("\nOverride reason: "), m);
  }

  lemma OpeningIsUnclosed(cut: Text)
    requires Unclosed(cut)
    ensures Unclosed(Opening(cut))
  {
    UnclosedEscape(cut);
    UnclosedLiteral(" override=\"true\"");
    UnclosedLiteral(" reason=");
  }

  /** The comment's free text is plain up to the repeated reason. */
  lemma QuotingFreeText(c: Cycle, m: Text, cut: Text, visible: Text)
    requires c.isOverride && c.reason == Some(m) && Shaped(m, cut, visible)
    ensures FreeText(c) == Between(c, visible) + m
  {
    QuotingEnding(c, m, cut, visible);
    OpeningIsUnclosed(cut);
    CloseBehind(Opening(cut), Between(c, visible) + m);
  }

  lemma BetweenIsPlain(c: Cycle, visible: Text)
    requires Plain(visible) && Plain(c.branch)
    ensures Plain(Between(c, visible))
  {
    PlainEscape(visible);
    PlainBody(c);
    PlainWording();
    PlainLiteral(" -->");
    PlainLiteral("\n\n");
  }

  /** The free text of such an override counts what its reason counts. */
  lemma QuotedReasonIsFreeText(c: Cycle, m: Text)
    requires c.isOverride && c.reason == Some(m) && Plain(c.branch) && Quotable(m, c.issue)
    ensures Parsed(FreeText(c), c.issue) == Parsed(m, c.issue)
  {
    var cut, visible :| Shaped(m, cut, visible);
    QuotingFreeText(c, m, cut, visible);
    BetweenIsPlain(c, visible);
    PlainTextIsSkipped(Between(c, visible), m);
  }

  /** So the override's comment counts twice: once for itself, once for the comment its reason quotes. */
  lemma QuotedReasonCountsTwice(c: Cycle, m: Text)
    requires c.isOverride && c.reason == Some(m) && Plain(c.branch) && Quotable(m, c.issue)
    ensures Parsed(Marker(c), c.issue) == [Entry(c.branch, c.number)] + Parsed(m, c.issue)
    ensures |Parsed(Marker(c), c.issue)| == 2
  {
    QuotedReasonIsFreeText(c, m);
    MarkerRoundTrip(c);
  }

  // ---- what that does to a run ------------------------------------------------------------------------------

  lemma CompletingTwice(t: Thread, c: Cycle, m: Text)
    requires c.isOverride && c.reason == Some(m) && Plain(c.branch) && Quotable(m, c.issue)
    ensures Count(Complete(t, c).comments, c.issue) == Count(t.comments, c.issue) + 2
    ensures Complete(t, c).completed == t.completed + [c]
  {
    QuotedReasonIsFreeText(c, m);
    CompletionExcess(t, c);
  }

  lemma HandleOneMore(events: seq<Event>, e: Event, issue: nat, cap: nat)
    ensures HandleAll(events + [e], issue, cap) == Handle(HandleAll(events, issue, cap), e, issue, cap)
  {
    assert (events + [e])[..|events|] == events;
  }

  /** The first request on an issue, authorized with a reason that quotes a comment. */
  lemma OneQuotingReview(branch: Text, m: Text, issue: nat, cap: nat)
    requires Quotable(m, issue) && Plain(branch)
    ensures var t := HandleAll([Review(branch, true, Some(m))], issue, cap);
      t.completed == [Cycle(issue, branch, 1, true, Some(m), cap)] && Count(t.comments, issue) == 2
  {
    var c := Cycle(issue, branch, 1, true, Some(m), cap);
    var e := Review(branch, true, Some(m));
    var cut, visible :| Shaped(m, cut, visible);
    ShapedIsTrimmed(m, cut, visible);
    HandleOneMore([], e, issue, cap);
    assert [] + [e] == [e] && [] + [c] == [c] && Count([], issue) == 0;
    assert NextCycle(Thread([], []), e, issue, cap) == Some(c);
    CompletingTwice(Thread([], []), c, m);
  }

  lemma ReviewCompletes(t: Thread, branch: Text, reason: Text, issue: nat, cap: nat, n: nat)
    requires Trim(reason) != [] && Count(t.comments, issue) == n
    ensures Handle(t, Review(branch, true, Some(reason)), issue, cap).completed
      == t.completed + [Cycle(issue, branch, n + 1, true, Some(reason), cap)]
  {
    var c := Cycle(issue, branch, n + 1, true, Some(reason), cap);
    assert NextCycle(t, Review(branch, true, Some(reason)), issue, cap) == Some(c);
  }

  lemma ThirdBehind(events: seq<Event>, c: Cycle, branch: Text, issue: nat, cap: nat, reason: Text)
    requires HandleAll(events, issue, cap).completed == [c] && Count(HandleAll(events, issue, cap).comments, issue) == 2
    requires Trim(reason) != []
    ensures HandleAll(events + [Review(branch, true, Some(reason))], issue, cap).completed
      == [c] + [Cycle(issue, branch, 3, true, Some(reason), cap)]
  {
    HandleOneMore(events, Review(branch, true, Some(reason)), issue, cap);
    ReviewCompletes(HandleAll(events, issue, cap), branch, reason, issue, cap, 2);
  }

  /** After it, the next authorized cycle is numbered 3, although it is the second. */
  lemma QuotedReasonSkipsANumber(branch: Text, m: Text, issue: nat, cap: nat, reason: Text, events: seq<Event>)
    requires Quotable(m, issue) && Plain(branch) && Trim(reason) != []
    requires events == [Review(branch, true, Some(m))]
    ensures HandleAll(events + [Review(branch, true, Some(reason))], issue, cap).completed
      == [Cycle(issue, branch, 1, true, Some(m), cap)] + [Cycle(issue, branch, 3, true, Some(reason), cap)]
  {
    OneQuotingReview(branch, m, issue, cap);
    ThirdBehind(events, Cycle(issue, branch, 1, true, Some(m), cap), branch, issue, cap, reason);
  }

  lemma CapRefuses(t: Thread, branch: Text, issue: nat, cap: nat)
    requires Count(t.comments, issue) >= cap
    ensures Handle(t, Review(branch, false, None), issue, cap) == t
    ensures EvaluateCap(Count(t.comments, issue), cap, false, None) == Err(CapReached)
  {
  }

  /** And with a cap of two, the next ordinary request is refused although one cycle took place. */
  lemma QuotedReasonUsesUpTheCap(branch: Text, m: Text, issue: nat, events: seq<Event>)
    requires Quotable(m, issue) && Plain(branch)
    requires events == [Review(branch, true, Some(m))]
    ensures var t := HandleAll(events, issue, 2);
      && |t.completed| == 1
      && EvaluateCap(Count(t.comments, issue), 2, false, None) == Err(CapReached)
      && HandleAll(events + [Review(branch, false, None)], issue, 2) == t
  {
    OneQuotingReview(branch, m, issue, 2);
    HandleOneMore(events, Review(branch, false, None), issue, 2);
    CapRefuses(HandleAll(events, issue, 2), branch, issue, 2);
  }
}
