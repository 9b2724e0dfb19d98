/** The log monitor's ring buffer of log lines, its pattern compiler and its matcher.
    The reference is "join everything that is held and scan it"; the last-line
    shortcut and the cached text are proved to agree with it. */
module LogBuffers {
  import opened Options
  import opened Regexp

  datatype Log = Log(timestamp: int, message: string)

  // ----- patterns -----

  /** A compiled rule and the verdict that it can match only in the last pushed line. */
  datatype Pattern = Pattern(regexp: Regex, lastLineOnly: bool)

  /** The three parses that `CompilePattern` makes: the expression as written, the
      expression with `\z` appended, and the grouped expression with `\z` appended.
      The compiled regexp is identified with its parse tree. */
  function CompilePattern(alone: Option<Regex>, anchored: Option<Regex>, grouped: Option<Regex>): (r: Option<Pattern>) {
    if alone.None? || anchored.None? then None
    else if grouped.None? then Some(Pattern(anchored.value, false))
    else Some(Pattern(anchored.value, anchored.value == grouped.value && IsLastLineOnly(anchored.value)))
  }

  /** What the parser promises of the grouped text: one of the branches, then the end of the text. */
  ghost predicate DenotesGroup(tree: Regex, branches: seq<Regex>) {
    forall t: string, i: nat, j: nat | i <= j <= |t| ::
      Matches(tree, t, i, j) == Matches(Concat([Alternate(branches), EndText]), t, i, j)
  }

  /** Every match reaches the end of the text. */
  ghost predicate ReachesEnd(re: Regex) {
    forall t: string, i: nat, j: nat | i <= j <= |t| && Matches(re, t, i, j) :: j == |t|
  }

  /** What `Match` relies on when it takes the shortcut. */
  ghost predicate Sound(p: Pattern) {
    p.lastLineOnly ==> IsLastLineOnly(p.regexp) && ReachesEnd(p.regexp)
  }

  /** Patterns as `CompilePattern` makes them. */
  type SoundPattern = p: Pattern | Sound(p) witness Pattern(NoMatch, false)

  /** What the parser promises of the text with the anchor appended: it binds to the last branch. */
  ghost predicate DenotesAppended(tree: Regex, branches: seq<Regex>)
    requires branches != []
  {
    SameMatches(tree, AnchoredAlternation(branches))
  }

  /** What compilation gives, whatever the three parses are: a pattern exactly when the expression parses
      with and without the anchor; it matches what the expression with the anchor appended matches; it is
      marked exactly when the group makes no difference and the classifier accepts; and then it may take
      the shortcut. */
  lemma {:induction false} CompiledPatternMeans(alone: Option<Regex>, anchored: Option<Regex>, grouped: Option<Regex>,
                                                branches: seq<Regex>)
    requires branches != []
    requires anchored.Some? ==> DenotesAppended(anchored.value, branches)
    requires grouped.Some? ==> DenotesGroup(grouped.value, branches)
    ensures var r := CompilePattern(alone, anchored, grouped);
      && (r.Some? <==> alone.Some? && anchored.Some?)
      && (r.Some? ==> SameMatches(r.value.regexp, AnchoredAlternation(branches)))
      && (r.Some? ==> (r.value.lastLineOnly <==> grouped == anchored && IsLastLineOnly(anchored.value)))
      && (r.Some? ==> Sound(r.value))
  {
    var r := CompilePattern(alone, anchored, grouped);
    if r.Some? && r.value.lastLineOnly {
      var tree := grouped.value;
      forall t: string, i: nat, j: nat | i <= j <= |t| && Matches(tree, t, i, j) ensures j == |t| {
        ConcatReachesEnd(Alternate(branches), t, i, j);
      }
    }
  }

  /** The two trees match the same spans of every text. */
  ghost predicate SameMatches(a: Regex, b: Regex) {
    forall t: string, i: nat, j: nat | i <= j <= |t| :: Matches(a, t, i, j) == Matches(b, t, i, j)
  }

  lemma {:induction false} SameMatchesSameStart(a: Regex, b: Regex, t: string, i: nat)
    requires SameMatches(a, b) && StartsAt(a, t, i)
    ensures StartsAt(b, t, i)
  {
    var j :| i <= j <= |t| && Matches(a, t, i, j);
    assert Matches(b, t, i, j);
  }

  lemma {:induction false} SameStartsSameSearch(a: Regex, b: Regex, t: string)
    requires forall i: nat :: StartsAt(a, t, i) == StartsAt(b, t, i)
    ensures Search(a, t) == Search(b, t)
  {
    var x, y := Search(a, t), Search(b, t);
    SearchIsLeftmost(a, t, if y.Some? then y.value else 0);
    SearchIsLeftmost(b, t, if x.Some? then x.value else 0);
  }

  lemma {:induction false} SameMatchesSameSearch(a: Regex, b: Regex, t: string)
    requires SameMatches(a, b)
    ensures Search(a, t) == Search(b, t)
  {
    forall i: nat ensures StartsAt(a, t, i) == StartsAt(b, t, i) {
      if StartsAt(a, t, i) { SameMatchesSameStart(a, b, t, i); }
      if StartsAt(b, t, i) { SameMatchesSameStart(b, a, t, i); }
    }
    SameStartsSameSearch(a, b, t);
  }

  /** So a compiled pattern finds in the buffer what the expression with the anchor appended finds in it. */
  lemma {:induction false} CompiledPatternFinds(alone: Option<Regex>, anchored: Option<Regex>, grouped: Option<Regex>,
                                                branches: seq<Regex>, pushed: seq<Log>, max: nat)
    requires branches != []
    requires anchored.Some? ==> DenotesAppended(anchored.value, branches)
    requires grouped.Some? ==> DenotesGroup(grouped.value, branches)
    ensures var r := CompilePattern(alone, anchored, grouped);
      r.Some? ==> ReferenceMatch(pushed, max, r.value.regexp) == ReferenceMatch(pushed, max, AnchoredAlternation(branches))
  {
    CompiledPatternMeans(alone, anchored, grouped, branches);
    var r := CompilePattern(alone, anchored, grouped);
    if r.Some? {
      SameMatchesSameSearch(r.value.regexp, AnchoredAlternation(branches), Text(pushed, max));
    }
  }

  // ----- the joined text -----

  function ConcatLogs(lines: seq<string>): string {
    if |lines| == 0 then ""
    else if |lines| == 1 then lines[0]
    else lines[0] + "\n" + ConcatLogs(lines[1..])
  }

  function Messages(logs: seq<Log>): (r: seq<string>)
    ensures |r| == |logs|
  {
    seq(|logs|, k requires 0 <= k < |logs| => logs[k].message)
  }

  /** The newest `max` of all the logs ever pushed. */
  function Held(pushed: seq<Log>, max: nat): (r: seq<Log>)
    ensures |r| == if |pushed| < max then |pushed| else max
  {
    if |pushed| <= max then pushed else pushed[|pushed| - max..]
  }

  /** One empty line for every slot that was never filled, then the held messages. */
  function Lines(pushed: seq<Log>, max: nat): (r: seq<string>)
    ensures |r| == max
  {
    seq(max - |Held(pushed, max)|, _ => "") + Messages(Held(pushed, max))
  }

  function Text(pushed: seq<Log>, max: nat): string {
    ConcatLogs(Lines(pushed, max))
  }

  lemma {:induction false} ConcatSplits(a: seq<string>, b: seq<string>)
    requires a != [] && b != []
    ensures ConcatLogs(a + b) == ConcatLogs(a) + "\n" + ConcatLogs(b)
  {
    if |a| == 1 {
      assert (a + b)[1..] == b;
    } else {
      assert (a + b)[1..] == a[1..] + b;
      ConcatSplits(a[1..], b);
    }
  }

  function Newlines(n: nat): (r: string)
    ensures |r| == n && forall k :: 0 <= k < n ==> r[k] == '\n'
  {
    if n == 0 then "" else "\n" + Newlines(n - 1)
  }

  /** The text is one newline for every empty slot, then the held messages joined by
      newlines; with nothing held there is one newline less, because a join of only
      empty lines has one separator less than lines. */
  lemma {:induction false} TextShape(pushed: seq<Log>, max: nat)
    requires max >= 1
    ensures pushed == [] ==> Text(pushed, max) == Newlines(max - 1)
    ensures pushed != [] ==>
      Text(pushed, max) == Newlines(max - |Held(pushed, max)|) + ConcatLogs(Messages(Held(pushed, max)))
  {
    var held := Held(pushed, max);
    var gap := max - |held|;
    var pad := seq(gap, _ => "");
    if pushed == [] {
      assert pad + Messages(held) == pad;
      EmptyLinesJoin(pad);
    } else if gap == 0 {
      assert pad + Messages(held) == Messages(held);
    } else {
      ConcatSplits(pad, Messages(held));
      EmptyLinesJoin(pad);
      NewlinesSnoc(gap - 1);
    }
  }

  lemma {:induction false} EmptyLinesJoin(pad: seq<string>)
    requires pad != [] && forall k :: 0 <= k < |pad| ==> pad[k] == ""
    ensures ConcatLogs(pad) == Newlines(|pad| - 1)
  {
    if |pad| > 1 { EmptyLinesJoin(pad[1..]); }
  }

  lemma NewlinesSnoc(n: nat)
    ensures Newlines(n) + "\n" == Newlines(n + 1)
  {
    assert forall k :: 0 <= k < n + 1 ==> (Newlines(n) + "\n")[k] == Newlines(n + 1)[k];
  }

  // ----- the reference matcher -----

  function Newest(held: seq<Log>, k: nat): (r: seq<Log>)
    requires k <= |held|
    ensures |r| == k
  {
    if k == 0 then [] else [held[|held| - k]] + Newest(held, k - 1)
  }

  lemma {:induction false} NewestIsSuffix(held: seq<Log>, k: nat)
    requires k <= |held|
    ensures Newest(held, k) == held[|held| - k..]
  {
    if k > 0 { NewestIsSuffix(held, k - 1); }
  }

  /** Characters that the newest `k` lines take up, a separator counted with each. */
  function Span(held: seq<Log>, k: nat): (r: nat)
    requires k <= |held|
  {
    if k == 0 then 0 else Span(held, k - 1) + |held[|held| - k].message| + 1
  }

  lemma {:induction false} SpanIsJoinedLength(held: seq<Log>, k: nat)
    requires 1 <= k <= |held|
    ensures Span(held, k) == |ConcatLogs(Messages(Newest(held, k)))| + 1
  {
    var lines := Messages(Newest(held, k));
    if k == 1 {
      assert Span(held, 1) == Span(held, 0) + |held[|held| - 1].message| + 1;
    } else {
      SpanIsJoinedLength(held, k - 1);
      assert Newest(held, k)[1..] == Newest(held, k - 1);
      assert lines[1..] == Messages(Newest(held, k - 1));
    }
  }

  /** The number of newest lines to take, counting up from `k`, until they span more than `s`. */
  function CoverCount(held: seq<Log>, s: int, k: nat): (r: nat)
    requires k <= |held|
    ensures k <= r <= |held|
    decreases |held| - k
  {
    if k == |held| || (k > 0 && Span(held, k) > s) then k
    else CoverCount(held, s, k + 1)
  }

  /** The newest lines that a match from `start` on reaches into. */
  function Cover(held: seq<Log>, text: string, start: nat): (r: seq<Log>) {
    Newest(held, CoverCount(held, |text| - start - 1, 0))
  }

  /** Build the whole text, scan all of it, return the lines that the match reaches into. */
  function ReferenceMatch(pushed: seq<Log>, max: nat, re: Regex): (r: seq<Log>) {
    var text := Text(pushed, max);
    var held := Held(pushed, max);
    match Search(re, text)
    case None => []
    case Some(start) => Cover(held, text, start)
  }

  /** The newest `k` held lines, with the separator in front of them, reach back to `start`. */
  ghost predicate Reaches(held: seq<Log>, text: string, start: nat, k: nat)
    requires 1 <= k <= |held|
  {
    start + 1 >= |text| - |ConcatLogs(Messages(Newest(held, k)))|
  }

  ghost predicate IsShortestCover(held: seq<Log>, text: string, start: nat, r: seq<Log>) {
    && |r| <= |held| && r == held[|held| - |r|..]
    && (held != [] ==> r != [])
    && (forall k :: 1 <= k < |r| ==> !Reaches(held, text, start, k))
    && (0 < |r| < |held| ==> Reaches(held, text, start, |r|))
  }

  /** The reference returns the shortest non-empty suffix of the held lines that reaches
      back to the leftmost match, or every held line when none does. */
  lemma {:induction false} ReferenceIsShortestCover(pushed: seq<Log>, max: nat, re: Regex)
    ensures var text, held, found := Text(pushed, max), Held(pushed, max), Search(re, Text(pushed, max));
      if found.None? then ReferenceMatch(pushed, max, re) == []
      else ReferenceMatch(pushed, max, re) == Cover(held, text, found.value) &&
           IsShortestCover(held, text, found.value, Cover(held, text, found.value))
  {
    var text, held := Text(pushed, max), Held(pushed, max);
    var found := Search(re, text);
    if found.Some? {
      CoverTakesShortest(held, text, found.value);
    }
  }

  lemma {:induction false} CoverTakesShortest(held: seq<Log>, text: string, start: nat)
    ensures IsShortestCover(held, text, start, Cover(held, text, start))
  {
    CoverIsShortest(held, text, start, 0);
    NewestIsSuffix(held, CoverCount(held, |text| - start - 1, 0));
  }

  lemma {:induction false} CoverIsShortest(held: seq<Log>, text: string, start: nat, k: nat)
    requires k <= |held|
    ensures var r := CoverCount(held, |text| - start - 1, k);
      && (held != [] ==> r > 0)
      && (forall m :: k <= m < r && 0 < m ==> !Reaches(held, text, start, m))
      && (0 < r < |held| ==> Reaches(held, text, start, r))
    decreases |held| - k
  {
    if k > 0 {
      SpanIsJoinedLength(held, k);
    }
    if k < |held| && !(k > 0 && Reaches(held, text, start, k)) {
      CoverIsShortest(held, text, start, k + 1);
    }
  }

  // ----- the shortcut -----

  /** Scan only the newest message. */
  function LastLineMatch(pushed: seq<Log>, re: Regex): (r: seq<Log>) {
    if pushed == [] || Search(re, pushed[|pushed| - 1].message).None? then []
    else [pushed[|pushed| - 1]]
  }

  /** What precedes the newest message in the text: nothing, or whole lines. */
  lemma {:induction false} TextEndsInLastMessage(pushed: seq<Log>, max: nat) returns (before: string)
    requires max >= 1 && pushed != []
    ensures Text(pushed, max) == before + pushed[|pushed| - 1].message
    ensures before == "" || WholeLines(before)
  {
    var lines := Lines(pushed, max);
    var last := pushed[|pushed| - 1].message;
    assert lines == lines[..max - 1] + [last];
    if max == 1 {
      before := "";
      assert lines == [last];
    } else {
      ConcatSplits(lines[..max - 1], [last]);
      before := ConcatLogs(lines[..max - 1]) + "\n";
    }
  }

  lemma {:induction false} MatchStaysInLastLine(re: Regex, before: string, last: string, i: nat)
    requires IsLastLineOnly(re) && ReachesEnd(re)
    requires before == "" || WholeLines(before)
    requires StartsAt(re, before + last, i)
    ensures |before| <= i && StartsAt(re, last, i - |before|)
  {
    var t := before + last;
    var j :| i <= j <= |t| && Matches(re, t, i, j);
    assert j == |t|;
    MatchHasNoNewline(re, t, i, j);
    if before == "" {
      assert t == last;
    } else {
      assert t[|before| - 1] == '\n';
      MatchIgnoresEarlierLines(re, before, last, i - |before|, |last|);
    }
  }

  lemma {:induction false} LastLineMatchIsInText(re: Regex, before: string, last: string, i: nat)
    requires IsLastLineOnly(re)
    requires before == "" || WholeLines(before)
    requires StartsAt(re, last, i)
    ensures StartsAt(re, before + last, |before| + i)
  {
    var j :| i <= j <= |last| && Matches(re, last, i, j);
    if before == "" {
      assert before + last == last;
    } else {
      MatchIgnoresEarlierLines(re, before, last, i, j);
    }
  }

  lemma OneLineCovers(held: seq<Log>, s: int)
    requires held != [] && |held[|held| - 1].message| + 1 > s
    ensures CoverCount(held, s, 0) == 1
  {
    assert Span(held, 1) == Span(held, 0) + |held[|held| - 1].message| + 1;
    assert CoverCount(held, s, 0) == CoverCount(held, s, 1);
  }

  /** The whole text has a match exactly when the last line has one, and then it starts in that line. */
  lemma {:induction false} SearchAgrees(re: Regex, before: string, last: string)
    requires IsLastLineOnly(re) && ReachesEnd(re)
    requires before == "" || WholeLines(before)
    ensures Search(re, before + last).Some? <==> Search(re, last).Some?
    ensures Search(re, before + last).Some? ==> |before| <= Search(re, before + last).value <= |before + last|
  {
    var inText, inLast := Search(re, before + last), Search(re, last);
    if inText.Some? {
      SearchIsLeftmost(re, before + last, 0);
      MatchStaysInLastLine(re, before, last, inText.value);
      SearchIsLeftmost(re, last, inText.value - |before|);
    } else if inLast.Some? {
      SearchIsLeftmost(re, last, 0);
      LastLineMatchIsInText(re, before, last, inLast.value);
      SearchIsLeftmost(re, before + last, |before| + inLast.value);
    }
  }

  lemma LastLineIsCover(pushed: seq<Log>, max: nat, s: int)
    requires max >= 1 && pushed != [] && s < |pushed[|pushed| - 1].message|
    ensures var held := Held(pushed, max); Newest(held, CoverCount(held, s, 0)) == [pushed[|pushed| - 1]]
  {
    var held := Held(pushed, max);
    OneLineCovers(held, s);
    assert Newest(held, 1) == [held[|held| - 1]] + Newest(held, 0);
  }

  /** The shortcut agrees with the reference for every history, capacity and pattern that
      may take it: embedded newlines, partly filled rings and the empty buffer included. */
  lemma {:induction false} ShortcutIsReference(pushed: seq<Log>, max: nat, p: Pattern)
    requires max >= 1 && Sound(p) && p.lastLineOnly
    ensures LastLineMatch(pushed, p.regexp) == ReferenceMatch(pushed, max, p.regexp)
  {
    if pushed == [] {
      assert Held(pushed, max) == [];
    } else {
      var last := pushed[|pushed| - 1];
      var before := TextEndsInLastMessage(pushed, max);
      SearchAgrees(p.regexp, before, last.message);
      var found := Search(p.regexp, before + last.message);
      if found.Some? {
        LastLineIsCover(pushed, max, |before + last.message| - found.value - 1);
      }
    }
  }

  // ----- exactly when the shortcut may be taken -----

  ghost predicate ShortcutAgrees(re: Regex) {
    forall pushed: seq<Log>, max: nat | max >= 1 :: LastLineMatch(pushed, re) == ReferenceMatch(pushed, max, re)
  }

  /** A match that stops short of the end is still there after another line, so the
      reference returns two lines and the shortcut at most one. */
  lemma {:induction false} ShortMatchBreaksShortcut(re: Regex, t: string, i: nat, j: nat)
    requires i <= j < |t| && Matches(re, t, i, j)
    ensures exists pushed :: LastLineMatch(pushed, re) != ReferenceMatch(pushed, 2, re)
  {
    var pushed := [Log(0, t), Log(1, "")];
    assert Lines(pushed, 2) == [t] + [""];
    ConcatSplits([t], [""]);
    var text := Text(pushed, 2);
    assert text == t + "\n";
    MatchIgnoresLaterText(re, t, "\n", i, j);
    assert StartsAt(re, text, i);
    SearchIsLeftmost(re, text, i);
    var start := Search(re, text).value;
    assert start <= i;
    assert Span(pushed, 1) == Span(pushed, 0) + 1;
    assert CoverCount(pushed, |text| - start - 1, 0) == CoverCount(pushed, |text| - start - 1, 1) == 2;
    assert |ReferenceMatch(pushed, 2, re)| == 2;
  }

  /** For a tree that the classifier accepts, the shortcut is right on every history and
      capacity exactly when every match of the tree reaches the end of the text. */
  lemma {:induction false} ShortcutNeedsExactlyTheEnd(re: Regex)
    requires IsLastLineOnly(re)
    ensures ShortcutAgrees(re) <==> ReachesEnd(re)
  {
    if ReachesEnd(re) {
      forall pushed: seq<Log>, max: nat | max >= 1 ensures LastLineMatch(pushed, re) == ReferenceMatch(pushed, max, re) {
        ShortcutIsReference(pushed, max, Pattern(re, true));
      }
    } else {
      var t: string, i: nat, j: nat :| i <= j <= |t| && Matches(re, t, i, j) && j != |t|;
      ShortMatchBreaksShortcut(re, t, i, j);
    }
  }

  /** The tree of `b1|...|bn\z`: the appended anchor binds to the last branch only. */
  function AnchoredAlternation(branches: seq<Regex>): Regex
    requires branches != []
  {
    Alternate(branches[..|branches| - 1] + [Concat([branches[|branches| - 1], EndText])])
  }

  /** Leaving out the comparison of trees is wrong for a top-level alternation exactly when
      one of the branches before the last can match before the end of the text. */
  lemma {:induction false} AlternationNeedsEveryBranchAnchored(branches: seq<Regex>)
    requires branches != [] && IsLastLineOnly(AnchoredAlternation(branches))
    ensures ShortcutAgrees(AnchoredAlternation(branches)) <==>
            forall n | 0 <= n < |branches| - 1 :: ReachesEnd(branches[n])
  {
    ShortcutNeedsExactlyTheEnd(AnchoredAlternation(branches));
    if forall n | 0 <= n < |branches| - 1 :: ReachesEnd(branches[n]) {
      AnchoredReachesEnd(branches);
    } else {
      var n :| 0 <= n < |branches| - 1 && !ReachesEnd(branches[n]);
      BranchStopsShort(branches, n);
    }
  }

  lemma {:induction false} AnchoredReachesEnd(branches: seq<Regex>)
    requires branches != [] && forall n | 0 <= n < |branches| - 1 :: ReachesEnd(branches[n])
    ensures ReachesEnd(AnchoredAlternation(branches))
  {
    var tree := AnchoredAlternation(branches);
    forall t: string, i: nat, j: nat | i <= j <= |t| && Matches(tree, t, i, j) ensures j == |t| {
      var n :| 0 <= n < |tree.subs| && Matches(tree.subs[n], t, i, j);
      if n == |branches| - 1 {
        ConcatReachesEnd(branches[n], t, i, j);
      } else {
        assert ReachesEnd(branches[n]);
      }
    }
  }

  lemma {:induction false} BranchStopsShort(branches: seq<Regex>, n: nat)
    requires n < |branches| - 1 && !ReachesEnd(branches[n])
    ensures !ReachesEnd(AnchoredAlternation(branches))
  {
    var tree := AnchoredAlternation(branches);
    var t: string, i: nat, j: nat :| i <= j <= |t| && Matches(branches[n], t, i, j) && j != |t|;
    assert tree.subs[n] == branches[n];
    assert Matches(tree, t, i, j);
  }

  lemma {:induction false} ConcatReachesEnd(re: Regex, t: string, i: nat, j: nat)
    requires i <= j <= |t| && Matches(Concat([re, EndText]), t, i, j)
    ensures j == |t|
  {
    var subs, tail := [re, EndText], [EndText];
    assert MatchesInOrder(subs, t, i, j);
    assert subs[1..] == tail && tail[1..] == [];
    var k :| i <= k <= j && Matches(subs[0], t, i, k) && MatchesInOrder(subs[1..], t, k, j);
    assert MatchesInOrder(tail, t, k, j);
    var l :| k <= l <= j && Matches(tail[0], t, k, l) && MatchesInOrder(tail[1..], t, l, j);
  }

  lemma LiteralStopsShort(w: string)
    ensures !ReachesEnd(Literal(w))
  {
    var t := w + " ";
    assert t[0..|w|] == w;
    assert Matches(Literal(w), t, 0, |w|);
  }

  /** The tree of `v|w\z` for two words, as in `oom-kill|Out of memory`, passes the classifier
      although the shortcut is wrong for it: only the comparison of trees stops it. */
  lemma {:induction false} WordAlternationNeedsTheComparison(v: string, w: string)
    requires '\n' !in v && '\n' !in w
    ensures var tree := AnchoredAlternation([Literal(v), Literal(w)]); IsLastLineOnly(tree) && !ShortcutAgrees(tree)
  {
    var branches := [Literal(v), Literal(w)];
    var last := Concat([Literal(w), EndText]);
    assert AnchoredAlternation(branches).subs == [Literal(v), last];
    assert IsLastLineOnly(last);
    LiteralStopsShort(v);
    assert !ReachesEnd(branches[0]);
    AlternationNeedsEveryBranchAnchored(branches);
  }

  // ----- the ring -----

  /** Where the absolute index `n` lands in a ring of `m` slots: the remainder, by subtraction. */
  function RingIndex(n: nat, m: nat): (r: nat)
    requires m > 0
    ensures r < m
  {
    if n < m then n else RingIndex(n - m, m)
  }

  lemma {:induction false} RingIndexIsRemainder(n: nat, m: nat)
    requires m > 0
    ensures RingIndex(n, m) == n % m
  {
    if n >= m {
      RingIndexIsRemainder(n - m, m);
      RemainderUnique(n, m, (n - m) / m + 1, (n - m) % m);
    } else {
      RemainderUnique(n, m, 0, n);
    }
  }

  lemma RemainderUnique(a: nat, m: nat, q: nat, r: nat)
    requires m > 0 && r < m && a == q * m + r
    ensures a % m == r
  {
    var d := a / m - q;
    assert d * m == r - a % m;
    MultipleIsFar(d, m);
  }

  lemma MultipleIsFar(d: int, m: int)
    requires m > 0
    ensures d >= 1 ==> d * m >= m
    ensures d <= -1 ==> d * m <= -m
  {
  }

  lemma {:induction false} RingIndexPlus(a: nat, d: nat, m: nat)
    requires d < m
    ensures var r := RingIndex(a, m); RingIndex(a + d, m) == if r + d < m then r + d else r + d - m
  {
    if a >= m { RingIndexPlus(a - m, d, m); }
  }

  function Reverse<T>(s: seq<T>): (r: seq<T>)
  {
    if s == [] then [] else Reverse(s[1..]) + [s[0]]
  }

  lemma {:induction false} ReverseSnoc<T>(s: seq<T>, x: T)
    ensures Reverse(s + [x]) == [x] + Reverse(s)
  {
    if s != [] {
      ReverseSnoc(s[1..], x);
      assert (s + [x])[1..] == s[1..] + [x];
    }
  }

  lemma LineIsDue(pushed: seq<Log>, max: nat, x: nat)
    requires x < max
    ensures Lines(pushed, max)[x] == if |pushed| + x < max then "" else pushed[|pushed| + x - max].message
  {
  }

  /** The log that is due in the slot of absolute index `|pushed| + x`: the one pushed a whole turn
      of the ring earlier, if there was one. */
  function Due(pushed: seq<Log>, max: nat, x: nat): Option<Log>
    requires x < max
  {
    if |pushed| + x < max then None else Some(pushed[|pushed| + x - max])
  }

  ghost predicate SlotHolds(buf: seq<Option<Log>>, msgs: seq<string>, pushed: seq<Log>, x: nat)
    requires |buf| == |msgs| && x < |buf|
  {
    var at, due := RingIndex(|pushed| + x, |buf|), Due(pushed, |buf|, x);
    buf[at] == due && msgs[at] == if due.None? then "" else due.value.message
  }

  ghost predicate RingHolds(buf: seq<Option<Log>>, msgs: seq<string>, pushed: seq<Log>) {
    |buf| == |msgs| && forall x: nat | x < |buf| :: SlotHolds(buf, msgs, pushed, x)
  }

  lemma RingHoldsNext(buf: seq<Option<Log>>, msgs: seq<string>, pushed: seq<Log>, log: Log)
    requires RingHolds(buf, msgs, pushed) && |buf| > 0
    ensures var at := RingIndex(|pushed|, |buf|); RingHolds(buf[at := Some(log)], msgs[at := log.message], pushed + [log])
  {
    var at := RingIndex(|pushed|, |buf|);
    var buf', msgs', pushed' := buf[at := Some(log)], msgs[at := log.message], pushed + [log];
    forall x: nat | x < |buf| ensures SlotHolds(buf', msgs', pushed', x) {
      if x == |buf| - 1 {
        NewSlotHolds(buf, msgs, pushed, log, pushed');
      } else {
        assert SlotHolds(buf, msgs, pushed, x + 1);
        DueShifts(pushed, log, |buf|, x);
        OldSlotHolds(buf, msgs, pushed, log, pushed', x);
      }
    }
  }

  lemma NewSlotHolds(buf: seq<Option<Log>>, msgs: seq<string>, pushed: seq<Log>, log: Log, pushed': seq<Log>)
    requires |buf| == |msgs| && |buf| > 0 && |pushed'| == |pushed| + 1 && pushed'[|pushed|] == log
    ensures var at := RingIndex(|pushed|, |buf|); SlotHolds(buf[at := Some(log)], msgs[at := log.message], pushed', |buf| - 1)
  {
    assert |pushed'| + (|buf| - 1) == |pushed| + |buf|;
  }

  lemma OldSlotHolds(buf: seq<Option<Log>>, msgs: seq<string>, pushed: seq<Log>, log: Log, pushed': seq<Log>, x: nat)
    requires |buf| == |msgs| && x + 1 < |buf| && SlotHolds(buf, msgs, pushed, x + 1)
    requires |pushed'| == |pushed| + 1 && Due(pushed', |buf|, x) == Due(pushed, |buf|, x + 1)
    ensures var at := RingIndex(|pushed|, |buf|); SlotHolds(buf[at := Some(log)], msgs[at := log.message], pushed', x)
  {
    RingIndexApart(|pushed|, x + 1, |buf|);
    assert |pushed'| + x == |pushed| + (x + 1);
  }

  lemma RingIndexApart(a: nat, d: nat, m: nat)
    requires 0 < d < m
    ensures RingIndex(a + d, m) != RingIndex(a, m)
  {
    RingIndexPlus(a, d, m);
  }

  lemma DueShifts(pushed: seq<Log>, log: Log, max: nat, x: nat)
    requires x + 1 < max
    ensures Due(pushed + [log], max, x) == Due(pushed, max, x + 1)
  {
  }

  class LogBuffer {
    const max: nat
    const buffer: array<Option<Log>>
    const msg: array<string>
    var current: nat
    var joined: string
    var joinedOK: bool
    ghost var pushed: seq<Log>

    ghost predicate Valid()
      reads this, buffer, msg
    {
      && buffer.Length == msg.Length == max
      && current == |pushed|
      && RingHolds(buffer[..], msg[..], pushed)
      && (joinedOK ==> joined == Text(pushed, max))
    }

    constructor (maxLines: nat)
      ensures Valid() && fresh(buffer) && fresh(msg)
      ensures max == maxLines && pushed == []
    {
      max := maxLines;
      buffer := new Option<Log>[maxLines](_ => None);
      msg := new string[maxLines](_ => "");
      current, joined, joinedOK, pushed := 0, "", false, [];
    }

    method Index(n: nat) returns (i: nat)
      requires max >= 1
      ensures i == RingIndex(n, max)
    {
      i := n % max;
      RingIndexIsRemainder(n, max);
    }

    method Push(log: Log)
      requires Valid() && max >= 1
      modifies this, buffer, msg
      ensures Valid() && pushed == old(pushed) + [log]
    {
      var at := Index(current);
      buffer[at] := Some(log);
      msg[at] := log.message;
      current := current + 1;
      joinedOK := false;
      joined := "";
      pushed := pushed + [log];
      RingHoldsNext(old(buffer[..]), old(msg[..]), old(pushed), log);
      assert buffer[..] == old(buffer[..])[at := Some(log)] && msg[..] == old(msg[..])[at := log.message];
    }

    method String() returns (s: string)
      requires Valid() && max >= 1
      modifies this`joined, this`joinedOK
      ensures Valid() && s == Text(pushed, max)
    {
      if joinedOK {
        return joined;
      }
      var head := Index(current);
      RingHoldsLines(head);
      joined := ConcatLogs(msg[head..] + msg[..head]);
      joinedOK := true;
      s := joined;
    }

    lemma RingHoldsLines(head: nat)
      requires Valid() && max >= 1 && head == RingIndex(current, max)
      ensures msg[head..] + msg[..head] == Lines(pushed, max)
    {
      var lines := msg[head..] + msg[..head];
      forall x: nat | x < max ensures lines[x] == Lines(pushed, max)[x] {
        RingIndexPlus(current, x, max);
        assert SlotHolds(buffer[..], msg[..], pushed, x);
        LineIsDue(pushed, max, x);
      }
    }

    /** Matches the newest message alone. */
    method MatchLastLine(re: Regex) returns (matched: seq<Log>)
      requires Valid() && (max >= 1 || pushed == [])
      ensures matched == LastLineMatch(pushed, re)
    {
      if current == 0 {
        return [];
      }
      var last := Index(current - 1);
      assert SlotHolds(buffer[..], msg[..], pushed, max - 1);
      assert current + (max - 1) == current - 1 + max;
      if Search(re, msg[last]).None? {
        return [];
      }
      matched := [buffer[last].value];
    }

    /** Whatever path it takes, `Match` returns what the reference returns. */
    method Match(p: SoundPattern) returns (matched: seq<Log>)
      requires Valid() && max >= 1
      modifies this`joined, this`joinedOK
      ensures Valid()
      ensures matched == ReferenceMatch(pushed, max, p.regexp)
    {
      if p.lastLineOnly {
        ShortcutIsReference(pushed, max, p);
        matched := MatchLastLine(p.regexp);
      } else {
        matched := MatchWhole(p.regexp);
      }
    }

    /** Scans the whole text for the leftmost match and collects the lines that it reaches into. */
    method MatchWhole(re: Regex) returns (matched: seq<Log>)
      requires Valid() && max >= 1
      modifies this`joined, this`joinedOK
      ensures Valid()
      ensures matched == ReferenceMatch(pushed, max, re)
    {
      var log := String();
      var loc := Search(re, log);
      if loc.None? {
        return [];
      }
      var s := |log| - loc.value - 1;
      matched := CollectBack(s);
    }

    /** What a walk back through the ring finds after `k` lines. */
    lemma SlotFromEnd(k: nat)
      requires Valid() && k < max
      ensures var held, at := Held(pushed, max), RingIndex(current + max - 1 - k, max);
        && at < max
        && (if k < |held| then buffer[at] == Some(held[|held| - k - 1]) && msg[at] == held[|held| - k - 1].message
            else buffer[at] == None)
    {
      assert SlotHolds(buffer[..], msg[..], pushed, max - 1 - k);
      if k < |pushed| { HeldFromEnd(pushed, max, k); }
    }

    /** The line that is found after `k` lines on the way back, and its length. */
    method LineBack(i: nat, ghost k: nat) returns (line: Option<Log>, length: nat)
      requires Valid() && k < max && i == current + max - 1 - k
      ensures var held := Held(pushed, max);
        && line == (if k < |held| then Some(held[|held| - k - 1]) else None)
        && (line.Some? ==> length == |line.value.message|)
    {
      SlotFromEnd(k);
      var at := Index(i);
      line, length := buffer[at], |msg[at]|;
    }

    /** Walks the ring backwards from the newest slot until the lines span more than `s`. */
    method CollectBack(s: int) returns (matched: seq<Log>)
      requires Valid()
      ensures var held := Held(pushed, max); matched == Newest(held, CoverCount(held, s, 0))
    {
      ghost var held := Held(pushed, max);
      var total := 0;
      matched := [];
      var i := current + max - 1;
      while i >= current
        invariant current - 1 <= i < current + max
        invariant |matched| == current + max - 1 - i <= |held|
        invariant Reverse(matched) == Newest(held, |matched|)
        invariant total == Span(held, |matched|)
        invariant CoverCount(held, s, 0) == CoverCount(held, s, |matched|)
        invariant matched != [] ==> total <= s
      {
        var line, length := LineBack(i, |matched|);
        if line.None? {
          break;
        }
        NewestGrows(held, matched, line.value);
        matched := matched + [line.value];
        total := total + length + 1;
        if total > s {
          break;
        }
        i := i - 1;
      }
      matched := Reverse(matched);
    }
  }

  lemma HeldFromEnd(pushed: seq<Log>, max: nat, k: nat)
    requires k < |pushed| && k < max
    ensures var held := Held(pushed, max);
      k < |held| && held[|held| - k - 1] == pushed[|pushed| - k - 1]
  {
  }

  lemma NewestGrows(held: seq<Log>, back: seq<Log>, line: Log)
    requires |back| < |held| && held[|held| - |back| - 1] == line
    requires Reverse(back) == Newest(held, |back|)
    ensures Reverse(back + [line]) == Newest(held, |back| + 1)
    ensures Span(held, |back| + 1) == Span(held, |back|) + |line.message| + 1
  {
    ReverseSnoc(back, line);
  }
}
