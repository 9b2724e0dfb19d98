/** Parse trees of Go's `regexp/syntax` package with the meaning of a match,
    and the static verdict that a rule can match only inside the last line. */
module Regexp {
  import opened Options

  datatype Regex =
    | NoMatch
    | EmptyMatch
    | Literal(runes: string)
    | CharClass(ranges: seq<(char, char)>)  // inclusive (lo, hi) pairs
    | AnyCharNotNL
    | AnyChar
    | BeginLine
    | EndLine
    | BeginText
    | EndText
    | WordBoundary
    | NoWordBoundary
    | Capture(sub: Regex)
    | Star(sub: Regex)
    | Plus(sub: Regex)
    | Quest(sub: Regex)
    | Repeat(sub: Regex, min: nat, max: Option<nat>)
    | Concat(subs: seq<Regex>)
    | Alternate(subs: seq<Regex>)

  // ----- meaning -----

  predicate InClass(ranges: seq<(char, char)>, c: char) {
    exists n | 0 <= n < |ranges| :: ranges[n].0 <= c <= ranges[n].1
  }

  predicate WordChar(c: char) {
    '0' <= c <= '9' || 'A' <= c <= 'Z' || 'a' <= c <= 'z' || c == '_'
  }

  predicate WordAt(t: string, i: int) {
    0 <= i < |t| && WordChar(t[i])
  }

  predicate AtWordBoundary(t: string, i: int) {
    WordAt(t, i - 1) != WordAt(t, i)
  }

  /** The span `t[i..j]` is a match of `re`; anchors and boundaries see all of `t`. */
  predicate Matches(re: Regex, t: string, i: nat, j: nat)
    requires i <= j <= |t|
    decreases re, 0, 0
  {
    match re
    case NoMatch => false
    case EmptyMatch => i == j
    case Literal(runes) => t[i..j] == runes
    case CharClass(ranges) => j == i + 1 && InClass(ranges, t[i])
    case AnyCharNotNL => j == i + 1 && t[i] != '\n'
    case AnyChar => j == i + 1
    case BeginLine => i == j && (i == 0 || t[i - 1] == '\n')
    case EndLine => i == j && (i == |t| || t[i] == '\n')
    case BeginText => i == j == 0
    case EndText => i == j == |t|
    case WordBoundary => i == j && AtWordBoundary(t, i)
    case NoWordBoundary => i == j && !AtWordBoundary(t, i)
    case Capture(sub) => Matches(sub, t, i, j)
    case Star(sub) => Iterates(sub, t, i, j)
    case Plus(sub) => exists k | i <= k <= j :: Matches(sub, t, i, k) && Iterates(sub, t, k, j)
    case Quest(sub) => i == j || Matches(sub, t, i, j)
    case Repeat(sub, min, max) =>
      (match max
       case None => exists k | i <= k <= j :: Times(sub, min, t, i, k) && Iterates(sub, t, k, j)
       case Some(m) => exists n | min <= n <= m :: Times(sub, n, t, i, j))
    case Concat(subs) => MatchesInOrder(subs, t, i, j)
    case Alternate(subs) => exists n | 0 <= n < |subs| :: Matches(subs[n], t, i, j)
  }

  /** Matches of `subs`, one after the other. */
  predicate MatchesInOrder(subs: seq<Regex>, t: string, i: nat, j: nat)
    requires i <= j <= |t|
    decreases subs, 0, 0
  {
    if subs == [] then i == j
    else exists k | i <= k <= j :: Matches(subs[0], t, i, k) && MatchesInOrder(subs[1..], t, k, j)
  }

  /** Any number of matches of `sub` in a row, each of which consumes something. */
  predicate Iterates(sub: Regex, t: string, i: nat, j: nat)
    requires i <= j <= |t|
    decreases sub, 1, j - i
  {
    i == j || exists k | i < k <= j :: Matches(sub, t, i, k) && Iterates(sub, t, k, j)
  }

  /** Exactly `n` matches of `sub` in a row. */
  predicate Times(sub: Regex, n: nat, t: string, i: nat, j: nat)
    requires i <= j <= |t|
    decreases sub, 1, n
  {
    if n == 0 then i == j
    else exists k | i <= k <= j :: Matches(sub, t, i, k) && Times(sub, n - 1, t, k, j)
  }

  /** Iterations that consume something are all the iterations there are:
      a star is the union of all its powers. */
  lemma {:induction false} IteratesIsSomePower(sub: Regex, t: string, i: nat, j: nat)
    requires i <= j <= |t|
    ensures Iterates(sub, t, i, j) <==> exists n: nat :: Times(sub, n, t, i, j)
  {
    if Iterates(sub, t, i, j) {
      var n := PowerOfIterates(sub, t, i, j);
      assert Times(sub, n, t, i, j);
    } else {
      forall n: nat ensures !Times(sub, n, t, i, j) {
        if Times(sub, n, t, i, j) { IteratesOfPower(sub, n, t, i, j); }
      }
    }
  }

  lemma {:induction false} PowerOfIterates(sub: Regex, t: string, i: nat, j: nat) returns (n: nat)
    requires i <= j <= |t| && Iterates(sub, t, i, j)
    ensures Times(sub, n, t, i, j)
    decreases j - i
  {
    if i == j {
      n := 0;
    } else {
      var k :| i < k <= j && Matches(sub, t, i, k) && Iterates(sub, t, k, j);
      var m := PowerOfIterates(sub, t, k, j);
      n := m + 1;
    }
  }

  lemma {:induction false} IteratesOfPower(sub: Regex, n: nat, t: string, i: nat, j: nat)
    requires i <= j <= |t| && Times(sub, n, t, i, j)
    ensures Iterates(sub, t, i, j)
  {
    if n > 0 {
      var k :| i <= k <= j && Matches(sub, t, i, k) && Times(sub, n - 1, t, k, j);
      IteratesOfPower(sub, n - 1, t, k, j);
    }
  }

  /** How many times in a row a repetition operator lets its operand match. */
  ghost predicate Allows(re: Regex, n: nat) {
    match re
    case Star(_) => true
    case Plus(_) => n >= 1
    case Quest(_) => n <= 1
    case Repeat(_, min, max) => min <= n && (max.Some? ==> n <= max.value)
    case _ => false
  }

  /** A star means any number of matches in a row, a plus at least one, a quest at most one, and a
      counted repeat a number between its bounds. */
  lemma {:induction false} RepetitionsCount(sub: Regex, min: nat, max: Option<nat>, t: string, i: nat, j: nat)
    requires i <= j <= |t|
    ensures Matches(Star(sub), t, i, j) <==> exists n: nat :: Times(sub, n, t, i, j)
    ensures Matches(Plus(sub), t, i, j) <==> exists n: nat :: n >= 1 && Times(sub, n, t, i, j)
    ensures Matches(Quest(sub), t, i, j) <==> exists n: nat :: n <= 1 && Times(sub, n, t, i, j)
    ensures Matches(Repeat(sub, min, max), t, i, j) <==>
            exists n: nat :: min <= n && (max.Some? ==> n <= max.value) && Times(sub, n, t, i, j)
  {
    StarCounts(sub, t, i, j);
    PlusCounts(sub, t, i, j);
    QuestCounts(sub, t, i, j);
    RepeatCounts(sub, min, max, t, i, j);
  }

  lemma {:induction false} StarCounts(sub: Regex, t: string, i: nat, j: nat)
    requires i <= j <= |t|
    ensures Matches(Star(sub), t, i, j) <==> exists n: nat :: Times(sub, n, t, i, j)
  {
    IteratesIsSomePower(sub, t, i, j);
  }

  lemma {:induction false} PlusCounts(sub: Regex, t: string, i: nat, j: nat)
    requires i <= j <= |t|
    ensures Matches(Plus(sub), t, i, j) <==> exists n: nat :: n >= 1 && Times(sub, n, t, i, j)
  {
    var re := Plus(sub);
    if Matches(re, t, i, j) {
      var n := PowerOfRepetition(re, t, i, j);
      assert n >= 1 && Times(sub, n, t, i, j);
    }
    forall n: nat | n >= 1 && Times(sub, n, t, i, j) ensures Matches(re, t, i, j) { RepetitionOfPower(re, n, t, i, j); }
  }

  lemma {:induction false} QuestCounts(sub: Regex, t: string, i: nat, j: nat)
    requires i <= j <= |t|
    ensures Matches(Quest(sub), t, i, j) <==> exists n: nat :: n <= 1 && Times(sub, n, t, i, j)
  {
    var re := Quest(sub);
    if Matches(re, t, i, j) {
      var n := PowerOfRepetition(re, t, i, j);
      assert n <= 1 && Times(sub, n, t, i, j);
    }
    forall n: nat | n <= 1 && Times(sub, n, t, i, j) ensures Matches(re, t, i, j) { RepetitionOfPower(re, n, t, i, j); }
  }

  lemma {:induction false} RepeatCounts(sub: Regex, min: nat, max: Option<nat>, t: string, i: nat, j: nat)
    requires i <= j <= |t|
    ensures Matches(Repeat(sub, min, max), t, i, j) <==>
            exists n: nat :: min <= n && (max.Some? ==> n <= max.value) && Times(sub, n, t, i, j)
  {
    var re := Repeat(sub, min, max);
    if Matches(re, t, i, j) {
      var n := PowerOfRepetition(re, t, i, j);
      assert min <= n && (max.Some? ==> n <= max.value) && Times(sub, n, t, i, j);
    }
    forall n: nat | min <= n && (max.Some? ==> n <= max.value) && Times(sub, n, t, i, j) ensures Matches(re, t, i, j) {
      RepetitionOfPower(re, n, t, i, j);
    }
  }

  /** Numbers of matches in a row add up. */
  lemma {:induction false} PowersAdd(sub: Regex, m: nat, n: nat, t: string, i: nat, j: nat)
    requires i <= j <= |t|
    ensures Times(sub, m + n, t, i, j) <==> exists k :: i <= k <= j && Times(sub, m, t, i, k) && Times(sub, n, t, k, j)
  {
    if Times(sub, m + n, t, i, j) {
      var k := PowersSplit(sub, m, n, t, i, j);
      assert Times(sub, m, t, i, k) && Times(sub, n, t, k, j);
    }
    forall k | i <= k <= j && Times(sub, m, t, i, k) && Times(sub, n, t, k, j) ensures Times(sub, m + n, t, i, j) {
      PowersJoin(sub, m, n, t, i, k, j);
    }
  }

  lemma {:induction false} PowerOfRepetition(re: Regex, t: string, i: nat, j: nat) returns (n: nat)
    requires re.Star? || re.Plus? || re.Quest? || re.Repeat?
    requires i <= j <= |t| && Matches(re, t, i, j)
    ensures Allows(re, n) && Times(re.sub, n, t, i, j)
  {
    match re
    case Star(sub) => n := PowerOfIterates(sub, t, i, j);
    case Plus(sub) =>
      var k :| i <= k <= j && Matches(sub, t, i, k) && Iterates(sub, t, k, j);
      var m := PowerOfIterates(sub, t, k, j);
      n := m + 1;
    case Quest(sub) =>
      if i == j {
        n := 0;
      } else {
        n := 1;
        OnceIsMatch(sub, n, t, i, j);
      }
    case Repeat(sub, min, max) =>
      if max.None? {
        var k :| i <= k <= j && Times(sub, min, t, i, k) && Iterates(sub, t, k, j);
        var m := PowerOfIterates(sub, t, k, j);
        PowersJoin(sub, min, m, t, i, k, j);
        n := min + m;
      } else {
        n :| min <= n <= max.value && Times(sub, n, t, i, j);
      }
  }

  lemma {:induction false} RepetitionOfPower(re: Regex, n: nat, t: string, i: nat, j: nat)
    requires re.Star? || re.Plus? || re.Quest? || re.Repeat?
    requires i <= j <= |t| && Allows(re, n) && Times(re.sub, n, t, i, j)
    ensures Matches(re, t, i, j)
  {
    match re
    case Star(sub) => IteratesOfPower(sub, n, t, i, j);
    case Plus(sub) =>
      var k :| i <= k <= j && Matches(sub, t, i, k) && Times(sub, n - 1, t, k, j);
      IteratesOfPower(sub, n - 1, t, k, j);
    case Quest(sub) => if n == 1 { OnceIsMatch(sub, n, t, i, j); }
    case Repeat(sub, min, max) =>
      if max.None? {
        var k := PowersSplit(sub, min, n - min, t, i, j);
        IteratesOfPower(sub, n - min, t, k, j);
      }
  }

  lemma {:induction false} OnceIsMatch(sub: Regex, n: nat, t: string, i: nat, j: nat)
    requires n == 1 && i <= j <= |t|
    ensures Times(sub, n, t, i, j) <==> Matches(sub, t, i, j)
    ensures Times(sub, n - 1, t, i, j) <==> i == j
  {
    var m := n - 1;
    assert forall k | i <= k <= j :: Times(sub, m, t, k, j) <==> k == j;
  }

  lemma {:induction false} PowersJoin(sub: Regex, m: nat, n: nat, t: string, i: nat, k: nat, j: nat)
    requires i <= k <= j <= |t| && Times(sub, m, t, i, k) && Times(sub, n, t, k, j)
    ensures Times(sub, m + n, t, i, j)
    decreases m
  {
    if m > 0 {
      var l :| i <= l <= k && Matches(sub, t, i, l) && Times(sub, m - 1, t, l, k);
      PowersJoin(sub, m - 1, n, t, l, k, j);
    }
  }

  lemma {:induction false} PowersSplit(sub: Regex, m: nat, n: nat, t: string, i: nat, j: nat) returns (k: nat)
    requires i <= j <= |t| && Times(sub, m + n, t, i, j)
    ensures i <= k <= j && Times(sub, m, t, i, k) && Times(sub, n, t, k, j)
    decreases m
  {
    if m == 0 {
      k := i;
    } else {
      var l :| i <= l <= j && Matches(sub, t, i, l) && Times(sub, m + n - 1, t, l, j);
      k := PowersSplit(sub, m - 1, n, t, l, j);
    }
  }

  /** A concatenation matches where its two parts match one after the other. */
  lemma {:induction false} ConcatComposes(xs: seq<Regex>, ys: seq<Regex>, t: string, i: nat, j: nat)
    requires i <= j <= |t|
    ensures Matches(Concat(xs + ys), t, i, j) <==>
            exists k :: i <= k <= j && Matches(Concat(xs), t, i, k) && Matches(Concat(ys), t, k, j)
  {
    if Matches(Concat(xs + ys), t, i, j) {
      var k := OrderSplits(xs, ys, t, i, j);
      assert Matches(Concat(xs), t, i, k) && Matches(Concat(ys), t, k, j);
    }
    forall k | i <= k <= j && Matches(Concat(xs), t, i, k) && Matches(Concat(ys), t, k, j) ensures Matches(Concat(xs + ys), t, i, j) {
      OrderJoins(xs, ys, t, i, k, j);
    }
  }

  lemma {:induction false} ConcatOfOne(x: Regex, t: string, i: nat, j: nat)
    requires i <= j <= |t|
    ensures Matches(Concat([x]), t, i, j) <==> Matches(x, t, i, j)
    ensures Matches(Concat([]), t, i, j) <==> i == j
  {
    var one, none: seq<Regex> := [x], [];
    assert one[1..] == none && one[0] == x;
    if MatchesInOrder(one, t, i, j) {
      var k := OrderHead(one, t, i, j);
      assert MatchesInOrder(none, t, k, j);
    } else if Matches(x, t, i, j) {
      assert MatchesInOrder(none, t, j, j);
      assert Matches(one[0], t, i, j) && MatchesInOrder(one[1..], t, j, j);
    }
  }

  lemma OrderHead(subs: seq<Regex>, t: string, i: nat, j: nat) returns (k: nat)
    requires subs != [] && i <= j <= |t| && MatchesInOrder(subs, t, i, j)
    ensures i <= k <= j && Matches(subs[0], t, i, k) && MatchesInOrder(subs[1..], t, k, j)
  {
    k :| i <= k <= j && Matches(subs[0], t, i, k) && MatchesInOrder(subs[1..], t, k, j);
  }

  lemma {:induction false} OrderSplits(xs: seq<Regex>, ys: seq<Regex>, t: string, i: nat, j: nat) returns (k: nat)
    requires i <= j <= |t| && MatchesInOrder(xs + ys, t, i, j)
    ensures i <= k <= j && MatchesInOrder(xs, t, i, k) && MatchesInOrder(ys, t, k, j)
  {
    if xs == [] {
      assert xs + ys == ys;
      k := i;
    } else {
      var all := xs + ys;
      assert all[1..] == xs[1..] + ys && all[0] == xs[0];
      var l :| i <= l <= j && Matches(all[0], t, i, l) && MatchesInOrder(all[1..], t, l, j);
      k := OrderSplits(xs[1..], ys, t, l, j);
    }
  }

  lemma {:induction false} OrderJoins(xs: seq<Regex>, ys: seq<Regex>, t: string, i: nat, k: nat, j: nat)
    requires i <= k <= j <= |t| && MatchesInOrder(xs, t, i, k) && MatchesInOrder(ys, t, k, j)
    ensures MatchesInOrder(xs + ys, t, i, j)
  {
    if xs == [] {
      assert xs + ys == ys;
    } else {
      var all := xs + ys;
      assert all[1..] == xs[1..] + ys && all[0] == xs[0];
      var l :| i <= l <= k && Matches(xs[0], t, i, l) && MatchesInOrder(xs[1..], t, l, k);
      OrderJoins(xs[1..], ys, t, l, k, j);
    }
  }

  lemma BranchMatches(subs: seq<Regex>, n: nat, t: string, i: nat, j: nat)
    requires i <= j <= |t| && n < |subs| && Matches(subs[n], t, i, j)
    ensures Matches(Alternate(subs), t, i, j)
  {
  }

  lemma MatchingBranch(subs: seq<Regex>, t: string, i: nat, j: nat) returns (n: nat)
    requires i <= j <= |t| && Matches(Alternate(subs), t, i, j)
    ensures n < |subs| && Matches(subs[n], t, i, j)
  {
    n :| 0 <= n < |subs| && Matches(subs[n], t, i, j);
  }

  /** An alternation matches where one of its two parts does. */
  lemma {:induction false} AlternateIsUnion(xs: seq<Regex>, ys: seq<Regex>, t: string, i: nat, j: nat)
    requires i <= j <= |t|
    ensures Matches(Alternate(xs + ys), t, i, j) <==> Matches(Alternate(xs), t, i, j) || Matches(Alternate(ys), t, i, j)
  {
    var all := xs + ys;
    if Matches(Alternate(all), t, i, j) {
      var n := MatchingBranch(all, t, i, j);
      if n < |xs| { BranchMatches(xs, n, t, i, j); } else { BranchMatches(ys, n - |xs|, t, i, j); }
    } else if Matches(Alternate(xs), t, i, j) {
      var n := MatchingBranch(xs, t, i, j);
      BranchMatches(all, n, t, i, j);
    } else if Matches(Alternate(ys), t, i, j) {
      var n := MatchingBranch(ys, t, i, j);
      BranchMatches(all, |xs| + n, t, i, j);
    }
  }

  /** One branch is that branch, and no branch matches nowhere. */
  lemma {:induction false} AlternateOfOne(x: Regex, t: string, i: nat, j: nat)
    requires i <= j <= |t|
    ensures Matches(Alternate([x]), t, i, j) <==> Matches(x, t, i, j)
    ensures Matches(NoMatch, t, i, j) <==> Matches(Alternate([]), t, i, j)
  {
    if Matches(Alternate([x]), t, i, j) {
      var n := MatchingBranch([x], t, i, j);
    } else if Matches(x, t, i, j) {
      BranchMatches([x], 0, t, i, j);
    }
  }

  /** A group matches what is in it, and the empty match is the concatenation of nothing. */
  lemma {:induction false} GroupIsItsContent(x: Regex, t: string, i: nat, j: nat)
    requires i <= j <= |t|
    ensures Matches(Capture(x), t, i, j) <==> Matches(Concat([x]), t, i, j)
    ensures Matches(EmptyMatch, t, i, j) <==> Matches(Concat([]), t, i, j)
  {
    ConcatOfOne(x, t, i, j);
  }

  /** A literal is its characters, one after the other. */
  lemma LiteralIsItsCharacters(runes: string, t: string, i: nat, j: nat)
    requires i <= j <= |t|
    ensures Matches(Literal(runes), t, i, j) <==> j - i == |runes| && forall k :: 0 <= k < |runes| ==> t[i + k] == runes[k]
  {
    if j - i == |runes| {
      assert forall k :: 0 <= k < |runes| ==> t[i..j][k] == t[i + k];
    }
  }

  /** Any character is the class of all characters, any but a newline the class of all others. */
  lemma {:induction false} AnyCharIsAClass(t: string, i: nat, j: nat)
    requires i <= j <= |t|
    ensures Matches(AnyChar, t, i, j) <==> Matches(CharClass([('\U{0}', '\U{10FFFF}')]), t, i, j)
    ensures Matches(AnyCharNotNL, t, i, j) <==> Matches(CharClass([('\U{0}', '\t'), ('\U{B}', '\U{10FFFF}')]), t, i, j)
  {
    if j == i + 1 {
      OneRange('\U{0}', '\U{10FFFF}', t[i]);
      TwoRanges('\U{0}', '\t', '\U{B}', '\U{10FFFF}', t[i]);
    }
  }

  lemma OneRange(lo: char, hi: char, c: char)
    ensures InClass([(lo, hi)], c) <==> lo <= c <= hi
  {
    assert [(lo, hi)][0] == (lo, hi);
  }

  lemma TwoRanges(lo: char, hi: char, lo': char, hi': char, c: char)
    ensures InClass([(lo, hi), (lo', hi')], c) <==> lo <= c <= hi || lo' <= c <= hi'
  {
    var ranges := [(lo, hi), (lo', hi')];
    assert ranges[0] == (lo, hi) && ranges[1] == (lo', hi');
  }

  const WORD := CharClass([('0', '9'), ('A', 'Z'), ('_', '_'), ('a', 'z')])

  /** The anchors see the text around them: a start of text needs nothing in front, an end of text
      nothing behind, the line anchors at most a newline there. */
  lemma AnchorsSeeAround(p: string, q: string)
    ensures var t, i := p + q, |p|;
      && (Matches(BeginText, t, i, i) <==> p == "")
      && (Matches(EndText, t, i, i) <==> q == "")
      && (Matches(BeginLine, t, i, i) <==> p == "" || p[|p| - 1] == '\n')
      && (Matches(EndLine, t, i, i) <==> q == "" || q[0] == '\n')
  {
    var t, i := p + q, |p|;
    assert p != "" ==> t[i - 1] == p[|p| - 1];
    assert q != "" ==> t[i] == q[0];
  }

  /** A word boundary is where exactly one of the neighbours is in the class of word characters. */
  lemma BoundariesSeeWords(p: string, q: string)
    ensures var t, i := p + q, |p|;
      && (Matches(WordBoundary, t, i, i) <==> EndsInWord(p) != BeginsWithWord(q))
      && (Matches(NoWordBoundary, t, i, i) <==> EndsInWord(p) == BeginsWithWord(q))
  {
    var t, i := p + q, |p|;
    if p != "" {
      assert t[i - 1] == p[|p| - 1];
      WordIsClass(p[|p| - 1]);
    }
    if q != "" {
      assert t[i] == q[0];
      WordIsClass(q[0]);
    }
  }

  predicate EndsInWord(p: string) { p != "" && InClass(WORD.ranges, p[|p| - 1]) }

  predicate BeginsWithWord(q: string) { q != "" && InClass(WORD.ranges, q[0]) }

  lemma WordIsClass(c: char)
    ensures WordChar(c) <==> InClass(WORD.ranges, c)
  {
    var ranges := WORD.ranges;
    assert ranges[0] == ('0', '9') && ranges[1] == ('A', 'Z') && ranges[2] == ('_', '_') && ranges[3] == ('a', 'z');
  }

  // ----- search -----

  ghost predicate StartsAt(re: Regex, t: string, i: nat) {
    exists j :: i <= j <= |t| && Matches(re, t, i, j)
  }

  /** The start of the leftmost match, as `FindStringIndex` reports it. */
  function Search(re: Regex, t: string): (r: Option<nat>) {
    SearchFrom(re, t, 0)
  }

  function SearchFrom(re: Regex, t: string, from: nat): (r: Option<nat>)
    requires from <= |t| + 1
    decreases |t| + 1 - from
  {
    if from > |t| then None
    else if exists j | from <= j <= |t| :: Matches(re, t, from, j) then Some(from)
    else SearchFrom(re, t, from + 1)
  }

  /** A search finds the leftmost match if there is one at all. */
  lemma {:induction false} SearchIsLeftmost(re: Regex, t: string, i: nat)
    ensures var r := Search(re, t);
      && (r.Some? ==> r.value <= |t| && StartsAt(re, t, r.value) && (i < r.value ==> !StartsAt(re, t, i)))
      && (r.None? ==> !StartsAt(re, t, i))
  {
    SearchFromIsLeftmost(re, t, 0, i);
  }

  lemma {:induction false} SearchFromIsLeftmost(re: Regex, t: string, from: nat, i: nat)
    requires from <= |t| + 1
    ensures var r := SearchFrom(re, t, from);
      && (r.Some? ==> from <= r.value <= |t| && StartsAt(re, t, r.value) && (from <= i < r.value ==> !StartsAt(re, t, i)))
      && (r.None? ==> from <= i ==> !StartsAt(re, t, i))
    decreases |t| + 1 - from
  {
    if from <= |t| && !StartsAt(re, t, from) {
      SearchFromIsLeftmost(re, t, from + 1, i);
    }
  }

  // ----- the verdict -----

  /** No newline is accepted and nothing is anchored at a start (or at a line end). */
  predicate IsLastLineOnly(re: Regex) {
    match re
    case AnyChar => false
    case BeginText => false
    case BeginLine => false
    case EndLine => false
    case Literal(runes) => '\n' !in runes
    case CharClass(ranges) => !InClass(ranges, '\n')
    case Capture(sub) => IsLastLineOnly(sub)
    case Star(sub) => IsLastLineOnly(sub)
    case Plus(sub) => IsLastLineOnly(sub)
    case Quest(sub) => IsLastLineOnly(sub)
    case Repeat(sub, _, _) => IsLastLineOnly(sub)
    case Concat(subs) => forall n | 0 <= n < |subs| :: IsLastLineOnly(subs[n])
    case Alternate(subs) => forall n | 0 <= n < |subs| :: IsLastLineOnly(subs[n])
    case _ => true
  }

  /** `x` is `re` or one of the trees below it. */
  ghost predicate Occurs(x: Regex, re: Regex)
    decreases re
  {
    || x == re
    || ((re.Capture? || re.Star? || re.Plus? || re.Quest? || re.Repeat?) && Occurs(x, re.sub))
    || ((re.Concat? || re.Alternate?) && exists n | 0 <= n < |re.subs| :: Occurs(x, re.subs[n]))
  }

  /** A leaf that accepts a newline or looks for a start or a line end. */
  ghost predicate Forbidden(x: Regex) {
    || x == AnyChar || x == BeginText || x == BeginLine || x == EndLine
    || (x.Literal? && '\n' in x.runes)
    || (x.CharClass? && Matches(x, "\n", 0, 1))
  }

  /** The classifier accepts exactly the trees in which no such leaf occurs anywhere. */
  lemma {:induction false} ClassifierIsExact(re: Regex)
    ensures IsLastLineOnly(re) <==> forall x :: Occurs(x, re) ==> !Forbidden(x)
    decreases re
  {
    if IsLastLineOnly(re) {
      forall x | Occurs(x, re) ensures !Forbidden(x) { AcceptedHasNone(re, x); }
    } else {
      var x := RejectedHasOne(re);
    }
  }

  lemma {:induction false} AcceptedHasNone(re: Regex, x: Regex)
    requires IsLastLineOnly(re) && Occurs(x, re)
    ensures !Forbidden(x)
    decreases re
  {
    if x != re {
      if re.Concat? || re.Alternate? {
        var n :| 0 <= n < |re.subs| && Occurs(x, re.subs[n]);
        AcceptedHasNone(re.subs[n], x);
      } else {
        AcceptedHasNone(re.sub, x);
      }
    }
  }

  lemma {:induction false} RejectedHasOne(re: Regex) returns (x: Regex)
    requires !IsLastLineOnly(re)
    ensures Occurs(x, re) && Forbidden(x)
    decreases re
  {
    match re
    case Concat(subs) =>
      var n :| 0 <= n < |subs| && !IsLastLineOnly(subs[n]);
      x := RejectedHasOne(subs[n]);
    case Alternate(subs) =>
      var n :| 0 <= n < |subs| && !IsLastLineOnly(subs[n]);
      x := RejectedHasOne(subs[n]);
    case Capture(sub) => x := RejectedHasOne(sub);
    case Star(sub) => x := RejectedHasOne(sub);
    case Plus(sub) => x := RejectedHasOne(sub);
    case Quest(sub) => x := RejectedHasOne(sub);
    case Repeat(sub, _, _) => x := RejectedHasOne(sub);
    case _ => x := re;
  }

  ghost predicate NoNewline(t: string, i: nat, j: nat)
    requires i <= j <= |t|
  {
    forall k :: i <= k < j ==> t[k] != '\n'
  }

  /** A match of an accepted tree never spans a newline. */
  lemma {:induction false} MatchHasNoNewline(re: Regex, t: string, i: nat, j: nat)
    requires IsLastLineOnly(re) && i <= j <= |t| && Matches(re, t, i, j)
    ensures NoNewline(t, i, j)
    decreases re, 0, 0
  {
    match re
    case Literal(runes) =>
      forall k | i <= k < j ensures t[k] != '\n' { assert t[k] == t[i..j][k - i]; }
    case Capture(sub) => MatchHasNoNewline(sub, t, i, j);
    case Star(sub) => IterationHasNoNewline(sub, t, i, j);
    case Plus(sub) =>
      var k :| i <= k <= j && Matches(sub, t, i, k) && Iterates(sub, t, k, j);
      MatchHasNoNewline(sub, t, i, k);
      IterationHasNoNewline(sub, t, k, j);
    case Quest(sub) => if i != j { MatchHasNoNewline(sub, t, i, j); }
    case Repeat(sub, min, max) =>
      if max.None? {
        var k :| i <= k <= j && Times(sub, min, t, i, k) && Iterates(sub, t, k, j);
        PowerHasNoNewline(sub, min, t, i, k);
        IterationHasNoNewline(sub, t, k, j);
      } else {
        var n :| min <= n <= max.value && Times(sub, n, t, i, j);
        PowerHasNoNewline(sub, n, t, i, j);
      }
    case Concat(subs) => OrderHasNoNewline(subs, t, i, j);
    case Alternate(subs) =>
      var n :| 0 <= n < |subs| && Matches(subs[n], t, i, j);
      MatchHasNoNewline(subs[n], t, i, j);
    case _ =>
  }

  lemma {:induction false} IterationHasNoNewline(sub: Regex, t: string, i: nat, j: nat)
    requires IsLastLineOnly(sub) && i <= j <= |t| && Iterates(sub, t, i, j)
    ensures NoNewline(t, i, j)
    decreases sub, 1, j - i
  {
    if i != j {
      var k :| i < k <= j && Matches(sub, t, i, k) && Iterates(sub, t, k, j);
      MatchHasNoNewline(sub, t, i, k);
      IterationHasNoNewline(sub, t, k, j);
    }
  }

  lemma {:induction false} PowerHasNoNewline(sub: Regex, n: nat, t: string, i: nat, j: nat)
    requires IsLastLineOnly(sub) && i <= j <= |t| && Times(sub, n, t, i, j)
    ensures NoNewline(t, i, j)
    decreases sub, 1, n
  {
    if n > 0 {
      var k :| i <= k <= j && Matches(sub, t, i, k) && Times(sub, n - 1, t, k, j);
      MatchHasNoNewline(sub, t, i, k);
      PowerHasNoNewline(sub, n - 1, t, k, j);
    }
  }

  lemma {:induction false} OrderHasNoNewline(subs: seq<Regex>, t: string, i: nat, j: nat)
    requires (forall n | 0 <= n < |subs| :: IsLastLineOnly(subs[n]))
    requires i <= j <= |t| && MatchesInOrder(subs, t, i, j)
    ensures NoNewline(t, i, j)
    decreases subs, 0, 0
  {
    if subs != [] {
      var k :| i <= k <= j && Matches(subs[0], t, i, k) && MatchesInOrder(subs[1..], t, k, j);
      MatchHasNoNewline(subs[0], t, i, k);
      OrderHasNoNewline(subs[1..], t, k, j);
    }
  }

  // ----- cutting off whole lines -----

  /** `p` is a text made of whole lines. */
  ghost predicate WholeLines(p: string) {
    |p| > 0 && p[|p| - 1] == '\n'
  }

  /** Matching inside a text does not change when whole lines are put in front of it. */
  lemma {:induction false} MatchIgnoresEarlierLines(re: Regex, p: string, q: string, i: nat, j: nat)
    requires IsLastLineOnly(re) && WholeLines(p) && i <= j <= |q|
    ensures Matches(re, q, i, j) <==> Matches(re, p + q, |p| + i, |p| + j)
    decreases re, 0, 0
  {
    var t := p + q;
    var a, b, c := |p|, |p| + i, |p| + j;
    match re
    case Literal(runes) => assert q[i..j] == t[b..c];
    case WordBoundary => BoundaryIgnoresEarlierLines(p, q, i);
    case NoWordBoundary => BoundaryIgnoresEarlierLines(p, q, i);
    case Capture(sub) => MatchIgnoresEarlierLines(sub, p, q, i, j);
    case Star(sub) => IterationIgnoresEarlierLines(sub, p, q, i, j);
    case Plus(sub) =>
      forall k | i <= k <= j
        ensures Matches(sub, q, i, k) <==> Matches(sub, t, b, a + k)
        ensures Iterates(sub, q, k, j) <==> Iterates(sub, t, a + k, c)
      {
        MatchIgnoresEarlierLines(sub, p, q, i, k);
        IterationIgnoresEarlierLines(sub, p, q, k, j);
      }
      if k :| b <= k <= c && Matches(sub, t, b, k) && Iterates(sub, t, k, c) {
        assert Matches(sub, q, i, k - a) && Iterates(sub, q, k - a, j);
      }
    case Quest(sub) => MatchIgnoresEarlierLines(sub, p, q, i, j);
    case Repeat(sub, min, max) => RepeatIgnoresEarlierLines(sub, min, max, p, q, i, j);
    case Concat(subs) => OrderIgnoresEarlierLines(subs, p, q, i, j);
    case Alternate(subs) =>
      forall n | 0 <= n < |subs|
        ensures Matches(subs[n], q, i, j) <==> Matches(subs[n], t, b, c)
      {
        MatchIgnoresEarlierLines(subs[n], p, q, i, j);
      }
    case _ =>
  }

  /** The newline before the cut and the start of the text are both no word characters. */
  lemma BoundaryIgnoresEarlierLines(p: string, q: string, i: nat)
    requires WholeLines(p) && i <= |q|
    ensures AtWordBoundary(q, i) <==> AtWordBoundary(p + q, |p| + i)
  {
    assert WordAt(q, i) == WordAt(p + q, |p| + i);
    assert WordAt(q, i - 1) == WordAt(p + q, |p| + i - 1);
  }

  lemma {:induction false} RepeatIgnoresEarlierLines(sub: Regex, min: nat, max: Option<nat>,
                                                     p: string, q: string, i: nat, j: nat)
    requires IsLastLineOnly(sub) && WholeLines(p) && i <= j <= |q|
    ensures Matches(Repeat(sub, min, max), q, i, j) <==> Matches(Repeat(sub, min, max), p + q, |p| + i, |p| + j)
    decreases sub, 2, 0
  {
    var t := p + q;
    var a, b, c := |p|, |p| + i, |p| + j;
    if max.None? {
      forall k | i <= k <= j
        ensures Times(sub, min, q, i, k) <==> Times(sub, min, t, b, a + k)
        ensures Iterates(sub, q, k, j) <==> Iterates(sub, t, a + k, c)
      {
        PowerIgnoresEarlierLines(sub, min, p, q, i, k);
        IterationIgnoresEarlierLines(sub, p, q, k, j);
      }
      if k :| b <= k <= c && Times(sub, min, t, b, k) && Iterates(sub, t, k, c) {
        assert Times(sub, min, q, i, k - a) && Iterates(sub, q, k - a, j);
      }
    } else {
      forall n | min <= n <= max.value
        ensures Times(sub, n, q, i, j) <==> Times(sub, n, t, b, c)
      {
        PowerIgnoresEarlierLines(sub, n, p, q, i, j);
      }
      assert Matches(Repeat(sub, min, max), q, i, j) <==>
             exists n | min <= n <= max.value :: Times(sub, n, q, i, j);
    }
  }

  lemma {:induction false} IterationIgnoresEarlierLines(sub: Regex, p: string, q: string, i: nat, j: nat)
    requires IsLastLineOnly(sub) && WholeLines(p) && i <= j <= |q|
    ensures Iterates(sub, q, i, j) <==> Iterates(sub, p + q, |p| + i, |p| + j)
    decreases sub, 1, j - i
  {
    var t := p + q;
    var a, b, c := |p|, |p| + i, |p| + j;
    forall k | i < k <= j
      ensures Matches(sub, q, i, k) <==> Matches(sub, t, b, a + k)
      ensures Iterates(sub, q, k, j) <==> Iterates(sub, t, a + k, c)
    {
      MatchIgnoresEarlierLines(sub, p, q, i, k);
      IterationIgnoresEarlierLines(sub, p, q, k, j);
    }
    if k :| b < k <= c && Matches(sub, t, b, k) && Iterates(sub, t, k, c) {
      assert Matches(sub, q, i, k - a) && Iterates(sub, q, k - a, j);
    }
  }

  lemma {:induction false} PowerIgnoresEarlierLines(sub: Regex, n: nat, p: string, q: string, i: nat, j: nat)
    requires IsLastLineOnly(sub) && WholeLines(p) && i <= j <= |q|
    ensures Times(sub, n, q, i, j) <==> Times(sub, n, p + q, |p| + i, |p| + j)
    decreases sub, 1, n
  {
    var t := p + q;
    var a, b, c := |p|, |p| + i, |p| + j;
    if n > 0 {
      forall k | i <= k <= j
        ensures Matches(sub, q, i, k) <==> Matches(sub, t, b, a + k)
        ensures Times(sub, n - 1, q, k, j) <==> Times(sub, n - 1, t, a + k, c)
      {
        MatchIgnoresEarlierLines(sub, p, q, i, k);
        PowerIgnoresEarlierLines(sub, n - 1, p, q, k, j);
      }
      if k :| b <= k <= c && Matches(sub, t, b, k) && Times(sub, n - 1, t, k, c) {
        assert Matches(sub, q, i, k - a) && Times(sub, n - 1, q, k - a, j);
      }
    }
  }

  lemma {:induction false} OrderIgnoresEarlierLines(subs: seq<Regex>, p: string, q: string, i: nat, j: nat)
    requires forall n | 0 <= n < |subs| :: IsLastLineOnly(subs[n])
    requires WholeLines(p) && i <= j <= |q|
    ensures MatchesInOrder(subs, q, i, j) <==> MatchesInOrder(subs, p + q, |p| + i, |p| + j)
    decreases subs, 0, 0
  {
    var t := p + q;
    var a, b, c := |p|, |p| + i, |p| + j;
    if subs != [] {
      forall k | i <= k <= j
        ensures Matches(subs[0], q, i, k) <==> Matches(subs[0], t, b, a + k)
        ensures MatchesInOrder(subs[1..], q, k, j) <==> MatchesInOrder(subs[1..], t, a + k, c)
      {
        MatchIgnoresEarlierLines(subs[0], p, q, i, k);
        OrderIgnoresEarlierLines(subs[1..], p, q, k, j);
      }
      if k :| b <= k <= c && Matches(subs[0], t, b, k) && MatchesInOrder(subs[1..], t, k, c) {
        assert Matches(subs[0], q, i, k - a) && MatchesInOrder(subs[1..], q, k - a, j);
      }
    }
  }

  // ----- appending text -----

  /** A match that stops before the end of a text is still a match when more text follows. */
  lemma {:induction false} MatchIgnoresLaterText(re: Regex, t: string, u: string, i: nat, j: nat)
    requires i <= j < |t|
    ensures Matches(re, t, i, j) <==> Matches(re, t + u, i, j)
    decreases re, 0, 0
  {
    match re
    case Literal(runes) => assert t[i..j] == (t + u)[i..j];
    case Capture(sub) => MatchIgnoresLaterText(sub, t, u, i, j);
    case Star(sub) => IterationIgnoresLaterText(sub, t, u, i, j);
    case Plus(sub) =>
      forall k | i <= k <= j
        ensures Matches(sub, t, i, k) <==> Matches(sub, t + u, i, k)
        ensures Iterates(sub, t, k, j) <==> Iterates(sub, t + u, k, j)
      {
        MatchIgnoresLaterText(sub, t, u, i, k);
        IterationIgnoresLaterText(sub, t, u, k, j);
      }
    case Quest(sub) => MatchIgnoresLaterText(sub, t, u, i, j);
    case Repeat(sub, min, max) => RepeatIgnoresLaterText(sub, min, max, t, u, i, j);
    case Concat(subs) => OrderIgnoresLaterText(subs, t, u, i, j);
    case Alternate(subs) =>
      forall n | 0 <= n < |subs| ensures Matches(subs[n], t, i, j) <==> Matches(subs[n], t + u, i, j) {
        MatchIgnoresLaterText(subs[n], t, u, i, j);
      }
    case _ =>
  }

  lemma {:induction false} RepeatIgnoresLaterText(sub: Regex, min: nat, max: Option<nat>, t: string, u: string, i: nat, j: nat)
    requires i <= j < |t|
    ensures Matches(Repeat(sub, min, max), t, i, j) <==> Matches(Repeat(sub, min, max), t + u, i, j)
    decreases sub, 2, 0
  {
    forall n: nat, k | i <= k <= j
      ensures Times(sub, n, t, i, k) <==> Times(sub, n, t + u, i, k)
      ensures Iterates(sub, t, k, j) <==> Iterates(sub, t + u, k, j)
    {
      PowerIgnoresLaterText(sub, n, t, u, i, k);
      IterationIgnoresLaterText(sub, t, u, k, j);
    }
  }

  lemma {:induction false} IterationIgnoresLaterText(sub: Regex, t: string, u: string, i: nat, j: nat)
    requires i <= j < |t|
    ensures Iterates(sub, t, i, j) <==> Iterates(sub, t + u, i, j)
    decreases sub, 1, j - i
  {
    forall k | i < k <= j
      ensures Matches(sub, t, i, k) <==> Matches(sub, t + u, i, k)
      ensures Iterates(sub, t, k, j) <==> Iterates(sub, t + u, k, j)
    {
      MatchIgnoresLaterText(sub, t, u, i, k);
      IterationIgnoresLaterText(sub, t, u, k, j);
    }
  }

  lemma {:induction false} PowerIgnoresLaterText(sub: Regex, n: nat, t: string, u: string, i: nat, j: nat)
    requires i <= j < |t|
    ensures Times(sub, n, t, i, j) <==> Times(sub, n, t + u, i, j)
    decreases sub, 1, n
  {
    if n > 0 {
      forall k | i <= k <= j
        ensures Matches(sub, t, i, k) <==> Matches(sub, t + u, i, k)
        ensures Times(sub, n - 1, t, k, j) <==> Times(sub, n - 1, t + u, k, j)
      {
        MatchIgnoresLaterText(sub, t, u, i, k);
        PowerIgnoresLaterText(sub, n - 1, t, u, k, j);
      }
    }
  }

  lemma {:induction false} OrderIgnoresLaterText(subs: seq<Regex>, t: string, u: string, i: nat, j: nat)
    requires i <= j < |t|
    ensures MatchesInOrder(subs, t, i, j) <==> MatchesInOrder(subs, t + u, i, j)
    decreases subs, 0, 0
  {
    if subs != [] {
      forall k | i <= k <= j
        ensures Matches(subs[0], t, i, k) <==> Matches(subs[0], t + u, i, k)
        ensures MatchesInOrder(subs[1..], t, k, j) <==> MatchesInOrder(subs[1..], t + u, k, j)
      {
        MatchIgnoresLaterText(subs[0], t, u, i, k);
        OrderIgnoresLaterText(subs[1..], t, u, k, j);
      }
    }
  }
}
