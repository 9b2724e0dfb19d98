/** How the plugin splits its rules into groups that share a ticker. Rules are named by
    their index in the configuration. */
module IntervalGroups {
  import opened Options

  /** `invokeInterval` is the rule's own interval, if the configuration gives one. */
  datatype Rule = Rule(invokeInterval: Option<nat>)

  datatype Group = Group(interval: nat, rules: seq<nat>)

  function EffectiveInterval(rule: Rule, global: nat): nat {
    if rule.invokeInterval.Some? then rule.invokeInterval.value else global
  }

  /** `r` lists all the rules before `n` whose effective interval is `v`, in configuration order. */
  ghost predicate Selects(rules: seq<Rule>, global: nat, n: nat, v: nat, r: seq<nat>)
    requires n <= |rules|
  {
    && (forall p :: 0 <= p < |r| ==> r[p] < n && EffectiveInterval(rules[r[p]], global) == v)
    && (forall p, q :: 0 <= p < q < |r| ==> r[p] < r[q])
    && (forall i :: 0 <= i < n && EffectiveInterval(rules[i], global) == v ==> i in r)
  }

  ghost predicate HasInterval(groups: seq<Group>, v: nat) {
    exists g :: 0 <= g < |groups| && groups[g].interval == v
  }

  ghost predicate Complete(rules: seq<Rule>, global: nat, n: nat, groups: seq<Group>)
    requires n <= |rules|
  {
    forall g :: 0 <= g < |groups| ==> groups[g].rules != [] && Selects(rules, global, n, groups[g].interval, groups[g].rules)
  }

  ghost predicate InFirstOrder(groups: seq<Group>) {
    && (forall g :: 0 <= g < |groups| ==> groups[g].rules != [])
    && (forall g, h :: 0 <= g < h < |groups| ==>
          groups[g].interval != groups[h].interval && groups[g].rules[0] < groups[h].rules[0])
  }

  ghost predicate CoversRules(rules: seq<Rule>, global: nat, n: nat, groups: seq<Group>)
    requires n <= |rules|
  {
    forall i :: 0 <= i < n ==> HasInterval(groups, EffectiveInterval(rules[i], global))
  }

  /** The grouping of the first `n` rules: one group for every interval that occurs, in the
      order in which the intervals first occur, each with all its rules in order. */
  ghost predicate Groups(rules: seq<Rule>, global: nat, n: nat, groups: seq<Group>)
    requires n <= |rules|
  {
    Complete(rules, global, n, groups) && InFirstOrder(groups) && CoversRules(rules, global, n, groups)
  }

  /** The lookup table names, for every group's interval, that group. */
  ghost predicate Indexes(table: map<nat, nat>, groups: seq<Group>) {
    && (forall v :: v in table ==> table[v] < |groups| && groups[table[v]].interval == v)
    && (forall g :: 0 <= g < |groups| ==> groups[g].interval in table)
  }

  method Build(rules: seq<Rule>, global: nat) returns (groups: seq<Group>)
    ensures Groups(rules, global, |rules|, groups)
  {
    groups := [];
    var groupIndexes: map<nat, nat> := map[];
    for n := 0 to |rules|
      invariant Groups(rules, global, n, groups) && Indexes(groupIndexes, groups)
    {
      groups, groupIndexes := Join(rules, global, n, groups, groupIndexes);
    }
  }

  /** One turn of the loop: rule `n` goes to the end of its group, which is opened if need be. */
  method Join(rules: seq<Rule>, global: nat, n: nat, groups: seq<Group>, groupIndexes: map<nat, nat>)
    returns (next: seq<Group>, nextIndexes: map<nat, nat>)
    requires n < |rules| && Groups(rules, global, n, groups) && Indexes(groupIndexes, groups)
    ensures Groups(rules, global, n + 1, next) && Indexes(nextIndexes, next)
  {
    var interval := EffectiveInterval(rules[n], global);
    next, nextIndexes := groups, groupIndexes;
    if interval !in groupIndexes {
      nextIndexes := groupIndexes[interval := |groups|];
      next := groups + [Group(interval, [])];
      NotIndexed(groupIndexes, groups, interval);
      NewGroup(rules, global, n, groups);
      NewIndex(groupIndexes, groups, interval, [n]);
      OpenAndAdd(groups, interval, n);
    } else {
      OldGroup(rules, global, n, groups, groupIndexes[interval]);
      OldIndex(groupIndexes, groups, interval, groups[groupIndexes[interval]].rules + [n]);
    }
    var at := nextIndexes[interval];
    next := next[at := next[at].(rules := next[at].rules + [n])];
  }

  lemma OpenAndAdd(groups: seq<Group>, v: nat, n: nat)
    ensures var wider := groups + [Group(v, [])];
      wider[|groups| := wider[|groups|].(rules := wider[|groups|].rules + [n])] == groups + [Group(v, [n])]
  {
    assert [] + [n] == [n];
  }

  lemma NotIndexed(table: map<nat, nat>, groups: seq<Group>, v: nat)
    requires Indexes(table, groups) && v !in table
    ensures !HasInterval(groups, v)
  {
  }

  lemma OldIndex(table: map<nat, nat>, groups: seq<Group>, v: nat, rules: seq<nat>)
    requires Indexes(table, groups) && v in table
    ensures Indexes(table, groups[table[v] := Group(v, rules)])
  {
  }

  lemma NewIndex(table: map<nat, nat>, groups: seq<Group>, v: nat, rules: seq<nat>)
    requires Indexes(table, groups) && v !in table
    ensures Indexes(table[v := |groups|], groups + [Group(v, rules)])
  {
  }

  lemma SelectsNext(rules: seq<Rule>, global: nat, n: nat, v: nat, r: seq<nat>)
    requires n < |rules| && Selects(rules, global, n, v, r)
    ensures Selects(rules, global, n + 1, v, if EffectiveInterval(rules[n], global) == v then r + [n] else r)
  {
    if EffectiveInterval(rules[n], global) == v {
      var more := r + [n];
      assert more[|r|] == n;
      forall i | 0 <= i < n + 1 && EffectiveInterval(rules[i], global) == v ensures i in more {
        if i < n { assert i in r; }
      }
    }
  }

  /** The next rule joins the group of its interval. */
  lemma {:induction false} OldGroup(rules: seq<Rule>, global: nat, n: nat, before: seq<Group>, at: nat)
    requires n < |rules| && Groups(rules, global, n, before)
    requires at < |before| && before[at].interval == EffectiveInterval(rules[n], global)
    ensures Groups(rules, global, n + 1, before[at := Group(before[at].interval, before[at].rules + [n])])
  {
    var after := before[at := Group(before[at].interval, before[at].rules + [n])];
    assert Complete(rules, global, n + 1, after) by {
      forall g | 0 <= g < |after| ensures Selects(rules, global, n + 1, after[g].interval, after[g].rules) {
        SelectsNext(rules, global, n, before[g].interval, before[g].rules);
      }
    }
    assert InFirstOrder(after);
    CoversNext(rules, global, n, before, after, at);
  }

  lemma {:induction false} CoversNext(rules: seq<Rule>, global: nat, n: nat, before: seq<Group>, after: seq<Group>, at: nat)
    requires n < |rules| && CoversRules(rules, global, n, before)
    requires |before| <= |after| && forall g :: 0 <= g < |before| ==> after[g].interval == before[g].interval
    requires at < |after| && after[at].interval == EffectiveInterval(rules[n], global)
    ensures CoversRules(rules, global, n + 1, after)
  {
    forall i | 0 <= i < n ensures HasInterval(after, EffectiveInterval(rules[i], global)) {
      assert HasInterval(before, EffectiveInterval(rules[i], global));
      var g :| 0 <= g < |before| && before[g].interval == EffectiveInterval(rules[i], global);
      assert after[g].interval == before[g].interval;
    }
  }

  /** The next rule opens a group for an interval that has none. */
  lemma {:induction false} NewGroup(rules: seq<Rule>, global: nat, n: nat, before: seq<Group>)
    requires n < |rules| && Groups(rules, global, n, before)
    requires !HasInterval(before, EffectiveInterval(rules[n], global))
    ensures Groups(rules, global, n + 1, before + [Group(EffectiveInterval(rules[n], global), [n])])
  {
    var v := EffectiveInterval(rules[n], global);
    var after := before + [Group(v, [n])];
    SelectsFirst(rules, global, n, v, before);
    forall g | 0 <= g < |before| ensures Selects(rules, global, n + 1, before[g].interval, before[g].rules) {
      SelectsNext(rules, global, n, before[g].interval, before[g].rules);
    }
    NewGroupIsLast(rules, global, n, before);
    CoversNext(rules, global, n, before, after, |before|);
  }

  lemma SelectsFirst(rules: seq<Rule>, global: nat, n: nat, v: nat, groups: seq<Group>)
    requires n < |rules| && EffectiveInterval(rules[n], global) == v
    requires CoversRules(rules, global, n, groups) && !HasInterval(groups, v)
    ensures Selects(rules, global, n + 1, v, [n])
  {
    assert [n][0] == n;
  }

  lemma NewGroupIsLast(rules: seq<Rule>, global: nat, n: nat, before: seq<Group>)
    requires n < |rules| && Complete(rules, global, n, before) && InFirstOrder(before)
    requires !HasInterval(before, EffectiveInterval(rules[n], global))
    ensures InFirstOrder(before + [Group(EffectiveInterval(rules[n], global), [n])])
  {
    forall g | 0 <= g < |before| ensures before[g].rules[0] < n {
      assert Selects(rules, global, n, before[g].interval, before[g].rules);
    }
  }

  ghost predicate Placed(groups: seq<Group>, i: nat, g: int, p: int) {
    0 <= g < |groups| && 0 <= p < |groups[g].rules| && groups[g].rules[p] == i
  }

  /** Every rule is in exactly one place of exactly one group, and nothing else is. */
  lemma {:induction false} GroupsPartition(rules: seq<Rule>, global: nat, groups: seq<Group>, i: nat)
    requires Groups(rules, global, |rules|, groups)
    ensures i < |rules| <==> exists g, p :: Placed(groups, i, g, p)
    ensures forall g, p, h, q :: Placed(groups, i, g, p) && Placed(groups, i, h, q) ==> g == h && p == q
    ensures forall g, p :: Placed(groups, i, g, p) ==>
              i < |rules| && match rules[i].invokeInterval case Some(own) => groups[g].interval == own case None => groups[g].interval == global
  {
    if i < |rules| {
      var v := EffectiveInterval(rules[i], global);
      assert HasInterval(groups, v);
      var g :| 0 <= g < |groups| && groups[g].interval == v;
      assert Selects(rules, global, |rules|, v, groups[g].rules);
      var p :| 0 <= p < |groups[g].rules| && groups[g].rules[p] == i;
      assert Placed(groups, i, g, p);
    }
    forall g, p | Placed(groups, i, g, p) ensures i < |rules| && EffectiveInterval(rules[i], global) == groups[g].interval {
      assert Selects(rules, global, |rules|, groups[g].interval, groups[g].rules);
    }
    forall g, p, h, q | Placed(groups, i, g, p) && Placed(groups, i, h, q) ensures g == h && p == q {
      assert groups[g].interval == groups[h].interval;
      assert Selects(rules, global, |rules|, groups[g].interval, groups[g].rules);
    }
  }
}
