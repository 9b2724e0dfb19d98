/** Node conditions, events and rules as the problem daemons use them. */
module Conditions {
  import opened Options

  /** `Unset` is the zero value of the status type. */
  datatype Status = Unset | False | True | Unknown

  datatype Condition = Condition(typ: string, status: Status, transition: int, reason: string, message: string)

  /** What a read of an absent key gives. */
  const ZERO := Condition("", Unset, 0, "", "")

  datatype Severity = Info | Warn

  /** The text of an event: given, or the change of a condition, kept as the parts that are formatted. */
  datatype Note = Plain(text: string) | NowIs(typ: string, status: Status, reason: string, message: string)

  datatype Event = Event(severity: Severity, timestamp: int, reason: string, note: Note)

  /** A rule reports a temporary problem as an event, a permanent one as a condition. */
  datatype Rule = Rule(temporary: bool, condition: string, reason: string)

  function ConditionChangeEvent(c: Condition): Event {
    Event(if c.status == True then Warn else Info, c.transition, c.reason, NowIs(c.typ, c.status, c.reason, c.message))
  }

  /** The first condition of a type: the only one that the monitors ever change. */
  function FirstOf(cs: seq<Condition>, t: string): (r: Option<nat>)
    ensures r.Some? ==> r.value < |cs| && cs[r.value].typ == t && forall k :: 0 <= k < r.value ==> cs[k].typ != t
    ensures r.None? ==> forall k :: 0 <= k < |cs| ==> cs[k].typ != t
  {
    FirstFrom(cs, t, 0)
  }

  function FirstFrom(cs: seq<Condition>, t: string, n: nat): (r: Option<nat>)
    requires n <= |cs|
    ensures r.Some? ==> n <= r.value < |cs| && cs[r.value].typ == t && forall k :: n <= k < r.value ==> cs[k].typ != t
    ensures r.None? ==> forall k :: n <= k < |cs| ==> cs[k].typ != t
    decreases |cs| - n
  {
    if n == |cs| then None else if cs[n].typ == t then Some(n) else FirstFrom(cs, t, n + 1)
  }

  ghost predicate SameTypes(cs: seq<Condition>, ds: seq<Condition>) {
    |cs| == |ds| && forall k :: 0 <= k < |cs| ==> cs[k].typ == ds[k].typ
  }

  lemma FirstOfSameTypes(cs: seq<Condition>, ds: seq<Condition>, t: string)
    requires SameTypes(cs, ds)
    ensures FirstOf(cs, t) == FirstOf(ds, t)
  {
    var a, b := FirstOf(cs, t), FirstOf(ds, t);
    if a.Some? { assert ds[a.value].typ == t; }
    if b.Some? { assert cs[b.value].typ == t; }
  }

  function Initial(d: Condition, time: int): Condition {
    d.(status := False, transition := time)
  }

  function InitialAll(defaults: seq<Condition>, times: seq<int>): seq<Condition>
    requires |times| == |defaults|
  {
    seq(|defaults|, k requires 0 <= k < |defaults| => Initial(defaults[k], times[k]))
  }

  /** Copies the defaults and then resets every copy; `times` are the clock readings. */
  method InitialConditions(defaults: seq<Condition>, times: seq<int>) returns (conditions: seq<Condition>)
    requires |times| == |defaults|
    ensures conditions == InitialAll(defaults, times)
    ensures |conditions| == |defaults| && forall k :: 0 <= k < |defaults| ==>
      conditions[k] == Condition(defaults[k].typ, False, times[k], defaults[k].reason, defaults[k].message)
  {
    conditions := defaults;
    for n := 0 to |defaults|
      invariant |conditions| == |defaults|
      invariant forall k :: 0 <= k < n ==> conditions[k] == Initial(defaults[k], times[k])
      invariant forall k :: n <= k < |defaults| ==> conditions[k] == defaults[k]
    {
      conditions := conditions[n := conditions[n].(status := False, transition := times[n])];
    }
  }
}
