/** Runs of equal keys at the end of a history. */
module Streaks {
  import opened Options

  /** The entry that began the streak in which the history ends: the last one whose key differs
      from the key before it; none when the history never left the initial key. */
  function Cause<K(==)>(init: Option<K>, keys: seq<K>): (r: Option<nat>)
    ensures r.Some? ==> r.value < |keys|
  {
    if keys == [] then None
    else
      var n := |keys| - 1;
      if (if n == 0 then init else Some(keys[n - 1])) == Some(keys[n]) then Cause(init, keys[..n]) else Some(n)
  }

  lemma {:induction false} CauseBeginsStreak<K>(init: Option<K>, keys: seq<K>)
    ensures var r := Cause(init, keys);
      if r.None? then forall i :: 0 <= i < |keys| ==> Some(keys[i]) == init
      else && (forall i :: r.value <= i < |keys| ==> keys[i] == keys[r.value])
           && (if r.value == 0 then init else Some(keys[r.value - 1])) != Some(keys[r.value])
  {
    if keys != [] { CauseBeginsStreak(init, keys[..|keys| - 1]); }
  }

  /** How often the key changed. */
  function Changes<K(==)>(init: Option<K>, keys: seq<K>): (r: nat) {
    if keys == [] then 0
    else
      var n := |keys| - 1;
      Changes(init, keys[..n]) +
      if (if n == 0 then init else Some(keys[n - 1])) == Some(keys[n]) then 0 else 1
  }
}
