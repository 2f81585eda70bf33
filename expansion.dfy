/** The expand toggle both sidebars use: a key that is listed is removed,
    every copy of it; a key that is not listed is appended. */
module Expansion {
  import opened Seqs

  /** Keep everything but `key`. */
  function Without(prev: seq<string>, key: string): seq<string> {
    Filter(prev, (t: string) => t != key)
  }

  /** `prev.includes(key) ? prev.filter(t => t !== key) : [...prev, key]` */
  function ToggleExpand(prev: seq<string>, key: string): (r: seq<string>)
    ensures key in r <==> key !in prev
  {
    if key in prev then
      FilterMembership(prev, (t: string) => t != key, key);
      Without(prev, key)
    else prev + [key]
  }

  /** Toggling changes the membership of `key` and of nothing else. */
  lemma ToggleMembership(prev: seq<string>, key: string, x: string)
    ensures x != key ==> (x in ToggleExpand(prev, key) <==> x in prev)
  {
    FilterMembership(prev, (t: string) => t != key, x);
  }

  /** An absent key is appended at the end. */
  lemma ToggleAbsent(prev: seq<string>, key: string)
    requires key !in prev
    ensures ToggleExpand(prev, key) == prev + [key]
  {
  }

  /** A present key leaves, every copy of it, and the others keep their
      order and their number of copies. */
  lemma TogglePresent(prev: seq<string>, key: string, x: string)
    requires key in prev
    ensures IsSubsequence(ToggleExpand(prev, key), prev)
    ensures multiset(ToggleExpand(prev, key))[key] == 0
    ensures x != key ==> multiset(ToggleExpand(prev, key))[x] == multiset(prev)[x]
  {
    var p := (t: string) => t != key;
    FilterIsSubsequence(prev, p);
    FilterCounts(prev, p, key);
    FilterCounts(prev, p, x);
  }

  /** Toggling an absent key twice restores the list. */
  lemma DoubleToggleAbsent(prev: seq<string>, key: string)
    requires key !in prev
    ensures ToggleExpand(ToggleExpand(prev, key), key) == prev
  {
    var p := (t: string) => t != key;
    FilterAppend(prev, [key], p);
    FilterAllPass(prev, p);
    assert Filter([key], p) == [];
  }

  /** Toggling a present key twice moves it, once, to the end. */
  lemma DoubleTogglePresent(prev: seq<string>, key: string)
    requires key in prev
    ensures ToggleExpand(ToggleExpand(prev, key), key) == Without(prev, key) + [key]
  {
  }
}
