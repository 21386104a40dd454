/** Sequence helpers for the fleet list: distinctness, the `splice` filter and reversal. */
module Seqs {

  /** No object occurs twice in `s`. */
  predicate Distinct<T(==)>(s: seq<T>) {
    forall i, j :: 0 <= i < j < |s| ==> s[i] != s[j]
  }

  /** The elements of `s` whose flag is false, in their original order. */
  function Keep<T>(s: seq<T>, flags: seq<bool>): (r: seq<T>)
    requires |flags| == |s|
    ensures |r| <= |s|
    ensures forall x :: x in r ==> x in s
  {
    if s == [] then []
    else (if flags[0] then [] else [s[0]]) + Keep(s[1..], flags[1..])
  }

  /** The elements of `s` whose flag is true, in their original order. */
  function Chosen<T>(s: seq<T>, flags: seq<bool>): (r: seq<T>)
    requires |flags| == |s|
    ensures |r| <= |s|
    ensures forall x :: x in r ==> x in s
  {
    if s == [] then []
    else (if flags[0] then [s[0]] else []) + Chosen(s[1..], flags[1..])
  }

  function Reverse<T>(s: seq<T>): (r: seq<T>)
    ensures |r| == |s|
    ensures forall x :: x in r ==> x in s
    ensures forall x :: x in s ==> x in r
  {
    if s == [] then [] else Reverse(s[1..]) + [s[0]]
  }

  lemma {:induction false} ReverseAppend<T>(a: seq<T>, b: seq<T>)
    ensures Reverse(a + b) == Reverse(b) + Reverse(a)
  {
    if a == [] {
      assert a + b == b;
    } else {
      assert (a + b)[1..] == a[1..] + b;
      ReverseAppend(a[1..], b);
    }
  }

  /** `Keep` and `Chosen` split `s`: every element lands in exactly one of them. */
  lemma {:induction false} KeepChosenPartition<T>(s: seq<T>, flags: seq<bool>)
    requires |flags| == |s|
    ensures multiset(Keep(s, flags)) + multiset(Chosen(s, flags)) == multiset(s)
    ensures |Keep(s, flags)| + |Chosen(s, flags)| == |s|
  {
    if s != [] {
      KeepChosenPartition(s[1..], flags[1..]);
      KeepChosenHead(s, flags);
    }
  }

  /** One unfolding of `Keep` and `Chosen`, counted as multisets. */
  lemma KeepChosenHead<T>(s: seq<T>, flags: seq<bool>)
    requires |flags| == |s| && s != []
    ensures multiset(Keep(s, flags)) + multiset(Chosen(s, flags)) ==
      multiset([s[0]]) + multiset(Keep(s[1..], flags[1..])) + multiset(Chosen(s[1..], flags[1..]))
    ensures multiset(s) == multiset([s[0]]) + multiset(s[1..])
    ensures |Keep(s, flags)| + |Chosen(s, flags)| == 1 + |Keep(s[1..], flags[1..])| + |Chosen(s[1..], flags[1..])|
  {
    assert s == [s[0]] + s[1..];
    if flags[0] {
      assert Chosen(s, flags) == [s[0]] + Chosen(s[1..], flags[1..]);
    } else {
      assert Keep(s, flags) == [s[0]] + Keep(s[1..], flags[1..]);
    }
  }

  /** An element survives `Keep` exactly when some occurrence of it is unflagged. */
  lemma {:induction false} KeepMembers<T>(s: seq<T>, flags: seq<bool>, x: T)
    requires |flags| == |s|
    ensures x in Keep(s, flags) <==> exists i :: 0 <= i < |s| && s[i] == x && !flags[i]
  {
    if s != [] {
      KeepMembers(s[1..], flags[1..], x);
      if x in Keep(s[1..], flags[1..]) {
        var i :| 0 <= i < |s[1..]| && s[1..][i] == x && !flags[1..][i];
        assert s[i + 1] == x && !flags[i + 1];
      }
      if exists i :: 0 <= i < |s| && s[i] == x && !flags[i] {
        var i :| 0 <= i < |s| && s[i] == x && !flags[i];
        if i > 0 {
          assert s[1..][i - 1] == x && !flags[1..][i - 1];
        }
      }
    }
  }

  /** With no repeated elements, `Keep` drops exactly the flagged positions. */
  lemma KeepDropsExactlyFlagged<T>(s: seq<T>, flags: seq<bool>, i: int)
    requires |flags| == |s| && Distinct(s) && 0 <= i < |s|
    ensures s[i] in Keep(s, flags) <==> !flags[i]
  {
    KeepMembers(s, flags, s[i]);
  }

  /** Removing one position keeps a sequence free of repetitions. */
  lemma DistinctRemove<T>(s: seq<T>, i: int)
    requires Distinct(s) && 0 <= i < |s|
    ensures Distinct(s[..i] + s[i + 1..])
    ensures forall x :: x in s[..i] + s[i + 1..] ==> x in s
  {
    var r := s[..i] + s[i + 1..];
    forall a, b | 0 <= a < b < |r| ensures r[a] != r[b] {
      var a' := if a < i then a else a + 1;
      var b' := if b < i then b else b + 1;
      assert r[a] == s[a'] && r[b] == s[b'];
    }
  }

  /** A sequence that extends `s`: its suffix from `k` is the old suffix plus what was added. */
  lemma SuffixOfExtension<T>(grown: seq<T>, s: seq<T>, k: nat)
    requires |s| <= |grown| && grown[..|s|] == s && k <= |s|
    ensures grown[k..] == s[k..] + grown[|s|..]
    ensures grown[..k] == s[..k]
  {
    assert grown == s + grown[|s|..];
  }

  /** Unfolding `Keep` and `Chosen` at position `i` of `s`. */
  lemma KeepChosenAt<T>(s: seq<T>, flags: seq<bool>, i: nat)
    requires |flags| == |s| && i < |s|
    ensures Keep(s[i..], flags[i..]) == (if flags[i] then [] else [s[i]]) + Keep(s[i + 1..], flags[i + 1..])
    ensures Chosen(s[i..], flags[i..]) == (if flags[i] then [s[i]] else []) + Chosen(s[i + 1..], flags[i + 1..])
  {
    assert s[i..][1..] == s[i + 1..] && flags[i..][1..] == flags[i + 1..];
  }

  /**
   * Filtering `s` from the back: once the elements after `i` are filtered, dropping
   * `s[i]` exactly when it is flagged leaves the elements from `i` on filtered.
   */
  lemma KeepFromBack<T>(s: seq<T>, flags: seq<bool>, i: nat, cur: seq<T>)
    requires |flags| == |s| && i < |s|
    requires cur == s[..i + 1] + Keep(s[i + 1..], flags[i + 1..])
    ensures i < |cur| && cur[i] == s[i]
    ensures (if flags[i] then cur[..i] + cur[i + 1..] else cur) == s[..i] + Keep(s[i..], flags[i..])
  {
    KeepChosenAt(s, flags, i);
    assert s[..i + 1] == s[..i] + [s[i]];
    if flags[i] {
      assert cur[..i] == s[..i];
      assert cur[i + 1..] == Keep(s[i + 1..], flags[i + 1..]);
    }
  }
}
