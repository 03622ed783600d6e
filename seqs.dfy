/** The optional value that stands for JavaScript's `null`/`undefined`. */
module Wrappers {
  datatype Option<+T> = None | Some(value: T)
}

/**
 * List operations the handlers perform on JavaScript arrays: `filter`,
 * `slice(-n)`, the push-if-absent idiom and counting.
 */
module Seqs {

  predicate NoDup<T(==)>(s: seq<T>) {
    forall i, j :: 0 <= i < j < |s| ==> s[i] != s[j]
  }

  /** `s.filter(keep)`: the kept elements, in their original order. */
  function Filter<T>(s: seq<T>, keep: T -> bool): (r: seq<T>)
    ensures |r| <= |s|
    ensures forall x | x in r :: x in s && keep(x)
    ensures forall x | x in s && keep(x) :: x in r
  {
    if s == [] then [] else (if keep(s[0]) then [s[0]] else []) + Filter(s[1..], keep)
  }

  /** Filtering a list without duplicates keeps it without duplicates. */
  lemma {:induction false} FilterNoDup<T>(s: seq<T>, keep: T -> bool)
    requires NoDup(s)
    ensures NoDup(Filter(s, keep))
  {
    if s != [] {
      FilterNoDup(s[1..], keep);
      var rest := Filter(s[1..], keep);
      assert forall j :: 0 <= j < |s[1..]| ==> s[1..][j] != s[0];
      assert s[0] !in rest;
    }
  }

  /** Filtering distributes over concatenation. */
  lemma {:induction false} FilterAppend<T>(a: seq<T>, b: seq<T>, keep: T -> bool)
    ensures Filter(a + b, keep) == Filter(a, keep) + Filter(b, keep)
  {
    if a == [] {
      assert a + b == b;
    } else {
      assert (a + b)[0] == a[0];
      assert (a + b)[1..] == a[1..] + b;
      FilterAppend(a[1..], b, keep);
    }
  }

  /** Number of elements that satisfy `p`. */
  function Count<T>(s: seq<T>, p: T -> bool): (n: nat)
    ensures n <= |s|
  {
    |Filter(s, p)|
  }

  /** `if (s.length > n) s = s.slice(-n)`: the last `n` elements, or all of them. */
  function KeepLast<T>(s: seq<T>, n: nat): (r: seq<T>)
  {
    if |s| > n then s[|s| - n..] else s
  }

  /** The window holds at most `n` elements, is a suffix of `s`, and keeps its last element. */
  lemma KeepLastWindow<T>(s: seq<T>, n: nat)
    ensures |KeepLast(s, n)| == if |s| < n then |s| else n
    ensures KeepLast(s, n) == s[|s| - |KeepLast(s, n)|..]
    ensures n > 0 && s != [] ==> KeepLast(s, n)[|KeepLast(s, n)| - 1] == s[|s| - 1]
  {
  }

  /** `if (!list.includes(x)) list.push(x)`. */
  function AddAbsent<T(==)>(list: seq<T>, x: T): seq<T> {
    if x in list then list else list + [x]
  }

  /** `items.forEach(x => { if (!list.includes(x)) list.push(x) })`. */
  function AppendAbsent<T(==)>(list: seq<T>, items: seq<T>): seq<T>
  {
    if items == [] then list else AddAbsent(AppendAbsent(list, items[..|items| - 1]), items[|items| - 1])
  }

  /**
   * Pushing only absent items keeps the list duplicate-free, keeps the old
   * list as a prefix, adds every item and adds nothing else.
   */
  lemma {:induction false} AppendAbsentSpec<T>(list: seq<T>, items: seq<T>)
    requires NoDup(list)
    ensures var r := AppendAbsent(list, items);
      && NoDup(r)
      && |list| <= |r|
      && r[..|list|] == list
      && (forall x :: x in items ==> x in r)
      && (forall x :: x in r ==> x in list || x in items)
      && |r| <= |list| + |items|
  {
    if items != [] {
      var init := items[..|items| - 1];
      var last := items[|items| - 1];
      AppendAbsentSpec(list, init);
      var prev := AppendAbsent(list, init);
      assert items == init + [last];
      if last !in prev {
        assert (prev + [last])[..|list|] == prev[..|list|];
      }
    }
  }
}
