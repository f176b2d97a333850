/**
 * The tag list of `TestAuxVM.getTags`: the union of the tag names of the
 * active bots (lodash `union`: first occurrences, no duplicates), sorted
 * by the default `Array.prototype.sort` order (lexicographic on characters).
 */
module Tags {

  /** Lexicographic order on strings, character by character; a prefix comes first. */
  predicate LessEq(a: string, b: string)
    decreases |a|
  {
    |a| == 0 || (|b| > 0 && (a[0] < b[0] || (a[0] == b[0] && LessEq(a[1..], b[1..]))))
  }

  lemma {:induction false} LessEqTotal(a: string, b: string)
    ensures LessEq(a, b) || LessEq(b, a)
    decreases |a|
  {
    if |a| > 0 && |b| > 0 && a[0] == b[0] {
      LessEqTotal(a[1..], b[1..]);
    }
  }

  lemma {:induction false} LessEqTransitive(a: string, b: string, c: string)
    requires LessEq(a, b) && LessEq(b, c)
    ensures LessEq(a, c)
    decreases |a|
  {
    if |a| > 0 && a[0] == b[0] && b[0] == c[0] {
      LessEqTransitive(a[1..], b[1..], c[1..]);
    }
  }

  predicate Sorted(xs: seq<string>)
  {
    forall i, j :: 0 <= i < j < |xs| ==> LessEq(xs[i], xs[j])
  }

  predicate NoDuplicates(xs: seq<string>)
  {
    forall i, j :: 0 <= i < j < |xs| ==> xs[i] != xs[j]
  }

  /** Every later element is strictly greater: sorted and duplicate-free. */
  predicate StrictlySorted(xs: seq<string>)
  {
    forall i, j :: 0 <= i < j < |xs| ==> LessEq(xs[i], xs[j]) && xs[i] != xs[j]
  }

  /** Concatenation of the lists. */
  function Flatten(lists: seq<seq<string>>): (r: seq<string>)
    ensures forall t :: t in r <==> exists k :: 0 <= k < |lists| && t in lists[k]
    decreases |lists|
  {
    if lists == [] then []
    else
      var r := Flatten(lists[..|lists| - 1]) + lists[|lists| - 1];
      assert forall k :: 0 <= k < |lists| - 1 ==> lists[..|lists| - 1][k] == lists[k];
      r
  }

  /** The first occurrence of every element, in order. */
  function Dedupe(xs: seq<string>): (r: seq<string>)
    ensures NoDuplicates(r)
    ensures forall t :: t in r <==> t in xs
    decreases |xs|
  {
    if xs == [] then []
    else
      var d := Dedupe(xs[..|xs| - 1]);
      var last := xs[|xs| - 1];
      assert forall t :: t in xs <==> t in xs[..|xs| - 1] || t == last;
      if last in d then d else d + [last]
  }

  /** lodash `union(...lists)`. */
  function Union(lists: seq<seq<string>>): (r: seq<string>)
    ensures NoDuplicates(r)
    ensures forall t :: t in r <==> exists k :: 0 <= k < |lists| && t in lists[k]
  {
    Dedupe(Flatten(lists))
  }

  /** A list that starts with an element at most its sorted tail's head is sorted. */
  lemma ConsSmallest(x: string, xs: seq<string>)
    requires Sorted(xs) && xs != [] && LessEq(x, xs[0])
    ensures Sorted([x] + xs)
  {
    forall i, j | 0 <= i < j < |[x] + xs| ensures LessEq(([x] + xs)[i], ([x] + xs)[j]) {
      if i == 0 && j > 1 {
        LessEqTransitive(x, xs[0], xs[j - 1]);
      }
    }
  }

  /**
   * When `x` goes after the head `xs[0]`, the head is at most every element
   * of the tail with `x` inserted, so it can stay in front.
   */
  lemma HeadBeforeInserted(x: string, xs: seq<string>, rest: seq<string>)
    requires Sorted(xs) && xs != [] && !LessEq(x, xs[0])
    requires Sorted(rest) && multiset(rest) == multiset(xs[1..]) + multiset{x}
    ensures Sorted([xs[0]] + rest)
  {
    LessEqTotal(x, xs[0]);
    forall k | 0 <= k < |rest| ensures LessEq(xs[0], rest[k]) {
      var y := rest[k];
      assert y in multiset(rest);
      if y != x {
        assert y in multiset(xs[1..]);
        var j :| 0 <= j < |xs[1..]| && xs[1..][j] == y;
        assert xs[j + 1] == y;
      }
    }
  }

  /** Insert `x` before the first element it is at most. */
  function Insert(x: string, xs: seq<string>): (r: seq<string>)
    requires Sorted(xs)
    ensures Sorted(r)
    ensures multiset(r) == multiset(xs) + multiset{x}
    decreases |xs|
  {
    if xs == [] then [x]
    else if LessEq(x, xs[0]) then
      ConsSmallest(x, xs);
      [x] + xs
    else
      var rest := Insert(x, xs[1..]);
      HeadBeforeInserted(x, xs, rest);
      assert xs == [xs[0]] + xs[1..];
      [xs[0]] + rest
  }

  /** Insertion sort. */
  function Sort(xs: seq<string>): (r: seq<string>)
    ensures Sorted(r)
    ensures multiset(r) == multiset(xs)
    decreases |xs|
  {
    if xs == [] then []
    else
      assert xs == [xs[0]] + xs[1..];
      Insert(xs[0], Sort(xs[1..]))
  }

  lemma {:induction false} NoDuplicatesCountsOne(xs: seq<string>, t: string)
    requires NoDuplicates(xs)
    ensures multiset(xs)[t] <= 1
    decreases |xs|
  {
    if xs != [] {
      assert xs == [xs[0]] + xs[1..];
      assert NoDuplicates(xs[1..]) by {
        forall i, j | 0 <= i < j < |xs[1..]| ensures xs[1..][i] != xs[1..][j] {
          assert xs[1..][i] == xs[i + 1] && xs[1..][j] == xs[j + 1];
        }
      }
      NoDuplicatesCountsOne(xs[1..], t);
      if xs[0] == t {
        assert t !in xs[1..] by {
          forall j | 0 <= j < |xs[1..]| ensures xs[1..][j] != t {
            assert xs[1..][j] == xs[j + 1];
          }
        }
      }
    }
  }

  lemma CountsOneNoDuplicates(xs: seq<string>)
    requires forall t :: multiset(xs)[t] <= 1
    ensures NoDuplicates(xs)
  {
    forall i, j | 0 <= i < j < |xs| ensures xs[i] != xs[j] {
      assert xs == xs[..i] + [xs[i]] + xs[i + 1..j] + [xs[j]] + xs[j + 1..];
      var pair := multiset{xs[i], xs[j]};
      assert pair <= multiset(xs);
      assert pair[xs[i]] <= multiset(xs)[xs[i]] <= 1;
    }
  }

  /**
   * The tag list: sorted, duplicate-free, and holding exactly the names that
   * occur in some list.
   */
  function SortedUnion(lists: seq<seq<string>>): (r: seq<string>)
    ensures StrictlySorted(r)
    ensures forall t :: t in r <==> exists k :: 0 <= k < |lists| && t in lists[k]
  {
    var u := Union(lists);
    var r := Sort(u);
    forall t ensures multiset(r)[t] <= 1 {
      NoDuplicatesCountsOne(u, t);
    }
    CountsOneNoDuplicates(r);
    assert forall t :: t in r <==> t in multiset(r);
    assert forall t :: t in u <==> t in multiset(u);
    r
  }
}
