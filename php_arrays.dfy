/** The PHP array operations the toggle relies on.

    A list of plugin identifiers is modelled by its values in order (`seq<string>`);
    the integer keys PHP keeps after `unset`, `array_filter` and `array_diff` are not
    modelled. An associative array of strings (the bulk-action menu) is a sequence of
    key/label pairs in insertion order. */
module PhpArrays {

  datatype Option<T> = None | Some(value: T)

  /** The set of values occurring in a list. */
  function Elems(s: seq<string>): (r: set<string>)
    ensures forall x :: x in r <==> x in s
  {
    set x | x in s
  }

  /** `array_filter($s, $callback)` for a callback that holds exactly on `keep`:
      the elements of `s` that lie in `keep`, in their original order. */
  function Filter(s: seq<string>, keep: set<string>): (r: seq<string>)
    ensures forall x :: x in r <==> x in s && x in keep
    ensures |r| <= |s|
  {
    if s == [] then []
    else
      var init, last := s[..|s| - 1], s[|s| - 1];
      assert s == init + [last];
      Filter(init, keep) + (if last in keep then [last] else [])
  }

  /** `array_diff($s, $remove)`: the elements of `s` whose value is not in `remove`,
      in their original order. */
  function Diff(s: seq<string>, remove: set<string>): (r: seq<string>)
    ensures forall x :: x in r <==> x in s && x !in remove
    ensures |r| <= |s|
  {
    Filter(s, Elems(s) - remove)
  }

  /** Filtering a list extended by one element extends the filtered list by that
      element exactly when it is kept. */
  lemma FilterSnoc(s: seq<string>, x: string, keep: set<string>)
    ensures Filter(s + [x], keep) == Filter(s, keep) + (if x in keep then [x] else [])
  {
    assert (s + [x])[..|s|] == s;
  }

  lemma {:induction false} FilterConcat(u: seq<string>, v: seq<string>, keep: set<string>)
    ensures Filter(u + v, keep) == Filter(u, keep) + Filter(v, keep)
  {
    if v == [] {
      assert u + v == u;
    } else {
      var init, last := v[..|v| - 1], v[|v| - 1];
      var tail := if last in keep then [last] else [];
      assert v == init + [last];
      assert u + v == (u + init) + [last];
      calc {
        Filter(u + v, keep);
        { FilterSnoc(u + init, last, keep); }
        Filter(u + init, keep) + tail;
        { FilterConcat(u, init, keep); }
        (Filter(u, keep) + Filter(init, keep)) + tail;
        Filter(u, keep) + (Filter(init, keep) + tail);
        { FilterSnoc(init, last, keep); }
        Filter(u, keep) + Filter(v, keep);
      }
    }
  }

  /** Two filters in sequence keep what lies in both sets. */
  lemma {:induction false} FilterCompose(s: seq<string>, a: set<string>, b: set<string>)
    ensures Filter(Filter(s, a), b) == Filter(s, a * b)
  {
    if s != [] {
      var init, last := s[..|s| - 1], s[|s| - 1];
      assert s == init + [last];
      FilterCompose(init, a, b);
      FilterSnoc(init, last, a);
      FilterSnoc(init, last, a * b);
      FilterConcat(Filter(init, a), if last in a then [last] else [], b);
      FilterSnoc([], last, b);
      assert [] + [last] == [last];
    }
  }

  /** Only membership of the list's own elements matters to a filter. */
  lemma {:induction false} FilterCongruent(s: seq<string>, a: set<string>, b: set<string>)
    requires forall x :: x in s ==> (x in a <==> x in b)
    ensures Filter(s, a) == Filter(s, b)
  {
    if s != [] {
      var init, last := s[..|s| - 1], s[|s| - 1];
      assert s == init + [last];
      FilterCongruent(init, a, b);
    }
  }

  /** Filtering by `keep` and by its complement (within a universe holding every
      element) splits the list: each occurrence lands in exactly one of the two. */
  lemma {:induction false} FilterSplits(s: seq<string>, keep: set<string>, universe: set<string>)
    requires forall x :: x in s ==> x in universe
    ensures multiset(Filter(s, keep)) + multiset(Filter(s, universe - keep)) == multiset(s)
  {
    if s != [] {
      var init, last := s[..|s| - 1], s[|s| - 1];
      assert s == init + [last];
      FilterSplits(init, keep, universe);
    }
  }

  /** An associative PHP array of strings, as its key/value pairs in order. */
  type KeyedArray = seq<(string, string)>

  /** `isset($m[$k])` (the values here are strings, never null). */
  predicate HasKey(m: KeyedArray, k: string) {
    exists i :: 0 <= i < |m| && m[i].0 == k
  }

  /** A PHP array never holds one key twice. */
  predicate UniqueKeys(m: KeyedArray) {
    forall i, j :: 0 <= i < j < |m| ==> m[i].0 != m[j].0
  }

  /** The PHP array union `$left + $right` on maps: every key of `left` keeps its
      value, and keys found only in `right` are added with theirs. */
  function Union(left: map<string, int>, right: map<string, int>): (r: map<string, int>)
    ensures r.Keys == left.Keys + right.Keys
    ensures forall k :: k in left ==> r[k] == left[k]
    ensures forall k :: k in right && k !in left ==> r[k] == right[k]
  {
    right + left
  }
}
