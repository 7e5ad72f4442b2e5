/** The list updates the components apply to their state: `Array.prototype.filter`
    (delete by id, unchecking a category, the user search) and the checkbox toggle. */
module Lists {

  /** `xs.filter(keep)`. */
  function Filter<T>(xs: seq<T>, keep: T -> bool): (r: seq<T>)
    ensures |r| <= |xs|
    ensures forall i :: 0 <= i < |r| ==> keep(r[i]) && r[i] in xs
  {
    if |xs| == 0 then [] else (if keep(xs[0]) then [xs[0]] else []) + Filter(xs[1..], keep)
  }

  /** Filtering a concatenation filters each part and keeps them in order, so the kept
      elements appear in their original relative order. */
  lemma {:induction false} FilterConcat<T>(a: seq<T>, b: seq<T>, keep: T -> bool)
    ensures Filter(a + b, keep) == Filter(a, keep) + Filter(b, keep)
  {
    if |a| == 0 {
      assert a + b == b;
    } else {
      var head := if keep(a[0]) then [a[0]] else [];
      FilterConcat(a[1..], b, keep);
      assert (a + b)[1..] == a[1..] + b;
      calc {
        Filter(a + b, keep);
        head + Filter(a[1..] + b, keep);
        head + (Filter(a[1..], keep) + Filter(b, keep));
        (head + Filter(a[1..], keep)) + Filter(b, keep);
      }
    }
  }

  /** Each element keeps all its occurrences when it passes the test and loses all of them
      otherwise: the filter removes exactly the rejected entries. */
  lemma {:induction false} FilterCounts<T>(xs: seq<T>, keep: T -> bool, x: T)
    ensures multiset(Filter(xs, keep))[x] == if keep(x) then multiset(xs)[x] else 0
  {
    if |xs| > 0 {
      FilterCounts(xs[1..], keep, x);
      assert xs == [xs[0]] + xs[1..];
    }
  }

  /** An element is in the result exactly when it is in the input and passes the test. */
  lemma FilterMembers<T>(xs: seq<T>, keep: T -> bool, x: T)
    ensures x in Filter(xs, keep) <==> x in xs && keep(x)
  {
    FilterCounts(xs, keep, x);
    assert x in Filter(xs, keep) <==> multiset(Filter(xs, keep))[x] > 0;
    assert x in xs <==> multiset(xs)[x] > 0;
  }

  /** When every element passes, nothing changes. */
  lemma {:induction false} FilterKeepsAll<T>(xs: seq<T>, keep: T -> bool)
    requires forall i :: 0 <= i < |xs| ==> keep(xs[i])
    ensures Filter(xs, keep) == xs
  {
    if |xs| > 0 {
      FilterKeepsAll(xs[1..], keep);
    }
  }

  /** Filtering twice with the same test is filtering once. */
  lemma {:induction false} FilterIdempotent<T>(xs: seq<T>, keep: T -> bool)
    ensures Filter(Filter(xs, keep), keep) == Filter(xs, keep)
  {
    if |xs| > 0 {
      FilterIdempotent(xs[1..], keep);
      FilterConcat(if keep(xs[0]) then [xs[0]] else [], Filter(xs[1..], keep), keep);
    }
  }

  /** `ids.filter(x => x !== id)`. */
  function Without(ids: seq<string>, id: string): seq<string> {
    Filter(ids, (x: string) => x != id)
  }

  /** The checkbox handler: checking appends the id, unchecking removes every occurrence. */
  function Toggle(ids: seq<string>, id: string, checked: bool): (r: seq<string>)
    ensures checked ==> |r| == |ids| + 1 && r[..|ids|] == ids && r[|ids|] == id
    ensures !checked ==> r == Without(ids, id)
  {
    if checked then ids + [id] else Without(ids, id)
  }

  /** Unchecking leaves no occurrence of the id and keeps every other id with all its
      occurrences. */
  lemma UncheckRemovesExactly(ids: seq<string>, id: string, other: string)
    ensures id !in Toggle(ids, id, false)
    ensures other != id ==> multiset(Toggle(ids, id, false))[other] == multiset(ids)[other]
  {
    FilterMembers(ids, (x: string) => x != id, id);
    FilterCounts(ids, (x: string) => x != id, other);
  }

  /** Checking a box that was not checked and unchecking it again restores the list. */
  lemma CheckThenUncheck(ids: seq<string>, id: string)
    requires id !in ids
    ensures Toggle(Toggle(ids, id, true), id, false) == ids
  {
    var keep := (x: string) => x != id;
    FilterConcat(ids, [id], keep);
    FilterKeepsAll(ids, keep);
    assert Filter([id], keep) == [];
  }
}
