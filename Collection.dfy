/**
 * Identified records and the three list operations the schedule join is built
 * from: `Array.prototype.find` on the id, `Array.prototype.filter`, and
 * `Array.prototype.map` whose callback may throw (the first throw aborts).
 */
module Collection {
  import opened Wrappers

  /** A record of a collection together with the identifier of its document. */
  datatype Doc<T> = Doc(id: string, data: T)

  /** Position `i` holds the first record of `docs` whose id is `id`. */
  predicate IsFirstWithId<T>(docs: seq<Doc<T>>, id: string, i: int) {
    0 <= i < |docs| && docs[i].id == id && forall j :: 0 <= j < i ==> docs[j].id != id
  }

  /**
   * `docs.find(({ id: x }) => x === id)`: the first record, in collection
   * order, whose id equals `id`; `None` when there is none.
   */
  function FindById<T>(docs: seq<Doc<T>>, id: string): (r: Option<Doc<T>>)
    ensures r.None? <==> forall i :: 0 <= i < |docs| ==> docs[i].id != id
    ensures forall i :: IsFirstWithId(docs, id, i) ==> r == Some(docs[i])
    ensures r.Some? ==> r.value in docs && r.value.id == id
    ensures r.Some? ==> exists i :: IsFirstWithId(docs, id, i) && r.value == docs[i]
  {
    if docs == [] then None
    else if docs[0].id == id then Some(docs[0])
    else
      var r := FindById(docs[1..], id);
      assert forall i :: IsFirstWithId(docs, id, i) ==> IsFirstWithId(docs[1..], id, i - 1);
      assert forall i :: IsFirstWithId(docs[1..], id, i) ==> IsFirstWithId(docs, id, i + 1);
      r
  }

  /**
   * `sub` can be obtained from `xs` by deleting elements, so its elements occur
   * in `xs` in the same relative order. Matching the head greedily is enough to
   * decide it.
   */
  predicate IsSubsequence<T(==)>(sub: seq<T>, xs: seq<T>)
    decreases |xs|
  {
    if sub == [] then true
    else if xs == [] then false
    else if sub[0] == xs[0] then IsSubsequence(sub[1..], xs[1..])
    else IsSubsequence(sub, xs[1..])
  }

  /**
   * `xs.filter(p)`: the elements of `xs` that satisfy `p`, in the order of
   * `xs`, each as often as it occurs there.
   */
  function Filter<T(==,!new)>(xs: seq<T>, p: T -> bool): (r: seq<T>)
    ensures forall i :: 0 <= i < |r| ==> p(r[i])
    ensures forall x :: x in r <==> x in xs && p(x)
    ensures IsSubsequence(r, xs)
  {
    if xs == [] then []
    else
      var rest := Filter(xs[1..], p);
      if p(xs[0]) then
        assert ([xs[0]] + rest)[1..] == rest;
        [xs[0]] + rest
      else
        rest
  }

  /**
   * Two maps that agree on every element end alike: the same values, or the
   * same first failure.
   */
  lemma {:induction false} TraverseAgree<A, B, E>(xs: seq<A>, f: A -> Result<B, E>, g: A -> Result<B, E>)
    requires forall i :: 0 <= i < |xs| ==> f(xs[i]) == g(xs[i])
    ensures Traverse(xs, f) == Traverse(xs, g)
  {
    if xs != [] {
      assert forall i :: 0 <= i < |xs[1..]| ==> xs[1..][i] == xs[i + 1];
      TraverseAgree(xs[1..], f, g);
    }
  }

  /** `Filter` keeps every accepted element exactly as often as it occurs, and no other. */
  lemma {:induction false} FilterCount<T(!new)>(xs: seq<T>, p: T -> bool)
    ensures forall x :: multiset(Filter(xs, p))[x] == if p(x) then multiset(xs)[x] else 0
  {
    if xs != [] {
      FilterCount(xs[1..], p);
      assert xs == [xs[0]] + xs[1..];
    }
  }

  /** Deleting an element that `p` rejects does not change what `Filter` keeps. */
  lemma {:induction false} FilterSkip<T(!new)>(xs: seq<T>, j: int, p: T -> bool)
    requires 0 <= j < |xs| && !p(xs[j])
    ensures Filter(xs[..j] + xs[j + 1..], p) == Filter(xs, p)
  {
    if j == 0 {
      assert xs[..j] + xs[j + 1..] == xs[1..];
    } else {
      var ys := xs[..j] + xs[j + 1..];
      FilterSkip(xs[1..], j - 1, p);
      assert ys[0] == xs[0];
      assert ys[1..] == xs[1..][..j - 1] + xs[1..][j..];
    }
  }

  /**
   * `xs.map(f)` where `f` may fail: every element is mapped in order, and the
   * first failure aborts the whole map with that failure.
   */
  function Traverse<A, B, E>(xs: seq<A>, f: A -> Result<B, E>): (r: Result<seq<B>, E>)
    ensures r.Success? <==> forall i :: 0 <= i < |xs| ==> f(xs[i]).Success?
    ensures r.Success? ==> |r.value| == |xs| && forall i :: 0 <= i < |xs| ==> f(xs[i]) == Success(r.value[i])
    ensures r.Failure? ==>
      exists i :: 0 <= i < |xs| && f(xs[i]) == Failure(r.error)
                && forall j :: 0 <= j < i ==> f(xs[j]).Success?
  {
    if xs == [] then Success([])
    else
      match f(xs[0])
      case Failure(e) => Failure(e)
      case Success(y) =>
        var rest := Traverse(xs[1..], f);
        assert forall i :: 1 <= i < |xs| ==> xs[i] == xs[1..][i - 1];
        match rest
        case Failure(e) => Failure(e)
        case Success(ys) => Success([y] + ys)
  }
}
