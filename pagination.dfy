/** `/list_posts` output: the ledger's URLs as a list, cut into messages of at most ten. */
module Pagination {

  /** How many URLs one reply message lists. */
  const PageSize := 10

  function Min(a: int, b: int): (m: int)
    ensures m <= a && m <= b && (m == a || m == b)
  {
    if a <= b then a else b
  }

  /** `[xs[i:i+10] for i in range(0, len(xs), 10)]`: one slice per start index
      0, 10, 20, ..., each cut short at the end of `xs` as Python's slicing does.
      There are ceil(|xs| / 10) pages (none exactly when `xs` is empty); every page holds
      1 to 10 elements, and only the last may hold fewer than 10. */
  function Chunks<T>(xs: seq<T>): (pages: seq<seq<T>>)
    ensures |pages| * PageSize >= |xs|
    ensures (|pages| - 1) * PageSize < |xs| || xs == []
    ensures pages == [] <==> xs == []
    ensures forall i :: 0 <= i < |pages| ==> 1 <= |pages[i]| <= PageSize
    ensures forall i :: 0 <= i < |pages| - 1 ==> |pages[i]| == PageSize
  {
    seq((|xs| + PageSize - 1) / PageSize,
        i requires 0 <= i < (|xs| + PageSize - 1) / PageSize =>
          xs[i * PageSize .. Min(i * PageSize + PageSize, |xs|)])
  }

  /** The pages joined back together, in order. */
  function Flatten<T>(pages: seq<seq<T>>): (xs: seq<T>) {
    if pages == [] then [] else pages[0] + Flatten(pages[1..])
  }

  /** The first page is the first ten elements; the rest are the pages of what follows. */
  lemma ChunksStep<T>(xs: seq<T>)
    requires xs != []
    ensures Chunks(xs) == [xs[..Min(PageSize, |xs|)]] + Chunks(xs[Min(PageSize, |xs|)..])
  {
    var m := Min(PageSize, |xs|);
    var c, d := Chunks(xs), Chunks(xs[m..]);
    assert |c| == 1 + |d|;
    forall i | 0 <= i < |d|
      ensures c[i + 1] == d[i]
    {
      assert xs[m..][i * PageSize .. Min(i * PageSize + PageSize, |xs| - m)]
          == xs[(i + 1) * PageSize .. Min((i + 1) * PageSize + PageSize, |xs|)];
    }
  }

  /** Joining the pages gives back the list. */
  lemma {:induction false} FlattenChunks<T>(xs: seq<T>)
    ensures Flatten(Chunks(xs)) == xs
    decreases |xs|
  {
    if xs != [] {
      var m := Min(PageSize, |xs|);
      ChunksStep(xs);
      assert Chunks(xs)[1..] == Chunks(xs[m..]);
      FlattenChunks(xs[m..]);
      assert xs == xs[..m] + xs[m..];
    }
  }

  /** No element occurs twice. */
  ghost predicate NoDuplicates<T>(xs: seq<T>) {
    forall i, j :: 0 <= i < j < |xs| ==> xs[i] != xs[j]
  }

  /** `list(urls)`: the elements of a set, each once, in an order the set's iteration
      decides (arbitrary here). */
  method ListOf<T>(s: set<T>) returns (xs: seq<T>)
    ensures forall x :: x in xs <==> x in s
    ensures NoDuplicates(xs)
  {
    xs := [];
    var rest := s;
    while rest != {}
      invariant forall x :: x in s <==> x in xs || x in rest
      invariant forall x :: x in xs ==> x !in rest
      invariant NoDuplicates(xs)
      decreases |rest|
    {
      var x :| x in rest;
      xs := xs + [x];
      rest := rest - {x};
    }
  }
}
