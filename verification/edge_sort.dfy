/** The rasteriser's edge sort (`stbtt__sort_edges`): a quicksort that stops at
    short runs, then one insertion sort over everything. */
module EdgeSort {
  import opened Common

  datatype Edge = Edge(x0: real, y0: real, x1: real, y1: real, invert: bool)

  predicate Before(a: Edge, b: Edge) {
    a.y0 < b.y0
  }

  ghost predicate Sorted(s: seq<Edge>) {
    forall u, v :: 0 <= u < v < |s| ==> !Before(s[v], s[u])
  }

  /** Elements have changed places only inside the n slots from p on. */
  ghost predicate Shuffled(now: seq<Edge>, was: seq<Edge>, p: nat, n: nat) {
    && |now| == |was| && multiset(now) == multiset(was)
    && forall k :: 0 <= k < |was| && !(p <= k < p + n) ==> now[k] == was[k]
  }

  lemma ShuffledAgain(now: seq<Edge>, mid: seq<Edge>, was: seq<Edge>, p: nat, n: nat, p': nat, n': nat)
    requires Shuffled(mid, was, p, n) && Shuffled(now, mid, p', n')
    requires p <= p' && p' + n' <= p + n
    ensures Shuffled(now, was, p, n)
  {
  }

  lemma Exchanged(s: seq<Edge>, u: nat, v: nat, p: nat, n: nat)
    requires p <= u < p + n <= |s| && p <= v < p + n
    ensures Shuffled(s[u := s[v]][v := s[u]], s, p, n)
  {
  }

  method Swap(a: array<Edge>, u: nat, v: nat, ghost p: nat, ghost n: nat)
    requires p <= u < p + n <= a.Length && p <= v < p + n
    modifies a
    ensures a[u] == old(a[v]) && a[v] == old(a[u])
    ensures forall k :: 0 <= k < a.Length && k != u && k != v ==> a[k] == old(a[k])
    ensures Shuffled(a[..], old(a[..]), p, n)
  {
    Exchanged(a[..], u, v, p, n);
    a[u], a[v] := a[v], a[u];
    assert a[..] == old(a[..])[u := old(a[v])][v := old(a[u])];
  }

  /** The pivot lies between the edges left in the middle slot and the last one. */
  ghost predicate PivotIsMedian(pivot: Edge, middle: Edge, last: Edge) {
    || (!Before(pivot, middle) && !Before(last, pivot))
    || (!Before(middle, pivot) && !Before(pivot, last))
  }

  method MedianToFront(a: array<Edge>, p: nat, n: nat)
    requires n >= 3 && p + n <= a.Length
    modifies a
    ensures Shuffled(a[..], old(a[..]), p, n)
    ensures PivotIsMedian(a[p], a[p + n / 2], a[p + n - 1])
  {
    var m := n / 2;
    var c01 := Before(a[p], a[p + m]);
    var c12 := Before(a[p + m], a[p + n - 1]);
    if c01 != c12 {
      var c := Before(a[p], a[p + n - 1]);
      var z := if c == c12 then 0 else n - 1;
      Swap(a, p + z, p + m, p, n);
    }
    ghost var mid := a[..];
    Swap(a, p, p + m, p, n);
    ShuffledAgain(a[..], mid, old(a[..]), p, n, p, n);
  }

  /** The upward scan has no bound test: some edge g ahead of it stops it. */
  method ScanUp(a: array<Edge>, p: nat, i: nat, ghost g: nat) returns (i': nat)
    requires i <= g && p + g < a.Length && !Before(a[p + g], a[p])
    ensures i <= i' <= g && !Before(a[p + i'], a[p])
    ensures forall k :: p + i <= k < p + i' ==> Before(a[k], a[p])
  {
    i' := i;
    while Before(a[p + i'], a[p])
      invariant i <= i' <= g
      invariant forall k :: p + i <= k < p + i' ==> Before(a[k], a[p])
      decreases g - i'
    {
      i' := i' + 1;
    }
  }

  /** The downward scan has none either: the pivot itself stops it. */
  method ScanDown(a: array<Edge>, p: nat, j: nat) returns (j': nat)
    requires p + j < a.Length
    ensures j' <= j && !Before(a[p], a[p + j'])
    ensures forall k :: p + j' < k <= p + j ==> Before(a[p], a[k])
  {
    j' := j;
    while Before(a[p], a[p + j'])
      invariant 0 <= j' <= j
      invariant forall k :: p + j' < k <= p + j ==> Before(a[p], a[k])
      decreases j'
    {
      j' := j' - 1;
    }
  }

  /** The partition loop. On return nothing before i belongs after the pivot and
      nothing after j before it, and both parts, [0, j) and [i, n), are shorter. */
  method Partition(a: array<Edge>, p: nat, n: nat) returns (i: nat, j: nat)
    requires n >= 3 && p + n <= a.Length
    requires PivotIsMedian(a[p], a[p + n / 2], a[p + n - 1])
    modifies a
    ensures Shuffled(a[..], old(a[..]), p, n) && a[p] == old(a[p])
    ensures 1 <= i < n && j < n && j <= i
    ensures forall k :: p <= k < p + i ==> !Before(a[p], a[k])
    ensures forall k :: p + j < k < p + n ==> !Before(a[k], a[p])
  {
    i, j := 1, n - 1;
    ghost var g := if !Before(a[p + n / 2], a[p]) then n / 2 else n - 1;
    while true
      invariant 1 <= i <= g < n && j < n && i <= j + 1
      invariant !Before(a[p + g], a[p])
      invariant Shuffled(a[..], old(a[..]), p, n) && a[p] == old(a[p])
      invariant forall k :: p <= k < p + i ==> !Before(a[p], a[k])
      invariant forall k :: p + j < k < p + n ==> !Before(a[k], a[p])
      decreases n - i
    {
      i := ScanUp(a, p, i, g);
      j := ScanDown(a, p, j);
      if i >= j { break; }
      ghost var mid := a[..];
      Swap(a, p + i, p + j, p, n);
      ShuffledAgain(a[..], mid, old(a[..]), p, n, p, n);
      g := j;
      i := i + 1;
      j := j - 1;
    }
  }

  /** Sorts roughly; returns how deep it recursed. */
  method QuickSort(a: array<Edge>, p0: nat, n0: nat) returns (ghost depth: nat)
    requires p0 + n0 <= a.Length
    modifies a
    ensures Shuffled(a[..], old(a[..]), p0, n0)
    ensures n0 > 0 ==> Pow2(depth) <= n0
    ensures n0 == 0 ==> depth == 0
    decreases n0
  {
    var p, n := p0, n0;
    depth := 0;
    while n > 12
      invariant p0 <= p && p + n <= p0 + n0
      invariant Shuffled(a[..], old(a[..]), p0, n0)
      invariant n0 > 0 ==> Pow2(depth) <= n0
      invariant n0 == 0 ==> depth == 0
      decreases n
    {
      ghost var start := a[..];
      MedianToFront(a, p, n);
      ghost var chosen := a[..];
      var i, j := Partition(a, p, n);
      ghost var parted := a[..];
      ghost var d;
      ShuffledAgain(chosen, start, old(a[..]), p0, n0, p, n);
      ShuffledAgain(parted, chosen, old(a[..]), p0, n0, p, n);
      if j < n - i {
        d := QuickSort(a, p, j);
        ShuffledAgain(a[..], parted, old(a[..]), p0, n0, p, j);
        p := p + i;
        n := n - i;
      } else {
        d := QuickSort(a, p + i, n - i);
        ShuffledAgain(a[..], parted, old(a[..]), p0, n0, p + i, n - i);
        n := j;
      }
      if d + 1 > depth { depth := d + 1; }
    }
  }

  /** While t travels down: s with t put into hole j is a shuffle of what was there,
      the rest of the first n is in order and all of it above the hole follows t. */
  ghost predicate Travelling(s: seq<Edge>, j: nat, t: Edge, was: seq<Edge>, n: nat) {
    && j < n <= |s| && Shuffled(s[j := t], was, 0, n)
    && (forall u, v :: 0 <= u < v < n && u != j && v != j ==> !Before(s[v], s[u]))
    && forall v :: j < v < n ==> Before(t, s[v])
  }

  lemma HoleMoves(s: seq<Edge>, j: nat, t: Edge, was: seq<Edge>, n: nat)
    requires 0 < j && Travelling(s, j, t, was, n) && Before(t, s[j - 1])
    ensures Travelling(s[j := s[j - 1]], j - 1, t, was, n)
  {
  }

  lemma HoleFilled(s: seq<Edge>, j: nat, t: Edge, was: seq<Edge>, n: nat)
    requires Travelling(s, j, t, was, n) && (j > 0 ==> !Before(t, s[j - 1]))
    ensures Shuffled(s[j := t], was, 0, n) && Sorted(s[j := t][..n])
  {
  }

  /** The inner loop: the edge held out of slot i travels down to its place. */
  method Insert(a: array<Edge>, i: nat)
    requires i < a.Length && Sorted(a[..i])
    modifies a
    ensures Shuffled(a[..], old(a[..]), 0, i + 1) && Sorted(a[..i + 1])
  {
    var t := a[i];
    var j := i;
    assert a[..][i := t] == a[..];
    while j > 0
      invariant j <= i && (j == i ==> a[j] == t)
      invariant Travelling(a[..], j, t, old(a[..]), i + 1)
    {
      if !Before(t, a[j - 1]) { break; }
      MoveHole(a, i, j, t, old(a[..]));
      j := j - 1;
    }
    FillHole(a, i, j, t, old(a[..]));
  }

  method MoveHole(a: array<Edge>, i: nat, j: nat, t: Edge, ghost was: seq<Edge>)
    requires 0 < j <= i < a.Length && Travelling(a[..], j, t, was, i + 1) && Before(t, a[j - 1])
    modifies a
    ensures Travelling(a[..], j - 1, t, was, i + 1)
  {
    HoleMoves(a[..], j, t, was, i + 1);
    ghost var before := a[..];
    a[j] := a[j - 1];
    assert a[..] == before[j := before[j - 1]];
  }

  method FillHole(a: array<Edge>, i: nat, j: nat, t: Edge, ghost was: seq<Edge>)
    requires j <= i < a.Length && (j == i ==> a[j] == t) && Travelling(a[..], j, t, was, i + 1)
    requires j > 0 ==> !Before(t, a[j - 1])
    modifies a
    ensures Shuffled(a[..], was, 0, i + 1) && Sorted(a[..i + 1])
  {
    HoleFilled(a[..], j, t, was, i + 1);
    ghost var holed := a[..];
    if i != j {
      a[j] := t;
    }
    assert a[..] == holed[j := t];
    assert a[..][..i + 1] == a[..i + 1];
  }

  method InsertionSort(a: array<Edge>, n: nat)
    requires n <= a.Length
    modifies a
    ensures Shuffled(a[..], old(a[..]), 0, n) && Sorted(a[..n])
  {
    var i := 1;
    while i < n
      invariant 1 <= i && (n > 0 ==> i <= n)
      invariant Shuffled(a[..], old(a[..]), 0, n)
      invariant n > 0 ==> Sorted(a[..i])
    {
      ghost var before := a[..];
      Insert(a, i);
      ShuffledAgain(a[..], before, old(a[..]), 0, n, 0, i + 1);
      i := i + 1;
    }
  }

  lemma PrefixShuffled(now: seq<Edge>, was: seq<Edge>, n: nat)
    requires n <= |was| && Shuffled(now, was, 0, n)
    ensures multiset(now[..n]) == multiset(was[..n]) && now[n..] == was[n..]
  {
    assert now == now[..n] + now[n..] && was == was[..n] + was[n..];
    assert now[n..] == was[n..];
    assert multiset(now[..n]) == multiset(now) - multiset(now[n..]);
    assert multiset(was[..n]) == multiset(was) - multiset(was[n..]);
  }

  method SortEdges(a: array<Edge>, n: nat)
    requires n <= a.Length
    modifies a
    ensures forall u, v :: 0 <= u < v < n ==> a[u].y0 <= a[v].y0
    ensures multiset(a[..n]) == multiset(old(a[..n])) && a[n..] == old(a[n..])
  {
    ghost var depth := QuickSort(a, 0, n);
    ghost var rough := a[..];
    InsertionSort(a, n);
    ShuffledAgain(a[..], rough, old(a[..]), 0, n, 0, n);
    PrefixShuffled(a[..], old(a[..]), n);
    assert a[..][..n] == a[..n] && old(a[..])[..n] == old(a[..n]);
    assert a[..][n..] == a[n..] && old(a[..])[n..] == old(a[n..]);
  }
}
