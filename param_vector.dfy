/**
 * The reduced-parameter protocol shared by every fitter: a full parameter vector
 * is reduced for the sampler by deleting the positions listed in `todel`
 * (numpy.delete), the deleted values are kept in list order (`fixed = theta[todel]`),
 * and the likelihood rebuilds the full vector by inserting `fixed[k]` at `todel[k]`,
 * one insertion after the other (numpy.insert in a loop).
 */
module ParamVector {
  import opened Common

  predicate StrictlyAscending(t: seq<int>)
  {
    forall i, j :: 0 <= i < j < |t| ==> t[i] < t[j]
  }

  predicate Distinct(t: seq<int>)
  {
    forall i, j :: 0 <= i < j < |t| ==> t[i] != t[j]
  }

  predicate IndicesIn(t: seq<int>, n: int)
  {
    forall i :: 0 <= i < |t| ==> 0 <= t[i] < n
  }

  /** numpy.delete read from position `start` on: s[i] stays unless start + i is listed. */
  function DeleteFrom<T>(s: seq<T>, todel: seq<int>, start: int): seq<T>
    decreases |s|
  {
    if s == [] then []
    else (if start in todel then [] else [s[0]]) + DeleteFrom(s[1..], todel, start + 1)
  }

  /** numpy.delete(s, todel): the entries whose position is not listed, in order. */
  function Delete<T>(s: seq<T>, todel: seq<int>): seq<T>
  {
    DeleteFrom(s, todel, 0)
  }

  /** numpy.insert(s, i, x) for 0 <= i <= len(s). */
  function Insert<T>(s: seq<T>, i: int, x: T): seq<T>
    requires 0 <= i <= |s|
  {
    s[..i] + [x] + s[i..]
  }

  /** Fancy indexing `s[todel]`: the listed entries in list order. */
  function Gather<T>(s: seq<T>, todel: seq<int>): (f: seq<T>)
    requires IndicesIn(todel, |s|)
    ensures |f| == |todel|
    ensures forall k :: 0 <= k < |todel| ==> f[k] == s[todel[k]]
  {
    if todel == [] then [] else [s[todel[0]]] + Gather(s, todel[1..])
  }

  /**
   * The rebuild loop of the likelihood: insert fixed[k] at todel[k] for k = 0, 1, ...
   * numpy raises when a position lies beyond the current vector; that is None here.
   */
  function Expand<T>(r: seq<T>, todel: seq<int>, fixed: seq<T>): (e: Option<seq<T>>)
    requires |todel| == |fixed|
    ensures e.Some? ==> |e.value| == |r| + |todel|
    decreases |todel|
  {
    if todel == [] then Some(r)
    else if 0 <= todel[0] <= |r| then Expand(Insert(r, todel[0], fixed[0]), todel[1..], fixed[1..])
    else None
  }

  /** The insertion loop itself, as the likelihood runs it before computing the model. */
  method ExpandTheta(reduced: seq<real>, todel: seq<int>, fixed: seq<real>) returns (r: Result<seq<real>>)
    requires |todel| == |fixed|
    ensures r.Ok? <==> Expand(reduced, todel, fixed).Some?
    ensures r.Ok? ==> r.value == Expand(reduced, todel, fixed).value
    ensures r.Err? ==> r.error == InsertOutOfRange
  {
    var theta := reduced;
    var k := 0;
    while k < |todel|
      invariant 0 <= k <= |todel|
      invariant Expand(reduced, todel, fixed) == Expand(theta, todel[k..], fixed[k..])
    {
      assert todel[k..][1..] == todel[k + 1..] && fixed[k..][1..] == fixed[k + 1..];
      if !(0 <= todel[k] <= |theta|) {
        return Err(InsertOutOfRange);
      }
      theta := Insert(theta, todel[k], fixed[k]);
      k := k + 1;
    }
    r := Ok(theta);
  }

  lemma {:induction false} DeleteNothing<T>(s: seq<T>, start: int)
    ensures DeleteFrom(s, [], start) == s
    decreases |s|
  {
    if s != [] {
      DeleteNothing(s[1..], start + 1);
    }
  }

  /** Positions that are not listed pass through unchanged. */
  lemma {:induction false} DeleteKeepsPrefix<T>(s: seq<T>, todel: seq<int>, start: int, j: nat)
    requires j <= |s|
    requires forall i :: start <= i < start + j ==> i !in todel
    ensures DeleteFrom(s, todel, start) == s[..j] + DeleteFrom(s[j..], todel, start + j)
    decreases j
  {
    if j > 0 {
      DeleteKeepsPrefix(s[1..], todel, start + 1, j - 1);
      assert s[1..][j - 1..] == s[j..];
      assert s[..j] == [s[0]] + s[1..][..j - 1];
    }
  }

  /** A run of listed positions is skipped. */
  lemma {:induction false} DeleteSkipsListed<T>(s: seq<T>, todel: seq<int>, start: int, m: nat)
    requires m <= |s|
    requires forall i :: start <= i < start + m ==> i in todel
    ensures DeleteFrom(s, todel, start) == DeleteFrom(s[m..], todel, start + m)
    decreases m
  {
    if m > 0 {
      DeleteSkipsListed(s[1..], todel, start + 1, m - 1);
      assert s[1..][m - 1..] == s[m..];
    }
  }

  /** Only membership in the index list matters, not its order or repetitions. */
  lemma {:induction false} DeleteDependsOnMembers<T>(s: seq<T>, a: seq<int>, b: seq<int>, start: int)
    requires forall i :: start <= i < start + |s| ==> (i in a <==> i in b)
    ensures DeleteFrom(s, a, start) == DeleteFrom(s, b, start)
    decreases |s|
  {
    if s != [] {
      DeleteDependsOnMembers(s[1..], a, b, start + 1);
    }
  }

  /**
   * Deleting the smallest listed position p together with larger ones, then inserting
   * s[p] back at p, is the same as deleting only the larger ones.
   */
  lemma {:induction false} InsertUndoesSmallestDelete<T>(s: seq<T>, p: int, rest: seq<int>)
    requires 0 <= p < |s|
    requires forall k :: 0 <= k < |rest| ==> p < rest[k]
    ensures p <= |Delete(s, [p] + rest)|
    ensures Insert(Delete(s, [p] + rest), p, s[p]) == Delete(s, rest)
  {
    var t := [p] + rest;
    forall i | 0 <= i < p
      ensures i !in t && i !in rest
    {
    }
    DeleteKeepsPrefix(s, t, 0, p);
    DeleteKeepsPrefix(s, rest, 0, p);
    var x := DeleteFrom(s[p + 1..], rest, p + 1);
    SmallestDeleteStep(s, p, rest);
    var d := s[..p] + x;
    assert Delete(s, t) == d;
    assert Delete(s, rest) == s[..p] + [s[p]] + x;
    assert d[..p] == s[..p] && d[p..] == x;
  }

  /** From position p on: deleting p drops s[p], keeping p keeps it, the rest agrees. */
  lemma SmallestDeleteStep<T>(s: seq<T>, p: int, rest: seq<int>)
    requires 0 <= p < |s|
    requires forall k :: 0 <= k < |rest| ==> p < rest[k]
    ensures DeleteFrom(s[p..], [p] + rest, p) == DeleteFrom(s[p + 1..], rest, p + 1)
    ensures DeleteFrom(s[p..], rest, p) == [s[p]] + DeleteFrom(s[p + 1..], rest, p + 1)
  {
    assert s[p..][1..] == s[p + 1..];
    assert p !in rest;
    DeleteDependsOnMembers(s[p + 1..], [p] + rest, rest, p + 1);
  }

  /**
   * The round trip of the reduced-parameter protocol: when the deleted positions are
   * strictly ascending, re-inserting the kept values in list order restores the
   * full vector exactly.
   */
  lemma {:induction false} RoundTrip<T>(full: seq<T>, todel: seq<int>)
    requires StrictlyAscending(todel) && IndicesIn(todel, |full|)
    ensures Expand(Delete(full, todel), todel, Gather(full, todel)) == Some(full)
    decreases |todel|
  {
    if todel == [] {
      DeleteNothing(full, 0);
    } else {
      var p, rest := todel[0], todel[1..];
      assert todel == [p] + rest;
      InsertUndoesSmallestDelete(full, p, rest);
      RoundTrip(full, rest);
      assert Gather(full, todel)[1..] == Gather(full, rest);
    }
  }

  /** sorted(set(...)) step: put x into a strictly ascending list unless present. */
  function InsertSorted(s: seq<int>, x: int): (r: seq<int>)
    requires StrictlyAscending(s)
    ensures StrictlyAscending(r)
    ensures forall y :: y in r <==> y in s || y == x
    ensures |r| == if x in s then |s| else |s| + 1
    decreases |s|
  {
    if s == [] then [x]
    else if x < s[0] then [x] + s
    else if x == s[0] then s
    else
      assert x in s <==> x in s[1..] by { assert s == [s[0]] + s[1..]; }
      var rest := InsertSorted(s[1..], x);
      assert forall k :: 0 <= k < |rest| ==> s[0] < rest[k] by {
        forall k | 0 <= k < |rest| ensures s[0] < rest[k] {
          assert rest[k] in s[1..] || rest[k] == x;
        }
      }
      [s[0]] + rest
  }

  /** Python's sorted(list(set(t))). */
  function SortUnique(t: seq<int>): (r: seq<int>)
    ensures StrictlyAscending(r)
    ensures forall y :: y in r <==> y in t
    ensures Distinct(t) ==> |r| == |t|
  {
    if t == [] then []
    else
      assert t == [t[0]] + t[1..];
      assert Distinct(t) ==> t[0] !in t[1..];
      InsertSorted(SortUnique(t[1..]), t[0])
  }

  /** Every listed position is in range, whatever order the list is in. */
  lemma SortedIndicesIn(t: seq<int>, n: int)
    requires IndicesIn(t, n)
    ensures IndicesIn(SortUnique(t), n)
  {
    var r := SortUnique(t);
    forall k | 0 <= k < |r| ensures 0 <= r[k] < n {
      assert r[k] in t;
    }
  }

  /**
   * Reduction by distinct in-range positions, in any order, removes exactly |todel|
   * entries and equals the reduction by the same positions sorted.
   */
  lemma {:induction false} ReducedLength<T>(s: seq<T>, todel: seq<int>)
    requires Distinct(todel) && IndicesIn(todel, |s|)
    ensures Delete(s, todel) == Delete(s, SortUnique(todel))
    ensures |Delete(s, todel)| == |s| - |todel|
  {
    var sorted := SortUnique(todel);
    DeleteDependsOnMembers(s, todel, sorted, 0);
    SortedIndicesIn(todel, |s|);
    RoundTrip(s, sorted);
  }

  /** Removing entry p from the reduction by larger positions deletes p as well. */
  lemma RemoveSmallest<T>(s: seq<T>, p: int, rest: seq<int>)
    requires 0 <= p < |s|
    requires forall k :: 0 <= k < |rest| ==> p < rest[k]
    ensures p < |Delete(s, rest)|
    ensures Delete(s, rest)[..p] + Delete(s, rest)[p + 1..] == Delete(s, [p] + rest)
  {
    InsertUndoesSmallestDelete(s, p, rest);
    var d := Delete(s, [p] + rest);
    var r := Delete(s, rest);
    assert r == d[..p] + [s[p]] + d[p..];
    assert r[..p] == d[..p];
    assert r[p + 1..] == d[p..];
  }

  /**
   * The parameter names are reduced differently from the numeric vectors: one `del`
   * per listed position, largest position first. For distinct positions this gives
   * the same list as numpy.delete, so names and values stay aligned.
   */
  method DeleteNames<T>(names: seq<T>, todel: seq<int>) returns (r: seq<T>)
    requires Distinct(todel) && IndicesIn(todel, |names|)
    ensures r == Delete(names, todel)
    ensures |r| == |names| - |todel|
  {
    var order := SortUnique(todel);
    SortedIndicesIn(todel, |names|);
    DeleteNothing(names, 0);
    r := names;
    var k := |order|;
    assert order[k..] == [];
    while k > 0
      invariant 0 <= k <= |order|
      invariant r == Delete(names, order[k..])
    {
      var p := order[k - 1];
      assert order[k - 1..] == [p] + order[k..];
      assert forall j :: 0 <= j < |order[k..]| ==> p < order[k..][j] by {
        forall j | 0 <= j < |order[k..]| ensures p < order[k..][j] {
          assert order[k..][j] == order[k + j];
        }
      }
      RemoveSmallest(names, p, order[k..]);
      r := r[..p] + r[p + 1..];
      k := k - 1;
    }
    DeleteDependsOnMembers(names, todel, order, 0);
    ReducedLength(names, todel);
  }
}
