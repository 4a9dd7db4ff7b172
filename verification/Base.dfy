/** Result types and small collection facts shared by the whole model. */
module Base {

  datatype Option<+T> = None | Some(value: T) {
    function GetOr(default: T): T {
      match this
      case Some(v) => v
      case None => default
    }
  }

  /** `Err` stands for the exception a service call throws. */
  datatype Result<+T, +E> = Ok(value: T) | Err(error: E)

  /** A present, non-empty string, as a truth test sees it. */
  predicate Given(o: Option<string>) {
    o.Some? && o.value != ""
  }

  function Max(a: int, b: int): int {
    if a < b then b else a
  }

  /** The sequence without its element at `k`. */
  function Without<T>(xs: seq<T>, k: nat): seq<T>
    requires k < |xs|
  {
    xs[..k] + xs[k + 1..]
  }

  function Sum(xs: seq<int>): int {
    if xs == [] then 0 else Sum(xs[..|xs| - 1]) + xs[|xs| - 1]
  }

  lemma {:induction false} SumAppend(xs: seq<int>, ys: seq<int>)
    ensures Sum(xs + ys) == Sum(xs) + Sum(ys)
  {
    if ys == [] {
      assert xs + ys == xs;
    } else {
      SumAppend(xs, ys[..|ys| - 1]);
      assert (xs + ys)[..|xs + ys| - 1] == xs + ys[..|ys| - 1];
    }
  }

  /** Changing one entry moves the sum by the difference. */
  lemma {:induction false} SumUpdate(xs: seq<int>, i: nat, x: int)
    requires i < |xs|
    ensures Sum(xs[i := x]) == Sum(xs) + x - xs[i]
  {
    var n := |xs| - 1;
    if i == n {
      assert xs[i := x][..n] == xs[..n];
    } else {
      SumUpdate(xs[..n], i, x);
      assert xs[i := x][..n] == xs[..n][i := x];
    }
  }

  /** Each sequence element is different from every other one. */
  ghost predicate NoDup<T>(xs: seq<T>) {
    forall i, j :: 0 <= i < j < |xs| ==> xs[i] != xs[j]
  }

  ghost function Elems<T>(xs: seq<T>): set<T> {
    set x | x in xs
  }

  lemma {:induction false} ElemsAtMost<T>(xs: seq<T>)
    ensures |Elems(xs)| <= |xs|
    ensures |Elems(xs)| == |xs| <==> NoDup(xs)
  {
    if xs == [] {
    } else {
      var n := |xs| - 1;
      var front, last := xs[..n], xs[n];
      ElemsAtMost(front);
      assert xs == front + [last];
      assert Elems(xs) == Elems(front) + {last};
      if last in front {
        assert Elems(xs) == Elems(front);
        var k :| 0 <= k < n && front[k] == last;
        assert xs[k] == xs[n];
      } else {
        assert |Elems(xs)| == |Elems(front)| + 1;
        if NoDup(front) {
          assert NoDup(xs);
        } else {
          var i, j :| 0 <= i < j < n && front[i] == front[j];
          assert xs[i] == xs[j];
        }
      }
    }
  }

  lemma SubsetSize<T>(a: set<T>, b: set<T>)
    requires a <= b
    ensures |a| <= |b|
    ensures |a| == |b| ==> a == b
  {
    assert b == a + (b - a);
  }

  /** Extending a duplicate-free prefix by an element not in it. */
  lemma FreshAt<T>(xs: seq<T>, k: nat)
    requires k < |xs| && NoDup(xs[..k]) && xs[k] !in Elems(xs[..k])
    ensures NoDup(xs[..k + 1]) && Elems(xs[..k + 1]) == Elems(xs[..k]) + {xs[k]}
  {
  }

  lemma NothingRepeated<T>(xs: seq<T>)
    requires xs == []
    ensures NoDup(xs)
  {
  }

  lemma RepeatedAt<T>(xs: seq<T>, k: nat)
    requires k < |xs| && xs[k] in Elems(xs[..k])
    ensures !NoDup(xs)
  {
  }
}
