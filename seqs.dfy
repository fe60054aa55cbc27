/** Concatenation of a sequence of sequences (Rust's `flat_map`/`flatten` then `collect`),
    and collecting a sequence of fallible steps. */
module Seqs {
  import opened Wrappers

  /** The elements of ss[0], then of ss[1], and so on. */
  function Concat<T>(ss: seq<seq<T>>): seq<T>
    decreases |ss|
  {
    if ss == [] then [] else Concat(ss[..|ss| - 1]) + ss[|ss| - 1]
  }

  /** Number of elements that precede the block ss[i] in Concat(ss). */
  function Offset<T>(ss: seq<seq<T>>, i: nat): nat
    requires i <= |ss|
  {
    |Concat(ss[..i])|
  }

  /** Sum of the lengths of the blocks. */
  function TotalLength<T>(ss: seq<seq<T>>): nat
    decreases |ss|
  {
    if ss == [] then 0 else TotalLength(ss[..|ss| - 1]) + |ss[|ss| - 1]|
  }

  lemma {:induction false} ConcatLength<T>(ss: seq<seq<T>>)
    ensures |Concat(ss)| == TotalLength(ss)
    decreases |ss|
  {
    if ss != [] {
      ConcatLength(ss[..|ss| - 1]);
    }
  }

  /** Concat(ss) lists block i at positions Offset(ss, i) .. Offset(ss, i) + |ss[i]|:
      blocks keep their order and each block keeps its own order. */
  lemma {:induction false} ConcatAt<T>(ss: seq<seq<T>>, i: nat, k: nat)
    requires i < |ss| && k < |ss[i]|
    ensures Offset(ss, i) + k < |Concat(ss)|
    ensures Concat(ss)[Offset(ss, i) + k] == ss[i][k]
    decreases |ss|
  {
    var n := |ss| - 1;
    assert ss[..n + 1] == ss;
    if i == n {
      assert ss[..i] == ss[..n];
    } else {
      assert ss[..n][..i] == ss[..i];
      ConcatAt(ss[..n], i, k);
    }
  }

  /** Every element of Concat(ss) comes from some block. */
  lemma {:induction false} ConcatMember<T>(ss: seq<seq<T>>, x: T)
    requires x in Concat(ss)
    ensures exists i :: 0 <= i < |ss| && x in ss[i]
    decreases |ss|
  {
    var n := |ss| - 1;
    if x in ss[n] {
    } else {
      ConcatMember(ss[..n], x);
      var i :| 0 <= i < n && x in ss[..n][i];
      assert x in ss[i];
    }
  }

  /** Appending one block extends the concatenation by that block. */
  lemma ConcatSnoc<T>(ss: seq<seq<T>>, s: seq<T>)
    ensures Concat(ss + [s]) == Concat(ss) + s
  {
    assert (ss + [s])[..|ss|] == ss;
  }

  /** Applies f to every element in order and stops at the first failure: an iterator
      chain whose steps may panic, forced by `collect`. */
  function Traverse<A, B, E>(xs: seq<A>, f: A -> Result<B, E>): (r: Result<seq<B>, E>)
    ensures r.Ok? <==> forall i :: 0 <= i < |xs| ==> f(xs[i]).Ok?
    ensures r.Ok? ==> |r.value| == |xs| && forall i :: 0 <= i < |xs| ==> r.value[i] == f(xs[i]).value
    ensures r.Err? ==> exists i :: 0 <= i < |xs| && f(xs[i]) == Err(r.error) && forall j :: 0 <= j < i ==> f(xs[j]).Ok?
    decreases |xs|
  {
    if xs == [] then Ok([])
    else
      match f(xs[0])
      case Err(e) => Err(e)
      case Ok(y) =>
        match Traverse(xs[1..], f)
        case Err(e) =>
          assert exists i :: 0 <= i < |xs| && f(xs[i]) == Err(e) && forall j :: 0 <= j < i ==> f(xs[j]).Ok? by {
            var i :| 0 <= i < |xs[1..]| && f(xs[1..][i]) == Err(e) && forall j :: 0 <= j < i ==> f(xs[1..][j]).Ok?;
            assert forall j :: 1 <= j < i + 1 ==> xs[j] == xs[1..][j - 1];
          }
          Err(e)
        case Ok(ys) => Ok([y] + ys)
  }

  /** Traversing one element is applying f to it. */
  lemma TraverseOne<A, B, E>(x: A, f: A -> Result<B, E>)
    ensures Traverse([x], f) == match f(x) case Ok(y) => Ok([y]) case Err(e) => Err(e)
  {
    assert [x][1..] == [];
    assert Traverse([x][1..], f) == Ok([]);
    if f(x).Ok? {
      assert [f(x).value] + [] == [f(x).value];
    }
  }

  /** Traversing two elements that both succeed gives their two values. */
  lemma TraverseTwo<A, B, E>(x: A, y: A, f: A -> Result<B, E>)
    requires f(x).Ok? && f(y).Ok?
    ensures Traverse([x, y], f) == Ok([f(x).value, f(y).value])
  {
    assert [x, y][1..] == [y];
    TraverseOne(y, f);
    assert [f(x).value] + [f(y).value] == [f(x).value, f(y).value];
  }

  /** Traversing a pair whose two steps give x and y gives [x, y]. */
  lemma TraversePair<A, B, E>(xs: seq<A>, f: A -> Result<B, E>, a: A, b: A, x: B, y: B)
    requires xs == [a, b] && f(a) == Ok(x) && f(b) == Ok(y)
    ensures Traverse(xs, f) == Ok([x, y])
  {
    TraverseTwo(a, b, f);
  }

  /** Extending the input by one element whose step succeeds extends the result by its
      value; a failing step makes the whole input fail with its error. */
  lemma TraverseSnoc<A, B, E>(xs: seq<A>, f: A -> Result<B, E>, i: nat)
    requires i < |xs| && Traverse(xs[..i], f).Ok?
    ensures f(xs[i]).Ok? ==> Traverse(xs[..i + 1], f) == Ok(Traverse(xs[..i], f).value + [f(xs[i]).value])
    ensures f(xs[i]).Err? ==> Traverse(xs, f) == Err(f(xs[i]).error)
  {
    PrefixOk(xs, f, i);
    if f(xs[i]).Ok? {
      SnocOk(xs, f, i);
    } else {
      var r := Traverse(xs, f);
      var k :| 0 <= k < |xs| && f(xs[k]) == Err(r.error) && forall j :: 0 <= j < k ==> f(xs[j]).Ok?;
      assert k == i;
    }
  }

  /** Every step of a prefix that succeeds succeeds. */
  lemma PrefixOk<A, B, E>(xs: seq<A>, f: A -> Result<B, E>, i: nat)
    requires i <= |xs| && Traverse(xs[..i], f).Ok?
    ensures forall j :: 0 <= j < i ==> f(xs[j]).Ok? && Traverse(xs[..i], f).value[j] == f(xs[j]).value
  {
    forall j | 0 <= j < i ensures f(xs[j]).Ok? && Traverse(xs[..i], f).value[j] == f(xs[j]).value {
      assert xs[..i][j] == xs[j];
    }
  }

  lemma SnocOk<A, B, E>(xs: seq<A>, f: A -> Result<B, E>, i: nat)
    requires i < |xs| && f(xs[i]).Ok?
    requires forall j :: 0 <= j < i ==> f(xs[j]).Ok?
    requires Traverse(xs[..i], f).Ok?
    ensures Traverse(xs[..i + 1], f) == Ok(Traverse(xs[..i], f).value + [f(xs[i]).value])
  {
    var before := Traverse(xs[..i], f).value;
    var after := Traverse(xs[..i + 1], f);
    assert forall j :: 0 <= j <= i ==> xs[..i + 1][j] == xs[j];
    assert after.Ok?;
    assert after.value == before + [f(xs[i]).value];
  }
}
