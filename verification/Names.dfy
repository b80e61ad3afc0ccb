/** Lists of names without repetition. */
module Names {
  ghost predicate NoRepeats<T>(xs: seq<T>) {
    forall i, j :: 0 <= i < j < |xs| ==> xs[i] != xs[j]
  }

  lemma RepeatCounts<T>(xs: seq<T>, i: nat, j: nat)
    requires i < j < |xs| && xs[i] == xs[j]
    ensures multiset(xs)[xs[i]] >= 2
  {
    assert xs == xs[..i] + [xs[i]] + xs[i + 1..j] + [xs[j]] + xs[j + 1..];
  }

  lemma {:induction false} CountOnce<T>(xs: seq<T>, x: T)
    requires NoRepeats(xs)
    ensures multiset(xs)[x] <= 1
    decreases |xs|
  {
    if xs != [] {
      CountOnce(xs[1..], x);
      assert xs == [xs[0]] + xs[1..];
      assert xs[0] !in xs[1..];
    }
  }

  lemma NoRepeatsIff<T>(xs: seq<T>)
    ensures NoRepeats(xs) <==> forall x :: x in xs ==> multiset(xs)[x] <= 1
  {
    if NoRepeats(xs) {
      forall x | x in xs ensures multiset(xs)[x] <= 1 { CountOnce(xs, x); }
    } else {
      var i, j :| 0 <= i < j < |xs| && xs[i] == xs[j];
      RepeatCounts(xs, i, j);
      assert xs[i] in xs;
    }
  }

  /** Fewer of the same names do not repeat either. */
  lemma FewerNamesNoRepeats<T>(xs: seq<T>, names: seq<T>)
    requires NoRepeats(names) && multiset(xs) <= multiset(names)
    ensures NoRepeats(xs)
  {
    NoRepeatsIff(xs);
    forall x | x in xs ensures multiset(xs)[x] <= 1 { CountOnce(names, x); }
  }
}
