/** Array filtering as the frame loop uses it to retire entities: the entries
    a predicate keeps, in order, and the entries it drops, in order. */
module Pruning {

  /** The entries of s that keep accepts, in their original order. */
  function Kept<T>(s: seq<T>, keep: T -> bool): (r: seq<T>)
    ensures |r| <= |s|
    ensures forall i :: 0 <= i < |r| ==> keep(r[i]) && r[i] in s
  {
    if s == [] then []
    else Kept(s[..|s| - 1], keep) + (if keep(s[|s| - 1]) then [s[|s| - 1]] else [])
  }

  /** The entries of s that keep rejects, in their original order. */
  function Dropped<T>(s: seq<T>, keep: T -> bool): (r: seq<T>)
    ensures |r| <= |s|
    ensures forall i :: 0 <= i < |r| ==> !keep(r[i]) && r[i] in s
  {
    if s == [] then []
    else Dropped(s[..|s| - 1], keep) + (if keep(s[|s| - 1]) then [] else [s[|s| - 1]])
  }

  /** f applied to every entry of s. */
  function Map<T, U>(s: seq<T>, f: T -> U): (r: seq<U>)
    ensures |r| == |s|
    ensures forall i :: 0 <= i < |s| ==> r[i] == f(s[i])
  {
    seq(|s|, i requires 0 <= i < |s| => f(s[i]))
  }

  /** Filtering one more entry: it joins the survivors or the dropped entries,
      at the end. */
  lemma KeptSnoc<T>(s: seq<T>, x: T, keep: T -> bool)
    ensures Kept(s + [x], keep) == Kept(s, keep) + (if keep(x) then [x] else [])
    ensures Dropped(s + [x], keep) == Dropped(s, keep) + (if keep(x) then [] else [x])
  {
    assert (s + [x])[..|s + [x]| - 1] == s;
  }

  /** One pass of a filter loop over s at position i, with el the handle the
      loop records for a dropped entry. */
  lemma FilterStep<T>(s: seq<T>, i: nat, keep: T -> bool, el: T -> nat)
    requires i < |s|
    ensures keep(s[i]) ==>
      && Kept(s[..i + 1], keep) == Kept(s[..i], keep) + [s[i]]
      && Map(Dropped(s[..i + 1], keep), el) == Map(Dropped(s[..i], keep), el)
    ensures !keep(s[i]) ==>
      && Kept(s[..i + 1], keep) == Kept(s[..i], keep)
      && Map(Dropped(s[..i + 1], keep), el) == Map(Dropped(s[..i], keep), el) + [el(s[i])]
  {
    assert s[..i + 1] == s[..i] + [s[i]];
    KeptSnoc(s[..i], s[i], keep);
    MapConcat(Dropped(s[..i], keep), [s[i]], el);
  }

  /** An entry survives exactly when it was present and kept; an entry is
      dropped exactly when it was present and rejected. */
  lemma {:induction false} KeptMember<T>(s: seq<T>, keep: T -> bool, x: T)
    ensures x in Kept(s, keep) <==> x in s && keep(x)
    ensures x in Dropped(s, keep) <==> x in s && !keep(x)
  {
    if s != [] {
      var init := s[..|s| - 1];
      KeptMember(init, keep, x);
      assert s == init + [s[|s| - 1]];
    }
  }

  /** Filtering a concatenation filters each part and keeps the parts in
      order: the survivors keep their relative order. */
  lemma {:induction false} KeptConcat<T>(a: seq<T>, b: seq<T>, keep: T -> bool)
    ensures Kept(a + b, keep) == Kept(a, keep) + Kept(b, keep)
    ensures Dropped(a + b, keep) == Dropped(a, keep) + Dropped(b, keep)
  {
    if b == [] {
      assert a + b == a;
    } else {
      var init := b[..|b| - 1];
      var x := b[|b| - 1];
      assert b == init + [x];
      assert a + b == (a + init) + [x];
      KeptConcat(a, init, keep);
      KeptSnoc(a + init, x, keep);
      KeptSnoc(init, x, keep);
      var ka, ki, da, di := Kept(a, keep), Kept(init, keep), Dropped(a, keep), Dropped(init, keep);
      if keep(x) {
        assert Kept(a + b, keep) == (ka + ki) + [x] && Kept(b, keep) == ki + [x];
        assert (ka + ki) + [x] == ka + (ki + [x]);
        assert Dropped(a + b, keep) == da + di && Dropped(b, keep) == di;
      } else {
        assert Dropped(a + b, keep) == (da + di) + [x] && Dropped(b, keep) == di + [x];
        assert (da + di) + [x] == da + (di + [x]);
        assert Kept(a + b, keep) == ka + ki && Kept(b, keep) == ki;
      }
    }
  }

  /** Every entry either survives or is dropped, exactly once: the kept and
      dropped parts together are the original entries seen through f (the
      identity, or an entry's element handle). */
  lemma {:induction false} KeptPartition<T, U>(s: seq<T>, keep: T -> bool, f: T -> U)
    ensures |Kept(s, keep)| + |Dropped(s, keep)| == |s|
    ensures multiset(Map(Kept(s, keep), f)) + multiset(Map(Dropped(s, keep), f)) == multiset(Map(s, f))
  {
    KeptLength(s, keep);
    KeptMultiset(s, keep, f);
  }

  /** The kept and dropped parts together are as long as the whole. */
  lemma {:induction false} KeptLength<T>(s: seq<T>, keep: T -> bool)
    ensures |Kept(s, keep)| + |Dropped(s, keep)| == |s|
  {
    if s != [] {
      var init := s[..|s| - 1];
      assert s == init + [s[|s| - 1]];
      KeptLength(init, keep);
      KeptSnoc(init, s[|s| - 1], keep);
    }
  }

  /** The kept and dropped parts together hold the entries of the whole. */
  lemma {:induction false} KeptMultiset<T, U>(s: seq<T>, keep: T -> bool, f: T -> U)
    ensures multiset(Map(Kept(s, keep), f)) + multiset(Map(Dropped(s, keep), f)) == multiset(Map(s, f))
  {
    if s != [] {
      var init := s[..|s| - 1];
      var x := s[|s| - 1];
      assert s == init + [x];
      KeptMultiset(init, keep, f);
      KeptSnoc(init, x, keep);
      MapSnoc(init, x, f);
      var k, d := Kept(init, keep), Dropped(init, keep);
      if keep(x) {
        assert Kept(s, keep) == k + [x] && Dropped(s, keep) == d;
        MapSnoc(k, x, f);
        assert Map(Kept(s, keep), f) == Map(k, f) + [f(x)];
        SplitSnoc(Map(k, f), Map(d, f), Map(init, f), f(x));
      } else {
        assert Kept(s, keep) == k && Dropped(s, keep) == d + [x];
        MapSnoc(d, x, f);
        assert Map(Dropped(s, keep), f) == Map(d, f) + [f(x)];
        SplitSnoc(Map(d, f), Map(k, f), Map(init, f), f(x));
      }
    }
  }

  /** Extending one half of a split and the whole by the same entry keeps
      the split. */
  lemma SplitSnoc<U>(a: seq<U>, b: seq<U>, whole: seq<U>, y: U)
    requires multiset(a) + multiset(b) == multiset(whole)
    ensures multiset(a + [y]) + multiset(b) == multiset(whole + [y])
    ensures multiset(b) + multiset(a + [y]) == multiset(whole + [y])
  {
  }

  /** When every entry is kept, filtering changes nothing. */
  lemma {:induction false} KeptAll<T>(s: seq<T>, keep: T -> bool)
    requires forall i :: 0 <= i < |s| ==> keep(s[i])
    ensures Kept(s, keep) == s && Dropped(s, keep) == []
  {
    if s != [] {
      var init := s[..|s| - 1];
      KeptAll(init, keep);
      assert s == init + [s[|s| - 1]];
    }
  }

  /** Mapping distributes over concatenation. */
  lemma MapConcat<T, U>(a: seq<T>, b: seq<T>, f: T -> U)
    ensures Map(a + b, f) == Map(a, f) + Map(b, f)
  {
  }

  /** Mapping one more entry appends its image. */
  lemma MapSnoc<T, U>(s: seq<T>, x: T, f: T -> U)
    ensures Map(s + [x], f) == Map(s, f) + [f(x)]
  {
  }

  /** The keys of s go strictly up from front to back. */
  ghost predicate Increasing<T>(s: seq<T>, key: T -> nat) {
    forall i, j :: 0 <= i < j < |s| ==> key(s[i]) < key(s[j])
  }

  /** Filtering keeps a strictly increasing order of keys. */
  lemma {:induction false} KeptIncreasing<T>(s: seq<T>, keep: T -> bool, key: T -> nat)
    requires Increasing(s, key)
    ensures Increasing(Kept(s, keep), key)
  {
    if s != [] {
      var init := s[..|s| - 1];
      var x := s[|s| - 1];
      assert Increasing(init, key);
      KeptIncreasing(init, keep, key);
      forall y | y in Kept(init, keep) ensures key(y) < key(x) {
        KeptMember(init, keep, y);
        var j :| 0 <= j < |init| && init[j] == y;
        assert s[j] == y;
      }
    }
  }
}
