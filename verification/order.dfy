/** Byte-wise lexicographic order of strings, as `str::cmp` gives it. */
module Order {
  predicate Less(a: string, b: string) {
    if b == [] then false
    else if a == [] then true
    else a[0] < b[0] || (a[0] == b[0] && Less(a[1..], b[1..]))
  }

  /** `a` is a proper beginning of `b`, or is smaller at the first place where they differ. */
  ghost predicate Precedes(a: string, b: string) {
    || (|a| < |b| && b[..|a|] == a)
    || exists k :: 0 <= k < |a| && k < |b| && a[..k] == b[..k] && a[k] < b[k]
  }

  /** Equal beginnings, one character further on. */
  lemma SameStart(a: string, b: string, k: nat)
    requires 0 < k <= |a| && k <= |b|
    ensures a[..k] == b[..k] <==> a[0] == b[0] && a[1..][..k - 1] == b[1..][..k - 1]
  {
    assert a[..k] == [a[0]] + a[1..][..k - 1];
    assert b[..k] == [b[0]] + b[1..][..k - 1];
  }

  lemma TailPrecedes(a: string, b: string)
    requires a != [] && b != [] && a[0] == b[0]
    ensures Precedes(a, b) <==> Precedes(a[1..], b[1..])
  {
    var x, y := a[1..], b[1..];
    if |a| < |b| {
      SameStart(a, b, |a|);
      assert a[..|a|] == a && x[..|x|] == x;
    }
    if Precedes(x, y) && !(|x| < |y| && y[..|x|] == x) {
      var k :| 0 <= k < |x| && k < |y| && x[..k] == y[..k] && x[k] < y[k];
      SameStart(a, b, k + 1);
      assert a[k + 1] < b[k + 1];
    }
    if Precedes(a, b) && !(|a| < |b| && b[..|a|] == a) {
      var k :| 0 <= k < |a| && k < |b| && a[..k] == b[..k] && a[k] < b[k];
      SameStart(a, b, k);
      assert x[k - 1] < y[k - 1];
    }
  }

  lemma {:induction false} LessExactly(a: string, b: string)
    ensures Less(a, b) <==> Precedes(a, b)
  {
    if a == [] {
      assert b[..0] == a;
    } else if b != [] && a[0] == b[0] {
      LessExactly(a[1..], b[1..]);
      TailPrecedes(a, b);
    } else if b != [] {
      assert a[..0] == b[..0];
    }
  }

  lemma {:induction false} Irreflexive(a: string)
    ensures !Less(a, a)
  {
    if a != [] {
      Irreflexive(a[1..]);
    }
  }

  lemma {:induction false} Transitive(a: string, b: string, c: string)
    requires Less(a, b) && Less(b, c)
    ensures Less(a, c)
  {
    if a != [] && a[0] == b[0] && b[0] == c[0] {
      Transitive(a[1..], b[1..], c[1..]);
    }
  }

  lemma {:induction false} Total(a: string, b: string)
    ensures a == b || Less(a, b) || Less(b, a)
  {
    if a != [] && b != [] && a[0] == b[0] {
      Total(a[1..], b[1..]);
      assert a == [a[0]] + a[1..] && b == [b[0]] + b[1..];
    }
  }

  lemma Asymmetric(a: string, b: string)
    requires Less(a, b)
    ensures !Less(b, a) && a != b
  {
    Irreflexive(a);
    if Less(b, a) {
      Transitive(a, b, a);
    }
  }

  lemma PrecedesTotal(a: string, b: string)
    ensures a == b || Precedes(a, b) || Precedes(b, a)
    ensures Precedes(a, b) ==> a != b && !Precedes(b, a)
  {
    hide Less, Precedes;
    LessExactly(a, b);
    LessExactly(b, a);
    Total(a, b);
    if Less(a, b) { Asymmetric(a, b); }
  }

  lemma PrecedesTransitive(a: string, b: string, c: string)
    requires Precedes(a, b) && Precedes(b, c)
    ensures Precedes(a, c)
  {
    hide Less, Precedes;
    LessExactly(a, b);
    LessExactly(b, c);
    LessExactly(a, c);
    Transitive(a, b, c);
  }
}

/** Reorderings of a sequence, and what occurs before a position. */
module Permutations {
  function Without<T>(s: seq<T>, k: nat): seq<T>
    requires k < |s|
  {
    s[..k] + s[k + 1..]
  }

  lemma Cancel<T>(x: multiset<T>, y: multiset<T>, e: T)
    requires x + multiset{e} == y + multiset{e}
    ensures x == y
  {
    assert x == (x + multiset{e}) - multiset{e};
    assert y == (y + multiset{e}) - multiset{e};
  }

  /** The last element of a sequence can be found in any reordering, and the rests are reorderings too. */
  lemma MatchLast<T>(a: seq<T>, b: seq<T>) returns (k: nat)
    requires a != [] && multiset(a) == multiset(b)
    ensures k < |b| && b[k] == a[|a| - 1]
    ensures multiset(a[..|a| - 1]) == multiset(Without(b, k))
  {
    var n := |a| - 1;
    assert a == a[..n] + [a[n]];
    assert a[n] in multiset(b);
    k :| 0 <= k < |b| && b[k] == a[n];
    assert b == b[..k] + ([b[k]] + b[k + 1..]);
    Cancel(multiset(a[..n]), multiset(Without(b, k)), a[n]);
  }

  /** The element occurs before position n. */
  ghost predicate Listed<T>(s: seq<T>, n: nat, x: T) {
    exists i :: 0 <= i < n && i < |s| && s[i] == x
  }

  lemma ListedNext<T>(s: seq<T>, n: nat)
    requires n < |s|
    ensures forall x :: Listed(s, n + 1, x) <==> Listed(s, n, x) || x == s[n]
  {
    assert Listed(s, n + 1, s[n]);
  }
}
