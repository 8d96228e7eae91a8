/** The abstract behaviour of the bounded sample buffer: a buffer of capacity
    `k` always holds the newest `k` (or fewer) of the values given to it, in
    the order they arrived. */
module Window {

  /** `r` is a (possibly empty) suffix of `s`. */
  ghost predicate IsSuffix<T>(r: seq<T>, s: seq<T>)
  {
    |r| <= |s| && r == s[|s| - |r|..]
  }

  /** The newest `k` elements of `s`, or all of `s` when it is shorter. */
  function Newest<T>(s: seq<T>, k: nat): (r: seq<T>)
    ensures |r| == (if |s| <= k then |s| else k)
    ensures IsSuffix(r, s)
  {
    if |s| <= k then s else s[|s| - k..]
  }

  lemma SuffixTransitive<T>(a: seq<T>, b: seq<T>, c: seq<T>)
    requires IsSuffix(a, b) && IsSuffix(b, c)
    ensures IsSuffix(a, c)
  {
    assert c[|c| - |b|..][|b| - |a|..] == c[|c| - |a|..];
  }

  /** Appending the same values to a suffix of `p` and to `p`, then keeping the
      newest `k`, still gives a suffix: the buffer stays a suffix of everything
      that was ever pushed. */
  lemma NewestKeepsSuffix<T>(c: seq<T>, p: seq<T>, t: seq<T>, k: nat)
    requires IsSuffix(c, p)
    ensures IsSuffix(Newest(c + t, k), p + t)
  {
    assert (p + t)[|p + t| - |c + t|..] == c + t;
    SuffixTransitive(Newest(c + t, k), c + t, p + t);
  }

  /** Trimming to the newest `k` before appending more changes nothing in the
      end. */
  lemma NewestOfNewest<T>(s: seq<T>, t: seq<T>, k: nat)
    ensures Newest(Newest(s, k) + t, k) == Newest(s + t, k)
  {
    if |s| > k {
      var n := Newest(s, k);
      assert |n + t| == k + |t|;
      if |n + t| > k {
        assert (n + t)[|t|..] == (s + t)[|s| + |t| - k..];
      }
    }
  }

  /** Shrinking to `k2` after keeping the newest `k1 >= k2` is keeping the
      newest `k2`. */
  lemma NewestShrink<T>(s: seq<T>, k1: nat, k2: nat)
    requires k2 <= k1
    ensures Newest(Newest(s, k1), k2) == Newest(s, k2)
  {
    var n := Newest(s, k1);
    if |n| > k2 {
      assert n[|n| - k2..] == s[|s| - k2..];
    }
  }

  /** A single push onto a buffer that has room appends; onto a full buffer it
      drops the oldest element and appends. */
  lemma PushCases<T>(s: seq<T>, v: T, k: nat)
    requires |s| <= k
    ensures |s| < k ==> Newest(s + [v], k) == s + [v]
    ensures |s| == k && k > 0 ==> Newest(s + [v], k) == s[1..] + [v]
  {
    if |s| == k && k > 0 {
      assert (s + [v])[1..] == s[1..] + [v];
    }
  }

  /** The batch append of the source, step by step: keep at most the newest
      `k` of the incoming values `v`, evict as many of the oldest stored
      elements of `c` as needed, then append. The result is the newest `k` of
      `c + v`. */
  lemma NewestSplit<T>(c: seq<T>, v: seq<T>, k: nat)
    requires |c| <= k
    ensures var first := if |v| > k then |v| - k else 0;
      var w := v[first..];
      var evict := if |c| + |w| > k then |c| + |w| - k else 0;
      evict <= |c| && c[evict..] + w == Newest(c + v, k)
  {
    var first := if |v| > k then |v| - k else 0;
    var w := v[first..];
    if |v| > k {
      assert (c + v)[|c| + |v| - k..] == w;
      assert c[|c|..] == [];
    } else if |c| + |v| > k {
      var evict := |c| + |v| - k;
      assert (c + v)[evict..] == c[evict..] + v;
    } else {
      assert c[0..] == c;
    }
  }

  /** Keeping only the newest `k` of the incoming values before appending
      them changes nothing in the end. */
  lemma NewestOfIncoming<T>(c: seq<T>, v: seq<T>, k: nat)
    ensures Newest(c + Newest(v, k), k) == Newest(c + v, k)
  {
    if |v| > k {
      var w := Newest(v, k);
      assert (c + w)[|c|..] == w;
      assert (c + v)[|c| + |v| - k..] == w;
    }
  }

  /** Pushing the values of `vs` one at a time into a buffer of capacity `k`. */
  function PushEach<T>(s: seq<T>, vs: seq<T>, k: nat): seq<T>
    decreases |vs|
  {
    if |vs| == 0 then s else PushEach(Newest(s + [vs[0]], k), vs[1..], k)
  }

  /** Pushing values one at a time ends in the same buffer as appending them
      as one batch. */
  lemma {:induction false} PushEachIsBatch<T>(s: seq<T>, vs: seq<T>, k: nat)
    requires |s| <= k
    ensures PushEach(s, vs, k) == Newest(s + vs, k)
    decreases |vs|
  {
    if |vs| == 0 {
      assert s + vs == s;
      NewestFits(s, k);
    } else {
      PushEachIsBatch(Newest(s + [vs[0]], k), vs[1..], k);
      NewestOfNewest(s + [vs[0]], vs[1..], k);
      assert s + [vs[0]] + vs[1..] == s + vs;
    }
  }

  lemma NewestFits<T>(s: seq<T>, k: nat)
    ensures |s| <= k ==> Newest(s, k) == s
  {
  }

  /** After at least `k` pushes, the buffer holds exactly the last `k` values
      pushed, whatever it held before: every earlier value has been evicted. */
  lemma OldValuesEvicted<T>(s: seq<T>, vs: seq<T>, k: nat)
    requires |s| <= k <= |vs|
    ensures PushEach(s, vs, k) == vs[|vs| - k..]
  {
    PushEachIsBatch(s, vs, k);
    var all := s + vs;
    calc {
      Newest(all, k);
      { if |all| == k { assert all[0..] == all; } }
      all[|all| - k..];
      { assert |all| - k >= |s|; }
      vs[|vs| - k..];
    }
  }
}
