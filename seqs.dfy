/** Order and uniqueness facts about lists built by walking a fixed table. */
module Seqs {

  /** `r` is `t` with some elements left out, the rest in their order. */
  predicate Subsequence<T(==)>(r: seq<T>, t: seq<T>)
    decreases |t|
  {
    if r == [] then true
    else if t == [] then false
    else (r[0] == t[0] && Subsequence(r[1..], t[1..])) || Subsequence(r, t[1..])
  }

  predicate Distinct<T(==)>(s: seq<T>)
  {
    forall i, j :: 0 <= i < j < |s| ==> s[i] != s[j]
  }

  lemma {:induction false} SubsequenceEmpty<T>(t: seq<T>)
    ensures Subsequence([], t)
  {
  }

  /** Walking the table one entry further, the entry either joins the list or is skipped. */
  lemma {:induction false} SubsequenceExtend<T>(r: seq<T>, t: seq<T>, x: T)
    requires Subsequence(r, t)
    ensures Subsequence(r + [x], t + [x])
    ensures Subsequence(r, t + [x])
    decreases |t|
  {
    if r == [] {
      assert r + [x] == [x];
      SubsequenceSkipAll(t, x);
    } else {
      assert t != [];
      assert (t + [x])[1..] == t[1..] + [x];
      assert (r + [x])[1..] == r[1..] + [x];
      if r[0] == t[0] && Subsequence(r[1..], t[1..]) {
        SubsequenceExtend(r[1..], t[1..], x);
      } else {
        SubsequenceExtend(r, t[1..], x);
      }
    }
  }

  lemma {:induction false} SubsequenceSkipAll<T>(t: seq<T>, x: T)
    ensures Subsequence([x], t + [x])
    decreases |t|
  {
    if t != [] {
      assert (t + [x])[1..] == t[1..] + [x];
      SubsequenceSkipAll(t[1..], x);
    } else {
      assert [x][1..] == [];
    }
  }

  lemma {:induction false} SubsequenceLength<T>(r: seq<T>, t: seq<T>)
    requires Subsequence(r, t)
    ensures |r| <= |t|
    decreases |t|
  {
    if r != [] {
      if r[0] == t[0] && Subsequence(r[1..], t[1..]) {
        SubsequenceLength(r[1..], t[1..]);
      } else {
        SubsequenceLength(r, t[1..]);
      }
    }
  }

  lemma {:induction false} SubsequenceMembers<T>(r: seq<T>, t: seq<T>)
    requires Subsequence(r, t)
    ensures forall x :: x in r ==> x in t
    decreases |t|
  {
    if r != [] {
      if r[0] == t[0] && Subsequence(r[1..], t[1..]) {
        SubsequenceMembers(r[1..], t[1..]);
        assert forall x :: x in r ==> x == r[0] || x in r[1..];
      } else {
        SubsequenceMembers(r, t[1..]);
      }
    }
  }

  /** Picking entries of a table without repeats gives a list without repeats. */
  lemma {:induction false} SubsequenceDistinct<T>(r: seq<T>, t: seq<T>)
    requires Subsequence(r, t) && Distinct(t)
    ensures Distinct(r)
    decreases |t|
  {
    if r != [] {
      if r[0] == t[0] && Subsequence(r[1..], t[1..]) {
        SubsequenceDistinct(r[1..], t[1..]);
        SubsequenceMembers(r[1..], t[1..]);
        assert r[0] !in t[1..];
        forall i, j | 0 <= i < j < |r|
          ensures r[i] != r[j]
        {
          if i == 0 {
            assert r[j] == r[1..][j - 1];
          } else {
            assert r[i] == r[1..][i - 1] && r[j] == r[1..][j - 1];
          }
        }
      } else {
        SubsequenceDistinct(r, t[1..]);
      }
    }
  }

  /** With a table without repeats, which entries were picked decides the list. */
  lemma {:induction false} SubsequenceUnique<T>(a: seq<T>, b: seq<T>, t: seq<T>)
    requires Subsequence(a, t) && Subsequence(b, t) && Distinct(t)
    requires forall x :: x in a <==> x in b
    ensures a == b
    decreases |t|
  {
    if a != [] && b != [] {
      var t' := t[1..];
      assert Distinct(t');
      if t[0] in a {
        FirstOrLater(a, t);
        FirstOrLater(b, t);
        TailPicked(a, t);
        TailPicked(b, t);
        var a', b' := a[1..], b[1..];
        SubsequenceMembers(a', t');
        SubsequenceMembers(b', t');
        NotInTail(t);
        assert a == [t[0]] + a' && b == [t[0]] + b';
        forall x
          ensures x in a' <==> x in b'
        {
          assert x in a <==> x == t[0] || x in a';
          assert x in b <==> x == t[0] || x in b';
        }
        SubsequenceUnique(a', b', t');
      } else {
        SubsequenceUnique(a, b, t');
      }
    } else {
      if a != [] {
        HeadIsMember(a);
      }
      if b != [] {
        HeadIsMember(b);
      }
    }
  }

  lemma {:induction false} HeadIsMember<T>(s: seq<T>)
    requires s != []
    ensures s[0] in s
  {
  }

  lemma {:induction false} NotInTail<T>(t: seq<T>)
    requires Distinct(t) && t != []
    ensures t[0] !in t[1..]
  {
    forall j | 0 <= j < |t[1..]|
      ensures t[1..][j] != t[0]
    {
      assert t[1..][j] == t[j + 1];
    }
  }

  lemma {:induction false} FirstOrLater<T>(r: seq<T>, t: seq<T>)
    requires Subsequence(r, t) && Distinct(t) && r != [] && t[0] in r
    ensures r[0] == t[0]
  {
    if r[0] != t[0] {
      SubsequenceMembers(r, t[1..]);
      NotInTail(t);
    }
  }

  lemma {:induction false} TailPicked<T>(r: seq<T>, t: seq<T>)
    requires Subsequence(r, t) && Distinct(t) && r != [] && r[0] == t[0]
    ensures Subsequence(r[1..], t[1..])
  {
    assert r[0] in r;
    if !Subsequence(r[1..], t[1..]) {
      SubsequenceMembers(r, t[1..]);
      NotInTail(t);
    }
  }

  // ---------------------------------------------------------------- flagged picks

  /** The entries of the table `t` whose flag is set, in table order: a run of `if c: out.append(x)`. */
  function Pick<T>(flags: seq<bool>, t: seq<T>): (r: seq<T>)
    requires |flags| == |t|
    ensures |r| <= |t|
    decreases |t|
  {
    if t == [] then []
    else Pick(flags[..|t| - 1], t[..|t| - 1]) + (if flags[|t| - 1] then [t[|t| - 1]] else [])
  }

  /** One more `if` of the run appends the next table entry when its flag is set. */
  lemma {:induction false} PickStep<T>(flags: seq<bool>, t: seq<T>, k: nat)
    requires |flags| == |t| && k < |t|
    ensures Pick(flags[..k + 1], t[..k + 1]) == Pick(flags[..k], t[..k]) + (if flags[k] then [t[k]] else [])
  {
    assert flags[..k + 1][..k] == flags[..k];
    assert t[..k + 1][..k] == t[..k];
  }

  lemma {:induction false} PickWhole<T>(flags: seq<bool>, t: seq<T>)
    requires |flags| == |t|
    ensures Pick(flags[..|t|], t[..|t|]) == Pick(flags, t)
  {
    assert flags[..|t|] == flags && t[..|t|] == t;
  }

  lemma {:induction false} PickNone<T>(flags: seq<bool>, t: seq<T>)
    requires |flags| == |t|
    ensures Pick(flags[..0], t[..0]) == []
  {
    assert t[..0] == [];
  }

  /** A run of ten `if`s spelled out. */
  lemma {:induction false} PickTen<T>(f: seq<bool>, t: seq<T>)
    requires |f| == 10 && |t| == 10
    ensures Pick(f, t) == [] + (if f[0] then [t[0]] else []) + (if f[1] then [t[1]] else [])
      + (if f[2] then [t[2]] else []) + (if f[3] then [t[3]] else []) + (if f[4] then [t[4]] else [])
      + (if f[5] then [t[5]] else []) + (if f[6] then [t[6]] else []) + (if f[7] then [t[7]] else [])
      + (if f[8] then [t[8]] else []) + (if f[9] then [t[9]] else [])
  {
    PickNone(f, t);
    PickStep(f, t, 0);
    PickStep(f, t, 1);
    PickStep(f, t, 2);
    PickStep(f, t, 3);
    PickStep(f, t, 4);
    PickStep(f, t, 5);
    PickStep(f, t, 6);
    PickStep(f, t, 7);
    PickStep(f, t, 8);
    PickStep(f, t, 9);
    PickWhole(f, t);
  }

  lemma {:induction false} PickSubsequence<T>(flags: seq<bool>, t: seq<T>)
    requires |flags| == |t|
    ensures Subsequence(Pick(flags, t), t)
    decreases |t|
  {
    if t == [] {
      SubsequenceEmpty(t);
    } else {
      var n := |t| - 1;
      var prev := Pick(flags[..n], t[..n]);
      PickSubsequence(flags[..n], t[..n]);
      SubsequenceExtend(prev, t[..n], t[n]);
      assert t[..n] + [t[n]] == t;
      assert Pick(flags, t) == prev + (if flags[n] then [t[n]] else []);
      if flags[n] {
        assert Subsequence(prev + [t[n]], t);
      } else {
        assert prev + [] == prev;
      }
    }
  }

  /** In a table without repeats, an entry is picked exactly when its flag is set. */
  lemma {:induction false} PickMember<T>(flags: seq<bool>, t: seq<T>, i: nat)
    requires |flags| == |t| && Distinct(t) && i < |t|
    ensures t[i] in Pick(flags, t) <==> flags[i]
    decreases |t|
  {
    var n := |t| - 1;
    var prev := Pick(flags[..n], t[..n]);
    assert Distinct(t[..n]);
    PickSubsequence(flags[..n], t[..n]);
    SubsequenceMembers(prev, t[..n]);
    if i == n {
      assert t[n] !in t[..n];
    } else {
      PickMember(flags[..n], t[..n], i);
      assert t[..n][i] == t[i];
      assert t[i] != t[n];
    }
  }

  /** Fewer flags set pick a sub-list of what more flags pick. */
  lemma {:induction false} PickMonotone<T>(f: seq<bool>, g: seq<bool>, t: seq<T>)
    requires |f| == |t| && |g| == |t|
    requires forall i :: 0 <= i < |t| && g[i] ==> f[i]
    ensures Subsequence(Pick(g, t), Pick(f, t))
    decreases |t|
  {
    if t == [] {
      SubsequenceEmpty<T>([]);
    } else {
      var n := |t| - 1;
      var pg, pf := Pick(g[..n], t[..n]), Pick(f[..n], t[..n]);
      PickMonotone(f[..n], g[..n], t[..n]);
      SubsequenceExtend(pg, pf, t[n]);
      assert Pick(g, t) == pg + (if g[n] then [t[n]] else []);
      assert Pick(f, t) == pf + (if f[n] then [t[n]] else []);
      if g[n] {
        assert Subsequence(pg + [t[n]], pf + [t[n]]);
      } else if f[n] {
        assert pg + [] == pg;
        assert Subsequence(pg, pf + [t[n]]);
      } else {
        assert pg + [] == pg && pf + [] == pf;
      }
    }
  }

  /** A run of four `if`s spelled out. */
  lemma {:induction false} PickFour<T>(f: seq<bool>, t: seq<T>)
    requires |f| == 4 && |t| == 4
    ensures Pick(f, t) == [] + (if f[0] then [t[0]] else []) + (if f[1] then [t[1]] else [])
      + (if f[2] then [t[2]] else []) + (if f[3] then [t[3]] else [])
  {
    PickNone(f, t);
    PickStep(f, t, 0);
    PickStep(f, t, 1);
    PickStep(f, t, 2);
    PickStep(f, t, 3);
    PickWhole(f, t);
  }

  /** A run of six `if`s spelled out. */
  lemma {:induction false} PickSix<T>(f: seq<bool>, t: seq<T>)
    requires |f| == 6 && |t| == 6
    ensures Pick(f, t) == [] + (if f[0] then [t[0]] else []) + (if f[1] then [t[1]] else [])
      + (if f[2] then [t[2]] else []) + (if f[3] then [t[3]] else []) + (if f[4] then [t[4]] else [])
      + (if f[5] then [t[5]] else [])
  {
    PickNone(f, t);
    PickStep(f, t, 0);
    PickStep(f, t, 1);
    PickStep(f, t, 2);
    PickStep(f, t, 3);
    PickStep(f, t, 4);
    PickStep(f, t, 5);
    PickWhole(f, t);
  }

  /** Nothing is picked exactly when no flag is set. */
  lemma {:induction false} PickEmpty<T>(flags: seq<bool>, t: seq<T>)
    requires |flags| == |t|
    ensures Pick(flags, t) == [] <==> forall i :: 0 <= i < |t| ==> !flags[i]
    decreases |t|
  {
    if t != [] {
      var n := |t| - 1;
      PickEmpty(flags[..n], t[..n]);
      assert Pick(flags, t) == Pick(flags[..n], t[..n]) + (if flags[n] then [t[n]] else []);
      assert forall i :: 0 <= i < n ==> flags[..n][i] == flags[i];
    }
  }
}
