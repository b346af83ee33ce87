/**
 The stable partition of the parser's specification list into positional
 arguments and options, which both renderers perform before they write
 anything.
 */
module Classifier {
  import opened Specs

  /** The positionals of `s`, in the order of `s`. */
  function Positionals(s: seq<Spec>): seq<Spec>
  {
    if s == [] then []
    else Positionals(s[..|s| - 1]) + (if s[|s| - 1].positional then [s[|s| - 1]] else [])
  }

  /** The options (every spec that is not positional) of `s`, in the order of `s`. */
  function Options(s: seq<Spec>): seq<Spec>
  {
    if s == [] then []
    else Options(s[..|s| - 1]) + (if s[|s| - 1].positional then [] else [s[|s| - 1]])
  }

  /** The partition loop: one pass over the specs, appending each to the
      positionals or to the options according to its `positional` field. */
  method Classify(specs: seq<Spec>) returns (positionals: seq<Spec>, options: seq<Spec>)
    ensures positionals == Positionals(specs)
    ensures options == Options(specs)
  {
    positionals, options := [], [];
    var i := 0;
    while i < |specs|
      invariant 0 <= i <= |specs|
      invariant positionals == Positionals(specs[..i])
      invariant options == Options(specs[..i])
    {
      assert specs[..i + 1][..i] == specs[..i];
      if specs[i].positional {
        positionals := positionals + [specs[i]];
      } else {
        options := options + [specs[i]];
      }
      i := i + 1;
    }
    assert specs[..i] == specs;
  }

  /** Each group holds exactly the specs of its kind: a spec is kept with its
      multiplicity in the group its `positional` field names, and in no other. */
  lemma {:induction false} PartitionCounts(s: seq<Spec>, x: Spec)
    ensures multiset(Positionals(s))[x] == (if x.positional then multiset(s)[x] else 0)
    ensures multiset(Options(s))[x] == (if x.positional then 0 else multiset(s)[x])
  {
    if s != [] {
      var init, last := s[..|s| - 1], s[|s| - 1];
      assert s == init + [last];
      PartitionCounts(init, x);
    }
  }

  /** Together the two groups are a permutation of the input. */
  lemma PartitionIsPermutation(s: seq<Spec>)
    ensures multiset(Positionals(s)) + multiset(Options(s)) == multiset(s)
    ensures |Positionals(s)| + |Options(s)| == |s|
  {
    forall x ensures (multiset(Positionals(s)) + multiset(Options(s)))[x] == multiset(s)[x] {
      PartitionCounts(s, x);
    }
    assert multiset(Positionals(s)) + multiset(Options(s)) == multiset(s);
    assert |multiset(Positionals(s)) + multiset(Options(s))| == |multiset(s)|;
  }

  /** A spec lands among the positionals exactly when it is in the input and
      is positional, and among the options exactly when it is in the input
      and is not positional. */
  lemma PartitionMembership(s: seq<Spec>, x: Spec)
    ensures x in Positionals(s) <==> x in s && x.positional
    ensures x in Options(s) <==> x in s && !x.positional
  {
  }

  /** Stability: partitioning a concatenation is concatenating the
      partitions, so every group keeps the input's relative order. */
  lemma {:induction false} PartitionOfConcat(a: seq<Spec>, b: seq<Spec>)
    ensures Positionals(a + b) == Positionals(a) + Positionals(b)
    ensures Options(a + b) == Options(a) + Options(b)
  {
    if b == [] {
      assert a + b == a;
    } else {
      var init, last := b[..|b| - 1], b[|b| - 1];
      assert (a + b)[..|a + b| - 1] == a + init;
      PartitionOfConcat(a, init);
    }
  }

  /** Spec `i` sits in its group right after the group of the specs before it. */
  lemma PlaceInGroup(s: seq<Spec>, i: nat)
    requires i < |s|
    ensures s[i].positional ==>
      |Positionals(s[..i])| < |Positionals(s)| && Positionals(s)[|Positionals(s[..i])|] == s[i]
    ensures !s[i].positional ==>
      |Options(s[..i])| < |Options(s)| && Options(s)[|Options(s[..i])|] == s[i]
  {
    assert s == s[..i] + ([s[i]] + s[i + 1..]);
    PartitionOfConcat(s[..i], [s[i]] + s[i + 1..]);
    PartitionOfConcat([s[i]], s[i + 1..]);
    assert [s[i]][..0] == [];
  }

  /** A longer prefix that takes in spec `i` has more of `i`'s kind. */
  lemma GroupPrefixGrows(s: seq<Spec>, i: nat, j: nat)
    requires i < j <= |s|
    ensures s[i].positional ==> |Positionals(s[..i])| < |Positionals(s[..j])|
    ensures !s[i].positional ==> |Options(s[..i])| < |Options(s[..j])|
  {
    assert s[..j] == s[..i + 1] + s[i + 1..j];
    PartitionOfConcat(s[..i + 1], s[i + 1..j]);
    assert s[..i + 1][..i] == s[..i];
  }

  /** Stability, stated on positions: if `i < j` are the places of two
      positionals (or of two options) of the input, the first comes first
      in its group. */
  lemma OrderPreserved(s: seq<Spec>, i: nat, j: nat)
    requires i < j < |s|
    ensures s[i].positional && s[j].positional ==>
      exists m, n :: 0 <= m < n < |Positionals(s)| && Positionals(s)[m] == s[i] && Positionals(s)[n] == s[j]
    ensures !s[i].positional && !s[j].positional ==>
      exists m, n :: 0 <= m < n < |Options(s)| && Options(s)[m] == s[i] && Options(s)[n] == s[j]
  {
    PlaceInGroup(s, i);
    PlaceInGroup(s, j);
    GroupPrefixGrows(s, i, j);
    if s[i].positional && s[j].positional {
      var m, n := |Positionals(s[..i])|, |Positionals(s[..j])|;
      assert 0 <= m < n < |Positionals(s)| && Positionals(s)[m] == s[i] && Positionals(s)[n] == s[j];
    }
    if !s[i].positional && !s[j].positional {
      var m, n := |Options(s[..i])|, |Options(s[..j])|;
      assert 0 <= m < n < |Options(s)| && Options(s)[m] == s[i] && Options(s)[n] == s[j];
    }
  }
}
