/** The four statistics above the directory: the number of partners, the
    number offering the SAAS service model, and the numbers of distinct
    platforms and distinct countries across all partners. */
module StatsCards {
  import opened Partners

  /** `partners.flatMap(f)`. */
  function FlatMap(ps: seq<Partner>, f: Partner -> seq<string>): (r: seq<string>)
  {
    if ps == [] then [] else f(ps[0]) + FlatMap(ps[1..], f)
  }

  /** A string occurs in the flattened list exactly when some partner's list holds it. */
  lemma {:induction false} FlatMapMembers(ps: seq<Partner>, f: Partner -> seq<string>, x: string)
    ensures x in FlatMap(ps, f) <==> exists i :: 0 <= i < |ps| && x in f(ps[i])
  {
    if ps != [] {
      FlatMapMembers(ps[1..], f, x);
      if x in FlatMap(ps[1..], f) {
        var i :| 0 <= i < |ps[1..]| && x in f(ps[1..][i]);
        assert x in f(ps[i + 1]);
      }
      if exists i :: 0 <= i < |ps| && x in f(ps[i]) {
        var i :| 0 <= i < |ps| && x in f(ps[i]);
        if i > 0 {
          assert ps[i] == ps[1..][i - 1];
        }
      }
    }
  }

  /** The strings of a list, as a `Set` holds them. */
  function Distinct(s: seq<string>): set<string>
  {
    set x | x in s
  }

  /** A set built from a list has at most as many members as the list has entries. */
  lemma {:induction false} DistinctBound(s: seq<string>)
    ensures |Distinct(s)| <= |s|
  {
    if s != [] {
      DistinctBound(s[1..]);
      assert Distinct(s) == {s[0]} + Distinct(s[1..]);
    }
  }

  function Platforms(p: Partner): seq<string> { p.facebookPlatforms }

  function Countries(p: Partner): seq<string> { p.countries }

  predicate IsSaas(p: Partner) { "SAAS" in p.serviceModels }

  /** The number of partners whose service models include `SAAS`. */
  function SaasCount(ps: seq<Partner>): (n: nat)
    ensures n <= |ps|
  {
    if ps == [] then 0 else (if IsSaas(ps[0]) then 1 else 0) + SaasCount(ps[1..])
  }

  /** The four statistics. */
  datatype Stats = Stats(totalPartners: nat, saasPartners: nat, uniquePlatforms: nat, uniqueCountries: nat)

  function StatsOf(ps: seq<Partner>): (st: Stats)
    ensures st.totalPartners == |ps|
    ensures st.saasPartners <= st.totalPartners
    ensures st.uniquePlatforms <= |FlatMap(ps, Platforms)|
    ensures st.uniqueCountries <= |FlatMap(ps, Countries)|
  {
    DistinctBound(FlatMap(ps, Platforms));
    DistinctBound(FlatMap(ps, Countries));
    Stats(|ps|, SaasCount(ps), |Distinct(FlatMap(ps, Platforms))|, |Distinct(FlatMap(ps, Countries))|)
  }

  /** With no partners every statistic is zero. */
  lemma EmptyStats()
    ensures StatsOf([]) == Stats(0, 0, 0, 0)
  {
    assert Distinct([]) == {};
  }

  /** The distinct platforms are exactly the strings some partner lists. */
  lemma UniquePlatformsSpec(ps: seq<Partner>, x: string)
    ensures x in Distinct(FlatMap(ps, Platforms)) <==> exists i :: 0 <= i < |ps| && x in ps[i].facebookPlatforms
  {
    FlatMapMembers(ps, Platforms, x);
  }

  /** Removing one partner lowers the SAAS count by its own contribution. */
  lemma {:induction false} SaasCountRemove(ps: seq<Partner>, j: nat)
    requires j < |ps|
    ensures SaasCount(ps) == (if IsSaas(ps[j]) then 1 else 0) + SaasCount(ps[..j] + ps[j + 1..])
  {
    if j > 0 {
      SaasCountRemove(ps[1..], j - 1);
      assert ps[1..][..j - 1] + ps[1..][j..] == (ps[..j] + ps[j + 1..])[1..];
    } else {
      assert ps[..j] + ps[j + 1..] == ps[1..];
    }
  }

  /** Deleting the entry at `j` removes one copy of it from the multiset. */
  lemma MultisetRemoveAt<T>(s: seq<T>, j: nat)
    requires j < |s|
    ensures multiset(s[..j] + s[j + 1..]) == multiset(s) - multiset{s[j]}
  {
    assert s == s[..j] + [s[j]] + s[j + 1..];
  }

  /** Matching the head of `ps` with an equal entry `qs[j]` leaves two lists
      that still hold the same partners. */
  lemma MatchedTails(ps: seq<Partner>, qs: seq<Partner>, j: nat)
    requires multiset(ps) == multiset(qs)
    requires ps != [] && j < |qs| && qs[j] == ps[0]
    ensures multiset(ps[1..]) == multiset(qs[..j] + qs[j + 1..])
  {
    MultisetRemoveAt(qs, j);
    assert ps == [ps[0]] + ps[1..];
    assert multiset(ps[1..]) == multiset(ps) - multiset{ps[0]};
  }

  /** The SAAS count depends only on which partners are listed, not on their order. */
  lemma {:induction false} SaasCountPermutation(ps: seq<Partner>, qs: seq<Partner>)
    requires multiset(ps) == multiset(qs)
    ensures SaasCount(ps) == SaasCount(qs)
    decreases |ps|
  {
    if ps == [] {
      assert |qs| == |multiset(qs)| == 0;
    } else {
      assert ps[0] in multiset(qs);
      var j :| 0 <= j < |qs| && qs[j] == ps[0];
      MatchedTails(ps, qs, j);
      SaasCountPermutation(ps[1..], qs[..j] + qs[j + 1..]);
      SaasCountRemove(qs, j);
    }
  }

  /** Two lists holding the same partners give the same distinct strings. */
  lemma DistinctPermutation(ps: seq<Partner>, qs: seq<Partner>, f: Partner -> seq<string>)
    requires multiset(ps) == multiset(qs)
    ensures Distinct(FlatMap(ps, f)) == Distinct(FlatMap(qs, f))
  {
    forall x | x in Distinct(FlatMap(ps, f)) ensures x in Distinct(FlatMap(qs, f)) {
      FlatMapMembers(ps, f, x);
      FlatMapMembers(qs, f, x);
      var i :| 0 <= i < |ps| && x in f(ps[i]);
      assert ps[i] in multiset(qs);
      var j :| 0 <= j < |qs| && qs[j] == ps[i];
    }
    forall x | x in Distinct(FlatMap(qs, f)) ensures x in Distinct(FlatMap(ps, f)) {
      FlatMapMembers(ps, f, x);
      FlatMapMembers(qs, f, x);
      var j :| 0 <= j < |qs| && x in f(qs[j]);
      assert qs[j] in multiset(ps);
      var i :| 0 <= i < |ps| && ps[i] == qs[j];
    }
  }

  /** The statistics do not depend on the order of the partners. */
  lemma StatsIgnoreOrder(ps: seq<Partner>, qs: seq<Partner>)
    requires multiset(ps) == multiset(qs)
    ensures StatsOf(ps) == StatsOf(qs)
  {
    assert |ps| == |multiset(ps)| == |multiset(qs)| == |qs|;
    SaasCountPermutation(ps, qs);
    DistinctPermutation(ps, qs, Platforms);
    DistinctPermutation(ps, qs, Countries);
  }
}
